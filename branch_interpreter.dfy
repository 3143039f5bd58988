// TagInterpreter of branches/branch_1: blending with the tag test, the
// deletion of "!" regions, the touching sequences and the tag table all
// happen inside one interpret_track. As written the loop over the
// sequences calls `clean_name`, which branch_1's Region does not define;
// BranchInterpretCorrected reads it as `tag_match_data` splits the name. It uses branch_1's blender, which
// raises on a missing pair, reads the brace start as the region's start
// while the blending flag is still set, and passes no status to the cues
// it makes. The table and the loop are those of module Interpreting with
// the Branch1 dialect.

module BranchInterpreting {
  import opened Base
  import opened Naming
  import opened Tracks
  import opened TrackObjects
  import opened Interpreting
  import Blending
  import Timecode

  /** Whether branch_1's blend of t with the tag test runs without raising. */
  predicate BlendRuns(t: TrackState, dur: int)
    requires WellFormed(t)
  {
    Blending.BranchBlend(Blending.Pass(t, Blending.TagTest(false)), dur).1.None?
  }

  /**
   * interpret_track with the blender's duration dur, as written: the pass
   * of the tag test over the track (changed in place through the shared
   * list), the delete_if and the sequences. The loop over the sequences
   * then asks the first region for its `clean_name`, which branch_1's
   * Region does not define, so every track with a region left raises.
   */
  function BranchInterpret(t: TrackState, dur: int): (o: Outcome)
    requires WellFormed(t)
    ensures WellFormed(o.input) && o.test.TagTest?
    ensures o.output.Ok? ==> o.output.value == AllDeleted(o.input)
    ensures BlendRuns(t, dur) ==> (o.output.Ok? <==> |o.input.order| == 0)
    ensures BlendRuns(t, dur) && o.output.Err? ==>
      o.output.error == (if o.input.cells[o.input.order[0]].start <= -1 then NoMethodOnNil("<<") else UndefinedName("clean_name"))
  {
    var (p, err) := Blending.BranchBlend(Blending.Pass(t, Blending.TagTest(false)), dur);
    if err.Some? then Outcome(p.track, p.test, Err(err.value))
    else
      var t2 := DroppedBang(p.track);
      SequencesRuns(Regions(t2));
      match Sequences(Regions(t2))
      case Err(e) => Outcome(t2, p.test, Err(e))
      case Ok(ss) =>
        if ss != [] then Outcome(t2, p.test, Err(UndefinedName("clean_name")))
        else Outcome(t2, p.test, Ok(AllDeleted(t2)))
  }

  /**
   * interpret_track with `clean_name` read as the part of the name before
   * the tag, as `tag_match_data` splits it: the sequences are synthesised
   * with the branch_1 table, with `stick_open` as the blending left it.
   */
  function BranchInterpretCorrected(t: TrackState, dur: int): (o: Outcome)
    requires WellFormed(t)
    ensures WellFormed(o.input) && (o.output.Ok? ==> WellFormed(o.output.value))
    ensures o.output.Ok? ==> forall k :: 0 <= k < |o.input.order| ==> !Bang(o.input.cells[o.input.order[k]])
    ensures o.test.TagTest?
    ensures BlendRuns(t, dur) ==>
      (o.output.Err? <==> |o.input.order| > 0 && o.input.cells[o.input.order[0]].start <= -1)
  {
    var (p, err) := Blending.BranchBlend(Blending.Pass(t, Blending.TagTest(false)), dur);
    if err.Some? then Outcome(p.track, p.test, Err(err.value))
    else
      var t2 := DroppedBang(p.track);
      SequencesRuns(Regions(t2));
      match Sequences(Regions(t2))
      case Err(e) => Outcome(t2, p.test, Err(e))
      case Ok(ss) => Outcome(t2, p.test, Ok(AllInto(Branch1, false, p.test.stickOpen, AllDeleted(t2), ss)))
  }

  /**
   * The two readings blend and drop alike and raise alike; they part
   * exactly where a region is left to interpret, where the code as
   * written raises on `clean_name` and the corrected one synthesises.
   */
  lemma {:induction false} CleanNameParts(t: TrackState, dur: int)
    requires WellFormed(t)
    ensures var w := BranchInterpret(t, dur);
      var c := BranchInterpretCorrected(t, dur);
      w.input == c.input && w.test == c.test
      && (c.output.Err? ==> w.output == c.output)
      && (c.output.Ok? && c.input.order == [] ==> w.output == c.output)
      && (c.output.Ok? && c.input.order != [] ==> w.output == Err(UndefinedName("clean_name")))
  {
    var (p, err) := Blending.BranchBlend(Blending.Pass(t, Blending.TagTest(false)), dur);
    if err.None? {
      var t2 := DroppedBang(p.track);
      SequencesRuns(Regions(t2));
      if Sequences(Regions(t2)).Ok? && Sequences(Regions(t2)).value == [] {
        assert AllInto(Branch1, false, p.test.stickOpen, AllDeleted(t2), []) == AllDeleted(t2);
      }
    }
  }

  /** One untagged region: as written the track raises, corrected it gives one cue. */
  lemma {:induction false} CleanNameRaisesOnOneRegion()
    ensures BranchInterpret(TrackState([Region("a", 0, 600, None)], [0]), 600).output == Err(UndefinedName("clean_name"))
    ensures BranchInterpretCorrected(TrackState([Region("a", 0, 600, None)], [0]), 600).output.Ok?
  {
    var t := TrackState([Region("a", 0, 600, None)], [0]);
    var (p, err) := Blending.BranchBlend(Blending.Pass(t, Blending.TagTest(false)), 600);
    assert err.None?;
    var t2 := DroppedBang(p.track);
    assert t2.order != [];
    CleanNameParts(t, 600);
  }

  /** The two tables differ only on the three zero-length tags "[", "{" and "<". */
  lemma {:induction false} TablesAgree(fixed: bool, tag: string)
    requires tag != "[" && tag != "{" && tag != "<"
    ensures CaseOf(Current, tag, fixed) == CaseOf(Branch1, tag, fixed)
  {
  }

  /**
   * Away from the zero-length tags, with the blending flag cleared and a
   * region without status, the two interpreters take the same step.
   */
  lemma {:induction false} DialectsAgree(fixed: bool, tags: nat, st: Synth, x: Region)
    requires Sound(st) && x.status == None
    requires Tag(x.name) != Some("[") && Tag(x.name) != Some("{") && Tag(x.name) != Some("<")
    ensures Step(Current, fixed, false, tags, st, x) == Step(Branch1, fixed, false, tags, st, x)
  {
    assert StatusOf(Current, x) == StatusOf(Branch1, x);
    if IsLegal(Tag(x.name)) {
      var tag := Tag(x.name).value;
      TablesAgree(fixed, tag);
      StepShape(Current, fixed, false, tags, st, x, CaseOf(Current, tag, fixed));
      StepShape(Branch1, fixed, false, tags, st, x, CaseOf(Current, tag, fixed));
    }
  }

  class TagInterpreter {
    const blender: Blending.Blender

    /** TagInterpreter.new: a new blender. */
    constructor ()
      ensures fresh(blender) && blender.blendDuration == Timecode.DivsPerSecond && blender.test == Blending.NoTest
    {
      blender := new Blending.Blender();
    }

    /**
     * interpret_track: the input track is changed in place and its
     * interpretation returned as a new track, or the exception raised.
     */
    method InterpretTrack(track: Track) returns (r: Result<Track>)
      requires track.Valid()
      modifies track, blender
      ensures track.Valid() && blender.blendDuration == old(blender.blendDuration)
      ensures var o := BranchInterpret(old(track.State()), old(blender.blendDuration));
        track.State() == o.input && blender.test == o.test && r.Ok? == o.output.Ok?
        && (r.Err? ==> r.error == o.output.error)
        && (r.Ok? ==> fresh(r.value) && r.value.Valid() && r.value.State() == o.output.value)
      ensures r.Ok? ==> r.value.name == track.name && r.value.channel == track.channel
    {
      blender.TestBeforeBlend(2, Blending.TagTest(false));
      var err := blender.BlendTrack(track);
      if err.Some? {
        return Err(err.value);
      }
      DeleteBangs(track);
      var sequences := ArrayFromTrack(track);
      if sequences.Err? {
        return Err(sequences.error);
      }
      var returnTrack := track.Dup();
      returnTrack.DeleteAllRegions();
      if sequences.value != [] {
        return Err(UndefinedName("clean_name"));
      }
      r := Ok(returnTrack);
    }
  }
}
