// The older blender of trunk/lib/pt/track.rb, Track::Blender: a pass over
// the live region list whose closeness test is strict, and which, when it
// interprets tags, keeps a sticky "blend tag active" flag and lets a "!"
// region suspend blending until the next real gap.
//
// trunk's Region has no `tag` method and only a private instance method
// `divs_per_second`, so as written every reading of a tag, and the default
// duration of Track#blend!, raise. The functions take the Region they run
// against as a parameter: `AsWritten` raises where the code does, and
// `Corrected` answers `tag` with the suffix Track#scan_region_name splits
// off and `divs_per_second` with 600, as the rest of the code expects. The
// Blender object holds the Region class as a field.

module TrunkBlending {
  import opened Base
  import opened Timecode
  import opened Naming
  import opened Tracks
  import opened TrackObjects
  import Blending

  /** The Region class the blender runs against. */
  datatype RegionClass = AsWritten | Corrected

  /** Track::Blender::BLEND_TAGS. */
  const BlendTags: seq<string> := ["]]", ">>", "}}"]

  /** `region.tag`. */
  function ReadTag(x: Region, rc: RegionClass): Result<Option<string>>
  {
    match rc
    case AsWritten => Err(UndefinedName("tag"))
    case Corrected => Ok(ScanRegionName(x.name).1)
  }

  predicate IsBlendTag(tag: Option<string>)
  {
    tag.Some? && tag.value in BlendTags
  }

  /** The blender's state: the live track, `@blend_duration`, `@blend_tag_active` and `@blend_duration_memo`. */
  datatype BlendState = BlendState(track: TrackState, duration: int, active: bool, memo: Option<int>)

  /** closeness_forces_blend?: a gap strictly shorter than the blend duration. */
  predicate Close(t: TrackState, a: RegionId, b: RegionId, duration: int)
    requires 0 <= a < |t.cells| && 0 <= b < |t.cells|
  {
    t.cells[b].start - t.cells[a].finish < duration
  }

  /** tag_forces_blend?: a blend tag on the first region sets the flag, which is the answer. */
  function TagForces(s: BlendState, a: RegionId, rc: RegionClass): (r: (BlendState, Result<bool>))
    requires 0 <= a < |s.track.cells|
    ensures r.0.track == s.track && r.0.duration == s.duration && r.0.memo == s.memo
    ensures r.1.Ok? ==> r.0.active == r.1.value
  {
    match ReadTag(s.track.cells[a], rc)
    case Err(e) => (s, Err(e))
    case Ok(tag) =>
      var active := s.active || IsBlendTag(tag);
      (s.(active := active), Ok(active))
  }

  /** should_blend?: `closeness or tag_forces` (short-circuit) when tags are interpreted, else closeness. */
  function ShouldBlend(s: BlendState, a: RegionId, b: RegionId, interpret: bool, rc: RegionClass): (r: (BlendState, Result<bool>))
    requires 0 <= a < |s.track.cells| && 0 <= b < |s.track.cells|
    ensures r.0.track == s.track && r.0.duration == s.duration && r.0.memo == s.memo
  {
    if Close(s.track, a, b, s.duration) then (s, Ok(true))
    else if interpret then TagForces(s, a, rc)
    else (s, Ok(false))
  }

  /**
   * read_tags: a "!" first region clears the flag, saves the duration and
   * sets it to 0; otherwise a real gap after it restores a saved duration;
   * then a "!!" second region clears the flag.
   */
  function ReadTags(s: BlendState, a: RegionId, b: RegionId, rc: RegionClass): (r: (BlendState, Option<Failure>))
    requires 0 <= a < |s.track.cells| && 0 <= b < |s.track.cells|
    ensures r.0.track == s.track
  {
    match ReadTag(s.track.cells[a], rc)
    case Err(e) => (s, Some(e))
    case Ok(ft) =>
      var s1 :=
        if ft == Some("!") then s.(active := false, memo := Some(s.duration), duration := 0)
        else if s.track.cells[a].finish < s.track.cells[b].start && s.memo.Some? then s.(duration := s.memo.value, memo := None)
        else s;
      match ReadTag(s.track.cells[b], rc)
      case Err(e) => (s1, Some(e))
      case Ok(st) => (if st == Some("!!") then s1.(active := false) else s1, None)
  }

  /** One step on (first, second) = (a, b): `first.finish = second.start if should_blend?`, then read_tags. */
  function TrunkStep(s: BlendState, a: RegionId, b: RegionId, interpret: bool, rc: RegionClass): (r: (BlendState, Option<Failure>))
    requires WellFormed(s.track) && 0 <= a < |s.track.cells| && 0 <= b < |s.track.cells|
    ensures WellFormed(r.0.track) && |r.0.track.cells| == |s.track.cells| && |r.0.track.order| <= |s.track.order|
    ensures SameLabels(s.track.cells, r.0.track.cells)
  {
    var c := ShouldBlend(s, a, b, interpret, rc);
    match c.1
    case Err(e) => (c.0, Some(e))
    case Ok(blend) =>
      var s2 := if blend then c.0.(track := Close2(c.0.track, a, b)) else c.0;
      if interpret then ReadTags(s2, a, b, rc) else (s2, None)
  }

  /** `first.finish = second.start`; names and statuses stay as they were. */
  function Close2(t: TrackState, a: RegionId, b: RegionId): (u: TrackState)
    requires WellFormed(t) && 0 <= a < |t.cells| && 0 <= b < |t.cells|
    ensures WellFormed(u) && |u.cells| == |t.cells| && |u.order| <= |t.order| && SameLabels(t.cells, u.cells)
  {
    var t1 := Retimed(t, a, t.cells[a].start, t.cells[b].start);
    assert SameLabels(t.cells, t1.cells);
    var u := SetFinish(t, a, t.cells[b].start);
    SameLabelsTrans(t.cells, t1.cells, u.cells);
    u
  }

  /**
   * Blender#blend! from step i of n over the live list; a missing region
   * raises in the closeness test (`second.start` on nil) and a raising step
   * ends the pass with the state it had reached.
   */
  function TrunkBlendFrom(s: BlendState, i: nat, n: nat, interpret: bool, rc: RegionClass): (r: (BlendState, Option<Failure>))
    requires WellFormed(s.track)
    ensures WellFormed(r.0.track) && |r.0.track.cells| == |s.track.cells| && SameLabels(s.track.cells, r.0.track.cells)
    decreases n - i
  {
    if i >= n then (s, None)
    else if i + 1 >= |s.track.order| then (s, Some(NoMethodOnNil("start")))
    else
      var r := TrunkStep(s, s.track.order[i], s.track.order[i + 1], interpret, rc);
      if r.1.Some? then r
      else
        var q := TrunkBlendFrom(r.0, i + 1, n, interpret, rc);
        SameLabelsTrans(s.track.cells, r.0.track.cells, q.0.track.cells);
        q
  }

  /** A step that raises nothing moves the pass on to the next pair. */
  lemma TrunkUnfold(s: BlendState, i: nat, n: nat, interpret: bool, rc: RegionClass)
    requires WellFormed(s.track) && i < n && i + 1 < |s.track.order|
    requires TrunkStep(s, s.track.order[i], s.track.order[i + 1], interpret, rc).1 == None
    ensures TrunkBlendFrom(s, i, n, interpret, rc)
         == TrunkBlendFrom(TrunkStep(s, s.track.order[i], s.track.order[i + 1], interpret, rc).0, i + 1, n, interpret, rc)
  {
  }

  /** A missing second region raises `start` on nil. */
  lemma TrunkMissing(s: BlendState, i: nat, n: nat, interpret: bool, rc: RegionClass)
    requires WellFormed(s.track) && i < n && i + 1 >= |s.track.order|
    ensures TrunkBlendFrom(s, i, n, interpret, rc) == (s, Some(NoMethodOnNil("start")))
  {
  }

  /** A step that raises ends the pass with its state and its exception. */
  lemma TrunkStops(s: BlendState, i: nat, n: nat, interpret: bool, rc: RegionClass)
    requires WellFormed(s.track) && i < n && i + 1 < |s.track.order|
    requires TrunkStep(s, s.track.order[i], s.track.order[i + 1], interpret, rc).1.Some?
    ensures TrunkBlendFrom(s, i, n, interpret, rc) == TrunkStep(s, s.track.order[i], s.track.order[i + 1], interpret, rc)
  {
  }

  /** blend!: the flag cleared, no saved duration, `size - 1` steps. */
  function TrunkBlend(t: TrackState, duration: int, interpret: bool, rc: RegionClass): (r: (BlendState, Option<Failure>))
    requires WellFormed(t)
  {
    TrunkBlendFrom(BlendState(t, duration, false, None), 0, Blending.BlendSteps(t), interpret, rc)
  }

  // ----- Without tags, the strict comparison is branch_1's with one division less -----

  /** Without tags a step closes the pair exactly when the gap is strictly shorter than the duration. */
  lemma {:induction false} PlainStep(s: BlendState, a: RegionId, b: RegionId, rc: RegionClass)
    requires WellFormed(s.track) && 0 <= a < |s.track.cells| && 0 <= b < |s.track.cells|
    ensures TrunkStep(s, a, b, false, rc)
         == (s.(track := if Close(s.track, a, b, s.duration) then Close2(s.track, a, b) else s.track), None)
  {
  }

  /** The track after one step without tags from position i. */
  function PlainNext(t: TrackState, i: nat, dur: int): (u: TrackState)
    requires WellFormed(t) && i + 1 < |t.order|
    ensures WellFormed(u)
  {
    if Close(t, t.order[i], t.order[i + 1], dur) then Close2(t, t.order[i], t.order[i + 1]) else t
  }

  /** One step of the trunk pass without tags. */
  lemma {:induction false} TrunkPlainUnfold(s: BlendState, i: nat, n: nat, rc: RegionClass)
    requires WellFormed(s.track) && i < n && i + 1 < |s.track.order|
    ensures TrunkBlendFrom(s, i, n, false, rc)
         == TrunkBlendFrom(s.(track := PlainNext(s.track, i, s.duration)), i + 1, n, false, rc)
  {
    PlainStep(s, s.track.order[i], s.track.order[i + 1], rc);
  }

  /**
   * The blending pass without tags on its own: from step i of n, each
   * present pair is closed when its gap is strictly shorter than dur, and a
   * missing pair stops the pass with `undefined method start for nil`.
   */
  function PlainFrom(t: TrackState, dur: int, i: nat, n: nat): (r: (TrackState, Option<Failure>))
    requires WellFormed(t)
    ensures WellFormed(r.0)
    decreases n - i
  {
    if i >= n then (t, None)
    else if i + 1 >= |t.order| then (t, Some(NoMethodOnNil("start")))
    else PlainFrom(PlainNext(t, i, dur), dur, i + 1, n)
  }

  /** The trunk pass with interpretation off is the plain pass: only the track changes. */
  lemma {:induction false} TrunkPlainFrom(s: BlendState, i: nat, n: nat, rc: RegionClass)
    requires WellFormed(s.track)
    ensures TrunkBlendFrom(s, i, n, false, rc).0 == s.(track := PlainFrom(s.track, s.duration, i, n).0)
    ensures TrunkBlendFrom(s, i, n, false, rc).1 == PlainFrom(s.track, s.duration, i, n).1
    decreases n - i
  {
    if i < n && i + 1 < |s.track.order| {
      TrunkPlainUnfold(s, i, n, rc);
      TrunkPlainFrom(s.(track := PlainNext(s.track, i, s.duration)), i + 1, n, rc);
    } else {
      assert s.(track := s.track) == s;
    }
  }

  /** The same step of branch_1's pass without a test, one division less. */
  lemma {:induction false} BranchPlainUnfold(t: TrackState, dur: int, i: nat, n: nat)
    requires WellFormed(t) && i < n && i + 1 < |t.order|
    ensures Blending.BranchBlendFrom(Blending.Pass(t, Blending.NoTest), i, n, dur - 1)
         == Blending.BranchBlendFrom(Blending.Pass(PlainNext(t, i, dur), Blending.NoTest), i + 1, n, dur - 1)
  {
    Blending.NoTestPair(t, t.order[i], t.order[i + 1], dur - 1);
  }

  /** branch_1's pass without a test, with the duration one less, is the plain pass. */
  lemma {:induction false} BranchPlainFrom(t: TrackState, dur: int, i: nat, n: nat)
    requires WellFormed(t)
    ensures Blending.BranchBlendFrom(Blending.Pass(t, Blending.NoTest), i, n, dur - 1)
         == (Blending.Pass(PlainFrom(t, dur, i, n).0, Blending.NoTest), PlainFrom(t, dur, i, n).1)
    decreases n - i
  {
    if i < n && i + 1 < |t.order| {
      BranchPlainFrom(PlainNext(t, i, dur), dur, i + 1, n);
      BranchPlainStep(t, dur, i, n);
    } else {
      BranchPlainDone(t, dur, i, n);
    }
  }

  lemma BranchPlainStep(t: TrackState, dur: int, i: nat, n: nat)
    requires WellFormed(t) && i < n && i + 1 < |t.order|
    requires Blending.BranchBlendFrom(Blending.Pass(PlainNext(t, i, dur), Blending.NoTest), i + 1, n, dur - 1)
          == (Blending.Pass(PlainFrom(PlainNext(t, i, dur), dur, i + 1, n).0, Blending.NoTest),
              PlainFrom(PlainNext(t, i, dur), dur, i + 1, n).1)
    ensures Blending.BranchBlendFrom(Blending.Pass(t, Blending.NoTest), i, n, dur - 1)
         == (Blending.Pass(PlainFrom(t, dur, i, n).0, Blending.NoTest), PlainFrom(t, dur, i, n).1)
  {
    BranchPlainUnfold(t, dur, i, n);
  }

  lemma BranchPlainDone(t: TrackState, dur: int, i: nat, n: nat)
    requires WellFormed(t) && !(i < n && i + 1 < |t.order|)
    ensures Blending.BranchBlendFrom(Blending.Pass(t, Blending.NoTest), i, n, dur - 1)
         == (Blending.Pass(PlainFrom(t, dur, i, n).0, Blending.NoTest), PlainFrom(t, dur, i, n).1)
  {
    if i < n {
      assert Blending.MissingPair(Blending.NoTest) == NoMethodOnNil("start");
    }
  }

  lemma {:induction false} PlainPass(t: TrackState, duration: int, rc: RegionClass)
    requires WellFormed(t)
    ensures TrunkBlend(t, duration, false, rc).0.track
         == Blending.BranchBlend(Blending.Pass(t, Blending.NoTest), duration - 1).0.track
    ensures TrunkBlend(t, duration, false, rc).1 == Blending.BranchBlend(Blending.Pass(t, Blending.NoTest), duration - 1).1
    ensures TrunkBlend(t, duration, false, rc).0.duration == duration
  {
    TrunkPlainFrom(BlendState(t, duration, false, None), 0, Blending.BlendSteps(t), rc);
    BranchPlainFrom(t, duration, 0, Blending.BlendSteps(t));
  }

  // ----- The tag rules, with the corrected Region -----

  /**
   * One step interpreting tags: the pair is closed when the gap is
   * strictly shorter than the duration, or the flag is set, or the first
   * region carries a blend tag. The flag is set by a blend tag only when
   * the gap did not already decide (the `or` short-circuits); read_tags
   * then handles "!" (flag cleared, duration saved and zeroed), the
   * restoring of a saved duration at a real gap, and "!!" (flag cleared).
   */
  lemma {:induction false} TagRules(s: BlendState, a: RegionId, b: RegionId)
    requires WellFormed(s.track) && 0 <= a < |s.track.cells| && 0 <= b < |s.track.cells|
    ensures var r := TrunkStep(s, a, b, true, Corrected);
      var ft, st := Tag(s.track.cells[a].name), Tag(s.track.cells[b].name);
      var close := Close(s.track, a, b, s.duration);
      var blends := close || s.active || IsBlendTag(ft);
      var u := if blends then Close2(s.track, a, b) else s.track;
      r.1 == None && r.0.track == u
      && r.0.active == (st != Some("!!") && ft != Some("!") && (if close then s.active else s.active || IsBlendTag(ft)))
      && (ft == Some("!") ==> r.0.duration == 0 && r.0.memo == Some(s.duration))
      && (ft != Some("!") && s.memo.Some? && u.cells[a].finish < u.cells[b].start ==>
            r.0.duration == s.memo.value && r.0.memo == None)
      && (ft != Some("!") && !(s.memo.Some? && u.cells[a].finish < u.cells[b].start) ==>
            r.0.duration == s.duration && r.0.memo == s.memo)
  {
    ScanTag(s.track.cells[a].name);
    ScanTag(s.track.cells[b].name);
  }

  lemma {:induction false} ScanTag(name: string)
    ensures ScanRegionName(name).1 == Tag(name)
  {
  }

  /**
   * As written, trunk's pass cannot interpret tags: on any track of two
   * regions or more, its first step asks a Region for its `tag` and raises.
   */
  lemma {:induction false} AsWrittenTagsRaise(t: TrackState, duration: int)
    requires WellFormed(t) && |t.order| >= 2
    ensures TrunkBlend(t, duration, true, AsWritten).1 == Some(UndefinedName("tag"))
  {
  }

  // ----- Track#blend! and Track#interpret_tagging! -----

  /**
   * Track#blend!(duration, interpret_tags): the duration given, or the
   * session's blend (in whole seconds here) times `Region.divs_per_second`,
   * which as written is undefined.
   */
  function TrackBlend(t: TrackState, duration: Option<int>, interpret: bool, sessionBlend: int, rc: RegionClass): (r: (TrackState, Option<Failure>))
    requires WellFormed(t)
    ensures WellFormed(r.0) && |r.0.cells| == |t.cells| && SameLabels(t.cells, r.0.cells)
  {
    if duration.None? && rc == AsWritten then (t, Some(UndefinedName("divs_per_second")))
    else
      var d := if duration.Some? then duration.value else sessionBlend * DivsPerSecond;
      var r := TrunkBlend(t, d, interpret, rc);
      (r.0.track, r.1)
  }

  /** As written, blend! without a duration raises before touching the track. */
  lemma {:induction false} AsWrittenDefaultRaises(t: TrackState, interpret: bool, sessionBlend: int)
    requires WellFormed(t)
    ensures TrackBlend(t, None, interpret, sessionBlend, AsWritten) == (t, Some(UndefinedName("divs_per_second")))
  {
  }

  /** Corrected, blend! without a duration blends with the session's blend in divisions. */
  lemma {:induction false} CorrectedDefaultDuration(t: TrackState, interpret: bool, sessionBlend: int)
    requires WellFormed(t)
    ensures var r := TrunkBlend(t, sessionBlend * 600, interpret, Corrected);
      TrackBlend(t, None, interpret, sessionBlend, Corrected) == (r.0.track, r.1)
  {
  }

  /**
   * Track#interpret_tagging!: the sequence list it walks is always empty,
   * so all it does is `blend! nil, true`: no region is created, renamed or
   * given another status; only times and the list change.
   */
  function InterpretTagging(t: TrackState, sessionBlend: int, rc: RegionClass): (r: (TrackState, Option<Failure>))
    requires WellFormed(t)
    ensures WellFormed(r.0) && |r.0.cells| == |t.cells| && SameLabels(t.cells, r.0.cells)
    ensures rc == AsWritten ==> r == (t, Some(UndefinedName("divs_per_second")))
  {
    TrackBlend(t, None, true, sessionBlend, rc)
  }

  // ----- The Blender object -----

  class TrunkBlender {
    /** `@regions`: the track whose live list the blender walks. */
    var regions: Track
    var blendDuration: int
    var interpretTags: bool
    var blendTagActive: bool
    var blendDurationMemo: Option<int>
    /** The Region class whose `tag` the blender calls. */
    const regionClass: RegionClass

    ghost function State(): BlendState
      reads this, regions
    {
      BlendState(regions.State(), blendDuration, blendTagActive, blendDurationMemo)
    }

    /** Blender.new(region_array) with the block that sets the duration and interpret_tags. */
    constructor (track: Track, duration: int, interpret: bool, rc: RegionClass)
      ensures regions == track && blendDuration == duration && interpretTags == interpret && regionClass == rc
      ensures !blendTagActive && blendDurationMemo.None?
    {
      regions := track;
      blendDuration := duration;
      interpretTags := interpret;
      blendTagActive := false;
      blendDurationMemo := None;
      regionClass := rc;
    }

    /** tag_forces_blend?. */
    method TagForcesBlend(a: RegionId) returns (forces: Result<bool>)
      requires regions.Valid() && 0 <= a < |regions.cells|
      modifies this
      ensures regions == old(regions) && interpretTags == old(interpretTags)
      ensures (State(), forces) == TagForces(old(State()), a, regionClass)
    {
      var tag := ReadTag(regions.cells[a], regionClass);
      if tag.Err? {
        return Err(tag.error);
      }
      if IsBlendTag(tag.value) {
        blendTagActive := true;
      }
      forces := Ok(blendTagActive);
    }

    /** should_blend?. */
    method ShouldBlendPair(a: RegionId, b: RegionId) returns (blend: Result<bool>)
      requires regions.Valid() && 0 <= a < |regions.cells| && 0 <= b < |regions.cells|
      modifies this
      ensures regions == old(regions) && interpretTags == old(interpretTags)
      ensures (State(), blend) == ShouldBlend(old(State()), a, b, interpretTags, regionClass)
    {
      if regions.cells[b].start - regions.cells[a].finish < blendDuration {
        return Ok(true);
      }
      if interpretTags {
        blend := TagForcesBlend(a);
      } else {
        blend := Ok(false);
      }
    }

    /** read_tags. */
    method ReadTagsOf(a: RegionId, b: RegionId) returns (err: Option<Failure>)
      requires regions.Valid() && 0 <= a < |regions.cells| && 0 <= b < |regions.cells|
      modifies this
      ensures regions == old(regions) && interpretTags == old(interpretTags)
      ensures (State(), err) == ReadTags(old(State()), a, b, regionClass)
    {
      var ft := ReadTag(regions.cells[a], regionClass);
      if ft.Err? {
        return Some(ft.error);
      }
      if ft.value == Some("!") {
        blendTagActive := false;
        blendDurationMemo := Some(blendDuration);
        blendDuration := 0;
      } else if regions.cells[a].finish < regions.cells[b].start && blendDurationMemo.Some? {
        blendDuration := blendDurationMemo.value;
        blendDurationMemo := None;
      }
      var st := ReadTag(regions.cells[b], regionClass);
      if st == Ok(Some("!!")) {
        blendTagActive := false;
      }
      err := None;
    }

    /** One step of blend! on (a, b). */
    method Step(a: RegionId, b: RegionId) returns (err: Option<Failure>)
      requires regions.Valid() && 0 <= a < |regions.cells| && 0 <= b < |regions.cells|
      modifies this, regions
      ensures regions == old(regions) && interpretTags == old(interpretTags) && regions.Valid()
      ensures (State(), err) == TrunkStep(old(State()), a, b, interpretTags, regionClass)
      ensures regions.name == old(regions.name) && regions.channel == old(regions.channel)
    {
      var blend := ShouldBlendPair(a, b);
      if blend.Err? {
        return Some(blend.error);
      }
      if blend.value {
        regions.SetFinish(a, regions.cells[b].start);
      }
      if interpretTags {
        err := ReadTagsOf(a, b);
      } else {
        err := None;
      }
    }

    /** blend!: returns the exception a step raised, if any. */
    method Blend() returns (err: Option<Failure>)
      requires regions.Valid()
      modifies this, regions
      ensures regions == old(regions) && interpretTags == old(interpretTags) && regions.Valid()
      ensures (State(), err) == TrunkBlend(old(regions.State()), old(blendDuration), interpretTags, regionClass)
      ensures regions.name == old(regions.name) && regions.channel == old(regions.channel)
    {
      blendDurationMemo := None;
      blendTagActive := false;
      var n := if |regions.order| == 0 then 0 else |regions.order| - 1;
      err := BlendPairs(n);
    }

    /** The `times` loop of blend!, over the first n pairs. */
    method BlendPairs(n: nat) returns (err: Option<Failure>)
      requires regions.Valid()
      modifies this, regions
      ensures regions == old(regions) && interpretTags == old(interpretTags) && regions.Valid()
      ensures (State(), err) == TrunkBlendFrom(old(State()), 0, n, interpretTags, regionClass)
      ensures regions.name == old(regions.name) && regions.channel == old(regions.channel)
    {
      ghost var goal := TrunkBlendFrom(State(), 0, n, interpretTags, regionClass);
      var i := 0;
      while i < n
        invariant regions == old(regions) && interpretTags == old(interpretTags) && regions.Valid() && 0 <= i <= n
        invariant TrunkBlendFrom(State(), i, n, interpretTags, regionClass) == goal
        invariant regions.name == old(regions.name) && regions.channel == old(regions.channel)
        decreases n - i
      {
        if i + 1 >= |regions.order| {
          TrunkMissing(State(), i, n, interpretTags, regionClass);
          return Some(NoMethodOnNil("start"));
        }
        ghost var s := State();
        var e := Step(regions.order[i], regions.order[i + 1]);
        if e.Some? {
          TrunkStops(s, i, n, interpretTags, regionClass);
          return e;
        }
        TrunkUnfold(s, i, n, interpretTags, regionClass);
        i := i + 1;
      }
      err := None;
    }
  }

  /**
   * Track#blend! on a track object: as written, the default duration
   * `Region.divs_per_second` raises before the blender is made.
   */
  method BlendTrack(track: Track, duration: Option<int>, interpret: bool, sessionBlend: int, rc: RegionClass) returns (err: Option<Failure>)
    requires track.Valid()
    modifies track
    ensures track.Valid() && (track.State(), err) == TrackBlend(old(track.State()), duration, interpret, sessionBlend, rc)
    ensures track.name == old(track.name) && track.channel == old(track.channel)
  {
    if duration.None? && rc == AsWritten {
      return Some(UndefinedName("divs_per_second"));
    }
    var d := if duration.Some? then duration.value else sessionBlend * DivsPerSecond;
    var b := new TrunkBlender(track, d, interpret, rc);
    err := b.Blend();
  }
}
