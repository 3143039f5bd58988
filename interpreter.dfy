// TagInterpreter (ruby/lib/tag_interpreter.rb): the four stages that
// turn a track of tagged regions into a new track of cues. Short cues are
// closed to zero length, the track is blended with the tag test
// (releases/1_1_0_tmp's nil-guarded blender), regions tagged "!" are
// deleted, the list is cut into touching sequences, and each sequence is
// read into a new track by the tag table.
//
// The per-region rule of the table is shared with the older interpreter
// of branch_1 (module BranchInterpreting), which differs in its table, in
// the start of brace cues and in passing no status; `Dialect` selects.
// Both tables lack an arm for "{{"; the loop takes a flag `fixed` that
// reads "{{" as "}}", and the interpreters run with it off, as written.

module Interpreting {
  import opened Base
  import opened Naming
  import opened Tracks
  import opened TrackObjects
  import Blending
  import Timecode

  // ----- Stage 1: short cues closed -----

  /**
   * `track.regions.each { |r| r.finish = r.start if r.duration < min }`
   * from position i. The list is live: a setter's imposition may delete
   * regions, and each then reads the position it reached in the shorter
   * list.
   */
  function ZeroShortFrom(t: TrackState, i: nat, min: int): (u: TrackState)
    requires WellFormed(t)
    ensures WellFormed(u) && |u.cells| == |t.cells|
    decreases |t.order| - i
  {
    if i >= |t.order| then t
    else
      var x := t.order[i];
      var t1 := if Duration(t.cells[x]) < min then SetFinish(t, x, t.cells[x].start) else t;
      assert |t1.order| <= |t.order|;
      ZeroShortFrom(t1, i + 1, min)
  }

  /** The state after the step at position i. */
  function ZeroShortOne(t: TrackState, i: nat, min: int): (u: TrackState)
    requires WellFormed(t) && i < |t.order|
    ensures WellFormed(u) && |u.cells| == |t.cells| && |u.order| <= |t.order|
    ensures ZeroShortFrom(t, i, min) == ZeroShortFrom(u, i + 1, min)
  {
    var x := t.order[i];
    if Duration(t.cells[x]) < min then SetFinish(t, x, t.cells[x].start) else t
  }

  /** A track with no listed region shorter than min is left as it is; so is any track of non-negative durations under the default 0. */
  lemma {:induction false} ZeroShortNothingShort(t: TrackState, i: nat, min: int)
    requires WellFormed(t) && forall k :: 0 <= k < |t.order| ==> Duration(t.cells[t.order[k]]) >= min
    ensures ZeroShortFrom(t, i, min) == t
    decreases |t.order| - i
  {
    if i < |t.order| {
      ZeroShortNothingShort(t, i + 1, min);
    }
  }

  /** The region as `finish = start if duration < min` leaves its fields. */
  function Zeroed(x: Region, min: int): Region
  {
    if Duration(x) < min then x.(finish := x.start) else x
  }

  /** Starts strictly increase along the list and no duration is negative. */
  predicate Ascending(t: TrackState)
    requires WellFormed(t)
  {
    (forall i :: 0 <= i < |t.order| ==> t.cells[t.order[i]].start <= t.cells[t.order[i]].finish)
    && (forall i, j :: 0 <= i < j < |t.order| ==> t.cells[t.order[i]].start < t.cells[t.order[j]].start)
  }

  /** s is t with its first k listed regions zeroed by the rule and the rest untouched. */
  predicate ZeroedUpTo(t: TrackState, s: TrackState, min: int, k: nat)
    requires WellFormed(t)
  {
    s.order == t.order && |s.cells| == |t.cells| && WellFormed(s) && Ascending(s)
    && (forall i :: 0 <= i < k && i < |t.order| ==> s.cells[t.order[i]] == Zeroed(t.cells[t.order[i]], min))
    && (forall i :: k <= i < |t.order| ==> s.cells[t.order[i]] == t.cells[t.order[i]])
  }

  /** In an ascending track the region at position i is listed nowhere else. */
  lemma {:induction false} AscendingDistinct(t: TrackState, i: nat)
    requires WellFormed(t) && Ascending(t) && i < |t.order|
    ensures forall k :: 0 <= k < |t.order| && k != i ==> t.order[k] != t.order[i]
  {
    forall k | 0 <= k < |t.order| && k != i ensures t.order[k] != t.order[i] {
      if k < i {
        assert t.cells[t.order[k]].start < t.cells[t.order[i]].start;
      } else {
        assert t.cells[t.order[i]].start < t.cells[t.order[k]].start;
      }
    }
  }

  /** The write of `finish = start` at position i of an ascending track. */
  lemma {:induction false} ZeroRetimed(t: TrackState, i: nat)
    requires WellFormed(t) && Ascending(t) && i < |t.order|
    ensures var x := t.order[i];
      var u := Retimed(t, x, t.cells[x].start, t.cells[x].start);
      WellFormed(u) && u.order == t.order && u.cells[x] == t.cells[x].(finish := t.cells[x].start)
      && (forall k :: 0 <= k < |t.order| && k != i ==> u.cells[t.order[k]] == t.cells[t.order[k]])
      && Ascending(u)
  {
    AscendingDistinct(t, i);
  }

  /**
   * Closing a region of an ascending track to zero length deletes and
   * trims nothing: every other region starts strictly before or strictly
   * after it and none is negative.
   */
  lemma {:induction false} ZeroClose(t: TrackState, i: nat)
    requires WellFormed(t) && Ascending(t) && i < |t.order|
    ensures var x := t.order[i];
      SetFinish(t, x, t.cells[x].start) == Retimed(t, x, t.cells[x].start, t.cells[x].start)
  {
    var x := t.order[i];
    var u := Retimed(t, x, t.cells[x].start, t.cells[x].start);
    ZeroRetimed(t, i);
    forall k | 0 <= k < |u.order| && k != i ensures Blending.Clear(u.cells[u.order[k]], u.cells[x]) {
      assert u.cells[u.order[k]] == t.cells[t.order[k]];
      if k < i {
        assert t.cells[t.order[k]].start < t.cells[x].start;
      } else {
        assert t.cells[x].start < t.cells[t.order[k]].start;
      }
    }
    ImposeNoop(u, x);
  }

  lemma {:induction false} ZeroStep(t: TrackState, s: TrackState, min: int, k: nat)
    requires WellFormed(t) && k < |t.order| && ZeroedUpTo(t, s, min, k)
    ensures ZeroedUpTo(t, ZeroShortOne(s, k, min), min, k + 1)
  {
    var x := s.order[k];
    assert s.cells[x] == t.cells[x];
    if Duration(s.cells[x]) < min {
      ZeroStepClose(t, s, min, k);
    } else {
      assert Zeroed(t.cells[x], min) == t.cells[x];
    }
  }

  lemma {:induction false} ZeroStepClose(t: TrackState, s: TrackState, min: int, k: nat)
    requires WellFormed(t) && k < |t.order| && ZeroedUpTo(t, s, min, k)
    requires Duration(s.cells[s.order[k]]) < min
    ensures var x := s.order[k];
      ZeroedUpTo(t, Retimed(s, x, s.cells[x].start, s.cells[x].start), min, k + 1)
    ensures var x := s.order[k];
      ZeroShortOne(s, k, min) == Retimed(s, x, s.cells[x].start, s.cells[x].start)
  {
    var x := s.order[k];
    var u := Retimed(s, x, s.cells[x].start, s.cells[x].start);
    ZeroClose(s, k);
    ZeroRetimed(s, k);
    assert s.cells[x] == t.cells[x];
    assert u.cells[x] == Zeroed(t.cells[x], min);
  }

  lemma {:induction false} ZeroShortUpTo(t: TrackState, s: TrackState, min: int, k: nat)
    requires WellFormed(t) && k <= |t.order| && ZeroedUpTo(t, s, min, k)
    ensures ZeroedUpTo(t, ZeroShortFrom(s, k, min), min, |t.order|)
    decreases |t.order| - k
  {
    if k < |t.order| {
      var s1 := ZeroShortOne(s, k, min);
      ZeroStep(t, s, min, k);
      ZeroShortUpTo(t, s1, min, k + 1);
    }
  }

  /**
   * On a track whose starts strictly increase and whose durations are not
   * negative, the stage keeps the list and closes exactly the regions
   * shorter than min: each ends at its own start, the others are as they
   * were.
   */
  lemma {:induction false} ZeroShortAscending(t: TrackState, min: int)
    requires WellFormed(t) && Ascending(t)
    ensures var u := ZeroShortFrom(t, 0, min);
      u.order == t.order
      && forall i :: 0 <= i < |t.order| ==> u.cells[t.order[i]] == Zeroed(t.cells[t.order[i]], min)
  {
    ZeroShortUpTo(t, t, min, 0);
  }

  // ----- Stage 2: blending with tags, then "!" regions deleted -----

  /** Tagged "!". */
  predicate Bang(x: Region)
  {
    Tag(x.name) == Some("!")
  }

  /** `regions.delete_if { |r| r.tag == "!" }` on the list of identities. */
  function Unbanged(cells: seq<Region>, order: seq<RegionId>): (kept: seq<RegionId>)
    requires Listed(cells, order)
    ensures Listed(cells, kept) && |kept| <= |order|
    ensures forall k :: 0 <= k < |kept| ==> !Bang(cells[kept[k]])
    ensures forall id :: id in kept <==> id in order && 0 <= id < |cells| && !Bang(cells[id])
  {
    if order == [] then []
    else
      var x := order[|order| - 1];
      var p := Unbanged(cells, order[..|order| - 1]);
      assert forall id :: id in order <==> id in order[..|order| - 1] || id == x;
      if Bang(cells[x]) then p else p + [x]
  }

  /** The track after the delete_if. */
  function DroppedBang(t: TrackState): (u: TrackState)
    requires WellFormed(t)
    ensures WellFormed(u) && u.cells == t.cells
  {
    t.(order := Unbanged(t.cells, t.order))
  }

  // ----- Stage 3: the touching sequences -----

  /**
   * RegionSequence.array_from_track on the listed regions: a new sequence
   * starts at a region starting after the finish of the previous one
   * (after -1 for the first); otherwise the region joins the last
   * sequence, and when there is none yet (a first region starting at or
   * before -1) `nil << region` raises.
   */
  function Sequences(rs: seq<Region>): (r: Result<seq<seq<Region>>>)
    ensures r.Ok? ==> forall k :: 0 <= k < |r.value| ==> r.value[k] != []
    ensures r.Ok? ==> (r.value == [] <==> rs == [])
    ensures r.Err? ==> r.error == NoMethodOnNil("<<")
  {
    if rs == [] then Ok([])
    else
      var x := rs[|rs| - 1];
      var lastIn := if |rs| == 1 then -1 else rs[|rs| - 2].finish;
      match Sequences(rs[..|rs| - 1])
      case Err(e) => Err(e)
      case Ok(ss) =>
        if x.start > lastIn then Ok(ss + [[x]])
        else if ss == [] then Err(NoMethodOnNil("<<"))
        else Ok(ss[..|ss| - 1] + [ss[|ss| - 1] + [x]])
  }

  /** Every region of a run starts no later than the previous region of the run finishes. */
  predicate Touching(ss: seq<seq<Region>>)
  {
    forall k, j :: 0 <= k < |ss| && 0 < j < |ss[k]| ==> ss[k][j].start <= ss[k][j - 1].finish
  }

  /** Every run starts after the previous run's last finish, the first after -1. */
  predicate Apart(ss: seq<seq<Region>>)
  {
    (forall k :: 0 < k < |ss| && ss[k - 1] != [] && ss[k] != [] ==> ss[k][0].start > ss[k - 1][|ss[k - 1]| - 1].finish)
    && (ss != [] && ss[0] != [] ==> ss[0][0].start > -1)
  }

  /** ss cuts rs, in order, into non-empty touching runs that are apart. */
  predicate Runs(rs: seq<Region>, ss: seq<seq<Region>>)
  {
    Flatten(ss) == rs && (forall k :: 0 <= k < |ss| ==> ss[k] != []) && Touching(ss) && Apart(ss)
  }

  /** The last region of the concatenation is the last of the last run. */
  lemma {:induction false} FlattenLast(ss: seq<seq<Region>>)
    requires ss != [] && ss[|ss| - 1] != []
    ensures Flatten(ss) == Flatten(ss[..|ss| - 1]) + ss[|ss| - 1]
    ensures Flatten(ss)[|Flatten(ss)| - 1] == ss[|ss| - 1][|ss[|ss| - 1]| - 1]
  {
    var n := |ss|;
    FlattenAppend(ss[..n - 1], ss[n - 1]);
    assert ss[..n - 1] + [ss[n - 1]] == ss;
  }

  /** A region after the last run, starting after its finish, is a run of its own. */
  lemma {:induction false} RunsNew(rs: seq<Region>, ss: seq<seq<Region>>, x: Region)
    requires Runs(rs, ss) && (rs == [] ==> x.start > -1) && (rs != [] ==> x.start > rs[|rs| - 1].finish)
    ensures Runs(rs + [x], ss + [[x]])
  {
    FlattenAppend(ss, [x]);
    var ss1: seq<seq<Region>> := ss + [[x]];
    if ss != [] {
      FlattenLast(ss);
    }
    assert Touching(ss1) by {
      forall k, j | 0 <= k < |ss1| && 0 < j < |ss1[k]| ensures ss1[k][j].start <= ss1[k][j - 1].finish {
        assert k < |ss| && ss1[k] == ss[k];
      }
    }
    assert Apart(ss1) by {
      forall k | 0 < k < |ss1| && ss1[k - 1] != [] && ss1[k] != []
        ensures ss1[k][0].start > ss1[k - 1][|ss1[k - 1]| - 1].finish
      {
        assert ss1[k - 1] == ss[k - 1];
        if k < |ss| {
          assert ss1[k] == ss[k];
        }
      }
    }
  }

  /** Extending the last run keeps the runs touching. */
  lemma {:induction false} TouchingExtend(ss: seq<seq<Region>>, x: Region)
    requires Touching(ss) && ss != [] && ss[|ss| - 1] != []
    requires x.start <= ss[|ss| - 1][|ss[|ss| - 1]| - 1].finish
    ensures Touching(ss[..|ss| - 1] + [ss[|ss| - 1] + [x]])
  {
    var n := |ss|;
    var ss1: seq<seq<Region>> := ss[..n - 1] + [ss[n - 1] + [x]];
    forall k, j | 0 <= k < |ss1| && 0 < j < |ss1[k]| ensures ss1[k][j].start <= ss1[k][j - 1].finish {
      if k < n - 1 {
        assert ss1[k] == ss[k];
      } else if j < |ss[n - 1]| {
        assert ss1[k][j] == ss[n - 1][j] && ss1[k][j - 1] == ss[n - 1][j - 1];
      } else {
        assert ss1[k][j - 1] == ss[n - 1][|ss[n - 1]| - 1];
      }
    }
  }

  /** Extending the last run keeps the runs apart. */
  lemma {:induction false} ApartExtend(ss: seq<seq<Region>>, x: Region)
    requires Apart(ss) && ss != [] && forall k :: 0 <= k < |ss| ==> ss[k] != []
    ensures Apart(ss[..|ss| - 1] + [ss[|ss| - 1] + [x]])
  {
    var n := |ss|;
    var ss1: seq<seq<Region>> := ss[..n - 1] + [ss[n - 1] + [x]];
    forall k | 0 < k < |ss1| && ss1[k - 1] != [] && ss1[k] != []
      ensures ss1[k][0].start > ss1[k - 1][|ss1[k - 1]| - 1].finish
    {
      assert ss1[k - 1] == ss[k - 1] && ss1[k][0] == ss[k][0];
    }
    assert ss1[0][0] == ss[0][0];
  }

  /** A region starting by the finish of the last region joins the last run. */
  lemma {:induction false} RunsExtend(rs: seq<Region>, ss: seq<seq<Region>>, x: Region)
    requires Runs(rs, ss) && ss != [] && x.start <= rs[|rs| - 1].finish
    ensures Runs(rs + [x], ss[..|ss| - 1] + [ss[|ss| - 1] + [x]])
  {
    var n := |ss|;
    var ss1: seq<seq<Region>> := ss[..n - 1] + [ss[n - 1] + [x]];
    FlattenLast(ss);
    FlattenAppend(ss[..n - 1], ss[n - 1] + [x]);
    assert ss1[..n - 1] == ss[..n - 1];
    TouchingExtend(ss, x);
    ApartExtend(ss, x);
  }

  /**
   * array_from_track raises exactly when the first region starts at or
   * before -1; otherwise its sequences are the touching runs of the list,
   * and concatenated they give back the list.
   */
  lemma {:induction false} SequencesRuns(rs: seq<Region>)
    ensures Sequences(rs).Ok? <==> rs == [] || rs[0].start > -1
    ensures Sequences(rs).Ok? ==> Runs(rs, Sequences(rs).value)
    decreases |rs|
  {
    if rs != [] {
      var p := rs[..|rs| - 1];
      var x := rs[|rs| - 1];
      SequencesRuns(p);
      assert p + [x] == rs;
      match Sequences(p)
      case Err(_) => {
        assert p != [] && p[0] == rs[0];
      }
      case Ok(ss) => {
        if p == [] {
          assert rs == [x];
          if x.start > -1 {
            RunsNew(p, ss, x);
          }
        } else {
          assert p[0] == rs[0] && rs[|rs| - 2] == p[|p| - 1];
          if x.start > rs[|rs| - 2].finish {
            RunsNew(p, ss, x);
          } else {
            RunsExtend(p, ss, x);
          }
        }
      }
    }
  }

  // ----- Stage 4: the tag table -----

  /** Which interpreter: ruby/lib's, or branch_1's. */
  datatype Dialect = Current | Branch1

  /**
   * What a tag does: a cue over the region's own times, a zero-length cue
   * at its start, a cue from the brace start to its finish, a zero-length
   * cue at the brace start, either of the first two preceded by a "Fill"
   * cue, a join onto the open cue, or nothing.
   */
  datatype Shape = Whole | AtStart | FromCurly | AtCurly | FillWhole | FillAtStart | Join | NoCase

  /**
   * The `case` of tagged_regions_into in ruby/lib (when `d` is Current)
   * and of branch_1's interpret_track, as written. Neither lists "{{":
   * each has `"}}"` twice where, as with the other pairs, the mirror tag
   * is evidently meant.
   */
  function CaseAsWritten(d: Dialect, tag: string): Shape
  {
    if d == Current then
      if tag in ["]", "]]", "[["] then Whole
      else if tag == "[" then AtStart
      else if tag in ["}", "}}"] then FromCurly
      else if tag == "{" then AtCurly
      else if tag in [">", ">>", "<<"] then FillWhole
      else if tag == "<" then FillAtStart
      else if tag == "&" then Join
      else NoCase
    else
      if tag in ["]", "[", "]]", "[["] then Whole
      else if tag in ["}", "{", "}}"] then FromCurly
      else if tag in [">", "<", ">>", "<<"] then FillWhole
      else if tag == "&" then Join
      else NoCase
  }

  /** The table used: as written, or with `fixed` mapping "{{" as "}}". */
  function CaseOf(d: Dialect, tag: string, fixed: bool): Shape
  {
    CaseAsWritten(d, if fixed && tag == "{{" then "}}" else tag)
  }

  lemma {:induction false} CaseWhole(d: Dialect, fixed: bool, tag: string)
    requires tag == "]" || tag == "]]" || tag == "[[" || (d == Branch1 && tag == "[")
    ensures CaseOf(d, tag, fixed) == Whole
  {
  }

  lemma {:induction false} CaseZeroLength(fixed: bool, tag: string)
    requires tag == "[" || tag == "{" || tag == "<"
    ensures CaseOf(Current, tag, fixed) == (if tag == "[" then AtStart else if tag == "{" then AtCurly else FillAtStart)
  {
  }

  lemma {:induction false} CaseBrace(d: Dialect, tag: string)
    requires tag == "}" || tag == "}}" || tag == "{{" || (d == Branch1 && tag == "{")
    ensures CaseOf(d, tag, true) == FromCurly
  {
  }

  lemma {:induction false} CaseAngle(d: Dialect, fixed: bool, tag: string)
    requires tag == ">" || tag == ">>" || tag == "<<" || tag == "<"
    ensures CaseOf(d, tag, fixed) == (if d == Current && tag == "<" then FillAtStart else FillWhole)
  {
  }

  lemma {:induction false} CaseJoin(d: Dialect, fixed: bool)
    ensures CaseOf(d, "&", fixed) == Join
  {
  }

  lemma {:induction false} CaseNone(d: Dialect, fixed: bool, tag: string)
    requires tag == "!" || tag == "!!" || (!fixed && tag == "{{")
    ensures CaseOf(d, tag, fixed) == NoCase
  {
  }

  /** The loop state of tagged_regions_into: the output track, `seq_start` and `new_region`. */
  datatype Synth = Synth(out: TrackState, seqStart: int, open: Option<RegionId>)

  predicate Sound(st: Synth)
  {
    WellFormed(st.out) && (st.open.Some? ==> 0 <= st.open.value < |st.out.cells|)
  }

  /** `new_region = track.add_primitive_region(name, start, finish, status)`. */
  function Open(st: Synth, name: string, start: int, finish: int, status: Option<string>): (r: Synth)
    requires Sound(st)
    ensures Sound(r) && r.seqStart == st.seqStart && r.open == Some(|st.out.cells|)
    ensures |r.out.cells| == |st.out.cells| + 1 && r.out.cells[|st.out.cells|] == Region(name, start, finish, status)
  {
    Synth(Created(st.out, name, start, finish, status), st.seqStart, Some(|st.out.cells|))
  }

  /** `track.add_primitive_region("Fill", seq_start, region.start, status) unless new_region`. */
  function Filled(st: Synth, upTo: int, status: Option<string>): (r: Synth)
    requires Sound(st)
    ensures Sound(r) && r.seqStart == st.seqStart && r.open == st.open
    ensures |r.out.cells| == |st.out.cells| + (if st.open.None? then 1 else 0)
  {
    if st.open.Some? then st
    else st.(out := Created(st.out, "Fill", st.seqStart, upTo, status))
  }

  /** `new_region.name = new_region.clean_name + " " + clean_name; new_region.finish = region.finish`. */
  function Joined(st: Synth, finish: int, cn: string): (r: Synth)
    requires Sound(st) && st.open.Some?
    ensures Sound(r) && r.seqStart == st.seqStart && r.open == st.open && |r.out.cells| == |st.out.cells|
  {
    var o := st.open.value;
    var t1 := SetName(st.out, o, CleanName(st.out.cells[o].name) + " " + cn);
    st.(out := SetFinish(t1, o, finish))
  }

  /** `new_region.finish = region.finish`. */
  function Extended(st: Synth, x: Region): (r: Synth)
    requires Sound(st) && st.open.Some?
    ensures Sound(r) && r.seqStart == st.seqStart && r.open == st.open && |r.out.cells| == |st.out.cells|
  {
    st.(out := SetFinish(st.out, st.open.value, x.finish))
  }

  /**
   * Where the cue an arm opens starts and finishes: the region's own
   * times, its start alone, from the brace start to its finish, or the
   * brace start alone.
   */
  function ShapeStart(shape: Shape, start: int, curly: int): int
  {
    if shape == FromCurly || shape == AtCurly || shape == Join then curly else start
  }

  function ShapeFinish(shape: Shape, start: int, finish: int, curly: int): int
  {
    if shape == AtCurly then curly
    else if shape == AtStart || shape == FillAtStart then start
    else finish
  }

  /**
   * One arm of the case, for a region of clean name cn, start and finish: nothing, a
   * join onto the open cue, or a new cue (after a "Fill" cue for the two
   * Fill arms); "&" without an open cue opens one from the brace start.
   */
  function Shaped(shape: Shape, st: Synth, cn: string, start: int, finish: int, curly: int, status: Option<string>): (r: Synth)
    requires Sound(st)
    ensures Sound(r)
  {
    if shape == NoCase then st
    else if shape == Join && st.open.Some? then Joined(st, finish, cn)
    else
      var base := if shape == FillWhole || shape == FillAtStart then Filled(st, start, status) else st;
      Open(base, cn, ShapeStart(shape, start, curly), ShapeFinish(shape, start, finish, curly), status)
  }

  /** The status a created cue carries: ruby/lib passes the region's, branch_1 none. */
  function StatusOf(d: Dialect, x: Region): Option<string>
  {
    if d == Current then x.status else None
  }

  /** branch_1's `curly_start`: the region's start while the blending flag is still set. */
  function CurlyStart(d: Dialect, stick: bool, seqStart: int, x: Region): int
  {
    if d == Branch1 && stick then x.start else seqStart
  }

  /**
   * The body of the region loop. A legal tag acts by the table and moves
   * seq_start to the region's finish. An untagged region extends the open
   * cue; in a sequence with tags that also moves seq_start, and with no
   * open cue it is dropped; in a sequence without tags it opens the cue.
   */
  function Step(d: Dialect, fixed: bool, stick: bool, tags: nat, st: Synth, x: Region): (r: Synth)
    requires Sound(st)
    ensures Sound(r)
  {
    var cn := CleanName(x.name);
    var tag := Tag(x.name);
    if IsLegal(tag) then
      var r := Shaped(CaseOf(d, tag.value, fixed), st, cn, x.start, x.finish, CurlyStart(d, stick, st.seqStart, x), StatusOf(d, x));
      r.(seqStart := x.finish)
    else if st.open.Some? then
      var u := Extended(st, x);
      if tags > 0 then u.(seqStart := x.finish) else u
    else if tags > 0 then st
    else Open(st, cn, x.start, x.finish, StatusOf(d, x))
  }

  /** `tags_count`: the regions of the sequence with a legal tag. */
  function TagsCount(s: seq<Region>): (n: nat)
    ensures n <= |s|
    ensures n == 0 <==> forall i :: 0 <= i < |s| ==> !IsLegal(Tag(s[i].name))
  {
    if s == [] then 0
    else
      var n := TagsCount(s[1..]);
      assert forall i :: 1 <= i < |s| ==> s[i] == s[1..][i - 1];
      (if IsLegal(Tag(s[0].name)) then 1 else 0) + n
  }

  /** The region loop from position k. */
  function SeqFrom(d: Dialect, fixed: bool, stick: bool, tags: nat, st: Synth, s: seq<Region>, k: nat): (r: Synth)
    requires Sound(st) && k <= |s|
    ensures Sound(r)
    decreases |s| - k
  {
    if k == |s| then st
    else SeqFrom(d, fixed, stick, tags, Step(d, fixed, stick, tags, st, s[k]), s, k + 1)
  }

  /** tagged_regions_into: the loop from `seq_start = first.start` and no open cue. */
  function SeqInto(d: Dialect, fixed: bool, stick: bool, out: TrackState, s: seq<Region>): (u: TrackState)
    requires WellFormed(out) && s != []
    ensures WellFormed(u)
  {
    SeqFrom(d, fixed, stick, TagsCount(s), Synth(out, s[0].start, None), s, 0).out
  }

  /** `sequences.each { |seq| seq.tagged_regions_into(return_track) }`. */
  function AllInto(d: Dialect, fixed: bool, stick: bool, out: TrackState, ss: seq<seq<Region>>): (u: TrackState)
    requires WellFormed(out) && forall k :: 0 <= k < |ss| ==> ss[k] != []
    ensures WellFormed(u)
    decreases |ss|
  {
    if ss == [] then out
    else AllInto(d, fixed, stick, SeqInto(d, fixed, stick, out, ss[0]), ss[1..])
  }

  // ----- What each tag yields -----

  /** The step opened one new cue object, the last made, with these fields. */
  predicate OpensNew(st: Synth, r: Synth, name: string, start: int, finish: int, status: Option<string>)
    requires Sound(st) && Sound(r)
  {
    r.open == Some(|r.out.cells| - 1) && |r.out.cells| > |st.out.cells|
    && r.out.cells[|r.out.cells| - 1] == Region(name, start, finish, status)
  }

  /** Moving seq_start does not change which cue was opened. */
  lemma {:induction false} OpensNewMoved(st: Synth, r: Synth, name: string, start: int, finish: int, status: Option<string>, v: int)
    requires Sound(st) && Sound(r) && OpensNew(st, r, name, start, finish, status)
    ensures OpensNew(st, r.(seqStart := v), name, start, finish, status)
  {
  }

  /** For a legal tag the step is the table's arm, then seq_start moves to the region's finish. */
  lemma {:induction false} StepTagged(d: Dialect, fixed: bool, stick: bool, tags: nat, st: Synth, x: Region)
    requires Sound(st) && IsLegal(Tag(x.name))
    ensures Step(d, fixed, stick, tags, st, x)
         == Shaped(CaseOf(d, Tag(x.name).value, fixed), st, CleanName(x.name), x.start, x.finish, CurlyStart(d, stick, st.seqStart, x), StatusOf(d, x)).(seqStart := x.finish)
  {
  }

  /** StepTagged for a tag whose arm is already known. */
  lemma {:induction false} StepShape(d: Dialect, fixed: bool, stick: bool, tags: nat, st: Synth, x: Region, shape: Shape)
    requires Sound(st) && IsLegal(Tag(x.name)) && CaseOf(d, Tag(x.name).value, fixed) == shape
    ensures Step(d, fixed, stick, tags, st, x)
         == Shaped(shape, st, CleanName(x.name), x.start, x.finish, CurlyStart(d, stick, st.seqStart, x), StatusOf(d, x)).(seqStart := x.finish)
  {
    StepTagged(d, fixed, stick, tags, st, x);
  }

  /**
   * Every arm but the empty one and a join onto an open cue opens exactly
   * one cue, the last made, after a "Fill" cue for the two Fill arms when
   * none is open.
   */
  lemma {:induction false} ShapedOpens(shape: Shape, st: Synth, cn: string, start: int, finish: int, curly: int, status: Option<string>)
    requires Sound(st) && shape != NoCase && (shape == Join ==> st.open.None?)
    ensures var r := Shaped(shape, st, cn, start, finish, curly, status);
      OpensNew(st, r, cn, ShapeStart(shape, start, curly), ShapeFinish(shape, start, finish, curly), status)
      && |r.out.cells| == |st.out.cells| + (if (shape == FillWhole || shape == FillAtStart) && st.open.None? then 2 else 1)
  {
  }

  /** A legal tag whose arm opens a cue: which cue, and how many cue objects the step adds. */
  lemma {:induction false} StepOpens(d: Dialect, fixed: bool, stick: bool, tags: nat, st: Synth, x: Region, shape: Shape)
    requires Sound(st) && IsLegal(Tag(x.name)) && CaseOf(d, Tag(x.name).value, fixed) == shape
    requires shape != NoCase && (shape == Join ==> st.open.None?)
    ensures var r := Step(d, fixed, stick, tags, st, x);
      var curly := CurlyStart(d, stick, st.seqStart, x);
      OpensNew(st, r, CleanName(x.name), ShapeStart(shape, x.start, curly), ShapeFinish(shape, x.start, x.finish, curly), StatusOf(d, x))
      && r.seqStart == x.finish
      && |r.out.cells| == |st.out.cells| + (if (shape == FillWhole || shape == FillAtStart) && st.open.None? then 2 else 1)
  {
    var cn := CleanName(x.name);
    var curly := CurlyStart(d, stick, st.seqStart, x);
    StepShape(d, fixed, stick, tags, st, x, shape);
    ShapedOpens(shape, st, cn, x.start, x.finish, curly, StatusOf(d, x));
    OpensNewMoved(st, Shaped(shape, st, cn, x.start, x.finish, curly, StatusOf(d, x)), cn,
                  ShapeStart(shape, x.start, curly), ShapeFinish(shape, x.start, x.finish, curly), StatusOf(d, x), x.finish);
  }

  /** A Fill arm with no cue open makes the "Fill" cue first; opening the next one keeps its labels. */
  lemma {:induction false} ShapedFill(shape: Shape, st: Synth, cn: string, start: int, finish: int, curly: int, status: Option<string>)
    requires Sound(st) && (shape == FillWhole || shape == FillAtStart) && st.open.None?
    ensures var r := Shaped(shape, st, cn, start, finish, curly, status);
      |r.out.cells| > |st.out.cells| && r.out.cells[|st.out.cells|].name == "Fill"
  {
    var fl := Filled(st, start, status);
    CreatedLabels(fl.out, cn, ShapeStart(shape, start, curly), ShapeFinish(shape, start, finish, curly), status);
  }

  /** The join renames the open cue and keeps every cue object. */
  lemma {:induction false} JoinedRenames(st: Synth, finish: int, cn: string)
    requires Sound(st) && st.open.Some?
    ensures var o := st.open.value; var r := Joined(st, finish, cn);
      r.out.cells[o].name == CleanName(st.out.cells[o].name) + " " + cn
  {
    var o := st.open.value;
    var t1 := SetName(st.out, o, CleanName(st.out.cells[o].name) + " " + cn);
    assert SameLabels(Retimed(t1, o, t1.cells[o].start, finish).cells, SetFinish(t1, o, finish).cells);
  }

  /**
   * Bracket tags open a cue over the region's own times: "]", "]]" and
   * "[[" in both tables, and "[" too in branch_1's. Any legal tag moves
   * seq_start to the region's finish.
   */
  lemma {:induction false} BracketTags(d: Dialect, fixed: bool, stick: bool, tags: nat, st: Synth, x: Region, tag: string)
    requires Sound(st) && Tag(x.name) == Some(tag)
    requires tag == "]" || tag == "]]" || tag == "[[" || (d == Branch1 && tag == "[")
    ensures var r := Step(d, fixed, stick, tags, st, x);
      OpensNew(st, r, CleanName(x.name), x.start, x.finish, StatusOf(d, x))
      && |r.out.cells| == |st.out.cells| + 1 && r.seqStart == x.finish
  {
    assert IsLegal(Tag(x.name));
    CaseWhole(d, fixed, tag);
    StepOpens(d, fixed, stick, tags, st, x, Whole);
  }

  /**
   * ruby/lib's zero-length cues: "[" opens [start, start], "{" opens
   * [seq_start, seq_start], "<" opens [start, start] (after a Fill cue when
   * none is open).
   */
  lemma {:induction false} ZeroLengthTags(fixed: bool, stick: bool, tags: nat, st: Synth, x: Region, tag: string)
    requires Sound(st) && Tag(x.name) == Some(tag) && (tag == "[" || tag == "{" || tag == "<")
    ensures var r := Step(Current, fixed, stick, tags, st, x);
      var at := if tag == "{" then st.seqStart else x.start;
      OpensNew(st, r, CleanName(x.name), at, at, x.status) && r.seqStart == x.finish
  {
    assert IsLegal(Tag(x.name));
    CaseZeroLength(fixed, tag);
    var shape := CaseOf(Current, tag, fixed);
    var at := if tag == "{" then st.seqStart else x.start;
    assert ShapeStart(shape, x.start, st.seqStart) == at == ShapeFinish(shape, x.start, x.finish, st.seqStart);
    StepOpens(Current, fixed, stick, tags, st, x, shape);
  }

  /**
   * Brace tags open a cue from the brace start to the region's finish:
   * "}" and "}}" in both tables, "{" in branch_1's, and "{{" in the
   * corrected table. The brace start is seq_start, except in branch_1
   * while the blending flag is still set, where it is the region's start.
   */
  lemma {:induction false} BraceTags(d: Dialect, stick: bool, tags: nat, st: Synth, x: Region, tag: string)
    requires Sound(st) && Tag(x.name) == Some(tag)
    requires tag == "}" || tag == "}}" || tag == "{{" || (d == Branch1 && tag == "{")
    ensures var r := Step(d, true, stick, tags, st, x);
      var curly := if d == Branch1 && stick then x.start else st.seqStart;
      OpensNew(st, r, CleanName(x.name), curly, x.finish, StatusOf(d, x))
      && |r.out.cells| == |st.out.cells| + 1 && r.seqStart == x.finish
  {
    assert IsLegal(Tag(x.name));
    CaseBrace(d, tag);
    StepOpens(d, true, stick, tags, st, x, FromCurly);
  }

  /**
   * Angle tags (">", ">>", "<<", and "<") add a "Fill" cue from seq_start
   * to the region's start exactly when no cue is open, then open a cue
   * over the region (zero-length for ruby/lib's "<").
   */
  lemma {:induction false} AngleTags(d: Dialect, fixed: bool, stick: bool, tags: nat, st: Synth, x: Region, tag: string)
    requires Sound(st) && Tag(x.name) == Some(tag) && (tag == ">" || tag == ">>" || tag == "<<" || tag == "<")
    ensures var r := Step(d, fixed, stick, tags, st, x);
      var f := if d == Current && tag == "<" then x.start else x.finish;
      OpensNew(st, r, CleanName(x.name), x.start, f, StatusOf(d, x)) && r.seqStart == x.finish
      && |r.out.cells| == |st.out.cells| + (if st.open.None? then 2 else 1)
      && (st.open.None? ==> r.out.cells[|st.out.cells|].name == "Fill")
  {
    assert IsLegal(Tag(x.name));
    CaseAngle(d, fixed, tag);
    var shape := CaseOf(d, tag, fixed);
    var cn := CleanName(x.name);
    var curly := CurlyStart(d, stick, st.seqStart, x);
    var f := if d == Current && tag == "<" then x.start else x.finish;
    assert ShapeStart(shape, x.start, curly) == x.start && ShapeFinish(shape, x.start, x.finish, curly) == f;
    StepOpens(d, fixed, stick, tags, st, x, shape);
    if st.open.None? {
      StepShape(d, fixed, stick, tags, st, x, shape);
      ShapedFill(shape, st, cn, x.start, x.finish, curly, StatusOf(d, x));
    }
  }

  /**
   * "&" with an open cue renames it to its clean name, a space and the
   * region's clean name, and sets its finish to the region's finish; no
   * new cue is made.
   */
  lemma {:induction false} AmpersandJoins(d: Dialect, fixed: bool, stick: bool, tags: nat, st: Synth, x: Region)
    requires Sound(st) && Tag(x.name) == Some("&") && st.open.Some?
    ensures var r := Step(d, fixed, stick, tags, st, x);
      var o := st.open.value;
      var t1 := SetName(st.out, o, CleanName(st.out.cells[o].name) + " " + CleanName(x.name));
      r.seqStart == x.finish && r.open == st.open && |r.out.cells| == |st.out.cells|
      && r.out.cells[o].name == CleanName(st.out.cells[o].name) + " " + CleanName(x.name)
      && r.out == SetFinish(t1, o, x.finish)
  {
    assert IsLegal(Tag(x.name));
    CaseJoin(d, fixed);
    StepShape(d, fixed, stick, tags, st, x, Join);
    JoinedRenames(st, x.finish, CleanName(x.name));
  }

  /** "&" without an open cue opens one from the brace start to the region's finish. */
  lemma {:induction false} AmpersandOpens(d: Dialect, fixed: bool, stick: bool, tags: nat, st: Synth, x: Region)
    requires Sound(st) && Tag(x.name) == Some("&") && st.open.None?
    ensures var r := Step(d, fixed, stick, tags, st, x);
      OpensNew(st, r, CleanName(x.name), CurlyStart(d, stick, st.seqStart, x), x.finish, StatusOf(d, x))
      && |r.out.cells| == |st.out.cells| + 1 && r.seqStart == x.finish
  {
    assert IsLegal(Tag(x.name));
    CaseJoin(d, fixed);
    StepOpens(d, fixed, stick, tags, st, x, Join);
  }

  /**
   * In a sequence with tags, an untagged region makes no cue: with an open
   * cue it only extends it (and moves seq_start to its finish), without
   * one it is dropped and nothing changes.
   */
  lemma {:induction false} UntaggedInTagged(d: Dialect, fixed: bool, stick: bool, tags: nat, st: Synth, x: Region)
    requires Sound(st) && !IsLegal(Tag(x.name)) && tags > 0
    ensures var r := Step(d, fixed, stick, tags, st, x);
      r.open == st.open && |r.out.cells| == |st.out.cells|
      && (st.open.None? ==> r == st)
      && (st.open.Some? ==> r.seqStart == x.finish && r.out == SetFinish(st.out, st.open.value, x.finish))
  {
  }

  /** "!", "!!" and, as written, "{{" have no arm: the step only moves seq_start. */
  lemma {:induction false} NoArm(d: Dialect, fixed: bool, stick: bool, tags: nat, st: Synth, x: Region, tag: string)
    requires Sound(st) && Tag(x.name) == Some(tag) && (tag == "!" || tag == "!!" || (!fixed && tag == "{{"))
    ensures Step(d, fixed, stick, tags, st, x) == st.(seqStart := x.finish)
  {
    assert IsLegal(Tag(x.name));
    StepTagged(d, fixed, stick, tags, st, x);
    CaseNone(d, fixed, tag);
  }

  /**
   * As written, a "{{" region adds no cue in either interpreter, while
   * "}}", the tag it pairs with, opens one: the two hold-open brace tags
   * are not treated alike.
   */
  lemma {:induction false} BraceAsWritten(d: Dialect, stick: bool, tags: nat, st: Synth, x: Region, y: Region)
    requires Sound(st) && Tag(x.name) == Some("{{") && Tag(y.name) == Some("}}")
    ensures Step(d, false, stick, tags, st, x).out == st.out
    ensures |Step(d, false, stick, tags, st, y).out.cells| == |st.out.cells| + 1
  {
    NoArm(d, false, stick, tags, st, x, "{{");
    assert IsLegal(Tag(y.name));
    CaseBrace(d, "}}");
    assert CaseOf(d, "}}", false) == FromCurly;
    var curly := CurlyStart(d, stick, st.seqStart, y);
    StepShape(d, false, stick, tags, st, y, FromCurly);
    ShapedOpens(FromCurly, st, CleanName(y.name), y.start, y.finish, curly, StatusOf(d, y));
  }

  /**
   * In the corrected table the two hold-open brace tags act alike: a "{{"
   * region opens the cue that the same region tagged "}}" would.
   */
  lemma {:induction false} BraceCorrected(d: Dialect, stick: bool, tags: nat, st: Synth, x: Region, y: Region)
    requires Sound(st) && Tag(x.name) == Some("{{") && Tag(y.name) == Some("}}")
    requires CleanName(x.name) == CleanName(y.name) && x.start == y.start && x.finish == y.finish && x.status == y.status
    ensures Step(d, true, stick, tags, st, x) == Step(d, true, stick, tags, st, y)
  {
    assert IsLegal(Tag(x.name)) && IsLegal(Tag(y.name));
    CaseBrace(d, "{{");
    CaseBrace(d, "}}");
    StepShape(d, true, stick, tags, st, x, FromCurly);
    StepShape(d, true, stick, tags, st, y, FromCurly);
    assert CurlyStart(d, stick, st.seqStart, x) == CurlyStart(d, stick, st.seqStart, y);
    assert StatusOf(d, x) == StatusOf(d, y);
  }

  // ----- Sequences without tags -----

  /** Every listed cue starts and ends before s. */
  predicate Before(t: TrackState, s: int)
    requires WellFormed(t)
  {
    forall i :: 0 <= i < |t.order| ==> t.cells[t.order[i]].start < s && t.cells[t.order[i]].finish < s
  }

  /** Moving the finish of a cue listed last, after cues that all lie before its start, is only the field write. */
  lemma {:induction false} ExtendBefore(out: TrackState, c: Region, v: int)
    requires WellFormed(out) && Before(out, c.start)
    ensures var n := |out.cells|;
      SetFinish(TrackState(out.cells + [c], out.order + [n]), n, v) == TrackState(out.cells + [c.(finish := v)], out.order + [n])
  {
    var n := |out.cells|;
    var t := TrackState(out.cells + [c], out.order + [n]);
    var u := Retimed(t, n, c.start, v);
    assert u == TrackState(out.cells + [c.(finish := v)], out.order + [n]);
    forall k | 0 <= k < |u.order| && u.order[k] != n ensures Blending.Clear(u.cells[u.order[k]], u.cells[n]) {
      assert k < |out.order| && u.cells[u.order[k]] == out.cells[out.order[k]];
    }
    ImposeNoop(u, n);
  }

  lemma {:induction false} CollapseFrom(d: Dialect, fixed: bool, stick: bool, out: TrackState, c: Region,
                                         s: seq<Region>, k: nat, seqStart: int)
    requires WellFormed(out) && Before(out, c.start) && k <= |s|
    requires forall i :: 0 <= i < |s| ==> !IsLegal(Tag(s[i].name))
    ensures var n := |out.cells|;
      var f := if k < |s| then s[|s| - 1].finish else c.finish;
      SeqFrom(d, fixed, stick, 0, Synth(TrackState(out.cells + [c], out.order + [n]), seqStart, Some(n)), s, k)
        == Synth(TrackState(out.cells + [c.(finish := f)], out.order + [n]), seqStart, Some(n))
    decreases |s| - k
  {
    if k < |s| {
      var n := |out.cells|;
      var st := Synth(TrackState(out.cells + [c], out.order + [n]), seqStart, Some(n));
      ExtendBefore(out, c, s[k].finish);
      assert Step(d, fixed, stick, 0, st, s[k])
          == Synth(TrackState(out.cells + [c.(finish := s[k].finish)], out.order + [n]), seqStart, Some(n));
      CollapseFrom(d, fixed, stick, out, c.(finish := s[k].finish), s, k + 1, seqStart);
    }
  }

  /**
   * A sequence without legal tags becomes one cue, named after its first
   * region and running from that region's start to the last region's
   * finish, listed after the cues of an output track that all lie before
   * the sequence; those are left as they were.
   */
  lemma {:induction false} Collapse(d: Dialect, fixed: bool, stick: bool, out: TrackState, s: seq<Region>)
    requires WellFormed(out) && SortedByStart(out.cells, out.order) && s != [] && Before(out, s[0].start)
    requires TagsCount(s) == 0
    ensures Regions(SeqInto(d, fixed, stick, out, s))
         == Regions(out) + [Region(CleanName(s[0].name), s[0].start, s[|s| - 1].finish, StatusOf(d, s[0]))]
  {
    var c := Region(CleanName(s[0].name), s[0].start, s[|s| - 1].finish, StatusOf(d, s[0]));
    CollapseTrack(d, fixed, stick, out, s);
    RegionsAppend(out, c);
  }

  /** The same, as the output track: one cell added and listed last. */
  lemma {:induction false} CollapseTrack(d: Dialect, fixed: bool, stick: bool, out: TrackState, s: seq<Region>)
    requires WellFormed(out) && SortedByStart(out.cells, out.order) && s != [] && Before(out, s[0].start)
    requires TagsCount(s) == 0
    ensures SeqInto(d, fixed, stick, out, s)
         == TrackState(out.cells + [Region(CleanName(s[0].name), s[0].start, s[|s| - 1].finish, StatusOf(d, s[0]))],
                       out.order + [|out.cells|])
  {
    CollapseOpens(d, fixed, stick, out, s);
    CollapseFrom(d, fixed, stick, out, Region(CleanName(s[0].name), s[0].start, s[0].finish, StatusOf(d, s[0])), s, 1, s[0].start);
  }

  /** The first pass of a sequence without tags opens its cue, listed last. */
  lemma {:induction false} CollapseOpens(d: Dialect, fixed: bool, stick: bool, out: TrackState, s: seq<Region>)
    requires WellFormed(out) && SortedByStart(out.cells, out.order) && s != [] && Before(out, s[0].start)
    requires TagsCount(s) == 0
    ensures SeqInto(d, fixed, stick, out, s)
         == SeqFrom(d, fixed, stick, 0,
                    Synth(TrackState(out.cells + [Region(CleanName(s[0].name), s[0].start, s[0].finish, StatusOf(d, s[0]))],
                                     out.order + [|out.cells|]), s[0].start, Some(|out.cells|)), s, 1).out
  {
    SeqIntoFirst(d, fixed, stick, out, s);
    CollapseFirst(d, fixed, stick, out, s[0]);
  }

  /** tagged_regions_into's loop, its first pass unrolled. */
  lemma {:induction false} SeqIntoFirst(d: Dialect, fixed: bool, stick: bool, out: TrackState, s: seq<Region>)
    requires WellFormed(out) && s != []
    ensures var st0 := Synth(out, s[0].start, None);
      SeqInto(d, fixed, stick, out, s) == SeqFrom(d, fixed, stick, TagsCount(s), Step(d, fixed, stick, TagsCount(s), st0, s[0]), s, 1).out
  {
  }

  /** Without tags, the first region opens the cue, listed last since the output lies before it. */
  lemma {:induction false} CollapseFirst(d: Dialect, fixed: bool, stick: bool, out: TrackState, x: Region)
    requires WellFormed(out) && SortedByStart(out.cells, out.order) && Before(out, x.start) && !IsLegal(Tag(x.name))
    ensures var n := |out.cells|;
      var c := Region(CleanName(x.name), x.start, x.finish, StatusOf(d, x));
      Step(d, fixed, stick, 0, Synth(out, x.start, None), x) == Synth(TrackState(out.cells + [c], out.order + [n]), x.start, Some(n))
  {
    CreatedClear(out, CleanName(x.name), x.start, x.finish, StatusOf(d, x));
  }

  // ----- interpret_track -----

  /** What interpret_track leaves: the input track, the blender's test, and the new track or the exception. */
  datatype Outcome = Outcome(input: TrackState, test: Blending.Callback, output: Result<TrackState>)

  /**
   * TagInterpreter#interpret_track with the blender's duration dur and
   * min_closed_cue_duration min. The blender's blend_track dups the track,
   * which shares its region list, so blending and the delete_if change the
   * input track; the output is a dup of it with the list emptied.
   */
  function Interpret(t: TrackState, dur: int, min: int): (o: Outcome)
    requires WellFormed(t)
    ensures WellFormed(o.input) && (o.output.Ok? ==> WellFormed(o.output.value))
    ensures forall k :: 0 <= k < |o.input.order| ==> !Bang(o.input.cells[o.input.order[k]])
    ensures o.output.Err? <==> |o.input.order| > 0 && o.input.cells[o.input.order[0]].start <= -1
    ensures o.output.Err? ==> o.output.error == NoMethodOnNil("<<")
  {
    var t1 := ZeroShortFrom(t, 0, min);
    var p := Blending.GuardedBlend(Blending.Pass(t1, Blending.TagTest(false)), dur);
    var t2 := DroppedBang(p.track);
    SequencesRuns(Regions(t2));
    match Sequences(Regions(t2))
    case Err(e) => Outcome(t2, p.test, Err(e))
    case Ok(ss) => Outcome(t2, p.test, Ok(AllInto(Current, false, false, AllDeleted(t2), ss)))
  }

  /** A track of one region that is not short, not "!" and not before 0 is one sequence of it. */
  lemma {:induction false} InterpretOne(x: Region, dur: int, min: int)
    requires Duration(x) >= min && !Bang(x) && x.start > -1
    ensures Interpret(TrackState([x], [0]), dur, min).output
         == Ok(SeqInto(Current, false, false, TrackState([x], []), [x]))
  {
    var t := TrackState([x], [0]);
    OneUnblended(x, dur, min);
    OneUnbanged(x);
    OneSequence(x);
    OneInto(TrackState([x], []), x);
  }

  lemma {:induction false} OneUnblended(x: Region, dur: int, min: int)
    requires Duration(x) >= min
    ensures Blending.GuardedBlend(Blending.Pass(ZeroShortFrom(TrackState([x], [0]), 0, min), Blending.TagTest(false)), dur)
         == Blending.Pass(TrackState([x], [0]), Blending.TagTest(false))
  {
    var t := TrackState([x], [0]);
    ZeroShortNothingShort(t, 0, min);
    Blending.GuardedSkipsRest(Blending.Pass(t, Blending.TagTest(false)), 0, 1, dur);
  }

  lemma {:induction false} OneUnbanged(x: Region)
    requires !Bang(x)
    ensures DroppedBang(TrackState([x], [0])) == TrackState([x], [0])
  {
    var t2 := DroppedBang(TrackState([x], [0]));
    assert 0 in t2.order;
  }

  lemma {:induction false} OneSequence(x: Region)
    requires x.start > -1
    ensures Sequences(Regions(TrackState([x], [0]))) == Ok([[x]])
  {
    var rs := [x];
    assert Regions(TrackState([x], [0])) == rs;
    assert rs[..|rs| - 1] == [] && Sequences([]) == Ok([]);
    var none: seq<seq<Region>> := [];
    assert Sequences(rs) == Ok(none + [[x]]);
    assert none + [[x]] == [[x]];
  }

  lemma {:induction false} OneInto(out: TrackState, x: Region)
    requires WellFormed(out)
    ensures AllInto(Current, false, false, out, [[x]]) == SeqInto(Current, false, false, out, [x])
  {
    assert [[x]][1..] == [];
  }

  lemma {:induction false} ShapedAtStart(st: Synth, cn: string, start: int, finish: int, curly: int, status: Option<string>)
    requires Sound(st)
    ensures Shaped(AtStart, st, cn, start, finish, curly, status) == Open(st, cn, start, start, status)
  {
    assert AtStart != NoCase && AtStart != Join && AtStart != FillWhole && AtStart != FillAtStart;
    assert ShapeStart(AtStart, start, curly) == start && ShapeFinish(AtStart, start, finish, curly) == start;
  }

  /** A sequence of one "[" region lists one cue of zero length at its start. */
  lemma {:induction false} AtStartStep(out: TrackState, x: Region)
    requires WellFormed(out) && out.order == [] && Tag(x.name) == Some("[")
    ensures Regions(SeqInto(Current, false, false, out, [x])) == [Region(CleanName(x.name), x.start, x.start, x.status)]
  {
    var st0 := Synth(out, x.start, None);
    CaseZeroLength(false, "[");
    assert IsLegal(Tag(x.name));
    var r := Step(Current, false, false, TagsCount([x]), st0, x);
    StepShape(Current, false, false, TagsCount([x]), st0, x, AtStart);
    ShapedAtStart(st0, CleanName(x.name), x.start, x.finish, CurlyStart(Current, false, st0.seqStart, x), x.status);
    assert r.out == Open(st0, CleanName(x.name), x.start, x.start, x.status).out;
    SeqIntoFirst(Current, false, false, out, [x]);
    CreatedAppends(out, CleanName(x.name), x.start, x.start, x.status);
  }

  /**
   * ruby/tests/tagging_tests.rb, test_bracket_open: with a blend duration
   * of 2, the region `test 1-[` from 45+0 to 51+0 becomes the cue `test 1`
   * of zero length at 45+0.
   */
  lemma {:induction false} BracketOpenExample()
    ensures var o := Interpret(TrackState([Region("test 1-[", 45 * 400, 51 * 400, None)], [0]), 2, 0);
      o.output.Ok? && Regions(o.output.value) == [Region("test 1", 45 * 400, 45 * 400, None)]
  {
    var x := Region("test 1-[", 45 * 400, 51 * 400, None);
    LastDashOfJoin("test 1", "[");
    assert x.name == "test 1" + "-" + "[";
    assert Tag(x.name) == Some("[") && CleanName(x.name) == "test 1";
    InterpretOne(x, 2, 0);
    AtStartStep(TrackState([x], []), x);
  }

  // ----- The stages on track objects -----

  /** The short-cue loop of interpret_track, on the live region list. */
  method ZeroShortCues(track: Track, min: int)
    requires track.Valid()
    modifies track
    ensures track.Valid() && track.State() == ZeroShortFrom(old(track.State()), 0, min)
    ensures track.name == old(track.name) && track.channel == old(track.channel)
  {
    var i := 0;
    while i < |track.order|
      invariant track.Valid()
      invariant ZeroShortFrom(track.State(), i, min) == ZeroShortFrom(old(track.State()), 0, min)
      invariant track.name == old(track.name) && track.channel == old(track.channel)
      decreases |track.order| - i
    {
      ghost var t := track.State();
      var x := track.order[i];
      if Duration(track.cells[x]) < min {
        track.SetFinish(x, track.cells[x].start);
      }
      assert track.State() == ZeroShortOne(t, i, min);
      i := i + 1;
    }
  }

  /** `regions.delete_if { |r| r.tag == "!" }`. */
  method DeleteBangs(track: Track)
    requires track.Valid()
    modifies track
    ensures track.Valid() && track.State() == DroppedBang(old(track.State()))
    ensures track.name == old(track.name) && track.channel == old(track.channel)
  {
    var cells, order := track.cells, track.order;
    var kept: seq<RegionId> := [];
    var i := 0;
    while i < |order|
      invariant 0 <= i <= |order| && Listed(cells, order[..i])
      invariant kept == Unbanged(cells, order[..i])
    {
      var x := order[i];
      assert order[..i + 1][..i] == order[..i];
      if !Bang(cells[x]) {
        kept := kept + [x];
      }
      i := i + 1;
    }
    assert order[..i] == order;
    track.order := kept;
  }

  /** RegionSequence.array_from_track. */
  method ArrayFromTrack(track: Track) returns (r: Result<seq<seq<Region>>>)
    requires track.Valid()
    ensures r == Sequences(Regions(track.State()))
  {
    ghost var rs := Regions(track.State());
    var sequences: seq<seq<Region>> := [];
    var lastIn := -1;
    var i := 0;
    while i < |track.order|
      invariant 0 <= i <= |track.order|
      invariant Sequences(rs[..i]) == Ok(sequences)
      invariant lastIn == if i == 0 then -1 else rs[i - 1].finish
    {
      var region := track.cells[track.order[i]];
      assert rs[..i + 1][..i] == rs[..i] && rs[..i + 1][i] == region;
      if region.start <= lastIn && sequences == [] {
        SequencesRuns(rs);
        return Err(NoMethodOnNil("<<"));
      }
      if region.start > lastIn {
        sequences := sequences + [[region]];
      } else {
        sequences := sequences[..|sequences| - 1] + [sequences[|sequences| - 1] + [region]];
      }
      lastIn := region.finish;
      i := i + 1;
    }
    assert rs[..i] == rs;
    r := Ok(sequences);
  }

  /** One arm of the case on the output track; `open` is `new_region`. */
  method ShapeInto(shape: Shape, out: Track, seqStart: int, open: Option<RegionId>, cn: string,
                   start: int, finish: int, curly: int, status: Option<string>) returns (open': Option<RegionId>)
    requires out.Valid() && Sound(Synth(out.State(), seqStart, open))
    modifies out
    ensures out.Valid()
    ensures Synth(out.State(), seqStart, open') == Shaped(shape, Synth(old(out.State()), seqStart, open), cn, start, finish, curly, status)
    ensures out.name == old(out.name) && out.channel == old(out.channel)
  {
    if shape == NoCase {
      open' := open;
    } else if shape == Join && open.Some? {
      var o := open.value;
      out.SetName(o, CleanName(out.cells[o].name) + " " + cn);
      out.SetFinish(o, finish);
      open' := open;
    } else {
      if (shape == FillWhole || shape == FillAtStart) && open.None? {
        var _ := out.CreateRegion("Fill", seqStart, start, status);
      }
      var id := out.CreateRegion(cn, ShapeStart(shape, start, curly), ShapeFinish(shape, start, finish, curly), status);
      open' := Some(id);
    }
  }

  /** The body of the region loop of tagged_regions_into. */
  method StepInto(d: Dialect, fixed: bool, stick: bool, tags: nat, out: Track, seqStart: int, open: Option<RegionId>, x: Region)
    returns (seqStart': int, open': Option<RegionId>)
    requires out.Valid() && Sound(Synth(out.State(), seqStart, open))
    modifies out
    ensures out.Valid()
    ensures Synth(out.State(), seqStart', open') == Step(d, fixed, stick, tags, Synth(old(out.State()), seqStart, open), x)
    ensures out.name == old(out.name) && out.channel == old(out.channel)
  {
    var cn := CleanName(x.name);
    var tag := Tag(x.name);
    if IsLegal(tag) {
      open' := ShapeInto(CaseOf(d, tag.value, fixed), out, seqStart, open, cn, x.start, x.finish,
                         CurlyStart(d, stick, seqStart, x), StatusOf(d, x));
      seqStart' := x.finish;
    } else if open.Some? {
      out.SetFinish(open.value, x.finish);
      open' := open;
      seqStart' := if tags > 0 then x.finish else seqStart;
    } else if tags > 0 {
      seqStart', open' := seqStart, open;
    } else {
      var id := out.CreateRegion(cn, x.start, x.finish, StatusOf(d, x));
      seqStart', open' := seqStart, Some(id);
    }
  }

  /** RegionSequence#tagged_regions_into, reading the sequence s into the track out. */
  method TaggedRegionsInto(d: Dialect, fixed: bool, stick: bool, s: seq<Region>, out: Track)
    requires out.Valid() && s != []
    modifies out
    ensures out.Valid() && out.State() == SeqInto(d, fixed, stick, old(out.State()), s)
    ensures out.name == old(out.name) && out.channel == old(out.channel)
  {
    var seqStart := s[0].start;
    var open: Option<RegionId> := None;
    var tags := TagsCount(s);
    var i := 0;
    ghost var goal := SeqFrom(d, fixed, stick, tags, Synth(old(out.State()), s[0].start, None), s, 0);
    while i < |s|
      invariant 0 <= i <= |s| && out.Valid() && Sound(Synth(out.State(), seqStart, open))
      invariant SeqFrom(d, fixed, stick, tags, Synth(out.State(), seqStart, open), s, i) == goal
      invariant out.name == old(out.name) && out.channel == old(out.channel)
    {
      ghost var st := Synth(out.State(), seqStart, open);
      SeqFromStep(d, fixed, stick, tags, st, s, i);
      seqStart, open := StepInto(d, fixed, stick, tags, out, seqStart, open, s[i]);
      i := i + 1;
    }
  }

  /** One pass of the region loop. */
  lemma {:induction false} SeqFromStep(d: Dialect, fixed: bool, stick: bool, tags: nat, st: Synth, s: seq<Region>, k: nat)
    requires Sound(st) && k < |s|
    ensures SeqFrom(d, fixed, stick, tags, st, s, k) == SeqFrom(d, fixed, stick, tags, Step(d, fixed, stick, tags, st, s[k]), s, k + 1)
  {
  }

  /** `sequences.each { |seq| seq.tagged_regions_into(return_track) }`. */
  method AllSequencesInto(d: Dialect, fixed: bool, stick: bool, ss: seq<seq<Region>>, out: Track)
    requires out.Valid() && forall k :: 0 <= k < |ss| ==> ss[k] != []
    modifies out
    ensures out.Valid() && out.State() == AllInto(d, fixed, stick, old(out.State()), ss)
    ensures out.name == old(out.name) && out.channel == old(out.channel)
  {
    var k := 0;
    while k < |ss|
      invariant 0 <= k <= |ss| && out.Valid()
      invariant AllInto(d, fixed, stick, out.State(), ss[k..]) == AllInto(d, fixed, stick, old(out.State()), ss)
      invariant out.name == old(out.name) && out.channel == old(out.channel)
    {
      assert ss[k..][1..] == ss[k + 1..];
      TaggedRegionsInto(d, fixed, stick, ss[k], out);
      k := k + 1;
    }
  }

  class TagInterpreter {
    const blender: Blending.Blender
    var minClosedCueDuration: int

    /** TagInterpreter.new: a new blender and a minimum closed-cue duration of 0. */
    constructor ()
      ensures fresh(blender) && blender.blendDuration == Timecode.DivsPerSecond && blender.test == Blending.NoTest
      ensures minClosedCueDuration == 0
    {
      blender := new Blending.Blender();
      minClosedCueDuration := 0;
    }

    /**
     * blend_with_tags: the tag test installed with a fresh `stick_open`,
     * the track blended (its dup shares the list, so this is the given
     * track), and the regions tagged "!" deleted.
     */
    method BlendWithTags(track: Track)
      requires track.Valid()
      modifies track, blender
      ensures track.Valid() && blender.blendDuration == old(blender.blendDuration)
      ensures var p := Blending.GuardedBlend(Blending.Pass(old(track.State()), Blending.TagTest(false)), old(blender.blendDuration));
        track.State() == DroppedBang(p.track) && blender.test == p.test
      ensures track.name == old(track.name) && track.channel == old(track.channel)
    {
      blender.TestBeforeBlend(2, Blending.TagTest(false));
      blender.BlendTrackGuarded(track);
      DeleteBangs(track);
    }

    /**
     * interpret_track: the input track is changed in place and its
     * interpretation returned as a new track, or the exception raised.
     */
    method InterpretTrack(track: Track) returns (r: Result<Track>)
      requires track.Valid()
      modifies track, blender
      ensures track.Valid() && blender.blendDuration == old(blender.blendDuration)
      ensures var o := Interpret(old(track.State()), old(blender.blendDuration), minClosedCueDuration);
        track.State() == o.input && blender.test == o.test && r.Ok? == o.output.Ok?
        && (r.Err? ==> r.error == o.output.error)
        && (r.Ok? ==> fresh(r.value) && r.value.Valid() && r.value.State() == o.output.value)
      ensures r.Ok? ==> r.value.name == track.name && r.value.channel == track.channel
    {
      ZeroShortCues(track, minClosedCueDuration);
      BlendWithTags(track);
      var sequences := ArrayFromTrack(track);
      if sequences.Err? {
        return Err(sequences.error);
      }
      var returnTrack := track.Dup();
      returnTrack.DeleteAllRegions();
      AllSequencesInto(Current, false, false, sequences.value, returnTrack);
      r := Ok(returnTrack);
    }
  }
}
