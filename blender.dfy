// Blender (branches/branch_1/lib/blender.rb and its nil-guarded
// successor in releases/1_1_0_tmp/lib/blender.rb): one pass over a
// track's live region list that closes the gap between each region and the
// next (`first.finish = second.start`) when the gap is at most the blend
// duration and the installed test allows it.
//
// The tests the tag interpreters install are closures over a `stick_open`
// variable; the installed test is modelled as a value that carries what it
// captured, so a pass returns it updated.

module Blending {
  import opened Base
  import opened Timecode
  import opened Naming
  import opened Tracks
  import opened TrackObjects

  /**
   * The block installed by test_before_blend: none, or the tag test of the
   * interpreters together with the value of its captured `stick_open`.
   */
  datatype Callback = NoTest | TagTest(stickOpen: bool)

  /** What a pass works on: the live track and the installed test. */
  datatype Pass = Pass(track: TrackState, test: Callback)

  // ----- The tag test of TagInterpreter#blend_with_tags -----

  predicate BangFirst(t: TrackState, a: RegionId)
    requires 0 <= a < |t.cells|
  {
    Tag(t.cells[a].name) == Some("!")
  }

  predicate BangBangSecond(t: TrackState, b: RegionId)
    requires 0 <= b < |t.cells|
  {
    Tag(t.cells[b].name) == Some("!!")
  }

  /**
   * `second.tag = nil` and `first.finish = second.start`: the "!!" suffix
   * is erased and the first region is closed up to the second.
   */
  function ClearBangBang(t: TrackState, a: RegionId, b: RegionId): (u: TrackState)
    requires WellFormed(t) && 0 <= a < |t.cells| && 0 <= b < |t.cells| && BangBangSecond(t, b)
    ensures WellFormed(u) && |u.cells| == |t.cells| && |u.order| <= |t.order|
    ensures a != b ==> u.cells[a].name == t.cells[a].name
  {
    TagSplit(t.cells[b].name);
    var t1 := SetName(t, b, WithTag(t.cells[b].name, None).value);
    SetFinish(t1, a, t1.cells[b].start)
  }

  /**
   * The tag test called on (first, second) with `stick_open` = stick: the
   * new track, the new `stick_open`, and the may_blend it returns.
   * "!" on the first region forbids the blend and clears the flag; "!!" on
   * the second clears the flag, erases that tag and closes the pair; a
   * hold-open tag on the first region, or the flag still set, sets the flag
   * and closes the pair.
   */
  function TagCallback(t: TrackState, a: RegionId, b: RegionId, stick: bool): (r: (TrackState, bool, bool))
    requires WellFormed(t) && 0 <= a < |t.cells| && 0 <= b < |t.cells|
    ensures WellFormed(r.0) && |r.0.cells| == |t.cells| && |r.0.order| <= |t.order|
    ensures r.2 <==> !BangFirst(t, a)
    ensures a != b ==> (r.1 <==> IsHoldOpen(Tag(t.cells[a].name))
                                 || (stick && !BangFirst(t, a) && !BangBangSecond(t, b)))
    ensures !BangBangSecond(t, b) && !r.1 ==> r.0 == t
  {
    var stick1 := stick && !BangFirst(t, a) && !BangBangSecond(t, b);
    var t1 := if BangBangSecond(t, b) then ClearBangBang(t, a, b) else t;
    if IsHoldOpen(Tag(t1.cells[a].name)) || stick1 then
      (SetFinish(t1, a, t1.cells[b].start), true, !BangFirst(t, a))
    else
      (t1, stick1, !BangFirst(t, a))
  }

  /** `may_blend = @test_before_blend.call(first, second) if @test_before_blend`. */
  function Consult(p: Pass, a: RegionId, b: RegionId): (r: (Pass, bool))
    requires WellFormed(p.track) && 0 <= a < |p.track.cells| && 0 <= b < |p.track.cells|
    ensures WellFormed(r.0.track) && |r.0.track.cells| == |p.track.cells| && |r.0.track.order| <= |p.track.order|
    ensures r.0.test.TagTest? == p.test.TagTest?
    ensures p.test.NoTest? ==> r == (p, true)
  {
    match p.test
    case NoTest => (p, true)
    case TagTest(stick) =>
      var c := TagCallback(p.track, a, b, stick);
      (Pass(c.0, TagTest(c.1)), c.2)
  }

  /**
   * One step on the pair (first, second) = (a, b): the test, then
   * `first.finish = second.start` when `second.start - first.finish <= dur`
   * and the test allowed it, reading both regions after the test.
   */
  function BlendPair(p: Pass, a: RegionId, b: RegionId, dur: int): (r: Pass)
    requires WellFormed(p.track) && 0 <= a < |p.track.cells| && 0 <= b < |p.track.cells|
    ensures WellFormed(r.track) && |r.track.cells| == |p.track.cells| && |r.track.order| <= |p.track.order|
    ensures r.test.TagTest? == p.test.TagTest?
  {
    var c := Consult(p, a, b);
    var t := c.0.track;
    if t.cells[b].start - t.cells[a].finish <= dur && c.1 then
      Pass(SetFinish(t, a, t.cells[b].start), c.0.test)
    else c.0
  }

  /** The number of steps of branch_1's pass, `(size - 1).times`, fixed when it starts. */
  function BlendSteps(t: TrackState): nat
  {
    if |t.order| == 0 then 0 else |t.order| - 1
  }

  /** The exception of a branch_1 step that finds no region at i or i + 1. */
  function MissingPair(test: Callback): Failure
  {
    NoMethodOnNil(if test.TagTest? then "tag" else "start")
  }

  /**
   * branch_1 Blender#blend_track from step i of n: each step reads
   * `regions[i]` and `regions[i.succ]` from the live list; once the list has
   * shrunk so that one of them is nil, the test (`first.tag`/`second.tag`)
   * or the comparison (`second.start`) raises, and the pass stops there.
   */
  function BranchBlendFrom(p: Pass, i: nat, n: nat, dur: int): (r: (Pass, Option<Failure>))
    requires WellFormed(p.track)
    ensures WellFormed(r.0.track) && |r.0.track.cells| == |p.track.cells| && |r.0.track.order| <= |p.track.order|
    ensures r.0.test.TagTest? == p.test.TagTest?
    ensures r.1.Some? ==> r.1.value == MissingPair(p.test) && |r.0.track.order| <= n
    decreases n - i
  {
    if i >= n then (p, None)
    else if i + 1 >= |p.track.order| then (p, Some(MissingPair(p.test)))
    else BranchBlendFrom(BlendPair(p, p.track.order[i], p.track.order[i + 1], dur), i + 1, n, dur)
  }

  /** The branch_1 pass: `BlendSteps` steps from the first pair. */
  function BranchBlend(p: Pass, dur: int): (r: (Pass, Option<Failure>))
    requires WellFormed(p.track)
  {
    BranchBlendFrom(p, 0, BlendSteps(p.track), dur)
  }

  /**
   * releases/1_1_0_tmp Blender#blend_track from step i of n: `size.times`,
   * and a step whose first or second region is nil is skipped.
   */
  function GuardedBlendFrom(p: Pass, i: nat, n: nat, dur: int): (r: Pass)
    requires WellFormed(p.track)
    ensures WellFormed(r.track) && |r.track.cells| == |p.track.cells| && |r.track.order| <= |p.track.order|
    decreases n - i
  {
    if i >= n then p
    else if i + 1 < |p.track.order| then
      GuardedBlendFrom(BlendPair(p, p.track.order[i], p.track.order[i + 1], dur), i + 1, n, dur)
    else GuardedBlendFrom(p, i + 1, n, dur)
  }

  /** The 1_1_0_tmp pass: `size` steps from the first pair. */
  function GuardedBlend(p: Pass, dur: int): (r: Pass)
    requires WellFormed(p.track)
  {
    GuardedBlendFrom(p, 0, |p.track.order|, dur)
  }

  // ----- The two passes agree -----

  /** Once no pair is left, the guarded pass skips every remaining step. */
  lemma {:induction false} GuardedSkipsRest(p: Pass, i: nat, n: nat, dur: int)
    requires WellFormed(p.track) && i + 1 >= |p.track.order|
    ensures GuardedBlendFrom(p, i, n, dur) == p
    decreases n - i
  {
    if i < n {
      GuardedSkipsRest(p, i + 1, n, dur);
    }
  }

  /** The pass after blending the pair at position i. */
  function PairNext(p: Pass, i: nat, dur: int): (r: Pass)
    requires WellFormed(p.track) && i + 1 < |p.track.order|
    ensures WellFormed(r.track) && |r.track.order| <= |p.track.order|
  {
    BlendPair(p, p.track.order[i], p.track.order[i + 1], dur)
  }

  /** One step of the guarded pass on a present pair. */
  lemma GuardedUnfold(p: Pass, i: nat, n: nat, dur: int)
    requires WellFormed(p.track) && i < n && i + 1 < |p.track.order|
    ensures GuardedBlendFrom(p, i, n, dur) == GuardedBlendFrom(PairNext(p, i, dur), i + 1, n, dur)
  {
  }

  /** One step of the 1_1_0_tmp pass on a missing pair: nothing changes. */
  lemma GuardedSkip(p: Pass, i: nat, n: nat, dur: int)
    requires WellFormed(p.track) && i < n && i + 1 >= |p.track.order|
    ensures GuardedBlendFrom(p, i, n, dur) == GuardedBlendFrom(p, i + 1, n, dur)
  {
  }

  /** One step of branch_1's pass on a present pair. */
  lemma BranchUnfold(p: Pass, i: nat, n: nat, dur: int)
    requires WellFormed(p.track) && i < n && i + 1 < |p.track.order|
    ensures BranchBlendFrom(p, i, n, dur) == BranchBlendFrom(PairNext(p, i, dur), i + 1, n, dur)
  {
  }

  lemma {:induction false} PassesAgreeFrom(p: Pass, i: nat, n: nat, dur: int)
    requires WellFormed(p.track) && |p.track.order| <= n + 1
    ensures GuardedBlendFrom(p, i, n + 1, dur) == BranchBlendFrom(p, i, n, dur).0
    decreases n - i
  {
    if i >= n {
      GuardedSkipsRest(p, i, n + 1, dur);
    } else if i + 1 >= |p.track.order| {
      GuardedSkipsRest(p, i, n + 1, dur);
    } else {
      GuardedUnfold(p, i, n + 1, dur);
      BranchUnfold(p, i, n, dur);
      PassesAgreeFrom(PairNext(p, i, dur), i + 1, n, dur);
    }
  }

  /**
   * The nil guard of 1_1_0_tmp changes no outcome of branch_1's pass: both
   * leave the same track and test, branch_1 raising exactly where the
   * guarded pass starts skipping, and only after the list has shrunk.
   */
  lemma {:induction false} PassesAgree(p: Pass, dur: int)
    requires WellFormed(p.track)
    ensures GuardedBlend(p, dur) == BranchBlend(p, dur).0
    ensures BranchBlend(p, dur).1.Some? ==>
      BranchBlend(p, dur).1.value == MissingPair(p.test) && |BranchBlend(p, dur).0.track.order| < |p.track.order|
  {
    if |p.track.order| == 0 {
      GuardedSkipsRest(p, 0, 0, dur);
    } else {
      PassesAgreeFrom(p, 0, |p.track.order| - 1, dur);
    }
  }

  // ----- Passes over separated tracks -----

  /**
   * Every listed region has a positive duration and ends no later than any
   * region listed after it starts: the list is in time order and no two
   * regions overlap.
   */
  predicate Separated(t: TrackState)
    requires WellFormed(t)
  {
    (forall i :: 0 <= i < |t.order| ==> t.cells[t.order[i]].start < t.cells[t.order[i]].finish)
    && (forall i, j :: 0 <= i < j < |t.order| ==> t.cells[t.order[i]].finish <= t.cells[t.order[j]].start)
  }

  /** x is neither inside r nor across one of its edges: imposing r leaves x alone. */
  predicate Clear(x: Region, r: Region)
  {
    !Contained(x, r) && !Overlaps(TailEdge, x, r) && !Overlaps(HeadEdge, x, r)
  }

  /** A region wholly before r, or wholly after it, is clear of it. */
  lemma {:induction false} ClearApart(x: Region, r: Region)
    requires r.start < r.finish && x.start < x.finish
    requires x.finish <= r.start || r.finish <= x.start
    ensures Clear(x, r)
  {
  }

  /**
   * Closing a region of a separated track up to the start of the next one
   * (or anywhere after its start and before the next start) is only the
   * field write: nothing is contained in the region's new extent and
   * nothing overlaps its edges, so the imposition does nothing, and the
   * track stays separated.
   */
  lemma {:induction false} SeparatedClose(t: TrackState, i: nat, v: int)
    requires WellFormed(t) && Separated(t) && i + 1 < |t.order|
    requires t.cells[t.order[i]].start < v <= t.cells[t.order[i + 1]].start
    ensures SetFinish(t, t.order[i], v) == Retimed(t, t.order[i], t.cells[t.order[i]].start, v)
    ensures Separated(Retimed(t, t.order[i], t.cells[t.order[i]].start, v))
  {
    var a := t.order[i];
    var u := Retimed(t, a, t.cells[a].start, v);
    RetimedClear(t, i, v);
    ImposeNoop(u, a);
    RetimedSeparated(t, i, v);
  }

  /** The cells of a separated track after the retiming at position i. */
  lemma {:induction false} RetimedCells(t: TrackState, i: nat, v: int)
    requires WellFormed(t) && Separated(t) && i + 1 < |t.order|
    requires t.cells[t.order[i]].start < v <= t.cells[t.order[i + 1]].start
    ensures var u := Retimed(t, t.order[i], t.cells[t.order[i]].start, v);
      WellFormed(u) && u.order == t.order
      && u.cells[t.order[i]] == t.cells[t.order[i]].(finish := v)
      && forall k :: 0 <= k < |t.order| && k != i ==> u.cells[t.order[k]] == t.cells[t.order[k]]
  {
    DistinctListed(t, i);
  }

  lemma {:induction false} RetimedClear(t: TrackState, i: nat, v: int)
    requires WellFormed(t) && Separated(t) && i + 1 < |t.order|
    requires t.cells[t.order[i]].start < v <= t.cells[t.order[i + 1]].start
    ensures var u := Retimed(t, t.order[i], t.cells[t.order[i]].start, v);
      forall k :: 0 <= k < |u.order| ==> u.order[k] == t.order[i] || Clear(u.cells[u.order[k]], u.cells[t.order[i]])
  {
    var a := t.order[i];
    var u := Retimed(t, a, t.cells[a].start, v);
    RetimedCells(t, i, v);
    var r := u.cells[a];
    forall k | 0 <= k < |u.order| && k != i ensures Clear(u.cells[u.order[k]], r) {
      var x := t.cells[t.order[k]];
      assert u.cells[u.order[k]] == x;
      if k < i {
        assert x.finish <= t.cells[a].start;
      } else if k == i + 1 {
        assert t.cells[a].finish <= x.start;
      } else {
        assert t.cells[t.order[i + 1]].finish <= x.start;
      }
      ClearApart(x, r);
    }
  }

  lemma {:induction false} RetimedSeparated(t: TrackState, i: nat, v: int)
    requires WellFormed(t) && Separated(t) && i + 1 < |t.order|
    requires t.cells[t.order[i]].start < v <= t.cells[t.order[i + 1]].start
    ensures Separated(Retimed(t, t.order[i], t.cells[t.order[i]].start, v))
  {
    var a := t.order[i];
    var u := Retimed(t, a, t.cells[a].start, v);
    RetimedCells(t, i, v);
    forall j, k | 0 <= j < k < |u.order| ensures u.cells[u.order[j]].finish <= u.cells[u.order[k]].start {
      if j == i {
        if k > i + 1 {
          assert t.cells[t.order[i + 1]].finish <= t.cells[t.order[k]].start;
        }
      } else if k == i {
        assert t.cells[t.order[j]].finish <= t.cells[a].start;
      } else {
        assert t.cells[t.order[j]].finish <= t.cells[t.order[k]].start;
      }
    }
  }

  /** The region at position i after the pass, by the rule alone. */
  function ClosedCell(t: TrackState, dur: int, i: nat): (c: Region)
    requires WellFormed(t) && i < |t.order|
    ensures c.name == t.cells[t.order[i]].name && c.start == t.cells[t.order[i]].start
  {
    var x := t.cells[t.order[i]];
    if i + 1 < |t.order| && t.cells[t.order[i + 1]].start - x.finish <= dur then
      x.(finish := t.cells[t.order[i + 1]].start)
    else x
  }

  /** s is t with the first k listed regions closed by the rule and the rest untouched. */
  predicate ClosedUpTo(t: TrackState, s: TrackState, dur: int, k: nat)
    requires WellFormed(t)
  {
    s.order == t.order && |s.cells| == |t.cells| && WellFormed(s) && Separated(s)
    && (forall i :: 0 <= i < k && i < |t.order| ==> s.cells[t.order[i]] == ClosedCell(t, dur, i))
    && (forall i :: k <= i < |t.order| ==> s.cells[t.order[i]] == t.cells[t.order[i]])
  }

  /** Without a test, a step closes the pair exactly when the gap is at most dur. */
  lemma {:induction false} NoTestPair(s: TrackState, a: RegionId, b: RegionId, dur: int)
    requires WellFormed(s) && 0 <= a < |s.cells| && 0 <= b < |s.cells|
    ensures BlendPair(Pass(s, NoTest), a, b, dur)
         == Pass(if s.cells[b].start - s.cells[a].finish <= dur then SetFinish(s, a, s.cells[b].start) else s, NoTest)
  {
    assert Consult(Pass(s, NoTest), a, b) == (Pass(s, NoTest), true);
  }

  /** The step at k of a pass without a test keeps ClosedUpTo. */
  lemma {:induction false} ClosedStep(t: TrackState, s: TrackState, dur: int, k: nat)
    requires WellFormed(t) && Separated(t) && k + 1 < |t.order| && ClosedUpTo(t, s, dur, k)
    ensures ClosedUpTo(t, PairNext(Pass(s, NoTest), k, dur).track, dur, k + 1)
    ensures PairNext(Pass(s, NoTest), k, dur).test == NoTest
  {
    var a, b := t.order[k], t.order[k + 1];
    NoTestPair(s, a, b, dur);
    assert s.cells[a] == t.cells[a] && s.cells[b] == t.cells[b];
    if s.cells[b].start - s.cells[a].finish <= dur {
      ClosedStepClosing(t, s, dur, k);
    } else {
      assert ClosedCell(t, dur, k) == t.cells[a];
    }
  }

  lemma {:induction false} ClosedStepClosing(t: TrackState, s: TrackState, dur: int, k: nat)
    requires WellFormed(t) && Separated(t) && k + 1 < |t.order| && ClosedUpTo(t, s, dur, k)
    requires t.cells[t.order[k + 1]].start - t.cells[t.order[k]].finish <= dur
    ensures ClosedUpTo(t, SetFinish(s, s.order[k], s.cells[s.order[k + 1]].start), dur, k + 1)
  {
    var a, b := t.order[k], t.order[k + 1];
    assert s.cells[a] == t.cells[a] && s.cells[b] == t.cells[b];
    assert s.cells[a].finish <= s.cells[b].start;
    SeparatedClose(s, k, s.cells[b].start);
    RetimedCells(s, k, s.cells[b].start);
    assert ClosedCell(t, dur, k) == t.cells[a].(finish := t.cells[b].start);
  }

  /** In a separated track the region at position i is listed nowhere else. */
  lemma {:induction false} DistinctListed(t: TrackState, i: nat)
    requires WellFormed(t) && Separated(t) && i < |t.order|
    ensures forall k :: 0 <= k < |t.order| && k != i ==> t.order[k] != t.order[i]
  {
    forall k | 0 <= k < |t.order| && k != i ensures t.order[k] != t.order[i] {
      if k < i {
        assert t.cells[t.order[k]].finish <= t.cells[t.order[i]].start;
      } else {
        assert t.cells[t.order[i]].finish <= t.cells[t.order[k]].start;
      }
    }
  }

  lemma {:induction false} ClosedFrom(t: TrackState, s: TrackState, dur: int, k: nat)
    requires WellFormed(t) && Separated(t) && |t.order| > 0 && k <= |t.order| - 1 && ClosedUpTo(t, s, dur, k)
    ensures BranchBlendFrom(Pass(s, NoTest), k, |t.order| - 1, dur).1 == None
    ensures ClosedUpTo(t, BranchBlendFrom(Pass(s, NoTest), k, |t.order| - 1, dur).0.track, dur, |t.order|)
    decreases |t.order| - k
  {
    if k < |t.order| - 1 {
      ClosedStep(t, s, dur, k);
      ClosedFrom(t, PairNext(Pass(s, NoTest), k, dur).track, dur, k + 1);
      ClosedFromStep(t, s, dur, k);
    } else {
      ClosedFromDone(t, s, dur, k);
    }
  }

  lemma ClosedFromDone(t: TrackState, s: TrackState, dur: int, k: nat)
    requires WellFormed(t) && Separated(t) && |t.order| > 0 && k == |t.order| - 1 && ClosedUpTo(t, s, dur, k)
    ensures BranchBlendFrom(Pass(s, NoTest), k, |t.order| - 1, dur).1 == None
    ensures ClosedUpTo(t, BranchBlendFrom(Pass(s, NoTest), k, |t.order| - 1, dur).0.track, dur, |t.order|)
  {
    assert ClosedCell(t, dur, |t.order| - 1) == t.cells[t.order[|t.order| - 1]];
  }

  lemma ClosedFromStep(t: TrackState, s: TrackState, dur: int, k: nat)
    requires WellFormed(t) && Separated(t) && k < |t.order| - 1 && ClosedUpTo(t, s, dur, k)
    requires PairNext(Pass(s, NoTest), k, dur).test == NoTest
    requires BranchBlendFrom(Pass(PairNext(Pass(s, NoTest), k, dur).track, NoTest), k + 1, |t.order| - 1, dur).1 == None
    requires ClosedUpTo(t, BranchBlendFrom(Pass(PairNext(Pass(s, NoTest), k, dur).track, NoTest), k + 1, |t.order| - 1, dur).0.track,
                        dur, |t.order|)
    ensures BranchBlendFrom(Pass(s, NoTest), k, |t.order| - 1, dur).1 == None
    ensures ClosedUpTo(t, BranchBlendFrom(Pass(s, NoTest), k, |t.order| - 1, dur).0.track, dur, |t.order|)
  {
    BranchUnfold(Pass(s, NoTest), k, |t.order| - 1, dur);
    assert Pass(PairNext(Pass(s, NoTest), k, dur).track, NoTest) == PairNext(Pass(s, NoTest), k, dur);
  }

  /**
   * A pass without a test over a separated track is the rule applied to
   * the original times: each region ends at the next start when the gap to
   * it is at most dur, and keeps its times otherwise; the list is unchanged
   * and the pass does not raise.
   */
  lemma {:induction false} SeparatedBlend(t: TrackState, dur: int)
    requires WellFormed(t) && Separated(t)
    ensures BranchBlend(Pass(t, NoTest), dur).1 == None
    ensures var u := BranchBlend(Pass(t, NoTest), dur).0.track;
      u.order == t.order && Separated(u)
      && forall i :: 0 <= i < |t.order| ==> u.cells[t.order[i]] == ClosedCell(t, dur, i)
  {
    if |t.order| > 0 {
      ClosedFrom(t, t, dur, 0);
    }
  }

  /**
   * blend_test.rb's proximity cases: regions [0,600] and [900,1100] become
   * [0,900] and [900,1100] with a blend duration of 600, and stay as they
   * are with 100.
   */
  lemma {:induction false} ProximityBlend(t: TrackState, dur: int)
    requires WellFormed(t) && |t.order| == 2 && dur == 600
    requires t.cells[t.order[0]].start == 0 && t.cells[t.order[0]].finish == 600
    requires t.cells[t.order[1]].start == 900 && t.cells[t.order[1]].finish == 1100
    ensures var u := BranchBlend(Pass(t, NoTest), dur).0.track;
      Regions(u) == [t.cells[t.order[0]].(finish := 900), t.cells[t.order[1]]]
  {
    SeparatedBlend(t, dur);
    var u := BranchBlend(Pass(t, NoTest), dur).0.track;
    assert u.cells[t.order[0]] == ClosedCell(t, dur, 0);
    assert u.cells[t.order[1]] == ClosedCell(t, dur, 1);
  }

  lemma {:induction false} ProximityNoBlend(t: TrackState, dur: int)
    requires WellFormed(t) && |t.order| == 2 && dur == 100
    requires t.cells[t.order[0]].start == 0 && t.cells[t.order[0]].finish == 600
    requires t.cells[t.order[1]].start == 900 && t.cells[t.order[1]].finish == 1100
    ensures Regions(BranchBlend(Pass(t, NoTest), dur).0.track) == Regions(t)
  {
    SeparatedBlend(t, dur);
    var u := BranchBlend(Pass(t, NoTest), dur).0.track;
    assert u.cells[t.order[0]] == ClosedCell(t, dur, 0);
    assert u.cells[t.order[1]] == ClosedCell(t, dur, 1);
  }

  // ----- The tag test on separated tracks -----

  /** The tag test forces the pair closed: "!!" second, hold-open first, or the flag set and not cleared by "!". */
  predicate Forced(t: TrackState, a: RegionId, b: RegionId, stick: bool)
    requires 0 <= a < |t.cells| && 0 <= b < |t.cells|
  {
    BangBangSecond(t, b) || IsHoldOpen(Tag(t.cells[a].name)) || (stick && !BangFirst(t, a))
  }

  /**
   * On a separated track, a step of the tag test from position k closes
   * the pair (the first region then ends at the second's start) exactly
   * when the test forces it, or the gap is at most dur and the first is not
   * "!"; no region is deleted, a "!!" second loses its tag, and the flag
   * afterwards is as the test sets it.
   */
  lemma {:induction false} TagStep(t: TrackState, k: nat, stick: bool, dur: int)
    requires WellFormed(t) && Separated(t) && k + 1 < |t.order|
    ensures var a, b := t.order[k], t.order[k + 1];
      var r := BlendPair(Pass(t, TagTest(stick)), a, b, dur);
      var closes := Forced(t, a, b, stick) || (t.cells[b].start - t.cells[a].finish <= dur && !BangFirst(t, a));
      r.track.order == t.order && Separated(r.track)
      && r.track.cells[a] == (if closes then t.cells[a].(finish := t.cells[b].start) else t.cells[a])
      && r.track.cells[b] == (if BangBangSecond(t, b) then t.cells[b].(name := CleanName(t.cells[b].name)) else t.cells[b])
      && r.test == TagTest(IsHoldOpen(Tag(t.cells[a].name)) || (stick && !BangFirst(t, a) && !BangBangSecond(t, b)))
  {
    var a, b := t.order[k], t.order[k + 1];
    DistinctListed(t, k);
    var c := TagCallback(t, a, b, stick);
    TagPair(t, a, b, stick, dur);
    TagCallbackSeparated(t, k, stick);
    var t1 := c.0;
    if Forced(t, a, b, stick) {
      ClosedAgain(t1, k, dur);
    } else if t.cells[b].start - t.cells[a].finish <= dur && !BangFirst(t, a) {
      SeparatedClose(t, k, t.cells[b].start);
      RetimedCells(t, k, t.cells[b].start);
    }
  }

  /** With the tag test, a step is the test followed by the comparison on the regions it left. */
  lemma {:induction false} TagPair(t: TrackState, a: RegionId, b: RegionId, stick: bool, dur: int)
    requires WellFormed(t) && 0 <= a < |t.cells| && 0 <= b < |t.cells|
    ensures var c := TagCallback(t, a, b, stick);
      BlendPair(Pass(t, TagTest(stick)), a, b, dur)
      == Pass(if c.0.cells[b].start - c.0.cells[a].finish <= dur && c.2 then SetFinish(c.0, a, c.0.cells[b].start) else c.0,
              TagTest(c.1))
  {
    var c := TagCallback(t, a, b, stick);
    assert Consult(Pass(t, TagTest(stick)), a, b) == (Pass(c.0, TagTest(c.1)), c.2);
  }

  /** What the tag test leaves of a separated track. */
  lemma {:induction false} TagCallbackSeparated(t: TrackState, k: nat, stick: bool)
    requires WellFormed(t) && Separated(t) && k + 1 < |t.order|
    ensures var a, b := t.order[k], t.order[k + 1];
      var u := TagCallback(t, a, b, stick).0;
      u.order == t.order && Separated(u)
      && u.cells[a] == (if Forced(t, a, b, stick) then t.cells[a].(finish := t.cells[b].start) else t.cells[a])
      && u.cells[b] == (if BangBangSecond(t, b) then t.cells[b].(name := CleanName(t.cells[b].name)) else t.cells[b])
  {
    var a, b := t.order[k], t.order[k + 1];
    DistinctListed(t, k);
    if BangBangSecond(t, b) {
      ClearBangBangSeparated(t, k);
      var t1 := ClearBangBang(t, a, b);
      if IsHoldOpen(Tag(t1.cells[a].name)) {
        ClosedAgain(t1, k, 0);
      }
    } else if IsHoldOpen(Tag(t.cells[a].name)) || (stick && !BangFirst(t, a)) {
      SeparatedClose(t, k, t.cells[b].start);
      RetimedCells(t, k, t.cells[b].start);
    }
  }

  /** `second.tag = nil; first.finish = second.start` on a separated track. */
  lemma {:induction false} ClearBangBangSeparated(t: TrackState, k: nat)
    requires WellFormed(t) && Separated(t) && k + 1 < |t.order| && BangBangSecond(t, t.order[k + 1])
    ensures var a, b := t.order[k], t.order[k + 1];
      var u := ClearBangBang(t, a, b);
      u.order == t.order && Separated(u)
      && u.cells[a] == t.cells[a].(finish := t.cells[b].start)
      && u.cells[b] == t.cells[b].(name := CleanName(t.cells[b].name))
  {
    var a, b := t.order[k], t.order[k + 1];
    DistinctListed(t, k);
    TagSplit(t.cells[b].name);
    var n1 := SetName(t, b, WithTag(t.cells[b].name, None).value);
    assert WithTag(t.cells[b].name, None).value == CleanName(t.cells[b].name);
    SeparatedNames(t, n1);
    SeparatedClose(n1, k, n1.cells[b].start);
    RetimedCells(n1, k, n1.cells[b].start);
  }

  /** Renaming regions keeps a track separated. */
  lemma {:induction false} SeparatedNames(t: TrackState, u: TrackState)
    requires WellFormed(t) && Separated(t) && WellFormed(u) && u.order == t.order
    requires forall id :: 0 <= id < |t.cells| ==> id < |u.cells| && u.cells[id].start == t.cells[id].start && u.cells[id].finish == t.cells[id].finish
    ensures Separated(u)
  {
  }

  /** Closing an already closed pair again changes nothing. */
  lemma {:induction false} ClosedAgain(t: TrackState, k: nat, dur: int)
    requires WellFormed(t) && Separated(t) && k + 1 < |t.order|
    requires t.cells[t.order[k]].finish == t.cells[t.order[k + 1]].start
    ensures SetFinish(t, t.order[k], t.cells[t.order[k + 1]].start) == t
  {
    var a := t.order[k];
    SeparatedClose(t, k, t.cells[t.order[k + 1]].start);
    assert t.cells[a].(finish := t.cells[t.order[k + 1]].start) == t.cells[a];
    assert Retimed(t, a, t.cells[a].start, t.cells[t.order[k + 1]].start).cells == t.cells;
  }

  // ----- The Blender object -----

  class Blender {
    /** `blend_duration`, in divisions. */
    var blendDuration: int
    /** `@test_before_blend`. */
    var test: Callback

    /** Blender.new: a blend duration of one second and no test. */
    constructor ()
      ensures blendDuration == DivsPerSecond && test == NoTest
    {
      blendDuration := DivsPerSecond;
      test := NoTest;
    }

    /** test_before_blend: the block is installed only when it takes exactly two arguments. */
    method TestBeforeBlend(arity: int, block: Callback)
      modifies this
      ensures test == (if arity == 2 then block else old(test)) && blendDuration == old(blendDuration)
    {
      if arity == 2 {
        test := block;
      }
    }

    /** The call of the installed test on (first, second), as the tag interpreters' block runs it. */
    method CallTest(track: Track, a: RegionId, b: RegionId) returns (may: bool)
      requires track.Valid() && 0 <= a < |track.cells| && 0 <= b < |track.cells|
      modifies this, track
      ensures track.Valid() && (Pass(track.State(), test), may) == Consult(Pass(old(track.State()), old(test)), a, b)
      ensures blendDuration == old(blendDuration) && track.name == old(track.name) && track.channel == old(track.channel)
    {
      if test.NoTest? {
        return true;
      }
      var stick;
      stick, may := RunTagTest(track, a, b, test.stickOpen);
      test := TagTest(stick);
    }

    /**
     * The block of TagInterpreter#blend_with_tags, with the captured
     * `stick_open` passed in and out.
     */
    static method RunTagTest(track: Track, a: RegionId, b: RegionId, stick0: bool) returns (stick: bool, may: bool)
      requires track.Valid() && 0 <= a < |track.cells| && 0 <= b < |track.cells|
      modifies track
      ensures track.Valid() && (track.State(), stick, may) == TagCallback(old(track.State()), a, b, stick0)
      ensures track.name == old(track.name) && track.channel == old(track.channel)
    {
      ghost var t := track.State();
      stick := stick0;
      may := true;
      if Tag(track.cells[a].name) == Some("!") {
        may, stick := false, false;
      }
      if Tag(track.cells[b].name) == Some("!!") {
        stick := false;
        var _ := track.SetTag(b, None);
        track.SetFinish(a, track.cells[b].start);
        assert track.State() == ClearBangBang(t, a, b);
      }
      if IsHoldOpen(Tag(track.cells[a].name)) || stick {
        stick := true;
        track.SetFinish(a, track.cells[b].start);
      }
    }

    /** One step of blend_track on the pair (a, b). */
    method BlendPairStep(track: Track, a: RegionId, b: RegionId, dur: int)
      requires track.Valid() && 0 <= a < |track.cells| && 0 <= b < |track.cells|
      modifies this, track
      ensures track.Valid() && Pass(track.State(), test) == BlendPair(Pass(old(track.State()), old(test)), a, b, dur)
      ensures blendDuration == old(blendDuration) && track.name == old(track.name) && track.channel == old(track.channel)
    {
      var may := CallTest(track, a, b);
      if track.cells[b].start - track.cells[a].finish <= dur && may {
        track.SetFinish(a, track.cells[b].start);
      }
    }

    /**
     * branch_1 Blender#blend_track. The dup of the track shares its region
     * list, so the pass changes the given track; it returns the exception a
     * step raised, if any.
     */
    method BlendTrack(track: Track) returns (err: Option<Failure>)
      requires track.Valid()
      modifies this, track
      ensures track.Valid()
      ensures (Pass(track.State(), test), err) == BranchBlend(Pass(old(track.State()), old(test)), old(blendDuration))
      ensures blendDuration == old(blendDuration) && track.name == old(track.name) && track.channel == old(track.channel)
    {
      var dur := blendDuration;
      var n := if |track.order| == 0 then 0 else |track.order| - 1;
      var i := 0;
      while i < n
        invariant track.Valid() && 0 <= i <= n && blendDuration == dur
        invariant BranchBlendFrom(Pass(track.State(), test), i, n, dur)
               == BranchBlendFrom(Pass(old(track.State()), old(test)), 0, n, dur)
        invariant track.name == old(track.name) && track.channel == old(track.channel)
        decreases n - i
      {
        if i + 1 >= |track.order| {
          return Some(MissingPair(test));
        }
        BranchUnfold(Pass(track.State(), test), i, n, dur);
        BlendPairStep(track, track.order[i], track.order[i + 1], dur);
        i := i + 1;
      }
      err := None;
    }

    /** releases/1_1_0_tmp Blender#blend_track: `size` steps, nil pairs skipped. */
    method BlendTrackGuarded(track: Track)
      requires track.Valid()
      modifies this, track
      ensures track.Valid()
      ensures Pass(track.State(), test) == GuardedBlend(Pass(old(track.State()), old(test)), old(blendDuration))
      ensures blendDuration == old(blendDuration) && track.name == old(track.name) && track.channel == old(track.channel)
    {
      var dur := blendDuration;
      var n := |track.order|;
      var i := 0;
      while i < n
        invariant track.Valid() && 0 <= i <= n && blendDuration == dur
        invariant GuardedBlendFrom(Pass(track.State(), test), i, n, dur)
               == GuardedBlendFrom(Pass(old(track.State()), old(test)), 0, n, dur)
        invariant track.name == old(track.name) && track.channel == old(track.channel)
        decreases n - i
      {
        ghost var p := Pass(track.State(), test);
        if i + 1 < |track.order| {
          GuardedUnfold(p, i, n, dur);
          BlendPairStep(track, track.order[i], track.order[i + 1], dur);
        } else {
          GuardedSkip(p, i, n, dur);
        }
        i := i + 1;
      }
    }
  }
}
