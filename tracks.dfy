// The region list of a PT::Track and imposition (Track#impose!), the rule
// that restores non-overlap whenever a region's times change, as
// functions of the track's state.
//
// Regions are objects: a setter changes a region wherever it is referred
// to, and a region deleted from the list still exists (an interpreter may
// go on extending it). The state therefore keeps every region object ever
// created in `cells`, indexed by identity, and the region list `@regions`
// as the sequence `order` of identities.

module Tracks {
  import opened Base
  import opened Timecode

  /** The fields of a PT::Region object: its name, its times in divisions and its status text. */
  datatype Region = Region(name: string, start: int, finish: int, status: Option<string>)

  /** Region#duration. */
  function Duration(x: Region): int
  {
    x.finish - x.start
  }

  /** The object identity of a region. */
  type RegionId = int

  datatype TrackState = TrackState(cells: seq<Region>, order: seq<RegionId>)

  /** Every listed region exists. */
  predicate Listed(cells: seq<Region>, order: seq<RegionId>)
  {
    forall i :: 0 <= i < |order| ==> 0 <= order[i] < |cells|
  }

  /** Listed regions exist. */
  predicate WellFormed(t: TrackState)
  {
    Listed(t.cells, t.order)
  }

  /** A track with no region objects. */
  function EmptyTrack(): (t: TrackState)
    ensures WellFormed(t) && t.order == []
  {
    TrackState([], [])
  }

  /** The regions of the list, in list order. */
  function Regions(t: TrackState): (rs: seq<Region>)
    requires Listed(t.cells, t.order)
    ensures |rs| == |t.order| && forall i :: 0 <= i < |rs| ==> rs[i] == t.cells[t.order[i]]
  {
    seq(|t.order|, i requires 0 <= i < |t.order| => t.cells[t.order[i]])
  }

  // ----- The measure imposition decreases -----

  /** The positive part of a region's duration. */
  function Span(x: Region): nat
  {
    if x.finish > x.start then x.finish - x.start else 0
  }

  /** The total span of the listed regions. */
  function Extent(cells: seq<Region>, order: seq<RegionId>): nat
    requires Listed(cells, order)
  {
    if order == [] then 0
    else Extent(cells, order[..|order| - 1]) + Span(cells[order[|order| - 1]])
  }

  /** Giving one region a span no larger does not increase the total; a listed one that shrinks lowers it. */
  lemma {:induction false} ExtentUpdate(cells: seq<Region>, order: seq<RegionId>, x: RegionId, y: Region)
    requires Listed(cells, order) && 0 <= x < |cells| && Span(y) <= Span(cells[x])
    ensures Listed(cells[x := y], order)
    ensures Extent(cells[x := y], order) <= Extent(cells, order)
    ensures x in order && Span(y) < Span(cells[x]) ==> Extent(cells[x := y], order) < Extent(cells, order)
  {
    if order != [] {
      var p := order[..|order| - 1];
      ExtentUpdate(cells, p, x, y);
      assert order == p + [order[|order| - 1]];
    }
  }

  // ----- Step 1: regions the imposing region overwrites -----

  /** X lies within R (the delete_if test, apart from identity). */
  predicate Contained(x: Region, r: Region)
  {
    x.start >= r.start && x.finish <= r.finish
  }

  /** The listed regions that survive `delete_if`: all but those other than r that R contains. */
  function Survivors(cells: seq<Region>, order: seq<RegionId>, r: RegionId, sr: Region): (kept: seq<RegionId>)
    requires Listed(cells, order)
    ensures Listed(cells, kept) && |kept| <= |order| && forall id :: id in kept ==> id in order
    ensures forall k :: 0 <= k < |kept| ==> kept[k] == r || !Contained(cells[kept[k]], sr)
    ensures forall i :: 0 <= i < |order| && (order[i] == r || !Contained(cells[order[i]], sr)) ==> order[i] in kept
  {
    if order == [] then []
    else
      var x := order[|order| - 1];
      var p := Survivors(cells, order[..|order| - 1], r, sr);
      if x != r && Contained(cells[x], sr) then p else p + [x]
  }

  lemma {:induction false} SurvivorsExtent(cells: seq<Region>, order: seq<RegionId>, r: RegionId, sr: Region)
    requires Listed(cells, order)
    ensures Extent(cells, Survivors(cells, order, r, sr)) <= Extent(cells, order)
  {
    if order != [] {
      var x := order[|order| - 1];
      var p := Survivors(cells, order[..|order| - 1], r, sr);
      SurvivorsExtent(cells, order[..|order| - 1], r, sr);
      if !(x != r && Contained(cells[x], sr)) {
        assert (p + [x])[..|p|] == p;
      }
    }
  }

  /** When R contains no other listed region, nothing is deleted. */
  lemma {:induction false} SurvivorsAll(cells: seq<Region>, order: seq<RegionId>, r: RegionId, sr: Region)
    requires Listed(cells, order)
    requires forall i :: 0 <= i < |order| ==> order[i] == r || !Contained(cells[order[i]], sr)
    ensures Survivors(cells, order, r, sr) == order
  {
    if order != [] {
      SurvivorsAll(cells, order[..|order| - 1], r, sr);
      assert order == order[..|order| - 1] + [order[|order| - 1]];
    }
  }

  // ----- Steps 2 and 3: the first region overlapping an edge -----

  datatype Edge = TailEdge | HeadEdge

  /**
   * X overlaps R's left edge without being contained (its tail is to be
   * trimmed), or R's right edge (its head is to be trimmed).
   */
  predicate Overlaps(edge: Edge, x: Region, r: Region)
  {
    match edge
    case TailEdge => x.finish > r.start && x.start < r.start && x.finish < r.finish
    case HeadEdge => x.start < r.finish && x.finish > r.finish && x.start > r.start
  }

  /** `@regions.find`: the first position at or after i whose region overlaps the edge. */
  function FirstOverlap(cells: seq<Region>, order: seq<RegionId>, sr: Region, edge: Edge, i: nat): (k: Option<nat>)
    requires Listed(cells, order) && i <= |order|
    ensures k.Some? ==> i <= k.value < |order| && Overlaps(edge, cells[order[k.value]], sr)
                        && forall j :: i <= j < k.value ==> !Overlaps(edge, cells[order[j]], sr)
    ensures k.None? ==> forall j :: i <= j < |order| ==> !Overlaps(edge, cells[order[j]], sr)
    decreases |order| - i
  {
    if i == |order| then None
    else if Overlaps(edge, cells[order[i]], sr) then Some(i)
    else FirstOverlap(cells, order, sr, edge, i + 1)
  }

  // ----- What an imposition may change -----

  /** Names and statuses of all region objects agree. */
  predicate SameLabels(a: seq<Region>, b: seq<Region>)
  {
    |a| == |b| && forall id :: 0 <= id < |a| ==> b[id].name == a[id].name && b[id].status == a[id].status
  }

  lemma {:induction false} SameLabelsTrans(a: seq<Region>, b: seq<Region>, c: seq<Region>)
    requires SameLabels(a, b) && SameLabels(b, c)
    ensures SameLabels(a, c)
  {
  }

  /**
   * u is t after an imposition: the same region objects, no new listed
   * region, a list no longer and a total span no larger, names and statuses
   * untouched, and unlisted regions untouched.
   */
  predicate Shrinks(t: TrackState, u: TrackState)
    requires WellFormed(t)
  {
    WellFormed(u) && |u.cells| == |t.cells|
    && Extent(u.cells, u.order) <= Extent(t.cells, t.order)
    && |u.order| <= |t.order| && (forall id :: id in u.order ==> id in t.order)
    && (forall id :: 0 <= id < |t.cells| && id !in t.order ==> u.cells[id] == t.cells[id])
    && SameLabels(t.cells, u.cells)
  }

  lemma {:induction false} ShrinksRefl(t: TrackState)
    requires WellFormed(t)
    ensures Shrinks(t, t)
  {
  }

  lemma {:induction false} ShrinksTrans(a: TrackState, b: TrackState, c: TrackState)
    requires WellFormed(a) && Shrinks(a, b) && Shrinks(b, c)
    ensures Shrinks(a, c)
  {
    forall id | 0 <= id < |a.cells| && id !in a.order ensures id !in b.order {
      assert id !in a.order;
    }
  }

  /** The state after `delete_if`. */
  function Overwritten(t: TrackState, r: RegionId): (u: TrackState)
    requires WellFormed(t) && 0 <= r < |t.cells|
    ensures Shrinks(t, u) && u.cells == t.cells
    ensures forall i :: 0 <= i < |t.order| ==>
      (t.order[i] in u.order <==> t.order[i] == r || !Contained(t.cells[t.order[i]], t.cells[r]))
  {
    var u := t.(order := Survivors(t.cells, t.order, r, t.cells[r]));
    SurvivorsExtent(t.cells, t.order, r, t.cells[r]);
    u
  }

  /** The region x with new times (the field write of start= or finish=). */
  function Retimed(t: TrackState, x: RegionId, start: int, finish: int): TrackState
    requires 0 <= x < |t.cells|
  {
    t.(cells := t.cells[x := t.cells[x].(start := start, finish := finish)])
  }

  /** A trim shortens a listed region whose span is positive. */
  lemma {:induction false} TrimShrinks(t: TrackState, x: RegionId, start: int, finish: int)
    requires WellFormed(t) && x in t.order
    requires var c := t.cells[x]; c.start <= start < finish <= c.finish && finish - start < c.finish - c.start
    ensures WellFormed(Retimed(t, x, start, finish)) && Shrinks(t, Retimed(t, x, start, finish))
    ensures Extent(Retimed(t, x, start, finish).cells, t.order) < Extent(t.cells, t.order)
  {
    var y := t.cells[x].(start := start, finish := finish);
    ExtentUpdate(t.cells, t.order, x, y);
  }

  // ----- Imposition -----

  /**
   * Track#impose!(R): delete every other listed region R contains, then
   * trim the first region overlapping R's left edge back to R's start,
   * then (reading R again: the first trim may have trimmed R) the first
   * region overlapping R's right edge forward to R's finish. Each trim goes
   * through a setter and so imposes the trimmed region in turn.
   */
  function Imposed(t: TrackState, r: RegionId): (u: TrackState)
    requires WellFormed(t) && 0 <= r < |t.cells|
    ensures Shrinks(t, u)
    decreases Extent(t.cells, t.order), 2
  {
    var t1 := Overwritten(t, r);
    var t2 := TrimTail(t1, r);
    ShrinksTrans(t, t1, t2);
    var t3 := TrimHead(t2, r);
    ShrinksTrans(t, t2, t3);
    t3
  }

  /** Step 2: `trim_tail.finish = imposing_region.start`, which imposes trim_tail. */
  function TrimTail(t: TrackState, r: RegionId): (u: TrackState)
    requires WellFormed(t) && 0 <= r < |t.cells|
    ensures Shrinks(t, u)
    decreases Extent(t.cells, t.order), 1
  {
    var sr := t.cells[r];
    match FirstOverlap(t.cells, t.order, sr, TailEdge, 0)
    case None => t
    case Some(k) =>
      var x := t.order[k];
      var t1 := Retimed(t, x, t.cells[x].start, sr.start);
      TrimShrinks(t, x, t.cells[x].start, sr.start);
      var u := Imposed(t1, x);
      ShrinksTrans(t, t1, u);
      u
  }

  /** Step 3: `trim_head.start = imposing_region.finish`, which imposes trim_head. */
  function TrimHead(t: TrackState, r: RegionId): (u: TrackState)
    requires WellFormed(t) && 0 <= r < |t.cells|
    ensures Shrinks(t, u)
    decreases Extent(t.cells, t.order), 1
  {
    var sr := t.cells[r];
    match FirstOverlap(t.cells, t.order, sr, HeadEdge, 0)
    case None => t
    case Some(k) =>
      var y := t.order[k];
      var t1 := Retimed(t, y, sr.finish, t.cells[y].finish);
      TrimShrinks(t, y, sr.finish, t.cells[y].finish);
      var u := Imposed(t1, y);
      ShrinksTrans(t, t1, u);
      u
  }

  /** Nothing to delete and nothing overlapping an edge: imposition changes nothing. */
  lemma {:induction false} ImposeNoop(t: TrackState, r: RegionId)
    requires WellFormed(t) && 0 <= r < |t.cells|
    requires forall i :: 0 <= i < |t.order| ==>
      (t.order[i] == r || (!Contained(t.cells[t.order[i]], t.cells[r]) && !Overlaps(TailEdge, t.cells[t.order[i]], t.cells[r])
                           && !Overlaps(HeadEdge, t.cells[t.order[i]], t.cells[r])))
    ensures Imposed(t, r) == t
  {
    SurvivorsAll(t.cells, t.order, r, t.cells[r]);
    assert Overwritten(t, r) == t;
    NoOverlapNoTrim(t, r);
  }

  lemma {:induction false} NoOverlapNoTrim(t: TrackState, r: RegionId)
    requires WellFormed(t) && 0 <= r < |t.cells|
    requires forall i :: 0 <= i < |t.order| ==>
      !Overlaps(TailEdge, t.cells[t.order[i]], t.cells[r]) && !Overlaps(HeadEdge, t.cells[t.order[i]], t.cells[r])
    ensures TrimTail(t, r) == t && TrimHead(t, r) == t
  {
    assert FirstOverlap(t.cells, t.order, t.cells[r], TailEdge, 0).None?;
    assert FirstOverlap(t.cells, t.order, t.cells[r], HeadEdge, 0).None?;
  }

  // ----- Region setters -----

  /** Region#start=: write the field, then impose the region on its track. */
  function SetStart(t: TrackState, x: RegionId, v: int): (u: TrackState)
    requires WellFormed(t) && 0 <= x < |t.cells|
    ensures WellFormed(Retimed(t, x, v, t.cells[x].finish)) && Shrinks(Retimed(t, x, v, t.cells[x].finish), u)
  {
    Imposed(Retimed(t, x, v, t.cells[x].finish), x)
  }

  /** Region#finish=: write the field, then impose the region on its track. */
  function SetFinish(t: TrackState, x: RegionId, v: int): (u: TrackState)
    requires WellFormed(t) && 0 <= x < |t.cells|
    ensures WellFormed(Retimed(t, x, t.cells[x].start, v)) && Shrinks(Retimed(t, x, t.cells[x].start, v), u)
  {
    Imposed(Retimed(t, x, t.cells[x].start, v), x)
  }

  /** Region#name= (no imposition). */
  function SetName(t: TrackState, x: RegionId, name: string): (u: TrackState)
    requires WellFormed(t) && 0 <= x < |t.cells|
    ensures WellFormed(u) && |u.cells| == |t.cells| && u.order == t.order 
    ensures u.cells[x].name == name && forall id :: 0 <= id < |t.cells| && id != x ==> u.cells[id] == t.cells[id]
  {
    t.(cells := t.cells[x := t.cells[x].(name := name)])
  }

  /** Region#start= on a region outside the list: only listed regions are trimmed or deleted. */
  function SetStartUnlisted(t: TrackState, x: RegionId, v: int): (u: TrackState)
    requires WellFormed(t) && 0 <= x < |t.cells| && x !in t.order
    ensures WellFormed(u) && |u.cells| == |t.cells|
    ensures u.cells[x] == t.cells[x].(start := v) && x !in u.order
    ensures |u.order| <= |t.order| && forall id :: id in u.order ==> id in t.order
    ensures SameLabels(t.cells, u.cells)
  {
    assert Retimed(t, x, v, t.cells[x].finish).order == t.order;
    assert SameLabels(t.cells, Retimed(t, x, v, t.cells[x].finish).cells);
    SameLabelsTrans(t.cells, Retimed(t, x, v, t.cells[x].finish).cells, SetStart(t, x, v).cells);
    SetStart(t, x, v)
  }

  /** Region#finish= on a region outside the list. */
  function SetFinishUnlisted(t: TrackState, x: RegionId, v: int): (u: TrackState)
    requires WellFormed(t) && 0 <= x < |t.cells| && x !in t.order
    ensures WellFormed(u) && |u.cells| == |t.cells|
    ensures u.cells[x] == t.cells[x].(finish := v) && x !in u.order
    ensures |u.order| <= |t.order| && forall id :: id in u.order ==> id in t.order
    ensures SameLabels(t.cells, u.cells)
  {
    assert Retimed(t, x, t.cells[x].start, v).order == t.order;
    assert SameLabels(t.cells, Retimed(t, x, t.cells[x].start, v).cells);
    SameLabelsTrans(t.cells, Retimed(t, x, t.cells[x].start, v).cells, SetFinish(t, x, v).cells);
    SetFinish(t, x, v)
  }

  // ----- Sorting by start (Region#<=>) -----

  /** The list is in non-decreasing order of start. */
  predicate SortedByStart(cells: seq<Region>, order: seq<RegionId>)
    requires Listed(cells, order)
  {
    forall i, j :: 0 <= i < j < |order| ==> cells[order[i]].start <= cells[order[j]].start
  }

  /** Insert x after the last listed region that starts no later than it. */
  function InsertByStart(cells: seq<Region>, order: seq<RegionId>, x: RegionId): (r: seq<RegionId>)
    requires Listed(cells, order) && 0 <= x < |cells|
    ensures Listed(cells, r) && multiset(r) == multiset(order) + multiset{x}
  {
    if order == [] then [x]
    else
      var p := order[..|order| - 1];
      var y := order[|order| - 1];
      assert order == p + [y];
      if cells[y].start <= cells[x].start then order + [x]
      else
        var q := InsertByStart(cells, p, x);
        assert multiset(q + [y]) == multiset(q) + multiset{y};
        q + [y]
  }

  /** `@regions.sort!` by start; equal starts keep their order. */
  function SortByStart(cells: seq<Region>, order: seq<RegionId>): (r: seq<RegionId>)
    requires Listed(cells, order)
    ensures Listed(cells, r) && multiset(r) == multiset(order)
  {
    if order == [] then []
    else
      var p := order[..|order| - 1];
      assert order == p + [order[|order| - 1]];
      InsertByStart(cells, SortByStart(cells, p), order[|order| - 1])
  }

  lemma {:induction false} InsertBounded(cells: seq<Region>, order: seq<RegionId>, x: RegionId, v: int)
    requires Listed(cells, order) && 0 <= x < |cells| && cells[x].start <= v
    requires forall i :: 0 <= i < |order| ==> cells[order[i]].start <= v
    ensures forall i :: 0 <= i < |InsertByStart(cells, order, x)| ==> cells[InsertByStart(cells, order, x)[i]].start <= v
  {
    if order != [] {
      InsertBounded(cells, order[..|order| - 1], x, v);
    }
  }

  lemma {:induction false} InsertSorted(cells: seq<Region>, order: seq<RegionId>, x: RegionId)
    requires Listed(cells, order) && 0 <= x < |cells| && SortedByStart(cells, order)
    ensures SortedByStart(cells, InsertByStart(cells, order, x))
  {
    if order != [] {
      var p := order[..|order| - 1];
      var y := order[|order| - 1];
      if cells[y].start > cells[x].start {
        InsertSorted(cells, p, x);
        InsertBounded(cells, p, x, cells[y].start);
      }
    }
  }

  /** Sorting yields a list sorted by start holding the same regions. */
  lemma {:induction false} SortSorted(cells: seq<Region>, order: seq<RegionId>)
    requires Listed(cells, order)
    ensures SortedByStart(cells, SortByStart(cells, order))
  {
    if order != [] {
      SortSorted(cells, order[..|order| - 1]);
      InsertSorted(cells, SortByStart(cells, order[..|order| - 1]), order[|order| - 1]);
    }
  }

  /** A sorted list stays as it is under sorting. */
  lemma {:induction false} SortOfSorted(cells: seq<Region>, order: seq<RegionId>)
    requires Listed(cells, order) && SortedByStart(cells, order)
    ensures SortByStart(cells, order) == order
  {
    if order != [] {
      var p := order[..|order| - 1];
      var y := order[|order| - 1];
      assert SortedByStart(cells, p);
      SortOfSorted(cells, p);
      assert order == p + [y];
      assert p != [] ==> cells[p[|p| - 1]].start <= cells[y].start;
      assert InsertByStart(cells, p, y) == order;
    }
  }

  // ----- Creating regions -----

  /** Region.new(track): name "(blank)", start 0, finish 1. */
  const BlankRegion: Region := Region("(blank)", 0, 1, None)

  /**
   * The region object of the next identity, set up by a create_region
   * block `r.name, r.start, r.finish = name, start, finish` (the status, an
   * opaque field, is set with the name): each time setter imposes the new
   * region while it is not yet listed.
   */
  function Built(t: TrackState, name: string, start: int, finish: int, status: Option<string>): (u: TrackState)
    requires WellFormed(t)
    ensures WellFormed(u) && |u.cells| == |t.cells| + 1 && |t.cells| < |u.cells| && |t.cells| !in u.order
    ensures u.cells[|t.cells|] == Region(name, start, finish, status)
    ensures |u.order| <= |t.order| && forall id :: id in u.order ==> id in t.order
  {
    var t0 := Fresh(t, name, status);
    var t1 := SetStartUnlisted(t0, |t.cells|, start);
    SetFinishUnlisted(t1, |t.cells|, finish)
  }

  /** Region.new with the name and status written: a fresh, unlisted region object. */
  function Fresh(t: TrackState, name: string, status: Option<string>): (u: TrackState)
    requires WellFormed(t)
    ensures WellFormed(u) && u.order == t.order && |u.cells| == |t.cells| + 1
    ensures u.cells == t.cells + [BlankRegion.(name := name, status := status)] && |t.cells| !in t.order
  {
    TrackState(t.cells + [BlankRegion.(name := name, status := status)], t.order)
  }

  /**
   * branch_1 Track#create_region: build the region, append it to the list
   * and sort the list by start. The new region is listed and the list is
   * sorted afterwards, whatever it was before.
   */
  function Created(t: TrackState, name: string, start: int, finish: int, status: Option<string>): (u: TrackState)
    requires WellFormed(t)
    ensures WellFormed(u) && |u.cells| == |t.cells| + 1 && |t.cells| in u.order
    ensures u.cells[|t.cells|] == Region(name, start, finish, status)
    ensures SortedByStart(u.cells, u.order)
    ensures |u.order| <= |t.order| + 1
  {
    ListedSorted(Built(t, name, start, finish, status), |t.cells|)
  }

  /** create_region changes the times of other regions at most: every older region object keeps its name and status. */
  lemma {:induction false} CreatedLabels(t: TrackState, name: string, start: int, finish: int, status: Option<string>)
    requires WellFormed(t)
    ensures var u := Created(t, name, start, finish, status);
      forall id :: 0 <= id < |t.cells| ==> u.cells[id].name == t.cells[id].name && u.cells[id].status == t.cells[id].status
  {
    SameLabelsTrans(Fresh(t, name, status).cells, SetStartUnlisted(Fresh(t, name, status), |t.cells|, start).cells,
      Built(t, name, start, finish, status).cells);
  }

  /** `@regions << r` and `@regions.sort!`: the region is listed and the list sorted by start. */
  function ListedSorted(b: TrackState, id: RegionId): (u: TrackState)
    requires WellFormed(b) && 0 <= id < |b.cells|
    ensures WellFormed(u) && u.cells == b.cells && id in u.order && SortedByStart(u.cells, u.order)
    ensures multiset(u.order) == multiset(b.order) + multiset{id} && |u.order| == |b.order| + 1
  {
    var o := SortByStart(b.cells, b.order + [id]);
    SortSorted(b.cells, b.order + [id]);
    assert id in multiset(o) && |multiset(o)| == |b.order| + 1;
    b.(order := o)
  }

  /** `@regions << r`: the region appended to the list. */
  function ListedLast(b: TrackState, id: RegionId): (u: TrackState)
    requires WellFormed(b) && 0 <= id < |b.cells|
    ensures WellFormed(u) && u.cells == b.cells && u.order == b.order + [id]
  {
    b.(order := b.order + [id])
  }

  /** `@regions.sort!`. */
  function SortedList(v: TrackState): (u: TrackState)
    requires WellFormed(v)
    ensures WellFormed(u) && u.cells == v.cells && SortedByStart(u.cells, u.order)
    ensures multiset(u.order) == multiset(v.order)
  {
    SortSorted(v.cells, v.order);
    v.(order := SortByStart(v.cells, v.order))
  }

  /** trunk Track#add_primitive_region: build the region and append it, unsorted. */
  function Appended(t: TrackState, name: string, start: int, finish: int, status: Option<string>): (u: TrackState)
    requires WellFormed(t)
    ensures WellFormed(u) && |u.cells| == |t.cells| + 1 && |u.order| > 0 && u.order[|u.order| - 1] == |t.cells|
    ensures u.cells[|t.cells|] == Region(name, start, finish, status)
    ensures |u.order| <= |t.order| + 1
  {
    ListedLast(Built(t, name, start, finish, status), |t.cells|)
  }

  /**
   * The region built and listed: sorted in by start (branch_1 create_region)
   * or appended last (trunk).
   */
  function Placed(t: TrackState, name: string, start: int, finish: int, status: Option<string>, sorted: bool): (u: TrackState)
    requires WellFormed(t)
    ensures WellFormed(u) && |u.cells| == |t.cells| + 1 && |t.cells| in u.order
    ensures u.cells[|t.cells|] == Region(name, start, finish, status)
    ensures sorted ==> SortedByStart(u.cells, u.order)
    ensures !sorted ==> u.order[|u.order| - 1] == |t.cells|
  {
    if sorted then Created(t, name, start, finish, status) else Appended(t, name, start, finish, status)
  }

  /**
   * Track#add_region: as create_region (or, in trunk, as the unsorted
   * add_primitive_region), but the times are text read through
   * Region#str_to_tc, each of which may switch the session time format
   * (returned with the track) or raise for a missing frame rate. The finish
   * is read under the format the start left.
   */
  function AddRegionText(t: TrackState, name: string, status: Option<string>, startText: string, finishText: string,
                         fps: Option<FrameRate>, format: TimeFormat, sorted: bool): (r: (TrackState, Result<TimeFormat>))
    requires WellFormed(t)
    ensures WellFormed(r.0) && |r.0.cells| == |t.cells| + 1
    ensures r.1.Err? ==> r.1.error == NilFrameRate && fps.None?
  {
    var ds := StrToTc(startText, fps, format);
    AddRegionTimes(t, name, status, ds, if ds.Ok? then StrToTc(finishText, fps, ds.value.format) else ds, sorted)
  }

  /**
   * add_region once the start and finish texts are decoded: with both
   * times, exactly the region placed; a raise leaves the work done so far,
   * the new region object unlisted and, when the finish raises, the
   * imposition of its start.
   */
  function AddRegionTimes(t: TrackState, name: string, status: Option<string>, ds: Result<Decoded>, df: Result<Decoded>,
                          sorted: bool): (r: (TrackState, Result<TimeFormat>))
    requires WellFormed(t)
    ensures WellFormed(r.0) && |r.0.cells| == |t.cells| + 1
    ensures r.1.Ok? <==> ds.Ok? && df.Ok?
    ensures r.1.Ok? ==> r.0 == Placed(t, name, ds.value.divs, df.value.divs, status, sorted) && r.1.value == df.value.format
    ensures r.1.Err? ==> |t.cells| !in r.0.order && r.1.error == (if ds.Err? then ds.error else df.error)
    ensures ds.Err? ==> r.0 == Fresh(t, name, status)
  {
    var n := |t.cells|;
    var t0 := Fresh(t, name, status);
    match ds
    case Err(e) => (t0, Err(e))
    case Ok(s) =>
      var t1 := SetStartUnlisted(t0, n, s.divs);
      match df
      case Err(e) => (t1, Err(e))
      case Ok(f) => (Placed(t, name, s.divs, f.divs, status, sorted), Ok(f.format))
  }

  /** Track#update: impose the region, then sort the list by start. */
  function Updated(t: TrackState, r: RegionId): (u: TrackState)
    requires WellFormed(t) && 0 <= r < |t.cells|
    ensures WellFormed(u) && SortedByStart(u.cells, u.order)
    ensures multiset(u.order) == multiset(Imposed(t, r).order)
  {
    SortedList(Imposed(t, r))
  }

  /** Track#delete_all_regions!: an empty list; the region objects live on. */
  function AllDeleted(t: TrackState): (u: TrackState)
    requires WellFormed(t)
    ensures WellFormed(u) && u.order == [] && u.cells == t.cells 
  {
    t.(order := [])
  }

  // ----- Examples -----

  /**
   * On an empty track add_primitive_region lists exactly the new region,
   * as track_test expects of ('test 1', 0, 600).
   */
  lemma {:induction false} CreatedOnEmpty(name: string, s: int, f: int, status: Option<string>)
    ensures Regions(Created(EmptyTrack(), name, s, f, status)) == [Region(name, s, f, status)]
  {
    CreatedAppends(EmptyTrack(), name, s, f, status);
  }

  /** The same for trunk's unsorted add_primitive_region. */
  lemma {:induction false} AppendedOnEmpty(name: string, s: int, f: int)
    ensures Regions(Appended(EmptyTrack(), name, s, f, None)) == [Region(name, s, f, None)]
  {
    var u := Appended(EmptyTrack(), name, s, f, None);
    assert u.order == [0];
  }

  /**
   * A listed region that starts before s and either ends by s or runs past
   * f (and past the default finish 1) is neither deleted nor trimmed by the
   * new region's two impositions.
   */
  predicate ClearOf(x: Region, s: int, f: int)
  {
    x.start < s && (x.finish <= s || (x.finish > f && x.finish >= 1))
  }

  /**
   * create_region next to or inside regions it is clear of lists the new
   * region last and changes no other region.
   */
  lemma {:induction false} CreatedClear(t: TrackState, name: string, s: int, f: int, status: Option<string>)
    requires WellFormed(t) && SortedByStart(t.cells, t.order)
    requires forall i :: 0 <= i < |t.order| ==> ClearOf(t.cells[t.order[i]], s, f)
    ensures Created(t, name, s, f, status)
         == TrackState(t.cells + [Region(name, s, f, status)], t.order + [|t.cells|])
  {
    var b := TrackState(t.cells + [Region(name, s, f, status)], t.order);
    BuiltClear(t, name, s, f, status);
    SortedAppend(t, Region(name, s, f, status));
    SortOfSorted(b.cells, b.order + [|t.cells|]);
  }

  lemma {:induction false} SortedAppend(t: TrackState, x: Region)
    requires WellFormed(t) && SortedByStart(t.cells, t.order)
    requires forall i :: 0 <= i < |t.order| ==> t.cells[t.order[i]].start < x.start
    ensures Listed(t.cells + [x], t.order + [|t.cells|]) && SortedByStart(t.cells + [x], t.order + [|t.cells|])
  {
    var cells := t.cells + [x];
    assert forall i :: 0 <= i < |t.order| ==> cells[t.order[i]] == t.cells[t.order[i]];
  }

  lemma {:induction false} BuiltClear(t: TrackState, name: string, s: int, f: int, status: Option<string>)
    requires WellFormed(t)
    requires forall i :: 0 <= i < |t.order| ==> ClearOf(t.cells[t.order[i]], s, f)
    ensures Built(t, name, s, f, status) == TrackState(t.cells + [Region(name, s, f, status)], t.order)
  {
    var c0 := BlankRegion.(name := name, status := status);
    StartClear(t, c0, s);
    FinishClear(t, c0.(start := s), f);
  }

  lemma {:induction false} StartClear(t: TrackState, c: Region, s: int)
    requires WellFormed(t) && c.finish == 1
    requires forall i :: 0 <= i < |t.order| ==>
      t.cells[t.order[i]].start < s && (t.cells[t.order[i]].finish <= s || t.cells[t.order[i]].finish >= 1)
    ensures SetStartUnlisted(TrackState(t.cells + [c], t.order), |t.cells|, s)
         == TrackState(t.cells + [c.(start := s)], t.order)
  {
    var t1 := TrackState(t.cells + [c.(start := s)], t.order);
    assert Retimed(TrackState(t.cells + [c], t.order), |t.cells|, s, 1) == t1;
    assert forall i :: 0 <= i < |t.order| ==> t1.cells[t1.order[i]] == t.cells[t.order[i]];
    ImposeNoop(t1, |t.cells|);
  }

  lemma {:induction false} FinishClear(t: TrackState, c: Region, f: int)
    requires WellFormed(t)
    requires forall i :: 0 <= i < |t.order| ==> ClearOf(t.cells[t.order[i]], c.start, f)
    ensures SetFinishUnlisted(TrackState(t.cells + [c], t.order), |t.cells|, f)
         == TrackState(t.cells + [c.(finish := f)], t.order)
  {
    var t1 := TrackState(t.cells + [c.(finish := f)], t.order);
    assert Retimed(TrackState(t.cells + [c], t.order), |t.cells|, c.start, f) == t1;
    assert forall i :: 0 <= i < |t.order| ==> t1.cells[t1.order[i]] == t.cells[t.order[i]];
    ImposeNoop(t1, |t.cells|);
  }

  /** The regions of a list extended by one new region object. */
  lemma {:induction false} RegionsAppend(t: TrackState, x: Region)
    requires WellFormed(t)
    ensures Listed(t.cells + [x], t.order + [|t.cells|])
    ensures Regions(TrackState(t.cells + [x], t.order + [|t.cells|])) == Regions(t) + [x]
  {
  }

  /**
   * Hence the regions listed after create_region are the old ones, in their
   * order and unchanged, followed by the new one; in particular a region
   * created after every listed region is appended and overlaps none of them.
   */
  lemma {:induction false} CreatedAppends(t: TrackState, name: string, s: int, f: int, status: Option<string>)
    requires WellFormed(t) && SortedByStart(t.cells, t.order)
    requires forall i :: 0 <= i < |t.order| ==> ClearOf(t.cells[t.order[i]], s, f)
    ensures Regions(Created(t, name, s, f, status)) == Regions(t) + [Region(name, s, f, status)]
  {
    CreatedClear(t, name, s, f, status);
    RegionsAppend(t, Region(name, s, f, status));
  }

  /**
   * Imposition does not split a region: a region created strictly inside
   * the only listed region leaves both listed, overlapping.
   */
  lemma {:induction false} EnclosedRegionSurvives(t: TrackState, name: string, s: int, f: int, status: Option<string>)
    requires WellFormed(t) && |Regions(t)| == 1 && 0 <= Regions(t)[0].start < s <= f < Regions(t)[0].finish
    ensures Regions(Created(t, name, s, f, status)) == Regions(t) + [Region(name, s, f, status)]
  {
    CreatedAppends(t, name, s, f, status);
  }

  /**
   * Imposing a region over the tail of another one trims that one back to
   * its start; the trimmed region, imposed in turn, changes nothing more.
   */
  lemma {:induction false} TailTrimmed(a: Region, c: Region)
    requires a.start < c.start < a.finish < c.finish
    ensures Imposed(TrackState([a, c], [0]), 1) == TrackState([a.(finish := c.start), c], [0])
  {
    var t := TrackState([a, c], [0]);
    SurvivorsAll(t.cells, t.order, 1, c);
    assert Overwritten(t, 1) == t;
    TailTrimmedStep(a, c);
    TrimmedTailClear(a.(finish := c.start), c);
  }

  lemma {:induction false} TrimmedTailClear(a: Region, c: Region)
    requires a.start < c.start && a.finish == c.start && c.start < c.finish
    ensures TrimHead(TrackState([a, c], [0]), 1) == TrackState([a, c], [0])
  {
    NoOverlapNoTrim(TrackState([a, c], [0]), 1);
  }

  lemma {:induction false} TailTrimmedStep(a: Region, c: Region)
    requires a.start < c.start < a.finish < c.finish
    ensures TrimTail(TrackState([a, c], [0]), 1) == TrackState([a.(finish := c.start), c], [0])
  {
    var t := TrackState([a, c], [0]);
    assert FirstOverlap(t.cells, t.order, c, TailEdge, 0) == Some(0);
    var t1 := TrackState([a.(finish := c.start), c], [0]);
    assert Retimed(t, 0, a.start, c.start) == t1;
    ImposeNoop(t1, 0);
  }

  // ----- reframe! -----

  /**
   * trunk Region#reframe!: a region of non-zero length has its start
   * snapped down to the grid and, unless its finish (read again after the
   * first setter imposed) is on the grid already, its finish snapped up;
   * each setter imposes.
   */
  function ReframedRegion(t: TrackState, x: RegionId, format: TimeFormat): (u: TrackState)
    requires WellFormed(t) && 0 <= x < |t.cells|
    ensures WellFormed(u) && |u.cells| == |t.cells|
    ensures |u.order| <= |t.order|
  {
    var c := t.cells[x];
    if c.start == c.finish then t
    else
      var t1 := SetStart(t, x, SnapDown(c.start, format));
      var f := t1.cells[x].finish;
      if f % ReframeModulus(format) == 0 then t1
      else SetFinish(t1, x, SnapUp(f, format))
  }

  /** trunk Track#reframe!: `@regions.each`, reading the live list at each position from i on. */
  function ReframedFrom(t: TrackState, i: nat, format: TimeFormat): (u: TrackState)
    requires WellFormed(t)
    ensures WellFormed(u) && |u.cells| == |t.cells|
    decreases |t.order| - i
  {
    if i >= |t.order| then t
    else ReframedFrom(ReframedRegion(t, t.order[i], format), i + 1, format)
  }

  /** The region c with both edges put on the grid, as reframe! does to a region alone on its track. */
  function Snapped(c: Region, format: TimeFormat): Region
  {
    c.(start := SnapDown(c.start, format), finish := SnapUp(c.finish, format))
  }

  /**
   * A region alone on its track is left alone when it has zero length and
   * otherwise snapped outward to whole feet or seconds; the list itself is
   * unchanged.
   */
  lemma {:induction false} ReframeAlone(c: Region, format: TimeFormat)
    ensures ReframedFrom(TrackState([c], [0]), 0, format)
         == TrackState([if c.start == c.finish then c else Snapped(c, format)], [0])
  {
    var t := TrackState([c], [0]);
    ReframeAloneStep(c, format);
    assert ReframedFrom(t, 0, format) == ReframedFrom(ReframedRegion(t, 0, format), 1, format);
  }

  lemma {:induction false} ReframeAloneStep(c: Region, format: TimeFormat)
    ensures ReframedRegion(TrackState([c], [0]), 0, format)
         == TrackState([if c.start == c.finish then c else Snapped(c, format)], [0])
  {
    if c.start != c.finish {
      var c1 := c.(start := SnapDown(c.start, format));
      SetAlone(c, c1);
      SetAlone(c1, Snapped(c, format));
    }
  }

  /** A setter on a region alone on its track writes the field and nothing else. */
  lemma {:induction false} SetAlone(c: Region, d: Region)
    requires d.name == c.name && d.status == c.status
    ensures d.finish == c.finish ==> SetStart(TrackState([c], [0]), 0, d.start) == TrackState([d], [0])
    ensures d.start == c.start ==> SetFinish(TrackState([c], [0]), 0, d.finish) == TrackState([d], [0])
  {
    var t := TrackState([d], [0]);
    assert Retimed(TrackState([c], [0]), 0, d.start, d.finish) == t;
    ImposeNoop(t, 0);
  }

  /**
   * branch_1 Region#reframe! calls the instance methods divs_per_foot and
   * divs_per_second, which that file defines only on the class: the first
   * region of non-zero length raises NameError.
   */
  function BranchReframed(t: TrackState, format: TimeFormat): (r: Result<TrackState>)
    requires WellFormed(t)
    ensures r.Ok? <==> forall i :: 0 <= i < |t.order| ==> t.cells[t.order[i]].start == t.cells[t.order[i]].finish
    ensures r.Ok? ==> r.value == t
    ensures r.Err? ==> r.error == UndefinedName(if format == Footage then "divs_per_foot" else "divs_per_second")
  {
    if forall i :: 0 <= i < |t.order| ==> t.cells[t.order[i]].start == t.cells[t.order[i]].finish then Ok(t)
    else Err(UndefinedName(if format == Footage then "divs_per_foot" else "divs_per_second"))
  }
}
