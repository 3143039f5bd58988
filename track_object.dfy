// PT::Track as an object: its region list and the region objects it made
// change in place, through Track#impose!, the Region setters that call it,
// create_region, update, delete_all_regions! and reframe!. Every method is
// proved to leave exactly the state the functions of module Tracks
// describe, so the properties proved there hold of these methods.
//
// A region object is addressed by its identity on the track; the Region
// setters (start=, finish=, reframe!) are therefore methods of the track
// that take the identity.

module TrackObjects {
  import opened Base
  import opened Timecode
  import opened Naming
  import opened Tracks

  class Track {
    /** The fields of every region object made for this track, by identity. */
    var cells: seq<Region>
    /** `@regions`: the listed regions, by identity. */
    var order: seq<RegionId>
    var name: string
    var channel: int

    ghost function State(): TrackState
      reads this
    {
      TrackState(cells, order)
    }

    ghost predicate Valid()
      reads this
    {
      WellFormed(State())
    }

    /** Track.new: no regions, name "(blank)", channel 0. */
    constructor ()
      ensures Valid() && State() == EmptyTrack() && name == "(blank)" && channel == 0
    {
      cells := [];
      order := [];
      name := "(blank)";
      channel := 0;
    }

    /** Track#impose!: deletion, then the left-edge trim, then the right-edge trim. */
    method Impose(r: RegionId)
      requires Valid() && 0 <= r < |cells|
      modifies this
      ensures Valid() && State() == Imposed(old(State()), r)
      ensures name == old(name) && channel == old(channel)
      decreases Extent(cells, order), 2
    {
      ghost var t := State();
      DeleteContained(r);
      ghost var t1 := State();
      assert t1 == Overwritten(t, r);
      var k := FindOverlap(cells[r], TailEdge);
      if k < |order| {
        var x := order[k];
        Trim(x, cells[x].start, cells[r].start);
      }
      ghost var t2 := State();
      assert t2 == TrimTail(t1, r);
      k := FindOverlap(cells[r], HeadEdge);
      if k < |order| {
        var y := order[k];
        Trim(y, cells[r].finish, cells[y].finish);
      }
      assert State() == TrimHead(t2, r);
    }

    /** The `delete_if` of impose!: drop every other listed region that R contains. */
    method DeleteContained(r: RegionId)
      requires Valid() && 0 <= r < |cells|
      modifies this
      ensures Valid() && State() == Overwritten(old(State()), r)
      ensures name == old(name) && channel == old(channel)
    {
      var sr := cells[r];
      var kept: seq<RegionId> := [];
      var i := 0;
      while i < |order|
        invariant 0 <= i <= |order|
        invariant kept == Survivors(cells, order[..i], r, sr)
      {
        var x := order[i];
        assert order[..i + 1][..i] == order[..i];
        if x == r || !Contained(cells[x], sr) {
          kept := kept + [x];
        }
        i := i + 1;
      }
      assert order[..|order|] == order;
      order := kept;
    }

    /** `@regions.find`: the position of the first listed region overlapping the edge of sr, or the list's length. */
    method FindOverlap(sr: Region, edge: Edge) returns (k: nat)
      requires Valid()
      ensures k <= |order|
      ensures k < |order| <==> FirstOverlap(cells, order, sr, edge, 0).Some?
      ensures k < |order| ==> FirstOverlap(cells, order, sr, edge, 0) == Some(k)
    {
      k := 0;
      while k < |order| && !Overlaps(edge, cells[order[k]], sr)
        invariant 0 <= k <= |order|
        invariant FirstOverlap(cells, order, sr, edge, k) == FirstOverlap(cells, order, sr, edge, 0)
      {
        k := k + 1;
      }
    }

    /**
     * The setter call with which impose! trims a region (finish= for the
     * left edge, start= for the right edge): write the times, then impose
     * the trimmed region.
     */
    method Trim(x: RegionId, start: int, finish: int)
      requires Valid() && x in order
      requires cells[x].start <= start < finish <= cells[x].finish
      requires finish - start < cells[x].finish - cells[x].start
      modifies this
      ensures Valid() && State() == Imposed(Retimed(old(State()), x, start, finish), x)
      ensures name == old(name) && channel == old(channel)
      decreases Extent(cells, order), 1
    {
      TrimShrinks(State(), x, start, finish);
      cells := cells[x := cells[x].(start := start, finish := finish)];
      Impose(x);
    }

    /** Region#start=. */
    method SetStart(x: RegionId, v: int)
      requires Valid() && 0 <= x < |cells|
      modifies this
      ensures Valid() && State() == Tracks.SetStart(old(State()), x, v)
      ensures name == old(name) && channel == old(channel)
    {
      cells := cells[x := cells[x].(start := v)];
      Impose(x);
    }

    /** Region#finish=. */
    method SetFinish(x: RegionId, v: int)
      requires Valid() && 0 <= x < |cells|
      modifies this
      ensures Valid() && State() == Tracks.SetFinish(old(State()), x, v)
      ensures name == old(name) && channel == old(channel)
    {
      cells := cells[x := cells[x].(finish := v)];
      Impose(x);
    }

    /** Region#name=. */
    method SetName(x: RegionId, v: string)
      requires Valid() && 0 <= x < |cells|
      modifies this
      ensures Valid() && State() == Tracks.SetName(old(State()), x, v)
      ensures name == old(name) && channel == old(channel)
    {
      cells := cells[x := cells[x].(name := v)];
    }

    /**
     * Region#tag=: the name rewritten by WithTag; a nil tag on a name
     * without a dash raises and leaves the region as it was.
     */
    method SetTag(x: RegionId, tag: Option<string>) returns (err: Option<Failure>)
      requires Valid() && 0 <= x < |cells|
      modifies this
      ensures Valid() && name == old(name) && channel == old(channel)
      ensures match WithTag(old(cells[x].name), tag)
        case Ok(n) => err.None? && State() == Tracks.SetName(old(State()), x, n)
        case Err(e) => err == Some(e) && State() == old(State())
    {
      var n := WithTag(cells[x].name, tag);
      if n.Err? {
        err := Some(n.error);
        return;
      }
      SetName(x, n.value);
      err := None;
    }

    /** Region.new(self) with the name and status written: a fresh, unlisted region object. */
    method NewRegion(rname: string, status: Option<string>) returns (id: RegionId)
      requires Valid()
      modifies this
      ensures Valid() && State() == Fresh(old(State()), rname, status) && id == old(|cells|)
      ensures name == old(name) && channel == old(channel)
    {
      id := |cells|;
      cells := cells + [BlankRegion.(name := rname, status := status)];
    }

    /** start= on a region that is not listed. */
    method SetStartUnlisted(x: RegionId, v: int)
      requires Valid() && 0 <= x < |cells| && x !in order
      modifies this
      ensures Valid() && State() == Tracks.SetStartUnlisted(old(State()), x, v)
      ensures name == old(name) && channel == old(channel)
    {
      SetStart(x, v);
    }

    /** finish= on a region that is not listed. */
    method SetFinishUnlisted(x: RegionId, v: int)
      requires Valid() && 0 <= x < |cells| && x !in order
      modifies this
      ensures Valid() && State() == Tracks.SetFinishUnlisted(old(State()), x, v)
      ensures name == old(name) && channel == old(channel)
    {
      SetFinish(x, v);
    }

    /** The block of add_primitive_region run on a new region: `r.name, r.start, r.finish = ...`. */
    method BuildRegion(rname: string, start: int, finish: int, status: Option<string>) returns (id: RegionId)
      requires Valid()
      modifies this
      ensures Valid() && State() == Built(old(State()), rname, start, finish, status)
      ensures id == old(|cells|) && name == old(name) && channel == old(channel)
    {
      id := NewRegion(rname, status);
      SetStartUnlisted(id, start);
      SetFinishUnlisted(id, finish);
    }

    /**
     * branch_1 Track#create_region with the block of add_primitive_region:
     * the region built, then `@regions << r` and `sort!`.
     */
    method CreateRegion(rname: string, start: int, finish: int, status: Option<string>) returns (id: RegionId)
      requires Valid()
      modifies this
      ensures Valid() && State() == Created(old(State()), rname, start, finish, status)
      ensures id == old(|cells|) && name == old(name) && channel == old(channel)
    {
      id := BuildRegion(rname, start, finish, status);
      ListAndSort(id);
    }

    /** `@regions << r` and `@regions.sort!`. */
    method ListAndSort(id: RegionId)
      requires Valid() && 0 <= id < |cells|
      modifies this
      ensures Valid() && State() == ListedSorted(old(State()), id)
      ensures name == old(name) && channel == old(channel)
    {
      order := SortByStart(cells, order + [id]);
    }

    /** trunk Track#add_primitive_region: as above but appended without sorting. */
    method AddPrimitiveRegion(rname: string, start: int, finish: int) returns (id: RegionId)
      requires Valid()
      modifies this
      ensures Valid() && State() == Appended(old(State()), rname, start, finish, None)
      ensures id == old(|cells|) && name == old(name) && channel == old(channel)
    {
      id := BuildRegion(rname, start, finish, None);
      order := order + [id];
      assert State() == ListedLast(Built(old(State()), rname, start, finish, None), id);
    }

    /**
     * Track#add_region: the times are text, decoded under the session's
     * frame rate and time format; the new format is returned. `sorted`
     * says whether the list is sorted afterwards (branch_1) or the region
     * appended last (trunk).
     */
    method AddRegion(rname: string, status: Option<string>, startText: string, finishText: string,
                     fps: Option<FrameRate>, format: TimeFormat, sorted: bool)
      returns (r: Result<TimeFormat>)
      requires Valid()
      modifies this
      ensures Valid() && (State(), r) == AddRegionText(old(State()), rname, status, startText, finishText, fps, format, sorted)
      ensures name == old(name) && channel == old(channel)
    {
      var ds := StrToTc(startText, fps, format);
      var df := if ds.Ok? then StrToTc(finishText, fps, ds.value.format) else ds;
      r := AddRegionDecoded(rname, status, ds, df, sorted);
    }

    /** The setter calls of add_region once its texts are decoded. */
    method AddRegionDecoded(rname: string, status: Option<string>, ds: Result<Decoded>, df: Result<Decoded>, sorted: bool)
      returns (r: Result<TimeFormat>)
      requires Valid()
      modifies this
      ensures Valid() && (State(), r) == AddRegionTimes(old(State()), rname, status, ds, df, sorted)
      ensures name == old(name) && channel == old(channel)
    {
      var id := NewRegion(rname, status);
      if ds.Err? {
        r := Err(ds.error);
        return;
      }
      SetStartUnlisted(id, ds.value.divs);
      if df.Err? {
        r := Err(df.error);
        return;
      }
      SetFinishUnlisted(id, df.value.divs);
      ghost var b := State();
      assert b == Built(old(State()), rname, ds.value.divs, df.value.divs, status);
      List(id, sorted);
      r := Ok(df.value.format);
    }

    /** `@regions << r`, then `sort!` when `sorted`. */
    method List(id: RegionId, sorted: bool)
      requires Valid() && 0 <= id < |cells|
      modifies this
      ensures Valid() && State() == (if sorted then ListedSorted(old(State()), id) else ListedLast(old(State()), id))
      ensures name == old(name) && channel == old(channel)
    {
      if sorted {
        ListAndSort(id);
      } else {
        order := order + [id];
      }
    }

    /** Track#update: impose the region, then sort the list. */
    method Update(x: RegionId)
      requires Valid() && 0 <= x < |cells|
      modifies this
      ensures Valid() && State() == Updated(old(State()), x)
      ensures name == old(name) && channel == old(channel)
    {
      Impose(x);
      order := SortByStart(cells, order);
      assert State() == SortedList(Imposed(old(State()), x));
    }

    /**
     * Object#dup: a new track object with the same fields. Its region list
     * starts out as this track's, and names the same region objects.
     */
    method Dup() returns (d: Track)
      requires Valid()
      ensures fresh(d) && d.Valid() && d.State() == State() && d.name == name && d.channel == channel
    {
      d := new Track();
      d.cells, d.order, d.name, d.channel := cells, order, name, channel;
    }

    /** Track#delete_all_regions!. */
    method DeleteAllRegions()
      requires Valid()
      modifies this
      ensures Valid() && State() == AllDeleted(old(State()))
      ensures name == old(name) && channel == old(channel)
    {
      order := [];
    }

    /** trunk Region#reframe! of the region x. */
    method ReframeRegion(x: RegionId, format: TimeFormat)
      requires Valid() && 0 <= x < |cells|
      modifies this
      ensures Valid() && State() == ReframedRegion(old(State()), x, format)
      ensures name == old(name) && channel == old(channel)
    {
      ghost var t := State();
      if cells[x].start != cells[x].finish {
        SetStart(x, SnapDown(cells[x].start, format));
        ghost var t1 := State();
        assert t1 == Tracks.SetStart(t, x, SnapDown(t.cells[x].start, format));
        if cells[x].finish % ReframeModulus(format) != 0 {
          SetFinish(x, SnapUp(cells[x].finish, format));
        }
      }
    }

    /** trunk Track#reframe!: `@regions.each { |r| r.reframe! }` over the live list. */
    method Reframe(format: TimeFormat)
      requires Valid()
      modifies this
      ensures Valid() && State() == ReframedFrom(old(State()), 0, format)
      ensures name == old(name) && channel == old(channel)
    {
      var i := 0;
      while i < |order|
        invariant Valid() && ReframedFrom(State(), i, format) == ReframedFrom(old(State()), 0, format)
        invariant name == old(name) && channel == old(channel)
        decreases |order| - i
      {
        ReframeRegion(order[i], format);
        i := i + 1;
      }
    }
  }
}
