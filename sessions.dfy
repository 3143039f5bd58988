// The session: the tracks of a Pro Tools text export and the header values
// that go with them, read row by row and written back out. One class
// covers the three session.rb files; `version` says which one an object
// follows where they differ.

module Sessions {
  import opened Base
  import opened Timecode
  import opened Naming
  import opened Tracks
  import opened TrackObjects
  import Interpreting
  import TrunkBlending

  /** trunk/ruby/lib, branches/branch_1/lib or trunk/lib. */
  datatype Version = TrunkRuby | Branch1 | TrunkLib

  /** A track as a value: its name, its channel and its regions. */
  datatype TrackValue = TrackValue(name: string, channel: int, regions: TrackState)

  predicate TracksOk(ts: seq<TrackValue>)
  {
    forall i :: 0 <= i < |ts| ==> WellFormed(ts[i].regions)
  }

  /**
   * What reading a text export can change: the header values, the time
   * format the region texts leave behind, and the tracks.
   * `fps` is trunk/lib's @fps field; the other versions compute it.
   */
  datatype SessionState = SessionState(
    title: Option<string>,
    timeCodeFormat: Option<string>,
    fps: Option<FrameRate>,
    sampleRate: int,
    bitDepth: int,
    audioFileCount: int,
    timeFormat: TimeFormat,
    tracks: seq<TrackValue>)

  /** `nil.to_s` and `[.., nil].join`: a missing value reads as empty text. */
  function Text(c: Option<string>): string
  {
    if c.Some? then c.value else ""
  }

  /** Session#fps, or trunk/lib's @fps attribute. */
  function SessionFps(v: Version, s: SessionState): Option<FrameRate>
  {
    if v == TrunkLib then s.fps else FrameRateOf(s.timeCodeFormat)
  }

  // ----- add_track and renumber_tracks_from -----

  /**
   * add_track's name: an empty name becomes "A" followed by the track's
   * position from 1; a missing one (nil) is kept, and reads as "".
   */
  function TrackName(name: Option<string>, n: nat): string
  {
    if name == Some("") then "A" + NatToString(n + 1) else Text(name)
  }

  /** Session#add_track: a new empty track, named, with channel n + 1, appended last. */
  function AddedTrack(ts: seq<TrackValue>, name: Option<string>): (r: seq<TrackValue>)
    ensures |r| == |ts| + 1 && r[..|ts|] == ts
    ensures r[|ts|].channel == |ts| + 1 && r[|ts|].regions == EmptyTrack()
    ensures name != Some("") ==> r[|ts|].name == Text(name)
  {
    ts + [TrackValue(TrackName(name, |ts|), |ts| + 1, EmptyTrack())]
  }

  /** The channels run n, n + 1, ... in track order. */
  predicate NumberedFrom(ts: seq<TrackValue>, n: int)
  {
    forall i :: 0 <= i < |ts| ==> ts[i].channel == n + i
  }

  /** Tracks added one by one to an empty session are numbered from 1. */
  lemma {:induction false} AddedTrackNumbered(ts: seq<TrackValue>, name: Option<string>)
    requires NumberedFrom(ts, 1)
    ensures NumberedFrom(AddedTrack(ts, name), 1)
  {
  }

  /** Different positions give different automatic names. */
  lemma {:induction false} AutomaticNamesDiffer(m: nat, n: nat)
    requires m != n
    ensures TrackName(Some(""), m) != TrackName(Some(""), n)
  {
    var a := TrackName(Some(""), m);
    var b := TrackName(Some(""), n);
    if a == b {
      assert a[1..] == NatToString(m + 1) && b[1..] == NatToString(n + 1);
      ToIOfNatToString(m + 1);
      ToIOfNatToString(n + 1);
      assert false;
    }
  }

  /**
   * Session#renumber_tracks_from: `track.channel = number; number =
   * number.succ` in track order; names and regions are kept.
   */
  function Renumbered(ts: seq<TrackValue>, n: int): (r: seq<TrackValue>)
    ensures |r| == |ts| && NumberedFrom(r, n)
    ensures forall i :: 0 <= i < |ts| ==> r[i].name == ts[i].name && r[i].regions == ts[i].regions
    decreases |ts|
  {
    if ts == [] then [] else [ts[0].(channel := n)] + Renumbered(ts[1..], n + 1)
  }

  /** Renumbering changes nothing exactly when the channels already run from n. */
  lemma {:induction false} RenumberedKeeps(ts: seq<TrackValue>, n: int)
    ensures Renumbered(ts, n) == ts <==> NumberedFrom(ts, n)
  {
    var r := Renumbered(ts, n);
    if NumberedFrom(ts, n) {
      assert forall i :: 0 <= i < |ts| ==> r[i] == ts[i];
    }
  }

  // ----- The row dispatch of read_file -----

  /**
   * The loop variables of read_file: the track the rows go to (an index
   * into the tracks), whether region rows are being read, and
   * trunk/ruby's column of the region state.
   */
  datatype Reader = Reader(current: Option<nat>, reading: bool, statusIndex: Option<nat>)

  const StartReader: Reader := Reader(None, false, None)

  /** Reading region rows needs a current track, which is one of the tracks. */
  predicate ReaderOk(s: SessionState, r: Reader)
  {
    (r.current.Some? ==> r.current.value < |s.tracks|) && (r.reading ==> r.current.Some?)
  }

  /** `row[k]`: nil beyond the end. */
  function Cell(row: seq<string>, k: nat): Option<string>
  {
    if k < |row| then Some(row[k]) else None
  }

  /** Array#find_index. */
  function FindIndex(row: seq<string>, x: string): (r: Option<nat>)
    ensures r.Some? ==> r.value < |row| && row[r.value] == x && forall j :: 0 <= j < r.value ==> row[j] != x
    ensures r.None? ==> forall j :: 0 <= j < |row| ==> row[j] != x
  {
    if row == [] then None
    else if row[0] == x then Some(0)
    else match FindIndex(row[1..], x)
      case None => None
      case Some(k) => Some(k + 1)
  }

  /**
   * The status a region row is added with, or None when trunk/ruby skips a
   * 'Muted' row. Only trunk/ruby reads a status; the others add none.
   */
  function RowStatus(v: Version, r: Reader, row: seq<string>): (st: Option<Option<string>>)
    ensures st.None? <==> v == TrunkRuby && r.statusIndex.Some? && Cell(row, r.statusIndex.value) == Some("Muted")
  {
    if v != TrunkRuby then Some(None)
    else if r.statusIndex.None? then Some(Some("Unmuted"))
    else if Cell(row, r.statusIndex.value) == Some("Muted") then None
    else Some(Cell(row, r.statusIndex.value))
  }

  /** The header values, which region rows leave alone. */
  predicate SameHeader(a: SessionState, b: SessionState)
  {
    a.title == b.title && a.timeCodeFormat == b.timeCodeFormat && a.fps == b.fps
    && a.sampleRate == b.sampleRate && a.bitDepth == b.bitDepth && a.audioFileCount == b.audioFileCount
  }

  /**
   * A '1' row while reading: the region named by the third cell, timed by
   * the fourth and fifth, added to the current track. `row[2].strip` raises
   * when the cell is missing; 'Muted' rows are skipped.
   */
  function RegionRow(v: Version, s: SessionState, r: Reader, row: seq<string>): (x: (SessionState, Option<Failure>))
    requires TracksOk(s.tracks) && ReaderOk(s, r) && r.reading
    ensures TracksOk(x.0.tracks) && |x.0.tracks| == |s.tracks| && SameHeader(s, x.0)
    ensures SameNames(s.tracks, x.0.tracks)
  {
    var name := Cell(row, 2);
    var status := RowStatus(v, r, row);
    if name.None? then (s, Some(NoMethodOnNil("strip")))
    else if status.None? then (s, None)
    else RegionAdded(v, s, r.current.value, name.value, status.value, Text(Cell(row, 3)), Text(Cell(row, 4)))
  }

  /**
   * Track#add_region on track c under the session's frame rate and time
   * format. A time text can raise for a missing frame rate, after the
   * start has set the time format.
   */
  function RegionAdded(v: Version, s: SessionState, c: nat, name: string, status: Option<string>,
                       startText: string, finishText: string): (x: (SessionState, Option<Failure>))
    requires TracksOk(s.tracks) && c < |s.tracks|
    ensures TracksOk(x.0.tracks) && |x.0.tracks| == |s.tracks| && SameHeader(s, x.0)
    ensures SameNames(s.tracks, x.0.tracks)
  {
    var fps := SessionFps(v, s);
    var added := AddRegionText(s.tracks[c].regions, name, status, startText, finishText, fps, s.timeFormat, v != TrunkLib);
    var res := added.1;
    var ds := StrToTc(startText, fps, s.timeFormat);
    var format := if res.Ok? then res.value else if ds.Ok? then ds.value.format else s.timeFormat;
    (s.(tracks := WithRegions(s.tracks, c, added.0), timeFormat := format), if res.Err? then Some(res.error) else None)
  }

  /** Each of the tracks ts keeps its name and channel in us. */
  predicate SameNames(ts: seq<TrackValue>, us: seq<TrackValue>)
  {
    |ts| <= |us| && forall i :: 0 <= i < |ts| ==> us[i].name == ts[i].name && us[i].channel == ts[i].channel
  }

  /** Track c with its regions replaced. */
  function WithRegions(ts: seq<TrackValue>, c: nat, u: TrackState): (r: seq<TrackValue>)
    requires TracksOk(ts) && c < |ts| && WellFormed(u)
    ensures TracksOk(r) && |r| == |ts| && r[c] == ts[c].(regions := u)
    ensures forall j :: 0 <= j < |ts| && j != c ==> r[j] == ts[j]
    ensures SameNames(ts, r)
  {
    ts[c := ts[c].(regions := u)]
  }

  /** `row[1].to_f` (sample rate), `row[1][0..1].to_i` (bit depth) and `row[1].to_i` (file count). */
  function LeadingTwo(t: string): string
  {
    if |t| < 2 then t else t[..2]
  }

  /**
   * One row of read_file's `case row[0]`, the row already split at tabs
   * and stripped. A row without cells (row[0] nil) ends reading; it does
   * not forget the current track, since the source assigns nil to an
   * unused `curr_str`. A missing value on a SAMPLE RATE: or # OF AUDIO
   * FILES: row reads as 0 (`nil.to_f`, `nil.to_i`); on a BIT DEPTH: row
   * `nil[0..1]` raises.
   */
  function ReadRow(v: Version, s: SessionState, r: Reader, row: seq<string>): (x: (SessionState, Reader, Option<Failure>))
    requires TracksOk(s.tracks) && ReaderOk(s, r)
    ensures TracksOk(x.0.tracks) && ReaderOk(x.0, x.1) && |s.tracks| <= |x.0.tracks|
    ensures Cell(row, 0) == Some("TRACK NAME:") ==> x.0.tracks == AddedTrack(s.tracks, Cell(row, 1))
    ensures Cell(row, 0) != Some("TRACK NAME:") ==>
      |x.0.tracks| == |s.tracks| && SameNames(s.tracks, x.0.tracks)
  {
    var head := Cell(row, 0);
    var second := Cell(row, 1);
    if head.None? then (s, r.(reading := false), None)
    else if head.value == "SESSION NAME:" then (s.(title := second), r, None)
    else if head.value == "TIME CODE FORMAT:" then
      if v == TrunkLib then (s.(fps := FrameRateOf(second)), r, None)
      else (s.(timeCodeFormat := second), r, None)
    else if head.value == "SAMPLE RATE:" && v != TrunkLib then
      (s.(sampleRate := ToI(Text(second))), r, None)
    else if head.value == "BIT DEPTH:" && v != TrunkLib then
      if second.None? then (s, r, Some(NoMethodOnNil("[]"))) else (s.(bitDepth := ToI(LeadingTwo(second.value))), r, None)
    else if head.value == "# OF AUDIO FILES:" && v != TrunkLib then
      (s.(audioFileCount := ToI(Text(second))), r, None)
    else if head.value == "TRACK NAME:" then
      (s.(tracks := AddedTrack(s.tracks, second)), r.(current := Some(|s.tracks|)), None)
    else if head.value == "CHANNEL" then
      var reading := if r.current.Some? && second == Some("EVENT") then true else r.reading;
      var statusIndex := if v == TrunkRuby then FindIndex(row, "STATE") else r.statusIndex;
      (s, Reader(r.current, reading, statusIndex), None)
    else if head.value == "1" && r.reading then
      var (u, err) := RegionRow(v, s, r, row);
      (u, r, err)
    else (s, r, None)
  }

  /** A row without cells ends the reading of region rows and changes nothing else. */
  lemma {:induction false} BlankRowEndsReading(v: Version, s: SessionState, r: Reader, row: seq<string>)
    requires TracksOk(s.tracks) && ReaderOk(s, r) && row == []
    ensures ReadRow(v, s, r, row) == (s, r.(reading := false), None)
  {
  }

  /**
   * A blank line of the file splits into one empty cell, which no `when`
   * matches: it changes nothing, and reading goes on.
   */
  lemma {:induction false} BlankLineKeepsReading(v: Version, s: SessionState, r: Reader)
    requires TracksOk(s.tracks) && ReaderOk(s, r)
    ensures ReadRow(v, s, r, [""]) == (s, r, None)
  {
  }

  /**
   * Header rows without a value: the sample rate and the file count read
   * as 0 and reading goes on; the bit depth raises (`nil[0..1]`). trunk/lib
   * ignores all three rows.
   */
  lemma {:induction false} ValuelessHeaderRows(v: Version, s: SessionState, r: Reader)
    requires TracksOk(s.tracks) && ReaderOk(s, r)
    ensures ReadRow(v, s, r, ["SAMPLE RATE:"]) == (if v == TrunkLib then s else s.(sampleRate := 0), r, None)
    ensures ReadRow(v, s, r, ["# OF AUDIO FILES:"]) == (if v == TrunkLib then s else s.(audioFileCount := 0), r, None)
    ensures ReadRow(v, s, r, ["BIT DEPTH:"]) == (s, r, if v == TrunkLib then None else Some(NoMethodOnNil("[]")))
  {
    assert Cell(["SAMPLE RATE:"], 1).None? && Cell(["# OF AUDIO FILES:"], 1).None?;
    assert ToI("") == 0;
  }

  /** A 'TRACK NAME:' row adds a track, which the rows after it go to. */
  lemma {:induction false} TrackNameRowAdds(v: Version, s: SessionState, r: Reader, row: seq<string>)
    requires TracksOk(s.tracks) && ReaderOk(s, r) && Cell(row, 0) == Some("TRACK NAME:")
    ensures var x := ReadRow(v, s, r, row);
      x.0 == s.(tracks := AddedTrack(s.tracks, Cell(row, 1))) && x.1 == r.(current := Some(|s.tracks|)) && x.2.None?
  {
  }

  /**
   * A 'CHANNEL' row starts the reading of region rows when there is a
   * current track and its second cell is 'EVENT'; trunk/ruby also finds
   * the 'STATE' column there.
   */
  lemma {:induction false} ChannelRowStartsReading(v: Version, s: SessionState, r: Reader, row: seq<string>)
    requires TracksOk(s.tracks) && ReaderOk(s, r) && Cell(row, 0) == Some("CHANNEL")
    ensures var x := ReadRow(v, s, r, row);
      x.0 == s && x.2.None? && x.1.current == r.current
      && (x.1.reading <==> r.reading || (r.current.Some? && Cell(row, 1) == Some("EVENT")))
      && (v == TrunkRuby ==> x.1.statusIndex == FindIndex(row, "STATE"))
      && (v != TrunkRuby ==> x.1.statusIndex == r.statusIndex)
  {
  }

  /** A '1' row outside the reading of region rows changes nothing. */
  lemma {:induction false} RegionRowIgnored(v: Version, s: SessionState, r: Reader, row: seq<string>)
    requires TracksOk(s.tracks) && ReaderOk(s, r) && Cell(row, 0) == Some("1") && !r.reading
    ensures ReadRow(v, s, r, row) == (s, r, None)
  {
  }

  /** trunk/ruby skips a region row whose 'STATE' cell is 'Muted'. */
  lemma {:induction false} MutedRowSkipped(s: SessionState, r: Reader, row: seq<string>)
    requires TracksOk(s.tracks) && ReaderOk(s, r) && Cell(row, 0) == Some("1") && r.reading
    requires |row| > 2 && r.statusIndex.Some? && Cell(row, r.statusIndex.value) == Some("Muted")
    ensures ReadRow(TrunkRuby, s, r, row) == (s, r, None)
  {
  }

  /**
   * A region row read with a name, and not skipped, adds that region to the
   * current track and to no other, from the fourth and fifth cells.
   */
  lemma {:induction false} RegionRowAdds(v: Version, s: SessionState, r: Reader, row: seq<string>)
    requires TracksOk(s.tracks) && ReaderOk(s, r) && Cell(row, 0) == Some("1") && r.reading
    requires |row| > 2 && RowStatus(v, r, row).Some?
    ensures var x := ReadRow(v, s, r, row); var c := r.current.value;
      var added := AddRegionText(s.tracks[c].regions, row[2], RowStatus(v, r, row).value, Text(Cell(row, 3)),
                                 Text(Cell(row, 4)), SessionFps(v, s), s.timeFormat, v != TrunkLib);
      x.1 == r && SameHeader(s, x.0) && x.0.tracks == WithRegions(s.tracks, c, added.0)
      && (x.2.None? <==> added.1.Ok?)
  {
  }

  /** A region row without a name cell raises, as `nil.strip` does, and changes nothing. */
  lemma {:induction false} NamelessRowRaises(v: Version, s: SessionState, r: Reader, row: seq<string>)
    requires TracksOk(s.tracks) && ReaderOk(s, r) && Cell(row, 0) == Some("1") && r.reading && |row| <= 2
    ensures ReadRow(v, s, r, row) == (s, r, Some(NoMethodOnNil("strip")))
  {
  }

  /** read_file over the rows: each row in turn, stopping at the first raise. */
  function ReadRows(v: Version, s: SessionState, r: Reader, rows: seq<seq<string>>): (x: (SessionState, Reader, Option<Failure>))
    requires TracksOk(s.tracks) && ReaderOk(s, r)
    ensures TracksOk(x.0.tracks) && ReaderOk(x.0, x.1) && |s.tracks| <= |x.0.tracks|
    decreases |rows|
  {
    if rows == [] then (s, r, None)
    else
      var x := ReadRow(v, s, r, rows[0]);
      if x.2.Some? then x else ReadRows(v, x.0, x.1, rows[1..])
  }

  /** Region rows keep the channels; a 'TRACK NAME:' row numbers the new track next. */
  lemma {:induction false} ReadRowNumbered(v: Version, s: SessionState, r: Reader, row: seq<string>)
    requires TracksOk(s.tracks) && ReaderOk(s, r) && NumberedFrom(s.tracks, 1)
    ensures NumberedFrom(ReadRow(v, s, r, row).0.tracks, 1)
  {
    if Cell(row, 0) == Some("TRACK NAME:") {
      AddedTrackNumbered(s.tracks, Cell(row, 1));
    }
  }

  /** A session read from an empty one has its tracks numbered 1, 2, ... in file order. */
  lemma {:induction false} ReadRowsNumbered(v: Version, s: SessionState, r: Reader, rows: seq<seq<string>>)
    requires TracksOk(s.tracks) && ReaderOk(s, r) && NumberedFrom(s.tracks, 1)
    ensures NumberedFrom(ReadRows(v, s, r, rows).0.tracks, 1)
    decreases |rows|
  {
    if rows != [] {
      var x := ReadRow(v, s, r, rows[0]);
      ReadRowNumbered(v, s, r, rows[0]);
      if x.2.None? {
        ReadRowsNumbered(v, x.0, x.1, rows[1..]);
      }
    }
  }

  // ----- The regions of all tracks -----

  /** trunk/lib Session#display_regions: every track's regions, in track order. */
  function DisplayRegions(ts: seq<TrackValue>): (rs: seq<Region>)
    requires TracksOk(ts)
    decreases |ts|
  {
    if ts == [] then [] else DisplayRegions(ts[..|ts| - 1]) + Regions(ts[|ts| - 1].regions)
  }

  /**
   * Session#audio_regions: `inject([]) { |memo, trk| trk.regions + memo }`,
   * so the last track's regions come first.
   */
  function AudioRegions(ts: seq<TrackValue>): (rs: seq<Region>)
    requires TracksOk(ts)
    decreases |ts|
  {
    if ts == [] then [] else Regions(ts[|ts| - 1].regions) + AudioRegions(ts[..|ts| - 1])
  }

  /** Both collect the same regions; only the order of the tracks differs. */
  lemma {:induction false} AudioRegionsAreDisplayRegions(ts: seq<TrackValue>)
    requires TracksOk(ts)
    ensures multiset(AudioRegions(ts)) == multiset(DisplayRegions(ts))
    ensures |AudioRegions(ts)| == |DisplayRegions(ts)|
    decreases |ts|
  {
    if ts != [] {
      AudioRegionsAreDisplayRegions(ts[..|ts| - 1]);
    }
  }

  /** The regions of a later track follow those of the earlier ones. */
  lemma {:induction false} DisplayRegionsAppend(ts: seq<TrackValue>, us: seq<TrackValue>)
    requires TracksOk(ts) && TracksOk(us)
    ensures TracksOk(ts + us) && DisplayRegions(ts + us) == DisplayRegions(ts) + DisplayRegions(us)
    decreases |us|
  {
    assert TracksOk(ts + us) by {
      forall i | 0 <= i < |ts + us| ensures WellFormed((ts + us)[i].regions) {
        if i >= |ts| { assert (ts + us)[i] == us[i - |ts|]; }
      }
    }
    if us != [] {
      var u0 := us[..|us| - 1];
      assert (ts + us)[..|ts + us| - 1] == ts + u0;
      assert (ts + us)[|ts + us| - 1] == us[|us| - 1];
      assert TracksOk(u0) by {
        forall i | 0 <= i < |u0| ensures WellFormed(u0[i].regions) { assert u0[i] == us[i]; }
      }
      DisplayRegionsAppend(ts, u0);
      var last := Regions(us[|us| - 1].regions);
      assert DisplayRegions(ts + us) == DisplayRegions(ts + u0) + last;
      assert DisplayRegions(us) == DisplayRegions(u0) + last;
    } else {
      assert ts + us == ts;
    }
  }

  /** `audio_regions.size`: the number of listed regions over all tracks. */
  function RegionCount(ts: seq<TrackValue>): nat
    requires TracksOk(ts)
  {
    |AudioRegions(ts)|
  }

  // ----- to_text_export -----

  /** A row of cells as a line: `join(9.chr)`. */
  function Line(cells: seq<string>): string
  {
    Join(cells, '\t')
  }

  /** The rows as text, each followed by the line ending. */
  function RowsText(rows: seq<seq<string>>, eol: string): string
    decreases |rows|
  {
    if rows == [] then "" else RowsText(rows[..|rows| - 1], eol) + Line(rows[|rows| - 1]) + eol
  }

  /**
   * The header of the export. The sample rate is printed "%.6f" and the
   * bit depth "%i-bit"; nil title and format print as empty cells.
   */
  function HeaderRows(title: Option<string>, sampleRate: int, bitDepth: int, timeCodeFormat: Option<string>,
                      trackCount: nat, regionCount: nat, audioFileCount: int): seq<seq<string>>
  {
    [["SESSION NAME:", Text(title)],
     ["SAMPLE RATE:", IntToString(sampleRate) + ".000000"],
     ["BIT DEPTH:", IntToString(bitDepth) + "-bit"],
     ["TIME CODE FORMAT:", Text(timeCodeFormat)],
     ["# OF AUDIO TRACKS:", NatToString(trackCount)],
     ["# OF AUDIO REGIONS:", NatToString(regionCount)],
     ["# OF AUDIO FILES:", IntToString(audioFileCount)],
     [""], [""],
     ["T R A C K  L I S T I N G"]]
  }

  const EventColumns: seq<string> := ["CHANNEL", "EVENT", "REGION NAME", "START TIME", "END TIME", "DURATION"]

  /** Region#start_time and its kin, once the time format can be printed. */
  function Time(divs: int, format: TimeFormat, fps: Option<FrameRate>, printFrames: bool): string
  {
    var t := TcToStr(divs, format, fps, printFrames);
    if t.Ok? then t.value else ""
  }

  /** The row of the i-th region of a track: channel 1, numbered from 1. */
  function EventRow(i: nat, x: Region, format: TimeFormat, fps: Option<FrameRate>, printFrames: bool): seq<string>
  {
    ["1", NatToString(i + 1), x.name, Time(x.start, format, fps, printFrames),
     Time(x.finish, format, fps, printFrames), Time(Duration(x), format, fps, printFrames)]
  }

  /** `each_with_index` over a track's regions: the i-th row is numbered i + 1. */
  function EventRows(rs: seq<Region>, format: TimeFormat, fps: Option<FrameRate>, printFrames: bool): (rows: seq<seq<string>>)
  {
    seq(|rs|, i requires 0 <= i < |rs| => EventRow(i, rs[i], format, fps, printFrames))
  }

  /** The rows head a track's events. */
  function TrackHead(name: string): seq<seq<string>>
  {
    [["TRACK NAME:", name], ["USER DELAY:", "0 Samples"], EventColumns]
  }

  /** The listing of one track: its head, its events, two empty lines. */
  function TrackRows(t: TrackValue, format: TimeFormat, fps: Option<FrameRate>, printFrames: bool): seq<seq<string>>
    requires WellFormed(t.regions)
  {
    TrackHead(t.name) + EventRows(Regions(t.regions), format, fps, printFrames) + [[""], [""]]
  }

  function TracksRows(ts: seq<TrackValue>, format: TimeFormat, fps: Option<FrameRate>, printFrames: bool): seq<seq<string>>
    requires TracksOk(ts)
    decreases |ts|
  {
    if ts == [] then [] else TracksRows(ts[..|ts| - 1], format, fps, printFrames) + TrackRows(ts[|ts| - 1], format, fps, printFrames)
  }

  /** The rows of the whole export. */
  function ExportRows(s: SessionState, fps: Option<FrameRate>, printFrames: bool): seq<seq<string>>
    requires TracksOk(s.tracks)
  {
    HeaderRows(s.title, s.sampleRate, s.bitDepth, s.timeCodeFormat, |s.tracks|, RegionCount(s.tracks), s.audioFileCount)
    + TracksRows(s.tracks, s.timeFormat, fps, printFrames)
  }

  /**
   * Session#to_text_export: the rows as text; printing a region's time
   * raises when timecode is to be printed without a frame rate. trunk/lib's
   * Session defines no to_text_export, so there the call raises.
   */
  function TextExport(v: Version, s: SessionState, printFrames: bool, eol: string): (r: Result<string>)
    requires TracksOk(s.tracks)
    ensures v == TrunkLib ==> r == Err(UndefinedName("to_text_export"))
    ensures v != TrunkLib ==> (r.Err? <==> s.timeFormat == Tc && SessionFps(v, s).None? && RegionCount(s.tracks) > 0)
    ensures v != TrunkLib && r.Err? ==> r.error == NilFrameRate
  {
    var fps := SessionFps(v, s);
    if v == TrunkLib then Err(UndefinedName("to_text_export"))
    else if s.timeFormat == Tc && fps.None? && RegionCount(s.tracks) > 0 then Err(NilFrameRate)
    else Ok(RowsText(ExportRows(s, fps, printFrames), eol))
  }

  /** Rows written one after the other give the text of both. */
  lemma {:induction false} RowsTextAppend(a: seq<seq<string>>, b: seq<seq<string>>, eol: string)
    ensures RowsText(a + b, eol) == RowsText(a, eol) + RowsText(b, eol)
    decreases |b|
  {
    if b == [] {
      assert a + b == a;
    } else {
      var b0 := b[..|b| - 1];
      assert (a + b)[..|a + b| - 1] == a + b0;
      assert (a + b)[|a + b| - 1] == b[|b| - 1];
      RowsTextAppend(a, b0, eol);
    }
  }

  /** One more row: its line and the line ending. */
  lemma {:induction false} RowsTextSnoc(a: seq<seq<string>>, row: seq<string>, eol: string)
    ensures RowsText(a + [row], eol) == RowsText(a, eol) + Line(row) + eol
  {
    assert (a + [row])[..|a|] == a;
  }

  /** The listing of the first i + 1 tracks. */
  lemma {:induction false} TracksRowsStep(ts: seq<TrackValue>, i: nat, format: TimeFormat, fps: Option<FrameRate>, printFrames: bool)
    requires TracksOk(ts) && i < |ts|
    ensures TracksOk(ts[..i]) && TracksOk(ts[..i + 1])
    ensures TracksRows(ts[..i + 1], format, fps, printFrames) == TracksRows(ts[..i], format, fps, printFrames) + TrackRows(ts[i], format, fps, printFrames)
  {
    assert ts[..i + 1][..i] == ts[..i];
  }

  /** Each track takes five rows besides one per region. */
  lemma {:induction false} TracksRowsLength(ts: seq<TrackValue>, format: TimeFormat, fps: Option<FrameRate>, printFrames: bool)
    requires TracksOk(ts)
    ensures |TracksRows(ts, format, fps, printFrames)| == 5 * |ts| + |DisplayRegions(ts)|
    decreases |ts|
  {
    if ts != [] {
      var t0 := ts[..|ts| - 1];
      TracksRowsLength(t0, format, fps, printFrames);
      assert |TrackRows(ts[|ts| - 1], format, fps, printFrames)| == 5 + |ts[|ts| - 1].regions.order|;
    }
  }

  /**
   * A track's listing opens with its name and the column heads; its j-th
   * region is event j + 1 on channel 1, with that region's name and times.
   */
  lemma {:induction false} TrackRowsEvents(t: TrackValue, format: TimeFormat, fps: Option<FrameRate>, printFrames: bool, j: nat)
    requires WellFormed(t.regions) && j < |t.regions.order|
    ensures var rows := TrackRows(t, format, fps, printFrames);
      var x := t.regions.cells[t.regions.order[j]];
      |rows| == 5 + |t.regions.order| && rows[0] == ["TRACK NAME:", t.name] && rows[2] == EventColumns
      && |rows[3 + j]| == 6 && rows[3 + j][0] == "1" && ToI(rows[3 + j][1]) == j + 1 && rows[3 + j][2] == x.name
      && rows[3 + j][3] == Time(x.start, format, fps, printFrames) && rows[3 + j][4] == Time(x.finish, format, fps, printFrames)
  {
    var rows := TrackRows(t, format, fps, printFrames);
    var events := EventRows(Regions(t.regions), format, fps, printFrames);
    assert rows == TrackHead(t.name) + events + [[""], [""]];
    assert rows[3 + j] == events[j];
    ToIOfNatToString(j + 1);
  }

  /** The export has ten header rows, then five rows per track and one per region. */
  lemma {:induction false} ExportRowsLength(s: SessionState, fps: Option<FrameRate>, printFrames: bool)
    requires TracksOk(s.tracks)
    ensures |ExportRows(s, fps, printFrames)| == 10 + 5 * |s.tracks| + RegionCount(s.tracks)
  {
    TracksRowsLength(s.tracks, s.timeFormat, fps, printFrames);
    AudioRegionsAreDisplayRegions(s.tracks);
  }

  /** None of the tracks lists a region. */
  predicate NoneListed(ts: seq<TrackValue>)
  {
    forall j :: 0 <= j < |ts| ==> ts[j].regions.order == []
  }

  /** One track listing a region is enough. */
  lemma {:induction false} ListedAt(ts: seq<TrackValue>, i: nat)
    requires i < |ts| && ts[i].regions.order != []
    ensures !NoneListed(ts)
  {
  }

  /** The prefix property grows by one track that lists nothing. */
  lemma {:induction false} NoneListedStep(ts: seq<TrackValue>, i: nat)
    requires i < |ts| && NoneListed(ts[..i]) && ts[i].regions.order == []
    ensures NoneListed(ts[..i + 1])
  {
    assert ts[..i + 1] == ts[..i] + [ts[i]];
  }

  /** No track lists a region exactly when the earlier ones and the last one list none. */
  lemma {:induction false} NoneListedSnoc(ts: seq<TrackValue>)
    requires ts != []
    ensures NoneListed(ts) <==> NoneListed(ts[..|ts| - 1]) && ts[|ts| - 1].regions.order == []
  {
    var t0 := ts[..|ts| - 1];
    assert forall j :: 0 <= j < |t0| ==> t0[j] == ts[j];
  }

  /** The display regions are empty exactly when no track lists a region. */
  lemma {:induction false} DisplayRegionsEmpty(ts: seq<TrackValue>)
    requires TracksOk(ts)
    ensures |DisplayRegions(ts)| == 0 <==> NoneListed(ts)
    decreases |ts|
  {
    if ts != [] {
      var t0 := ts[..|ts| - 1];
      DisplayRegionsEmpty(t0);
      NoneListedSnoc(ts);
      assert |DisplayRegions(ts)| == |DisplayRegions(t0)| + |ts[|ts| - 1].regions.order|;
    }
  }

  /** A session has no regions exactly when none of its tracks lists one. */
  lemma {:induction false} RegionCountZero(ts: seq<TrackValue>)
    requires TracksOk(ts)
    ensures RegionCount(ts) == 0 <==> NoneListed(ts)
  {
    AudioRegionsAreDisplayRegions(ts);
    DisplayRegionsEmpty(ts);
  }

  // ----- interpret_tagging! -----

  /** TagInterpreter#interpret_track on each track, with minimum closed cue duration 0. */
  function Outcomes(ts: seq<TrackValue>, dur: int): (os: seq<Interpreting.Outcome>)
    requires TracksOk(ts)
    ensures |os| == |ts|
    ensures forall j :: 0 <= j < |os| ==> WellFormed(os[j].input) && (os[j].output.Ok? ==> WellFormed(os[j].output.value))
    decreases |ts|
  {
    if ts == [] then []
    else Outcomes(ts[..|ts| - 1], dur) + [Interpreting.Interpret(ts[|ts| - 1].regions, dur, 0)]
  }

  /** The j-th outcome is that of the j-th track. */
  lemma {:induction false} OutcomeAt(ts: seq<TrackValue>, dur: int, j: nat)
    requires TracksOk(ts) && j < |ts|
    ensures Outcomes(ts, dur)[j] == Interpreting.Interpret(ts[j].regions, dur, 0)
    decreases |ts|
  {
    if j < |ts| - 1 {
      var t0 := ts[..|ts| - 1];
      OutcomeAt(t0, dur, j);
      assert t0[j] == ts[j];
    }
  }

  /** The first index from i on whose track raised, or |fails|. */
  function FirstFailure(fails: seq<bool>, i: nat): (k: nat)
    requires i <= |fails|
    ensures i <= k <= |fails|
    ensures forall j :: i <= j < k ==> !fails[j]
    ensures k < |fails| ==> fails[k]
    decreases |fails| - i
  {
    if i == |fails| || fails[i] then i else FirstFailure(fails, i + 1)
  }

  /** Whether each interpretation raised. */
  function Failed(os: seq<Interpreting.Outcome>): (f: seq<bool>)
    ensures |f| == |os| && forall j :: 0 <= j < |os| ==> f[j] == os[j].output.Err?
  {
    seq(|os|, j requires 0 <= j < |os| => os[j].output.Err?)
  }

  /** The input tracks as each interpretation left them. */
  function Inputs(os: seq<Interpreting.Outcome>): (rs: seq<TrackState>)
    requires forall j :: 0 <= j < |os| ==> WellFormed(os[j].input)
    ensures |rs| == |os| && forall j :: 0 <= j < |os| ==> rs[j] == os[j].input && WellFormed(rs[j])
  {
    seq(|os|, j requires 0 <= j < |os| => os[j].input)
  }

  /** The new tracks, when no interpretation raised. */
  function Outputs(os: seq<Interpreting.Outcome>): (rs: seq<TrackState>)
    requires forall j :: 0 <= j < |os| ==> os[j].output.Ok? && WellFormed(os[j].output.value)
    ensures |rs| == |os| && forall j :: 0 <= j < |os| ==> os[j].output == Ok(rs[j]) && WellFormed(rs[j])
  {
    seq(|os|, j requires 0 <= j < |os| => os[j].output.value)
  }

  /** The tracks before n given the region lists rs; the rest as they were. */
  function WithTrackRegions(ts: seq<TrackValue>, rs: seq<TrackState>, n: int): (r: seq<TrackValue>)
    requires TracksOk(ts) && |rs| == |ts| && forall j :: 0 <= j < |rs| ==> WellFormed(rs[j])
    ensures |r| == |ts| && TracksOk(r)
    ensures forall j :: 0 <= j < |ts| ==> r[j] == (if j < n then ts[j].(regions := rs[j]) else ts[j])
  {
    seq(|ts|, j requires 0 <= j < |ts| => if j < n then ts[j].(regions := rs[j]) else ts[j])
  }

  /** One more track given its region list. */
  lemma {:induction false} WithTrackRegionsStep(ts: seq<TrackValue>, rs: seq<TrackState>, n: nat)
    requires TracksOk(ts) && |rs| == |ts| && forall j :: 0 <= j < |rs| ==> WellFormed(rs[j])
    requires n < |ts|
    ensures WithTrackRegions(ts, rs, n)[n := ts[n].(regions := rs[n])] == WithTrackRegions(ts, rs, n + 1)
  {
  }

  /** What the interpretations os of the tracks ts may leave. */
  predicate OutcomesOk(ts: seq<TrackValue>, os: seq<Interpreting.Outcome>)
  {
    TracksOk(ts) && |os| == |ts|
    && forall j :: 0 <= j < |os| ==> WellFormed(os[j].input) && (os[j].output.Ok? ==> WellFormed(os[j].output.value))
  }

  /**
   * trunk/ruby Session#interpret_tagging! given the outcome of each
   * track's interpretation: when all succeed the session takes the new
   * tracks (each keeping its name and channel). A raise is re-raised with
   * the session title, leaving the old tracks, of which those reached have
   * been worked on in place.
   */
  function TaggedByOutcomes(ts: seq<TrackValue>, os: seq<Interpreting.Outcome>, title: Option<string>): (r: (seq<TrackValue>, Option<Failure>))
    requires OutcomesOk(ts, os)
    ensures |r.0| == |ts| && TracksOk(r.0)
    ensures SameNames(ts, r.0)
  {
    var k := FirstFailure(Failed(os), 0);
    if k == |ts| then (WithTrackRegions(ts, Outputs(os), k), None)
    else (WithTrackRegions(ts, Inputs(os), k + 1), Some(InSession(os[k].output.error, Text(title))))
  }

  /** trunk/ruby Session#interpret_tagging!, the interpreter's blend duration dur. */
  function TaggedByInterpreter(ts: seq<TrackValue>, dur: int, title: Option<string>): (r: (seq<TrackValue>, Option<Failure>))
    requires TracksOk(ts)
    ensures |r.0| == |ts| && TracksOk(r.0)
  {
    TaggedByOutcomes(ts, Outcomes(ts, dur), title)
  }

  /**
   * It raises exactly when some interpretation does; otherwise every track
   * takes its interpreted regions.
   */
  lemma {:induction false} TaggedByOutcomesSucceeds(ts: seq<TrackValue>, os: seq<Interpreting.Outcome>, title: Option<string>)
    requires OutcomesOk(ts, os)
    ensures var r := TaggedByOutcomes(ts, os, title);
      (r.1.None? <==> forall j :: 0 <= j < |ts| ==> os[j].output.Ok?)
      && (r.1.None? ==> forall j :: 0 <= j < |ts| ==> os[j].output == Ok(r.0[j].regions))
  {
    var k := FirstFailure(Failed(os), 0);
    if k < |ts| {
      assert os[k].output.Err?;
    }
  }

  /** Interpretation k raised first, and r is what trunk/ruby's interpret_tagging! then leaves. */
  predicate FailedFirstAt(os: seq<Interpreting.Outcome>, k: int, r: (seq<TrackValue>, Option<Failure>), ts: seq<TrackValue>, title: Option<string>)
  {
    0 <= k < |ts| == |os| == |r.0| && os[k].output.Err?
    && (forall j :: 0 <= j < k ==> os[j].output.Ok?)
    && r.1 == Some(InSession(os[k].output.error, Text(title)))
    && (forall j :: 0 <= j < |ts| ==> r.0[j].regions == if j <= k then os[j].input else ts[j].regions)
  }

  /**
   * A raise is the first interpretation's error with the session title;
   * the tracks up to that one are left as the interpreter worked them, the
   * rest untouched.
   */
  lemma {:induction false} TaggedByOutcomesFails(ts: seq<TrackValue>, os: seq<Interpreting.Outcome>, title: Option<string>)
    requires OutcomesOk(ts, os)
    ensures var r := TaggedByOutcomes(ts, os, title);
      r.1.Some? ==> exists k :: FailedFirstAt(os, k, r, ts, title)
  {
    var r := TaggedByOutcomes(ts, os, title);
    var k := FirstFailure(Failed(os), 0);
    if k < |ts| {
      assert FailedFirstAt(os, k, r, ts, title);
    }
  }

  /**
   * The outcomes of trunk/lib's Track#interpret_tagging! on each track,
   * the blend in seconds, against the Region class rc: as written, or with
   * the `tag` and class-level `divs_per_second` it lacks supplied.
   */
  function TrackTaggings(ts: seq<TrackValue>, blendSeconds: int, rc: TrunkBlending.RegionClass): (ps: seq<(TrackState, Option<Failure>)>)
    requires TracksOk(ts)
    ensures |ps| == |ts| && forall j :: 0 <= j < |ts| ==> WellFormed(ps[j].0)
    decreases |ts|
  {
    if ts == [] then []
    else TrackTaggings(ts[..|ts| - 1], blendSeconds, rc)
         + [TrunkBlending.InterpretTagging(ts[|ts| - 1].regions, blendSeconds, rc)]
  }

  /** The j-th outcome is that of the j-th track. */
  lemma {:induction false} TrackTaggingAt(ts: seq<TrackValue>, blendSeconds: int, rc: TrunkBlending.RegionClass, j: nat)
    requires TracksOk(ts) && j < |ts|
    ensures TrackTaggings(ts, blendSeconds, rc)[j] == TrunkBlending.InterpretTagging(ts[j].regions, blendSeconds, rc)
    decreases |ts|
  {
    if j < |ts| - 1 {
      var t0 := ts[..|ts| - 1];
      TrackTaggingAt(t0, blendSeconds, rc, j);
      assert t0[j] == ts[j];
    }
  }

  /** Whether each track's tagging raised. */
  function Raised(ps: seq<(TrackState, Option<Failure>)>): (f: seq<bool>)
    ensures |f| == |ps| && forall j :: 0 <= j < |ps| ==> f[j] == ps[j].1.Some?
  {
    seq(|ps|, j requires 0 <= j < |ps| => ps[j].1.Some?)
  }

  /** The tracks each tagging left. */
  function Worked(ps: seq<(TrackState, Option<Failure>)>): (rs: seq<TrackState>)
    requires forall j :: 0 <= j < |ps| ==> WellFormed(ps[j].0)
    ensures |rs| == |ps| && forall j :: 0 <= j < |ps| ==> rs[j] == ps[j].0 && WellFormed(rs[j])
  {
    seq(|ps|, j requires 0 <= j < |ps| => ps[j].0)
  }

  /** What the taggings ps of the tracks ts may leave. */
  predicate TaggingsOk(ts: seq<TrackValue>, ps: seq<(TrackState, Option<Failure>)>)
  {
    TracksOk(ts) && |ps| == |ts| && forall j :: 0 <= j < |ps| ==> WellFormed(ps[j].0)
  }

  /**
   * trunk/lib Session#interpret_tagging! given what each track's own
   * tagging leaves: the tracks are tagged in place, in order, until one
   * raises.
   */
  function TaggedByResults(ts: seq<TrackValue>, ps: seq<(TrackState, Option<Failure>)>): (r: (seq<TrackValue>, Option<Failure>))
    requires TaggingsOk(ts, ps)
    ensures |r.0| == |ts| && TracksOk(r.0)
    ensures SameNames(ts, r.0)
  {
    var k := FirstFailure(Raised(ps), 0);
    if k < |ts| then (WithTrackRegions(ts, Worked(ps), k + 1), ps[k].1) else (WithTrackRegions(ts, Worked(ps), k), None)
  }

  /** trunk/lib Session#interpret_tagging!, the session's blend in seconds, against the Region class rc. */
  function TaggedInPlace(ts: seq<TrackValue>, blendSeconds: int, rc: TrunkBlending.RegionClass): (r: (seq<TrackValue>, Option<Failure>))
    requires TracksOk(ts)
    ensures |r.0| == |ts| && TracksOk(r.0)
  {
    TaggedByResults(ts, TrackTaggings(ts, blendSeconds, rc))
  }

  /** It raises exactly when some track's tagging does; otherwise every track is tagged. */
  lemma {:induction false} TaggedByResultsSucceeds(ts: seq<TrackValue>, ps: seq<(TrackState, Option<Failure>)>)
    requires TaggingsOk(ts, ps)
    ensures var r := TaggedByResults(ts, ps);
      (r.1.None? <==> forall j :: 0 <= j < |ts| ==> ps[j].1.None?)
      && (r.1.None? ==> forall j :: 0 <= j < |ts| ==> r.0[j].regions == ps[j].0)
  {
    var r := TaggedByResults(ts, ps);
    var k := FirstFailure(Raised(ps), 0);
    if k < |ts| {
      assert r.1 == ps[k].1 && ps[k].1.Some?;
    }
  }

  /** Track k's tagging raised first, and r is what trunk/lib's interpret_tagging! then leaves. */
  predicate RaisedFirstAt(ps: seq<(TrackState, Option<Failure>)>, k: int, r: (seq<TrackValue>, Option<Failure>), ts: seq<TrackValue>)
  {
    0 <= k < |ts| == |ps| == |r.0| && ps[k].1.Some?
    && (forall j :: 0 <= j < k ==> ps[j].1.None?)
    && r.1 == ps[k].1
    && (forall j :: 0 <= j < |ts| ==> r.0[j].regions == if j <= k then ps[j].0 else ts[j].regions)
  }

  /**
   * A raise is the first track's error; the tracks up to that one are left
   * as tagged, the rest untouched.
   */
  lemma {:induction false} TaggedByResultsFails(ts: seq<TrackValue>, ps: seq<(TrackState, Option<Failure>)>)
    requires TaggingsOk(ts, ps)
    ensures var r := TaggedByResults(ts, ps);
      r.1.Some? ==> exists k :: RaisedFirstAt(ps, k, r, ts)
  {
    var r := TaggedByResults(ts, ps);
    var k := FirstFailure(Raised(ps), 0);
    if k < |ts| {
      assert RaisedFirstAt(ps, k, r, ts);
    }
  }

  /**
   * Session#interpret_tagging! for each version, as the code is written.
   * branch_1's Track has no interpret_tagging!, so there the first track
   * raises; in trunk/lib the first track's blend! raises at
   * `Region.divs_per_second`.
   */
  function Tagged(v: Version, ts: seq<TrackValue>, blend: int, title: Option<string>): (r: (seq<TrackValue>, Option<Failure>))
    requires TracksOk(ts)
    ensures |r.0| == |ts| && TracksOk(r.0)
  {
    match v
    case TrunkRuby => TaggedByInterpreter(ts, blend, title)
    case TrunkLib => TaggedInPlace(ts, blend, TrunkBlending.AsWritten)
    case Branch1 => (ts, if ts == [] then None else Some(UndefinedName("interpret_tagging!")))
  }

  /**
   * As written, trunk/lib's interpret_tagging! raises on the first track
   * (`Region.divs_per_second` is not a class method) and changes no track.
   */
  lemma {:induction false} TrunkLibTaggingRaises(ts: seq<TrackValue>, blend: int, title: Option<string>)
    requires TracksOk(ts) && ts != []
    ensures Tagged(TrunkLib, ts, blend, title) == (ts, Some(UndefinedName("divs_per_second")))
  {
    var ps := TrackTaggings(ts, blend, TrunkBlending.AsWritten);
    TrackTaggingAt(ts, blend, TrunkBlending.AsWritten, 0);
    assert ps[0] == (ts[0].regions, Some(UndefinedName("divs_per_second")));
    assert FirstFailure(Raised(ps), 0) == 0;
    var us := WithTrackRegions(ts, Worked(ps), 1);
    assert us == ts by {
      assert forall j :: 0 <= j < |ts| ==> us[j] == ts[j];
    }
  }

  /** Session#reframe! of trunk/lib and trunk/ruby: Track#reframe! on every track, under one time format. */
  function ReframedTracks(ts: seq<TrackValue>, format: TimeFormat): (r: seq<TrackValue>)
    requires TracksOk(ts)
    ensures |r| == |ts| && TracksOk(r)
  {
    seq(|ts|, i requires 0 <= i < |ts| => ts[i].(regions := ReframedFrom(ts[i].regions, 0, format)))
  }

  /**
   * branch_1's Session#reframe!: Track#reframe! on each track in turn.
   * A track either reframes to itself (every region of zero length) or
   * raises on its first region of non-zero length before changing it, so
   * the tracks never change and the result is the exception, if any.
   */
  function BranchReframedTracks(ts: seq<TrackValue>, format: TimeFormat): (r: Option<Failure>)
    requires TracksOk(ts)
    ensures r.None? <==> forall k :: 0 <= k < |ts| ==> BranchReframed(ts[k].regions, format).Ok?
    ensures r.Some? ==> r.value == UndefinedName(if format == Footage then "divs_per_foot" else "divs_per_second")
    decreases |ts|
  {
    if ts == [] then None
    else
      assert TracksOk(ts[1..]) by {
        assert forall k :: 0 <= k < |ts[1..]| ==> ts[1..][k] == ts[k + 1];
      }
      var rest := BranchReframedTracks(ts[1..], format);
      assert forall k :: 1 <= k < |ts| ==> ts[k] == ts[1..][k - 1];
      match BranchReframed(ts[0].regions, format)
      case Err(e) => Some(e)
      case Ok(_) => rest
  }

  /** A footage session with one track holding [0, 500]: branch_1's reframe! raises on divs_per_foot. */
  lemma {:induction false} BranchReframeRaisesOnFootage()
    ensures BranchReframedTracks([TrackValue("A1", 1, TrackState([Region("a", 0, 500, None)], [0]))], Footage)
         == Some(UndefinedName("divs_per_foot"))
  {
    var t := TrackState([Region("a", 0, 500, None)], [0]);
    assert t.cells[t.order[0]].start != t.cells[t.order[0]].finish;
    assert BranchReframed(t, Footage).Err?;
  }

  // ----- The session object -----

  /** trunk/lib's paper and type settings, which do not change. */
  const TimeFontSize: int := 13
  const StripsPerPage: int := 16
  const PaperFormat: seq<int> := [0, 0, 792, 1224]

  class Session {
    const version: Version
    var title: Option<string>
    var timeCodeFormat: Option<string>
    /** trunk/lib's @fps; the other versions compute the rate from timeCodeFormat. */
    var fps: Option<FrameRate>
    var sampleRate: int
    var bitDepth: int
    var audioFileCount: int
    var printFrames: bool
    var timeFormat: TimeFormat
    /** The blend duration: in divs for trunk/ruby, in seconds for trunk/lib and branch_1. */
    var blend: int
    /** `@tracks`, in screen order. */
    var tracks: seq<TrackValue>
    // trunk/lib's cue sheet settings
    var shading: Shading
    var cueFontSize: int
    var proportional: bool
    var watermark: Option<string>
    var minClosedCueLength: int
    /** `@interprets_tagging` of branch_1 and trunk/lib, set by interpret_tagging!. */
    var interpretsTagging: bool

    ghost predicate Valid()
      reads this
    {
      TracksOk(tracks)
    }

    function State(): SessionState
      reads this
    {
      SessionState(title, timeCodeFormat, fps, sampleRate, bitDepth, audioFileCount, timeFormat, tracks)
    }

    /** The fields reading a file leaves alone. */
    ghost function Settings(): (bool, int, Shading, int, bool, Option<string>, int, bool)
      reads this
    {
      (printFrames, blend, shading, cueFontSize, proportional, watermark, minClosedCueLength, interpretsTagging)
    }

    /** The header fields, which interpreting and reframing leave alone. */
    ghost function Header(): (Option<string>, Option<string>, Option<FrameRate>, int, int, int, TimeFormat)
      reads this
    {
      (title, timeCodeFormat, fps, sampleRate, bitDepth, audioFileCount, timeFormat)
    }

    /**
     * Session.new. The blend duration is 1.0 * divs_per_second in
     * trunk/ruby and a bare 1.0 in the other two; fields a version does
     * not have are left at nothing or 0.
     */
    constructor (v: Version)
      ensures Valid() && version == v && tracks == [] && title == Some("New Session")
      ensures printFrames && timeFormat == Footage && !interpretsTagging
      ensures v != TrunkLib ==> timeCodeFormat == Some("30 Frame") && sampleRate == 48000 && bitDepth == 16 && audioFileCount == 0
      ensures blend == (if v == TrunkRuby then DivsPerSecond else 1)
      ensures v == TrunkLib ==> fps == Some(Fps24) && shading == ShadeAll && cueFontSize == 10 && proportional
                                && watermark.None? && minClosedCueLength == 600
    {
      version := v;
      title := Some("New Session");
      tracks := [];
      printFrames := true;
      interpretsTagging := false;
      timeFormat := Footage;
      blend := if v == TrunkRuby then DivsPerSecond else 1;
      if v == TrunkLib {
        timeCodeFormat, fps := None, Some(Fps24);
        sampleRate, bitDepth, audioFileCount := 0, 0, 0;
        shading, cueFontSize, proportional, watermark, minClosedCueLength := ShadeAll, 10, true, None, 600;
      } else {
        timeCodeFormat, fps := Some("30 Frame"), None;
        sampleRate, bitDepth, audioFileCount := 48000, 16, 0;
        shading, cueFontSize, proportional, watermark, minClosedCueLength := ShadeAll, 0, false, None, 0;
      }
    }

    /** Session#fps (trunk/ruby, branch_1) or the @fps attribute (trunk/lib). */
    function Fps(): (r: Option<FrameRate>)
      reads this
      ensures version != TrunkLib ==> r == FrameRateOf(timeCodeFormat)
    {
      if version == TrunkLib then fps else FrameRateOf(timeCodeFormat)
    }

    /** trunk/lib Session#finish_time_font_size. */
    function FinishTimeFontSize(): (n: int)
      reads this
      ensures n == cueFontSize
    {
      cueFontSize
    }

    /**
     * trunk/lib Session#display_regions: every track's regions in track
     * order, the same regions audio_regions collects.
     */
    function ShownRegions(): (rs: seq<Region>)
      reads this
      requires Valid()
      ensures |rs| == RegionCount(tracks) && multiset(rs) == multiset(AudioRegions(tracks))
    {
      AudioRegionsAreDisplayRegions(tracks);
      DisplayRegions(tracks)
    }

    /** Session#add_track: the new track is the last; its position is returned. */
    method AddTrack(name: Option<string>) returns (index: nat)
      requires Valid()
      modifies this
      ensures Valid() && tracks == AddedTrack(old(tracks), name) && index == old(|tracks|) && index < |tracks|
      ensures Header() == old(Header()) && Settings() == old(Settings())
    {
      index := |tracks|;
      tracks := tracks + [TrackValue(TrackName(name, |tracks|), |tracks| + 1, EmptyTrack())];
    }

    /**
     * Session#renumber_tracks_from, which only trunk/ruby's Session
     * defines: elsewhere the call raises and changes nothing.
     */
    method RenumberTracksFrom(n: int) returns (err: Option<Failure>)
      requires Valid()
      modifies this
      ensures Valid() && Header() == old(Header()) && Settings() == old(Settings())
      ensures version == TrunkRuby ==> tracks == Renumbered(old(tracks), n) && err.None?
      ensures version != TrunkRuby ==> tracks == old(tracks) && err == Some(UndefinedName("renumber_tracks_from"))
    {
      if version != TrunkRuby {
        return Some(UndefinedName("renumber_tracks_from"));
      }
      err := None;
      var number := n;
      var i := 0;
      while i < |tracks|
        invariant 0 <= i <= |tracks| == |old(tracks)| && number == n + i
        invariant forall j :: 0 <= j < |tracks| ==> tracks[j] == (if j < i then old(tracks[j]).(channel := n + j) else old(tracks[j]))
        invariant Header() == old(Header()) && Settings() == old(Settings())
      {
        tracks := tracks[i := tracks[i].(channel := number)];
        number := number + 1;
        i := i + 1;
      }
      assert tracks == Renumbered(old(tracks), n) by {
        var r := Renumbered(old(tracks), n);
        assert forall j :: 0 <= j < |tracks| ==> tracks[j] == r[j];
      }
    }

    /** Session#reframe!: every track reframed under the session's time format; frames are no longer printed. */
    method Reframe() returns (err: Option<Failure>)
      requires Valid()
      modifies this
      ensures Valid() && Header() == old(Header())
      ensures version == Branch1 ==>
        err == BranchReframedTracks(old(tracks), old(timeFormat)) && tracks == old(tracks)
        && Settings() == (if err.Some? then old(Settings()) else old(Settings()).(0 := false))
      ensures version != Branch1 ==>
        err.None? && tracks == ReframedTracks(old(tracks), old(timeFormat)) && Settings() == old(Settings()).(0 := false)
    {
      var i := 0;
      if version == Branch1 {
        while i < |tracks|
          invariant 0 <= i <= |tracks| && tracks == old(tracks)
          invariant forall k :: 0 <= k < i ==> BranchReframed(tracks[k].regions, timeFormat).Ok?
          invariant Header() == old(Header()) && Settings() == old(Settings())
        {
          var r := BranchReframed(tracks[i].regions, timeFormat);
          if r.Err? {
            return Some(r.error);
          }
          tracks := tracks[i := tracks[i].(regions := r.value)];
          i := i + 1;
        }
        printFrames := false;
        return None;
      }
      while i < |tracks|
        invariant 0 <= i <= |tracks| == |old(tracks)|
        invariant forall j :: 0 <= j < |tracks| ==>
          tracks[j] == (if j < i then old(tracks[j]).(regions := ReframedFrom(old(tracks[j]).regions, 0, timeFormat)) else old(tracks[j]))
        invariant Header() == old(Header()) && Settings() == old(Settings())
      {
        tracks := tracks[i := tracks[i].(regions := ReframedFrom(tracks[i].regions, 0, timeFormat))];
        i := i + 1;
      }
      printFrames := false;
      assert tracks == ReframedTracks(old(tracks), old(timeFormat)) by {
        var r := ReframedTracks(old(tracks), old(timeFormat));
        assert forall j :: 0 <= j < |tracks| ==> tracks[j] == r[j];
      }
      err := None;
    }

    // ----- read_file -----

    /** Track#add_region on track c, with the session's frame rate and time format. */
    method AddRegionTo(c: nat, name: string, status: Option<string>, startText: string, finishText: string)
      returns (err: Option<Failure>)
      requires Valid() && c < |tracks|
      modifies this
      ensures Valid() && Settings() == old(Settings())
      ensures (State(), err) == RegionAdded(version, old(State()), c, name, status, startText, finishText)
    {
      var rate := Fps();
      var added := AddRegionText(tracks[c].regions, name, status, startText, finishText, rate, timeFormat, version != TrunkLib);
      var ds := StrToTc(startText, rate, timeFormat);
      tracks := WithRegions(tracks, c, added.0);
      timeFormat := if added.1.Ok? then added.1.value else if ds.Ok? then ds.value.format else timeFormat;
      err := if added.1.Err? then Some(added.1.error) else None;
    }

    /** A '1' row while reading. */
    method ReadRegionRow(row: seq<string>, reader: Reader) returns (err: Option<Failure>)
      requires Valid() && ReaderOk(State(), reader) && reader.reading
      modifies this
      ensures Valid() && Settings() == old(Settings())
      ensures (State(), err) == RegionRow(version, old(State()), reader, row)
    {
      var name := Cell(row, 2);
      var status := RowStatus(version, reader, row);
      if name.None? {
        err := Some(NoMethodOnNil("strip"));
      } else if status.None? {
        err := None;
      } else {
        err := AddRegionTo(reader.current.value, name.value, status.value, Text(Cell(row, 3)), Text(Cell(row, 4)));
      }
    }

    /** One row of read_file. */
    method ReadRowStep(row: seq<string>, reader: Reader) returns (next: Reader, err: Option<Failure>)
      requires Valid() && ReaderOk(State(), reader)
      modifies this
      ensures Valid() && Settings() == old(Settings())
      ensures (State(), next, err) == ReadRow(version, old(State()), reader, row)
    {
      var head := Cell(row, 0);
      var second := Cell(row, 1);
      next, err := reader, None;
      if head.None? {
        next := reader.(reading := false);
      } else if head.value == "SESSION NAME:" {
        title := second;
      } else if head.value == "TIME CODE FORMAT:" {
        if version == TrunkLib {
          fps := FrameRateOf(second);
        } else {
          timeCodeFormat := second;
        }
      } else if head.value == "SAMPLE RATE:" && version != TrunkLib {
        sampleRate := ToI(Text(second));
      } else if head.value == "BIT DEPTH:" && version != TrunkLib {
        if second.None? { err := Some(NoMethodOnNil("[]")); } else { bitDepth := ToI(LeadingTwo(second.value)); }
      } else if head.value == "# OF AUDIO FILES:" && version != TrunkLib {
        audioFileCount := ToI(Text(second));
      } else if head.value == "TRACK NAME:" {
        var index := AddTrack(second);
        next := reader.(current := Some(index));
      } else if head.value == "CHANNEL" {
        var reading := if reader.current.Some? && second == Some("EVENT") then true else reader.reading;
        var statusIndex := if version == TrunkRuby then FindIndex(row, "STATE") else reader.statusIndex;
        next := Reader(reader.current, reading, statusIndex);
      } else if head.value == "1" && reader.reading {
        err := ReadRegionRow(row, reader);
      }
    }

    /**
     * Session#read_file over rows already split into cells: each row in
     * turn; a raise ends the reading with the work done so far kept.
     */
    method ReadFile(rows: seq<seq<string>>) returns (err: Option<Failure>)
      requires Valid()
      modifies this
      ensures Valid() && Settings() == old(Settings())
      ensures (State(), err) == (ReadRows(version, old(State()), StartReader, rows).0, ReadRows(version, old(State()), StartReader, rows).2)
    {
      var reader := StartReader;
      var i := 0;
      while i < |rows|
        invariant 0 <= i <= |rows| && Valid() && ReaderOk(State(), reader) && Settings() == old(Settings())
        invariant ReadRows(version, State(), reader, rows[i..]) == ReadRows(version, old(State()), StartReader, rows)
      {
        assert rows[i..][0] == rows[i] && rows[i..][1..] == rows[i + 1..];
        var e;
        reader, e := ReadRowStep(rows[i], reader);
        if e.Some? {
          return e;
        }
        i := i + 1;
      }
      err := None;
    }

    // ----- interpret_tagging! -----

    /** Session#interpret_tagging!. */
    method InterpretTagging() returns (err: Option<Failure>)
      requires Valid()
      modifies this
      ensures Valid() && (tracks, err) == Tagged(version, old(tracks), old(blend), old(title))
      ensures Header() == old(Header())
      ensures Settings() == old(Settings()).(7 := old(interpretsTagging) || version != TrunkRuby)
    {
      match version
      case TrunkRuby =>
        var r := TaggedByInterpreter(tracks, blend, title);
        tracks, err := r.0, r.1;
      case TrunkLib =>
        interpretsTagging := true;
        tracks, err := TagEachTrack(tracks, blend, TrunkBlending.AsWritten);
      case Branch1 =>
        interpretsTagging := true;
        err := if tracks == [] then None else Some(UndefinedName("interpret_tagging!"));
    }

    // ----- to_text_export -----

    /** Session#to_text_export. */
    method ToTextExport(eol: string) returns (r: Result<string>)
      requires Valid()
      ensures r == TextExport(version, State(), printFrames, eol)
    {
      r := ExportText(version, State(), printFrames, eol);
    }
  }

  /** `t.interpret_tagging!` for the i-th track. */
  method TagTrackAt(ts: seq<TrackValue>, blendSeconds: int, rc: TrunkBlending.RegionClass, i: nat) returns (p: (TrackState, Option<Failure>))
    requires TracksOk(ts) && i < |ts|
    ensures p == TrackTaggings(ts, blendSeconds, rc)[i]
  {
    p := TrunkBlending.InterpretTagging(ts[i].regions, blendSeconds, rc);
    TrackTaggingAt(ts, blendSeconds, rc, i);
  }

  /** trunk/lib: Track#interpret_tagging! on each track in turn. */
  method TagEachTrack(ts: seq<TrackValue>, blendSeconds: int, rc: TrunkBlending.RegionClass) returns (us: seq<TrackValue>, err: Option<Failure>)
    requires TracksOk(ts)
    ensures (us, err) == TaggedInPlace(ts, blendSeconds, rc)
  {
    ghost var ps := TrackTaggings(ts, blendSeconds, rc);
    ghost var fails := Raised(ps);
    ghost var worked := Worked(ps);
    us := ts;
    var i := 0;
    while i < |ts|
      invariant 0 <= i <= |ts| == |ps|
      invariant forall j :: 0 <= j < i ==> !fails[j]
      invariant us == WithTrackRegions(ts, worked, i)
    {
      var p := TagTrackAt(ts, blendSeconds, rc, i);
      WithTrackRegionsStep(ts, worked, i);
      us := us[i := ts[i].(regions := p.0)];
      if p.1.Some? {
        err := p.1;
        assert FirstFailure(fails, 0) == i;
        return;
      }
      i := i + 1;
    }
    assert FirstFailure(fails, 0) == |ps|;
    err := None;
  }

  /** One more row of a sequence, after the text of those before. */
  lemma {:induction false} RowsTextStep(pre: string, rows: seq<seq<string>>, k: nat, eol: string)
    requires k < |rows|
    ensures pre + RowsText(rows[..k + 1], eol) == (pre + RowsText(rows[..k], eol)) + (Line(rows[k]) + eol)
  {
    assert rows[..k + 1][..k] == rows[..k];
  }

  /** A listing closes with two empty lines. */
  lemma {:induction false} ListingText(pre: string, head: seq<seq<string>>, events: seq<seq<string>>, eol: string)
    requires pre == RowsText(head, eol)
    ensures (pre + RowsText(events[..|events|], eol)) + (eol + eol) == RowsText(head + events + [[""], [""]], eol)
  {
    assert events[..|events|] == events;
    assert Line([""]) == "";
    RowsTextAppend(head + events, [[""], [""]], eol);
    RowsTextAppend(head, events, eol);
  }

  /** The listing of one more track, after those before. */
  lemma {:induction false} TracksTextStep(ts: seq<TrackValue>, i: nat, format: TimeFormat, fps: Option<FrameRate>, printFrames: bool, eol: string)
    requires TracksOk(ts) && i < |ts|
    ensures TracksOk(ts[..i]) && TracksOk(ts[..i + 1])
    ensures RowsText(TracksRows(ts[..i + 1], format, fps, printFrames), eol)
         == RowsText(TracksRows(ts[..i], format, fps, printFrames), eol) + RowsText(TrackRows(ts[i], format, fps, printFrames), eol)
  {
    TracksRowsStep(ts, i, format, fps, printFrames);
    RowsTextAppend(TracksRows(ts[..i], format, fps, printFrames), TrackRows(ts[i], format, fps, printFrames), eol);
  }

  /**
   * The listing of one track in to_text_export, line by line; the first
   * region whose start cannot be printed raises.
   */
  method TrackText(t: TrackValue, format: TimeFormat, rate: Option<FrameRate>, printFrames: bool, eol: string)
    returns (r: Result<string>)
    requires WellFormed(t.regions)
    ensures r.Err? <==> format == Tc && rate.None? && t.regions.order != []
    ensures r.Err? ==> r.error == NilFrameRate
    ensures r.Ok? ==> r.value == RowsText(TrackRows(t, format, rate, printFrames), eol)
  {
    var rs := Regions(t.regions);
    var rows := EventRows(rs, format, rate, printFrames);
    var output := RowsText(TrackHead(t.name), eol);
    ghost var pre := output;
    var k := 0;
    while k < |rs|
      invariant 0 <= k <= |rs|
      invariant output == pre + RowsText(rows[..k], eol)
      invariant format == Tc && rate.None? ==> k == 0
    {
      var start := TcToStr(rs[k].start, format, rate, printFrames);
      if start.Err? {
        return Err(start.error);
      }
      RowsTextStep(pre, rows, k, eol);
      output := output + (Line(rows[k]) + eol);
      k := k + 1;
    }
    ListingText(pre, TrackHead(t.name), rows, eol);
    output := output + (eol + eol);
    r := Ok(output);
  }

  /** The listing of track i appended to the listings of the tracks before it. */
  method TrackTextAfter(output: string, ts: seq<TrackValue>, i: nat, format: TimeFormat, rate: Option<FrameRate>, printFrames: bool, eol: string)
    returns (r: Result<string>)
    requires TracksOk(ts) && i < |ts|
    requires TracksOk(ts[..i]) && output == RowsText(TracksRows(ts[..i], format, rate, printFrames), eol)
    ensures TracksOk(ts[..i + 1])
    ensures r.Err? <==> format == Tc && rate.None? && ts[i].regions.order != []
    ensures r.Err? ==> r.error == NilFrameRate
    ensures r.Ok? ==> r.value == RowsText(TracksRows(ts[..i + 1], format, rate, printFrames), eol)
  {
    var listing := TrackText(ts[i], format, rate, printFrames, eol);
    TracksTextStep(ts, i, format, rate, printFrames, eol);
    if listing.Err? {
      return Err(listing.error);
    }
    r := Ok(output + listing.value);
  }

  /** The listings of the tracks in turn, until one raises. */
  method TracksText(ts: seq<TrackValue>, format: TimeFormat, rate: Option<FrameRate>, printFrames: bool, eol: string)
    returns (r: Result<string>)
    requires TracksOk(ts)
    ensures r.Err? <==> format == Tc && rate.None? && !NoneListed(ts)
    ensures r.Err? ==> r.error == NilFrameRate
    ensures r.Ok? ==> r.value == RowsText(TracksRows(ts, format, rate, printFrames), eol)
  {
    var output := "";
    var i := 0;
    while i < |ts|
      invariant 0 <= i <= |ts| && TracksOk(ts[..i])
      invariant output == RowsText(TracksRows(ts[..i], format, rate, printFrames), eol)
      invariant format == Tc && rate.None? ==> NoneListed(ts[..i])
    {
      var next := TrackTextAfter(output, ts, i, format, rate, printFrames, eol);
      if next.Err? {
        ListedAt(ts, i);
        return Err(next.error);
      }
      if format == Tc && rate.None? {
        NoneListedStep(ts, i);
      }
      output := next.value;
      assert output == RowsText(TracksRows(ts[..i + 1], format, rate, printFrames), eol);
      i := i + 1;
    }
    assert ts[..i] == ts;
    r := Ok(output);
  }

  /** to_text_export: the header, then the listing of each track. */
  method ExportText(v: Version, s: SessionState, printFrames: bool, eol: string) returns (r: Result<string>)
    requires TracksOk(s.tracks)
    ensures r == TextExport(v, s, printFrames, eol)
  {
    if v == TrunkLib {
      return Err(UndefinedName("to_text_export"));
    }
    var rate := SessionFps(v, s);
    var ts := s.tracks;
    var header := HeaderRows(s.title, s.sampleRate, s.bitDepth, s.timeCodeFormat, |ts|, RegionCount(ts), s.audioFileCount);
    var listings := TracksText(ts, s.timeFormat, rate, printFrames, eol);
    RegionCountZero(ts);
    if listings.Err? {
      return Err(listings.error);
    }
    RowsTextAppend(header, TracksRows(ts, s.timeFormat, rate, printFrames), eol);
    r := Ok(RowsText(header, eol) + listings.value);
  }
}
