// Time arithmetic of PT::Region: the 600-divisions-per-second time base,
// decoding "feet+frames" and "hh:mm:ss:ff" text into divisions
// (str_to_tc), encoding divisions back into text (tc_to_str), the session
// frame rate, and the snapping arithmetic of reframe!.

module Timecode {
  import opened Base

  /** Region.divs_per_second: the time base of every region. */
  const DivsPerSecond: int := 600
  /** Region.divs_per_foot, divs_per_second * 2 / 3: film runs 1.5 feet per second. */
  const DivsPerFoot: int := 400
  /** divs_per_second / 24: a film frame, 16 to the foot. */
  const DivsPerFilmFrame: int := 25
  /** divs_per_second * 60 and divs_per_second * 60 * 60. */
  const DivsPerMinute: int := 36000
  const DivsPerHour: int := 2160000

  lemma {:induction false} TimeBaseConsistent()
    ensures DivsPerFoot == DivsPerSecond * 2 / 3
    ensures DivsPerFilmFrame == DivsPerSecond / 24 && DivsPerFoot == 16 * DivsPerFilmFrame
    ensures DivsPerMinute == DivsPerSecond * 60 && DivsPerHour == DivsPerMinute * 60
  {
  }

  /** Session#time_format: the notation times were read in and are printed in. */
  datatype TimeFormat = Footage | Tc

  /** The frame rates Session#fps can answer. */
  datatype FrameRate = Fps30 | Fps25 | Fps24
  {
    function Frames(): (n: int)
      ensures n == 24 || n == 25 || n == 30
    {
      match this
      case Fps30 => 30
      case Fps25 => 25
      case Fps24 => 24
    }
  }

  /**
   * Session#fps: the frame rate named by the TIME CODE FORMAT header text;
   * "29.97" and "30" count as 30, "23.976" and "24" as 24, nil otherwise.
   */
  function FrameRateOf(format: Option<string>): (r: Option<FrameRate>)
    ensures format.None? ==> r.None?
  {
    match format
    case None => None
    case Some(s) =>
      if Contains(s, "29") || Contains(s, "30") then Some(Fps30)
      else if Contains(s, "25") then Some(Fps25)
      else if Contains(s, "24") || Contains(s, "23") then Some(Fps24)
      else None
  }

  lemma {:induction false} FrameRateOfProToolsNames()
    ensures FrameRateOf(Some("30 Frame")) == Some(Fps30)
    ensures FrameRateOf(Some("29.97 Frame")) == Some(Fps30)
    ensures FrameRateOf(Some("25 Frame")) == Some(Fps25)
    ensures FrameRateOf(Some("24 Frame")) == Some(Fps24)
    ensures FrameRateOf(Some("23.976 Frame")) == Some(Fps24)
    ensures FrameRateOf(Some("Film")) == None
  {
    assert OccursAt("30 Frame", "30", 0);
    assert OccursAt("29.97 Frame", "29", 0);
    assert OccursAt("25 Frame", "25", 0);
    assert OccursAt("24 Frame", "24", 0);
    assert OccursAt("23.976 Frame", "23", 0);
    assert !Contains("25 Frame", "29") && !Contains("25 Frame", "30") by {
      forall i: nat | i <= 8 ensures !OccursAt("25 Frame", "29", i) && !OccursAt("25 Frame", "30", i) {
        if i + 2 <= 8 { assert "25 Frame"[i..i + 2][0] == "25 Frame"[i]; }
      }
    }
    assert !Contains("24 Frame", "29") && !Contains("24 Frame", "30") && !Contains("24 Frame", "25") by {
      forall i: nat | i <= 8
        ensures !OccursAt("24 Frame", "29", i) && !OccursAt("24 Frame", "30", i) && !OccursAt("24 Frame", "25", i)
      {
        if i + 2 <= 8 {
          assert "24 Frame"[i..i + 2][0] == "24 Frame"[i];
          assert "24 Frame"[i..i + 2][1] == "24 Frame"[i + 1];
        }
      }
    }
    assert !Contains("23.976 Frame", "29") && !Contains("23.976 Frame", "30")
        && !Contains("23.976 Frame", "25") && !Contains("23.976 Frame", "24") by {
      forall i: nat | i <= 12
        ensures !OccursAt("23.976 Frame", "29", i) && !OccursAt("23.976 Frame", "30", i)
             && !OccursAt("23.976 Frame", "25", i) && !OccursAt("23.976 Frame", "24", i)
      {
        if i + 2 <= 12 {
          assert "23.976 Frame"[i..i + 2][0] == "23.976 Frame"[i];
          assert "23.976 Frame"[i..i + 2][1] == "23.976 Frame"[i + 1];
        }
      }
    }
    assert !Contains("Film", "29") && !Contains("Film", "30") && !Contains("Film", "25")
        && !Contains("Film", "24") && !Contains("Film", "23") by {
      forall i: nat | i <= 4
        ensures !OccursAt("Film", "29", i) && !OccursAt("Film", "30", i) && !OccursAt("Film", "25", i)
             && !OccursAt("Film", "24", i) && !OccursAt("Film", "23", i)
      {
        if i + 2 <= 4 { assert "Film"[i..i + 2][0] == "Film"[i]; }
      }
    }
  }

  predicate HasChar(s: string, c: char)
  {
    exists i :: 0 <= i < |s| && s[i] == c
  }

  /** The value of the digit run s[p..p+n]. */
  function RunValue(s: string, p: nat, n: nat): int
    requires p + n <= |s|
  {
    DigitsValue(s[p..p + n])
  }

  /** A match of /(\d+)\+(\d+)/ starting exactly at p: feet and frames. */
  function FootageAt(s: string, p: nat): (r: Option<(int, int)>)
    requires p <= |s|
    ensures r.Some? ==> HasChar(s, '+')
  {
    var a := DigitRun(s, p);
    if a > 0 && p + a < |s| && s[p + a] == '+' && DigitRun(s, p + a + 1) > 0 then
      var b := DigitRun(s, p + a + 1);
      Some((RunValue(s, p, a), RunValue(s, p + a + 1, b)))
    else None
  }

  /** The leftmost match of /(\d+)\+(\d+)/ at or after p. */
  function FindFootage(s: string, p: nat): (r: Option<(int, int)>)
    requires p <= |s|
    ensures r.Some? ==> HasChar(s, '+')
    decreases |s| - p
  {
    if FootageAt(s, p).Some? then FootageAt(s, p)
    else if p == |s| then None
    else FindFootage(s, p + 1)
  }

  predicate IsFieldSeparator(c: char) { c == ':' || c == ';' }

  /**
   * One field of the timecode pattern at p: a non-empty digit run and the
   * separator after it (':' or, when `semicolon`, also ';'); the position
   * after the separator.
   */
  function FieldThen(s: string, p: nat, semicolon: bool): (r: Option<nat>)
    requires p <= |s|
    ensures r.Some? ==> var a := DigitRun(s, p);
      a > 0 && r.value == p + a + 1 <= |s| && IsFieldSeparator(s[p + a])
  {
    var a := DigitRun(s, p);
    if a == 0 || p + a >= |s| then None
    else if s[p + a] == ':' || (semicolon && s[p + a] == ';') then Some(p + a + 1)
    else None
  }

  /** A match of /(\d+)\:(\d+)\:(\d+)[\:\;](\d+)/ starting exactly at p. */
  function TimecodeAt(s: string, p: nat): (r: Option<(int, int, int, int)>)
    requires p <= |s|
    ensures r.Some? ==> HasChar(s, ':')
  {
    match FieldThen(s, p, false)
    case None => None
    case Some(q) =>
      assert s[q - 1] == ':';
      match FieldThen(s, q, false)
      case None => None
      case Some(u) =>
        match FieldThen(s, u, true)
        case None => None
        case Some(w) =>
          var d := DigitRun(s, w);
          if d == 0 then None
          else Some((RunValue(s, p, q - 1 - p), RunValue(s, q, u - 1 - q), RunValue(s, u, w - 1 - u), RunValue(s, w, d)))
  }

  /** The leftmost timecode match at or after p. */
  function FindTimecode(s: string, p: nat): (r: Option<(int, int, int, int)>)
    requires p <= |s|
    ensures r.Some? ==> HasChar(s, ':')
    decreases |s| - p
  {
    if TimecodeAt(s, p).Some? then TimecodeAt(s, p)
    else if p == |s| then None
    else FindTimecode(s, p + 1)
  }

  /** A decoded time: the divisions and the session time format afterwards. */
  datatype Decoded = Decoded(divs: int, format: TimeFormat)

  /**
   * Region#str_to_tc: footage is tried first, then timecode; text matching
   * neither decodes to 0 and leaves the session format alone. Timecode
   * frames need the session frame rate, and a nil rate raises.
   */
  function StrToTc(s: string, fps: Option<FrameRate>, format: TimeFormat): (r: Result<Decoded>)
    ensures !HasChar(s, '+') && !HasChar(s, ':') ==> r == Ok(Decoded(0, format))
    ensures r.Err? ==> fps.None? && r.error == NilFrameRate && HasChar(s, ':')
    ensures r.Ok? && r.value.format == Footage && format != Footage ==> HasChar(s, '+')
    ensures r.Ok? && r.value.format == Tc && format != Tc ==> HasChar(s, ':')
  {
    match FindFootage(s, 0)
    case Some((feet, frames)) =>
      Ok(Decoded(feet * DivsPerFoot + frames * DivsPerFilmFrame, Footage))
    case None =>
      match FindTimecode(s, 0)
      case Some((hh, mm, ss, ff)) =>
        if fps.None? then Err(NilFrameRate)
        else Ok(Decoded(hh * DivsPerHour + mm * DivsPerMinute + ss * DivsPerSecond
                        + ff * (DivsPerSecond / fps.value.Frames()), Tc))
      case None => Ok(Decoded(0, format))
  }

  /**
   * Region#tc_to_str. Footage prints feet and film frames ("%i+%02i", or
   * "feet'" when frames are not printed); timecode prints minutes, seconds
   * and frames and drops the hours.
   */
  function TcToStr(divs: int, format: TimeFormat, fps: Option<FrameRate>, printFrames: bool): (r: Result<string>)
    ensures r.Err? <==> format == Tc && fps.None?
    ensures r.Err? ==> r.error == NilFrameRate
  {
    match format
    case Footage =>
      var rem := divs % DivsPerFoot;
      var feet := (divs - rem) / DivsPerFoot;
      var fr := rem / DivsPerFilmFrame;
      if printFrames then Ok(IntToString(feet) + "+" + Pad2(fr)) else Ok(IntToString(feet) + "'")
    case Tc =>
      if fps.None? then Err(NilFrameRate)
      else
        var (mm, ss, ff) := TimecodeFields(divs, fps.value);
        if printFrames then Ok(Pad2(mm) + ":" + Pad2(ss) + ":" + Pad2(ff)) else Ok(Pad2(mm) + ":" + Pad2(ss))
  }

  /** The minutes, seconds and frames tc_to_str prints: the hours are dropped. */
  function TimecodeFields(divs: int, fps: FrameRate): (r: (int, int, int))
    ensures 0 <= r.0 < 60 && 0 <= r.1 < 60 && 0 <= r.2 < fps.Frames()
  {
    var inHour := divs % DivsPerHour;
    var mm := inHour / DivsPerMinute;
    var inMinute := inHour - mm * DivsPerMinute;
    var ss := inMinute / DivsPerSecond;
    var ff := (inMinute - ss * DivsPerSecond) / (DivsPerSecond / fps.Frames());
    TimecodeFieldsBounded(inHour, fps);
    (mm, ss, ff)
  }

  // ----- Lemmas about decoding and encoding -----

  /** A digit run that is followed by a non-digit has exactly its own length. */
  lemma {:induction false} DigitRunPrefix(s: string, p: nat, x: string)
    requires p + |x| < |s| && s[p..p + |x|] == x && AllDigits(x) && !IsDigit(s[p + |x|])
    ensures DigitRun(s, p) == |x|
    decreases |x|
  {
    if |x| > 0 {
      assert s[p] == x[0];
      assert s[p + 1..p + 1 + |x[1..]|] == x[1..];
      DigitRunPrefix(s, p + 1, x[1..]);
    }
  }

  /** A digit run that reaches the end of the text has exactly its own length. */
  lemma {:induction false} DigitRunSuffix(s: string, p: nat, y: string)
    requires p <= |s| && s[p..] == y && AllDigits(y)
    ensures DigitRun(s, p) == |y|
    decreases |s| - p
  {
    if p < |s| {
      assert s[p] == y[0];
      assert s[p + 1..] == y[1..];
      DigitRunSuffix(s, p + 1, y[1..]);
    }
  }

  /** The footage pattern matches "F+ff" at its first character. */
  lemma {:induction false} FootageAtJoin(x: string, y: string)
    requires |x| > 0 && AllDigits(x) && |y| > 0 && AllDigits(y)
    ensures FootageAt(x + "+" + y, 0) == Some((DigitsValue(x), DigitsValue(y)))
  {
    var s := x + "+" + y;
    assert s[0..|x|] == x;
    assert s[|x|] == '+';
    DigitRunPrefix(s, 0, x);
    assert s[|x| + 1..] == y;
    DigitRunSuffix(s, |x| + 1, y);
    assert s[|x| + 1..|x| + 1 + |y|] == y;
    assert RunValue(s, 0, |x|) == DigitsValue(x);
    assert RunValue(s, |x| + 1, |y|) == DigitsValue(y);
  }

  /** Footage text "F+ff" decodes to F feet and ff film frames. */
  lemma {:induction false} DecodeFootageText(x: string, y: string, fps: Option<FrameRate>, format: TimeFormat)
    requires |x| > 0 && AllDigits(x) && |y| > 0 && AllDigits(y)
    ensures StrToTc(x + "+" + y, fps, format)
         == Ok(Decoded(DigitsValue(x) * DivsPerFoot + DigitsValue(y) * DivsPerFilmFrame, Footage))
  {
    FootageAtJoin(x, y);
    FootageFirst(x + "+" + y, DigitsValue(x), DigitsValue(y), fps, format);
  }

  /** A text whose first character starts a footage match decodes as that footage. */
  lemma {:induction false} FootageFirst(s: string, feet: int, frames: int, fps: Option<FrameRate>, format: TimeFormat)
    requires FootageAt(s, 0) == Some((feet, frames))
    ensures StrToTc(s, fps, format) == Ok(Decoded(feet * DivsPerFoot + frames * DivsPerFilmFrame, Footage))
  {
    assert FindFootage(s, 0) == Some((feet, frames));
  }

  /** Timecode text "h:m:s:f" of digit strings: the text of str_to_tc's timecode branch. */
  function TimecodeText(h: string, m: string, sec: string, f: string): string
  {
    h + ":" + m + ":" + sec + ":" + f
  }

  /** A field of digits followed by its separator, anywhere in a text. */
  lemma {:induction false} FieldThenAt(pre: string, x: string, c: char, post: string, semicolon: bool)
    requires |x| > 0 && AllDigits(x) && (c == ':' || (semicolon && c == ';'))
    ensures var s := pre + x + [c] + post;
      FieldThen(s, |pre|, semicolon) == Some(|pre| + |x| + 1) && RunValue(s, |pre|, |x|) == DigitsValue(x)
  {
    var s := pre + x + [c] + post;
    assert s[|pre|..|pre| + |x|] == x;
    assert s[|pre| + |x|] == c;
    DigitRunPrefix(s, |pre|, x);
  }

  /** A field of digits that ends the text. */
  lemma {:induction false} LastFieldAt(pre: string, x: string)
    requires |x| > 0 && AllDigits(x)
    ensures var s := pre + x;
      DigitRun(s, |pre|) == |x| && RunValue(s, |pre|, |x|) == DigitsValue(x)
  {
    var s := pre + x;
    assert s[|pre|..] == x;
    assert s[|pre|..|pre| + |x|] == x;
    DigitRunSuffix(s, |pre|, x);
  }

  /** The timecode pattern matches "h:m:s:f" at its first character, field by field. */
  lemma {:induction false} TimecodeAtJoin(h: string, m: string, sec: string, f: string)
    requires |h| > 0 && AllDigits(h) && |m| > 0 && AllDigits(m)
    requires |sec| > 0 && AllDigits(sec) && |f| > 0 && AllDigits(f)
    ensures TimecodeAt(TimecodeText(h, m, sec, f), 0)
         == Some((DigitsValue(h), DigitsValue(m), DigitsValue(sec), DigitsValue(f)))
  {
    var t := TimecodeText(h, m, sec, f);
    TimecodeFirstFields(h, m, sec, f);
    TimecodeLastFields(h, m, sec, f);
    var q, u, w := |h| + 1, |h| + |m| + 2, |h| + |m| + |sec| + 3;
    TimecodeAtFields(t, 0, q, u, w);
  }

  lemma {:induction false} TimecodeFirstFields(h: string, m: string, sec: string, f: string)
    requires |h| > 0 && AllDigits(h) && |m| > 0 && AllDigits(m)
    ensures var t := TimecodeText(h, m, sec, f);
      FieldThen(t, 0, false) == Some(|h| + 1) && RunValue(t, 0, |h|) == DigitsValue(h)
      && FieldThen(t, |h| + 1, false) == Some(|h| + |m| + 2) && RunValue(t, |h| + 1, |m|) == DigitsValue(m)
  {
    var rest := m + ":" + sec + ":" + f;
    TimecodeTextFirst(h, m, sec, f);
    FieldThenAt([], h, ':', rest, false);
    TimecodeTextSecond(h, m, sec, f);
    FieldThenAt(h + ":", m, ':', sec + ":" + f, false);
  }

  lemma {:induction false} TimecodeTextFirst(h: string, m: string, sec: string, f: string)
    ensures TimecodeText(h, m, sec, f) == [] + h + [':'] + (m + ":" + sec + ":" + f)
  {
  }

  lemma {:induction false} TimecodeTextSecond(h: string, m: string, sec: string, f: string)
    ensures TimecodeText(h, m, sec, f) == (h + ":") + m + [':'] + (sec + ":" + f)
  {
  }

  lemma {:induction false} TimecodeLastFields(h: string, m: string, sec: string, f: string)
    requires |sec| > 0 && AllDigits(sec) && |f| > 0 && AllDigits(f)
    ensures var t := TimecodeText(h, m, sec, f); var u := |h| + |m| + 2; var w := u + |sec| + 1;
      FieldThen(t, u, true) == Some(w) && RunValue(t, u, |sec|) == DigitsValue(sec)
      && DigitRun(t, w) == |f| && RunValue(t, w, |f|) == DigitsValue(f)
  {
    var t := TimecodeText(h, m, sec, f);
    var p2 := h + ":" + m + ":";
    assert t == p2 + sec + [':'] + f;
    FieldThenAt(p2, sec, ':', f, true);
    assert t == (p2 + sec + ":") + f;
    LastFieldAt(p2 + sec + ":", f);
  }

  /** TimecodeAt unfolded once its three fields are found. */
  lemma {:induction false} TimecodeAtFields(s: string, p: nat, q: nat, u: nat, w: nat)
    requires p <= |s| && q <= |s| && u <= |s| && w <= |s|
    requires FieldThen(s, p, false) == Some(q) && FieldThen(s, q, false) == Some(u) && FieldThen(s, u, true) == Some(w)
    requires DigitRun(s, w) > 0
    ensures TimecodeAt(s, p) == Some((RunValue(s, p, q - 1 - p), RunValue(s, q, u - 1 - q), RunValue(s, u, w - 1 - u), RunValue(s, w, DigitRun(s, w))))
  {
  }

  /** "h:m:s:f" of digit strings holds no '+', so it is never read as footage. */
  lemma {:induction false} TimecodeTextNoPlus(h: string, m: string, sec: string, f: string)
    requires AllDigits(h) && AllDigits(m) && AllDigits(sec) && AllDigits(f)
    ensures !HasChar(TimecodeText(h, m, sec, f), '+')
  {
    var t := TimecodeText(h, m, sec, f);
    var q := |h| + 1;
    var u := q + |m| + 1;
    var w := u + |sec| + 1;
    forall i | 0 <= i < |t|
      ensures t[i] != '+'
    {
      if i < |h| { assert t[i] == h[i]; }
      else if q <= i < q + |m| { assert t[i] == m[i - q]; }
      else if u <= i < u + |sec| { assert t[i] == sec[i - u]; }
      else if w <= i { assert t[i] == f[i - w]; }
    }
  }

  /**
   * Timecode text "hh:mm:ss:ff" decodes, with a frame rate, to
   * hh hours, mm minutes, ss seconds and ff frames of 600 / fps
   * divisions, and the format becomes timecode.
   */
  lemma {:induction false} DecodeTimecodeText(h: string, m: string, sec: string, f: string, fps: Option<FrameRate>, format: TimeFormat)
    requires |h| > 0 && AllDigits(h) && |m| > 0 && AllDigits(m)
    requires |sec| > 0 && AllDigits(sec) && |f| > 0 && AllDigits(f)
    requires fps.Some?
    ensures StrToTc(TimecodeText(h, m, sec, f), fps, format)
         == Ok(Decoded(DigitsValue(h) * DivsPerHour + DigitsValue(m) * DivsPerMinute + DigitsValue(sec) * DivsPerSecond
                       + DigitsValue(f) * (DivsPerSecond / fps.value.Frames()), Tc))
  {
    var t := TimecodeText(h, m, sec, f);
    TimecodeTextNoPlus(h, m, sec, f);
    TimecodeAtJoin(h, m, sec, f);
    TimecodeFirst(t, DigitsValue(h), DigitsValue(m), DigitsValue(sec), DigitsValue(f), fps, format);
  }

  /** A text without '+' whose first character starts a timecode match decodes as that timecode. */
  lemma {:induction false} TimecodeFirst(s: string, hh: int, mm: int, ss: int, ff: int, fps: Option<FrameRate>, format: TimeFormat)
    requires !HasChar(s, '+') && TimecodeAt(s, 0) == Some((hh, mm, ss, ff)) && fps.Some?
    ensures StrToTc(s, fps, format)
         == Ok(Decoded(hh * DivsPerHour + mm * DivsPerMinute + ss * DivsPerSecond + ff * (DivsPerSecond / fps.value.Frames()), Tc))
  {
    assert FindFootage(s, 0).None?;
    assert FindTimecode(s, 0) == Some((hh, mm, ss, ff));
  }

  /** s holds three timecode field separators after position p. */
  predicate ThreeSeparators(s: string, p: nat)
  {
    exists i, j, k :: p <= i < j < k < |s| && IsFieldSeparator(s[i]) && IsFieldSeparator(s[j]) && IsFieldSeparator(s[k])
  }

  /** A timecode match at p needs three separators after p. */
  lemma {:induction false} TimecodeAtSeparators(s: string, p: nat)
    requires p <= |s| && TimecodeAt(s, p).Some?
    ensures ThreeSeparators(s, p)
  {
    var q := FieldThen(s, p, false).value;
    var u := FieldThen(s, q, false).value;
    var w := FieldThen(s, u, true).value;
    assert IsFieldSeparator(s[q - 1]) && IsFieldSeparator(s[u - 1]) && IsFieldSeparator(s[w - 1]);
  }

  /** Without three separators after p, no timecode is found at or after p. */
  lemma {:induction false} NoTimecodeFound(s: string, p: nat)
    requires p <= |s| && !ThreeSeparators(s, p)
    ensures FindTimecode(s, p).None?
    decreases |s| - p
  {
    if TimecodeAt(s, p).Some? {
      TimecodeAtSeparators(s, p);
    } else if p < |s| {
      assert !ThreeSeparators(s, p + 1);
      NoTimecodeFound(s, p + 1);
    }
  }

  /**
   * tc_to_str's timecode text "mm:ss:ff" has one field fewer than
   * str_to_tc's pattern: read back, it decodes to 0 and leaves the time
   * format as it was.
   */
  lemma {:induction false} TimecodeNotReread(divs: int, fps: FrameRate, format: TimeFormat)
    ensures TcToStr(divs, Tc, Some(fps), true).Ok?
    ensures StrToTc(TcToStr(divs, Tc, Some(fps), true).value, Some(fps), format) == Ok(Decoded(0, format))
  {
    var (mm, ss, ff) := TimecodeFields(divs, fps);
    var t := Pad2(mm) + ":" + Pad2(ss) + ":" + Pad2(ff);
    assert TcToStr(divs, Tc, Some(fps), true) == Ok(t);
    Pad2Digits(mm);
    Pad2Digits(ss);
    Pad2Digits(ff);
    PrintedTimecodeText(Pad2(mm), Pad2(ss), Pad2(ff));
    NoTimecodeFound(t, 0);
    assert FindFootage(t, 0).None?;
  }

  /** The fields of a time within the hour are below 60, 60 and the frame rate. */
  lemma {:induction false} TimecodeFieldsBounded(inHour: int, fps: FrameRate)
    requires 0 <= inHour < DivsPerHour
    ensures var mm := inHour / DivsPerMinute;
      var inMinute := inHour - mm * DivsPerMinute;
      var ss := inMinute / DivsPerSecond;
      0 <= mm < 60 && 0 <= ss < 60 && 0 <= (inMinute - ss * DivsPerSecond) / (DivsPerSecond / fps.Frames()) < fps.Frames()
  {
    var mm := inHour / 36000;
    var inMinute := inHour - mm * 36000;
    assert 0 <= inMinute < 36000;
    var ss := inMinute / 600;
    var rest := inMinute - ss * 600;
    assert 0 <= rest < 600;
    match fps
    case Fps30 => assert rest / 20 < 30;
    case Fps25 => assert rest / 24 < 25;
    case Fps24 => assert rest / 25 < 24;
  }

  /** Three two-digit fields joined by ':' have no '+' and only two separators. */
  lemma {:induction false} PrintedTimecodeText(a: string, b: string, c: string)
    requires |a| == 2 && |b| == 2 && |c| == 2 && AllDigits(a) && AllDigits(b) && AllDigits(c)
    ensures var t := a + ":" + b + ":" + c; !HasChar(t, '+') && !ThreeSeparators(t, 0)
  {
    var t := a + ":" + b + ":" + c;
    assert t == [a[0], a[1], ':', b[0], b[1], ':', c[0], c[1]];
    assert forall i :: 0 <= i < |t| && IsFieldSeparator(t[i]) ==> i == 2 || i == 5;
  }

  /** The footage fields tc_to_str prints, put back together, give the time less its sub-frame part. */
  lemma {:induction false} FootageFields(divs: int)
    ensures var rem := divs % DivsPerFoot;
      (divs - rem) / DivsPerFoot * DivsPerFoot + rem / DivsPerFilmFrame * DivsPerFilmFrame
        == divs - divs % DivsPerFilmFrame
  {
    var rem := divs % 400;
    assert divs % 25 == rem % 25 by {
      assert divs == (divs / 400 * 16 + rem / 25) * 25 + rem % 25;
    }
  }

  /** A time of F feet and ff < 16 frames prints as "F+ff", or "F'" without frames. */
  lemma {:induction false} FootageEncode(feet: nat, frames: nat, fps: Option<FrameRate>)
    requires frames < 16
    ensures TcToStr(feet * DivsPerFoot + frames * DivsPerFilmFrame, Footage, fps, true)
         == Ok(NatToString(feet) + "+" + Pad2(frames))
    ensures TcToStr(feet * DivsPerFoot + frames * DivsPerFilmFrame, Footage, fps, false)
         == Ok(NatToString(feet) + "'")
  {
    FootageSplit(feet, frames);
  }

  lemma {:induction false} FootageSplit(feet: nat, frames: nat)
    requires frames < 16
    ensures var divs := feet * DivsPerFoot + frames * DivsPerFilmFrame;
      divs % DivsPerFoot == frames * DivsPerFilmFrame
      && (divs - divs % DivsPerFoot) / DivsPerFoot == feet
      && divs % DivsPerFoot / DivsPerFilmFrame == frames
  {
    var divs := feet * 400 + frames * 25;
    assert frames * 25 < 400;
    assert divs % 400 == frames * 25;
    assert (divs - frames * 25) / 400 == feet;
  }

  /**
   * Printing a non-negative time in footage and reading the text back yields
   * the time rounded down to a whole film frame.
   */
  lemma {:induction false} FootageRoundTrip(divs: nat, fps: Option<FrameRate>, format: TimeFormat)
    ensures TcToStr(divs, Footage, fps, true).Ok?
    ensures StrToTc(TcToStr(divs, Footage, fps, true).value, fps, format)
         == Ok(Decoded(divs - divs % DivsPerFilmFrame, Footage))
  {
    var rem := divs % 400;
    var feet := (divs - rem) / 400;
    assert feet >= 0;
    var fr := rem / 25;
    assert TcToStr(divs, Footage, fps, true) == Ok(NatToString(feet) + "+" + Pad2(fr));
    NatToStringDigits(feet);
    Pad2Digits(fr);
    DecodeFootageText(NatToString(feet), Pad2(fr), fps, format);
    FootageFields(divs);
  }

  /**
   * A time of h hours (any h, even negative), mm minutes, ss seconds and ff
   * frames, plus less than a frame, prints as "mm:ss:ff", or "mm:ss"
   * without frames: the hours are not printed.
   */
  lemma {:induction false} TimecodeEncode(h: int, mm: nat, ss: nat, ff: nat, rest: nat, fps: FrameRate)
    requires mm < 60 && ss < 60 && ff < fps.Frames() && rest < DivsPerSecond / fps.Frames()
    ensures var divs := h * DivsPerHour + mm * DivsPerMinute + ss * DivsPerSecond
                        + ff * (DivsPerSecond / fps.Frames()) + rest;
      TcToStr(divs, Tc, Some(fps), true) == Ok(Pad2(mm) + ":" + Pad2(ss) + ":" + Pad2(ff))
      && TcToStr(divs, Tc, Some(fps), false) == Ok(Pad2(mm) + ":" + Pad2(ss))
  {
    var divs := h * DivsPerHour + mm * DivsPerMinute + ss * DivsPerSecond + ff * (DivsPerSecond / fps.Frames()) + rest;
    TimecodeFieldsOf(h, mm, ss, ff, rest, fps);
    assert TimecodeFields(divs, fps) == (mm, ss, ff);
  }

  /** The fields tc_to_str computes from such a time are mm, ss and ff. */
  lemma {:induction false} TimecodeFieldsOf(h: int, mm: nat, ss: nat, ff: nat, rest: nat, fps: FrameRate)
    requires mm < 60 && ss < 60 && ff < fps.Frames() && rest < DivsPerSecond / fps.Frames()
    ensures TimecodeFields(h * DivsPerHour + mm * DivsPerMinute + ss * DivsPerSecond
                           + ff * (DivsPerSecond / fps.Frames()) + rest, fps) == (mm, ss, ff)
  {
    var k := DivsPerSecond / fps.Frames();
    InSecondSplit(ff, rest, fps);
    InHourSplit(h, mm, ss, ff * k + rest);
  }

  /** The hour remainder of a time, and the minutes and seconds within it. */
  lemma {:induction false} InHourSplit(h: int, mm: nat, ss: nat, inSecond: nat)
    requires mm < 60 && ss < 60 && inSecond < DivsPerSecond
    ensures var inHour := mm * DivsPerMinute + ss * DivsPerSecond + inSecond;
      (h * DivsPerHour + inHour) % DivsPerHour == inHour
      && inHour / DivsPerMinute == mm
      && (inHour - mm * DivsPerMinute) / DivsPerSecond == ss
      && inHour - mm * DivsPerMinute - ss * DivsPerSecond == inSecond
  {
    var inMinute := ss * 600 + inSecond;
    assert ss * 600 <= 59 * 600;
    assert inMinute < 36000;
    var inHour := mm * 36000 + inMinute;
    assert mm * 36000 <= 59 * 36000;
    assert inHour < 2160000;
    assert (h * 2160000 + inHour) % 2160000 == inHour;
  }

  lemma {:induction false} InSecondSplit(ff: nat, rest: nat, fps: FrameRate)
    requires ff < fps.Frames() && rest < DivsPerSecond / fps.Frames()
    ensures var k := DivsPerSecond / fps.Frames(); ff * k + rest < DivsPerSecond && (ff * k + rest) / k == ff
  {
    match fps
    case Fps30 => assert ff * 20 <= 29 * 20;
    case Fps25 => assert ff * 24 <= 24 * 24;
    case Fps24 => assert ff * 25 <= 23 * 25;
  }

  // ----- reframe! arithmetic -----

  /** The grid reframe! snaps to: a foot in footage, a second in timecode. */
  function ReframeModulus(format: TimeFormat): (m: int)
    ensures m > 0
  {
    if format == Footage then DivsPerFoot else DivsPerSecond
  }

  /** A start snapped down to the grid line at or before it. */
  function SnapDown(t: int, format: TimeFormat): (r: int)
    ensures r % ReframeModulus(format) == 0 && r <= t < r + ReframeModulus(format)
  {
    if format == Footage then t - t % DivsPerFoot else t - t % DivsPerSecond
  }

  /** The grid line after a time that is off the grid, for the two grids reframe! uses. */
  function NextGridLine(t: int, m: int): (r: int)
    requires (m == DivsPerFoot || m == DivsPerSecond) && t % m != 0
    ensures r % m == 0 && r - m < t < r
  {
    assert t == t / m * m + t % m;
    assert t - t % m + m == (t / m + 1) * m;
    t - t % m + m
  }

  /** A finish snapped up to the grid line at or after it; one on the grid stays. */
  function SnapUp(t: int, format: TimeFormat): (r: int)
    ensures r % ReframeModulus(format) == 0 && r - ReframeModulus(format) < t <= r
    ensures t % ReframeModulus(format) == 0 ==> r == t
  {
    if t % ReframeModulus(format) == 0 then t else NextGridLine(t, ReframeModulus(format))
  }
}
