// The cue sheet helpers of pdf_qs.rb: the Styler that holds the type
// settings, the regions a sheet shows, the strips of each page and the
// time indexes the sheet's rows are laid out by. ruby/lib and
// branches/branch_1/lib differ in their style lists and defaults;
// `SheetVersion` says which one is meant.

module Cuesheets {
  import opened Base
  import opened Tracks
  import opened Sessions
  import Naming

  datatype SheetVersion = RubyLib | Branch1Lib

  // ----- Styler -----

  /** An attribute value: a font face, a size or a flag. */
  datatype Value = Str(s: string) | Int(i: int) | Bool(b: bool)

  /** The style symbols the sheets use, and any other symbol a caller may send. */
  datatype Style = DefaultStyle | TitleStyle | StripHeaderStyle | ChannelHeaderStyle | RegionNameStyle
                 | TimeStyle | FinishTimeStyle | PageNumberStyle | RegionsStyle | OtherStyle(symbol: string)

  /** The attribute symbols, and any other key a hash may hold. */
  datatype Attribute = Face | Size | Bold | Italic | Shading | OtherAttribute(symbol: string)

  /** Styler::STYLES. */
  function Styles(v: SheetVersion): seq<Style>
  {
    match v
    case RubyLib => [DefaultStyle, TitleStyle, StripHeaderStyle, ChannelHeaderStyle, RegionNameStyle, TimeStyle,
                     FinishTimeStyle, PageNumberStyle, RegionsStyle]
    case Branch1Lib => [DefaultStyle, TitleStyle, RegionNameStyle, TimeStyle, FinishTimeStyle, PageNumberStyle]
  }

  /** Styler::STYLE_ATTRIBUTES. */
  function StyleAttributes(v: SheetVersion): seq<Attribute>
  {
    match v
    case RubyLib => [Face, Size, Bold, Italic, Shading]
    case Branch1Lib => [Face, Size, Bold, Italic]
  }

  /** `@attributes.has_key? sym`: the styler holds a hash for every member of STYLES and nothing else. */
  predicate HasStyle(v: SheetVersion, s: Style)
  {
    match s
    case StripHeaderStyle => v == RubyLib
    case ChannelHeaderStyle => v == RubyLib
    case RegionsStyle => v == RubyLib
    case OtherStyle(_) => false
    case _ => true
  }

  /** `STYLE_ATTRIBUTES.include?(k)`. */
  predicate Permitted(v: SheetVersion, k: Attribute)
  {
    match k
    case Shading => v == RubyLib
    case OtherAttribute(_) => false
    case _ => true
  }

  lemma {:induction false} StylesListed(v: SheetVersion, s: Style, k: Attribute)
    ensures HasStyle(v, s) <==> s in Styles(v)
    ensures Permitted(v, k) <==> k in StyleAttributes(v)
  {
  }

  /**
   * One style's attribute hash, by key: the value each key of
   * STYLE_ATTRIBUTES holds, or None where the hash has no entry. Keys
   * outside STYLE_ATTRIBUTES are never stored, so they need no place.
   */
  datatype Attrs = Attrs(face: Option<Value>, size: Option<Value>, bold: Option<Value>, italic: Option<Value>,
                         shading: Option<Value>)

  const NoAttrs: Attrs := Attrs(None, None, None, None, None)

  /** The :default hash Styler.new stores. */
  const DefaultAttrs: Attrs := Attrs(Some(Str("Helvetica")), Some(Int(12)), Some(Bool(false)), Some(Bool(false)), None)

  /** `hash[k]`. */
  function Lookup(m: Attrs, k: Attribute): Option<Value>
  {
    match k
    case Face => m.face
    case Size => m.size
    case Bold => m.bold
    case Italic => m.italic
    case Shading => m.shading
    case OtherAttribute(_) => None
  }

  /** `hash[k] = x`, for a key the hash can hold. */
  function Store(m: Attrs, k: Attribute, x: Value): (r: Attrs)
    requires !k.OtherAttribute?
    ensures Lookup(r, k) == Some(x)
  {
    match k
    case Face => m.(face := Some(x))
    case Size => m.(size := Some(x))
    case Bold => m.(bold := Some(x))
    case Italic => m.(italic := Some(x))
    case Shading => m.(shading := Some(x))
  }

  /** Storing one key leaves the others as they were. */
  lemma {:induction false} StoreOthers(m: Attrs, k: Attribute, x: Value, j: Attribute)
    requires !k.OtherAttribute? && j != k
    ensures Lookup(Store(m, k, x), j) == Lookup(m, j)
  {
  }

  /** The styler's hash of hashes, one entry per style symbol. */
  datatype Table = Table(defaults: Attrs, title: Attrs, stripHeader: Attrs, channelHeader: Attrs, regionName: Attrs,
                         time: Attrs, finishTime: Attrs, pageNumber: Attrs, regions: Attrs)

  /** `@attributes[s]`, for a style symbol. */
  function AttrsOf(t: Table, s: Style): Attrs
  {
    match s
    case DefaultStyle => t.defaults
    case TitleStyle => t.title
    case StripHeaderStyle => t.stripHeader
    case ChannelHeaderStyle => t.channelHeader
    case RegionNameStyle => t.regionName
    case TimeStyle => t.time
    case FinishTimeStyle => t.finishTime
    case PageNumberStyle => t.pageNumber
    case RegionsStyle => t.regions
    case OtherStyle(_) => NoAttrs
  }

  /** `@attributes[s] = m`, for a style symbol. */
  function WithAttrs(t: Table, s: Style, m: Attrs): (r: Table)
    requires !s.OtherStyle?
    ensures AttrsOf(r, s) == m
  {
    match s
    case DefaultStyle => t.(defaults := m)
    case TitleStyle => t.(title := m)
    case StripHeaderStyle => t.(stripHeader := m)
    case ChannelHeaderStyle => t.(channelHeader := m)
    case RegionNameStyle => t.(regionName := m)
    case TimeStyle => t.(time := m)
    case FinishTimeStyle => t.(finishTime := m)
    case PageNumberStyle => t.(pageNumber := m)
    case RegionsStyle => t.(regions := m)
  }

  /** Replacing one style's hash leaves the others as they were. */
  lemma {:induction false} WithAttrsOthers(t: Table, s: Style, m: Attrs, u: Style)
    requires !s.OtherStyle? && u != s
    ensures AttrsOf(WithAttrs(t, s, m), u) == AttrsOf(t, u)
  {
  }

  /** Styler.new: every style holds an empty hash, except :default. */
  const InitialTable: Table := Table(DefaultAttrs, NoAttrs, NoAttrs, NoAttrs, NoAttrs, NoAttrs, NoAttrs, NoAttrs, NoAttrs)

  /** The hash after `arg.each { |k, v| attrs[k] = v if STYLE_ATTRIBUTES.include?(k) }`. */
  function Stored(m: Attrs, pairs: seq<(Attribute, Value)>, v: SheetVersion): Attrs
    decreases |pairs|
  {
    if pairs == [] then m
    else Stored(if Permitted(v, pairs[0].0) then Store(m, pairs[0].0, pairs[0].1) else m, pairs[1..], v)
  }

  /** The value the last pair with key k gives, if any does. */
  function LastValue(pairs: seq<(Attribute, Value)>, k: Attribute): Option<Value>
    decreases |pairs|
  {
    if pairs == [] then None
    else match LastValue(pairs[1..], k)
      case Some(x) => Some(x)
      case None => if pairs[0].0 == k then Some(pairs[0].1) else None
  }

  /**
   * Setting a style stores, for each permitted key, the value the hash
   * gives it last, and leaves every other key as it was.
   */
  lemma {:induction false} StoredMeaning(m: Attrs, pairs: seq<(Attribute, Value)>, v: SheetVersion, k: Attribute)
    ensures Lookup(Stored(m, pairs, v), k)
         == if Permitted(v, k) && LastValue(pairs, k).Some? then LastValue(pairs, k) else Lookup(m, k)
    decreases |pairs|
  {
    if pairs != [] {
      var m1 := if Permitted(v, pairs[0].0) then Store(m, pairs[0].0, pairs[0].1) else m;
      StoredMeaning(m1, pairs[1..], v, k);
      if Permitted(v, pairs[0].0) && pairs[0].0 != k {
        StoreOthers(m, pairs[0].0, pairs[0].1, k);
      }
    }
  }

  /** `style.name(hash)`: the permitted pairs are stored when name is a style; otherwise nothing changes. */
  function SetStyle(t: Table, v: SheetVersion, s: Style, pairs: seq<(Attribute, Value)>): Table
  {
    if HasStyle(v, s) then WithAttrs(t, s, Stored(AttrsOf(t, s), pairs, v)) else t
  }

  /** Ruby truthiness: nil and false are false. */
  predicate Truthy(x: Option<Value>)
  {
    x.Some? && x.value != Bool(false)
  }

  /** `style.name(:attr)`: `@attributes[name][attr] || @attributes[:default][attr]`, or nil for an unknown style. */
  function StyleValue(t: Table, v: SheetVersion, s: Style, k: Attribute): Option<Value>
  {
    if !HasStyle(v, s) then None
    else
      var own := Lookup(AttrsOf(t, s), k);
      if Truthy(own) then own else Lookup(t.defaults, k)
  }

  /**
   * A value set on a style other than :default reads back from it unless
   * it is false, which reads the default's.
   */
  lemma {:induction false} SetThenGet(t: Table, v: SheetVersion, s: Style, pairs: seq<(Attribute, Value)>, k: Attribute)
    requires HasStyle(v, s) && s != DefaultStyle && Permitted(v, k)
    ensures Truthy(LastValue(pairs, k)) ==> StyleValue(SetStyle(t, v, s, pairs), v, s, k) == LastValue(pairs, k)
    ensures LastValue(pairs, k) == Some(Bool(false)) ==> StyleValue(SetStyle(t, v, s, pairs), v, s, k) == Lookup(t.defaults, k)
  {
    StoredMeaning(AttrsOf(t, s), pairs, v, k);
  }

  /**
   * Keys outside STYLE_ATTRIBUTES and names that are not styles change
   * no reading, and setting one style other than :default changes no
   * other style's reading.
   */
  lemma {:induction false} SetLeavesOthers(t: Table, v: SheetVersion, s: Style, pairs: seq<(Attribute, Value)>, u: Style, k: Attribute)
    requires !Permitted(v, k) || !HasStyle(v, s) || (u != s && s != DefaultStyle)
    ensures StyleValue(SetStyle(t, v, s, pairs), v, u, k) == StyleValue(t, v, u, k)
  {
    if HasStyle(v, s) {
      var t2 := SetStyle(t, v, s, pairs);
      StoredMeaning(AttrsOf(t, s), pairs, v, k);
      if u != s {
        WithAttrsOthers(t, s, Stored(AttrsOf(t, s), pairs, v), u);
      }
      if s != DefaultStyle {
        WithAttrsOthers(t, s, Stored(AttrsOf(t, s), pairs, v), DefaultStyle);
      }
    }
  }

  /** Setting :default changes what every style reads where its own value is nil or false. */
  lemma {:induction false} SetDefaultThenGet(t: Table, v: SheetVersion, pairs: seq<(Attribute, Value)>, u: Style, k: Attribute)
    requires HasStyle(v, u) && u != DefaultStyle && !Truthy(Lookup(AttrsOf(t, u), k))
    requires Permitted(v, k) && LastValue(pairs, k).Some?
    ensures StyleValue(SetStyle(t, v, DefaultStyle, pairs), v, u, k) == LastValue(pairs, k)
  {
    StoredMeaning(t.defaults, pairs, v, k);
  }

  /** The styler of a cue sheet: a hash from each style to its attributes. */
  class Styler {
    const version: SheetVersion
    var attributes: Table

    /** Styler.new. */
    constructor (v: SheetVersion)
      ensures version == v && attributes == InitialTable
    {
      version := v;
      attributes := InitialTable;
    }

    /** `style.name(hash)`. */
    method Set(s: Style, pairs: seq<(Attribute, Value)>)
      modifies this
      ensures attributes == SetStyle(old(attributes), version, s, pairs)
    {
      if HasStyle(version, s) {
        var m := AttrsOf(attributes, s);
        var i := 0;
        while i < |pairs|
          invariant 0 <= i <= |pairs|
          invariant Stored(m, pairs[i..], version) == Stored(AttrsOf(old(attributes), s), pairs, version)
        {
          assert pairs[i..][0] == pairs[i] && pairs[i..][1..] == pairs[i + 1..];
          if Permitted(version, pairs[i].0) {
            m := Store(m, pairs[i].0, pairs[i].1);
          }
          i := i + 1;
        }
        attributes := WithAttrs(attributes, s, m);
      }
    }

    /** `style.name(:attr)`. */
    method Get(s: Style, k: Attribute) returns (r: Option<Value>)
      ensures r == StyleValue(attributes, version, s, k)
    {
      r := None;
      if HasStyle(version, s) {
        r := Lookup(AttrsOf(attributes, s), k);
        if !Truthy(r) {
          r := Lookup(attributes.defaults, k);
        }
      }
    }
  }

  /**
   * The styler test test_styler_set: a title given its own face, size
   * and flags reads them back, and the default size stays 12.
   */
  method StylerSetExample(v: SheetVersion) returns (size: Option<Value>, face: Option<Value>, tsize: Option<Value>,
                                                    italic: Option<Value>, bold: Option<Value>)
    ensures size == Some(Int(12)) && face == Some(Str("Times")) && tsize == Some(Int(14))
    ensures italic == Some(Bool(true)) && bold == Some(Bool(true))
  {
    var style := new Styler(v);
    style.Set(DefaultStyle, [(Size, Int(12))]);
    style.Set(TitleStyle, [(Face, Str("Times"))]);
    style.Set(TitleStyle, [(Size, Int(14))]);
    style.Set(TitleStyle, [(Italic, Bool(true))]);
    style.Set(TitleStyle, [(Bold, Bool(true))]);
    size := style.Get(DefaultStyle, Size);
    face := style.Get(TitleStyle, Face);
    tsize := style.Get(TitleStyle, Size);
    italic := style.Get(TitleStyle, Italic);
    bold := style.Get(TitleStyle, Bold);
  }

  /**
   * The styler test test_style_default: after setting the default size
   * and face and the title size, the title reads its own size and the
   * default face.
   */
  method StylerDefaultExample(v: SheetVersion) returns (size: Option<Value>, face: Option<Value>)
    ensures size == Some(Int(10)) && face == Some(Str("Helvetica"))
  {
    var style := new Styler(v);
    style.Set(DefaultStyle, [(Size, Int(14))]);
    style.Set(DefaultStyle, [(Face, Str("Helvetica"))]);
    style.Set(TitleStyle, [(Size, Int(10))]);
    size := style.Get(TitleStyle, Size);
    face := style.Get(TitleStyle, Face);
  }

  /** The table after the font calls of ruby/lib's block: the default keeps its face and size. */
  const RubyHeaderTable: Table :=
    InitialTable.(title := NoAttrs.(size := Some(Int(14))), stripHeader := NoAttrs.(size := Some(Int(12))),
                  channelHeader := NoAttrs.(size := Some(Int(9))), regionName := NoAttrs.(size := Some(Int(10))))

  /** The table a ruby/lib cue sheet starts from, key by key. */
  const RubySheetTable: Table :=
    RubyHeaderTable.(time := NoAttrs.(size := Some(Int(13)), bold := Some(Bool(true))),
                     finishTime := NoAttrs.(size := Some(Int(11)), italic := Some(Bool(true))),
                     regions := NoAttrs.(shading := Some(Bool(true))))

  /** The styles of a new cue sheet: ruby/lib's own; branch_1 keeps the styler's defaults. */
  function SheetStyles(v: SheetVersion): Table
  {
    if v == RubyLib then RubySheetTable else InitialTable
  }

  /**
   * What a ruby/lib cue sheet's styles read: the sizes its block sets,
   * the bold times and italic finish times, the shaded regions, and the
   * default's face for every style.
   */
  lemma {:induction false} RubySheetSizes(t: Table)
    requires t == RubySheetTable
    ensures
      StyleValue(t, RubyLib, TitleStyle, Size) == Some(Int(14))
      && StyleValue(t, RubyLib, ChannelHeaderStyle, Size) == Some(Int(9))
      && StyleValue(t, RubyLib, RegionNameStyle, Size) == Some(Int(10))
      && StyleValue(t, RubyLib, TimeStyle, Size) == Some(Int(13))
      && StyleValue(t, RubyLib, FinishTimeStyle, Size) == Some(Int(11))
      && StyleValue(t, RubyLib, PageNumberStyle, Size) == Some(Int(12))
      && StyleValue(t, RubyLib, OtherStyle("footer"), Size) == None
  {
  }

  /** The flags and faces of the same sheet. */
  lemma {:induction false} RubySheetFlags(t: Table)
    requires t == RubySheetTable
    ensures
      StyleValue(t, RubyLib, TimeStyle, Bold) == Some(Bool(true))
      && StyleValue(t, RubyLib, FinishTimeStyle, Italic) == Some(Bool(true))
      && StyleValue(t, RubyLib, FinishTimeStyle, Bold) == Some(Bool(false))
      && StyleValue(t, RubyLib, RegionsStyle, Shading) == Some(Bool(true))
      && StyleValue(t, RubyLib, PageNumberStyle, Face) == Some(Str("Helvetica"))
  {
  }

  /** The font calls of ruby/lib's `styles do |style| ... end` block. */
  method SetRubyHeaders(style: Styler)
    requires style.version == RubyLib && style.attributes == InitialTable
    modifies style
    ensures style.attributes == RubyHeaderTable
  {
    style.Set(DefaultStyle, [(Size, Int(12))]);
    style.Set(DefaultStyle, [(Face, Str("Helvetica"))]);
    style.Set(TitleStyle, [(Size, Int(14))]);
    style.Set(StripHeaderStyle, [(Size, Int(12))]);
    style.Set(ChannelHeaderStyle, [(Size, Int(9))]);
    style.Set(RegionNameStyle, [(Size, Int(10))]);
  }

  /** The time and region calls of the same block. */
  method SetRubyTimes(style: Styler)
    requires style.version == RubyLib && style.attributes == RubyHeaderTable
    modifies style
    ensures style.attributes == RubySheetTable
  {
    style.Set(TimeStyle, [(Size, Int(13))]);
    style.Set(TimeStyle, [(Bold, Bool(true))]);
    style.Set(FinishTimeStyle, [(Size, Int(11))]);
    style.Set(FinishTimeStyle, [(Italic, Bool(true))]);
    style.Set(RegionsStyle, [(Shading, Bool(true))]);
  }

  /** The styler a new cue sheet builds: Styler.new, then ruby/lib's `styles do |style| ... end` block. */
  method SheetStyler(v: SheetVersion) returns (style: Styler)
    ensures fresh(style) && style.version == v && style.attributes == SheetStyles(v)
  {
    style := new Styler(v);
    if v == RubyLib {
      SetRubyHeaders(style);
      SetRubyTimes(style);
    }
  }

  // ----- The regions a sheet shows -----

  /**
   * ruby/lib Cuesheet#display_regions as written: with hide_muted_regions
   * set, `reject! { |region| region.status == 'Unmuted' }`.
   */
  function ShownAsWritten(rs: seq<Region>, hiding: bool): (r: seq<Region>)
    ensures |r| <= |rs|
    ensures forall x :: x in r <==> x in rs && !(hiding && x.status == Some("Unmuted"))
    decreases |rs|
  {
    if rs == [] then []
    else if hiding && rs[0].status == Some("Unmuted") then ShownAsWritten(rs[1..], hiding)
    else [rs[0]] + ShownAsWritten(rs[1..], hiding)
  }

  /** Hiding muted regions as written drops an unmuted region and keeps a muted one. */
  lemma {:induction false} HideMutedDropsUnmuted(x: Region, y: Region)
    requires x.status == Some("Unmuted") && y.status == Some("Muted")
    ensures ShownAsWritten([x], true) == [] && ShownAsWritten([y], true) == [y]
  {
    assert ShownAsWritten([x], true) == ShownAsWritten([], true);
    assert ShownAsWritten([y], true) == [y] + ShownAsWritten([], true);
  }

  /** display_regions as the option "Hide muted regions" means it: the 'Muted' regions are dropped. */
  function Shown(rs: seq<Region>, hiding: bool): (r: seq<Region>)
    ensures |r| <= |rs|
    ensures forall x :: x in r <==> x in rs && !(hiding && x.status == Some("Muted"))
    decreases |rs|
  {
    if rs == [] then []
    else if hiding && rs[0].status == Some("Muted") then Shown(rs[1..], hiding)
    else [rs[0]] + Shown(rs[1..], hiding)
  }

  /** Without hiding, every region is shown, in order. */
  lemma {:induction false} ShownAll(rs: seq<Region>)
    ensures Shown(rs, false) == rs
    decreases |rs|
  {
    if rs != [] {
      ShownAll(rs[1..]);
      assert rs == [rs[0]] + rs[1..];
    }
  }

  /** The same holds for the code as written: without hiding, nothing is rejected. */
  lemma {:induction false} ShownAsWrittenAll(rs: seq<Region>)
    ensures ShownAsWritten(rs, false) == rs
    decreases |rs|
  {
    if rs != [] {
      ShownAsWrittenAll(rs[1..]);
      assert rs == [rs[0]] + rs[1..];
    }
  }

  // ----- Strip pages -----

  /** Array#slice(start, length) for a start within the array: at most length items. */
  function Slice<T>(s: seq<T>, start: nat, len: nat): (r: seq<T>)
    requires start <= |s|
  {
    var stop := if start + len < |s| then start + len else |s|;
    s[start..stop]
  }

  /** Integer#divmod: the quotient is floored, the remainder takes the divisor's sign. */
  function DivMod(a: int, b: int): (r: (int, int))
    requires b != 0
    ensures a == b * r.0 + r.1
    ensures b > 0 ==> 0 <= r.1 < b
    ensures b < 0 ==> b < r.1 <= 0
  {
    var q := a / b;
    var m := a % b;
    if b < 0 && m != 0 then (q - 1, m + b) else (q, m)
  }

  /** Consecutive groups of k items in order; only the last may be shorter. */
  function Chunks<T>(s: seq<T>, k: nat): seq<seq<T>>
    requires k > 0
    decreases |s|
  {
    if |s| <= k then (if s == [] then [] else [s]) else [s[..k]] + Chunks(s[k..], k)
  }

  /** The groups put back together are the items. */
  lemma {:induction false} ChunksFlatten<T>(s: seq<T>, k: nat)
    requires k > 0
    ensures Flatten(Chunks(s, k)) == s
    decreases |s|
  {
    if |s| > k {
      ChunksFlatten(s[k..], k);
      assert s == s[..k] + s[k..];
    }
  }

  /** All groups but the last hold k items; the last holds 1 to k. */
  lemma {:induction false} ChunksSizes<T>(s: seq<T>, k: nat)
    requires k > 0
    ensures var c := Chunks(s, k);
      (forall i :: 0 <= i < |c| - 1 ==> |c[i]| == k) && (c != [] ==> 0 < |c[|c| - 1]| <= k)
    decreases |s|
  {
    if |s| > k {
      ChunksSizes(s[k..], k);
      var c := Chunks(s, k);
      assert c[1..] == Chunks(s[k..], k);
      assert forall i :: 1 <= i < |c| ==> c[i] == Chunks(s[k..], k)[i - 1];
    }
  }

  /** `pages, rem = n.divmod(k); pages += 1 if rem > 0`: the ceiling of n / k. */
  lemma {:induction false} ChunksCount<T>(s: seq<T>, k: nat)
    requires k > 0
    ensures |Chunks(s, k)| == DivMod(|s|, k).0 + (if DivMod(|s|, k).1 > 0 then 1 else 0)
    decreases |s|
  {
    if |s| > k {
      ChunksCount(s[k..], k);
      DivModShift(|s| - k, k);
    } else if |s| == k {
      assert DivMod(|s|, k) == (1, 0);
    } else {
      assert DivMod(|s|, k) == (0, |s|);
    }
  }

  /** Dividing k more by k gives one more and the same remainder. */
  lemma {:induction false} DivModShift(n: nat, k: nat)
    requires k > 0
    ensures DivMod(n + k, k) == (DivMod(n, k).0 + 1, DivMod(n, k).1)
  {
    var (q, r) := DivMod(n, k);
    var (q1, r1) := DivMod(n + k, k);
    assert n + k == k * (q + 1) + r;
    DivModUnique(n + k, k, q1, r1, q + 1, r);
  }

  lemma {:induction false} DivModUnique(a: int, k: nat, q1: int, r1: int, q2: int, r2: int)
    requires k > 0 && a == k * q1 + r1 && a == k * q2 + r2 && 0 <= r1 < k && 0 <= r2 < k
    ensures q1 == q2 && r1 == r2
  {
    assert k * (q1 - q2) == r2 - r1;
    if q1 > q2 {
      MulAtLeast(k, q1 - q2);
    } else if q2 > q1 {
      MulAtLeast(k, q2 - q1);
    }
  }

  lemma {:induction false} MulAtLeast(k: nat, d: int)
    requires d >= 1
    ensures k * d >= k
  {
    assert k * d == k + k * (d - 1);
  }

  /** The i-th group starts at item k * i: `slice(k * i, k)`. */
  lemma {:induction false} ChunkAt<T>(s: seq<T>, k: nat, i: nat)
    requires k > 0 && i < |Chunks(s, k)|
    ensures k * i < |s| && Chunks(s, k)[i] == Slice(s, k * i, k)
    decreases i
  {
    if i > 0 {
      assert |s| > k;
      assert Chunks(s, k)[i] == Chunks(s[k..], k)[i - 1];
      ChunkAt(s[k..], k, i - 1);
      MulStep(k, i);
      SliceShift(s, k, k * (i - 1));
    }
  }

  lemma MulStep(k: nat, i: nat)
    requires i > 0
    ensures k * i == k + k * (i - 1)
  {
  }

  /** A slice of the items after the first k is a slice of the items k further on. */
  lemma SliceShift<T>(s: seq<T>, k: nat, j: nat)
    requires k <= |s| && j <= |s| - k
    ensures Slice(s[k..], j, k) == Slice(s, k + j, k)
  {
  }

  /**
   * The strip pages of pdf_for_session: nil strips per page cannot divide
   * (TypeError), zero raises ZeroDivisionError, a negative count gives no
   * pages.
   */
  function Paged<T>(s: seq<T>, spp: Option<int>): Result<seq<seq<T>>>
  {
    if spp.None? then Err(NilCoerced)
    else if spp.value == 0 then Err(ZeroDivision)
    else if spp.value < 0 then Ok([])
    else Ok(Chunks(s, spp.value))
  }

  /** ruby/lib's default, one strip per track: one page, or ZeroDivisionError for a session without tracks. */
  lemma {:induction false} DefaultOnePage<T>(s: seq<T>)
    ensures Paged(s, Some(|s|)) == (if s == [] then Err(ZeroDivision) else Ok([s]))
  {
  }

  /** `pages.times { |i| strip_pages << all_strip_pages.slice(strips_per_page * i, strips_per_page) }`. */
  method StripPages<T>(all: seq<T>, spp: Option<int>) returns (r: Result<seq<seq<T>>>)
    ensures r == Paged(all, spp)
  {
    if spp.None? {
      return Err(NilCoerced);
    }
    var k := spp.value;
    if k == 0 {
      return Err(ZeroDivision);
    }
    var (pages, rem) := DivMod(|all|, k);
    if rem > 0 {
      pages := pages + 1;
    }
    if k < 0 {
      assert pages <= 0 by {
        assert k * DivMod(|all|, k).0 >= 0;
      }
      r := Ok([]);
      return;
    }
    ChunksCount(all, k);
    var strips: seq<seq<T>> := [];
    var i := 0;
    while i < pages
      invariant 0 <= i <= pages == |Chunks(all, k)|
      invariant strips == Chunks(all, k)[..i]
    {
      ChunkAt(all, k, i);
      strips := strips + [Slice(all, k * i, k)];
      i := i + 1;
    }
    assert strips == Chunks(all, k);
    r := Ok(strips);
  }

  // ----- Time indexes -----

  predicate StrictlySorted(xs: seq<int>)
  {
    forall i, j :: 0 <= i < j < |xs| ==> xs[i] < xs[j]
  }

  /** x placed among the sorted xs, unless it is there already. */
  function Insert(xs: seq<int>, x: int): (r: seq<int>)
    requires StrictlySorted(xs)
    ensures StrictlySorted(r) && forall y :: y in r <==> y in xs || y == x
    decreases |xs|
  {
    if xs == [] then [x]
    else if x < xs[0] then [x] + xs
    else if x == xs[0] then xs
    else
      var rest := Insert(xs[1..], x);
      assert forall y :: y in xs[1..] ==> xs[0] < y;
      SortedCons(xs[0], rest);
      [xs[0]] + rest
  }

  /** A head below every member of a strictly sorted list keeps it strictly sorted. */
  lemma {:induction false} SortedCons(h: int, r: seq<int>)
    requires StrictlySorted(r) && forall y :: y in r ==> h < y
    ensures StrictlySorted([h] + r)
  {
    forall i, j | 0 <= i < j < |[h] + r|
      ensures ([h] + r)[i] < ([h] + r)[j]
    {
      if i == 0 {
        assert ([h] + r)[j] == r[j - 1] && r[j - 1] in r;
      }
    }
  }

  /** `uniq.sort` on integers. */
  function SortedUnique(xs: seq<int>): (r: seq<int>)
    ensures StrictlySorted(r) && forall y :: y in r <==> y in xs
    decreases |xs|
  {
    if xs == [] then [] else Insert(SortedUnique(xs[..|xs| - 1]), xs[|xs| - 1])
  }

  /** Two strictly sorted lists with the same members are the same list. */
  lemma {:induction false} StrictlySortedUnique(a: seq<int>, b: seq<int>)
    requires StrictlySorted(a) && StrictlySorted(b) && forall y :: y in a <==> y in b
    ensures a == b
    decreases |a|
  {
    if a != [] {
      assert a[0] in a;
    }
    if b != [] {
      assert b[0] in b;
    }
    if a != [] && b != [] {
      assert a[0] == b[0];
      forall y
        ensures y in a[1..] <==> y in b[1..]
      {
        if y in a[1..] {
          assert y in a && y != a[0];
        }
        if y in b[1..] {
          assert y in b && y != b[0];
        }
      }
      StrictlySortedUnique(a[1..], b[1..]);
      assert a == [a[0]] + a[1..] && b == [b[0]] + b[1..];
    }
  }

  /** `inject([]) { |memo, region| memo << region.start; memo << region.finish }`. */
  function TimePoints(rs: seq<Region>): (ts: seq<int>)
    ensures forall t :: t in ts <==> exists x :: x in rs && (x.start == t || x.finish == t)
    decreases |rs|
  {
    if rs == [] then []
    else
      var last := rs[|rs| - 1];
      assert forall x :: x in rs <==> x in rs[..|rs| - 1] || x == last;
      TimePoints(rs[..|rs| - 1]) + [last.start, last.finish]
  }

  /**
   * The time indexes: every start and finish of the regions shown, once
   * each, in increasing order; any list with those properties is this one.
   */
  function TimeIndexes(rs: seq<Region>): (ts: seq<int>)
    ensures StrictlySorted(ts)
    ensures forall t :: t in ts <==> exists x :: x in rs && (x.start == t || x.finish == t)
  {
    SortedUnique(TimePoints(rs))
  }

  /** The time indexes are the only strictly increasing list of the starts and finishes. */
  lemma {:induction false} TimeIndexesCanonical(rs: seq<Region>, ts: seq<int>)
    requires StrictlySorted(ts)
    requires forall t :: t in ts <==> exists x :: x in rs && (x.start == t || x.finish == t)
    ensures ts == TimeIndexes(rs)
  {
    StrictlySortedUnique(ts, TimeIndexes(rs));
  }

  /** The strip pages for a positive count: the tracks in order, ceil(n / k) pages, each full but the last. */
  lemma {:induction false} PagedStrips<T>(s: seq<T>, k: nat)
    requires k > 0
    ensures Paged(s, Some(k)).Ok?
    ensures var p := Paged(s, Some(k)).value;
      Flatten(p) == s
      && |p| == DivMod(|s|, k).0 + (if DivMod(|s|, k).1 > 0 then 1 else 0)
      && (forall i :: 0 <= i < |p| - 1 ==> |p[i]| == k)
      && (p != [] ==> 0 < |p[|p| - 1]| <= k)
  {
    ChunksFlatten(s, k);
    ChunksCount(s, k);
    ChunksSizes(s, k);
  }

  // ----- The cue sheet -----

  class Cuesheet {
    const version: SheetVersion
    /** `@session.tracks`, which display_tracks reads. */
    var tracks: seq<TrackValue>
    var stripsPerPage: Option<int>
    var hideMutedRegions: bool
    var timeFontSize: Option<Value>
    var finishTimeFontSize: Option<Value>
    var cueFontSize: Option<Value>
    var paperOrientation: Option<string>
    var minClosedCueLength: Option<int>
    var shading: Option<Naming.Shading>
    var proportional: bool
    var styler: Styler

    /**
     * Cuesheet.new(s): ruby/lib sets one strip per track and the sheet's
     * styles; branch_1 sets the fonts, orientation and shortest closed
     * cue. Every other attribute is nil.
     */
    constructor (v: SheetVersion, ts: seq<TrackValue>)
      ensures version == v && tracks == ts && !hideMutedRegions && !proportional
      ensures fresh(styler) && styler.version == v && styler.attributes == SheetStyles(v)
      ensures cueFontSize.None? && shading.None?
      ensures v == RubyLib ==> stripsPerPage == Some(|ts|)
                               && timeFontSize.None? && finishTimeFontSize.None? && paperOrientation.None?
                               && minClosedCueLength.None?
      ensures v == Branch1Lib ==> stripsPerPage.None?
                                  && timeFontSize == Some(Int(13)) && finishTimeFontSize == Some(Int(11))
                                  && paperOrientation == Some("landscape") && minClosedCueLength == Some(600)
    {
      var style := SheetStyler(v);
      version := v;
      tracks := ts;
      hideMutedRegions, proportional := false, false;
      cueFontSize, shading := None, None;
      if v == RubyLib {
        stripsPerPage := Some(|ts|);
        timeFontSize, finishTimeFontSize, paperOrientation, minClosedCueLength := None, None, None, None;
      } else {
        stripsPerPage := None;
        timeFontSize, finishTimeFontSize := Some(Int(13)), Some(Int(11));
        paperOrientation, minClosedCueLength := Some("landscape"), Some(600);
      }
      styler := style;
    }

    /**
     * The settings ruby/lib's pdf_for_session makes before it draws: the
     * time, finish time and cue name sizes from the styler, landscape
     * paper, 600 divisions as the shortest closed cue, shading of every
     * region and proportional spacing. branch_1's pdf_for_session reads
     * what its constructor set and changes nothing.
     */
    method PrepareToPrint()
      modifies this
      ensures version == RubyLib ==>
        timeFontSize == StyleValue(styler.attributes, version, TimeStyle, Size)
        && finishTimeFontSize == StyleValue(styler.attributes, version, FinishTimeStyle, Size)
        && cueFontSize == StyleValue(styler.attributes, version, RegionNameStyle, Size)
        && paperOrientation == Some("landscape") && minClosedCueLength == Some(600)
        && shading == Some(Naming.ShadeAll) && proportional
      ensures version == Branch1Lib ==>
        timeFontSize == old(timeFontSize) && finishTimeFontSize == old(finishTimeFontSize)
        && cueFontSize == old(cueFontSize) && paperOrientation == old(paperOrientation)
        && minClosedCueLength == old(minClosedCueLength) && shading == old(shading) && proportional == old(proportional)
      ensures tracks == old(tracks) && stripsPerPage == old(stripsPerPage) && hideMutedRegions == old(hideMutedRegions)
      ensures styler == old(styler) && styler.attributes == old(styler.attributes)
    {
      if version == RubyLib {
        timeFontSize := styler.Get(TimeStyle, Size);
        finishTimeFontSize := styler.Get(FinishTimeStyle, Size);
        paperOrientation := Some("landscape");
        minClosedCueLength := Some(600);
        shading := Some(Naming.ShadeAll);
        cueFontSize := styler.Get(RegionNameStyle, Size);
        proportional := true;
      }
    }

    /**
     * display_regions: every track's regions in track order; asked to
     * hide muted regions, ruby/lib rejects those whose status is 'Unmuted',
     * as the code is written.
     */
    function DisplayedRegions(): (rs: seq<Region>)
      reads this
      requires TracksOk(tracks)
      ensures forall x :: x in rs <==>
        x in DisplayRegions(tracks) && !(version == RubyLib && hideMutedRegions && x.status == Some("Unmuted"))
    {
      ShownAsWritten(DisplayRegions(tracks), version == RubyLib && hideMutedRegions)
    }

    /** The strips of each page, in order. */
    method StripsOfPages() returns (r: Result<seq<seq<TrackValue>>>)
      ensures r == Paged(tracks, stripsPerPage)
    {
      r := StripPages(tracks, stripsPerPage);
    }
  }
}
