// Region names: the "-TAG" suffix convention (Region#tag, tag=,
// clean_name, Track#scan_region_name), multi-line names (name_lines) and
// asterisk shading (Region#name and shade?).

module Naming {
  import opened Base

  /** The position of the last occurrence of c in s. */
  function LastIndexOf(s: string, c: char): (r: Option<nat>)
    ensures r.Some? ==> r.value < |s| && s[r.value] == c
                        && forall j :: r.value < j < |s| ==> s[j] != c
    ensures r.None? ==> forall j :: 0 <= j < |s| ==> s[j] != c
  {
    if s == [] then None
    else if s[|s| - 1] == c then Some(|s| - 1)
    else LastIndexOf(s[..|s| - 1], c)
  }

  /**
   * Region#tag: the match of /(.*)-([^-]*)$/ splits a name at its last
   * dash (the greedy group takes everything before it); the tag is the
   * text after that dash, nil when the name has no dash.
   */
  function Tag(name: string): Option<string>
  {
    match LastIndexOf(name, '-')
    case None => None
    case Some(i) => Some(name[i + 1..])
  }

  /** Region#clean_name: the name without its tag suffix. */
  function CleanName(name: string): string
  {
    match LastIndexOf(name, '-')
    case None => name
    case Some(i) => name[..i]
  }

  /** Track#scan_region_name: the clean name and the tag, both from one match. */
  function ScanRegionName(name: string): (r: (string, Option<string>))
    ensures r.1.None? ==> r.0 == name
    ensures r.1.Some? ==> r.0 + "-" + r.1.value == name && '-' !in r.1.value
  {
    TagSplit(name);
    (CleanName(name), Tag(name))
  }

  /** A tagged name is its clean name, a dash and a dash-free tag; an untagged one has no dash. */
  lemma {:induction false} TagSplit(name: string)
    ensures Tag(name).None? <==> '-' !in name
    ensures Tag(name).None? ==> CleanName(name) == name
    ensures Tag(name).Some? ==> CleanName(name) + "-" + Tag(name).value == name
                                && '-' !in Tag(name).value
  {
    match LastIndexOf(name, '-')
    case None =>
    case Some(i) =>
      var t := name[i + 1..];
      assert name == name[..i] + "-" + t;
      forall k | 0 <= k < |t| ensures t[k] != '-' {
        assert t[k] == name[i + 1 + k];
      }
  }

  /**
   * Region#tag=: a tag replaces the existing suffix or is appended after a
   * new dash; nil strips the suffix, and raises when there is none (md is
   * nil and md[1] is sent to nil).
   */
  function WithTag(name: string, tag: Option<string>): (r: Result<string>)
    ensures r.Err? <==> tag.None? && '-' !in name
  {
    TagSplit(name);
    match tag
    case Some(s) =>
      if Tag(name).Some? then Ok(CleanName(name) + "-" + s) else Ok(name + "-" + s)
    case None =>
      if Tag(name).Some? then Ok(CleanName(name)) else Err(NoMethodOnNil("[]"))
  }

  /** The last dash of `x + "-" + s` is the one before s when s has none. */
  lemma {:induction false} LastDashOfJoin(x: string, s: string)
    requires '-' !in s
    ensures LastIndexOf(x + "-" + s, '-') == Some(|x|)
  {
    var n := x + "-" + s;
    forall j | |x| < j < |n| ensures n[j] != '-' {
      assert n[j] == s[j - |x| - 1];
    }
    LastIndexUnique(n, '-', |x|);
  }

  lemma {:induction false} LastIndexUnique(s: string, c: char, i: nat)
    requires i < |s| && s[i] == c && forall j :: i < j < |s| ==> s[j] != c
    ensures LastIndexOf(s, c) == Some(i)
  {
    var r := LastIndexOf(s, c);
    assert r.Some? by { assert s[i] == c; }
  }

  /**
   * Setting a dash-free tag makes it the tag and keeps the clean name: the
   * round trip of tag= and tag / clean_name.
   */
  lemma {:induction false} SetTagRoundTrip(name: string, s: string)
    requires '-' !in s
    ensures WithTag(name, Some(s)).Ok?
    ensures Tag(WithTag(name, Some(s)).value) == Some(s)
    ensures CleanName(WithTag(name, Some(s)).value) == CleanName(name)
  {
    TagSplit(name);
    LastDashOfJoin(CleanName(name), s);
    LastDashOfJoin(name, s);
    var n := WithTag(name, Some(s)).value;
    if Tag(name).Some? {
      assert n == CleanName(name) + "-" + s;
      assert n[|CleanName(name)| + 1..] == s;
      assert n[..|CleanName(name)|] == CleanName(name);
    } else {
      assert n == name + "-" + s;
      assert n[|name| + 1..] == s;
      assert n[..|name|] == name;
    }
  }

  /** Stripping the tag of a tagged name leaves its clean name. */
  lemma {:induction false} ClearTag(name: string)
    requires '-' in name
    ensures WithTag(name, None) == Ok(CleanName(name))
  {
    TagSplit(name);
  }

  // ----- name_lines -----

  /** The fields of s between occurrences of c, empty ones included. */
  function Fields(s: string, c: char): (r: seq<string>)
    ensures |r| > 0
  {
    if s == [] then [[]]
    else
      var f := Fields(s[..|s| - 1], c);
      if s[|s| - 1] == c then f + [[]] else f[..|f| - 1] + [f[|f| - 1] + [s[|s| - 1]]]
  }

  /** The fields joined with c between them. */
  function Join(fs: seq<string>, c: char): string
  {
    if fs == [] then [] else if |fs| == 1 then fs[0] else Join(fs[..|fs| - 1], c) + [c] + fs[|fs| - 1]
  }

  /** Splitting at c and joining with c gives the text back. */
  lemma {:induction false} FieldsJoin(s: string, c: char)
    ensures Join(Fields(s, c), c) == s
  {
    if s != [] {
      var p := s[..|s| - 1];
      var x := s[|s| - 1];
      FieldsJoin(p, c);
      var f := Fields(p, c);
      assert s == p + [x];
      if x != c {
        var g := f[..|f| - 1] + [f[|f| - 1] + [x]];
        if |f| > 1 {
          JoinExtendLast(f, x, c);
        }
      } else {
        JoinSnoc(f, [], c);
      }
    }
  }

  lemma {:induction false} JoinSnoc(f: seq<string>, y: string, c: char)
    requires |f| > 0
    ensures Join(f + [y], c) == Join(f, c) + [c] + y
  {
    assert (f + [y])[..|f|] == f;
  }

  lemma {:induction false} JoinExtendLast(f: seq<string>, x: char, c: char)
    requires |f| > 1
    ensures Join(f[..|f| - 1] + [f[|f| - 1] + [x]], c) == Join(f, c) + [x]
  {
    var g := f[..|f| - 1] + [f[|f| - 1] + [x]];
    assert g[..|g| - 1] == f[..|f| - 1];
    assert f == f[..|f| - 1] + [f[|f| - 1]];
  }

  /** No field holds the separator. */
  lemma {:induction false} FieldsFree(s: string, c: char)
    ensures forall k :: 0 <= k < |Fields(s, c)| ==> c !in Fields(s, c)[k]
  {
    if s != [] {
      FieldsFree(s[..|s| - 1], c);
    }
  }

  /** String#split with a one-character separator: trailing empty fields are dropped. */
  function RubySplit(s: string, c: char): seq<string>
  {
    DropTrailingEmpty(Fields(s, c))
  }

  function DropTrailingEmpty(fs: seq<string>): (r: seq<string>)
    ensures r <= fs && (r != [] ==> r[|r| - 1] != [])
    ensures forall k :: |r| <= k < |fs| ==> fs[k] == []
  {
    if fs == [] then []
    else if fs[|fs| - 1] == [] then DropTrailingEmpty(fs[..|fs| - 1])
    else fs
  }

  /**
   * Region#name_lines: the name split at the line break, with one leading
   * empty line dropped; without a line break the name is the one line.
   */
  function NameLines(name: string, lineBreak: Option<char>): seq<string>
  {
    match lineBreak
    case None => [name]
    case Some(c) =>
      var a := RubySplit(name, c);
      if |a| > 0 && a[0] == [] then a[1..] else a
  }

  /**
   * The lines of a name are a run of its fields between line breaks: a
   * leading empty field is skipped, only empty fields follow the run, and
   * the last line is not empty.
   */
  lemma {:induction false} NameLinesFields(name: string, c: char)
    ensures var f := Fields(name, c); var d := if f[0] == [] then 1 else 0;
      var lines := NameLines(name, Some(c));
      d + |lines| <= |f| && lines == f[d..d + |lines|]
      && (forall k :: d + |lines| <= k < |f| ==> f[k] == [])
      && (lines != [] ==> lines[|lines| - 1] != [])
  {
    var f := Fields(name, c);
    var a := RubySplit(name, c);
    if a != [] {
      assert a[0] == f[0];
    }
  }

  /** No line of a name holds a line break. */
  lemma {:induction false} NameLinesFree(name: string, c: char)
    ensures forall k :: 0 <= k < |NameLines(name, Some(c))| ==> c !in NameLines(name, Some(c))[k]
  {
    FieldsFree(name, c);
    NameLinesFields(name, c);
    var f := Fields(name, c);
    var d := if f[0] == [] then 1 else 0;
    var lines := NameLines(name, Some(c));
    forall k | 0 <= k < |lines| ensures c !in lines[k] {
      assert lines[k] == f[d + k];
    }
  }

  // ----- shading -----

  /** Session#shading: which regions a cue sheet shades. */
  datatype Shading = ShadeAll | ShadeAsterisks | ShadeNone

  function StartsWithStar(raw: string): bool
  {
    |raw| > 0 && raw[0] == '*'
  }

  /**
   * trunk Region#name: with asterisk shading a leading "*" is dropped
   * (`@region_name[1,256]` also keeps at most 256 characters).
   */
  function DisplayName(raw: string, shading: Shading): (r: string)
    ensures |r| <= |raw|
  {
    if shading == ShadeAsterisks && StartsWithStar(raw) then
      raw[1..if |raw| < 257 then |raw| else 257]
    else raw
  }

  /** Region#shade?. */
  function Shade(raw: string, shading: Shading): bool
  {
    match shading
    case ShadeAll => true
    case ShadeAsterisks => StartsWithStar(raw)
    case ShadeNone => false
  }

  /**
   * Under asterisk shading a name of up to 257 characters is shaded
   * exactly when it is displayed without its star; other shadings show the
   * raw name.
   */
  lemma {:induction false} DisplayNameDropsStar(raw: string, shading: Shading)
    requires |raw| <= 257
    ensures shading == ShadeAsterisks && Shade(raw, shading) ==> "*" + DisplayName(raw, shading) == raw
    ensures !(shading == ShadeAsterisks && Shade(raw, shading)) ==> DisplayName(raw, shading) == raw
    ensures Shade(raw, shading) <==> shading == ShadeAll || (shading == ShadeAsterisks && StartsWithStar(raw))
  {
    if shading == ShadeAsterisks && StartsWithStar(raw) {
      assert raw == [raw[0]] + raw[1..];
    }
  }

  /** A longer starred name loses everything after its 257th character. */
  lemma {:induction false} DisplayNameTruncates(raw: string)
    requires StartsWithStar(raw) && |raw| > 257
    ensures |DisplayName(raw, ShadeAsterisks)| == 256
  {
  }

  // ----- Tags the interpreters know -----

  const LegalTags: seq<string> := ["]", "[", "[[", "]]", "}", "{", "{{", "}}", ">", "<", "<<", ">>", "&", "!", "!!"]

  /** The tags that hold a cue open into the next region. */
  const HoldOpenTags: seq<string> := ["[[", "]]", "{{", "}}", ">>", "<<"]

  /** `legal_tags.include?(region.tag)`: a nil tag is not legal. */
  predicate IsLegal(tag: Option<string>)
  {
    tag.Some? && tag.value in LegalTags
  }

  predicate IsHoldOpen(tag: Option<string>)
  {
    tag.Some? && tag.value in HoldOpenTags
  }

  lemma {:induction false} HoldOpenTagsAreLegal(tag: Option<string>)
    ensures IsHoldOpen(tag) ==> IsLegal(tag)
  {
  }
}
