// Shared vocabulary: optional values, results carrying the Ruby exception
// a call would raise, and the integer/string conversions the cue engine
// performs with to_s, to_i and "%02i".

module Base {

  datatype Option<T> = None | Some(value: T)

  /** The exceptions the modelled Ruby code can raise. */
  datatype Failure =
    | NoMethodOnNil(selector: string)      // NoMethodError: `selector` sent to nil
    | UndefinedName(name: string)          // NameError: a method that is not defined where it is called
    | NilFrameRate                         // TypeError: `divs_per_second / nil`
    | ZeroDivision                         // ZeroDivisionError
    | NilCoerced                           // TypeError: nil can't be coerced into Integer
    | InSession(cause: Failure, title: string)  // re-raised with the session title appended

  datatype Result<T> = Ok(value: T) | Err(error: Failure)

  predicate IsDigit(c: char) { '0' <= c <= '9' }

  predicate AllDigits(s: string) { forall i :: 0 <= i < |s| ==> IsDigit(s[i]) }

  /** The value of a digit character. */
  function DigitValue(c: char): int
  {
    c as int - '0' as int
  }

  function DigitChar(d: nat): (c: char)
    requires d < 10
    ensures IsDigit(c) && DigitValue(c) == d
  {
    ('0' as int + d) as char
  }

  /** Decimal value of a run of digits (Ruby's to_i on such a run). */
  function DigitsValue(s: string): int
  {
    if s == [] then 0 else DigitsValue(s[..|s| - 1]) * 10 + DigitValue(s[|s| - 1])
  }

  /** Decimal text of a natural number (Ruby's Integer#to_s, "%i"). */
  function NatToString(n: nat): string
  {
    if n < 10 then [DigitChar(n)] else NatToString(n / 10) + [DigitChar(n % 10)]
  }

  /** The decimal text of n is a non-empty run of digits whose value is n. */
  lemma {:induction false} NatToStringDigits(n: nat)
    ensures |NatToString(n)| > 0 && AllDigits(NatToString(n))
    ensures DigitsValue(NatToString(n)) == n
  {
    if n >= 10 {
      var s := NatToString(n);
      assert s[..|s| - 1] == NatToString(n / 10);
      NatToStringDigits(n / 10);
    }
  }

  /** Integer#to_s and "%i": a minus sign for negative values. */
  function IntToString(i: int): string
  {
    if i < 0 then "-" + NatToString(-i) else NatToString(i)
  }

  /** "%02i" of a non-negative value: at least two digits, zero padded. */
  function Pad2(n: nat): string
  {
    if n < 10 then "0" + NatToString(n) else NatToString(n)
  }

  lemma {:induction false} Pad2Digits(n: nat)
    ensures |Pad2(n)| >= 2 && AllDigits(Pad2(n)) && DigitsValue(Pad2(n)) == n
    ensures n < 100 ==> |Pad2(n)| == 2
  {
    NatToStringDigits(n);
    if n < 10 {
      var s := Pad2(n);
      assert s[..|s| - 1] == "0";
    } else {
      NatToStringDigits(n / 10);
      if n >= 100 { NatToStringDigits(n / 100); }
    }
  }

  /** Number of leading characters of `s` from `p` that are digits. */
  function DigitRun(s: string, p: nat): (n: nat)
    requires p <= |s|
    ensures p + n <= |s|
    ensures p + n < |s| ==> !IsDigit(s[p + n])
    ensures forall i :: p <= i < p + n ==> IsDigit(s[i])
    decreases |s| - p
  {
    if p < |s| && IsDigit(s[p]) then 1 + DigitRun(s, p + 1) else 0
  }

  /**
   * Ruby's String#to_i: an optional sign and the leading run of digits;
   * 0 when there is none.
   */
  function ToI(s: string): int
  {
    if |s| > 0 && (s[0] == '-' || s[0] == '+') then
      var n := DigitRun(s, 1);
      var v := DigitsValue(s[1..1 + n]);
      if s[0] == '-' then -v else v
    else
      var n := DigitRun(s, 0);
      DigitsValue(s[..n])
  }

  lemma {:induction false} ToIOfNatToString(n: nat)
    ensures ToI(NatToString(n)) == n
  {
    NatToStringDigits(n);
    var s := NatToString(n);
    assert s[0] != '-' && s[0] != '+' by { assert IsDigit(s[0]); }
    var k := DigitRun(s, 0);
    assert k == |s|;
    assert s[..|s|] == s;
  }

  /** `p` occurs in `s` at position `i`. */
  predicate OccursAt(s: string, p: string, i: nat)
  {
    i + |p| <= |s| && s[i..i + |p|] == p
  }

  /** Ruby's `s =~ /p/` for a literal pattern `p`. */
  predicate Contains(s: string, p: string)
  {
    exists i: nat | i <= |s| :: OccursAt(s, p, i)
  }

  /** Concatenation of a sequence of sequences. */
  function Flatten<T>(xss: seq<seq<T>>): seq<T>
  {
    if xss == [] then [] else xss[0] + Flatten(xss[1..])
  }

  lemma {:induction false} FlattenAppend<T>(xss: seq<seq<T>>, ys: seq<T>)
    ensures Flatten(xss + [ys]) == Flatten(xss) + ys
  {
    if xss != [] {
      assert (xss + [ys])[1..] == xss[1..] + [ys];
      FlattenAppend(xss[1..], ys);
    }
  }
}
