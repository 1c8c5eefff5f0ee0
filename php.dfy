/**
 * The few PHP built-ins the cashout processor relies on, written out
 * explicitly: `round($x, 2)`, `trim($s)` and the truthiness of a nullable
 * integer.
 */
module Php {
  import opened Wrappers

  /**
   * Money is kept as an integer number of sub-units: one currency unit is
   * 10000 sub-units, so a cent is SUB_PER_CENT sub-units. This leaves two
   * decimal digits below the cent for `round` to remove.
   */
  type Amount = int

  const SUB_PER_CENT: int := 100

  /** True when `a` is a whole number of cents (two decimal digits). */
  predicate IsCents(a: Amount) {
    a % SUB_PER_CENT == 0
  }

  /** PHP `round($x, 2)`: nearest cent, halves rounded away from zero. */
  function RoundToCents(x: Amount): (r: Amount)
    ensures IsCents(r)
    ensures x >= 0 ==> x - SUB_PER_CENT / 2 < r <= x + SUB_PER_CENT / 2
    ensures x < 0 ==> x - SUB_PER_CENT / 2 <= r < x + SUB_PER_CENT / 2
  {
    if x >= 0 then (x + SUB_PER_CENT / 2) / SUB_PER_CENT * SUB_PER_CENT
    else -((-x + SUB_PER_CENT / 2) / SUB_PER_CENT * SUB_PER_CENT)
  }

  /** Within its rounding window, a whole number of cents is the rounded value. */
  lemma RoundToCentsUnique(x: Amount, c: Amount)
    requires IsCents(c)
    requires x >= 0 ==> x - SUB_PER_CENT / 2 < c <= x + SUB_PER_CENT / 2
    requires x < 0 ==> x - SUB_PER_CENT / 2 <= c < x + SUB_PER_CENT / 2
    ensures RoundToCents(x) == c
  {
    var r := RoundToCents(x);
    var d := r - c;
    assert d % SUB_PER_CENT == 0;
    assert -SUB_PER_CENT < d < SUB_PER_CENT;
  }

  /** Rounding an amount that already has two decimals changes nothing. */
  lemma RoundToCentsIdempotent(x: Amount)
    ensures RoundToCents(RoundToCents(x)) == RoundToCents(x)
  {
    var r := RoundToCents(x);
    RoundToCentsUnique(r, r);
  }

  /** `round` preserves the order of amounts. */
  lemma RoundToCentsMonotone(x: Amount, y: Amount)
    requires x <= y
    ensures RoundToCents(x) <= RoundToCents(y)
  {
    var rx, ry := RoundToCents(x), RoundToCents(y);
    assert rx < ry + SUB_PER_CENT;
    var a, b := rx / SUB_PER_CENT, ry / SUB_PER_CENT;
    assert rx == a * SUB_PER_CENT && ry == b * SUB_PER_CENT;
    assert a < b + 1;
  }

  /** The characters PHP's `trim` strips by default: " \t\n\r\0\x0B". */
  predicate IsTrimChar(c: char) {
    c == ' ' || c == '\t' || c == '\n' || c == '\r' || c == '\0' || c == '\U{B}'
  }

  /** True when every character of `s` is a trim character. */
  predicate AllTrimChars(s: string) {
    forall k :: 0 <= k < |s| ==> IsTrimChar(s[k])
  }

  /** Drops the leading trim characters of `s`. */
  function TrimLeft(s: string): (r: string)
    ensures |r| <= |s|
  {
    if |s| > 0 && IsTrimChar(s[0]) then TrimLeft(s[1..]) else s
  }

  /** Drops the trailing trim characters of `s`. */
  function TrimRight(s: string): (r: string)
    ensures |r| <= |s|
  {
    if |s| > 0 && IsTrimChar(s[|s| - 1]) then TrimRight(s[..|s| - 1]) else s
  }

  /** `TrimLeft` removes exactly the run of trim characters at the front. */
  lemma {:induction false} TrimLeftStrips(s: string)
    ensures var r := TrimLeft(s);
      && r == s[|s| - |r|..] && AllTrimChars(s[..|s| - |r|])
      && (r == [] || !IsTrimChar(r[0]))
    decreases |s|
  {
    if |s| > 0 && IsTrimChar(s[0]) {
      TrimLeftStrips(s[1..]);
      var r := TrimLeft(s);
      assert s[..|s| - |r|] == [s[0]] + s[1..][..|s| - 1 - |r|];
    }
  }

  /** `TrimRight` removes exactly the run of trim characters at the back. */
  lemma {:induction false} TrimRightStrips(s: string)
    ensures var r := TrimRight(s);
      && r == s[..|r|] && AllTrimChars(s[|r|..])
      && (r == [] || !IsTrimChar(r[|r| - 1]))
    decreases |s|
  {
    if |s| > 0 && IsTrimChar(s[|s| - 1]) {
      TrimRightStrips(s[..|s| - 1]);
      var r := TrimRight(s);
      assert s[|r|..] == s[..|s| - 1][|r|..] + [s[|s| - 1]];
    }
  }

  /** PHP `trim($s)`: strips trim characters from both ends. */
  function Trim(s: string): (r: string)
    ensures |r| <= |s|
  {
    TrimLeft(TrimRight(s))
  }

  /**
   * What `trim` leaves: `s` is the result surrounded by trim characters
   * only, and the result neither starts nor ends with one.
   */
  lemma TrimSurrounded(s: string)
    ensures var r := Trim(s);
      && (exists i :: 0 <= i <= |s| && r <= s[i..] && AllTrimChars(s[..i]) && AllTrimChars(s[i..][|r|..]))
      && (r == [] || (!IsTrimChar(r[0]) && !IsTrimChar(r[|r| - 1])))
  {
    var right := TrimRight(s);
    TrimRightStrips(s);
    TrimLeftStrips(right);
    var r := TrimLeft(right);
    var i := |right| - |r|;
    assert r == right[i..];
    assert s[i..][..|r|] == r;
    assert s[..i] == right[..i];
    assert AllTrimChars(s[..i]);
    assert s[i..][|r|..] == s[|right|..];
    assert AllTrimChars(s[i..][|r|..]);
    if r != [] {
      assert r[|r| - 1] == right[|right| - 1];
    }
  }

  /** Trimming twice is trimming once. */
  lemma TrimIdempotent(s: string)
    ensures Trim(Trim(s)) == Trim(s)
  {
    var t := Trim(s);
    TrimSurrounded(s);
    if t != [] {
      assert !IsTrimChar(t[|t| - 1]);
      assert TrimRight(t) == t;
      assert !IsTrimChar(t[0]);
      assert TrimLeft(t) == t;
    }
  }

  /**
   * PHP truthiness of a nullable integer id: `if ($id)` is false for
   * `null` and for `0`.
   */
  predicate IsTruthy(id: Option<int>) {
    id.Some? && id.value != 0
  }
}
