/** The JavaScript values and operators the system relies on: the scalar
    values a parsed JSON body can hold, the two defaulting operators `??`
    and `||`, string conversion as done by template literals, and
    `String.prototype.trim`. */
module JsValues {

  datatype Option<+T> = None | Some(value: T)

  /** A JSON scalar as seen by JavaScript code, or `undefined` for a
      property that is absent. Numbers are restricted to integers. */
  datatype JsVal = Undefined | Null | Bool(b: bool) | Num(n: int) | Str(s: string)

  /** `undefined` and `null`: the only values `??` replaces. */
  predicate IsNullish(v: JsVal) {
    v.Undefined? || v.Null?
  }

  /** The values `||` replaces: nullish values, `false`, `0` and `""`. */
  predicate IsFalsy(v: JsVal) {
    match v
    case Undefined => true
    case Null => true
    case Bool(b) => !b
    case Num(n) => n == 0
    case Str(s) => s == ""
  }

  /** `v ?? d` */
  function Coalesce(v: JsVal, d: JsVal): JsVal {
    if IsNullish(v) then d else v
  }

  /** `v || d` */
  function Or(v: JsVal, d: JsVal): JsVal {
    if IsFalsy(v) then d else v
  }

  /** `??` keeps every non-nullish value, `||` every truthy one; they part
      ways exactly on `false`, `0` and `""`. */
  lemma CoalesceAndOr(v: JsVal, d: JsVal)
    ensures !IsNullish(v) ==> Coalesce(v, d) == v
    ensures IsNullish(v) ==> Coalesce(v, d) == d && Or(v, d) == d
    ensures !IsFalsy(v) ==> Or(v, d) == v && Coalesce(v, d) == v
    ensures IsFalsy(v) && !IsNullish(v) && v != d ==> Coalesce(v, d) != Or(v, d)
  {
  }

  /** `v || ""` on a value that is a string when present. */
  function OrText(v: Option<string>, d: string): (r: string)
    ensures v.Some? && v.value != "" ==> r == v.value
    ensures v.None? || v.value == "" ==> r == d
  {
    match v
    case Some(s) => if s != "" then s else d
    case None => d
  }

  // ---------------------------------------------------------------------
  // String conversion (`${v}` in a template literal, `String(v)`)
  // ---------------------------------------------------------------------

  function DigitChar(d: nat): (c: char)
    requires d < 10
    ensures '0' <= c <= '9' && c as int - '0' as int == d
  {
    "0123456789"[d]
  }

  /** Decimal digits of a natural number, most significant first. */
  function NatToDecimal(n: nat): (r: string)
    ensures |r| >= 1
    ensures forall i :: 0 <= i < |r| ==> '0' <= r[i] <= '9'
    decreases n
  {
    if n < 10 then [DigitChar(n)] else NatToDecimal(n / 10) + [DigitChar(n % 10)]
  }

  /** The number a string of decimal digits denotes. */
  function DecimalValue(s: string): nat
    requires forall i :: 0 <= i < |s| ==> '0' <= s[i] <= '9'
  {
    if s == [] then 0
    else DecimalValue(s[..|s| - 1]) * 10 + (s[|s| - 1] as int - '0' as int)
  }

  /** The decimal text of a number reads back as that number. */
  lemma {:induction false} DecimalRoundTrip(n: nat)
    ensures DecimalValue(NatToDecimal(n)) == n
    decreases n
  {
    if n >= 10 {
      var r := NatToDecimal(n);
      assert r[..|r| - 1] == NatToDecimal(n / 10);
      DecimalRoundTrip(n / 10);
    }
  }

  /** `String(v)` for a scalar value. */
  function ToStr(v: JsVal): (r: string)
    ensures v.Str? ==> r == v.s
  {
    match v
    case Undefined => "undefined"
    case Null => "null"
    case Bool(b) => if b then "true" else "false"
    case Num(n) =>
      if n < 0 then "-" + NatToDecimal(-n) else NatToDecimal(n)
    case Str(s) => s
  }

  // ---------------------------------------------------------------------
  // String.prototype.trim
  // ---------------------------------------------------------------------

  /** The characters ECMAScript counts as WhiteSpace or LineTerminator. */
  predicate IsJsSpace(c: char) {
    c == '\t' || c == '\n' || c == '\U{000B}' || c == '\U{000C}' || c == '\r' ||
    c == ' ' || c == '\U{00A0}' || c == '\U{1680}' ||
    ('\U{2000}' <= c <= '\U{200A}') ||
    c == '\U{2028}' || c == '\U{2029}' || c == '\U{202F}' || c == '\U{205F}' ||
    c == '\U{3000}' || c == '\U{FEFF}'
  }

  predicate AllSpace(s: string) {
    forall i :: 0 <= i < |s| ==> IsJsSpace(s[i])
  }

  /** Every character of `s` at an index in `[lo, hi)` is white space. */
  predicate SpaceIn(s: string, lo: int, hi: int) {
    forall k :: lo <= k < hi && 0 <= k < |s| ==> IsJsSpace(s[k])
  }

  /** The longest suffix of `s` that does not start with white space. */
  function TrimStart(s: string): (r: string)
    ensures |r| <= |s| && r == s[|s| - |r|..]
    ensures SpaceIn(s, 0, |s| - |r|)
    ensures r == [] || !IsJsSpace(r[0])
  {
    if s != [] && IsJsSpace(s[0]) then TrimStart(s[1..]) else s
  }

  /** The longest prefix of `s` that does not end with white space. */
  function TrimEnd(s: string): (r: string)
    ensures |r| <= |s| && r == s[..|r|]
    ensures SpaceIn(s, |r|, |s|)
    ensures r == [] || !IsJsSpace(r[|r| - 1])
  {
    if s != [] && IsJsSpace(s[|s| - 1]) then TrimEnd(s[..|s| - 1]) else s
  }

  /** Where the trim of `s` starts: after its leading white space. */
  function TrimOffset(s: string): nat {
    |s| - |TrimStart(s)|
  }

  /** `r` sits at index `i` of `s`, with only white space around it. */
  predicate TrimmedAt(s: string, r: string, i: nat) {
    i + |r| <= |s| && s[i..i + |r|] == r &&
    SpaceIn(s, 0, i) && SpaceIn(s, i + |r|, |s|)
  }

  /** `s` with the white space at both ends removed: a slice of `s` that
      neither starts nor ends with white space, and everything outside it
      is white space. */
  function Trim(s: string): (r: string)
    ensures TrimmedAt(s, r, TrimOffset(s))
    ensures r == [] || (!IsJsSpace(r[0]) && !IsJsSpace(r[|r| - 1]))
  {
    TrimBothEnds(s);
    TrimEnd(TrimStart(s))
  }

  lemma TrimBothEnds(s: string)
    ensures TrimmedAt(s, TrimEnd(TrimStart(s)), TrimOffset(s))
  {
    var t := TrimStart(s);
    InnerSlice(s, t, TrimEnd(t), |s| - |t|);
  }

  /** A prefix `r` of the suffix `t` of `s` from `k` sits at `k` in `s`,
      and white space after `r` in `t` is white space after it in `s`. */
  lemma InnerSlice(s: string, t: string, r: string, k: nat)
    requires k <= |s| && t == s[k..] && |r| <= |t| && r == t[..|r|]
    requires SpaceIn(s, 0, k) && SpaceIn(t, |r|, |t|)
    ensures TrimmedAt(s, r, k)
  {
    assert s[k..k + |r|] == r;
    forall m | k + |r| <= m < |s| ensures IsJsSpace(s[m]) {
      assert s[m] == t[m - k];
    }
  }

  /** The trim of `s` is empty exactly when `s` is all white space. */
  lemma TrimEmptyIff(s: string)
    ensures Trim(s) == [] <==> AllSpace(s)
  {
    var r := Trim(s);
    var i := TrimOffset(s);
    if r != [] {
      assert s[i] == s[i..i + |r|][0] == r[0];
    }
  }

  /** Any slice of `s` with white space only around it and none at its own
      ends is the trim of `s`. */
  lemma TrimUnique(s: string, t: string, j: nat)
    requires TrimmedAt(s, t, j)
    requires t == [] || (!IsJsSpace(t[0]) && !IsJsSpace(t[|t| - 1]))
    ensures Trim(s) == t
  {
    TrimEmptyIff(s);
    if t == [] {
      assert AllSpace(s);
    } else {
      SameSlice(s, Trim(s), TrimOffset(s), t, j);
    }
  }

  /** Two non-empty slices of `s`, each with white space only around it
      and none at its own ends, are the same slice. */
  lemma SameSlice(s: string, r: string, i: nat, t: string, j: nat)
    requires TrimmedAt(s, r, i) && TrimmedAt(s, t, j) && r != [] && t != []
    requires !IsJsSpace(r[0]) && !IsJsSpace(r[|r| - 1])
    requires !IsJsSpace(t[0]) && !IsJsSpace(t[|t| - 1])
    ensures r == t
  {
    assert s[j] == s[j..j + |t|][0];
    assert s[j + |t| - 1] == s[j..j + |t|][|t| - 1];
    assert s[i] == s[i..i + |r|][0];
    assert s[i + |r| - 1] == s[i..i + |r|][|r| - 1];
    // Both start at the first non-space character of s ...
    assert i == j;
    // ... and end after the last one.
    assert i + |r| == j + |t|;
  }

  /** Trimming a trimmed string changes nothing. */
  lemma TrimIdempotent(s: string)
    ensures Trim(Trim(s)) == Trim(s)
  {
    var r := Trim(s);
    assert TrimmedAt(r, r, 0) by { assert r[0..|r|] == r; }
    TrimUnique(r, r, 0);
  }

  /** White space added around a string does not change its trim. */
  lemma TrimIgnoresPadding(p: string, s: string, q: string)
    requires AllSpace(p) && AllSpace(q)
    ensures Trim(p + s + q) == Trim(s)
  {
    PaddedSlice(p, s, q, Trim(s), TrimOffset(s));
    TrimUnique(p + s + q, Trim(s), |p| + TrimOffset(s));
  }

  lemma PaddedSlice(p: string, s: string, q: string, r: string, i: nat)
    requires AllSpace(p) && AllSpace(q) && TrimmedAt(s, r, i)
    ensures TrimmedAt(p + s + q, r, |p| + i)
  {
    var w := p + s + q;
    var k := |p| + i;
    assert forall m :: 0 <= m < |s| ==> w[|p| + m] == s[m];
    assert w[k..k + |r|] == r by {
      forall m | 0 <= m < |r| ensures w[k..k + |r|][m] == r[m] {
        assert r[m] == s[i..i + |r|][m] == s[i + m];
      }
    }
    forall m | 0 <= m < k ensures IsJsSpace(w[m]) {
      if m < |p| { assert w[m] == p[m]; } else { assert w[m] == s[m - |p|]; }
    }
    forall m | k + |r| <= m < |w| ensures IsJsSpace(w[m]) {
      if m < |p| + |s| { assert w[m] == s[m - |p|]; } else { assert w[m] == q[m - |p| - |s|]; }
    }
  }
}
