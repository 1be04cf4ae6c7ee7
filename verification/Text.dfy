/** Digits, numerals and trimming, as the parsers and printers of both languages need them. */
module Text {

  predicate IsDigit(c: char) {
    '0' <= c <= '9'
  }

  predicate AllDigits(s: string) {
    forall i :: 0 <= i < |s| ==> IsDigit(s[i])
  }

  function DigitValue(c: char): (d: nat)
    requires IsDigit(c)
    ensures d < 10
  {
    c as int - '0' as int
  }

  function DigitChar(d: nat): (c: char)
    requires d < 10
    ensures IsDigit(c) && DigitValue(c) == d
  {
    ('0' as int + d) as char
  }

  /** The number a digit string spells; the empty one spells 0. */
  function Value(s: string): nat
    requires AllDigits(s)
  {
    if s == "" then 0 else Value(s[..|s| - 1]) * 10 + DigitValue(s[|s| - 1])
  }

  /** A number in plain decimal digits. */
  function Decimal(n: nat): (s: string)
    ensures AllDigits(s) && s != ""
  {
    if n < 10 then [DigitChar(n)] else Decimal(n / 10) + [DigitChar(n % 10)]
  }

  lemma {:induction false} ValueOfDecimal(n: nat)
    ensures Value(Decimal(n)) == n
  {
    if n >= 10 {
      var s := Decimal(n);
      assert s[..|s| - 1] == Decimal(n / 10);
      ValueOfDecimal(n / 10);
    }
  }

  function Zeros(k: nat): (s: string)
    ensures |s| == k && AllDigits(s)
  {
    if k == 0 then "" else Zeros(k - 1) + "0"
  }

  /** Zeros in front change nothing. */
  lemma {:induction false} LeadingZeros(k: nat, s: string)
    requires AllDigits(s)
    ensures Value(Zeros(k) + s) == Value(s)
  {
    if s != "" {
      var t := Zeros(k) + s;
      assert t[..|t| - 1] == Zeros(k) + s[..|s| - 1];
      LeadingZeros(k, s[..|s| - 1]);
    } else if k > 0 {
      assert Zeros(k) + s == Zeros(k) && Zeros(k)[..k - 1] == Zeros(k - 1) == Zeros(k - 1) + s;
      LeadingZeros(k - 1, s);
    }
  }

  /** `v` times ten to the `k`. */
  function Shift(v: nat, k: nat): nat {
    if k == 0 then v else 10 * Shift(v, k - 1)
  }

  lemma {:induction false} ShiftTen(v: nat, k: nat)
    ensures Shift(10 * v, k) == 10 * Shift(v, k)
  {
    if k > 0 {
      ShiftTen(v, k - 1);
    }
  }

  /** Zeros behind, up to length `k`. */
  function PadEnd(s: string, k: nat): (p: string)
    ensures |p| == if |s| < k then k else |s|
    ensures AllDigits(s) ==> AllDigits(p)
    decreases k - |s|
  {
    if |s| >= k then s else PadEnd(s + "0", k)
  }

  /** Each zero behind multiplies by ten. */
  lemma {:induction false} PadEndValue(s: string, k: nat)
    requires AllDigits(s) && |s| <= k
    ensures Value(PadEnd(s, k)) == Shift(Value(s), k - |s|)
    decreases k - |s|
  {
    if |s| < k {
      assert (s + "0")[..|s|] == s;
      PadEndValue(s + "0", k);
      ShiftTen(Value(s), k - |s| - 1);
    }
  }

  lemma {:induction false} ValueBound(s: string)
    requires AllDigits(s)
    ensures Value(s) < Shift(1, |s|)
  {
    if s != "" {
      ValueBound(s[..|s| - 1]);
    }
  }

  lemma {:induction false} DecimalLength(n: nat, k: nat)
    requires 0 < k && n < Shift(1, k)
    ensures |Decimal(n)| <= k
  {
    if n >= 10 {
      DecimalLength(n / 10, k - 1);
    }
  }

  lemma ShiftEight()
    ensures Shift(1, 8) == 100_000_000
  {
  }

  // ---------------------------------------------------------------- trimming

  function TrimStart(white: char -> bool, s: string): string {
    if s != "" && white(s[0]) then TrimStart(white, s[1..]) else s
  }

  function TrimEnd(white: char -> bool, s: string): string {
    if s != "" && white(s[|s| - 1]) then TrimEnd(white, s[..|s| - 1]) else s
  }

  function Trim(white: char -> bool, s: string): string {
    TrimEnd(white, TrimStart(white, s))
  }

  /** No whitespace at either end. */
  predicate Tight(white: char -> bool, s: string) {
    s != "" ==> !white(s[0]) && !white(s[|s| - 1])
  }

  lemma TrimOfTight(white: char -> bool, s: string)
    requires Tight(white, s)
    ensures Trim(white, s) == s
  {
  }

  lemma {:induction false} TrimEndKeepsFirst(white: char -> bool, s: string)
    requires s != "" ==> !white(s[0])
    ensures Tight(white, TrimEnd(white, s)) && TrimEnd(white, s) <= s
  {
    if s != "" && white(s[|s| - 1]) {
      TrimEndKeepsFirst(white, s[..|s| - 1]);
    }
  }

  lemma {:induction false} TrimStartFirst(white: char -> bool, s: string)
    ensures var t := TrimStart(white, s); t != "" ==> !white(t[0])
  {
    if s != "" && white(s[0]) {
      TrimStartFirst(white, s[1..]);
    }
  }

  /** Trimming leaves no whitespace at either end, so trimming again changes nothing. */
  lemma TrimIsTight(white: char -> bool, s: string)
    ensures Tight(white, Trim(white, s)) && Trim(white, Trim(white, s)) == Trim(white, s)
  {
    TrimStartFirst(white, s);
    TrimEndKeepsFirst(white, TrimStart(white, s));
    TrimOfTight(white, Trim(white, s));
  }

  predicate AllWhite(white: char -> bool, s: string) {
    forall i :: 0 <= i < |s| ==> white(s[i])
  }

  lemma {:induction false} TrimStartWhite(white: char -> bool, s: string) returns (lead: string)
    ensures s == lead + TrimStart(white, s) && AllWhite(white, lead)
  {
    lead := "";
    if s != "" && white(s[0]) {
      var more := TrimStartWhite(white, s[1..]);
      lead := [s[0]] + more;
      assert s == [s[0]] + s[1..];
    }
  }

  lemma {:induction false} TrimEndWhite(white: char -> bool, s: string) returns (trail: string)
    ensures s == TrimEnd(white, s) + trail && AllWhite(white, trail)
  {
    trail := "";
    if s != "" && white(s[|s| - 1]) {
      var more := TrimEndWhite(white, s[..|s| - 1]);
      trail := more + [s[|s| - 1]];
      assert s == s[..|s| - 1] + [s[|s| - 1]];
    }
  }

  /** Trimming takes white from the two ends, and nothing else from anywhere. */
  lemma TrimTakesWhite(white: char -> bool, s: string) returns (lead: string, trail: string)
    ensures s == lead + Trim(white, s) + trail && AllWhite(white, lead) && AllWhite(white, trail)
  {
    lead := TrimStartWhite(white, s);
    trail := TrimEndWhite(white, TrimStart(white, s));
  }

  /** White space and line ends, as `String.prototype.trim` strips them. */
  predicate IsJsSpace(c: char) {
    c == '\t' || c == '\n' || c == '\U{B}' || c == '\U{C}' || c == '\r' || c == ' ' || c == '\U{A0}' || c == '\U{FEFF}'
    || c == '\U{1680}' || '\U{2000}' <= c <= '\U{200A}' || c == '\U{2028}' || c == '\U{2029}'
    || c == '\U{202F}' || c == '\U{205F}' || c == '\U{3000}'
  }

  /** The code points of the white space and line terminators of section 12 of ECMA-262. */
  lemma JsSpaceIs(c: char)
    ensures IsJsSpace(c) <==>
            var n := c as int;
            || 9 <= n <= 13 || n == 32 || n == 160 || n == 5760 || 8192 <= n <= 8202 || n == 8232 || n == 8233
            || n == 8239 || n == 8287 || n == 12288 || n == 65279
  {
  }

  function JsTrim(s: string): string {
    Trim(IsJsSpace, s)
  }
}
