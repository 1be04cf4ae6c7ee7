/**
 What `URLSearchParams` and `decodeURIComponent` do to text: UTF-8 (section 4.1 and 8.1 of the
 WHATWG Encoding Standard), percent escapes, and the application/x-www-form-urlencoded format
 (sections 5.1 and 5.2 of the WHATWG URL Standard).  A character is a Unicode scalar value.
 */
module Urls {
  import opened Wrappers

  const REPLACEMENT: char := '\U{FFFD}'

  // ---------------------------------------------------------------- UTF-8

  function Utf8Char(c: char): (bs: seq<Byte>)
    ensures 1 <= |bs| <= 4
  {
    var n := c as int;
    if n < 0x80 then [n]
    else if n < 0x800 then [0xC0 + n / 64, 0x80 + n % 64]
    else if n < 0x10000 then [0xE0 + n / 4096, 0x80 + n / 64 % 64, 0x80 + n % 64]
    else [0xF0 + n / 262144, 0x80 + n / 4096 % 64, 0x80 + n / 64 % 64, 0x80 + n % 64]
  }

  function Utf8(s: string): seq<Byte> {
    if s == "" then [] else Utf8Char(s[0]) + Utf8(s[1..])
  }

  predicate Between(bs: seq<Byte>, i: nat, lo: int, hi: int) {
    i < |bs| && lo <= bs[i] <= hi
  }

  predicate Continues(bs: seq<Byte>, i: nat) {
    Between(bs, i, 0x80, 0xBF)
  }

  /** The six bits a continuation byte carries. */
  function Low(bs: seq<Byte>, i: nat): int
    requires i < |bs|
  {
    bs[i] as int - 0x80
  }

  /** The bytes a second byte of a three-byte character may be: no overlong form, no surrogate. */
  function SecondOfThree(b: int): (int, int) {
    (if b == 0xE0 then 0xA0 else 0x80, if b == 0xED then 0x9F else 0xBF)
  }

  function SecondOfFour(b: int): (int, int) {
    (if b == 0xF0 then 0x90 else 0x80, if b == 0xF4 then 0x8F else 0xBF)
  }

  /** One character and the bytes it takes; a broken one takes as many as could still begin a character. */
  function Utf8Step(bs: seq<Byte>): (r: (char, nat))
    requires bs != []
    ensures 1 <= r.1 <= |bs|
  {
    var b: int := bs[0];
    if b < 0x80 then (b as char, 1)
    else if 0xC2 <= b <= 0xDF then
      if Continues(bs, 1) then (((b - 0xC0) * 64 + Low(bs, 1)) as char, 2) else (REPLACEMENT, 1)
    else if 0xE0 <= b <= 0xEF then
      var (lo, hi) := SecondOfThree(b);
      if !Between(bs, 1, lo, hi) then (REPLACEMENT, 1)
      else if !Continues(bs, 2) then (REPLACEMENT, 2)
      else (((b - 0xE0) * 4096 + Low(bs, 1) * 64 + Low(bs, 2)) as char, 3)
    else if 0xF0 <= b <= 0xF4 then
      var (lo, hi) := SecondOfFour(b);
      if !Between(bs, 1, lo, hi) then (REPLACEMENT, 1)
      else if !Continues(bs, 2) then (REPLACEMENT, 2)
      else if !Continues(bs, 3) then (REPLACEMENT, 3)
      else (((b - 0xF0) * 262144 + Low(bs, 1) * 4096 + Low(bs, 2) * 64 + Low(bs, 3)) as char, 4)
    else (REPLACEMENT, 1)
  }

  function Utf8Decode(bs: seq<Byte>): string {
    if bs == [] then "" else
    var (c, n) := Utf8Step(bs);
    [c] + Utf8Decode(bs[n..])
  }

  lemma StepTwo(c: char, bs: seq<Byte>)
    requires 0x80 <= c as int < 0x800 && Utf8Char(c) <= bs
    ensures Utf8Step(bs) == (c, 2)
  {
  }

  lemma StepThree(c: char, bs: seq<Byte>)
    requires 0x800 <= c as int < 0x10000 && Utf8Char(c) <= bs
    ensures Utf8Step(bs) == (c, 3)
  {
    assert bs[0] == Utf8Char(c)[0] && bs[1] == Utf8Char(c)[1] && bs[2] == Utf8Char(c)[2];
  }

  lemma SixBitDigits(n: nat)
    requires 0x10000 <= n < 0x11_0000
    ensures n == n / 262144 * 262144 + n / 4096 % 64 * 4096 + n / 64 % 64 * 64 + n % 64
    ensures n / 262144 <= 4
    ensures n / 262144 == 0 ==> n / 4096 % 64 >= 16
    ensures n / 262144 == 4 ==> n / 4096 % 64 < 16
  {
  }

  lemma StepFour(c: char, bs: seq<Byte>)
    requires 0x10000 <= c as int && Utf8Char(c) <= bs
    ensures Utf8Step(bs) == (c, 4)
  {
    SixBitDigits(c as int);
    assert bs[0] == Utf8Char(c)[0] && bs[1] == Utf8Char(c)[1] && bs[2] == Utf8Char(c)[2] && bs[3] == Utf8Char(c)[3];
  }

  lemma {:induction false} StepChar(c: char, bs: seq<Byte>)
    requires Utf8Char(c) <= bs
    ensures Utf8Step(bs) == (c, |Utf8Char(c)|)
  {
    var n := c as int;
    if n < 0x80 {
      assert bs[0] == Utf8Char(c)[0];
    } else if n < 0x800 {
      StepTwo(c, bs);
    } else if n < 0x10000 {
      StepThree(c, bs);
    } else {
      StepFour(c, bs);
    }
  }

  /** Encoded text decodes to itself. */
  lemma {:induction false} Utf8RoundTrip(s: string)
    ensures Utf8Decode(Utf8(s)) == s
  {
    if s != "" {
      var bs := Utf8(s);
      StepChar(s[0], bs);
      assert bs[|Utf8Char(s[0])|..] == Utf8(s[1..]);
      Utf8RoundTrip(s[1..]);
    }
  }

  // ---------------------------------------------------------------- percent escapes

  predicate IsUpper(c: char) {
    'A' <= c <= 'Z'
  }

  predicate IsLower(c: char) {
    'a' <= c <= 'z'
  }

  predicate IsAlnum(c: char) {
    '0' <= c <= '9' || IsUpper(c) || IsLower(c)
  }

  function HexValue(c: char): Option<Byte> {
    if '0' <= c <= '9' then Some(c as int - '0' as int)
    else if 'A' <= c <= 'F' then Some(c as int - 'A' as int + 10)
    else if 'a' <= c <= 'f' then Some(c as int - 'a' as int + 10)
    else None
  }

  function HexChar(d: nat): (c: char)
    requires d < 16
    ensures HexValue(c) == Some(d) && (IsUpper(c) || '0' <= c <= '9')
  {
    if d < 10 then ('0' as int + d) as char else ('A' as int + d - 10) as char
  }

  /** The byte an escape at the front of `s` stands for. */
  function Escape(s: string): (b: Option<Byte>)
    ensures b.Some? ==> |s| >= 3 && s[0] == '%'
  {
    if |s| < 3 || s[0] != '%' then None else
    var (hi, lo) := (HexValue(s[1]), HexValue(s[2]));
    if hi.Some? && lo.Some? && hi.value < 16 && lo.value < 16 then Some(hi.value * 16 + lo.value) else None
  }

  /** A hex digit, in either case. */
  lemma HexIs(c: char, d: nat)
    requires d < 16
    ensures HexValue(c).Some? && HexValue(c).value as int == d <==> c == "0123456789ABCDEF"[d] || c == "0123456789abcdef"[d]
    ensures HexValue(c).Some? ==> HexValue(c).value as int < 16
  {
  }

  /** An escape is a percent sign and two hex digits, the high one first, and nothing else is one. */
  lemma EscapeReads(s: string)
    ensures Escape(s).Some? <==> |s| >= 3 && s[0] == '%' && HexValue(s[1]).Some? && HexValue(s[2]).Some?
    ensures Escape(s).Some? ==> Escape(s).value as int == HexValue(s[1]).value as int * 16 + HexValue(s[2]).value as int
  {
  }

  function Percent(b: Byte): (s: string)
    ensures |s| == 3 && Escape(s) == Some(b)
  {
    ['%', HexChar(b / 16), HexChar(b % 16)]
  }

  function PercentAll(bs: seq<Byte>): string {
    if bs == [] then "" else Percent(bs[0]) + PercentAll(bs[1..])
  }

  // ---------------------------------------------------------------- form-urlencoded names and values

  /** What is written as it is. */
  predicate Unescaped(c: char) {
    IsAlnum(c) || c == '*' || c == '-' || c == '.' || c == '_'
  }

  function FormChar(c: char): string {
    if Unescaped(c) then [c] else if c == ' ' then "+" else PercentAll(Utf8Char(c))
  }

  function FormEncode(s: string): string {
    if s == "" then "" else FormChar(s[0]) + FormEncode(s[1..])
  }

  /** The bytes meant: `+` is a space, an escape its byte, and a broken escape itself. */
  function FormBytes(s: string): seq<Byte> {
    if s == "" then []
    else if s[0] == '+' then [0x20] + FormBytes(s[1..])
    else if Escape(s).Some? then [Escape(s).value] + FormBytes(s[3..])
    else Utf8Char(s[0]) + FormBytes(s[1..])
  }

  function FormDecode(s: string): string {
    Utf8Decode(FormBytes(s))
  }

  /** The characters that encoded text is made of. */
  predicate IsFormChar(c: char) {
    Unescaped(c) || c == '+' || c == '%'
  }

  predicate AllForm(s: string) {
    forall i :: 0 <= i < |s| ==> IsFormChar(s[i])
  }

  lemma {:induction false} PercentAllForm(bs: seq<Byte>)
    ensures AllForm(PercentAll(bs))
  {
    if bs != [] {
      PercentAllForm(bs[1..]);
    }
  }

  lemma {:induction false} FormEncodeForm(s: string)
    ensures AllForm(FormEncode(s))
  {
    if s != "" {
      PercentAllForm(Utf8Char(s[0]));
      FormEncodeForm(s[1..]);
    }
  }

  lemma EscapedByte(b: Byte, rest: string)
    ensures Escape(Percent(b) + rest) == Some(b) && (Percent(b) + rest)[3..] == rest
    ensures FormBytes(Percent(b) + rest) == [b] + FormBytes(rest)
  {
  }

  lemma JoinFirst(bs: seq<Byte>, rest: seq<Byte>)
    requires bs != []
    ensures bs + rest == [bs[0]] + (bs[1..] + rest)
  {
  }

  lemma {:induction false} EscapedBytes(bs: seq<Byte>, rest: string)
    ensures FormBytes(PercentAll(bs) + rest) == bs + FormBytes(rest)
  {
    if bs == [] {
      assert PercentAll(bs) + rest == rest;
    } else {
      var others := PercentAll(bs[1..]) + rest;
      assert PercentAll(bs) + rest == Percent(bs[0]) + others;
      EscapedByte(bs[0], others);
      EscapedBytes(bs[1..], rest);
      JoinFirst(bs, FormBytes(rest));
    }
  }

  lemma {:induction false} FormCharBytes(c: char, rest: string)
    ensures FormBytes(FormChar(c) + rest) == Utf8Char(c) + FormBytes(rest)
  {
    if Unescaped(c) || c == ' ' {
      assert (FormChar(c) + rest)[1..] == rest;
    } else {
      EscapedBytes(Utf8Char(c), rest);
    }
  }

  lemma {:induction false} FormEncodeBytes(s: string)
    ensures FormBytes(FormEncode(s)) == Utf8(s)
  {
    if s != "" {
      FormEncodeBytes(s[1..]);
      FormCharBytes(s[0], FormEncode(s[1..]));
    }
  }

  /** The bytes of a character: one for ASCII, else a lead byte that says how many, and six bits in each that follows. */
  lemma Utf8CharIs(c: char)
    ensures var bs, n := Utf8Char(c), c as int;
            && (|bs| == 1 <==> n < 0x80) && (|bs| == 2 <==> 0x80 <= n < 0x800) && (|bs| == 4 <==> n >= 0x10000)
            && (forall i :: 1 <= i < |bs| ==> 0x80 <= bs[i] as int <= 0xBF)
            && (|bs| == 1 ==> bs[0] as int == n)
            && (|bs| == 2 ==> n == (bs[0] as int - 0xC0) * 64 + (bs[1] as int - 0x80))
            && (|bs| == 3 ==> n == (bs[0] as int - 0xE0) * 4096 + (bs[1] as int - 0x80) * 64 + (bs[2] as int - 0x80))
            && (|bs| == 4 ==> n == (bs[0] as int - 0xF0) * 262144 + (bs[1] as int - 0x80) * 4096 + (bs[2] as int - 0x80) * 64
                                   + (bs[3] as int - 0x80))
  {
    var n := c as int;
    if n >= 0x10000 {
      SixBitDigits(n);
    } else if n >= 0x800 {
      ThreeDigits(n);
    }
  }

  lemma ThreeDigits(n: nat)
    ensures n == n / 4096 * 4096 + n / 64 % 64 * 64 + n % 64
  {
  }

  /** Read back: a `+` is a space, an escape its byte, and any other character itself, a broken escape's percent sign too. */
  lemma FormReads(c: char, s: string)
    ensures FormBytes("+" + s) == [0x20] + FormBytes(s)
    ensures c != '+' && c != '%' ==> FormBytes([c] + s) == Utf8Char(c) + FormBytes(s)
    ensures c == '%' && Escape([c] + s).None? ==> FormBytes([c] + s) == [0x25] + FormBytes(s)
    ensures c == '%' && Escape([c] + s).Some? ==> FormBytes([c] + s) == [Escape([c] + s).value] + FormBytes(s[2..])
  {
    assert ("+" + s)[1..] == s && ([c] + s)[1..] == s;
    if c == '%' && Escape([c] + s).Some? {
      assert ([c] + s)[3..] == s[2..];
    }
  }

  /** What is written for a character: letters, digits and four marks as they are, a space as `+`, and else its bytes escaped. */
  lemma FormCharIs(c: char)
    ensures 'a' <= c <= 'z' || 'A' <= c <= 'Z' || '0' <= c <= '9' || c in "*-._" ==> FormChar(c) == [c]
    ensures c == ' ' ==> FormChar(c) == "+"
    ensures !('a' <= c <= 'z' || 'A' <= c <= 'Z' || '0' <= c <= '9' || c in "*-._" || c == ' ') ==> FormChar(c) == PercentAll(Utf8Char(c))
  {
  }

  lemma PercentIs(b: Byte)
    ensures Percent(b)[0] == '%' && Percent(b)[1] == "0123456789ABCDEF"[b / 16] && Percent(b)[2] == "0123456789ABCDEF"[b % 16]
  {
  }

  /** Any text comes back from its encoding. */
  lemma FormRoundTrip(s: string)
    ensures FormDecode(FormEncode(s)) == s
  {
    FormEncodeBytes(s);
    Utf8RoundTrip(s);
  }

  // ---------------------------------------------------------------- lists of parameters

  datatype Param = Param(name: string, value: string)

  /** Where `c` first is, or the length. */
  function Find(s: string, c: char): (i: nat)
    ensures i <= |s| && c !in s[..i]
    ensures i < |s| ==> s[i] == c
  {
    if s == "" || s[0] == c then 0 else 1 + Find(s[1..], c)
  }

  lemma {:induction false} FindAt(a: string, c: char, b: string)
    requires c !in a
    ensures Find(a + [c] + b, c) == |a| && Find(a, c) == |a|
  {
    if a != "" {
      FindAt(a[1..], c, b);
      assert (a + [c] + b)[1..] == a[1..] + [c] + b;
    }
  }

  function PieceParam(piece: string): Param {
    var i := Find(piece, '=');
    Param(FormDecode(piece[..i]), if i < |piece| then FormDecode(piece[i + 1..]) else "")
  }

  function ParseParams(q: string): seq<Param> {
    var i := Find(q, '&');
    var first := if i == 0 then [] else [PieceParam(q[..i])];
    if i < |q| then first + ParseParams(q[i + 1..]) else first
  }

  function ParamPiece(p: Param): string {
    FormEncode(p.name) + "=" + FormEncode(p.value)
  }

  function FormatParams(ps: seq<Param>): string {
    if ps == [] then ""
    else if |ps| == 1 then ParamPiece(ps[0])
    else ParamPiece(ps[0]) + "&" + FormatParams(ps[1..])
  }

  /** The characters of a query. */
  predicate AllQuery(s: string) {
    forall i :: 0 <= i < |s| ==> IsFormChar(s[i]) || s[i] == '=' || s[i] == '&'
  }

  lemma {:induction false} FormatParamsQuery(ps: seq<Param>)
    ensures AllQuery(FormatParams(ps))
  {
    if ps != [] {
      FormEncodeForm(ps[0].name);
      FormEncodeForm(ps[0].value);
      if |ps| > 1 {
        FormatParamsQuery(ps[1..]);
      }
    }
  }

  lemma FormIsPlain(s: string)
    ensures '&' !in FormEncode(s) && '=' !in FormEncode(s)
  {
    FormEncodeForm(s);
  }

  lemma PieceHalves(name: string, value: string)
    requires '=' !in name
    ensures PieceParam(name + "=" + value) == Param(FormDecode(name), FormDecode(value))
  {
    var piece := name + "=" + value;
    FindAt(name, '=', value);
    assert piece[..|name|] == name && piece[|name| + 1..] == value;
  }

  lemma PieceRoundTrip(p: Param)
    ensures ParamPiece(p) != "" && '&' !in ParamPiece(p) && PieceParam(ParamPiece(p)) == p
  {
    FormIsPlain(p.name);
    FormIsPlain(p.value);
    PieceHalves(FormEncode(p.name), FormEncode(p.value));
    FormRoundTrip(p.name);
    FormRoundTrip(p.value);
  }

  lemma ParseFirst(piece: string, others: string)
    requires piece != "" && '&' !in piece
    ensures ParseParams(piece) == [PieceParam(piece)]
    ensures ParseParams(piece + "&" + others) == [PieceParam(piece)] + ParseParams(others)
  {
    FindAt(piece, '&', others);
    var q := piece + "&" + others;
    assert piece[..|piece|] == piece && q[..|piece|] == piece && q[|piece| + 1..] == others;
  }

  /** Any list of parameters, in order, comes back from its text. */
  lemma {:induction false} ParamsRoundTrip(ps: seq<Param>)
    ensures ParseParams(FormatParams(ps)) == ps
  {
    if ps != [] {
      PieceRoundTrip(ps[0]);
      ParseFirst(ParamPiece(ps[0]), FormatParams(ps[1..]));
      ParamsRoundTrip(ps[1..]);
      assert ps == [ps[0]] + ps[1..];
    }
  }

  // ---------------------------------------------------------------- decodeURIComponent

  /** The length the first byte of a character announces; 0 when none starts so. */
  function Announced(b: Byte): (n: nat)
    ensures n <= 4
  {
    if b < 0x80 then 1 else if b < 0xC0 then 0 else if b < 0xE0 then 2 else if b < 0xF0 then 3 else if b < 0xF8 then 4 else 0
  }

  /** `n` escapes in a row. */
  function Escapes(s: string, n: nat): (bs: Option<seq<Byte>>)
    ensures bs.Some? ==> |bs.value| == n && |s| >= 3 * n
  {
    if n == 0 then Some([])
    else if Escape(s).None? then None
    else
      var rest := Escapes(s[3..], n - 1);
      if rest.None? then None else Some([Escape(s).value] + rest.value)
  }

  /** `decodeURIComponent`, None where it throws: escapes must spell whole characters. */
  function DecodeComponent(s: string): (t: Option<string>)
    ensures t.Some? ==> |t.value| <= |s| && (|t.value| == |s| <==> '%' !in s) && ('%' !in s ==> t.value == s)
    ensures '%' !in s ==> t.Some?
  {
    if s == "" then Some("")
    else if s[0] != '%' then
      var rest := DecodeComponent(s[1..]);
      if rest.None? then None else Some([s[0]] + rest.value)
    else if Escape(s).None? then None
    else
      var n := Announced(Escape(s).value);
      var bs := Escapes(s, n);
      if n == 0 || bs.None? || Utf8Step(bs.value).1 != n then None
      else
        var rest := DecodeComponent(s[3 * n..]);
        if rest.None? then None else Some([Utf8Step(bs.value).0] + rest.value)
  }

  /** What it does with whole escaped characters. */
  lemma DecodeFirst(t: string, bs: seq<Byte>)
    requires bs != [] && Escape(t) == Some(bs[0]) && Announced(bs[0]) == |bs| && Escapes(t, |bs|) == Some(bs)
    requires Utf8Step(bs).1 == |bs|
    ensures var rest := DecodeComponent(t[3 * |bs|..]);
            DecodeComponent(t) == if rest.None? then None else Some([Utf8Step(bs).0] + rest.value)
  {
  }

  /** Any text, with every byte escaped, decodes to itself. */
  lemma {:induction false} EscapedDecodes(s: string)
    ensures DecodeComponent(PercentAll(Utf8(s))) == Some(s)
  {
    if s != "" {
      var bs, rest := Utf8Char(s[0]), PercentAll(Utf8(s[1..]));
      PercentAllConcat(bs, Utf8(s[1..]));
      EscapesOf(bs, rest);
      PercentAllLength(bs, rest);
      StepChar(s[0], bs);
      AnnouncedLength(s[0]);
      EscapedDecodes(s[1..]);
      DecodeFirst(PercentAll(bs) + rest, bs);
      assert [s[0]] + s[1..] == s;
    }
  }

  lemma {:induction false} PercentAllConcat(a: seq<Byte>, b: seq<Byte>)
    ensures PercentAll(a + b) == PercentAll(a) + PercentAll(b)
  {
    if a == [] {
      assert a + b == b;
    } else {
      assert (a + b)[1..] == a[1..] + b;
      PercentAllConcat(a[1..], b);
    }
  }

  lemma {:induction false} PercentAllLength(bs: seq<Byte>, rest: string)
    ensures |PercentAll(bs)| == 3 * |bs| && (PercentAll(bs) + rest)[3 * |bs|..] == rest
  {
    if bs != [] {
      PercentAllLength(bs[1..], rest);
    }
  }

  lemma {:induction false} EscapesOf(bs: seq<Byte>, rest: string)
    ensures Escapes(PercentAll(bs) + rest, |bs|) == Some(bs)
    ensures bs != [] ==> Escape(PercentAll(bs) + rest) == Some(bs[0])
  {
    if bs != [] {
      var others := PercentAll(bs[1..]) + rest;
      assert PercentAll(bs) + rest == Percent(bs[0]) + others;
      EscapedByte(bs[0], others);
      EscapesOf(bs[1..], rest);
      assert [bs[0]] + bs[1..] == bs;
    }
  }

  lemma AnnouncedLength(c: char)
    ensures Announced(Utf8Char(c)[0]) == |Utf8Char(c)|
  {
  }
}
