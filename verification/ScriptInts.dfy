/**
 Script integers (reference/go/script/util.go, and the `after` and `older` nodes of
 miniscript.go).  `AddInt64` is the script library's.  Reading a node from a script of just its
 two closing opcodes slices past the end and panics, and is not modelled.
 */
module ScriptInts {
  import opened Wrappers

  const OP_0: Byte := 0x00
  const OP_PUSHDATA4: Byte := 0x4E
  const OP_1NEGATE: Byte := 0x4F
  const OP_1: Byte := 0x51
  const OP_16: Byte := 0x60
  const OP_DROP: Byte := 0x75
  const OP_CHECKLOCKTIMEVERIFY: Byte := 0xB1
  const OP_CHECKSEQUENCEVERIFY: Byte := 0xB2

  const TWO_63: int := 0x8000_0000_0000_0000
  const TWO_64: int := 0x1_0000_0000_0000_0000

  predicate IsInt64(t: int) {
    -TWO_63 <= t < TWO_63
  }

  function Pow(k: nat): (p: nat)
    ensures p >= 1
  {
    if k == 0 then 1 else 256 * Pow(k - 1)
  }

  function Magnitude(t: int): nat {
    if t < 0 then -t else t
  }

  // ---------------------------------------------------------------- bytes, least first

  function Bytes(n: nat): seq<Byte> {
    if n == 0 then [] else [n % 256] + Bytes(n / 256)
  }

  function Number(bs: seq<Byte>): nat {
    if bs == [] then 0 else bs[0] + 256 * Number(bs[1..])
  }

  lemma {:induction false} NumberOfBytes(n: nat)
    ensures Number(Bytes(n)) == n
    ensures n > 0 ==> Bytes(n) != [] && Bytes(n)[|Bytes(n)| - 1] != 0
  {
    if n > 0 {
      NumberOfBytes(n / 256);
    }
  }

  /** The last byte counts for most. */
  lemma {:induction false} NumberSnoc(bs: seq<Byte>, b: Byte)
    ensures Number(bs + [b]) == Number(bs) + b * Pow(|bs|)
  {
    if bs == [] {
      assert [] + [b] == [b];
    } else {
      assert (bs + [b])[1..] == bs[1..] + [b];
      NumberSnoc(bs[1..], b);
      Distribute(Number(bs[1..]), b, Pow(|bs| - 1));
    }
  }

  lemma Distribute(a: int, b: int, p: int)
    ensures 256 * (a + b * p) == 256 * a + b * (256 * p)
  {
  }

  lemma {:induction false} NumberBound(bs: seq<Byte>)
    ensures Number(bs) < Pow(|bs|)
  {
    if bs != [] {
      NumberBound(bs[1..]);
    }
  }

  // ---------------------------------------------------------------- minimal, sign and magnitude

  /** The library's bytes for a number: its magnitude, and its sign in the top bit of the last. */
  function ScriptNum(t: int): seq<Byte> {
    if t == 0 then [] else
    var bs := Bytes(Magnitude(t));
    NumberOfBytes(Magnitude(t));
    var last := bs[|bs| - 1];
    if last >= 0x80 then bs + [if t < 0 then 0x80 else 0x00]
    else if t < 0 then bs[..|bs| - 1] + [last + 0x80]
    else bs
  }

  /** What such bytes mean. */
  function Meaning(bs: seq<Byte>): int {
    if bs == [] then 0 else
    var front, last := bs[..|bs| - 1], bs[|bs| - 1];
    if last >= 0x80 then -(Number(front) + (last - 0x80) * Pow(|front|)) else Number(front) + last * Pow(|front|)
  }

  lemma Scale(a: int, b: int, p: int)
    requires p >= 0 && a <= b
    ensures a * p <= b * p
  {
  }

  lemma Below128(f: int, d: int, p: int)
    requires 0 <= f < p && 0 <= d <= 127
    ensures 0 <= f + d * p < 128 * p
  {
  }

  /** The magnitude that fits in `n` such bytes. */
  lemma {:induction false} MeaningBound(bs: seq<Byte>)
    requires bs != []
    ensures Magnitude(Meaning(bs)) < 128 * Pow(|bs| - 1)
  {
    var front, last := bs[..|bs| - 1], bs[|bs| - 1];
    var d := if last >= 0x80 then last - 0x80 else last;
    NumberBound(front);
    Below128(Number(front), d, Pow(|front|));
    assert Meaning(bs) == Number(front) + d * Pow(|front|) || Meaning(bs) == -(Number(front) + d * Pow(|front|));
  }

  /** The shape of the bytes: front, and a last byte below 0x80 with the sign on top. */
  lemma ScriptNumShape(t: int)
    requires t != 0
    ensures var bs := ScriptNum(t);
            && bs != [] && (bs[|bs| - 1] >= 0x80 <==> t < 0)
            && Number(bs[..|bs| - 1]) + (if t < 0 then bs[|bs| - 1] - 0x80 else bs[|bs| - 1]) * Pow(|bs| - 1) == Magnitude(t)
            && (|bs| > 1 ==> Magnitude(t) >= 128 * Pow(|bs| - 2))
  {
    var m, bs := Magnitude(t), ScriptNum(t);
    var raw := Bytes(m);
    NumberOfBytes(m);
    var front, last := raw[..|raw| - 1], raw[|raw| - 1];
    assert raw == front + [last];
    NumberSnoc(front, last);
    if last >= 0x80 {
      assert bs[..|bs| - 1] == raw;
      Scale(128, last, Pow(|front|));
    } else {
      assert bs[..|bs| - 1] == front;
      if |bs| > 1 {
        Scale(1, last, Pow(|front|));
      }
    }
  }

  lemma ScriptNumMeans(t: int)
    ensures Meaning(ScriptNum(t)) == t
  {
    if t != 0 {
      ScriptNumShape(t);
    }
  }

  /** Fewer bytes mean something smaller. */
  lemma FewerMeanLess(other: seq<Byte>, n: nat)
    requires 0 < |other| < n
    ensures Magnitude(Meaning(other)) < 128 * Pow(n - 2)
  {
    MeaningBound(other);
    PowMonotone(|other| - 1, n - 2);
  }

  /** Those bytes mean the number, and no fewer can. */
  lemma ScriptNumIsMinimal(t: int, other: seq<Byte>)
    ensures Meaning(ScriptNum(t)) == t
    ensures Meaning(other) == t ==> |other| >= |ScriptNum(t)|
  {
    ScriptNumMeans(t);
    var n := |ScriptNum(t)|;
    if t != 0 {
      ScriptNumShape(t);
      if 0 < |other| < n {
        FewerMeanLess(other, n);
      }
    }
  }

  lemma {:induction false} PowMonotone(a: nat, b: nat)
    requires a <= b
    ensures Pow(a) <= Pow(b)
  {
    if a < b {
      PowMonotone(a, b - 1);
    }
  }

  lemma EightBytes()
    ensures Pow(7) == 0x100_0000_0000_0000 && Pow(8) == TWO_64
  {
  }

  lemma AtMostEight(t: int)
    requires IsInt64(t) && t != -TWO_63
    ensures |ScriptNum(t)| <= 8
  {
    if t != 0 && |ScriptNum(t)| > 8 {
      ScriptNumShape(t);
      EightBytes();
      PowMonotone(7, |ScriptNum(t)| - 2);
    }
  }

  // ---------------------------------------------------------------- decoding

  /** The number the decoder makes: the bytes, less the whole range when the top bit is set. */
  function Decoded(bs: seq<Byte>): int {
    if bs != [] && bs[|bs| - 1] >= 0x80 then Number(bs) - Pow(|bs|) else Number(bs)
  }

  /** What 64 bits keep of a number. */
  function Wrap(x: int): int {
    (x + TWO_63) % TWO_64 - TWO_63
  }

  lemma WrapNothing(x: int)
    requires IsInt64(x)
    ensures Wrap(x) == x
  {
  }

  lemma WrapOnce(x: int)
    requires TWO_63 <= x < TWO_64
    ensures Wrap(x) == x - TWO_64
  {
  }

  /** A byte shifted in under a number of 56 bits. */
  lemma ShiftsIn(u: nat, b: Byte)
    requires u < 0x100_0000_0000_0000
    ensures Wrap(Wrap(u) * 256) + b == Wrap(b + 256 * u)
  {
    WrapNothing(u);
    if u < 0x80_0000_0000_0000 {
      WrapNothing(u * 256);
      WrapNothing(b + 256 * u);
    } else {
      WrapOnce(u * 256);
      WrapOnce(b + 256 * u);
    }
  }

  lemma {:induction false} WrapShifts(bs: seq<Byte>, i: nat)
    requires i < |bs| <= 8
    ensures Wrap(Wrap(Number(bs[i + 1..])) * 256) + bs[i] == Wrap(Number(bs[i..]))
  {
    var more := bs[i + 1..];
    assert bs[i..] == [bs[i]] + more && bs[i..][1..] == more;
    NumberBound(more);
    EightBytes();
    PowMonotone(|more|, 7);
    ShiftsIn(Number(more), bs[i]);
  }

  /** On numbers of 64 bits, shifting and subtracting as the machine does. */
  method DecodeScriptNum(data: seq<Byte>) returns (r: Option<int>)
    ensures r == if |data| > 8 then None else Some(Decoded(data))
  {
    if |data| > 8 {
      return None;
    }
    var result := 0;
    var i := |data|;
    while i > 0
      invariant 0 <= i <= |data|
      invariant result == Wrap(Number(data[i..]))
    {
      i := i - 1;
      WrapShifts(data, i);
      result := Wrap(result * 256);
      result := result + data[i];
    }
    assert data[0..] == data;
    if |data| > 0 && data[|data| - 1] >= 0x80 {
      var negativeMask := Wrap(128 * Pow(|data| - 1));
      SubtractsRange(data);
      result := Wrap(result - Wrap(negativeMask * 2));
    } else {
      BelowHalf(data);
    }
    r := Some(result);
  }

  lemma TopBit(data: seq<Byte>)
    requires data != []
    ensures data[|data| - 1] >= 0x80 <==> Number(data) >= 128 * Pow(|data| - 1)
    ensures Number(data) < Pow(|data|)
  {
  }

  lemma BelowHalf(data: seq<Byte>)
    requires |data| <= 8 && (data != [] ==> data[|data| - 1] < 0x80)
    ensures Wrap(Number(data)) == Number(data)
  {
    EightBytes();
    if data != [] {
      TopBit(data);
      PowMonotone(|data| - 1, 7);
    }
  }

  lemma {:induction false} SubtractsSmall(u: nat, p: nat)
    requires p <= 0x1_0000_0000_0000 && 128 * p <= u < 256 * p
    ensures Wrap(Wrap(u) - Wrap(Wrap(128 * p) * 2)) == u - 256 * p
  {
    WrapNothing(u);
    WrapNothing(128 * p);
    WrapNothing(256 * p);
    WrapNothing(u - 256 * p);
  }

  lemma {:induction false} SubtractsRange(data: seq<Byte>)
    requires 0 < |data| <= 8 && data[|data| - 1] >= 0x80
    ensures Wrap(Wrap(Number(data)) - Wrap(Wrap(128 * Pow(|data| - 1)) * 2)) == Number(data) - Pow(|data|)
  {
    EightBytes();
    TopBit(data);
    if |data| < 8 {
      PowMonotone(|data| - 1, 6);
      assert Pow(7) == 256 * Pow(6);
      SubtractsSmall(Number(data), Pow(|data| - 1));
    } else {
      WrapOnce(Number(data));
      WrapOnce(TWO_63);
      WrapNothing(Number(data) - TWO_64);
    }
  }

  function Decode(opcode: Byte, script: seq<Byte>): Option<(int, seq<Byte>)> {
    if opcode == OP_0 then Some((0, script))
    else if opcode == OP_1NEGATE then Some((-1, script))
    else if OP_1 <= opcode <= OP_16 then Some((opcode - OP_1 + 1, script))
    else if script == [] || opcode > OP_PUSHDATA4 || |script| < opcode || opcode > 8 then None
    else Some((Decoded(script[..opcode]), script[opcode..]))
  }

  /** What the first opcode reads as: a small number, or as many bytes as it says, eight at most; and nothing else reads. */
  lemma DecodeReads(opcode: Byte, script: seq<Byte>)
    ensures var r, n := Decode(opcode, script), opcode as int;
            if n == 0 then r == Some((0, script))
            else if n == 0x4F then r == Some((-1, script))
            else if 0x51 <= n <= 0x60 then r == Some((n - 0x50, script))
            else
              && (r.Some? <==> n <= 8 && n <= |script|)
              && (r.Some? ==> r.value.1 == script[n..] && r.value.0 == Decoded(script[..n]))
  {
  }

  /** Bytes read as two's complement: the number in half their range either way that they are up to that range. */
  lemma {:induction false} ReadsTwosComplement(data: seq<Byte>)
    requires data != []
    ensures var half := 128 * Pow(|data| - 1);
            && Pow(|data|) == 2 * half && -half <= Decoded(data) < half
            && (Decoded(data) == Number(data) || Decoded(data) == Number(data) - 2 * half)
  {
    TopBit(data);
    NumberBound(data);
  }

  method DecodeInt64(opcode: Byte, script: seq<Byte>) returns (r: Option<(int, seq<Byte>)>)
    ensures r == Decode(opcode, script)
  {
    if opcode == OP_0 {
      return Some((0, script));
    }
    if opcode == OP_1NEGATE {
      return Some((-1, script));
    }
    if OP_1 <= opcode <= OP_16 {
      return Some((opcode - OP_1 + 1, script));
    }
    if |script| == 0 {
      return None;
    }
    if opcode <= OP_PUSHDATA4 {
      var length := opcode;
      if |script| < length {
        return None;
      }
      var intBytes := script[..length];
      var val := DecodeScriptNum(intBytes);
      if val.None? {
        return None;
      }
      return Some((val.value, script[length..]));
    }
    return None;
  }

  // ---------------------------------------------------------------- the nodes

  /** `AddInt64`: a small number's own opcode, or its bytes behind their count. */
  function Pushed(t: int): seq<Byte>
    requires IsInt64(t) && t != -TWO_63
  {
    if t == 0 then [OP_0]
    else if t == -1 || 1 <= t <= 16 then [OP_1 - 1 + t]
    else
      AtMostEight(t);
      [|ScriptNum(t)|] + ScriptNum(t)
  }

  function Closing(op: Byte): seq<Byte> {
    [op, OP_DROP]
  }

  /** -1 to 16 are single opcodes, and any other number is its bytes behind their length. */
  lemma PushedIs(t: int)
    requires IsInt64(t) && t != -TWO_63
    ensures t == 0 ==> Pushed(t) == [0x00]
    ensures t == -1 ==> Pushed(t) == [0x4F]
    ensures 1 <= t <= 16 ==> |Pushed(t)| == 1 && Pushed(t)[0] as int == 0x50 + t
    ensures t < -1 || t > 16 ==> |Pushed(t)| == 1 + |ScriptNum(t)| && Pushed(t)[0] as int == |ScriptNum(t)| && Pushed(t)[1..] == ScriptNum(t)
  {
  }

  predicate Closes(script: seq<Byte>, op: Byte) {
    |script| >= 2 && script[|script| - 2] == op && script[|script| - 1] == OP_DROP
  }

  /** `FromScript`: the number at the front; what stands between it and the closing opcodes is not looked at. */
  function Read(op: Byte, script: seq<Byte>): Option<int>
    requires Closes(script, op) ==> |script| > 2
  {
    if !Closes(script, op) then None else
    var r := Decode(script[0], script[1..|script| - 2]);
    if r.None? then None else Some(r.value.0)
  }

  class ScriptBuilder {
    var script: seq<Byte>

    constructor ()
      ensures script == []
    {
      script := [];
    }

    method AddInt64(t: int)
      requires IsInt64(t) && t != -TWO_63
      modifies this
      ensures script == old(script) + Pushed(t)
    {
      script := script + Pushed(t);
    }

    method AddOp(op: Byte)
      modifies this
      ensures script == old(script) + [op]
    {
      script := script + [op];
    }
  }

  class AfterNode {
    var time: int

    method FromScript(script: seq<Byte>) returns (ok: bool)
      requires Closes(script, OP_CHECKLOCKTIMEVERIFY) ==> |script| > 2
      modifies this
      ensures ok == Read(OP_CHECKLOCKTIMEVERIFY, script).Some?
      ensures time == if ok then Read(OP_CHECKLOCKTIMEVERIFY, script).value else old(time)
      ensures ok ==> var n := |script|; n > 2 && script[n - 2] == 0xB1 && script[n - 1] == 0x75
    {
      if Closes(script, OP_CHECKLOCKTIMEVERIFY) {
        var r := DecodeInt64(script[0], script[1..|script| - 2]);
        if r.None? {
          return false;
        }
        time := r.value.0;
        return true;
      }
      return false;
    }

    method ToScript(builder: ScriptBuilder)
      requires IsInt64(time) && time != -TWO_63
      modifies builder
      ensures builder.script == old(builder.script) + (Pushed(time) + Closing(OP_CHECKLOCKTIMEVERIFY))
      ensures var n := |builder.script|; n >= 2 && builder.script[n - 2] == 0xB1 && builder.script[n - 1] == 0x75
    {
      builder.AddInt64(time);
      builder.AddOp(OP_CHECKLOCKTIMEVERIFY);
      builder.AddOp(OP_DROP);
    }
  }

  class OlderNode {
    var time: int

    method FromScript(script: seq<Byte>) returns (ok: bool)
      requires Closes(script, OP_CHECKSEQUENCEVERIFY) ==> |script| > 2
      modifies this
      ensures ok == Read(OP_CHECKSEQUENCEVERIFY, script).Some?
      ensures time == if ok then Read(OP_CHECKSEQUENCEVERIFY, script).value else old(time)
      ensures ok ==> var n := |script|; n > 2 && script[n - 2] == 0xB2 && script[n - 1] == 0x75
    {
      if Closes(script, OP_CHECKSEQUENCEVERIFY) {
        var r := DecodeInt64(script[0], script[1..|script| - 2]);
        if r.None? {
          return false;
        }
        time := r.value.0;
        return true;
      }
      return false;
    }

    method ToScript(builder: ScriptBuilder)
      requires IsInt64(time) && time != -TWO_63
      modifies builder
      ensures builder.script == old(builder.script) + (Pushed(time) + Closing(OP_CHECKSEQUENCEVERIFY))
      ensures var n := |builder.script|; n >= 2 && builder.script[n - 2] == 0xB2 && builder.script[n - 1] == 0x75
    {
      builder.AddInt64(time);
      builder.AddOp(OP_CHECKSEQUENCEVERIFY);
      builder.AddOp(OP_DROP);
    }
  }

  // ---------------------------------------------------------------- the round trip

  /** The numbers that come back: none below -1, but for those whose magnitude is a quarter of their bytes' range. */
  predicate ComesBack(t: int) {
    t >= -1 || exists k :: 0 <= k < 8 && -t == 64 * Pow(k)
  }

  lemma SignOnTop(f: int, d: int, p: int)
    ensures f + (d + 128) * p - 256 * p == f + d * p - 128 * p
  {
  }

  lemma DecodedScriptNum(t: int)
    requires t != 0
    ensures var n := |ScriptNum(t)|;
            n > 0 && Decoded(ScriptNum(t)) == if t < 0 then -t - 128 * Pow(n - 1) else t
  {
    ScriptNumShape(t);
    var bs := ScriptNum(t);
    DecodedShape(bs[..|bs| - 1], bs[|bs| - 1]);
    assert bs == bs[..|bs| - 1] + [bs[|bs| - 1]];
  }

  lemma {:induction false} DecodedShape(front: seq<Byte>, last: Byte)
    ensures Decoded(front + [last]) ==
            if last >= 0x80 then Number(front) + (last - 0x80) * Pow(|front|) - 128 * Pow(|front|)
            else Number(front) + last * Pow(|front|)
  {
    NumberSnoc(front, last);
    SignOnTop(Number(front), last - 128, Pow(|front|));
  }

  /** A negative number comes back only from a quarter of the range. */
  lemma QuarterOnly(t: int)
    requires IsInt64(t) && -TWO_63 < t < -1
    ensures Decoded(ScriptNum(t)) == t <==> ComesBack(t)
  {
    DecodedScriptNum(t);
    AtMostEight(t);
    ScriptNumShape(t);
    var n := |ScriptNum(t)|;
    ScriptNumIsMinimal(t, ScriptNum(t));
    MeaningBound(ScriptNum(t));
    if ComesBack(t) {
      var k :| 0 <= k < 8 && -t == 64 * Pow(k);
      if k < n - 1 {
        PowMonotone(k, n - 2);
      } else if k > n - 1 {
        PowMonotone(n, k);
      }
    }
  }

  /** A script of a number, anything, and the closing opcodes is read from its first byte and what follows. */
  lemma ReadFirst(op: Byte, first: Byte, rest: seq<Byte>)
    ensures Read(op, [first] + rest + Closing(op)) ==
            match Decode(first, rest) case None => None case Some(r) => Some(r.0)
  {
    var script := [first] + rest + Closing(op);
    assert script[|script| - 2] == op && script[|script| - 1] == OP_DROP;
    assert script[1..|script| - 2] == rest;
  }

  lemma ReadsSmall(op: Byte, t: int, junk: seq<Byte>)
    requires -1 <= t <= 16
    ensures Read(op, Pushed(t) + junk + Closing(op)) == Some(t)
  {
    var first := Pushed(t)[0];
    assert Pushed(t) == [first];
    ReadFirst(op, first, junk);
  }

  lemma ReadsBytes(op: Byte, bs: seq<Byte>, junk: seq<Byte>)
    requires 0 < |bs| <= 8
    ensures Read(op, [|bs|] + bs + junk + Closing(op)) == Some(Decoded(bs))
  {
    var rest := bs + junk;
    assert [|bs|] + bs + junk + Closing(op) == [|bs|] + rest + Closing(op);
    ReadFirst(op, |bs|, rest);
    assert rest[..|bs|] == bs;
  }

  /** What is read is what the pushed bytes decode to. */
  lemma ReadsPushed(op: Byte, t: int, junk: seq<Byte>)
    requires IsInt64(t) && t != -TWO_63
    ensures Read(op, Pushed(t) + junk + Closing(op)) == Some(if -1 <= t <= 16 then t else Decoded(ScriptNum(t)))
  {
    if -1 <= t <= 16 {
      ReadsSmall(op, t, junk);
    } else {
      AtMostEight(t);
      ScriptNumShape(t);
      ReadsBytes(op, ScriptNum(t), junk);
    }
  }

  /** Written and read back, whatever stands before the closing opcodes: every number from -1 up, and few below. */
  lemma ScriptRoundTrip(op: Byte, t: int, junk: seq<Byte>)
    requires IsInt64(t) && t != -TWO_63
    ensures Read(op, Pushed(t) + junk + Closing(op)) == Some(t) <==> ComesBack(t)
  {
    ReadsPushed(op, t, junk);
    if t > 16 {
      DecodedScriptNum(t);
    } else if t < -1 {
      QuarterOnly(t);
    }
  }
}
