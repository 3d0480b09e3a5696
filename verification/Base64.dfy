/**
 * The two halves of the client's base64: the encoder of the command line (crates/arp-client/src/cli/mod.rs)
 * and the decoder of the admin server (crates/arp-client/src/admin/mod.rs).
 *
 * Shifts and masks are written as products, quotients and remainders by powers of two; the operands of
 * every `|` in the source have no bit in common, so it is a sum. The 64-entry table both files carry is
 * the alphabet of section 4 of RFC 4648, given here by its five runs.
 */
module Base64 {
  import opened Bytes

  const PAD: byte := 61  // '='

  function Char(v: nat): (c: byte)
    requires v < 64
  {
    if v < 26 then 65 + v            // 'A'..'Z'
    else if v < 52 then 97 + v - 26  // 'a'..'z'
    else if v < 62 then 48 + v - 52  // '0'..'9'
    else if v == 62 then 43          // '+'
    else 47                          // '/'
  }

  /** Position of an octet in the table. */
  function Position(c: byte): (v: Option<nat>)
    ensures v.Some? ==> v.value < 64
  {
    if 65 <= c <= 90 then Some(c - 65)
    else if 97 <= c <= 122 then Some(c - 97 + 26)
    else if 48 <= c <= 57 then Some(c - 48 + 52)
    else if c == 43 then Some(62)
    else if c == 47 then Some(63)
    else None
  }

  /** The table is one-to-one and does not contain the padding. */
  lemma TableInverse(v: nat, c: byte)
    requires v < 64
    ensures Position(Char(v)) == Some(v) && Char(v) != PAD
    ensures Position(c).Some? ==> Char(Position(c).value) == c
  {
  }

  // ----- encoding

  /** The four output characters of one group; absent input octets count as zero and their characters are padding. */
  function Group(b0: byte, b1: Option<byte>, b2: Option<byte>): (s: seq<byte>)
    ensures |s| == 4
  {
    var low: int, mid: int := if b2.Some? then b2.value else 0, if b1.Some? then b1.value else 0;
    var triple: nat := (b0 as int) * 0x1_0000 + mid * 0x100 + low;
    [ Char(triple / 0x4_0000 % 64),
      Char(triple / 0x1000 % 64),
      if b1.Some? then Char(triple / 64 % 64) else PAD,
      if b2.Some? then Char(triple % 64) else PAD ]
  }

  function At(x: seq<byte>, i: nat): Option<byte> {
    if i < |x| then Some(x[i]) else None
  }

  function Drop(x: seq<byte>, n: nat): seq<byte> {
    if n <= |x| then x[n..] else []
  }

  function Encode(x: seq<byte>): (s: seq<byte>)
    decreases |x|
  {
    if x == [] then [] else Group(x[0], At(x, 1), At(x, 2)) + Encode(Drop(x, 3))
  }

  lemma EncodeStep(x: seq<byte>, i: nat)
    requires i < |x|
    ensures Encode(Drop(x, i)) == Group(x[i], At(x, i + 1), At(x, i + 2)) + Encode(Drop(x, i + 3))
  {
    var rest := Drop(x, i);
    assert At(rest, 1) == At(x, i + 1) && At(rest, 2) == At(x, i + 2);
    assert Drop(rest, 3) == Drop(x, i + 3);
  }

  method Base64Encode(input: seq<byte>) returns (output: seq<byte>)
    ensures output == Encode(input)
  {
    output := [];
    var i := 0;
    while i < |input|
      invariant 0 <= i <= |input| + 2
      invariant output + Encode(Drop(input, i)) == Encode(input)
    {
      var group := EncodeGroup(input, i);
      EncodeStep(input, i);
      assert output + (group + Encode(Drop(input, i + 3))) == (output + group) + Encode(Drop(input, i + 3));
      output := output + group;
      i := i + 3;
    }
  }

  method EncodeGroup(input: seq<byte>, i: nat) returns (group: seq<byte>)
    requires i < |input|
    ensures group == Group(input[i], At(input, i + 1), At(input, i + 2))
  {
    var b0: int := input[i];
    var b1: int := if i + 1 < |input| then input[i + 1] else 0;
    var b2: int := if i + 2 < |input| then input[i + 2] else 0;
    var triple := b0 * 0x1_0000 + b1 * 0x100 + b2;
    group := [Char(triple / 0x4_0000 % 64), Char(triple / 0x1000 % 64)];
    group := group + [if i + 1 < |input| then Char(triple / 64 % 64) else PAD];
    group := group + [if i + 2 < |input| then Char(triple % 64) else PAD];
  }

  // ----- decoding

  function Pow2(n: nat): (p: nat)
    ensures p >= 1
  {
    if n == 0 then 1 else 2 * Pow2(n - 1)
  }

  /** What the decoder still outputs with `bits` undecoded bits in `buf`. */
  function DecodeFrom(s: seq<byte>, buf: nat, bits: nat): (x: seq<byte>)
    decreases |s|, 0
  {
    if s == [] || s[0] == PAD then []
    else match Position(s[0])
         case None => DecodeFrom(s[1..], buf, bits)
         case Some(v) => Emit(buf * 64 + v, bits + 6, s[1..])
  }

  function Emit(buf: nat, bits: nat, s: seq<byte>): (x: seq<byte>)
    decreases |s|, 1
  {
    if bits >= 8 then
      var p := Pow2(bits - 8);
      [buf / p % 256] + DecodeFrom(s, buf % p, bits - 8)
    else DecodeFrom(s, buf, bits)
  }

  function Decode(s: seq<byte>): (x: seq<byte>)
  {
    DecodeFrom(s, 0, 0)
  }

  lemma SmallPowers()
    ensures Pow2(0) == 1 && Pow2(2) == 4 && Pow2(4) == 16 && Pow2(6) == 64
  {
    assert Pow2(1) == 2 && Pow2(3) == 8 && Pow2(5) == 32;
  }

  /** The decoder's 32-bit accumulator never holds more than 14 bits. */
  method Base64Decode(input: seq<byte>) returns (output: seq<byte>)
    ensures output == Decode(input)
  {
    SmallPowers();
    output := [];
    var buf: nat, bits: nat := 0, 0;
    var i := 0;
    while i < |input|
      invariant 0 <= i <= |input|
      invariant bits in {0, 2, 4, 6} && buf < Pow2(bits)
      invariant output + DecodeFrom(input[i..], buf, bits) == Decode(input)
    {
      var c := input[i];
      ghost var rest := input[i + 1..];
      assert input[i..][1..] == rest;
      if c == PAD { break; }
      match Position(c) {
        case None =>
        case Some(val) =>
          assert buf * 64 + val < 0x4000 < 0x1_0000_0000;
          buf := buf * 64 + val;
          bits := bits + 6;
          if bits >= 8 {
            bits := bits - 8;
            var p := if bits == 0 then 1 else if bits == 2 then 4 else 16;
            assert p == Pow2(bits);
            assert output + ([buf / p % 256] + DecodeFrom(rest, buf % p, bits))
                == (output + [buf / p % 256]) + DecodeFrom(rest, buf % p, bits);
            output := output + [buf / p % 256];
            buf := buf % p;
          }
      }
      i := i + 1;
    }
    assert DecodeFrom(input[i..], buf, bits) == [];
  }

  // ----- the round trip

  /** The four sextets of a triple of octets. */
  lemma Sextets(b0: byte, b1: byte, b2: byte)
    ensures var t := (b0 as int) * 0x1_0000 + (b1 as int) * 0x100 + b2;
            && t / 0x4_0000 % 64 == (b0 as int) / 4
            && t / 0x1000 % 64 == (b0 as int) % 4 * 16 + (b1 as int) / 16
            && t / 64 % 64 == (b1 as int) % 16 * 4 + (b2 as int) / 64
            && t % 64 == (b2 as int) % 64
  {
    var x, y, z := b0 as int, b1 as int, b2 as int;
    var t := x * 0x1_0000 + y * 0x100 + z;
    DivModUnique(t, 0x4_0000, x / 4, x % 4 * 0x1_0000 + y * 0x100 + z);
    DivModUnique(x / 4, 64, 0, x / 4);
    DivModUnique(t, 0x1000, x * 16 + y / 16, y % 16 * 0x100 + z);
    DivModUnique(x * 16 + y / 16, 64, x / 4, x % 4 * 16 + y / 16);
    DivModUnique(t, 64, x * 0x400 + y * 4 + z / 64, z % 64);
    DivModUnique(x * 0x400 + y * 4 + z / 64, 64, x * 16 + y / 16, y % 16 * 4 + z / 64);
  }

  lemma DecodeChar(v: nat, s: seq<byte>, buf: nat, bits: nat)
    requires v < 64
    ensures DecodeFrom([Char(v)] + s, buf, bits) == Emit(buf * 64 + v, bits + 6, s)
  {
    TableInverse(v, 0);
    assert ([Char(v)] + s)[1..] == s;
  }

  /** Two characters give back one octet and leave the low bits of the second. */
  lemma DecodeTwo(b0: byte, high: nat, s: seq<byte>)
    requires high < 16
    ensures DecodeFrom([Char((b0 as int) / 4), Char((b0 as int) % 4 * 16 + high)] + s, 0, 0) == [b0] + DecodeFrom(s, high, 4)
  {
    SmallPowers();
    var v0, v1 := (b0 as int) / 4, (b0 as int) % 4 * 16 + high;
    assert [Char(v0), Char(v1)] + s == [Char(v0)] + ([Char(v1)] + s);
    DecodeChar(v0, [Char(v1)] + s, 0, 0);
    DecodeChar(v1, s, v0, 6);
    DivModUnique(v0 * 64 + v1, 16, b0, high);
  }

  lemma DecodeThird(b1: byte, low: nat, s: seq<byte>)
    requires low < 4
    ensures DecodeFrom([Char((b1 as int) % 16 * 4 + low)] + s, (b1 as int) / 16, 4) == [b1] + DecodeFrom(s, low, 2)
  {
    SmallPowers();
    var v2 := (b1 as int) % 16 * 4 + low;
    DecodeChar(v2, s, (b1 as int) / 16, 4);
    DivModUnique((b1 as int) / 16 * 64 + v2, 4, b1, low);
  }

  lemma DecodeFourth(b2: byte, s: seq<byte>)
    ensures DecodeFrom([Char((b2 as int) % 64)] + s, (b2 as int) / 64, 2) == [b2] + DecodeFrom(s, 0, 0)
  {
    SmallPowers();
    DecodeChar((b2 as int) % 64, s, (b2 as int) / 64, 2);
  }

  lemma DecodePad(s: seq<byte>, buf: nat, bits: nat)
    ensures DecodeFrom([PAD] + s, buf, bits) == []
  {
  }

  lemma Regroup(g: seq<byte>, s: seq<byte>)
    requires |g| == 4
    ensures g + s == [g[0], g[1]] + ([g[2]] + ([g[3]] + s))
  {
  }

  lemma DecodeFull(b0: byte, b1: byte, b2: byte, s: seq<byte>)
    ensures DecodeFrom(Group(b0, Some(b1), Some(b2)) + s, 0, 0) == [b0, b1, b2] + DecodeFrom(s, 0, 0)
  {
    Sextets(b0, b1, b2);
    var g := Group(b0, Some(b1), Some(b2));
    Regroup(g, s);
    DecodeTwo(b0, (b1 as int) / 16, [g[2]] + ([g[3]] + s));
    DecodeThird(b1, (b2 as int) / 64, [g[3]] + s);
    DecodeFourth(b2, s);
  }

  lemma DecodeLastOne(b0: byte)
    ensures DecodeFrom(Group(b0, None, None), 0, 0) == [b0]
  {
    Sextets(b0, 0, 0);
    var g := Group(b0, None, None);
    assert g == [g[0], g[1]] + ([PAD] + [PAD]);
    DecodeTwo(b0, 0, [PAD] + [PAD]);
    DecodePad([PAD], 0, 4);
  }

  lemma DecodeLastTwo(b0: byte, b1: byte)
    ensures DecodeFrom(Group(b0, Some(b1), None), 0, 0) == [b0, b1]
  {
    Sextets(b0, b1, 0);
    var g := Group(b0, Some(b1), None);
    assert g == [g[0], g[1]] + ([g[2]] + [PAD]);
    DecodeTwo(b0, (b1 as int) / 16, [g[2]] + [PAD]);
    DecodeThird(b1, 0, [PAD]);
    DecodePad([], 0, 2);
    assert [PAD] + [] == [PAD];
  }

  /** The decoder undoes the encoder, for every byte string. */
  lemma {:induction false} DecodeEncode(x: seq<byte>)
    ensures Decode(Encode(x)) == x
    decreases |x|
  {
    if |x| >= 3 {
      assert x == [x[0], x[1], x[2]] + x[3..];
      DecodeFull(x[0], x[1], x[2], Encode(x[3..]));
      DecodeEncode(x[3..]);
    } else if |x| == 2 {
      DecodeLastTwo(x[0], x[1]);
      assert Group(x[0], Some(x[1]), None) + [] == Group(x[0], Some(x[1]), None);
    } else if |x| == 1 {
      DecodeLastOne(x[0]);
      assert Group(x[0], None, None) + [] == Group(x[0], None, None);
    }
  }

  /** Octets outside the alphabet, other than the padding, can be inserted anywhere without changing what is decoded. */
  lemma {:induction false} JunkIgnored(a: seq<byte>, junk: byte, b: seq<byte>, buf: nat, bits: nat)
    requires Position(junk).None? && junk != PAD
    ensures DecodeFrom(a + [junk] + b, buf, bits) == DecodeFrom(a + b, buf, bits)
    decreases |a|
  {
    var s, t := a + [junk] + b, a + b;
    if a == [] {
      assert s[1..] == b == t;
    } else {
      assert s[1..] == a[1..] + [junk] + b && t[1..] == a[1..] + b;
      var v := Position(a[0]);
      if a[0] == PAD {
      } else if v.None? {
        JunkIgnored(a[1..], junk, b, buf, bits);
      } else {
        var buf', bits' := buf * 64 + v.value, bits + 6;
        if bits' >= 8 {
          JunkIgnored(a[1..], junk, b, buf' % Pow2(bits' - 8), bits' - 8);
        } else {
          JunkIgnored(a[1..], junk, b, buf', bits');
        }
      }
    }
  }
}
