/** Octets and big-endian integers, as written and read by every wire format of the proxy. */
module Bytes {

  type byte = b: int | 0 <= b < 256
  type u16 = n: int | 0 <= n < 0x1_0000
  type u32 = n: int | 0 <= n < 0x1_0000_0000

  datatype Option<+T> = None | Some(value: T)

  function Pow256(width: nat): (p: nat)
    ensures p >= 1
  {
    if width == 0 then 1 else 256 * Pow256(width - 1)
  }

  /** The `width` low-order octets of `n`, most significant first (an `as uN` cast truncates). */
  function Be(n: nat, width: nat): (s: seq<byte>)
    ensures |s| == width
  {
    if width == 0 then [] else Be(n / 256, width - 1) + [n % 256]
  }

  function FromBe(s: seq<byte>): (n: nat)
  {
    if s == [] then 0 else 256 * FromBe(s[..|s| - 1]) + s[|s| - 1]
  }

  /** Reading back `width` octets gives the number modulo 256^width. */
  lemma {:induction false} FromBeBe(n: nat, width: nat)
    ensures FromBe(Be(n, width)) == n % Pow256(width)
  {
    if width > 0 {
      FromBeBe(n / 256, width - 1);
      var s := Be(n, width);
      assert s[..|s| - 1] == Be(n / 256, width - 1);
      ModSplit(n, Pow256(width - 1));
    }
  }

  lemma {:induction false} BeFromBe(s: seq<byte>)
    ensures Be(FromBe(s), |s|) == s
  {
    if s != [] {
      BeFromBe(s[..|s| - 1]);
      var n, last := FromBe(s[..|s| - 1]), s[|s| - 1];
      assert (256 * n + last) / 256 == n && (256 * n + last) % 256 == last;
    }
  }

  lemma ModSplit(n: nat, p: nat)
    requires p >= 1
    ensures n % (256 * p) == 256 * ((n / 256) % p) + n % 256
  {
    var q, r := n / 256, n % 256;
    var k, m := q / p, q % p;
    assert q == k * p + m;
    assert n == 256 * (k * p + m) + r;
    assert 256 * (k * p) == k * (256 * p);
    assert n == k * (256 * p) + (256 * m + r);
    assert 0 <= 256 * m + r < 256 * p;
    DivModUnique(n, 256 * p, k, 256 * m + r);
  }

  /** Quotient and remainder are determined by the division equation. */
  lemma DivModUnique(n: int, d: int, q: int, r: int)
    requires 0 <= r < d && n == q * d + r
    ensures n % d == r && n / d == q
  {
    var q', r' := n / d, n % d;
    assert n == q' * d + r';
    assert (q - q') * d == r' - r;
    SmallMultiple(q - q', d);
  }

  /** A multiple of `d` strictly between -d and d is zero. */
  lemma SmallMultiple(k: int, d: int)
    requires 0 < d && -d < k * d < d
    ensures k == 0
  {
    assert k >= 1 ==> k * d >= d;
    assert k <= -1 ==> k * d <= -d;
  }

  lemma {:induction false} FromBeBound(s: seq<byte>)
    ensures FromBe(s) < Pow256(|s|)
  {
    if s != [] {
      FromBeBound(s[..|s| - 1]);
    }
  }

  lemma Widths()
    ensures Pow256(2) == 0x1_0000
    ensures Pow256(4) == 0x1_0000_0000
    ensures Pow256(8) == 0x1_0000_0000_0000_0000
  {
    assert Pow256(1) == 256 && Pow256(3) == 0x100_0000;
    assert Pow256(5) == 256 * Pow256(4);
    assert Pow256(6) == 256 * Pow256(5);
    assert Pow256(7) == 256 * Pow256(6);
  }

  /** Moving the head of a queue to the end of what was sent. */
  lemma Regroup<T>(sent: seq<T>, queue: seq<T>)
    requires queue != []
    ensures sent + [queue[0]] + queue[1..] == sent + queue
  {
  }

  /** Concatenation of a list of chunks. */
  function Flatten<T>(chunks: seq<seq<T>>): (s: seq<T>)
  {
    if chunks == [] then [] else chunks[0] + Flatten(chunks[1..])
  }
}
