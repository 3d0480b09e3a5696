/** A wrapping counter taken modulo the number of targets, as the vhost table and the group picker use it. */
module RoundRobin {
  import opened Bytes

  /** Target of the i-th pick from counter value `counter`, where the counter wraps at `modulus`. */
  function Pick(counter: nat, i: nat, len: nat, modulus: nat): (k: nat)
    requires len > 0 && modulus > 0
    ensures k < len
  {
    ((counter + i) % modulus) % len
  }

  ghost predicate Reached(counter: nat, len: nat, modulus: nat, target: nat)
    requires len > 0 && modulus > 0
  {
    exists i: nat :: i < len && Pick(counter, i, len, modulus) == target
  }

  /** `len` consecutive picks reach every target, each exactly once. */
  ghost predicate EachOnce(counter: nat, len: nat, modulus: nat)
    requires len > 0 && modulus > 0
  {
    && (forall j: nat :: j < len ==> Reached(counter, len, modulus, j))
    && (forall i: nat, k: nat :: i < k < len ==> Pick(counter, i, len, modulus) != Pick(counter, k, len, modulus))
  }

  lemma ModOfMultiple(x: nat, len: nat, modulus: nat)
    requires len > 0 && modulus > 0 && modulus % len == 0
    ensures (x % modulus) % len == x % len
  {
    var q, r := x / modulus, x % modulus;
    var m := modulus / len;
    assert modulus == m * len;
    assert x == q * modulus + r;
    assert q * modulus == (q * m) * len;
    var q', r' := r / len, r % len;
    assert r == q' * len + r';
    assert x == (q * m + q') * len + r' by {
      assert (q * m + q') * len == (q * m) * len + q' * len;
    }
    DivModUnique(x, len, q * m + q', r');
  }

  /** Without a wrap inside the window, or when the wrap is invisible, a pick is a plain remainder. */
  lemma PlainPick(counter: nat, i: nat, len: nat, modulus: nat)
    requires len > 0 && counter < modulus
    requires counter + i < modulus || modulus % len == 0
    ensures Pick(counter, i, len, modulus) == (counter + i) % len
  {
    if modulus % len == 0 {
      ModOfMultiple(counter + i, len, modulus);
    } else {
      DivModUnique(counter + i, modulus, 0, counter + i);
    }
  }

  /** After one pick the counter has moved on by one. */
  lemma PickShift(counter: nat, i: nat, len: nat, modulus: nat)
    requires len > 0 && counter < modulus && i > 0
    ensures Pick((counter + 1) % modulus, i - 1, len, modulus) == Pick(counter, i, len, modulus)
  {
    if counter + 1 == modulus {
      DivModUnique(counter + 1, modulus, 1, 0);
      var q, r := (i - 1) / modulus, (i - 1) % modulus;
      assert counter + i == (q + 1) * modulus + r;
      DivModUnique(counter + i, modulus, q + 1, r);
    } else {
      DivModUnique(counter + 1, modulus, 0, counter + 1);
    }
  }

  lemma FirstPick(counter: nat, len: nat, modulus: nat)
    requires len > 0 && counter < modulus
    ensures Pick(counter, 0, len, modulus) == counter % len
  {
    DivModUnique(counter, modulus, 0, counter);
  }

  lemma SameRemainder(a: nat, b: nat, len: nat)
    requires len > 0 && a < b < a + len
    ensures a % len != b % len
  {
    if a % len == b % len {
      var k := b / len - a / len;
      assert b - a == k * len by {
        assert a == (a / len) * len + a % len && b == (b / len) * len + b % len;
      }
      SmallMultiple(k, len);
    }
  }

  lemma Reaches(counter: nat, j: nat, len: nat) returns (i: nat)
    requires j < len
    ensures i < len && (counter + i) % len == j
  {
    var r := counter % len;
    i := if j >= r then j - r else j - r + len;
    var q := counter / len;
    assert counter + i == (if j >= r then q else q + 1) * len + j;
    DivModUnique(counter + i, len, if j >= r then q else q + 1, j);
  }

  lemma FairWithoutWrap(counter: nat, len: nat, modulus: nat)
    requires 0 < len <= modulus && counter < modulus
    requires counter + len <= modulus || modulus % len == 0
    ensures EachOnce(counter, len, modulus)
  {
    forall j: nat | j < len ensures Reached(counter, len, modulus, j) {
      var i := Reaches(counter, j, len);
      PlainPick(counter, i, len, modulus);
      assert Pick(counter, i, len, modulus) == j;
    }
    forall i: nat, k: nat | i < k < len ensures Pick(counter, i, len, modulus) != Pick(counter, k, len, modulus) {
      PlainPick(counter, i, len, modulus);
      PlainPick(counter, k, len, modulus);
      SameRemainder(counter + i, counter + k, len);
    }
  }

  /** A visible wrap inside the window makes two of its picks coincide. */
  lemma WrapRepeats(counter: nat, len: nat, modulus: nat) returns (i: nat, k: nat)
    requires 0 < len <= modulus && counter < modulus
    requires counter + len > modulus && modulus % len != 0
    ensures i < k < len && Pick(counter, i, len, modulus) == Pick(counter, k, len, modulus)
  {
    var q, r := modulus / len, modulus % len;
    var m := modulus - counter;
    assert modulus == q * len + r;
    if r <= m {
      i, k := m - r, m;
      PickBelow(counter, i, len, modulus, q, 0);
      PickPast(counter, k, len, modulus, 0);
    } else {
      i, k := 0, r;
      PickBelow(counter, i, len, modulus, q, r - m);
      PickPast(counter, k, len, modulus, r - m);
    }
  }

  lemma PickBelow(counter: nat, i: nat, len: nat, modulus: nat, q: nat, target: nat)
    requires 0 < len && counter + i < modulus && target < len && counter + i == q * len + target
    ensures Pick(counter, i, len, modulus) == target
  {
    DivModUnique(counter + i, modulus, 0, counter + i);
    DivModUnique(counter + i, len, q, target);
  }

  lemma PickPast(counter: nat, i: nat, len: nat, modulus: nat, target: nat)
    requires 0 < len <= modulus && counter + i == modulus + target && target < len
    ensures Pick(counter, i, len, modulus) == target
  {
    DivModUnique(counter + i, modulus, 1, target);
    DivModUnique(target, len, 0, target);
  }

  /**
   * `len` consecutive picks reach every target exactly once if and only if the counter's wrap is outside the
   * window or invisible.
   */
  lemma FairIffNoVisibleWrap(counter: nat, len: nat, modulus: nat)
    requires 0 < len <= modulus && counter < modulus
    ensures EachOnce(counter, len, modulus) <==> counter + len <= modulus || modulus % len == 0
  {
    if counter + len <= modulus || modulus % len == 0 {
      FairWithoutWrap(counter, len, modulus);
    } else {
      var i, k := WrapRepeats(counter, len, modulus);
    }
  }

  /** A visible wrap inside the window makes it miss a target altogether. */
  lemma WrapMisses(counter: nat, len: nat, modulus: nat) returns (target: nat)
    requires 0 < len <= modulus && counter < modulus
    requires counter + len > modulus && modulus % len != 0
    ensures target < len && !Reached(counter, len, modulus, target)
  {
    var q, r := modulus / len, modulus % len;
    var m := modulus - counter;
    target := if r <= m then len - m + r - 1 else len - 1;
    forall i: nat | i < len ensures Pick(counter, i, len, modulus) != target {
      if i >= m {
        PickPast(counter, i, len, modulus, i - m);
      } else if i < m - r {
        assert counter + i == (q - 1) * len + (len + r + i - m) by {
          assert (q - 1) * len == q * len - len;
        }
        assert q >= 1;
        PickBelow(counter, i, len, modulus, q - 1, len + r + i - m);
      } else {
        PickBelow(counter, i, len, modulus, q, r + i - m);
      }
    }
  }
}
