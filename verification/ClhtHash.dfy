/** clht_hash, the bucket of a key: the bits of the key under the mask num_buckets - 1. */
module ClhtHash {
  import opened Common

  /** Bitwise and. */
  function And(a: nat, b: nat): nat {
    if a == 0 then 0 else (if a % 2 == 1 && b % 2 == 1 then 1 else 0) + 2 * And(a / 2, b / 2)
  }

  function Bin(n: nat, key: nat): nat { if n == 0 then 0 else And(key, n - 1) }

  lemma {:induction false} AndBelow(a: nat, b: nat)
    ensures And(a, b) <= b
  {
    if a != 0 { AndBelow(a / 2, b / 2); }
  }

  lemma {:induction false} AndAssociates(a: nat, b: nat, c: nat)
    ensures And(And(a, b), c) == And(a, And(b, c))
  {
    if a != 0 {
      AndAssociates(a / 2, b / 2, c / 2);
      AndHalves(a, b);
      AndHalves(b, c);
      AndHalves(And(a, b), c);
      AndHalves(a, And(b, c));
    }
  }

  /** The last bit and the others. */
  lemma AndHalves(a: nat, b: nat)
    ensures And(a, b) / 2 == And(a / 2, b / 2) && (And(a, b) % 2 == 1 <==> a % 2 == 1 && b % 2 == 1)
  {
  }

  lemma {:induction false} AndSwaps(a: nat, b: nat)
    ensures And(a, b) == And(b, a)
    decreases a + b
  {
    AndHalves(a, b);
    AndHalves(b, a);
    if a + b > 0 { AndSwaps(a / 2, b / 2); }
  }

  lemma {:induction false} AndSame(a: nat)
    ensures And(a, a) == a
  {
    if a != 0 { AndSame(a / 2); }
  }

  lemma BinInside(n: nat, key: nat)
    requires n != 0
    ensures Bin(n, key) < n
  {
    AndBelow(key, n - 1);
  }

  // ---- growing a table ----

  /** The larger mask covers the smaller one. */
  predicate Nested(n: nat, m: nat) { n > 0 && m > 0 && And(m - 1, n - 1) == n - 1 }

  /** Keys of different buckets of n stay apart in m. */
  ghost predicate KeepsApart(n: nat, m: nat) {
    forall k: nat, l: nat :: k != 0 && l != 0 && Bin(m, k) == Bin(m, l) ==> Bin(n, k) == Bin(n, l)
  }

  /** The bucket in the smaller table follows from the one in the larger. */
  lemma BinRefines(n: nat, m: nat, key: nat)
    requires Nested(n, m)
    ensures Bin(n, Bin(m, key)) == Bin(n, key)
  {
    AndAssociates(key, m - 1, n - 1);
  }

  predicate PowerOfTwo(n: nat) { n == 1 || (n > 1 && n % 2 == 0 && PowerOfTwo(n / 2)) }

  lemma {:induction false} PowersNested(n: nat, m: nat)
    requires PowerOfTwo(n) && PowerOfTwo(m) && n <= m
    ensures Nested(n, m)
  {
    AndHalves(m - 1, n - 1);
    if n > 1 { PowersNested(n / 2, m / 2); } else { AndSwaps(m - 1, 0); }
  }

  /** A bit above the mask changes nothing. */
  lemma {:induction false} HighBit(x: nat, b: nat, p: nat)
    requires PowerOfTwo(p) && x < p && b < p
    ensures And(x + p, b) == And(x, b)
  {
    AndHalves(x + p, b);
    AndHalves(x, b);
    if p > 1 {
      assert (x + p) / 2 == x / 2 + p / 2;
      HighBit(x / 2, b / 2, p / 2);
    } else {
      AndSwaps(x + p, 0);
    }
  }

  lemma {:induction false} PowerAbove(n: nat) returns (p: nat)
    ensures PowerOfTwo(p) && p > n
  {
    if n == 0 { return 1; }
    var q := PowerAbove(n / 2);
    return 2 * q;
  }

  /** Two tables keep keys apart exactly when their masks are nested; for powers of two they are. */
  lemma KeepsApartIff(n: nat, m: nat)
    requires n > 0 && m > 0
    ensures KeepsApart(n, m) <==> Nested(n, m)
  {
    if Nested(n, m) {
      forall k: nat, l: nat | k != 0 && l != 0 && Bin(m, k) == Bin(m, l) ensures Bin(n, k) == Bin(n, l) {
        BinRefines(n, m, k);
        BinRefines(n, m, l);
      }
    }
    if KeepsApart(n, m) { ApartNested(n, m); }
  }

  /** The full smaller mask, with and without the bits the larger one misses, has to tell the two apart. */
  lemma ApartNested(n: nat, m: nat)
    requires n > 0 && m > 0 && KeepsApart(n, m)
    ensures Nested(n, m)
  {
    var p := PowerAbove(n + m);
    var a, b := n - 1, m - 1;
    var c := And(a, b);
    AndBelow(a, b);
    HighBit(a, a, p);
    HighBit(c, a, p);
    HighBit(a, b, p);
    HighBit(c, b, p);
    AndSame(a);
    AndSame(b);
    AndAssociates(a, b, b);
    assert Bin(m, a + p) == Bin(m, c + p);
    AndSwaps(a, b);
    AndAssociates(b, a, a);
    assert Bin(n, a + p) == a && Bin(n, c + p) == c;
  }

  /** A size that is not a power of two: doubling 3 buckets mixes keys of different buckets. */
  lemma OddSizesMix()
    ensures Bin(3, 8) != Bin(3, 10) && Bin(6, 8) == Bin(6, 10)
  {
  }

  lemma HalfRemainder(h: nat, key: nat)
    requires h > 0
    ensures key % (2 * h) == key % 2 + 2 * (key / 2 % h)
  {
    var x := key / 2;
    var q, r := x / h, x % h;
    assert x == q * h + r;
    Doubles(q, h);
    UniqueRemainder(key, q, key % 2 + 2 * r, 2 * h);
  }

  lemma Doubles(q: nat, h: nat)
    ensures q * (2 * h) == 2 * (q * h)
  {
  }

  /** For powers of two the mask is the remainder. */
  lemma {:induction false} MaskIsRemainder(n: nat, key: nat)
    requires PowerOfTwo(n)
    ensures Bin(n, key) == key % n
  {
    if n == 1 {
      AndBelow(key, 0);
    } else {
      MaskIsRemainder(n / 2, key / 2);
      AndHalves(key, n - 1);
      HalfRemainder(n / 2, key);
    }
  }
}
