/** Small vocabulary shared by all the models. */
module Common {

  datatype Option<+T> = None | Some(value: T)

  /** Reads a map, falling back to a default for keys that were never written. */
  function Get<K, V>(m: map<K, V>, k: K, default: V): V {
    if k in m then m[k] else default
  }

  predicate NoDup<T(==)>(s: seq<T>) {
    forall i, j :: 0 <= i < j < |s| ==> s[i] != s[j]
  }

  /** A duplicate-free sequence of numbers below n has at most n elements. */
  lemma {:induction false} Pigeonhole(s: seq<nat>, n: nat)
    requires NoDup(s) && forall x :: x in s ==> x < n
    ensures |s| <= n
    ensures |s| == n ==> forall x: nat :: x < n ==> x in s
    decreases n
  {
    if s == [] { return; }
    assert s[0] in s;
    if n - 1 in s {
      var i :| 0 <= i < |s| && s[i] == n - 1;
      var rest := s[..i] + s[i + 1..];
      forall x | x in rest ensures x < n - 1 && x in s {
        var j :| 0 <= j < |rest| && rest[j] == x;
        var k := if j < i then j else j + 1;
        assert rest[j] == s[k] && s[k] in s && s[k] != s[i];
      }
      Pigeonhole(rest, n - 1);
      forall x: nat | |s| == n && x < n ensures x in s {
        if x < n - 1 { assert x in rest; }
      }
    } else {
      Pigeonhole(s, n - 1);
    }
  }

  /** Quotient and remainder are unique. */
  lemma UniqueRemainder(x: nat, q: nat, r: nat, bs: nat)
    requires r < bs && x == q * bs + r
    ensures x / bs == q && x % bs == r
  {
    var q', r' := x / bs, x % bs;
    assert x == q' * bs + r';
    assert (q - q') * bs == r' - r;
    if q > q' { Grows(q - q', bs); } else if q < q' { Grows(q' - q, bs); }
  }

  lemma Grows(k: nat, bs: nat)
    requires k >= 1
    ensures k * bs >= bs
  {
  }
}
