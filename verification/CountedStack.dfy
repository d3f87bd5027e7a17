/**
 * The two descriptor stacks of Ralloc: a head word that packs a pointer with a
 * counter, and a next field in every node.  Only a push advances the counter.
 */
module CountedStack {
  import opened Common

  datatype Head = Head(ptr: Option<nat>, cnt: nat)

  function PtrAt(l: seq<nat>, i: nat): Option<nat> {
    if i < |l| then Some(l[i]) else None
  }

  /** Following next from ptr visits exactly l and then stops. */
  predicate IsList(next: map<nat, Option<nat>>, ptr: Option<nat>, l: seq<nat>) {
    && ptr == PtrAt(l, 0)
    && NoDup(l)
    && forall i :: 0 <= i < |l| ==> l[i] in next && next[l[i]] == PtrAt(l, i + 1)
  }

  /**
   * What a thread that once loaded `was` (non-null) can rely on: the counter never goes back,
   * and while it stands still either the head is the one loaded or that node has left the list.
   */
  predicate Loaded(head: Head, l: seq<nat>, was: Head) {
    && was.ptr.Some?
    && was.cnt <= head.cnt
    && (was.cnt == head.cnt ==> was == head || was.ptr.value !in l)
  }

  /** A next pointer loaded under `was` is the true successor as long as the head is `was`. */
  predicate LoadedNext(head: Head, next: map<nat, Option<nat>>, was: Head, nx: Option<nat>) {
    was.ptr.Some? && (was == head ==> Get(next, was.ptr.value, None) == nx)
  }

  /** A pop CAS that succeeds unlinks exactly the first node, whatever happened since the loads. */
  lemma PopIsSequential(head: Head, next: map<nat, Option<nat>>, l: seq<nat>, was: Head, nx: Option<nat>)
    requires IsList(next, head.ptr, l)
    requires was == head && LoadedNext(head, next, was, nx)
    ensures l != [] && was.ptr == Some(l[0])
    ensures IsList(next, nx, l[1..])
    ensures l[0] !in l[1..]
  {
    assert next[l[0]] == PtrAt(l, 1);
    forall i | 0 <= i < |l[1..]| ensures l[1..][i] in next && next[l[1..][i]] == PtrAt(l[1..], i + 1) {
      assert l[1..][i] == l[i + 1];
    }
  }

  /** A push CAS that succeeds puts a private chain on top of the list. */
  lemma PushIsSequential(head: Head, next: map<nat, Option<nat>>, l: seq<nat>, chain: seq<nat>)
    requires IsList(next, head.ptr, l)
    requires chain != [] && NoDup(chain) && forall x :: x in chain ==> x !in l && x in next
    requires forall i :: 0 <= i < |chain| - 1 ==> next[chain[i]] == Some(chain[i + 1])
    requires next[chain[|chain| - 1]] == head.ptr
    ensures IsList(next, Some(chain[0]), chain + l)
  {
    var r := chain + l;
    forall i, j | 0 <= i < j < |r| ensures r[i] != r[j] {
      if i < |chain| <= j { assert r[i] in chain && r[j] in l; }
    }
    forall i | 0 <= i < |r| ensures r[i] in next && next[r[i]] == PtrAt(r, i + 1) {
      if i < |chain| { assert r[i] in chain; }
    }
  }

  /** Writing the next field of a node outside the list leaves the list as it was. */
  lemma ScribbleOutside(next: map<nat, Option<nat>>, ptr: Option<nat>, l: seq<nat>, d: nat, v: Option<nat>)
    requires IsList(next, ptr, l) && d !in l
    ensures IsList(next[d := v], ptr, l)
  {
  }

  /** What a thread loaded stays reliable across another thread's pop ... */
  lemma LoadedAfterPop(head: Head, next: map<nat, Option<nat>>, l: seq<nat>, nx: Option<nat>, was: Head)
    requires IsList(next, head.ptr, l) && l != [] && IsList(next, nx, l[1..])
    requires Loaded(head, l, was)
    ensures Loaded(Head(nx, head.cnt), l[1..], was)
    ensures was != Head(nx, head.cnt)
  {
    assert forall x :: x in l[1..] ==> x in l;
    if was.cnt == head.cnt && l[1..] != [] { assert nx == Some(l[1]); assert l[1] in l; }
  }

  /** ... and across a push. */
  lemma LoadedAfterPush(head: Head, l: seq<nat>, l': seq<nat>, p: Option<nat>, was: Head)
    requires Loaded(head, l, was)
    ensures Loaded(Head(p, head.cnt + 1), l', was)
    ensures was != Head(p, head.cnt + 1)
  {
  }

  /** A head and the next fields determine the list. */
  lemma UniqueList(next: map<nat, Option<nat>>, ptr: Option<nat>, l: seq<nat>, l': seq<nat>)
    requires IsList(next, ptr, l) && IsList(next, ptr, l')
    ensures l == l'
  {
    SameUpTo(next, ptr, l, l', if |l| < |l'| then |l| else |l'|);
  }

  lemma {:induction false} SameUpTo(next: map<nat, Option<nat>>, ptr: Option<nat>, l: seq<nat>, l': seq<nat>, n: nat)
    requires IsList(next, ptr, l) && IsList(next, ptr, l') && n <= |l| && n <= |l'|
    ensures l[..n] == l'[..n] && PtrAt(l, n) == PtrAt(l', n)
  {
    if n > 0 {
      SameUpTo(next, ptr, l, l', n - 1);
      assert l[n - 1] == l'[n - 1];
    }
  }
}
