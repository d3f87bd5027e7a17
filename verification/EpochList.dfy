/** The per-thread list of nodes waiting to be freed: labels of up to 32 nodes, newest first. */
module EpochList {
  import opened Common

  const PER_LABEL := 32

  datatype Label = Label(nodes: seq<nat>, epoch: nat)

  /** How many nodes the labels hold. */
  function Count(ls: seq<Label>): nat { if ls == [] then 0 else |ls[0].nodes| + Count(ls[1..]) }

  /** DeletionList::add: the newest label takes the node and the current epoch, or a new one does. */
  function Added(ls: seq<Label>, n: nat, epoch: nat): seq<Label> {
    if ls != [] && |ls[0].nodes| < PER_LABEL then [Label(ls[0].nodes + [n], epoch)] + ls[1..]
    else [Label([n], epoch)] + ls
  }

  function Without(ls: seq<Label>, i: nat): seq<Label>
    requires i < |ls|
  {
    ls[..i] + ls[i + 1..]
  }

  lemma {:induction false} CountWithout(ls: seq<Label>, i: nat)
    requires i < |ls|
    ensures Count(ls) == |ls[i].nodes| + Count(Without(ls, i))
  {
    if i == 0 { assert Without(ls, 0) == ls[1..]; }
    else { CountWithout(ls[1..], i - 1); assert Without(ls, i) == [ls[0]] + Without(ls[1..], i - 1); }
  }

  lemma CountAdded(ls: seq<Label>, n: nat, epoch: nat)
    ensures Count(Added(ls, n, epoch)) == Count(ls) + 1
  {
    var r := Added(ls, n, epoch);
    if ls != [] && |ls[0].nodes| < PER_LABEL { assert r[1..] == ls[1..]; } else { assert r[1..] == ls; }
  }

  class DeletionList {
    var labels: seq<Label>
    var count: nat
    var added: nat
    var deleted: nat

    ghost predicate Valid()
      reads this
    {
      count == Count(labels) && added == deleted + count && forall i :: 0 <= i < |labels| ==>
        0 < |labels[i].nodes| <= PER_LABEL
    }

    constructor ()
      ensures Valid() && labels == [] && added == 0 && deleted == 0
    {
      labels, count, added, deleted := [], 0, 0, 0;
    }

    method Add(n: nat, epoch: nat)
      requires Valid()
      modifies this
      ensures Valid() && labels == Added(old(labels), n, epoch) && added == old(added) + 1 && deleted == old(deleted)
    {
      CountAdded(labels, n, epoch);
      count := count + 1;
      if labels != [] && |labels[0].nodes| < PER_LABEL {
        labels := [Label(labels[0].nodes + [n], epoch)] + labels[1..];
      } else {
        labels := [Label([n], epoch)] + labels;
      }
      added := added + 1;
    }

    method Remove(i: nat)
      requires Valid() && i < |labels|
      modifies this
      ensures Valid() && labels == Without(old(labels), i) && added == old(added)
        && deleted == old(deleted) + |old(labels)[i].nodes|
    {
      CountWithout(labels, i);
      count := count - |labels[i].nodes|;
      deleted := deleted + |labels[i].nodes|;
      labels := Without(labels, i);
    }

    /** The cleanup loop: frees and drops every label older than `oldest`, and no other. */
    method Cleanup(oldest: Option<nat>) returns (freed: seq<nat>)
      requires Valid()
      modifies this
      ensures Valid() && labels == Young(old(labels), oldest) && added == old(added)
        && freed == Old(old(labels), oldest)
      ensures deleted == old(deleted) + |freed|
    {
      hide Young, Old, Without, Count;
      freed := [];
      var cur := 0;
      KeptSoFar(labels, oldest);
      while cur < |labels|
        invariant cur <= |labels| && Valid() && added == old(added) && deleted == old(deleted) + |freed|
        invariant labels[..cur] + Young(labels[cur..], oldest) == Young(old(labels), oldest)
        invariant freed + Old(labels[cur..], oldest) == Old(old(labels), oldest)
        decreases |labels| - cur
      {
        RoundSplits(labels, cur, oldest, freed);
        if Older(labels[cur].epoch, oldest) {
          freed := freed + labels[cur].nodes;
          Remove(cur);
        } else {
          cur := cur + 1;
        }
      }
      AllSeen(labels, oldest, freed);
    }
  }

  /** epoch < oldest, where None stands for the largest epoch. */
  predicate Older(epoch: nat, oldest: Option<nat>) { oldest.None? || epoch < oldest.value }

  function Young(ls: seq<Label>, oldest: Option<nat>): seq<Label> {
    if ls == [] then [] else (if Older(ls[0].epoch, oldest) then [] else [ls[0]]) + Young(ls[1..], oldest)
  }

  function Old(ls: seq<Label>, oldest: Option<nat>): seq<nat> {
    if ls == [] then [] else (if Older(ls[0].epoch, oldest) then ls[0].nodes else []) + Old(ls[1..], oldest)
  }

  /** One round of the cleanup loop. */
  lemma RoundSplits(ls: seq<Label>, cur: nat, oldest: Option<nat>, freed: seq<nat>)
    requires cur < |ls|
    ensures var ls' := Without(ls, cur);
      if Older(ls[cur].epoch, oldest) then
        && cur <= |ls'| < |ls| && ls'[..cur] + Young(ls'[cur..], oldest) == ls[..cur] + Young(ls[cur..], oldest)
        && (freed + ls[cur].nodes) + Old(ls'[cur..], oldest) == freed + Old(ls[cur..], oldest)
      else
        && ls[..cur + 1] + Young(ls[cur + 1..], oldest) == ls[..cur] + Young(ls[cur..], oldest)
        && Old(ls[cur + 1..], oldest) == Old(ls[cur..], oldest)
  {
    var rest, ls' := ls[cur..], Without(ls, cur);
    assert rest[0] == ls[cur] && rest[1..] == ls[cur + 1..];
    assert ls'[..cur] == ls[..cur] && ls'[cur..] == ls[cur + 1..] && ls[..cur + 1] == ls[..cur] + [ls[cur]];
  }

  lemma AllSeen(ls: seq<Label>, oldest: Option<nat>, freed: seq<nat>)
    ensures ls[..|ls|] + Young(ls[|ls|..], oldest) == ls && freed + Old(ls[|ls|..], oldest) == freed
  {
  }

  lemma KeptSoFar(ls: seq<Label>, oldest: Option<nat>)
    ensures ls[..0] + Young(ls[0..], oldest) == Young(ls, oldest) && [] + Old(ls[0..], oldest) == Old(ls, oldest)
  {
    assert ls[0..] == ls;
  }

  /** Nothing is lost: every node is either kept or freed. */
  lemma {:induction false} CleanupSplits(ls: seq<Label>, oldest: Option<nat>)
    ensures Count(ls) == Count(Young(ls, oldest)) + |Old(ls, oldest)|
  {
    if ls != [] {
      CleanupSplits(ls[1..], oldest);
      if Older(ls[0].epoch, oldest) { assert Young(ls, oldest) == Young(ls[1..], oldest); }
      else { assert Young(ls, oldest)[1..] == Young(ls[1..], oldest); }
    }
  }
}
