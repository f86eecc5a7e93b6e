/** The list of nodes waiting for a larger quota (sysqos_waitincrease_list.c). */
module WaitIncrease {
  import opened Rings

  // ----- The abstract list

  ghost function Without(s: seq<ListHead>, n: ListHead): seq<ListHead> {
    if s == [] then []
    else if s[0] == n then Without(s[1..], n)
    else [s[0]] + Without(s[1..], n)
  }

  datatype Op = Enqueue(node: ListHead) | Erase(node: ListHead)

  ghost function Apply(s: seq<ListHead>, op: Op): seq<ListHead> {
    match op
    case Enqueue(n) => Without(s, n) + [n]
    case Erase(n) => Without(s, n)
  }

  ghost function After(ops: seq<Op>): seq<ListHead> {
    if ops == [] then [] else Apply(After(ops[..|ops| - 1]), ops[|ops| - 1])
  }

  // The last operation on n, or -1.
  ghost function Last(ops: seq<Op>, n: ListHead): int {
    if ops == [] then -1
    else if ops[|ops| - 1].node == n then |ops| - 1
    else Last(ops[..|ops| - 1], n)
  }

  lemma {:induction false} LastInRange(ops: seq<Op>, n: ListHead)
    ensures -1 <= Last(ops, n) < |ops|
    ensures 0 <= Last(ops, n) ==> ops[Last(ops, n)].node == n
  {
    if ops == [] {
    } else {
      LastInRange(ops[..|ops| - 1], n);
    }
  }

  // Ordered by the latest operation, hence free of repetition.
  ghost predicate Ordered(s: seq<ListHead>, ops: seq<Op>) {
    forall i, j :: 0 <= i < j < |s| ==> Last(ops, s[i]) < Last(ops, s[j])
  }

  lemma {:induction false} WithoutMembers(s: seq<ListHead>, n: ListHead)
    ensures forall i | 0 <= i < |Without(s, n)| :: Without(s, n)[i] in s && Without(s, n)[i] != n
    ensures forall i | 0 <= i < |s| && s[i] != n :: s[i] in Without(s, n)
  {
    if s == [] {
    } else {
      WithoutMembers(s[1..], n);
      assert s == [s[0]] + s[1..];
      forall i | 0 <= i < |s| && s[i] != n
        ensures s[i] in Without(s, n)
      {
        if i > 0 {
          assert s[1..][i - 1] in Without(s[1..], n);
        }
      }
    }
  }

  // Taking one element out keeps the order of the others.
  lemma {:induction false} WithoutOrdered(s: seq<ListHead>, n: ListHead, ops: seq<Op>)
    requires Ordered(s, ops)
    ensures Ordered(Without(s, n), ops)
  {
    if s == [] {
    } else {
      WithoutOrdered(s[1..], n, ops);
      WithoutMembers(s[1..], n);
      var t := Without(s[1..], n);
      if s[0] != n {
        forall j | 0 <= j < |t|
          ensures Last(ops, s[0]) < Last(ops, t[j])
        {
          assert t[j] in s[1..];
        }
      }
    }
  }

  lemma {:induction false} ListedByLatest(ops: seq<Op>)
    ensures forall x :: x in After(ops) <==> (0 <= Last(ops, x) < |ops| && ops[Last(ops, x)] == Enqueue(x))
  {
    hide Without;
    if ops == [] {
    } else {
      var ops0, op := ops[..|ops| - 1], ops[|ops| - 1];
      ListedByLatest(ops0);
      WithoutMembers(After(ops0), op.node);
      forall x
        ensures x in After(ops) <==> (0 <= Last(ops, x) < |ops| && ops[Last(ops, x)] == Enqueue(x))
      {
        LastInRange(ops0, x);
      }
    }
  }

  // One more operation on n, of which the nodes of t know nothing.
  lemma LaterOrdered(t: seq<ListHead>, ops: seq<Op>)
    requires ops != [] && Lacks(t, ops[|ops| - 1].node) && Ordered(t, ops[..|ops| - 1])
    ensures Ordered(t, ops) && Ordered(t + [ops[|ops| - 1].node], ops)
  {
    var ops0, n := ops[..|ops| - 1], ops[|ops| - 1].node;
    forall i | 0 <= i < |t|
      ensures Last(ops, t[i]) == Last(ops0, t[i]) < Last(ops, n)
    {
      LastInRange(ops0, t[i]);
    }
  }

  // n is not among them.
  ghost predicate Lacks(t: seq<ListHead>, n: ListHead) {
    forall i :: 0 <= i < |t| ==> t[i] != n
  }

  lemma {:induction false} OrderedByLatest(ops: seq<Op>)
    ensures Ordered(After(ops), ops)
  {
    hide Without, Last;
    if ops == [] {
    } else {
      var ops0, op := ops[..|ops| - 1], ops[|ops| - 1];
      OrderedByLatest(ops0);
      WithoutMembers(After(ops0), op.node);
      WithoutOrdered(After(ops0), op.node, ops0);
      LaterOrdered(Without(After(ops0), op.node), ops);
    }
  }

  // After any operations: a node is in the list exactly if the last operation on it was an enqueue, no node is in it
  // twice, and nodes stand in the order of their latest enqueue.
  lemma OrderedByLatestEnqueue(ops: seq<Op>)
    ensures forall x :: x in After(ops) <==> (0 <= Last(ops, x) < |ops| && ops[Last(ops, x)] == Enqueue(x))
    ensures Ordered(After(ops), ops) && Distinct(After(ops))
  {
    hide After, Last;
    ListedByLatest(ops);
    OrderedByLatest(ops);
  }

  // ----- The pointers

  lemma Rotate(s: seq<ListHead>, k: nat)
    requires Ring(s) && k < |s|
    ensures Ring(s[k..] + s[..k])
  {
    var t := s[k..] + s[..k];
    forall i | 0 < i < |t|
      ensures Joined(t[i - 1], t[i])
    {
      if i < |s| - k {
        assert Joined(s[k + i - 1], s[k + i]);
      } else if i > |s| - k {
        assert Joined(s[k + i - 1 - |s|], s[k + i - |s|]);
      }
    }
    if k > 0 {
      assert Joined(s[k - 1], s[k]);
    }
  }

  lemma {:induction false} WithoutAt(s: seq<ListHead>, k: nat)
    requires Distinct(s) && k < |s|
    ensures Without(s, s[k]) == s[..k] + s[k + 1..]
  {
    if k == 0 {
      WithoutNone(s[1..], s[0]);
    } else {
      WithoutAt(s[1..], k - 1);
    }
  }

  lemma {:induction false} WithoutNone(s: seq<ListHead>, n: ListHead)
    requires n !in s
    ensures Without(s, n) == s
  {
    if s == [] {
    } else {
      WithoutNone(s[1..], n);
    }
  }

  class WaitIncreaseList {
    const head: ListHead

    constructor ()
      ensures fresh(head) && Ring([head])
    {
      head := new ListHead();
    }

    // n is in the list or in no list at all.
    ghost predicate Listed(s: seq<ListHead>, n: ListHead)
      reads head, s, n
    {
      Ring([head] + s) && n != head && (n in s || Ring([n]))
    }

    // The ring entered behind its element k, which then comes last.
    lemma CutAt(s: seq<ListHead>, k: nat)
      requires Ring([head] + s) && k < |s|
      ensures Ring(s[k + 1..] + [head] + s[..k] + [s[k]])
      ensures s[k].prev in [head] + s && s[k].next in [head] + s
    {
      var t, c := [head] + s, if k + 1 == |s| then 0 else k + 2;
      Rotate(t, c);
      assert t[c..] + t[..c] == s[k + 1..] + [head] + s[..k] + [s[k]];
      assert Joined(t[k], t[k + 1]) && Joined(t[k + 1], t[c]);
    }

    // What stands around n in its ring, n itself left out.
    ghost function Around(s: seq<ListHead>, n: ListHead): seq<ListHead> {
      if n in s then var k :| 0 <= k < |s| && s[k] == n; s[k + 1..] + [head] + s[..k] else []
    }

    lemma AroundRing(s: seq<ListHead>, n: ListHead)
      requires Listed(s, n)
      ensures Ring(Around(s, n) + [n]) && (n !in s ==> Without(s, n) == s)
      ensures n.prev in [head] + s + [n] && n.next in [head] + s + [n]
      ensures forall x <- Around(s, n) :: x in [head] + s
    {
      if n in s {
        var k :| 0 <= k < |s| && s[k] == n && Around(s, n) == s[k + 1..] + [head] + s[..k];
        CutAt(s, k);
      } else {
        WithoutNone(s, n);
        assert [] + [n] == [n];
      }
    }

    // Entered at the head again, what stood around n is the list without n.
    lemma AroundIs(s: seq<ListHead>, n: ListHead)
      requires n in s && Distinct(s) && Ring(Around(s, n))
      ensures Ring([head] + Without(s, n))
    {
      var k :| 0 <= k < |s| && s[k] == n && Around(s, n) == s[k + 1..] + [head] + s[..k];
      WithoutAt(s, k);
      Reentered(s[k + 1..], s[..k]);
    }

    lemma Reentered(after: seq<ListHead>, before: seq<ListHead>)
      requires Ring(after + [head] + before)
      ensures Ring([head] + (before + after))
    {
      var rest := after + [head] + before;
      Rotate(rest, |after|);
      assert rest[|after|..] + rest[..|after|] == [head] + (before + after);
    }

    lemma ListDistinct(s: seq<ListHead>)
      requires Distinct([head] + s)
      ensures Distinct(s)
    {
      assert forall i | 0 <= i < |s| :: ([head] + s)[i + 1] == s[i];
    }

    // `erase`: cut out, then linked to itself.
    method EraseNode(n: ListHead, ghost s: seq<ListHead>)
      requires Listed(s, n)
      modifies head, s, n
      ensures Ring([head] + Without(s, n)) && Ring([n])
    {
      hide Around;
      AroundRing(s, n);
      ghost var rest := Around(s, n);
      NoneTwice(n, rest);
      ListDistinct(s);
      if n in s {
        AroundNotEmpty(s, n);
      }
      Del(n, rest);
      assert n in s ==> Ring(rest);
      assert forall i | 0 <= i < |rest| :: rest[i] != n;
      label Cut:
      Init(n);
      if n in s {
        RingKept@Cut(rest);
        AroundIs(s, n);
      }
    }

    twostate lemma RingKept(r: seq<ListHead>)
      requires old(Ring(r)) && forall i | 0 <= i < |r| :: unchanged(r[i])
      ensures Ring(r)
    {
      forall i | 0 < i < |r|
        ensures Joined(r[i - 1], r[i])
      {
        assert old(Joined(r[i - 1], r[i]));
      }
    }

    lemma AroundNotEmpty(s: seq<ListHead>, n: ListHead)
      requires n in s
      ensures Around(s, n) != []
    {
    }

    // `enqueue`: wherever the node was, it ends up last.
    method EnqueueNode(n: ListHead, ghost s: seq<ListHead>)
      requires Listed(s, n)
      modifies head, s, n
      ensures Ring([head] + Apply(s, Enqueue(n)))
    {
      EraseNode(n, s);
      WithoutMembers(s, n);
      LastOfHead(Without(s, n));
      assert Without(s, n) != [] ==> Without(s, n)[|Without(s, n)| - 1] in s;
      AddTail(n, head, Without(s, n));
      assert [head] + Without(s, n) + [n] == [head] + Apply(s, Enqueue(n));
    }

    lemma LastOfHead(s: seq<ListHead>)
      requires Ring([head] + s)
      ensures head.prev == if s == [] then head else s[|s| - 1]
    {
    }

    // The nodes are apart from one another and from the head, listed in s or linked to themselves.
    ghost predicate Ready(s: seq<ListHead>, nodes: set<ListHead>)
      reads head, s, nodes
    {
      Ring([head] + s) && head !in nodes && (forall n <- s :: n in nodes) && (forall n <- nodes :: n in s || Ring([n]))
    }

    // Any inserts and erases of initialised nodes leave the pointers of the list that `After` gives.
    method Perform(ops: seq<Op>, ghost nodes: set<ListHead>)
      requires Ready([], nodes) && forall i :: 0 <= i < |ops| ==> ops[i].node in nodes
      modifies head, nodes
      ensures Ready(After(ops), nodes)
    {
      var i := 0;
      assert ops[..0] == [];
      while i < |ops|
        invariant 0 <= i <= |ops| && Ready(After(ops[..i]), nodes)
      {
        ghost var s := After(ops[..i]);
        assert ops[..i + 1][..i] == ops[..i];
        var n := ops[i].node;
        assert n in nodes;
        WithoutMembers(s, n);
        match ops[i] {
          case Enqueue(_) => EnqueueNode(n, s);
          case Erase(_) => EraseNode(n, s);
        }
        i := i + 1;
      }
      assert ops[..i] == ops;
    }

    method FirstNode(ghost s: seq<ListHead>) returns (n: ListHead, exist: bool)
      requires Ring([head] + s)
      ensures exist == (s != []) && (exist ==> n == s[0])
    {
      n := head.next;
      NextOfHead(head, s);
      exist := n != head;
      assert s != [] ==> ([head] + s)[0] != ([head] + s)[1];
    }
  }
}
