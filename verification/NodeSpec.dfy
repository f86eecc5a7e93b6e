/** One node (sysqos_dispatch_node.c, sysqos_nodereq_list.c) on values: its quota, its waiters, its fence. */
module NodeSpec {
  import opened Words
  import opened Objects
  import opened Quota
  import opened Sums

  datatype Node = Node(base: Base, queue: seq<TokenReq>, press: U64, fence: int)

  ghost function Fresh(fence: int): Node {
    Node(INITIAL, [], 0, fence)
  }

  // ----- The entry points

  // What a node step hands back: the node, the store, and the groups it completed, latest first.
  datatype Effect = Effect(node: Node, store: Store, due: seq<TokenReqGrp>)

  ghost function Push(n: Node, r: TokenReq): Node {
    n.(queue := n.queue + [r], press := Add64(n.press, r.cost))
  }

  ghost function Pop(n: Node): Node
    requires n.queue != []
  {
    n.(queue := n.queue[1..], press := Sub64(n.press, n.queue[0].cost))
  }

  ghost function Collect(g: TokenReqGrp, e: Err, due: seq<TokenReqGrp>): seq<TokenReqGrp> {
    if e.Final() then [g] + due else due
  }

  // `resource_increased`: grant from the front while the front fits.
  ghost function Drain(n: Node, s: Store, due: seq<TokenReqGrp>): Effect
    decreases |n.queue|
  {
    if n.queue == [] || !Fits(n.base, n.queue[0].cost) then Effect(n, s, due)
    else
      var r := n.queue[0];
      var (s', err) := Finish(s, r, true);
      Drain(Pop(n).(base := Charge(n.base, r.cost)), s', Collect(r.grp, err, due))
  }

  ghost function Stamped(s: Store, r: TokenReq, fence: int): Store {
    if r in s.reqs then s.(reqs := s.reqs[r := s.reqs[r].(nodeid := fence)]) else s
  }

  // `alloc_resource`: stamp the request, then grant it or queue it.
  ghost function Alloc(n: Node, s: Store, r: TokenReq): (Node, Store, Err) {
    var s0 := Stamped(s, r, n.fence);
    if Fits(n.base, r.cost) then
      var (s', err) := Finish(s0, r, true);
      (n.(base := Charge(n.base, r.cost)), s', err)
    else (Push(n, r), s0, Pending)
  }

  // `free_resource`: only the incarnation that granted the request takes the tokens back.
  ghost function Free(n: Node, s: Store, r: TokenReq, due: seq<TokenReqGrp>): Effect {
    if r in s.reqs && s.reqs[r].nodeid == n.fence then Drain(n.(base := Discharge(n.base, r.cost)), s, due)
    else Effect(n, s, due)
  }

  // `resource_changed`; the flag asks the caller for a reset.
  ghost function Change(n: Node, s: Store, total: U64, ver: int): (Effect, bool) {
    var v := Update(n.base, total, ver);
    var n' := n.(base := v.base);
    (if v.increased then Drain(n', s, []) else Effect(n', s, []), v.reset)
  }

  ghost function FailAll(q: seq<TokenReq>, s: Store, due: seq<TokenReqGrp>): (Store, seq<TokenReqGrp>)
    decreases |q|
  {
    if q == [] then (s, due)
    else
      var (s', err) := Finish(s, q[0], false);
      FailAll(q[1..], s', if err == FailedNode then [q[0].grp] + due else due)
  }

  // `pop_all`: empty the queue, then fail what was in it.
  ghost function PopAll(n: Node, s: Store, due: seq<TokenReqGrp>): Effect {
    var (s', due') := FailAll(n.queue, s, due);
    Effect(n.(queue := [], press := if n.queue == [] then n.press else 0), s', due')
  }

  // The width of `depth` in the message: `sizeof(unsigned long) << 3 - 2` is 8 << 1.
  const DEPTH_RANGE: int := 0x1_0000

  function Depth(press: U64): int {
    press % DEPTH_RANGE
  }

  // ----- No stranded waiter

  ghost predicate Settled(n: Node) {
    n.queue == [] || !Fits(n.base, n.queue[0].cost)
  }

  lemma {:induction false} DrainSettles(n: Node, s: Store, due: seq<TokenReqGrp>)
    ensures Settled(Drain(n, s, due).node)
    decreases |n.queue|
  {
    if n.queue == [] || !Fits(n.base, n.queue[0].cost) {
    } else {
      var r := n.queue[0];
      var (s', err) := Finish(s, r, true);
      DrainSettles(Pop(n).(base := Charge(n.base, r.cost)), s', Collect(r.grp, err, due));
    }
  }

  // A message leaves no waiter that fits: it drains, or it lets nobody in.
  lemma ChangeSettles(n: Node, s: Store, total: U64, ver: int)
    requires Settled(n) && MessageSafe(n.base, total, ver)
    ensures Settled(Change(n, s, total, ver).0.node)
  {
    var v := Update(n.base, total, ver);
    if v.increased {
      DrainSettles(n.(base := v.base), s, []);
    } else {
      MessageKeepsUnfitIff(n.base, total, ver);
    }
  }

  // A newcomer is granted over the heads of the waiters, or it joins them.
  lemma AllocSettles(n: Node, s: Store, r: TokenReq)
    requires Settled(n) && (n.queue != [] && Fits(n.base, r.cost) ==> GrantSafe(n.base))
    ensures Settled(Alloc(n, s, r).0)
  {
    if n.queue != [] && Fits(n.base, r.cost) {
      GrantKeepsUnfitIff(n.base);
    }
  }

  lemma ResetSettles(n: Node)
    requires Settled(n) && (n.queue != [] ==> ResetSafe(n.base))
    ensures Settled(n.(base := Reset(n.base)))
  {
    if n.queue != [] {
      ResetKeepsUnfitIff(n.base);
    }
  }

  // Giving back to a node leaves no waiter that fits, whatever it was before; failing its waiters leaves none at all.
  lemma FreeSettles(n: Node, s: Store, r: TokenReq, due: seq<TokenReqGrp>)
    ensures Settled(n) || (r in s.reqs && s.reqs[r].nodeid == n.fence) ==> Settled(Free(n, s, r, due).node)
    ensures PopAll(n, s, due).node.queue == []
  {
    if r in s.reqs && s.reqs[r].nodeid == n.fence {
      DrainSettles(n.(base := Discharge(n.base, r.cost)), s, due);
    }
  }

  // ----- The drain grants exactly the longest prefix that fits

  // Granting the whole of q, one request after the other, succeeds.
  ghost predicate FitsInTurn(b: Base, q: seq<TokenReq>)
    decreases |q|
  {
    q == [] || (Fits(b, q[0].cost) && FitsInTurn(Charge(b, q[0].cost), q[1..]))
  }

  ghost function Costs(q: seq<TokenReq>): seq<Cost> {
    seq(|q|, i requires 0 <= i < |q| => q[i].cost)
  }

  ghost predicate GrantedOnly(s: Store, s': Store, granted: seq<TokenReq>) {
    && s'.reqs.Keys == s.reqs.Keys
    && (forall r <- s.reqs :: s'.reqs[r] == if r in granted then s.reqs[r].(stat := Got) else s.reqs[r])
  }

  // How many waiters one drain grants.
  ghost function Granted(b: Base, q: seq<TokenReq>): nat
    decreases |q|
  {
    if q == [] || !Fits(b, q[0].cost) then 0 else 1 + Granted(Charge(b, q[0].cost), q[1..])
  }

  lemma {:induction false} LongestPrefix(b: Base, q: seq<TokenReq>)
    ensures Granted(b, q) <= |q|
    ensures forall j | 0 <= j <= |q| :: FitsInTurn(b, q[..j]) <==> j <= Granted(b, q)
    decreases |q|
  {
    if q == [] || !Fits(b, q[0].cost) {
      forall j | 0 <= j <= |q|
        ensures FitsInTurn(b, q[..j]) <==> j <= 0
      {
        if j > 0 { assert q[..j][0] == q[0]; }
      }
    } else {
      LongestPrefix(Charge(b, q[0].cost), q[1..]);
      PrefixStep(b, q, Granted(b, q));
    }
  }

  lemma {:induction false} DrainNode(n: Node, s: Store, due: seq<TokenReqGrp>)
    requires n.press == Waiting(n.queue) % TWO64
    ensures
      var n' := Drain(n, s, due).node;
      var k := Granted(n.base, n.queue);
      k <= |n.queue| && n'.queue == n.queue[k..] && n'.base == Charges(n.base, Costs(n.queue[..k]))
      && n'.press == Waiting(n'.queue) % TWO64
    decreases |n.queue|
  {
    var q := n.queue;
    if q == [] || !Fits(n.base, q[0].cost) {
      assert q[0..] == q;
    } else {
      var r := q[0];
      var (s', err) := Finish(s, r, true);
      SubWraps(Waiting(q), r.cost);
      DrainNode(Pop(n).(base := Charge(n.base, r.cost)), s', Collect(r.grp, err, due));
      var k := Granted(n.base, q);
      assert q[1..][k - 1..] == q[k..];
      assert q[1..][..k - 1] == q[..k][1..];
      assert Costs(q[..k]) == [r.cost] + Costs(q[1..][..k - 1]);
    }
  }

  lemma {:induction false} DrainStore(n: Node, s: Store, due: seq<TokenReqGrp>)
    requires NoDup(n.queue)
    requires forall i | 0 <= i < |n.queue| :: Knows(s, n.queue[i]) && s.reqs[n.queue[i]].stat == Init
    ensures Granted(n.base, n.queue) <= |n.queue|
    ensures GrantedOnly(s, Drain(n, s, due).store, n.queue[..Granted(n.base, n.queue)])
    decreases |n.queue|
  {
    var q := n.queue;
    if q == [] || !Fits(n.base, q[0].cost) {
    } else {
      var r := q[0];
      var (s', err) := Finish(s, r, true);
      DrainStore(Pop(n).(base := Charge(n.base, r.cost)), s', Collect(r.grp, err, due));
      var k := Granted(n.base, q);
      assert q[..k] == [r] + q[1..][..k - 1];
    }
  }

  // The drain in one statement.
  lemma DrainGrantsLongestPrefix(n: Node, s: Store, due: seq<TokenReqGrp>)
    requires NoDup(n.queue) && n.press == Waiting(n.queue) % TWO64
    requires forall i | 0 <= i < |n.queue| :: Knows(s, n.queue[i]) && s.reqs[n.queue[i]].stat == Init
    ensures
      var e := Drain(n, s, due);
      exists k | 0 <= k <= |n.queue| ::
        && (forall j | 0 <= j <= |n.queue| :: FitsInTurn(n.base, n.queue[..j]) <==> j <= k)
        && e.node.queue == n.queue[k..]
        && e.node.base == Charges(n.base, Costs(n.queue[..k]))
        && e.node.press == Waiting(n.queue[k..]) % TWO64
        && GrantedOnly(s, e.store, n.queue[..k])
  {
    LongestPrefix(n.base, n.queue);
    DrainNode(n, s, due);
    DrainStore(n, s, due);
    var k := Granted(n.base, n.queue);
    assert forall j | 0 <= j <= |n.queue| :: FitsInTurn(n.base, n.queue[..j]) <==> j <= k;
  }

  lemma PrefixStep(b: Base, q: seq<TokenReq>, k: nat)
    requires 0 < k <= |q| && Fits(b, q[0].cost)
    requires forall j | 0 <= j <= |q| - 1 :: FitsInTurn(Charge(b, q[0].cost), q[1..][..j]) <==> j <= k - 1
    ensures forall j | 0 <= j <= |q| :: FitsInTurn(b, q[..j]) <==> j <= k
  {
    forall j | 0 <= j <= |q|
      ensures FitsInTurn(b, q[..j]) <==> j <= k
    {
      if j > 0 {
        assert q[..j][0] == q[0] && q[..j][1..] == q[1..][..j - 1];
      }
    }
  }
}
