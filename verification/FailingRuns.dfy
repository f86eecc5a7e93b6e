/**
  Runs that go wrong: a waiter is stranded by a reset, by a message, and by a sum that wraps around; a press does not fit
  the message; a fence returns. None of the first three is fair: two receive a total below the smallest quota, one a
  total above 2^63.
 */
module FailingRuns {
  import opened Words
  import opened Objects
  import opened Quota
  import opened NodeSpec
  import opened WorldSpec
  import opened Waiters

  // The node of a new manager that has received one total.
  ghost function AtTotal(total: U64): Node {
    Fresh(0).(base := Update(INITIAL, total, 1).base)
  }

  lemma Arrives(limits: Limits, id: NodeId, total: U64)
    requires 0 < limits.nodes
    ensures var w := Step(Step(Start(limits), OpOnline(id)), OpRcvd(id, total, 1));
      w.table == map[id := AtTotal(total)] && w.limits == limits && w.out == Out(1, 1, 0, 0) && w.admitted == {}
  {
    var w := Online(Start(limits), id);
    assert w.table == map[id := Fresh(0)];
    assert Rcvd(w, id, total, 1).table == map[id := AtTotal(total)];
  }

  // What a get of one request does to a node of the table.
  ghost function Served(n: Node, r: TokenReq): Node {
    if Fits(n.base, r.cost) then n.(base := Charge(n.base, r.cost)) else Push(n, r)
  }

  lemma GetOfOne(w: World, r: TokenReq)
    requires r.id in w.table && r.grp !in w.admitted
    requires w.out.grps != w.limits.grps && w.out.reqs < w.limits.reqs
    ensures Legal(w, OpGet(r.grp, [r]))
    ensures var w' := Step(w, OpGet(r.grp, [r]));
      && w'.table == w.table[r.id := Served(w.table[r.id], r)]
      && w'.limits == w.limits && w'.out == w.out.(grps := w.out.grps + 1, reqs := w.out.reqs + 1)
      && w'.admitted == w.admitted + {r.grp}
  {
    var g := r.grp;
    var w1 := Admit(w, g, [r]);
    assert Reversed([r]) == [r] && Members([r]) == {r};
    assert CheckIn(w1, [r]) == w1;
    AllocOfOne(w.table[r.id], w1.store, r);
  }

  lemma AllocOfOne(n: Node, s: Store, r: TokenReq)
    requires r in s.reqs && s.reqs[r].stat == Init && r.grp in s.grps
    requires s.grps[r.grp].pending == 1 && !s.grps[r.grp].failed
    ensures var (n', s', err) := Alloc(n, s, r); n' == Served(n, r) && (err == Ok || err == Pending)
  {
  }

  lemma Next(w: World, op: Op, ops: seq<Op>)
    requires Legal(w, op) && LegalRun(Step(w, op), ops)
    ensures LegalRun(w, [op] + ops) && Run(w, [op] + ops) == Run(Step(w, op), ops)
  {
    assert ([op] + ops)[1..] == ops;
  }

  // A total of 5 leaves a quota of 5; the request waits; the reset takes the quota to 10 and drains nothing.
  lemma ResetStrands(limits: Limits, r: TokenReq)
    requires 0 < limits.nodes && 0 < limits.grps && 0 < limits.reqs && 5 < r.cost <= MIN_RS_NUM
    ensures var ops := [OpOnline(r.id), OpRcvd(r.id, 5, 1), OpGet(r.grp, [r]), OpReset(r.id)];
      LegalRun(Start(limits), ops) && !NoStranded(Run(Start(limits), ops))
  {
    hide Step, NoStranded;
    var w0 := Start(limits);
    var w2 := Step(Step(w0, OpOnline(r.id)), OpRcvd(r.id, 5, 1));
    var w3 := Step(w2, OpGet(r.grp, [r]));
    Arrives(limits, r.id, 5);
    GetOfOne(w2, r);
    assert w3.table[r.id] == Push(AtTotal(5), r);
    ResetOfOne(w3, r);
    Next(w3, OpReset(r.id), []);
    Next(w2, OpGet(r.grp, [r]), [OpReset(r.id)]);
    var w1 := Step(w0, OpOnline(r.id));
    Next(w1, OpRcvd(r.id, 5, 1), [OpGet(r.grp, [r])] + [OpReset(r.id)]);
    Next(w0, OpOnline(r.id), [OpRcvd(r.id, 5, 1)] + ([OpGet(r.grp, [r])] + [OpReset(r.id)]));
    assert [OpOnline(r.id)] + ([OpRcvd(r.id, 5, 1)] + ([OpGet(r.grp, [r])] + [OpReset(r.id)]))
        == [OpOnline(r.id), OpRcvd(r.id, 5, 1), OpGet(r.grp, [r]), OpReset(r.id)];
  }

  lemma ResetOfOne(w: World, r: TokenReq)
    requires r.id in w.table && w.table[r.id] == Push(AtTotal(5), r) && r.cost <= MIN_RS_NUM
    ensures !NoStranded(Step(w, OpReset(r.id)))
  {
    var n := Step(w, OpReset(r.id)).table[r.id];
    assert n.queue[0] == r && Fits(n.base, r.cost);
    assert !Settled(n);
  }

  // A total of 3 leaves a quota of 5, and a grant shrinks it to 3; a request of 3 waits; a total of 1 shrinks the quota
  // below zero, to 2^64 - 2, and drains nothing. The one grant is safe.
  lemma MessageStrands(limits: Limits, a: TokenReq, r: TokenReq)
    requires 0 < limits.nodes && 2 <= limits.grps && 2 <= limits.reqs
    requires a.id == r.id && a.grp != r.grp && a.cost == 1 && r.cost == 3
    ensures var ops := [OpOnline(r.id), OpRcvd(r.id, 3, 1), OpGet(a.grp, [a]), OpGet(r.grp, [r]), OpRcvd(r.id, 1, 2)];
      LegalRun(Start(limits), ops) && !NoStranded(Run(Start(limits), ops)) && GrantSafe(AtTotal(3).base)
  {
    hide Step, NoStranded, Legal, Served;
    var w0 := Start(limits);
    var w1 := Step(w0, OpOnline(r.id));
    var w2 := Step(w1, OpRcvd(r.id, 3, 1));
    Arrives(limits, r.id, 3);
    GetOfOne(w2, a);
    var w3 := Step(w2, OpGet(a.grp, [a]));
    GetOfOne(w3, r);
    var w4 := Step(w3, OpGet(r.grp, [r]));
    MessagedNode(w4, a, r);
    var ops4 := [OpRcvd(r.id, 1, 2)];
    var ops3 := [OpGet(r.grp, [r])] + ops4;
    var ops2 := [OpGet(a.grp, [a])] + ops3;
    var ops1 := [OpRcvd(r.id, 3, 1)] + ops2;
    AnyTime(w0, w4, r.id, 1, 2);
    Next(w4, OpRcvd(r.id, 1, 2), []);
    Next(w3, OpGet(r.grp, [r]), ops4);
    Next(w2, OpGet(a.grp, [a]), ops3);
    AnyTime(w0, w1, r.id, 3, 1);
    Next(w1, OpRcvd(r.id, 3, 1), ops2);
    Next(w0, OpOnline(r.id), ops1);
    assert [OpOnline(r.id)] + ops1
        == [OpOnline(r.id), OpRcvd(r.id, 3, 1), OpGet(a.grp, [a]), OpGet(r.grp, [r]), OpRcvd(r.id, 1, 2)];
  }

  lemma MessagedNode(w: World, a: TokenReq, r: TokenReq)
    requires r.id in w.table && w.table[r.id] == Served(Served(AtTotal(3), a), r) && a.cost == 1 && r.cost == 3
    ensures !NoStranded(Step(w, OpRcvd(r.id, 1, 2)))
  {
    assert Served(AtTotal(3), a) == Fresh(0).(base := Base(1, 3, 3, 1));
    assert w.table[r.id] == Push(Fresh(0).(base := Base(1, 3, 3, 1)), r);
    var n := Step(w, OpRcvd(r.id, 1, 2)).table[r.id];
    assert n.queue[0] == r && n.base == Base(1, TWO64 - 2, 1, 2);
    StrandedAt(Step(w, OpRcvd(r.id, 1, 2)), r.id);
  }

  // A waiter of 2^16 is reported as no press at all.
  lemma PressOverflows(limits: Limits, r: TokenReq)
    requires 0 < limits.nodes && 0 < limits.grps && 0 < limits.reqs && r.cost == DEPTH_RANGE
    ensures var ops := [OpOnline(r.id), OpRcvd(r.id, 10, 1), OpGet(r.grp, [r])];
      && LegalRun(Start(limits), ops) && FairRun(ops)
      && r.id in Run(Start(limits), ops).table
      && var n := Run(Start(limits), ops).table[r.id]; n.queue == [r] && Depth(n.press) == 0
  {
    hide Step, Legal;
    var w0 := Start(limits);
    var w1 := Step(w0, OpOnline(r.id));
    var w2 := Step(w1, OpRcvd(r.id, 10, 1));
    Arrives(limits, r.id, 10);
    GetOfOne(w2, r);
    var ops2 := [OpGet(r.grp, [r])];
    Next(w2, OpGet(r.grp, [r]), []);
    AnyTime(w0, w1, r.id, 10, 1);
    Next(w1, OpRcvd(r.id, 10, 1), ops2);
    Next(w0, OpOnline(r.id), [OpRcvd(r.id, 10, 1)] + ops2);
    assert [OpOnline(r.id)] + ([OpRcvd(r.id, 10, 1)] + ops2) == [OpOnline(r.id), OpRcvd(r.id, 10, 1), OpGet(r.grp, [r])];
  }

  // Costs that bring the use to 2^64 - 20 under a quota of 2^64 - 10; then 15 waits, and 25 wraps around and is granted.
  lemma WrapStrands(limits: Limits, a: TokenReq, b: TokenReq, c: TokenReq, d: TokenReq)
    requires 0 < limits.nodes && 4 <= limits.grps && 4 <= limits.reqs
    requires a.id == b.id == c.id == d.id
    requires a.grp != b.grp && a.grp != c.grp && a.grp != d.grp && b.grp != c.grp && b.grp != d.grp && c.grp != d.grp
    requires a.cost == TWO63 - 1 && b.cost == TWO63 - 19 && c.cost == 15 && d.cost == 25
    ensures var ops := [OpOnline(a.id), OpRcvd(a.id, TWO64 - 10, 1), OpGet(a.grp, [a]), OpGet(b.grp, [b]),
                        OpGet(c.grp, [c]), OpGet(d.grp, [d])];
      && LegalRun(Start(limits), ops) && !NoStranded(Run(Start(limits), ops))
      && a.id in Run(Start(limits), ops).table && Run(Start(limits), ops).table[a.id].base.inuse == 5
  {
    hide Step, NoStranded, Legal, Served;
    var w0, total := Start(limits), TWO64 - 10;
    var w1 := Step(w0, OpOnline(a.id));
    var w2 := Step(w1, OpRcvd(a.id, total, 1));
    Arrives(limits, a.id, total);
    GetOfOne(w2, a);
    var w3 := Step(w2, OpGet(a.grp, [a]));
    GetOfOne(w3, b);
    var w4 := Step(w3, OpGet(b.grp, [b]));
    GetOfOne(w4, c);
    var w5 := Step(w4, OpGet(c.grp, [c]));
    GetOfOne(w5, d);
    var w6 := Step(w5, OpGet(d.grp, [d]));
    WrappedNode(a, b, c, d);
    StrandedAt(w6, a.id);
    var ops6 := [OpGet(d.grp, [d])];
    var ops5 := [OpGet(c.grp, [c])] + ops6;
    var ops4 := [OpGet(b.grp, [b])] + ops5;
    var ops3 := [OpGet(a.grp, [a])] + ops4;
    var ops2 := [OpRcvd(a.id, total, 1)] + ops3;
    Next(w5, OpGet(d.grp, [d]), []);
    Next(w4, OpGet(c.grp, [c]), ops6);
    Next(w3, OpGet(b.grp, [b]), ops5);
    Next(w2, OpGet(a.grp, [a]), ops4);
    AnyTime(w0, w1, a.id, total, 1);
    Next(w1, OpRcvd(a.id, total, 1), ops3);
    Next(w0, OpOnline(a.id), ops2);
    assert [OpOnline(a.id)] + ops2
        == [OpOnline(a.id), OpRcvd(a.id, total, 1), OpGet(a.grp, [a]), OpGet(b.grp, [b]), OpGet(c.grp, [c]), OpGet(d.grp, [d])];
  }

  lemma AnyTime(w0: World, w1: World, id: NodeId, total: U64, ver: int)
    ensures Legal(w0, OpOnline(id)) && Legal(w1, OpRcvd(id, total, ver))
  {
  }

  lemma StrandedAt(w: World, id: NodeId)
    requires id in w.table && !Settled(w.table[id])
    ensures !NoStranded(w)
  {
  }

  lemma WrappedNode(a: TokenReq, b: TokenReq, c: TokenReq, d: TokenReq)
    requires a.cost == TWO63 - 1 && b.cost == TWO63 - 19 && c.cost == 15 && d.cost == 25
    ensures var n := Served(Served(Served(Served(AtTotal(TWO64 - 10), a), b), c), d);
      !Settled(n) && n.base.inuse == 5
  {
    var n2 := Served(Served(AtTotal(TWO64 - 10), a), b);
    assert n2 == Fresh(0).(base := Base(TWO64 - 20, TWO64 - 10, TWO64 - 10, 1));
    var n3 := Served(n2, c);
    assert n3.queue == [c];
  }

  // ----- Fences in an `int`

  // A node that is there already is brought online k times.
  ghost function Onlines(x: NodeId, k: nat): seq<Op> {
    seq(k, _ => OpOnline(x))
  }

  lemma {:induction false} OnlinesCount(w: World, x: NodeId, k: nat)
    requires x in w.table && w.out.items != w.limits.nodes
    ensures LegalRun(w, Onlines(x, k)) && Run(w, Onlines(x, k)) == w.(version := w.version + k)
    decreases k
  {
    if k == 0 {
    } else {
      var w1 := Step(w, OpOnline(x));
      OnlinesCount(w1, x, k - 1);
      assert [OpOnline(x)] + Onlines(x, k - 1) == Onlines(x, k);
      AnyTime(w, w, x, 0, 0);
      Next(w, OpOnline(x), Onlines(x, k - 1));
    }
  }

  lemma {:induction false} Joined(w: World, a: seq<Op>, b: seq<Op>)
    requires LegalRun(w, a) && LegalRun(Run(w, a), b)
    ensures LegalRun(w, a + b) && Run(w, a + b) == Run(Run(w, a), b)
    decreases |a|
  {
    if a == [] {
      assert a + b == b;
    } else {
      Joined(Step(w, a[0]), a[1..], b);
      assert a + b == [a[0]] + (a[1..] + b);
      Next(w, a[0], a[1..] + b);
    }
  }

  lemma GrantOfOne(w: World, r: TokenReq)
    requires r.id in w.table && r.grp !in w.admitted && Fits(w.table[r.id].base, r.cost)
    requires w.out.grps != w.limits.grps && w.out.reqs < w.limits.reqs
    ensures var w' := Step(w, OpGet(r.grp, [r]));
      r in w'.store.reqs && w'.store.reqs[r] == Req(Got, w.table[r.id].fence) && w'.version == w.version
  {
    var g := r.grp;
    var w1 := Admit(w, g, [r]);
    assert Reversed([r]) == [r] && Members([r]) == {r};
    assert CheckIn(w1, [r]) == w1;
    assert w1.store.reqs[r] == Req(Init, 0);
  }

  // A grant under fence 0 is still out when the node of the same id comes online under fence 2^32: in an `int` the two
  // are one, and the node would take back tokens it never granted.
  lemma FenceReturns(limits: Limits, r: TokenReq, x: NodeId) returns (ops: seq<Op>)
    requires 2 <= limits.nodes && 0 < limits.grps && 0 < limits.reqs && x != r.id && r.cost <= MIN_RS_NUM
    ensures LegalRun(Start(limits), ops)
    ensures var w := Run(Start(limits), ops);
      && r in w.store.reqs && w.store.reqs[r] == Req(Got, 0) && r.id in w.table
      && w.table[r.id] == Fresh(TWO32) && AsInt(TWO32) == AsInt(0)
  {
    var w0 := Start(limits);
    var w1 := Step(w0, OpOnline(r.id));
    var w2 := Step(w1, OpGet(r.grp, [r]));
    GetOfOne(w1, r);
    GrantOfOne(w1, r);
    assert w2.table == map[r.id := Fresh(0).(base := Charge(INITIAL, r.cost))];
    GoneAndBack(w2, r, x);
    var ops2 := [OpOffline(r.id), OpOnline(x)] + Onlines(x, TWO32 - 2) + [OpOnline(r.id)];
    AnyTime(w0, w0, r.id, 0, 0);
    Next(w1, OpGet(r.grp, [r]), ops2);
    Next(w0, OpOnline(r.id), [OpGet(r.grp, [r])] + ops2);
    ops := [OpOnline(r.id)] + ([OpGet(r.grp, [r])] + ops2);
  }

  lemma GoneAndBack(w2: World, r: TokenReq, x: NodeId)
    requires r in w2.store.reqs && w2.store.reqs[r] == Req(Got, 0) && x != r.id
    requires w2.table.Keys == {r.id} && w2.table[r.id].queue == [] && w2.version == 1
    requires w2.out.items == 1 && 2 <= w2.limits.nodes
    ensures var ops := [OpOffline(r.id), OpOnline(x)] + Onlines(x, TWO32 - 2) + [OpOnline(r.id)];
      && LegalRun(w2, ops)
      && var w := Run(w2, ops);
         r in w.store.reqs && w.store.reqs[r] == Req(Got, 0) && r.id in w.table && w.table[r.id] == Fresh(TWO32)
  {
    hide LegalRun, Run;
    var w3 := Step(w2, OpOffline(r.id));
    var w4 := Step(w3, OpOnline(x));
    assert w4.table.Keys == {x} && w4.version == 2 && w4.store.reqs == w2.store.reqs;
    OnlinesCount(w4, x, TWO32 - 2);
    var w5 := Run(w4, Onlines(x, TWO32 - 2));
    One(w5, OpOnline(r.id));
    One(w3, OpOnline(x));
    Next(w2, OpOffline(r.id), [OpOnline(x)]);
    assert [OpOffline(r.id)] + [OpOnline(x)] == [OpOffline(r.id), OpOnline(x)];
    Joined(w2, [OpOffline(r.id), OpOnline(x)], Onlines(x, TWO32 - 2));
    Joined(w2, [OpOffline(r.id), OpOnline(x)] + Onlines(x, TWO32 - 2), [OpOnline(r.id)]);
  }

  lemma One(w: World, op: Op)
    requires Legal(w, op)
    ensures LegalRun(w, [op]) && Run(w, [op]) == Step(w, op)
  {
    assert [op] + [] == [op];
    Next(w, op, []);
  }
}
