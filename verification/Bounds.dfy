/** Fair runs: no node ever has more in use than it was once allowed. */
module Bounds {
  import opened Words
  import opened Objects
  import opened Quota
  import opened Sums
  import opened NodeSpec
  import opened WorldSpec
  import opened Invariant
  import opened Steps

  // ----- One node

  // From n0 to n nobody raised the quota: use stays within what was in use or allowed.
  ghost predicate Near(n0: Node, n: Node) {
    && n.fence == n0.fence
    && n.base.quota <= n0.base.quota
    && n.base.inuse <= Max(n0.base.inuse, n0.base.quota)
    && (n0.base.quotaNew == n0.base.quota ==> n.base.quotaNew == n.base.quota == n0.base.quota)
  }

  lemma ChargeNear(n: Node, cost: Cost)
    requires Exact(n.base) && Fits(n.base, cost)
    ensures Near(n, n.(base := Charge(n.base, cost))) && Exact(Charge(n.base, cost))
  {
    ExactKept(n.base, cost, MIN_RS_NUM, 0);
  }

  lemma {:induction false} DrainNear(n: Node, s: Store, due: seq<TokenReqGrp>)
    requires Exact(n.base)
    ensures Near(n, Drain(n, s, due).node)
    decreases |n.queue|
  {
    if n.queue == [] || !Fits(n.base, n.queue[0].cost) {
    } else {
      var r := n.queue[0];
      var (s', err) := Finish(s, r, true);
      ChargeNear(n, r.cost);
      DrainNear(Pop(n).(base := Charge(n.base, r.cost)), s', Collect(r.grp, err, due));
    }
  }

  lemma AllocNear(n: Node, s: Store, r: TokenReq)
    requires Exact(n.base)
    ensures Near(n, Alloc(n, s, r).0)
  {
    if Fits(n.base, r.cost) {
      ChargeNear(n, r.cost);
    }
  }

  lemma FreeNear(n: Node, s: Store, r: TokenReq, due: seq<TokenReqGrp>)
    requires Exact(n.base)
    requires r in s.reqs && s.reqs[r].nodeid == n.fence ==> r.cost <= n.base.inuse
    ensures Near(n, Free(n, s, r, due).node)
  {
    if r in s.reqs && s.reqs[r].nodeid == n.fence {
      var n1 := n.(base := Discharge(n.base, r.cost));
      DrainNear(n1, s, due);
    }
  }

  // Above its quota a node grants nothing: a newcomer queues, and a drain moves nobody.
  lemma OverQuotaFrozen(n: Node, s: Store, r: TokenReq, due: seq<TokenReqGrp>)
    requires Exact(n.base) && n.base.quota < n.base.inuse
    ensures Alloc(n, s, r) == (Push(n, r), Stamped(s, r, n.fence), Pending)
    ensures Drain(n, s, due) == Effect(n, s, due)
  {
    ExactKept(n.base, r.cost, MIN_RS_NUM, 0);
    if n.queue != [] {
      ExactKept(n.base, n.queue[0].cost, MIN_RS_NUM, 0);
    }
  }

  // ----- Many nodes

  // From w0 to w: every node is near what it was, or is new, unshrunk and within its quota.
  ghost predicate Within(w0: World, w: World) {
    && w0.version <= w.version
    && (forall id <- w.table ::
          if id in w0.table && w0.table[id].fence == w.table[id].fence then Near(w0.table[id], w.table[id])
          else w0.version <= w.table[id].fence && w.table[id].base.inuse <= w.table[id].base.quota == w.table[id].base.quotaNew)
  }

  lemma WithinTrans(w0: World, w1: World, w2: World)
    requires Within(w0, w1) && Within(w1, w2) && Fenced(w0)
    ensures Within(w0, w2)
  {
    forall id <- w2.table
      ensures if id in w0.table && w0.table[id].fence == w2.table[id].fence then Near(w0.table[id], w2.table[id])
              else w0.version <= w2.table[id].fence && w2.table[id].base.inuse <= w2.table[id].base.quota == w2.table[id].base.quotaNew
    {
      if id in w1.table && w1.table[id].fence == w2.table[id].fence {
        assert Near(w1.table[id], w2.table[id]);
      }
    }
  }

  lemma OneNode(w: World, w': World, id: NodeId)
    requires id in w.table && w'.version == w.version
    requires w'.table.Keys == w.table.Keys && (forall x <- w.table :: x != id ==> w'.table[x] == w.table[x])
    requires Near(w.table[id], w'.table[id])
    ensures Within(w, w')
  {
  }

  lemma SameNodes(w: World, w': World)
    requires w'.table == w.table && w'.version == w.version
    ensures Within(w, w')
  {
  }

  lemma IsFenced(w: World, m: Mid)
    requires Inv(w, m)
    ensures Fenced(w)
  {
  }

  // A holder's cost is part of what its node has in use.
  lemma HolderCovered(w: World, r: TokenReq, freed: set<TokenReq>)
    requires Charged(w, freed, true) && r in w.store.reqs && w.store.reqs[r].stat == Got && r !in freed
    requires r.id in w.table && w.store.reqs[r].nodeid == w.table[r.id].fence
    ensures r.cost <= w.table[r.id].base.inuse
  {
    var h := Holders(w.store, w.table[r.id].fence, freed);
    assert r in h;
    HeldSplit(h, r);
    assert w.table[r.id].base.inuse == Held(h);
  }

  lemma IsCharged(w: World, m: Mid)
    requires Inv(w, m)
    ensures Charged(w, m.freed, m.fair)
  {
  }

  lemma OnlineWithin(w: World, id: NodeId)
    ensures Within(w, Online(w, id))
  {
  }

  lemma {:induction false} CheckInWithin(w: World, hs: seq<TokenReq>, m: Mid)
    requires Inv(w, m)
    ensures Within(w, CheckIn(w, hs))
    decreases |hs|
  {
    hide Inv, Within, Fenced;
    if hs == [] {
      SameNodes(w, w);
    } else {
      var w1 := if hs[0].id in w.table then w else Online(w, hs[0].id);
      OnlineWithin(w, hs[0].id);
      SameNodes(w, w);
      OnlineStep(w, hs[0].id, m);
      CheckInWithin(w1, hs[1..], m);
      IsFenced(w, m);
      WithinTrans(w, w1, CheckIn(w, hs));
    }
  }

  lemma AskWithin(w: World, r: TokenReq, m: Mid)
    requires Inv(w, m) && m.fair
    ensures Within(w, Ask(w, r).0)
  {
    hide Inv, Within;
    if r.id !in w.table {
      SameNodes(w, Ask(w, r).0);
    } else {
      IsExact(w, m);
      AllocNear(w.table[r.id], w.store, r);
      OneNode(w, Ask(w, r).0, r.id);
    }
  }

  lemma {:induction false} AskAllWithin(w: World, rs: seq<TokenReq>, m: Mid)
    requires Inv(w, m) && m.fair && Members(rs) <= m.todo && NoDup(rs)
    ensures Within(w, AskAll(w, rs).0)
    decreases |rs|
  {
    hide Inv, Within, Fenced;
    if rs == [] {
      SameNodes(w, w);
    } else {
      var r := rs[0];
      assert rs == [r] + rs[1..];
      assert r in Members(rs);
      AskWithin(w, r, m);
      if |rs| > 1 {
        AskKeeps(w, r, m);
        var (w1, err) := Ask(w, r);
        var m1 := Mid(m.todo - {r}, m.freed, Collect(r.grp, err, m.due), m.fair);
        AskAllWithin(w1, rs[1..], m1);
        IsFenced(w, m);
        WithinTrans(w, w1, AskAll(w1, rs[1..]).0);
      }
    }
  }

  lemma ReleaseWithin(w: World, r: TokenReq, m: Mid)
    requires Inv(w, m) && m.fair && r !in m.freed
    ensures Within(w, Release(w, r, m.due).world)
  {
    hide Inv, Within, Charged;
    var x := Release(w, r, m.due);
    if r in w.store.reqs && w.store.reqs[r].stat == Got && r.id in w.table {
      if w.store.reqs[r].nodeid == w.table[r.id].fence {
        IsCharged(w, m);
        HolderCovered(w, r, m.freed);
      }
      IsExact(w, m);
      FreeNear(w.table[r.id], w.store, r, m.due);
      OneNode(w, x.world, r.id);
    } else {
      SameNodes(w, x.world);
    }
  }

  lemma {:induction false} ReleaseAllWithin(w: World, rs: seq<TokenReq>, m: Mid)
    requires Inv(w, m) && m.fair && NoDup(rs) && Members(rs) !! m.freed
    requires forall r <- rs :: r in w.store.reqs && w.store.reqs[r].stat != Init
    ensures Within(w, ReleaseAll(w, rs, m.due).world)
    decreases |rs|
  {
    hide Inv, Within, Fenced;
    if rs == [] {
      SameNodes(w, w);
    } else {
      var r := rs[0];
      assert rs == [r] + rs[1..];
      assert r in Members(rs);
      ReleaseWithin(w, r, m);
      var x := Release(w, r, m.due);
      var got := if w.store.reqs[r].stat == Got then {r} else {};
      if w.store.reqs[r].stat == Got {
        ReleaseKeeps(w, r, m);
      } else {
        assert x.world == w && m.freed + got == m.freed;
      }
      ReleaseAllWithin(x.world, rs[1..], Mid(m.todo, m.freed + got, x.due, m.fair));
      IsFenced(w, m);
      WithinTrans(w, x.world, ReleaseAll(w, rs, m.due).world);
    }
  }

  lemma OfflineWithin(w: World, id: NodeId)
    ensures Within(w, Offline(w, id))
  {
  }

  lemma {:induction false} CheckOutWithin(w: World, ids: seq<NodeId>)
    requires Inv(w, Rest(true))
    ensures Within(w, CheckOut(w, ids))
    decreases |ids|
  {
    hide Inv, Within, Fenced;
    if ids == [] {
      SameNodes(w, w);
    } else {
      OfflineWithin(w, ids[0]);
      OfflineKeeps(w, ids[0], true);
      CheckOutWithin(Offline(w, ids[0]), ids[1..]);
      IsFenced(w, Rest(true));
      WithinTrans(w, Offline(w, ids[0]), CheckOut(w, ids));
    }
  }

  lemma PutWithin(w: World, g: TokenReqGrp, fails: seq<NodeId>)
    requires Inv(w, Rest(true)) && g in w.store.grps && w.store.grps[g].err.Final()
    ensures Within(w, Put(w, g, fails))
  {
    hide Inv, Within, Fenced;
    FinalMeansSettled(w, g, true);
    CheckOutKeeps(w, fails, true);
    CheckOutWithin(w, fails);
    var w1 := CheckOut(w, fails);
    var rs := w1.store.grps[g].reqs;
    ReleaseAllWithin(w1, rs, Rest(true));
    var w2 := ReleaseAll(w1, rs, []).world;
    IsFenced(w, Rest(true));
    WithinTrans(w, w1, w2);
    SameNodes(w2, Put(w, g, fails));
    WithinTrans(w, w2, Put(w, g, fails));
  }

  lemma AskedWithin(w: World, g: TokenReqGrp, hs: seq<TokenReq>)
    requires Inv(w, Rest(true)) && NewGroup(w, g, hs) && !OutOfMemory(w, hs)
    ensures Within(w, Asked(w, g, hs).0)
  {
    hide Inv, Within, Fenced;
    LimitsHold(w, true);
    AdmitStep(w, g, hs, true);
    var w1 := Admit(w, g, hs);
    SameNodes(w, w1);
    var m := Mid(Members(hs), {}, [], true);
    CheckInKeeps(w1, hs, m);
    CheckInWithin(w1, hs, m);
    var w2 := CheckIn(w1, hs);
    ReversedMembers(hs);
    AskAllWithin(w2, Reversed(hs), m);
    IsFenced(w, Rest(true));
    WithinTrans(w, w1, w2);
    WithinTrans(w, w2, Asked(w, g, hs).0);
  }

  lemma GetWithin(w: World, g: TokenReqGrp, hs: seq<TokenReq>)
    requires Inv(w, Rest(true)) && NewGroup(w, g, hs)
    ensures Within(w, Get(w, g, hs).0)
  {
    hide Inv, Within, Fenced, NewGroup;
    if OutOfMemory(w, hs) {
      SameNodes(w, w);
    } else {
      AskedKeeps(w, g, hs, true);
      AskedWithin(w, g, hs);
      var (w', err) := Asked(w, g, hs);
      var w'' := Answered(w', g, err);
      SameNodes(w', w'');
      IsFenced(w, Rest(true));
      WithinTrans(w, w', w'');
      if err == FailedNode {
        AnsweredKeeps(w', g, err, true);
        PutWithin(w'', g, []);
        WithinTrans(w, w'', Put(w'', g, []));
      }
    }
  }

  // ----- Messages and resets

  lemma ChangeBounded(n: Node, s: Store, total: U64, ver: int)
    requires Exact(n.base) && Fair(total)
    ensures var n' := Change(n, s, total, ver).0.node;
      && n'.fence == n.fence
      && n'.base.inuse <= Max(n.base.inuse, n'.base.quota)
  {
    var v := Update(n.base, total, ver);
    ExactKept(n.base, 0, total, ver);
    if v.increased {
      DrainNear(n.(base := v.base), s, []);
    }
  }

  ghost function UseOf(w: World, id: NodeId, fence: int): int {
    if id in w.table && w.table[id].fence == fence then w.table[id].base.inuse else 0
  }

  ghost function QuotaOf(w: World, id: NodeId, fence: int): int {
    if id in w.table && w.table[id].fence == fence then w.table[id].base.quota else 0
  }

  // What one operation may do to the use and the quota of one incarnation of a node.
  ghost predicate UseBounded(w: World, w': World, id: NodeId, fence: int) {
    UseOf(w', id, fence) <= Max(UseOf(w, id, fence), Max(QuotaOf(w, id, fence), QuotaOf(w', id, fence)))
  }

  lemma WithinBounds(w: World, w': World, id: NodeId, fence: int)
    requires Within(w, w')
    ensures UseBounded(w, w', id, fence)
  {
  }

  lemma RcvdBounded(w: World, x: NodeId, total: U64, ver: int, id: NodeId, fence: int)
    requires (forall y <- w.table :: Exact(w.table[y].base)) && Fair(total)
    ensures UseBounded(w, Rcvd(w, x, total, ver), id, fence)
  {
    hide Change;
    if x !in w.table {
      OnlineWithin(w, x);
      WithinBounds(w, Online(w, x), id, fence);
    } else {
      var n := w.table[x];
      var (e, reset) := Change(n, w.store, total, ver);
      ChangeBounded(n, w.store, total, ver);
      if reset {
        ResetChange(n, w.store, total, ver);
      }
    }
  }

  // A message that asks for a reset has left the node as it was.
  lemma ResetChange(n: Node, s: Store, total: U64, ver: int)
    requires Change(n, s, total, ver).1
    ensures Change(n, s, total, ver).0 == Effect(n, s, [])
  {
  }

  lemma ResetBounded(w: World, x: NodeId, id: NodeId, fence: int)
    requires forall y <- w.table :: Exact(w.table[y].base)
    ensures UseBounded(w, ResetNode(w, x), id, fence)
  {
  }

  lemma StepBounded(w: World, op: Op, id: NodeId, fence: int)
    requires Inv(w, Rest(true)) && Legal(w, op) && FairOp(op)
    ensures UseBounded(w, Step(w, op), id, fence)
  {
    hide Inv, Within, UseBounded;
    IsExact(w, Rest(true));
    match op
    case OpGet(g, hs) => GetWithin(w, g, hs); WithinBounds(w, Step(w, op), id, fence);
    case OpPut(g, fails) => PutWithin(w, g, fails); WithinBounds(w, Step(w, op), id, fence);
    case OpOnline(x) => OnlineWithin(w, x); WithinBounds(w, Step(w, op), id, fence);
    case OpOffline(x) => OfflineWithin(w, x); WithinBounds(w, Step(w, op), id, fence);
    case OpReset(x) => ResetBounded(w, x, id, fence);
    case OpRcvd(x, total, ver) => RcvdBounded(w, x, total, ver, id, fence);
  }

  // ----- Whole runs

  // The largest quota the incarnation `fence` of node `id` shows between operations.
  ghost function Peak(w: World, ops: seq<Op>, id: NodeId, fence: int): int
    decreases |ops|
  {
    Max(QuotaOf(w, id, fence), if ops == [] then 0 else Peak(Step(w, ops[0]), ops[1..], id, fence))
  }

  lemma {:induction false} RunBounded(w: World, ops: seq<Op>, id: NodeId, fence: int)
    requires Inv(w, Rest(true)) && LegalRun(w, ops) && FairRun(ops)
    ensures UseOf(Run(w, ops), id, fence) <= Max(UseOf(w, id, fence), Peak(w, ops, id, fence))
    decreases |ops|
  {
    hide Inv, Legal, FairOp, Step, UseOf, QuotaOf;
    if ops == [] {
    } else {
      StepBounded(w, ops[0], id, fence);
      StepKeeps(w, ops[0], true);
      RunBounded(Step(w, ops[0]), ops[1..], id, fence);
    }
  }
}
