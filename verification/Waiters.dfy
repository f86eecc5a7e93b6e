/**
  No stranded waiter: between operations each queue is empty or its head does not fit.

  A put, an online and an offline always keep this. A get, a message and a reset keep it under the guards of `Quota`,
  which are exact for a node whose waiters may have any costs. Every operation of a fair run meets them.
 */
module Waiters {
  import opened Words
  import opened Objects
  import opened Quota
  import opened NodeSpec
  import opened WorldSpec
  import opened Invariant
  import opened Steps

  ghost predicate NoStranded(w: World) {
    forall id <- w.table :: Settled(w.table[id])
  }

  // ----- The guards of an operation

  // A grant that overtakes waiters must be safe.
  ghost predicate AskSafe(w: World, r: TokenReq) {
    r.id in w.table ==>
      var n := w.table[r.id];
      n.queue != [] && Fits(n.base, r.cost) ==> GrantSafe(n.base)
  }

  ghost predicate AskAllSafe(w: World, rs: seq<TokenReq>)
    decreases |rs|
  {
    rs == [] || (AskSafe(w, rs[0]) && AskAllSafe(Ask(w, rs[0]).0, rs[1..]))
  }

  // A reset with waiters must be safe.
  ghost predicate ResetNodeSafe(w: World, id: NodeId) {
    id in w.table && w.table[id].queue != [] ==> ResetSafe(w.table[id].base)
  }

  // So must be a message, and the reset an older message asks for.
  ghost predicate RcvdSafe(w: World, id: NodeId, total: U64, ver: int) {
    id in w.table ==>
      && MessageSafe(w.table[id].base, total, ver)
      && (ver < w.table[id].base.version ==> ResetNodeSafe(w, id))
  }

  ghost predicate OpSafe(w: World, op: Op) {
    match op
    case OpGet(g, hs) => OutOfMemory(w, hs) || AskAllSafe(CheckIn(Admit(w, g, hs), hs), Reversed(hs))
    case OpReset(id) => ResetNodeSafe(w, id)
    case OpRcvd(id, total, ver) => RcvdSafe(w, id, total, ver)
    case _ => true
  }

  ghost predicate SafeRun(w: World, ops: seq<Op>)
    decreases |ops|
  {
    ops == [] || (OpSafe(w, ops[0]) && SafeRun(Step(w, ops[0]), ops[1..]))
  }

  // ----- Safe operations strand nobody

  lemma OneSettled(w: World, w': World, id: NodeId)
    requires NoStranded(w) && id in w.table && w'.table.Keys == w.table.Keys && Settled(w'.table[id])
    requires forall x <- w.table :: x != id ==> w'.table[x] == w.table[x]
    ensures NoStranded(w')
  {
  }

  lemma {:induction false} CheckInStrandsNobody(w: World, hs: seq<TokenReq>)
    requires NoStranded(w)
    ensures NoStranded(CheckIn(w, hs))
    decreases |hs|
  {
    if hs == [] {
    } else {
      CheckInStrandsNobody(if hs[0].id in w.table then w else Online(w, hs[0].id), hs[1..]);
    }
  }

  lemma AskStrandsNobody(w: World, r: TokenReq)
    requires NoStranded(w) && AskSafe(w, r)
    ensures NoStranded(Ask(w, r).0)
  {
    hide Alloc;
    if r.id in w.table {
      AllocSettles(w.table[r.id], w.store, r);
      OneSettled(w, Ask(w, r).0, r.id);
    }
  }

  lemma {:induction false} AskAllStrandsNobody(w: World, rs: seq<TokenReq>)
    requires NoStranded(w) && AskAllSafe(w, rs)
    ensures NoStranded(AskAll(w, rs).0)
    decreases |rs|
  {
    hide NoStranded, AskSafe, Ask;
    if rs == [] {
    } else {
      AskStrandsNobody(w, rs[0]);
      if |rs| > 1 {
        AskAllStrandsNobody(Ask(w, rs[0]).0, rs[1..]);
      }
    }
  }

  lemma ReleaseStrandsNobody(w: World, r: TokenReq, due: seq<TokenReqGrp>)
    requires NoStranded(w)
    ensures NoStranded(Release(w, r, due).world)
  {
    hide Free;
    if r in w.store.reqs && w.store.reqs[r].stat == Got && r.id in w.table {
      FreeSettles(w.table[r.id], w.store, r, due);
      OneSettled(w, Release(w, r, due).world, r.id);
    }
  }

  lemma {:induction false} ReleaseAllStrandsNobody(w: World, rs: seq<TokenReq>, due: seq<TokenReqGrp>)
    requires NoStranded(w)
    ensures NoStranded(ReleaseAll(w, rs, due).world)
    decreases |rs|
  {
    hide NoStranded, Release;
    if rs == [] {
    } else {
      ReleaseStrandsNobody(w, rs[0], due);
      var x := Release(w, rs[0], due);
      ReleaseAllStrandsNobody(x.world, rs[1..], x.due);
    }
  }

  lemma {:induction false} CheckOutStrandsNobody(w: World, ids: seq<NodeId>)
    requires NoStranded(w)
    ensures NoStranded(CheckOut(w, ids))
    decreases |ids|
  {
    if ids == [] {
    } else {
      CheckOutStrandsNobody(Offline(w, ids[0]), ids[1..]);
    }
  }

  lemma SameTable(w: World, w': World)
    requires NoStranded(w) && w'.table == w.table
    ensures NoStranded(w')
  {
  }

  lemma PutStrandsNobody(w: World, g: TokenReqGrp, fails: seq<NodeId>)
    requires NoStranded(w)
    ensures NoStranded(Put(w, g, fails))
  {
    hide NoStranded, CheckOut, ReleaseAll;
    CheckOutStrandsNobody(w, fails);
    var w1 := CheckOut(w, fails);
    var rs := if g in w1.store.grps then w1.store.grps[g].reqs else [];
    ReleaseAllStrandsNobody(w1, rs, []);
    SameTable(ReleaseAll(w1, rs, []).world, Put(w, g, fails));
  }

  lemma GetStrandsNobody(w: World, g: TokenReqGrp, hs: seq<TokenReq>)
    requires NoStranded(w) && OpSafe(w, OpGet(g, hs))
    ensures NoStranded(Get(w, g, hs).0)
  {
    hide NoStranded, CheckIn, AskAll, AskAllSafe, Put;
    if !OutOfMemory(w, hs) {
      SameTable(w, Admit(w, g, hs));
      CheckInStrandsNobody(Admit(w, g, hs), hs);
      AskAllStrandsNobody(CheckIn(Admit(w, g, hs), hs), Reversed(hs));
      var (w1, err) := Asked(w, g, hs);
      SameTable(w1, Answered(w1, g, err));
      PutStrandsNobody(Answered(w1, g, err), g, []);
    }
  }

  lemma RcvdStrandsNobody(w: World, id: NodeId, total: U64, ver: int)
    requires NoStranded(w) && RcvdSafe(w, id, total, ver)
    ensures NoStranded(Rcvd(w, id, total, ver))
  {
    hide Drain;
    if id in w.table {
      var n := w.table[id];
      ChangeSettles(n, w.store, total, ver);
      if ver < n.base.version {
        ResetSettles(n);
      }
      OneSettled(w, Rcvd(w, id, total, ver), id);
    }
  }

  lemma StepStrandsNobody(w: World, op: Op)
    requires NoStranded(w) && OpSafe(w, op)
    ensures NoStranded(Step(w, op))
  {
    hide Get, Put, Rcvd;
    match op
    case OpGet(g, hs) => GetStrandsNobody(w, g, hs);
    case OpPut(g, fails) => PutStrandsNobody(w, g, fails);
    case OpOnline(id) =>
    case OpOffline(id) =>
    case OpReset(id) =>
      if id in w.table {
        ResetSettles(w.table[id]);
      }
    case OpRcvd(id, total, ver) => RcvdStrandsNobody(w, id, total, ver);
  }

  // Any run of safe operations strands nobody, whatever its totals and costs.
  lemma {:induction false} RunStrandsNobody(w: World, ops: seq<Op>)
    requires NoStranded(w) && SafeRun(w, ops)
    ensures NoStranded(Run(w, ops))
    decreases |ops|
  {
    hide NoStranded, OpSafe, Step;
    if ops == [] {
    } else {
      StepStrandsNobody(w, ops[0]);
      RunStrandsNobody(Step(w, ops[0]), ops[1..]);
    }
  }

  // ----- Fair runs are safe

  lemma FairAskSafe(w: World, r: TokenReq, m: Mid)
    requires Inv(w, m) && m.fair
    ensures AskSafe(w, r)
  {
    hide Inv;
    IsExact(w, m);
    if r.id in w.table {
      ExactIsSafe(w.table[r.id].base, MIN_RS_NUM, 0);
    }
  }

  lemma {:induction false} FairAskAllSafe(w: World, rs: seq<TokenReq>, m: Mid)
    requires Inv(w, m) && m.fair && Members(rs) <= m.todo && NoDup(rs)
    ensures AskAllSafe(w, rs)
    decreases |rs|
  {
    hide Inv, AskSafe;
    if rs == [] {
    } else {
      var r := rs[0];
      assert rs == [r] + rs[1..];
      assert r in Members(rs);
      FairAskSafe(w, r, m);
      AskKeeps(w, r, m);
      var (w1, err) := Ask(w, r);
      FairAskAllSafe(w1, rs[1..], Mid(m.todo - {r}, m.freed, Collect(r.grp, err, m.due), m.fair));
    }
  }

  lemma FairGetSafe(w: World, g: TokenReqGrp, hs: seq<TokenReq>)
    requires Inv(w, Rest(true)) && NewGroup(w, g, hs)
    ensures OpSafe(w, OpGet(g, hs))
  {
    hide Inv, AskAllSafe;
    if !OutOfMemory(w, hs) {
      LimitsHold(w, true);
      AdmitStep(w, g, hs, true);
      var m := Mid(Members(hs), {}, [], true);
      CheckInKeeps(Admit(w, g, hs), hs, m);
      ReversedMembers(hs);
      FairAskAllSafe(CheckIn(Admit(w, g, hs), hs), Reversed(hs), m);
    }
  }

  lemma FairIsSafe(w: World, op: Op)
    requires Inv(w, Rest(true)) && Legal(w, op)
    ensures OpSafe(w, op)
  {
    hide Inv, AskAllSafe, NewGroup;
    IsExact(w, Rest(true));
    match op
    case OpGet(g, hs) => FairGetSafe(w, g, hs);
    case OpReset(id) =>
      if id in w.table {
        ExactIsSafe(w.table[id].base, MIN_RS_NUM, 0);
      }
    case OpRcvd(id, total, ver) =>
      if id in w.table {
        ExactIsSafe(w.table[id].base, total, ver);
      }
    case _ =>
  }

  lemma {:induction false} FairRunIsSafe(w: World, ops: seq<Op>)
    requires Inv(w, Rest(true)) && LegalRun(w, ops) && FairRun(ops)
    ensures SafeRun(w, ops)
    decreases |ops|
  {
    hide Inv, Legal, FairOp, OpSafe, Step;
    if ops == [] {
    } else {
      FairIsSafe(w, ops[0]);
      StepKeeps(w, ops[0], true);
      FairRunIsSafe(Step(w, ops[0]), ops[1..]);
    }
  }
}
