/** The version protocol and the fences, over single operations and over runs. */
module Versions {
  import opened Words
  import opened Objects
  import opened Quota
  import opened NodeSpec
  import opened WorldSpec

  // ----- Versions

  lemma {:induction false} DrainVersion(n: Node, s: Store, due: seq<TokenReqGrp>)
    ensures var n' := Drain(n, s, due).node;
      n'.base.version == n.base.version && n'.base.quotaNew == n.base.quotaNew && n'.fence == n.fence
    decreases |n.queue|
  {
    if n.queue == [] || !Fits(n.base, n.queue[0].cost) {
    } else {
      var r := n.queue[0];
      var (s', err) := Finish(s, r, true);
      DrainVersion(Pop(n).(base := Charge(n.base, r.cost)), s', Collect(r.grp, err, due));
    }
  }

  // A node present before and after is the same incarnation at the same version.
  ghost predicate VersionsKept(w: World, w': World) {
    w'.limits == w.limits && forall id <- w'.table :: id in w.table ==>
      w'.table[id].fence == w.table[id].fence && w'.table[id].base.version == w.table[id].base.version
  }

  lemma {:induction false} CheckInVersions(w: World, hs: seq<TokenReq>)
    ensures VersionsKept(w, CheckIn(w, hs)) && w.table.Keys <= CheckIn(w, hs).table.Keys
    decreases |hs|
  {
    if hs == [] {
    } else {
      CheckInVersions(if hs[0].id in w.table then w else Online(w, hs[0].id), hs[1..]);
    }
  }

  lemma {:induction false} AskAllVersions(w: World, rs: seq<TokenReq>)
    ensures VersionsKept(w, AskAll(w, rs).0) && AskAll(w, rs).0.table.Keys == w.table.Keys
    decreases |rs|
  {
    if |rs| <= 1 {
    } else {
      AskAllVersions(Ask(w, rs[0]).0, rs[1..]);
    }
  }

  lemma ReleaseVersions(w: World, r: TokenReq, due: seq<TokenReqGrp>)
    ensures VersionsKept(w, Release(w, r, due).world) && Release(w, r, due).world.table.Keys == w.table.Keys
  {
    if r.id in w.table {
      DrainVersion(w.table[r.id].(base := Discharge(w.table[r.id].base, r.cost)), w.store, due);
    }
  }

  lemma {:induction false} ReleaseAllVersions(w: World, rs: seq<TokenReq>, due: seq<TokenReqGrp>)
    ensures var w' := ReleaseAll(w, rs, due).world; VersionsKept(w, w') && w'.table.Keys == w.table.Keys
    decreases |rs|
  {
    if rs == [] {
    } else {
      ReleaseVersions(w, rs[0], due);
      var x := Release(w, rs[0], due);
      ReleaseAllVersions(x.world, rs[1..], x.due);
    }
  }

  lemma {:induction false} CheckOutVersions(w: World, ids: seq<NodeId>)
    ensures VersionsKept(w, CheckOut(w, ids)) && CheckOut(w, ids).table.Keys <= w.table.Keys
    decreases |ids|
  {
    if ids == [] {
    } else {
      CheckOutVersions(Offline(w, ids[0]), ids[1..]);
    }
  }

  lemma PutVersions(w: World, g: TokenReqGrp, fails: seq<NodeId>)
    ensures VersionsKept(w, Put(w, g, fails))
  {
    CheckOutVersions(w, fails);
    var w1 := CheckOut(w, fails);
    ReleaseAllVersions(w1, if g in w1.store.grps then w1.store.grps[g].reqs else [], []);
  }

  lemma GetVersions(w: World, g: TokenReqGrp, hs: seq<TokenReq>)
    ensures VersionsKept(w, Get(w, g, hs).0)
  {
    hide AskAll, CheckIn;
    var w1 := CheckIn(Admit(w, g, hs), hs);
    CheckInVersions(Admit(w, g, hs), hs);
    AskAllVersions(w1, Reversed(hs));
    var (w2, err) := AskAll(w1, Reversed(hs));
    PutVersions(w2.(log := w2.log + [Returned(g, err)]), g, []);
  }

  // What a node looks like after a reset: use and waiters stay.
  ghost function Wiped(n: Node): Node {
    n.(base := Base(n.base.inuse, MIN_RS_NUM, MIN_RS_NUM, 0))
  }

  // A node's version goes down only by a reset, asked for directly or by a message from the past.
  lemma VersionFallsOnlyByReset(w: World, op: Op, id: NodeId)
    requires id in w.table && id in Step(w, op).table
    ensures var (n, n') := (w.table[id], Step(w, op).table[id]);
      n'.fence == n.fence
      && (n'.base.version >= n.base.version
          || ((op == OpReset(id) || (op.OpRcvd? && op.id == id && op.ver < n.base.version)) && n' == Wiped(n)))
  {
    hide Get, Put;
    match op
    case OpGet(g, hs) => GetVersions(w, g, hs);
    case OpPut(g, fails) => PutVersions(w, g, fails);
    case OpRcvd(x, total, ver) =>
      if x in w.table {
        DrainVersion(w.table[x].(base := Update(w.table[x].base, total, ver).base), w.store, []);
      }
    case _ =>
  }

  // A message from the past puts the node back to the start and touches nothing else.
  lemma OlderResets(w: World, id: NodeId, total: U64, ver: int)
    requires id in w.table && ver < w.table[id].base.version
    ensures Rcvd(w, id, total, ver) == w.(table := w.table[id := Wiped(w.table[id])])
  {
    var w' := Rcvd(w, id, total, ver);
    assert Callbacks(w.store, []) == [];
    assert w'.table == w.table[id := Wiped(w.table[id])];
  }

  // A message that is not from the past is taken once: delivering it again changes nothing at all.
  lemma RedeliveryIdle(w: World, id: NodeId, total: U64, ver: int)
    requires id in w.table && w.table[id].base.version <= ver
    ensures var w' := Rcvd(w, id, total, ver);
      id in w'.table && w'.table[id].base.version == ver && Rcvd(w', id, total, ver) == w'
  {
    var v := Update(w.table[id].base, total, ver);
    DrainVersion(w.table[id].(base := v.base), w.store, []);
    var w' := Rcvd(w, id, total, ver);
    assert Callbacks(w'.store, []) == [];
    assert Rcvd(w', id, total, ver).table == w'.table;
  }

  // ----- Fences

  // The incarnation `fence` is over: it was handed out, and no node bears it.
  ghost predicate Gone(w: World, fence: int) {
    fence < w.version && forall id <- w.table :: w.table[id].fence != fence
  }

  lemma StepFences(w: World, op: Op, fence: int)
    requires Gone(w, fence)
    ensures Gone(Step(w, op), fence)
  {
    hide Get, Put;
    match op
    case OpGet(g, hs) => GetFences(w, g, hs, fence);
    case OpPut(g, fails) => PutFences(w, g, fails, fence);
    case OpRcvd(x, total, ver) =>
      if x in w.table {
        DrainVersion(w.table[x].(base := Update(w.table[x].base, total, ver).base), w.store, []);
      }
    case _ =>
  }

  lemma {:induction false} CheckInFences(w: World, hs: seq<TokenReq>, fence: int)
    requires Gone(w, fence)
    ensures Gone(CheckIn(w, hs), fence)
    decreases |hs|
  {
    if hs == [] {
    } else {
      CheckInFences(if hs[0].id in w.table then w else Online(w, hs[0].id), hs[1..], fence);
    }
  }

  lemma {:induction false} CheckOutFences(w: World, ids: seq<NodeId>, fence: int)
    requires Gone(w, fence)
    ensures Gone(CheckOut(w, ids), fence)
    decreases |ids|
  {
    if ids == [] {
    } else {
      CheckOutFences(Offline(w, ids[0]), ids[1..], fence);
    }
  }

  lemma {:induction false} ReleaseAllFences(w: World, rs: seq<TokenReq>, due: seq<TokenReqGrp>, fence: int)
    requires Gone(w, fence)
    ensures Gone(ReleaseAll(w, rs, due).world, fence)
    decreases |rs|
  {
    if rs == [] {
    } else {
      var x := Release(w, rs[0], due);
      ReleaseVersions(w, rs[0], due);
      ReleaseAllFences(x.world, rs[1..], x.due, fence);
    }
  }

  lemma {:induction false} AskAllFences(w: World, rs: seq<TokenReq>, fence: int)
    requires Gone(w, fence)
    ensures Gone(AskAll(w, rs).0, fence)
    decreases |rs|
  {
    if |rs| <= 1 {
    } else {
      AskAllFences(Ask(w, rs[0]).0, rs[1..], fence);
    }
  }

  lemma PutFences(w: World, g: TokenReqGrp, fails: seq<NodeId>, fence: int)
    requires Gone(w, fence)
    ensures Gone(Put(w, g, fails), fence)
  {
    hide CheckOut, ReleaseAll;
    CheckOutFences(w, fails, fence);
    var w1 := CheckOut(w, fails);
    ReleaseAllFences(w1, if g in w1.store.grps then w1.store.grps[g].reqs else [], [], fence);
  }

  lemma GetFences(w: World, g: TokenReqGrp, hs: seq<TokenReq>, fence: int)
    requires Gone(w, fence)
    ensures Gone(Get(w, g, hs).0, fence)
  {
    hide AskAll, CheckIn, Put;
    CheckInFences(Admit(w, g, hs), hs, fence);
    var w1 := CheckIn(Admit(w, g, hs), hs);
    AskAllFences(w1, Reversed(hs), fence);
    var (w2, err) := AskAll(w1, Reversed(hs));
    PutFences(w2.(log := w2.log + [Returned(g, err)]), g, [], fence);
  }

  // An incarnation that is over stays over: no later node ever takes its tokens back.
  lemma {:induction false} FencesNeverReturn(w: World, ops: seq<Op>, fence: int)
    requires Gone(w, fence)
    ensures Gone(Run(w, ops), fence)
    decreases |ops|
  {
    if ops == [] {
    } else {
      StepFences(w, ops[0], fence);
      FencesNeverReturn(Step(w, ops[0]), ops[1..], fence);
    }
  }
}
