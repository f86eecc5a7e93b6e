/** Fair runs: what can and what cannot grant requests at a node above its quota. */
module Frozen {
  import opened Words
  import opened Objects
  import opened Quota
  import opened Groups
  import opened Sums
  import opened NodeSpec
  import opened WorldSpec
  import opened Invariant
  import opened Steps
  import opened Bounds
  import opened Versions

  // A node of this fence stays above its quota even if `back` tokens come back.
  ghost predicate NoRoom(w: World, fence: int, back: nat) {
    forall id <- w.table :: w.table[id].fence == fence ==> w.table[id].base.quota + back < w.table[id].base.inuse
  }

  ghost predicate SameGrants(w: World, w': World, fence: int) {
    Holders(w'.store, fence, {}) == Holders(w.store, fence, {})
  }

  // ----- Requests settled elsewhere

  lemma {:induction false} DrainElsewhere(n: Node, s: Store, due: seq<TokenReqGrp>, fence: int)
    requires forall r <- n.queue :: r in s.reqs ==> s.reqs[r].nodeid != fence
    ensures Holders(Drain(n, s, due).store, fence, {}) == Holders(s, fence, {})
    decreases |n.queue|
  {
    if n.queue == [] || !Fits(n.base, n.queue[0].cost) {
    } else {
      var r := n.queue[0];
      var (s', err) := Finish(s, r, true);
      assert Holders(s', fence, {}) == Holders(s, fence, {});
      DrainElsewhere(Pop(n).(base := Charge(n.base, r.cost)), s', Collect(r.grp, err, due), fence);
    }
  }

  lemma {:induction false} FailAllElsewhere(q: seq<TokenReq>, s: Store, due: seq<TokenReqGrp>, fence: int)
    ensures Holders(FailAll(q, s, due).0, fence, {}) == Holders(s, fence, {})
    decreases |q|
  {
    if q == [] {
    } else {
      var (s', err) := Finish(s, q[0], false);
      assert Holders(s', fence, {}) == Holders(s, fence, {});
      FailAllElsewhere(q[1..], s', if err == FailedNode then [q[0].grp] + due else due, fence);
    }
  }

  // Draining a node of another fence.
  lemma OtherDrain(w: World, id: NodeId, b: Base, m: Mid, fence: int)
    requires Inv(w, m) && id in w.table && w.table[id].fence != fence
    ensures Holders(Drain(w.table[id].(base := b), w.store, m.due).store, fence, {}) == Holders(w.store, fence, {})
  {
    hide StoreInv, Charged, Pressed, Fenced, Delivered, Accounted;
    forall r <- w.table[id].queue
      ensures w.store.reqs[r].nodeid != fence
    {
      assert WaitsAt(w.store, w.table[id], id, r);
    }
    DrainElsewhere(w.table[id].(base := b), w.store, m.due, fence);
  }

  // ----- Getting

  lemma AskedElsewhere(w: World, r: TokenReq, m: Mid, fence: int)
    requires Inv(w, m) && m.fair && r in m.todo && NoRoom(w, fence, 0)
    ensures NoRoom(Ask(w, r).0, fence, 0) && SameGrants(w, Ask(w, r).0, fence)
  {
    hide StoreInv, Owned, Charged, Pressed, Fenced, Delivered, Accounted;
    TodoKnown(w, r, m.todo);
    if r.id in w.table && w.table[r.id].fence == fence {
      IsExact(w, m);
      OverQuotaFrozen(w.table[r.id], w.store, r, []);
    }
  }

  lemma {:induction false} AskAllElsewhere(w: World, rs: seq<TokenReq>, m: Mid, fence: int)
    requires Inv(w, m) && m.fair && NoRoom(w, fence, 0) && Members(rs) <= m.todo && NoDup(rs)
    ensures NoRoom(AskAll(w, rs).0, fence, 0) && SameGrants(w, AskAll(w, rs).0, fence)
    decreases |rs|
  {
    hide Inv, NoRoom, Holders;
    if rs == [] {
    } else {
      var r := rs[0];
      assert rs == [r] + rs[1..];
      assert r in Members(rs);
      AskedElsewhere(w, r, m, fence);
      if |rs| > 1 {
        AskKeeps(w, r, m);
        var (w1, err) := Ask(w, r);
        AskAllElsewhere(w1, rs[1..], Mid(m.todo - {r}, m.freed, Collect(r.grp, err, m.due), m.fair), fence);
      }
    }
  }

  lemma OnlineElsewhere(w: World, id: NodeId, fence: int)
    requires fence < w.version && NoRoom(w, fence, 0)
    ensures var w' := Online(w, id); NoRoom(w', fence, 0) && SameGrants(w, w', fence) && w.version <= w'.version
  {
  }

  lemma {:induction false} CheckInElsewhere(w: World, hs: seq<TokenReq>, fence: int)
    requires fence < w.version && NoRoom(w, fence, 0)
    ensures NoRoom(CheckIn(w, hs), fence, 0) && SameGrants(w, CheckIn(w, hs), fence)
    decreases |hs|
  {
    hide NoRoom, Holders;
    if hs == [] {
    } else {
      OnlineElsewhere(w, hs[0].id, fence);
      CheckInElsewhere(if hs[0].id in w.table then w else Online(w, hs[0].id), hs[1..], fence);
    }
  }

  // ----- Putting

  // The granted requests of `rs` whose tokens go back to this fence.
  ghost function Back(s: Store, rs: seq<TokenReq>, fence: int): set<TokenReq> {
    set r | r in rs && r in s.reqs && s.reqs[r].stat == Got && s.reqs[r].nodeid == fence
  }

  lemma HolderAtHome(w: World, m: Mid, r: TokenReq)
    requires Inv(w, m) && r in w.store.reqs && w.store.reqs[r].stat == Got
    ensures forall id <- w.table :: w.table[id].fence == w.store.reqs[r].nodeid ==> id == r.id
  {
  }

  // The arithmetic of a free that leaves the node above its quota.
  lemma FreedStillOver(w: World, r: TokenReq, m: Mid, back: nat)
    requires Inv(w, m) && m.fair && r in w.store.reqs && w.store.reqs[r].stat == Got && r !in m.freed
    requires r.id in w.table && w.store.reqs[r].nodeid == w.table[r.id].fence && r.cost <= back
    requires w.table[r.id].base.quota + back < w.table[r.id].base.inuse
    ensures var n := w.table[r.id];
      && Free(n, w.store, r, m.due) == Effect(n.(base := Discharge(n.base, r.cost)), w.store, m.due)
      && n.base.quota + (back - r.cost) < Discharge(n.base, r.cost).inuse
  {
    hide StoreInv, Owned, Charged, Pressed, Fenced, Delivered, Accounted;
    var n := w.table[r.id];
    IsExact(w, m);
    IsCharged(w, m);
    HolderCovered(w, r, m.freed);
    ExactKept(n.base, r.cost, MIN_RS_NUM, 0);
    OverQuotaFrozen(n.(base := Discharge(n.base, r.cost)), w.store, r, m.due);
  }

  lemma ReleaseElsewhere(w: World, r: TokenReq, m: Mid, fence: int, back: nat)
    requires Inv(w, m) && m.fair && r in w.store.reqs && w.store.reqs[r].stat == Got && r !in m.freed
    requires NoRoom(w, fence, back) && (w.store.reqs[r].nodeid == fence ==> r.cost <= back)
    ensures var w' := Release(w, r, m.due).world;
      && SameGrants(w, w', fence)
      && NoRoom(w', fence, if w.store.reqs[r].nodeid == fence then back - r.cost else back)
  {
    hide Inv, Holders;
    HolderAtHome(w, m, r);
    var w' := Release(w, r, m.due).world;
    if r.id in w.table && w.store.reqs[r].nodeid == w.table[r.id].fence {
      var n := w.table[r.id];
      if n.fence == fence {
        FreedStillOver(w, r, m, back);
      } else {
        OtherDrain(w, r.id, Discharge(n.base, r.cost), m, fence);
        DrainVersion(n.(base := Discharge(n.base, r.cost)), w.store, m.due);
      }
    } else {
      assert w'.table == w.table;
    }
  }

  lemma BackSplit(s: Store, rs: seq<TokenReq>, fence: int)
    requires rs != [] && NoDup(rs) && rs[0] in s.reqs
    ensures var r := rs[0];
      Held(Back(s, rs, fence)) ==
      Held(Back(s, rs[1..], fence)) + if s.reqs[r].stat == Got && s.reqs[r].nodeid == fence then r.cost else 0
  {
    var r := rs[0];
    assert rs == [r] + rs[1..];
    assert r !in rs[1..];
    if s.reqs[r].stat == Got && s.reqs[r].nodeid == fence {
      HeldSplit(Back(s, rs, fence), r);
      assert Back(s, rs, fence) - {r} == Back(s, rs[1..], fence);
    } else {
      assert Back(s, rs, fence) == Back(s, rs[1..], fence);
    }
  }

  lemma {:induction false} ReleaseAllElsewhere(w: World, rs: seq<TokenReq>, m: Mid, fence: int)
    requires Inv(w, m) && m.fair && NoDup(rs) && Members(rs) !! m.freed
    requires forall r <- rs :: r in w.store.reqs && w.store.reqs[r].stat != Init
    requires NoRoom(w, fence, Held(Back(w.store, rs, fence)))
    ensures SameGrants(w, ReleaseAll(w, rs, m.due).world, fence)
    decreases |rs|
  {
    hide Inv, NoRoom, Holders, Held;
    if rs == [] {
    } else {
      var r := rs[0];
      assert rs == [r] + rs[1..];
      assert r in Members(rs);
      BackSplit(w.store, rs, fence);
      var x := Release(w, r, m.due);
      var got := if w.store.reqs[r].stat == Got then {r} else {};
      if w.store.reqs[r].stat == Got {
        ReleaseElsewhere(w, r, m, fence, Held(Back(w.store, rs, fence)));
        ReleaseKeeps(w, r, m);
      } else {
        assert x.world == w && m.freed + got == m.freed;
      }
      assert Back(x.world.store, rs[1..], fence) == Back(w.store, rs[1..], fence);
      ReleaseAllElsewhere(x.world, rs[1..], Mid(m.todo, m.freed + got, x.due, m.fair), fence);
    }
  }

  lemma OfflineElsewhere(w: World, id: NodeId, fence: int, back: nat)
    requires NoRoom(w, fence, back)
    ensures NoRoom(Offline(w, id), fence, back) && SameGrants(w, Offline(w, id), fence)
  {
    if id in w.table {
      FailAllElsewhere(w.table[id].queue, w.store, [], fence);
    }
  }

  lemma {:induction false} CheckOutElsewhere(w: World, ids: seq<NodeId>, fence: int, back: nat)
    requires NoRoom(w, fence, back)
    ensures NoRoom(CheckOut(w, ids), fence, back) && SameGrants(w, CheckOut(w, ids), fence)
    decreases |ids|
  {
    hide NoRoom, Holders;
    if ids == [] {
    } else {
      OfflineElsewhere(w, ids[0], fence, back);
      CheckOutElsewhere(Offline(w, ids[0]), ids[1..], fence, back);
    }
  }

  // If all a put gives back to a node leaves it above its quota, the put grants nothing there.
  lemma PutGrantsNothing(w: World, g: TokenReqGrp, fails: seq<NodeId>, fence: int)
    requires Inv(w, Rest(true)) && g in w.store.grps && w.store.grps[g].err.Final()
    requires NoRoom(w, fence, Held(Back(w.store, w.store.grps[g].reqs, fence)))
    ensures Holders(Put(w, g, fails).store, fence, {}) == Holders(w.store, fence, {}) - Back(w.store, w.store.grps[g].reqs, fence)
  {
    hide Inv, NoRoom, Held, CheckOut, ReleaseAll, Retire;
    var rs := w.store.grps[g].reqs;
    var back := Back(w.store, rs, fence);
    FinalMeansSettled(w, g, true);
    CheckOutKeeps(w, fails, true);
    CheckOutElsewhere(w, fails, fence, Held(back));
    var w1 := CheckOut(w, fails);
    assert Back(w1.store, rs, fence) == back;
    ReleaseAllElsewhere(w1, rs, Rest(true), fence);
    ReleaseAllKeeps(w1, rs, Rest(true));
    RetiredGrants(Tell(ReleaseAll(w1, rs, []).world, ReleaseAll(w1, rs, []).due), g, fence);
    assert Holders(w.store, fence, {}) - Members(rs) == Holders(w.store, fence, {}) - back;
  }

  lemma RetiredGrants(w: World, g: TokenReqGrp, fence: int)
    requires g in w.store.grps
    ensures Holders(Retire(w, g).store, fence, {}) == Holders(w.store, fence, {}) - Members(w.store.grps[g].reqs)
  {
  }

  // A get grants nothing at a node above its quota, even if it fails and its group is put.
  lemma GetGrantsNothing(w: World, g: TokenReqGrp, hs: seq<TokenReq>, fence: int)
    requires Inv(w, Rest(true)) && NewGroup(w, g, hs) && NoRoom(w, fence, 0) && fence < w.version
    ensures SameGrants(w, Get(w, g, hs).0, fence)
  {
    hide Inv, NoRoom, Held, AskAll, CheckIn, Put;
    if !OutOfMemory(w, hs) {
      AskedKeeps(w, g, hs, true);
      AskedGrantsNothing(w, g, hs, fence);
      var (w1, err) := Asked(w, g, hs);
      var w2 := Answered(w1, g, err);
      if err == FailedNode {
        AnsweredKeeps(w1, g, err, true);
        assert w2.table == w1.table && w2.store == w1.store;
        NothingBack(w, w1, g, fence);
        SameRoom(w1, w2, fence);
        PutGrantsNothing(w2, g, [], fence);
      }
    }
  }

  lemma SameRoom(w: World, w': World, fence: int)
    requires NoRoom(w, fence, 0) && w'.table == w.table
    ensures NoRoom(w', fence, 0)
  {
  }

  // None of the grants under this fence belongs to the new group.
  lemma NothingBack(w: World, w': World, g: TokenReqGrp, fence: int)
    requires Inv(w, Rest(true)) && g !in w.store.grps && SameGrants(w, w', fence)
    requires g in w'.store.grps && forall r <- w'.store.grps[g].reqs :: r in w'.store.reqs ==> r.grp == g
    ensures Back(w'.store, w'.store.grps[g].reqs, fence) == {} && Held({}) == 0
  {
    hide Owned, Charged, Pressed, Fenced, Delivered, Accounted;
    LinkedIn(w.store);
    assert forall r | r in Holders(w'.store, fence, {}) :: r in w.store.reqs && r.grp != g;
  }

  lemma AskedGrantsNothing(w: World, g: TokenReqGrp, hs: seq<TokenReq>, fence: int)
    requires Inv(w, Rest(true)) && NewGroup(w, g, hs) && !OutOfMemory(w, hs) && NoRoom(w, fence, 0) && fence < w.version
    ensures var w' := Asked(w, g, hs).0;
      && NoRoom(w', fence, 0) && SameGrants(w, w', fence)
      && g !in w.store.grps && g in w'.store.grps && forall r <- w'.store.grps[g].reqs :: r in w'.store.reqs ==> r.grp == g
  {
    hide Inv, AskAll, CheckIn, Admit, Holders, NoRoom, NewGroup, Held;
    LimitsHold(w, true);
    AdmittedElsewhere(w, g, hs, fence);
    AdmitStep(w, g, hs, true);
    var w1, m := Admit(w, g, hs), Mid(Members(hs), {}, [], true);
    CheckInKeeps(w1, hs, m);
    CheckInElsewhere(w1, hs, fence);
    ReversedMembers(hs);
    AskAllElsewhere(CheckIn(w1, hs), Reversed(hs), m, fence);
    AskedKeeps(w, g, hs, true);
    ListedHere(Asked(w, g, hs).0, Mid({}, {}, if Asked(w, g, hs).1.Final() then [g] else [], true), g);
  }

  lemma AdmittedElsewhere(w: World, g: TokenReqGrp, hs: seq<TokenReq>, fence: int)
    requires Inv(w, Rest(true)) && NewGroup(w, g, hs) && NoRoom(w, fence, 0) && fence < w.version
    ensures var w' := Admit(w, g, hs);
      NoRoom(w', fence, 0) && SameGrants(w, w', fence) && fence < w'.version && g !in w.store.grps && NoDup(hs)
  {
    hide Inv, Holders;
    GroupIsNew(w, g, hs, true);
    AdmittedUnder(w, g, hs, fence);
  }

  lemma AdmittedUnder(w: World, g: TokenReqGrp, hs: seq<TokenReq>, fence: int)
    requires forall r <- hs :: r !in w.store.reqs
    ensures SameGrants(w, Admit(w, g, hs), fence)
  {
    var s, s' := w.store, Admit(w, g, hs).store;
    forall r | r in s'.reqs
      ensures r in Holders(s', fence, {}) <==> r in Holders(s, fence, {})
    {
    }
  }

  lemma ListedHere(w: World, m: Mid, g: TokenReqGrp)
    requires Inv(w, m) && g in w.store.grps
    ensures forall r <- w.store.grps[g].reqs :: r in w.store.reqs && r.grp == g
  {
    hide Owned, Charged, Pressed, Fenced, Delivered, Accounted;
    LinkedIn(w.store);
  }

  // ----- Any other operation

  lemma RcvdGrantsNothing(w: World, x: NodeId, total: U64, ver: int, fence: int)
    requires Inv(w, Rest(true)) && NoRoom(w, fence, 0) && fence < w.version
    requires x in w.table && w.table[x].fence == fence ==> total <= w.table[x].base.quota || ver <= w.table[x].base.version
    ensures SameGrants(w, Rcvd(w, x, total, ver), fence)
  {
    hide Inv, Holders;
    if x in w.table && Update(w.table[x].base, total, ver).increased {
      OtherDrain(w, x, Update(w.table[x].base, total, ver).base, Rest(true), fence);
    }
  }

  // What comes back to a fence by an operation.
  ghost function Returning(w: World, op: Op, fence: int): set<TokenReq> {
    if op.OpPut? && op.grp in w.store.grps then Back(w.store, w.store.grps[op.grp].reqs, fence) else {}
  }

  // The operation raises the quota of the node of this fence.
  ghost predicate Raises(w: World, op: Op, fence: int) {
    && op.OpRcvd? && op.id in w.table && w.table[op.id].fence == fence
    && w.table[op.id].base.quota < op.total && w.table[op.id].base.version < op.ver
  }

  lemma StepGrantsNothing(w: World, op: Op, fence: int)
    requires Inv(w, Rest(true)) && Legal(w, op) && fence < w.version && !Raises(w, op, fence)
    requires NoRoom(w, fence, Held(Returning(w, op, fence)))
    ensures Holders(Step(w, op).store, fence, {}) == Holders(w.store, fence, {}) - Returning(w, op, fence)
  {
    hide Inv, NoRoom, NewGroup, Get, Put, Rcvd, Offline;
    assert Held({}) == 0;
    match op
    case OpGet(g, hs) => GetGrantsNothing(w, g, hs, fence);
    case OpPut(g, fails) => PutGrantsNothing(w, g, fails, fence);
    case OpOnline(x) => OnlineElsewhere(w, x, fence);
    case OpOffline(x) => OfflineElsewhere(w, x, fence, 0);
    case OpReset(x) =>
    case OpRcvd(x, total, ver) => RcvdGrantsNothing(w, x, total, ver, fence);
  }
}
