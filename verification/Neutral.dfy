/**
  A get that succeeds at once and is put back, or that fails at once, leaves no trace: nothing it granted
  stays charged, no waiter moved, and nobody else was told anything.
 */
module Neutral {
  import opened Words
  import opened Objects
  import opened Quota
  import opened Groups
  import opened Sums
  import opened NodeSpec
  import opened WorldSpec
  import opened Invariant
  import opened Steps
  import opened Bounds
  import opened Waiters

  // The requests and groups of s0 are in s, unchanged.
  ghost predicate Extends(s0: Store, s: Store) {
    && (forall r <- s0.reqs :: r in s.reqs && s.reqs[r] == s0.reqs[r])
    && (forall g <- s0.grps :: g in s.grps && s.grps[g] == s0.grps[g])
  }

  ghost function QueueOf(w: World, id: NodeId): seq<TokenReq> {
    if id in w.table then w.table[id].queue else []
  }

  // Since w0, a node's quota may have shrunk and only requests of g may have joined its queue.
  ghost predicate OnlyBehind(w0: World, w: World, g: TokenReqGrp) {
    && (forall id <- w0.table ::
          && id in w.table && w.table[id].fence == w0.table[id].fence
          && w.table[id].base.quota <= w0.table[id].base.quota)
    && (forall id <- w.table ::
          && QueueOf(w0, id) <= w.table[id].queue
          && (forall i | |QueueOf(w0, id)| <= i < |w.table[id].queue| :: w.table[id].queue[i].grp == g)
          && (id !in w0.table ==> w0.version <= w.table[id].fence))
  }

  ghost predicate Undisturbed(w0: World, w: World) {
    && (forall id <- w0.table ::
          && id in w.table && w.table[id].fence == w0.table[id].fence
          && w.table[id].base.quota <= w0.table[id].base.quota)
    && (forall id <- w.table ::
          && w.table[id].queue == QueueOf(w0, id)
          && (id !in w0.table ==> w0.version <= w.table[id].fence))
  }

  // ----- Asking

  lemma AllocBehind(n: Node, s: Store, r: TokenReq)
    requires Exact(n.base)
    ensures var n' := Alloc(n, s, r).0;
      n'.fence == n.fence && n'.base.quota <= n.base.quota && (n'.queue == n.queue || n'.queue == n.queue + [r])
  {
    if Fits(n.base, r.cost) {
      ChargeNear(n, r.cost);
    }
  }

  lemma AskBehind(w0: World, w: World, r: TokenReq, m: Mid)
    requires Inv(w, m) && m.fair && OnlyBehind(w0, w, r.grp)
    ensures OnlyBehind(w0, Ask(w, r).0, r.grp)
  {
    hide Inv, Alloc, Finish, Exact;
    if r.id in w.table {
      IsExact(w, m);
      AllocBehind(w.table[r.id], w.store, r);
    }
  }

  lemma {:induction false} AskAllBehind(w0: World, w: World, rs: seq<TokenReq>, g: TokenReqGrp, m: Mid)
    requires Inv(w, m) && m.fair && Members(rs) <= m.todo && NoDup(rs) && (forall r <- rs :: r.grp == g)
    requires OnlyBehind(w0, w, g) && Extends(w0.store, w.store) && g !in w0.store.grps && (forall r <- rs :: r !in w0.store.reqs)
    ensures var w' := AskAll(w, rs).0;
      && OnlyBehind(w0, w', g) && Extends(w0.store, w'.store)
      && w'.store.reqs.Keys == w.store.reqs.Keys && w'.store.grps.Keys == w.store.grps.Keys
      && (g in w.store.grps ==> w'.store.grps[g].reqs == w.store.grps[g].reqs)
      && w'.out == w.out
    decreases |rs|
  {
    hide Inv, OnlyBehind;
    if rs == [] {
    } else {
      var r := rs[0];
      assert rs == [r] + rs[1..];
      assert r in Members(rs) && r in rs;
      AskBehind(w0, w, r, m);
      AskKeeps(w, r, m);
      if |rs| > 1 {
        var (w1, err) := Ask(w, r);
        AskAllBehind(w0, w1, rs[1..], g, Mid(m.todo - {r}, m.freed, Collect(g, err, m.due), true));
      }
    }
  }

  lemma {:induction false} CheckInBehind(w0: World, w: World, hs: seq<TokenReq>, g: TokenReqGrp)
    requires OnlyBehind(w0, w, g) && w0.version <= w.version
    ensures var w' := CheckIn(w, hs);
      OnlyBehind(w0, w', g) && w'.out.grps == w.out.grps && w'.out.reqs == w.out.reqs
    decreases |hs|
  {
    if hs == [] {
    } else {
      var w1 := if hs[0].id in w.table then w else Online(w, hs[0].id);
      if hs[0].id !in w.table { OnlineBehind(w0, w, hs[0].id, g); }
      CheckInBehind(w0, w1, hs[1..], g);
    }
  }

  lemma OnlineBehind(w0: World, w: World, id: NodeId, g: TokenReqGrp)
    requires OnlyBehind(w0, w, g) && w0.version <= w.version && id !in w.table
    ensures OnlyBehind(w0, Online(w, id), g)
  {
  }

  lemma WaiterPends(w: World, m: Mid, id: NodeId, i: nat)
    requires Inv(w, m) && id in w.table && i < |w.table[id].queue|
    ensures Outcome(w.store, w.table[id].queue[i].grp) == Pending
  {
    hide StoreInv, Charged, Pressed, Fenced, Delivered, Accounted;
    var r := w.table[id].queue[i];
    assert WaitsAt(w.store, w.table[id], id, r);
    StillInit(w.store, r);
  }

  // A group with an outcome waits nowhere.
  lemma NobodyBehind(w0: World, w: World, g: TokenReqGrp, m: Mid)
    requires Inv(w, m) && OnlyBehind(w0, w, g) && Outcome(w.store, g) != Pending
    ensures Undisturbed(w0, w)
  {
    hide Inv, Outcome;
    forall id <- w.table
      ensures w.table[id].queue == QueueOf(w0, id)
    {
      var k := |QueueOf(w0, id)|;
      if k < |w.table[id].queue| {
        WaiterPends(w, m, id, k);
        assert false;
      }
    }
  }

  // The world in which a get asks its first request.
  lemma ReadyToAsk(w: World, g: TokenReqGrp, hs: seq<TokenReq>)
    requires Inv(w, Rest(true)) && NewGroup(w, g, hs) && !OutOfMemory(w, hs)
    ensures var w' := CheckIn(Admit(w, g, hs), hs);
      && Inv(w', Mid(Members(hs), {}, [], true))
      && OnlyBehind(w, w', g) && w'.store == Admit(w, g, hs).store && Extends(w.store, w'.store)
      && w'.out.grps == w.out.grps + 1 && w'.out.reqs == w.out.reqs + |hs|
      && g !in w.store.grps && (forall r <- hs :: r !in w.store.reqs)
  {
    hide Inv, OnlyBehind, Extends;
    LimitsHold(w, true);
    AdmitStep(w, g, hs, true);
    GroupIsNew(w, g, hs, true);
    var w1, m := Admit(w, g, hs), Mid(Members(hs), {}, [], true);
    AdmitBehind(w, g, hs);
    CheckInKeeps(w1, hs, m);
    CheckInBehind(w, w1, hs, g);
  }

  lemma AskedBehind(w: World, g: TokenReqGrp, hs: seq<TokenReq>)
    requires Inv(w, Rest(true)) && NewGroup(w, g, hs) && !OutOfMemory(w, hs)
    ensures var w' := Asked(w, g, hs).0;
      && OnlyBehind(w, w', g) && Extends(w.store, w'.store)
      && w'.store.reqs.Keys == w.store.reqs.Keys + Members(hs) && w'.store.grps.Keys == w.store.grps.Keys + {g}
      && w'.store.grps[g].reqs == Reversed(hs)
      && w'.out.grps == w.out.grps + 1 && w'.out.reqs == w.out.reqs + |hs|
  {
    hide Inv, OnlyBehind, Extends, CheckIn, AskAll;
    ReadyToAsk(w, g, hs);
    ReversedMembers(hs);
    forall r <- Reversed(hs)
      ensures r in hs
    {
      assert r in Members(Reversed(hs));
    }
    AskAllBehind(w, CheckIn(Admit(w, g, hs), hs), Reversed(hs), g, Mid(Members(hs), {}, [], true));
  }

  lemma AskedUndisturbed(w: World, g: TokenReqGrp, hs: seq<TokenReq>)
    requires Inv(w, Rest(true)) && NewGroup(w, g, hs) && !OutOfMemory(w, hs)
    requires Asked(w, g, hs).1.Final()
    ensures Undisturbed(w, Asked(w, g, hs).0)
  {
    hide Inv, OnlyBehind, Extends, NewGroup, Undisturbed;
    AskedBehind(w, g, hs);
    AskedKeeps(w, g, hs, true);
    NobodyBehind(w, Asked(w, g, hs).0, g, Mid({}, {}, [g], true));
  }

  lemma AdmitBehind(w: World, g: TokenReqGrp, hs: seq<TokenReq>)
    requires g !in w.store.grps && (forall r <- hs :: r !in w.store.reqs)
    ensures OnlyBehind(w, Admit(w, g, hs), g) && Extends(w.store, Admit(w, g, hs).store)
  {
  }

  // ----- Putting back

  // While old requests hold what they held, a node's use is never below what it was.
  lemma UseNotBelow(w0: World, w: World, m: Mid, id: NodeId)
    requires Charged(w0, {}, true) && Charged(w, m.freed, true) && Extends(w0.store, w.store)
    requires id in w0.table && id in w.table && w0.table[id].fence == w.table[id].fence
    requires m.freed !! w0.store.reqs.Keys
    ensures w0.table[id].base.inuse <= w.table[id].base.inuse
  {
    var h0, h := Holders(w0.store, w0.table[id].fence, {}), Holders(w.store, w.table[id].fence, m.freed);
    assert h0 <= h;
    HeldMonotone(h0, h);
  }

  // The head that did not fit then does not fit now.
  lemma HeadStays(w0: World, w: World, id: NodeId, m: Mid)
    requires Inv(w0, Rest(true)) && NoStranded(w0) && Inv(w, m) && m.fair
    requires Undisturbed(w0, w) && Extends(w0.store, w.store) && id in w.table
    requires m.freed !! w0.store.reqs.Keys
    ensures Settled(w.table[id])
  {
    hide Inv, Charged, NoStranded, Extends;
    var n := w.table[id];
    if n.queue != [] {
      IsCharged(w0, Rest(true));
      IsCharged(w, m);
      IsExact(w0, Rest(true));
      IsExact(w, m);
      UseNotBelow(w0, w, m, id);
      HeadUnfit(w0, id);
      ExactKept(n.base, n.queue[0].cost, MIN_RS_NUM, 0);
      ExactKept(w0.table[id].base, n.queue[0].cost, MIN_RS_NUM, 0);
    }
  }

  // Giving back what came after w0 lets no waiter of w0 in.
  lemma ReleaseQuiet(w0: World, w: World, r: TokenReq, m: Mid)
    requires Inv(w0, Rest(true)) && NoStranded(w0) && Inv(w, m) && m.fair
    requires Undisturbed(w0, w) && Extends(w0.store, w.store)
    requires r in w.store.reqs && w.store.reqs[r].stat == Got && r !in m.freed && r !in w0.store.reqs
    requires m.freed !! w0.store.reqs.Keys
    ensures var x := Release(w, r, m.due);
      x.due == m.due && x.world.store == w.store && x.world.log == w.log && x.world.out == w.out && Undisturbed(w0, x.world)
  {
    hide Inv, Charged, NoStranded, Extends;
    if r.id in w.table && w.store.reqs[r].nodeid == w.table[r.id].fence {
      DischargeStep(w, r, m);
      var w1 := DischargeAt(w, r.id, r);
      var m1 := Mid(m.todo, m.freed + {r}, m.due, m.fair);
      var n1 := w1.table[r.id];
      HeadStays(w0, w1, r.id, m1);
      assert Drain(n1, w.store, m.due) == Effect(n1, w.store, m.due);
    }
  }

  lemma HeadUnfit(w: World, id: NodeId)
    requires NoStranded(w) && id in w.table
    ensures Settled(w.table[id])
  {
  }

  lemma {:induction false} ReleaseAllQuiet(w0: World, w: World, rs: seq<TokenReq>, m: Mid)
    requires Inv(w0, Rest(true)) && NoStranded(w0) && Inv(w, m) && m.fair
    requires Undisturbed(w0, w) && Extends(w0.store, w.store)
    requires NoDup(rs) && Members(rs) !! m.freed && m.freed !! w0.store.reqs.Keys
    requires forall r <- rs :: r in w.store.reqs && w.store.reqs[r].stat != Init && r !in w0.store.reqs
    ensures var x := ReleaseAll(w, rs, m.due);
      x.due == m.due && x.world.store == w.store && x.world.log == w.log && x.world.out == w.out && Undisturbed(w0, x.world)
    decreases |rs|
  {
    hide Inv, Undisturbed, NoStranded;
    if rs == [] {
    } else {
      var r := rs[0];
      assert rs == [r] + rs[1..];
      assert r in Members(rs) && r in rs;
      var x := Release(w, r, m.due);
      if w.store.reqs[r].stat == Got {
        ReleaseKeeps(w, r, m);
        ReleaseQuiet(w0, w, r, m);
        ReleaseAllQuiet(w0, x.world, rs[1..], Mid(m.todo, m.freed + {r}, x.due, m.fair));
      } else {
        ReleaseAllQuiet(w0, w, rs[1..], m);
      }
    }
  }

  // ----- The round trip

  // Nothing of the group is left in w', and nobody of w noticed.
  ghost predicate NoTrace(w: World, w': World) {
    && w'.store == w.store && w'.out.grps == w.out.grps && w'.out.reqs == w.out.reqs
    && (forall id <- w.table ::
          && id in w'.table && w'.table[id].fence == w.table[id].fence
          && w'.table[id].base.inuse == w.table[id].base.inuse
          && w'.table[id].queue == w.table[id].queue && w'.table[id].press == w.table[id].press)
    && (forall id <- w'.table :: id !in w.table ==> w'.table[id].base.inuse == 0 && w'.table[id].queue == [])
  }

  lemma UntracedNodes(w: World, w': World)
    requires Inv(w, Rest(true)) && Inv(w', Rest(true)) && Undisturbed(w, w') && w'.store == w.store
    requires w'.out.grps == w.out.grps && w'.out.reqs == w.out.reqs
    ensures NoTrace(w, w')
  {
    forall id <- w'.table | id !in w.table
      ensures w'.table[id].base.inuse == 0
    {
      NewNodeUnused(w, w', id);
    }
    forall id <- w.table
      ensures w'.table[id].base.inuse == w.table[id].base.inuse && w'.table[id].press == w.table[id].press
    {
      SameNodeUse(w, w', id);
    }
  }

  lemma NewNodeUnused(w: World, w': World, id: NodeId)
    requires Fenced(w) && Charged(w', {}, true) && w'.store == w.store && id in w'.table && w.version <= w'.table[id].fence
    ensures w'.table[id].base.inuse == 0
  {
    assert Holders(w'.store, w'.table[id].fence, {}) == {};
  }

  lemma SameNodeUse(w: World, w': World, id: NodeId)
    requires Charged(w, {}, true) && Charged(w', {}, true) && Pressed(w) && Pressed(w') && w'.store == w.store
    requires id in w.table && id in w'.table && w'.table[id].fence == w.table[id].fence && w'.table[id].queue == w.table[id].queue
    ensures w'.table[id].base.inuse == w.table[id].base.inuse && w'.table[id].press == w.table[id].press
  {
  }

  lemma RetireUndoes(w: World, w': World, g: TokenReqGrp, hs: seq<TokenReq>)
    requires Extends(w.store, w'.store) && g !in w.store.grps && (forall r <- hs :: r !in w.store.reqs)
    requires w'.store.reqs.Keys == w.store.reqs.Keys + Members(hs) && w'.store.grps.Keys == w.store.grps.Keys + {g}
    requires w'.store.grps[g].reqs == Reversed(hs)
    ensures Retire(w', g).store == w.store
  {
    ReversedMembers(hs);
    assert forall r :: r in Members(Reversed(hs)) <==> r in Members(hs);
    assert Retire(w', g).store.reqs == w.store.reqs;
    assert Retire(w', g).store.grps == w.store.grps;
  }

  // Putting back a group that completed within its get undoes the get.
  lemma PutUndoes(w: World, g: TokenReqGrp, hs: seq<TokenReq>)
    requires Inv(w, Rest(true)) && NoStranded(w) && NewGroup(w, g, hs) && !OutOfMemory(w, hs)
    requires Asked(w, g, hs).1.Final()
    ensures var (w', err) := Asked(w, g, hs);
      var w2 := Put(Answered(w', g, err), g, []);
      NoTrace(w, w2) && w2.log == w.log + [Returned(g, err)]
  {
    hide Inv, Undisturbed, NoStranded;
    var (w', err) := Asked(w, g, hs);
    AskedKeeps(w, g, hs, true);
    AskedBehind(w, g, hs);
    AskedUndisturbed(w, g, hs);
    GroupIsNew(w, g, hs, true);
    var w1 := Answered(w', g, err);
    AnsweredKeeps(w', g, err, true);
    UndisturbedFrame(w, w', w1);
    FinalMeansSettled(w1, g, true);
    ReversedMembers(hs);
    forall r <- Reversed(hs)
      ensures r in hs
    {
      assert r in Members(Reversed(hs));
    }
    ReleaseAllQuiet(w, w1, Reversed(hs), Rest(true));
    var x := ReleaseAll(w1, Reversed(hs), []).world;
    var w2 := Put(w1, g, []);
    RetireUndoes(w, Tell(x, []), g, hs);
    PutKeeps(w1, g, [], true);
    UndisturbedFrame(w, x, w2);
    assert Callbacks(x.store, []) == [];
    UntracedNodes(w, w2);
  }

  lemma UndisturbedFrame(w: World, w1: World, w2: World)
    requires Undisturbed(w, w1) && w2.table == w1.table
    ensures Undisturbed(w, w2)
  {
  }

  lemma GetPutNeutral(w: World, g: TokenReqGrp, hs: seq<TokenReq>)
    requires Inv(w, Rest(true)) && NoStranded(w) && NewGroup(w, g, hs)
    ensures var (w1, err) := Get(w, g, hs);
      && (err == Ok ==> NoTrace(w, Put(w1, g, [])) && Put(w1, g, []).log == w.log + [Returned(g, Ok)])
      && (err == FailedNode ==> NoTrace(w, w1) && w1.log == w.log + [Returned(g, FailedNode)])
      && (err == Memory ==> w1 == w)
  {
    hide Inv, NoStranded, NoTrace, NewGroup;
    if !OutOfMemory(w, hs) {
      AskedKeeps(w, g, hs, true);
      if Asked(w, g, hs).1.Final() {
        PutUndoes(w, g, hs);
      }
    }
  }
}
