/** Every entry point of the manager keeps the invariant, whatever messages arrive. */
module Steps {
  import opened Words
  import opened Objects
  import opened Quota
  import opened Groups
  import opened NodeSpec
  import opened WorldSpec
  import opened Invariant

  // ----- What never changes once a request is settled

  ghost predicate Onward(s: Store, s': Store) {
    && s'.reqs.Keys == s.reqs.Keys && s'.grps.Keys == s.grps.Keys
    && (forall r <- s.reqs :: s.reqs[r].stat != Init ==> s'.reqs[r] == s.reqs[r])
    && (forall g <- s.grps :: s'.grps[g].reqs == s.grps[g].reqs)
  }

  lemma {:induction false} DrainOnward(n: Node, s: Store, due: seq<TokenReqGrp>)
    ensures Onward(s, Drain(n, s, due).store)
    decreases |n.queue|
  {
    if n.queue == [] || !Fits(n.base, n.queue[0].cost) {
    } else {
      var r := n.queue[0];
      var (s', err) := Finish(s, r, true);
      DrainOnward(Pop(n).(base := Charge(n.base, r.cost)), s', Collect(r.grp, err, due));
    }
  }

  lemma {:induction false} FailAllOnward(q: seq<TokenReq>, s: Store, due: seq<TokenReqGrp>)
    ensures Onward(s, FailAll(q, s, due).0)
    decreases |q|
  {
    if q == [] {
    } else {
      var (s', err) := Finish(s, q[0], false);
      FailAllOnward(q[1..], s', if err == FailedNode then [q[0].grp] + due else due);
    }
  }

  // ----- Draining one node

  ghost function AfterDrain(w: World, id: NodeId, due: seq<TokenReqGrp>): World
    requires id in w.table
  {
    var e := Drain(w.table[id], w.store, due);
    WithNode(w, id, e.node, e.store)
  }

  lemma HeadWaits(w: World, id: NodeId, todo: set<TokenReq>)
    requires Owned(w, todo) && id in w.table && w.table[id].queue != []
    ensures WaitsAt(w.store, w.table[id], id, w.table[id].queue[0]) && w.table[id].queue[0] !in todo
  {
  }

  lemma {:induction false} DrainKeeps(w: World, id: NodeId, m: Mid)
    requires Inv(w, m) && id in w.table
    ensures Inv(AfterDrain(w, id, m.due), m.(due := Drain(w.table[id], w.store, m.due).due))
    decreases |w.table[id].queue|
  {
    hide StoreInv, Owned, Charged, Pressed, Fenced, Delivered, Accounted;
    var n := w.table[id];
    if n.queue == [] || !Fits(n.base, n.queue[0].cost) {
      assert AfterDrain(w, id, m.due) == w;
    } else {
      var r := n.queue[0];
      HeadWaits(w, id, m.todo);
      PopStep(w, id, m);
      var w1 := PopAt(w, id);
      GrantStep(w1, id, r, Mid(m.todo + {r}, m.freed, m.due, m.fair));
      var w2 := GrantAt(w1, id, r);
      assert m.todo + {r} - {r} == m.todo;
      var m2 := m.(due := NowDue(w1, r, true, m.due));
      DrainKeeps(w2, id, m2);
      assert AfterDrain(w2, id, m2.due).table == AfterDrain(w, id, m.due).table;
    }
  }

  // ----- A node goes away

  lemma {:induction false} FailAllKeeps(w: World, q: seq<TokenReq>, m: Mid)
    requires Inv(w, m) && NoDup(q) && Members(q) <= m.todo
    ensures Inv(w.(store := FailAll(q, w.store, m.due).0),
                Mid(m.todo - Members(q), m.freed, FailAll(q, w.store, m.due).1, m.fair))
    decreases |q|
  {
    hide StoreInv, Owned, Charged, Pressed, Fenced, Delivered, Accounted;
    if q == [] {
      assert m.todo - Members(q) == m.todo;
    } else {
      var r := q[0];
      assert q == [r] + q[1..];
      assert r in Members(q);
      TodoKnown(w, r, m.todo);
      FailStep(w, r, m);
      var m1 := Mid(m.todo - {r}, m.freed, NowDue(w, r, false, m.due), m.fair);
      FailAllKeeps(Settle(w, r, false), q[1..], m1);
      assert m1.todo - Members(q[1..]) == m.todo - Members(q);
    }
  }

  lemma QueueNoDup(w: World, id: NodeId, todo: set<TokenReq>)
    requires Owned(w, todo) && id in w.table
    ensures NoDup(w.table[id].queue)
  {
  }

  lemma CallbacksTell(w: World, due: seq<TokenReqGrp>)
    requires Delivered(w, due)
    ensures Tells(Callbacks(w.store, due), w.store.grps, due)
  {
  }

  lemma TellKeeps(w: World, m: Mid)
    requires Inv(w, m)
    ensures Inv(Tell(w, m.due), m.(due := []))
  {
    hide StoreInv, Owned, Charged, Pressed, Fenced, Delivered, Accounted;
    CallbacksTell(w, m.due);
    TellStep(w, m, Callbacks(w.store, m.due));
  }

  lemma OfflineKeeps(w: World, id: NodeId, fair: bool)
    requires Inv(w, Rest(fair))
    ensures Inv(Offline(w, id), Rest(fair))
    ensures Onward(w.store, Offline(w, id).store) && w.log <= Offline(w, id).log
  {
    hide StoreInv, Owned, Charged, Pressed, Fenced, Delivered, Accounted;
    if id in w.table {
      var q := w.table[id].queue;
      QueueNoDup(w, id, {});
      EmptyStep(w, id, Rest(fair));
      var w1 := EmptyAt(w, id);
      assert {} + Members(q) == Members(q);
      FailAllKeeps(w1, q, Mid(Members(q), {}, [], fair));
      assert Members(q) - Members(q) == {};
      var (s', due) := FailAll(q, w.store, []);
      var w2 := w1.(store := s');
      RemoveStep(w2, id, Mid({}, {}, due, fair));
      TellKeeps(RemoveNode(w2, id), Mid({}, {}, due, fair));
      FailAllOnward(q, w.store, []);
    }
  }

  lemma ResetKeeps(w: World, id: NodeId, fair: bool)
    requires Inv(w, Rest(fair))
    ensures Inv(ResetNode(w, id), Rest(fair))
  {
    hide StoreInv, Owned, Charged, Pressed, Fenced, Delivered, Accounted;
    if id in w.table {
      if fair { ExactNodes(w, {}); }
      BaseStep(w, id, Reset(w.table[id].base), Rest(fair));
    }
  }

  lemma RcvdKeeps(w: World, id: NodeId, total: U64, ver: int, fair: bool)
    requires Inv(w, Rest(fair)) && (fair ==> Fair(total))
    ensures Inv(Rcvd(w, id, total, ver), Rest(fair))
  {
    hide StoreInv, Owned, Charged, Pressed, Fenced, Delivered, Accounted;
    if id !in w.table {
      OnlineStep(w, id, Rest(fair));
    } else {
      var v := Update(w.table[id].base, total, ver);
      if fair { ExactNodes(w, {}); }
      BaseStep(w, id, v.base, Rest(fair));
      var w1 := BaseAt(w, id, v.base);
      if v.increased {
        DrainKeeps(w1, id, Rest(fair));
        var w2 := AfterDrain(w1, id, []);
        var e := Drain(w1.table[id], w.store, []);
        assert w2.table == WithNode(w, id, e.node, e.store).table;
        TellKeeps(w2, Mid({}, {}, e.due, fair));
      } else if v.reset {
        ResetKeeps(w1, id, fair);
        TellKeeps(ResetNode(w1, id), Rest(fair));
      } else {
        TellKeeps(w1, Rest(fair));
      }
    }
  }

  // ----- Putting

  lemma {:induction false} CheckOutKeeps(w: World, ids: seq<NodeId>, fair: bool)
    requires Inv(w, Rest(fair))
    ensures Inv(CheckOut(w, ids), Rest(fair))
    ensures Onward(w.store, CheckOut(w, ids).store) && w.log <= CheckOut(w, ids).log
    decreases |ids|
  {
    hide StoreInv, Owned, Charged, Pressed, Fenced, Delivered, Accounted;
    if ids == [] {
    } else {
      OfflineKeeps(w, ids[0], fair);
      CheckOutKeeps(Offline(w, ids[0]), ids[1..], fair);
    }
  }

  lemma ReleaseKeeps(w: World, r: TokenReq, m: Mid)
    requires Inv(w, m) && r in w.store.reqs && w.store.reqs[r].stat == Got && r !in m.freed
    ensures var x := Release(w, r, m.due);
      Inv(x.world, Mid(m.todo, m.freed + {r}, x.due, m.fair)) && Onward(w.store, x.world.store) && x.world.log == w.log
  {
    hide StoreInv, Owned, Charged, Pressed, Fenced, Delivered, Accounted;
    if r.id in w.table && w.store.reqs[r].nodeid == w.table[r.id].fence {
      DischargeStep(w, r, m);
      var w1 := DischargeAt(w, r.id, r);
      var m1 := Mid(m.todo, m.freed + {r}, m.due, m.fair);
      DrainKeeps(w1, r.id, m1);
      assert AfterDrain(w1, r.id, m.due).table == Release(w, r, m.due).world.table;
      DrainOnward(w1.table[r.id], w.store, m.due);
    } else {
      StaleStep(w, r, m);
      if r.id in w.table {
        assert Release(w, r, m.due).world.table == w.table;
      }
    }
  }

  // The granted ones among `rs`.
  ghost function GotOf(s: Store, rs: seq<TokenReq>): set<TokenReq> {
    set r | r in rs && r in s.reqs && s.reqs[r].stat == Got
  }

  lemma {:induction false} ReleaseAllKeeps(w: World, rs: seq<TokenReq>, m: Mid)
    requires Inv(w, m) && NoDup(rs) && GotOf(w.store, rs) !! m.freed
    requires forall r <- rs :: r in w.store.reqs && w.store.reqs[r].stat != Init
    ensures var x := ReleaseAll(w, rs, m.due);
      && Inv(x.world, Mid(m.todo, m.freed + GotOf(w.store, rs), x.due, m.fair))
      && Onward(w.store, x.world.store) && x.world.log == w.log
    decreases |rs|
  {
    hide StoreInv, Owned, Charged, Pressed, Fenced, Delivered, Accounted;
    if rs == [] {
      assert m.freed + GotOf(w.store, rs) == m.freed;
    } else {
      var r := rs[0];
      assert rs == [r] + rs[1..];
      var x := Release(w, r, m.due);
      var got := if w.store.reqs[r].stat == Got then {r} else {};
      if w.store.reqs[r].stat == Got {
        assert r in GotOf(w.store, rs);
        ReleaseKeeps(w, r, m);
      } else {
        assert x.world == w && m.freed + got == m.freed;
      }
      assert GotOf(x.world.store, rs[1..]) == GotOf(w.store, rs) - {r};
      ReleaseAllKeeps(x.world, rs[1..], Mid(m.todo, m.freed + got, x.due, m.fair));
      assert m.freed + got + GotOf(x.world.store, rs[1..]) == m.freed + GotOf(w.store, rs);
    }
  }

  // A group with an outcome has only settled requests, and between entry points it has been told.
  lemma FinalMeansSettled(w: World, g: TokenReqGrp, fair: bool)
    requires Inv(w, Rest(fair)) && g in w.store.grps && w.store.grps[g].err.Final()
    ensures AllSettled(w.store, g) && Told(w.log, g)
    ensures NoDup(w.store.grps[g].reqs)
    ensures forall r <- w.store.grps[g].reqs :: r in w.store.reqs && w.store.reqs[r].stat != Init && r.grp == g
  {
    assert NoneForgotten(w.log, w.admitted, w.store.grps, []);
    assert Inits(w.store, g) == {};
    forall r <- w.store.reqs | r.grp == g
      ensures w.store.reqs[r].stat != Init
    {
      assert r !in Inits(w.store, g);
    }
  }

  lemma ToldStays(log: seq<Delivery>, log': seq<Delivery>, g: TokenReqGrp)
    requires log <= log' && Told(log, g)
    ensures Told(log', g)
  {
    var i :| 0 <= i < |log| && log[i].grp == g;
    assert log'[i].grp == g;
  }

  // The world of a put just before the group is dropped.
  ghost function Emptied(w: World, g: TokenReqGrp, fails: seq<NodeId>): World {
    var w1 := CheckOut(w, fails);
    var x := ReleaseAll(w1, if g in w1.store.grps then w1.store.grps[g].reqs else [], []);
    Tell(x.world, x.due)
  }

  lemma EmptiedKeeps(w: World, g: TokenReqGrp, fails: seq<NodeId>, fair: bool)
    requires Inv(w, Rest(fair)) && g in w.store.grps && w.store.grps[g].err.Final()
    ensures g in Emptied(w, g, fails).store.grps
    ensures var w2 := Emptied(w, g, fails);
      Inv(w2, Mid({}, GotOf(w2.store, w2.store.grps[g].reqs), [], fair)) && Told(w2.log, g) && AllSettled(w2.store, g)
  {
    hide StoreInv, Owned, Charged, Pressed, Fenced, Delivered, Accounted;
    FinalMeansSettled(w, g, fair);
    CheckOutKeeps(w, fails, fair);
    var w1 := CheckOut(w, fails);
    var rs := w1.store.grps[g].reqs;
    ReleaseAllKeeps(w1, rs, Rest(fair));
    var x := ReleaseAll(w1, rs, []);
    var freed := GotOf(w1.store, rs);
    assert {} + freed == freed;
    TellKeeps(x.world, Mid({}, freed, x.due, fair));
    var w2 := Tell(x.world, x.due);
    ToldStays(w.log, w2.log, g);
    assert GotOf(w2.store, rs) == freed;
  }

  lemma PutKeeps(w: World, g: TokenReqGrp, fails: seq<NodeId>, fair: bool)
    requires Inv(w, Rest(fair)) && g in w.store.grps && w.store.grps[g].err.Final()
    ensures Inv(Put(w, g, fails), Rest(fair))
  {
    hide StoreInv, Owned, Charged, Pressed, Fenced, Delivered, Accounted, CheckOut, ReleaseAll;
    EmptiedKeeps(w, g, fails, fair);
    var w2 := Emptied(w, g, fails);
    var rs := w2.store.grps[g].reqs;
    var freed := GotOf(w2.store, rs);
    ListedIfMember(w2, g);
    RetireStep(w2, g, Mid({}, freed, [], fair));
    assert freed - Members(rs) == {};
  }

  // A settled group stands in no queue.
  lemma NobodyWaits(w: World, g: TokenReqGrp)
    requires Owned(w, {}) && AllSettled(w.store, g)
    ensures forall id <- w.table :: forall i | 0 <= i < |w.table[id].queue| :: w.table[id].queue[i].grp != g
  {
    forall id <- w.table, i | 0 <= i < |w.table[id].queue|
      ensures w.table[id].queue[i].grp != g
    {
      assert WaitsAt(w.store, w.table[id], id, w.table[id].queue[i]);
    }
  }

  lemma ListedIfMember(w: World, g: TokenReqGrp)
    requires StoreInv(w.store) && g in w.store.grps
    ensures forall r <- w.store.reqs :: r.grp == g ==> r in w.store.grps[g].reqs
  {
  }

  // ----- Getting

  lemma {:induction false} CheckInKeeps(w: World, hs: seq<TokenReq>, m: Mid)
    requires Inv(w, m)
    ensures var w' := CheckIn(w, hs);
      Inv(w', m) && w'.store == w.store && w'.log == w.log && w'.admitted == w.admitted
    decreases |hs|
  {
    hide StoreInv, Owned, Charged, Pressed, Fenced, Delivered, Accounted;
    if hs == [] {
    } else {
      OnlineStep(w, hs[0].id, m);
      CheckInKeeps(if hs[0].id in w.table then w else Online(w, hs[0].id), hs[1..], m);
    }
  }

  // Only the request asked for changes.
  ghost predicate OnlyAsked(s: Store, s': Store, r: TokenReq) {
    && s'.reqs.Keys == s.reqs.Keys && s'.grps.Keys == s.grps.Keys
    && (forall x <- s.reqs :: x != r ==> s'.reqs[x] == s.reqs[x])
    && (forall g <- s.grps :: s'.grps[g].reqs == s.grps[g].reqs && (g != r.grp ==> s'.grps[g] == s.grps[g]))
  }

  lemma StillInit(s: Store, r: TokenReq)
    requires Knows(s, r) && s.reqs[r].stat == Init
    ensures Outcome(s, r.grp) == Pending
  {
    assert r in Inits(s, r.grp);
  }

  lemma AskKeeps(w: World, r: TokenReq, m: Mid)
    requires Inv(w, m) && r in m.todo
    ensures var (w', err) := Ask(w, r);
      && Inv(w', Mid(m.todo - {r}, m.freed, Collect(r.grp, err, m.due), m.fair))
      && err == Outcome(w'.store, r.grp)
      && OnlyAsked(w.store, w'.store, r)
      && w'.log == w.log && w'.table.Keys == w.table.Keys
  {
    hide StoreInv, Owned, Charged, Pressed, Fenced, Delivered, Accounted, Outcome;
    TodoKnown(w, r, m.todo);
    if r.id !in w.table {
      FailStep(w, r, m);
      FinishSettles(w.store, r, false);
    } else {
      var n := w.table[r.id];
      StampStep(w, r, n.fence, m);
      var w1 := Stamp(w, r, n.fence);
      TodoKnown(w1, r, m.todo);
      if Fits(n.base, r.cost) {
        GrantStep(w1, r.id, r, m);
        FinishSettles(w1.store, r, true);
      } else {
        PushStep(w1, r.id, r, m);
        StillInit(w1.store, r);
      }
    }
  }

  lemma {:induction false} AskAllKeeps(w: World, rs: seq<TokenReq>, g: TokenReqGrp, fair: bool)
    requires Inv(w, Mid(Members(rs), {}, [], fair)) && rs != [] && NoDup(rs) && forall r <- rs :: r.grp == g
    ensures var (w', err) := AskAll(w, rs);
      && Inv(w', Mid({}, {}, if err.Final() then [g] else [], fair))
      && err == Outcome(w'.store, g)
      && w'.log == w.log
      && g in w'.store.grps && w'.store.grps.Keys == w.store.grps.Keys
    decreases |rs|
  {
    hide StoreInv, Owned, Charged, Pressed, Fenced, Delivered, Accounted, Outcome;
    var r, todo := rs[0], Members(rs);
    assert rs == [r] + rs[1..];
    assert r in todo;
    TodoKnown(w, r, todo);
    AskKeeps(w, r, Mid(todo, {}, [], fair));
    var (w1, err) := Ask(w, r);
    assert todo - {r} == Members(rs[1..]);
    if |rs| == 1 {
      assert Members(rs[1..]) == {};
      assert [g] + [] == [g];
    } else {
      var next := rs[1];
      assert next in rs[1..];
      var due := Collect(g, err, []);
      TodoKnown(w1, next, Members(rs[1..]));
      StillInit(w1.store, next);
      AskAllKeeps(w1, rs[1..], g, fair);
    }
  }

  lemma OutcomeRecorded(w: World, m: Mid, g: TokenReqGrp)
    requires Inv(w, m) && g in w.store.grps
    ensures w.store.grps[g].err == Outcome(w.store, g)
  {
  }

  // The world of a get once every request has been asked for.
  ghost function Asked(w: World, g: TokenReqGrp, hs: seq<TokenReq>): (World, Err) {
    AskAll(CheckIn(Admit(w, g, hs), hs), Reversed(hs))
  }

  ghost predicate OutOfMemory(w: World, hs: seq<TokenReq>) {
    w.out.grps == w.limits.grps || w.limits.reqs < w.out.reqs + |hs|
  }

  lemma AskedKeeps(w: World, g: TokenReqGrp, hs: seq<TokenReq>, fair: bool)
    requires Inv(w, Rest(fair)) && NewGroup(w, g, hs) && !OutOfMemory(w, hs)
    ensures var (w', err) := Asked(w, g, hs);
      && Inv(w', Mid({}, {}, if err.Final() then [g] else [], fair))
      && g in w'.store.grps && w'.store.grps.Keys == w.store.grps.Keys + {g}
      && err == Outcome(w'.store, g) == w'.store.grps[g].err
      && w'.log == w.log
  {
    hide StoreInv, Owned, Charged, Pressed, Fenced, Delivered, Accounted, Outcome;
    LimitsHold(w, fair);
    AdmitStep(w, g, hs, fair);
    var w1 := Admit(w, g, hs);
    ReversedMembers(hs);
    CheckInKeeps(w1, hs, Mid(Members(hs), {}, [], fair));
    var w2 := CheckIn(w1, hs);
    forall r <- Reversed(hs)
      ensures r.grp == g
    {
      assert r in Members(Reversed(hs));
    }
    AskAllKeeps(w2, Reversed(hs), g, fair);
    var (w3, err) := AskAll(w2, Reversed(hs));
    OutcomeRecorded(w3, Mid({}, {}, if err.Final() then [g] else [], fair), g);
  }

  ghost function Answered(w: World, g: TokenReqGrp, err: Err): World {
    if err.Final() then w.(log := w.log + [Returned(g, err)]) else w
  }

  lemma AnsweredKeeps(w: World, g: TokenReqGrp, err: Err, fair: bool)
    requires Inv(w, Mid({}, {}, if err.Final() then [g] else [], fair))
    requires g in w.store.grps && err == w.store.grps[g].err
    ensures Inv(Answered(w, g, err), Rest(fair))
  {
    hide StoreInv, Owned, Charged, Pressed, Fenced, Delivered, Accounted;
    if err.Final() {
      TellStep(w, Mid({}, {}, [g], fair), [Returned(g, err)]);
    }
  }

  lemma GetKeeps(w: World, g: TokenReqGrp, hs: seq<TokenReq>, fair: bool)
    requires Inv(w, Rest(fair)) && NewGroup(w, g, hs)
    ensures Inv(Get(w, g, hs).0, Rest(fair))
  {
    hide Inv, NewGroup, Outcome;
    if !OutOfMemory(w, hs) {
      AskedKeeps(w, g, hs, fair);
      var (w', err) := Asked(w, g, hs);
      AnsweredKeeps(w', g, err, fair);
      if err == FailedNode {
        PutKeeps(Answered(w', g, err), g, [], fair);
      }
    }
  }

  lemma IsExact(w: World, m: Mid)
    requires Inv(w, m) && m.fair
    ensures forall id <- w.table :: Exact(w.table[id].base)
  {
  }

  lemma LimitsHold(w: World, fair: bool)
    requires Inv(w, Rest(fair))
    ensures w.out.grps <= w.limits.grps
  {
  }

  // ----- All operations, all runs

  lemma StepKeeps(w: World, op: Op, fair: bool)
    requires Inv(w, Rest(fair)) && Legal(w, op) && (fair ==> FairOp(op))
    ensures Inv(Step(w, op), Rest(fair))
  {
    hide Inv;
    match op
    case OpGet(g, hs) => GetKeeps(w, g, hs, fair);
    case OpPut(g, fails) => PutKeeps(w, g, fails, fair);
    case OpOnline(id) => OnlineStep(w, id, Rest(fair));
    case OpOffline(id) => OfflineKeeps(w, id, fair);
    case OpReset(id) => ResetKeeps(w, id, fair);
    case OpRcvd(id, total, ver) => RcvdKeeps(w, id, total, ver, fair);
  }

  lemma StartHolds(limits: Limits, fair: bool)
    ensures Inv(Start(limits), Rest(fair))
  {
  }

  lemma {:induction false} RunKeeps(w: World, ops: seq<Op>, fair: bool)
    requires Inv(w, Rest(fair)) && LegalRun(w, ops) && (fair ==> FairRun(ops))
    ensures Inv(Run(w, ops), Rest(fair))
    decreases |ops|
  {
    hide Inv, Legal, FairOp;
    if ops == [] {
    } else {
      StepKeeps(w, ops[0], fair);
      RunKeeps(Step(w, ops[0]), ops[1..], fair);
    }
  }
}
