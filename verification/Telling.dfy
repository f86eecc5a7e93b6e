/** The log of outcomes only grows, and every entry was the outcome of its group when it was made. */
module Telling {
  import opened Words
  import opened Objects
  import opened Groups
  import opened NodeSpec
  import opened WorldSpec
  import opened Invariant
  import opened Steps

  // ----- What an operation does to the log and to the set of groups

  // The log may have grown; the same groups are outstanding.
  ghost predicate Grown(w: World, w': World) {
    w.log <= w'.log && w'.admitted == w.admitted && w'.store.grps.Keys == w.store.grps.Keys
  }

  lemma OfflineGrown(w: World, id: NodeId)
    ensures Grown(w, Offline(w, id))
  {
    if id in w.table {
      FailAllOnward(w.table[id].queue, w.store, []);
    }
  }

  lemma {:induction false} CheckOutGrown(w: World, ids: seq<NodeId>)
    ensures Grown(w, CheckOut(w, ids))
    decreases |ids|
  {
    if ids == [] {
    } else {
      OfflineGrown(w, ids[0]);
      CheckOutGrown(Offline(w, ids[0]), ids[1..]);
    }
  }

  lemma {:induction false} ReleaseAllGrown(w: World, rs: seq<TokenReq>, due: seq<TokenReqGrp>)
    ensures var w' := ReleaseAll(w, rs, due).world; Grown(w, w') && w'.log == w.log
    decreases |rs|
  {
    if rs == [] {
    } else {
      var r := rs[0];
      var x := Release(w, r, due);
      if r.id in w.table {
        DrainOnward(w.table[r.id].(base := Quota.Discharge(w.table[r.id].base, r.cost)), w.store, due);
      }
      ReleaseAllGrown(x.world, rs[1..], x.due);
    }
  }

  lemma {:induction false} CheckInGrown(w: World, hs: seq<TokenReq>)
    ensures var w' := CheckIn(w, hs); w'.log == w.log && w'.admitted == w.admitted && w'.store == w.store
    decreases |hs|
  {
    if hs == [] {
    } else {
      CheckInGrown(if hs[0].id in w.table then w else Online(w, hs[0].id), hs[1..]);
    }
  }

  lemma {:induction false} AskAllGrown(w: World, rs: seq<TokenReq>)
    ensures var w' := AskAll(w, rs).0; Grown(w, w') && w'.log == w.log
    decreases |rs|
  {
    if |rs| <= 1 {
    } else {
      AskAllGrown(Ask(w, rs[0]).0, rs[1..]);
    }
  }

  lemma PutGrown(w: World, g: TokenReqGrp, fails: seq<NodeId>)
    ensures var w' := Put(w, g, fails);
      w.log <= w'.log && w'.admitted == w.admitted && w'.store.grps.Keys == w.store.grps.Keys - {g}
  {
    hide CheckOut, ReleaseAll;
    CheckOutGrown(w, fails);
    var w1 := CheckOut(w, fails);
    ReleaseAllGrown(w1, if g in w1.store.grps then w1.store.grps[g].reqs else [], []);
  }

  lemma AskedGrown(w: World, g: TokenReqGrp, hs: seq<TokenReq>)
    ensures var w' := Asked(w, g, hs).0;
      w'.log == w.log && w'.admitted == w.admitted + {g} && w'.store.grps.Keys == w.store.grps.Keys + {g}
  {
    hide AskAll, CheckIn;
    CheckInGrown(Admit(w, g, hs), hs);
    AskAllGrown(CheckIn(Admit(w, g, hs), hs), Reversed(hs));
  }

  // A final result is in the log first, before anything the put of a failed group brings.
  lemma GetGrown(w: World, g: TokenReqGrp, hs: seq<TokenReq>)
    ensures var (w', err) := Get(w, g, hs);
      && w.log + (if err.Final() then [Returned(g, err)] else []) <= w'.log
      && (err != FailedNode ==> w'.log == w.log + if err == Ok then [Returned(g, err)] else [])
      && w'.admitted <= w.admitted + {g}
      && w.store.grps.Keys <= w'.store.grps.Keys + {g}
      && (err != Memory ==> err == Asked(w, g, hs).1)
  {
    hide AskAll, CheckIn, Put;
    AskedGrown(w, g, hs);
    var (w1, err) := Asked(w, g, hs);
    PutGrown(Answered(w1, g, err), g, []);
  }

  // Nothing is ever taken from the log, and only a put or a get can end a group, its own.
  lemma StepGrown(w: World, op: Op)
    ensures var w' := Step(w, op);
      && w.log <= w'.log
      && (forall x <- w'.admitted :: x in w.admitted || (op.OpGet? && op.grp == x))
      && (forall x <- w.store.grps :: x in w'.store.grps || ((op.OpGet? || op.OpPut?) && op.grp == x))
  {
    hide Get, Put, Offline, Drain;
    match op
    case OpGet(g, hs) => GetGrown(w, g, hs);
    case OpPut(g, fails) => PutGrown(w, g, fails);
    case OpOffline(id) => OfflineGrown(w, id);
    case OpRcvd(id, total, ver) =>
      if id in w.table {
        DrainOnward(w.table[id].(base := Quota.Update(w.table[id].base, total, ver).base), w.store, []);
      }
    case _ =>
  }

  // ----- What an entry says

  // Where the outcome is read off: for the group of a get once all its requests have been asked for, for any other
  // group when the operation is over.
  ghost function TellingStore(w: World, op: Op, g: TokenReqGrp): Store {
    if op.OpGet? && op.grp == g then Asked(w, g, op.hs).0.store else Step(w, op).store
  }

  ghost predicate Truly(w: World, op: Op, d: Delivery) {
    var s := TellingStore(w, op, d.grp);
    d.err.Final() && d.grp in s.grps && d.err == Outcome(s, d.grp)
  }

  // A group told of by this operation was not told of before; unless it is the get's own, it is still outstanding.
  lemma ToldOfNow(w: World, op: Op, i: nat)
    requires Inv(w, Rest(false)) && Legal(w, op) && Inv(Step(w, op), Rest(false))
    requires |w.log| <= i < |Step(w, op).log|
    ensures var g := Step(w, op).log[i].grp;
      g in Step(w, op).store.grps || (op.OpGet? && op.grp == g)
  {
    hide Step, StoreInv, Owned, Charged, Pressed, Fenced, Accounted;
    StepGrown(w, op);
    var w' := Step(w, op);
    var g := w'.log[i].grp;
    assert ToldOnce(w'.log, w'.admitted);
    assert forall j | 0 <= j < |w.log| :: w.log[j] == w'.log[j];
    assert !Told(w.log, g);
    if op.OpPut? && op.grp == g {
      FinalMeansSettled(w, g, false);
    }
    assert NoneForgotten(w.log, w.admitted, w.store.grps, []);
  }

  lemma RecordTrue(w: World, i: nat)
    requires Inv(w, Rest(false)) && i < |w.log| && w.log[i].grp in w.store.grps
    ensures w.log[i].err == Outcome(w.store, w.log[i].grp)
  {
    hide StoreInv, Owned, Charged, Pressed, Fenced, Accounted;
    OutcomeRecorded(w, Rest(false), w.log[i].grp);
    assert ToldTruly(w.log, w.store.grps);
  }

  lemma OneEntry(w: World, i: nat, j: nat)
    requires Inv(w, Rest(false)) && i < |w.log| && j < |w.log| && w.log[i].grp == w.log[j].grp
    ensures i == j && w.log[i].err.Final()
  {
    hide StoreInv, Owned, Charged, Pressed, Fenced, Accounted;
    assert ToldOnce(w.log, w.admitted);
  }

  // An operation only adds to the log, and what it adds are outcomes.
  lemma StepTellsTruly(w: World, op: Op)
    requires Inv(w, Rest(false)) && Legal(w, op)
    ensures w.log <= Step(w, op).log
    ensures forall i :: |w.log| <= i < |Step(w, op).log| ==> Truly(w, op, Step(w, op).log[i])
  {
    hide Inv, Outcome, Get, Put, Online, Offline, ResetNode, Rcvd, Asked;
    StepKeeps(w, op, false);
    StepGrown(w, op);
    var w' := Step(w, op);
    forall i | |w.log| <= i < |w'.log|
      ensures Truly(w, op, w'.log[i])
    {
      OneEntry(w', i, i);
      ToldOfNow(w, op, i);
      if op.OpGet? && op.grp == w'.log[i].grp {
        OwnTold(w, op.grp, op.hs, i);
      } else {
        RecordTrue(w', i);
      }
    }
  }

  // The entry a get makes for its own group.
  lemma OwnTold(w: World, g: TokenReqGrp, hs: seq<TokenReq>, i: nat)
    requires Inv(w, Rest(false)) && NewGroup(w, g, hs) && Inv(Get(w, g, hs).0, Rest(false))
    requires |w.log| <= i < |Get(w, g, hs).0.log| && Get(w, g, hs).0.log[i].grp == g
    ensures Truly(w, OpGet(g, hs), Get(w, g, hs).0.log[i])
  {
    hide Inv, Outcome, NewGroup, Get, Asked;
    GetGrown(w, g, hs);
    GetInMemory(w, g, hs);
    var (w', err) := Get(w, g, hs);
    AskedKeeps(w, g, hs, false);
    assert w'.log[|w.log|] == Returned(g, err);
    OneEntry(w', i, |w.log|);
  }

  lemma GetInMemory(w: World, g: TokenReqGrp, hs: seq<TokenReq>)
    ensures OutOfMemory(w, hs) ==> Get(w, g, hs) == (w, Memory)
    ensures Get(w, g, hs).1 == Pending ==> Get(w, g, hs).0.log == w.log
  {
    GetGrown(w, g, hs);
  }

  // ----- Over a run

  // Entry i was made by the operation j, and was true.
  ghost predicate MadeBy(w: World, ops: seq<Op>, i: nat, j: nat) {
    && j < |ops| && i < |Run(w, ops).log|
    && |Run(w, ops[..j]).log| <= i < |Run(w, ops[..j + 1]).log|
    && Truly(Run(w, ops[..j]), ops[j], Run(w, ops).log[i])
  }

  lemma {:induction false} RunGrown(w: World, ops: seq<Op>)
    ensures w.log <= Run(w, ops).log
    decreases |ops|
  {
    if ops == [] {
    } else {
      StepGrown(w, ops[0]);
      RunGrown(Step(w, ops[0]), ops[1..]);
    }
  }

  lemma {:induction false} RunTellsTruly(w: World, ops: seq<Op>, i: nat) returns (j: nat)
    requires Inv(w, Rest(false)) && LegalRun(w, ops) && |w.log| <= i < |Run(w, ops).log|
    ensures MadeBy(w, ops, i, j)
    decreases |ops|
  {
    hide Inv, Step, Legal, Truly;
    var w1 := Step(w, ops[0]);
    StepKeeps(w, ops[0], false);
    StepTellsTruly(w, ops[0]);
    RunGrown(w1, ops[1..]);
    if i < |w1.log| {
      j := 0;
      assert ops[..1] == [ops[0]] && Run(w, [ops[0]]) == Run(w1, []);
    } else {
      var k := RunTellsTruly(w1, ops[1..], i);
      j := k + 1;
      assert ops[..j][1..] == ops[1..][..k] && ops[..j + 1][1..] == ops[1..][..k + 1];
    }
  }
}
