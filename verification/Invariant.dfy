/**
  The invariant of the manager, stated so that it also holds in the middle of an entry point.

  `todo` are the unsettled requests that are in no queue, `freed` the granted requests whose tokens have
  already gone back, `due` the groups that have an outcome nobody has been told. Between entry points all
  three are empty.
 */
module Invariant {
  import opened Words
  import opened Objects
  import opened Quota
  import opened Groups
  import opened Sums
  import opened NodeSpec
  import opened WorldSpec

  datatype Mid = Mid(todo: set<TokenReq>, freed: set<TokenReq>, due: seq<TokenReqGrp>, fair: bool)

  function Rest(fair: bool): Mid {
    Mid({}, {}, [], fair)
  }

  // A queue entry is an unsettled request for this node, stamped with this node's fence.
  ghost predicate WaitsAt(s: Store, n: Node, id: NodeId, r: TokenReq) {
    Knows(s, r) && s.reqs[r].stat == Init && s.reqs[r].nodeid == n.fence && r.id == id
  }

  // Ownership: an unsettled request is in `todo` or, exactly once, in the queue of its node.
  ghost predicate Owned(w: World, todo: set<TokenReq>) {
    && (forall id <- w.table :: NoDup(w.table[id].queue))
    && (forall id <- w.table :: forall r <- w.table[id].queue :: WaitsAt(w.store, w.table[id], id, r) && r !in todo)
    && (forall r <- todo :: Knows(w.store, r) && w.store.reqs[r].stat == Init)
    && (forall r <- w.store.reqs ::
          w.store.reqs[r].stat == Init && r !in todo ==> r.id in w.table && r in w.table[r.id].queue)
  }

  // The granted requests that hold tokens of the incarnation `fence`.
  ghost function Holders(s: Store, fence: int, freed: set<TokenReq>): set<TokenReq> {
    set r | r in s.reqs && s.reqs[r].stat == Got && s.reqs[r].nodeid == fence && r !in freed
  }

  // A node's tokens in use are those its requests hold; on a fair run every number involved is exact.
  ghost predicate Charged(w: World, freed: set<TokenReq>, fair: bool) {
    && (forall id <- w.table :: w.table[id].base.inuse == Held(Holders(w.store, w.table[id].fence, freed)) % TWO64)
    && (forall r <- freed :: r in w.store.reqs && w.store.reqs[r].stat == Got)
    && (fair ==> forall id <- w.table ::
          Exact(w.table[id].base) && Held(Holders(w.store, w.table[id].fence, freed)) <= TWO63)
  }

  ghost predicate Pressed(w: World) {
    forall id <- w.table :: w.table[id].press == Waiting(w.table[id].queue) % TWO64
  }

  // Fences are handed out once: no two nodes share one, and no grant carries a fence of the future.
  ghost predicate Fenced(w: World) {
    && (forall id <- w.table :: w.table[id].fence < w.version)
    && (forall id <- w.table, id' <- w.table :: w.table[id].fence == w.table[id'].fence ==> id == id')
    && (forall r <- w.store.reqs :: w.store.reqs[r].stat == Got ==> w.store.reqs[r].nodeid < w.version)
    && (forall r <- w.store.reqs, id <- w.table ::
          w.store.reqs[r].stat == Got && w.store.reqs[r].nodeid == w.table[id].fence ==> r.id == id)
  }

  // ----- Exactly-once delivery

  ghost predicate Told(log: seq<Delivery>, g: TokenReqGrp) {
    exists i :: 0 <= i < |log| && log[i].grp == g
  }

  // No group is told twice, and only outcomes are told.
  ghost predicate ToldOnce(log: seq<Delivery>, admitted: set<TokenReqGrp>) {
    && (forall i, j :: 0 <= i < j < |log| ==> log[i].grp != log[j].grp)
    && (forall i :: 0 <= i < |log| ==> log[i].grp in admitted && log[i].err.Final())
  }

  // What was told is what the group records.
  ghost predicate ToldTruly(log: seq<Delivery>, grps: map<TokenReqGrp, Grp>) {
    forall i :: 0 <= i < |log| && log[i].grp in grps ==> log[i].err == grps[log[i].grp].err
  }

  // The groups still to be told: they have an outcome, and nobody knows it.
  ghost predicate DueOnly(log: seq<Delivery>, grps: map<TokenReqGrp, Grp>, due: seq<TokenReqGrp>) {
    && NoDup(due)
    && (forall i :: 0 <= i < |due| ==> due[i] in grps && !Told(log, due[i]) && grps[due[i]].err.Final())
  }

  // Every outcome is told or due, and a group that is gone was told.
  ghost predicate NoneForgotten(log: seq<Delivery>, admitted: set<TokenReqGrp>, grps: map<TokenReqGrp, Grp>,
                                due: seq<TokenReqGrp>) {
    && (forall g <- grps :: g in admitted && (grps[g].err.Final() ==> g in due || Told(log, g)))
    && (forall g <- admitted :: g in grps || Told(log, g))
  }

  ghost predicate Delivered(w: World, due: seq<TokenReqGrp>) {
    && ToldOnce(w.log, w.admitted)
    && ToldTruly(w.log, w.store.grps)
    && DueOnly(w.log, w.store.grps, due)
    && NoneForgotten(w.log, w.admitted, w.store.grps, due)
  }

  ghost predicate Accounted(w: World) {
    && 0 <= w.out.items == w.out.tabItems == |w.table| <= w.limits.nodes
    && 0 <= w.out.grps == |w.store.grps| <= w.limits.grps
    && 0 <= w.out.reqs == |w.store.reqs| <= w.limits.reqs
  }

  ghost predicate Inv(w: World, m: Mid) {
    && StoreInv(w.store)
    && Owned(w, m.todo)
    && Charged(w, m.freed, m.fair)
    && Pressed(w)
    && Fenced(w)
    && Delivered(w, m.due)
    && Accounted(w)
  }

  // ----- Settling one request that is in no queue

  ghost function Settle(w: World, r: TokenReq, ok: bool): World
    requires Knows(w.store, r)
  {
    w.(store := Finish(w.store, r, ok).0)
  }

  ghost function NowDue(w: World, r: TokenReq, ok: bool, due: seq<TokenReqGrp>): seq<TokenReqGrp>
    requires Knows(w.store, r)
  {
    Collect(r.grp, Finish(w.store, r, ok).1, due)
  }

  lemma SettleOwned(w: World, r: TokenReq, ok: bool, todo: set<TokenReq>)
    requires Owned(w, todo) && r in todo
    ensures Owned(Settle(w, r, ok), todo - {r})
  {
  }

  // One group's record changes before it is told.
  lemma OutcomeDue(w: World, w': World, g: TokenReqGrp, due: seq<TokenReqGrp>)
    requires Delivered(w, due) && w'.log == w.log && w'.admitted == w.admitted
    requires g in w.store.grps && !w.store.grps[g].err.Final()
    requires g in w'.store.grps && w'.store.grps == w.store.grps[g := w'.store.grps[g]]
    ensures Delivered(w', if w'.store.grps[g].err.Final() then [g] + due else due)
  {
    var due' := if w'.store.grps[g].err.Final() then [g] + due else due;
    assert g !in due;
    assert forall i :: 0 <= i < |w.log| && w.log[i].grp in w.store.grps ==> w.log[i].err.Final();
    assert !Told(w.log, g);
    assert DueOnly(w'.log, w'.store.grps, due');
    assert NoneForgotten(w'.log, w'.admitted, w'.store.grps, due') by {
      assert forall x <- due :: x in due';
    }
  }

  lemma SettleDelivered(w: World, r: TokenReq, ok: bool, due: seq<TokenReqGrp>)
    requires StoreInv(w.store) && Knows(w.store, r) && w.store.reqs[r].stat == Init && Delivered(w, due)
    ensures Delivered(Settle(w, r, ok), NowDue(w, r, ok, due))
  {
    hide Linked, Delivered, ToldOnce, ToldTruly, DueOnly, NoneForgotten;
    FinishSettles(w.store, r, ok);
    assert r in Inits(w.store, r.grp);
    OutcomeDue(w, Settle(w, r, ok), r.grp, due);
  }

  lemma FailKeepsCharges(w: World, r: TokenReq, freed: set<TokenReq>, fair: bool)
    requires Knows(w.store, r) && w.store.reqs[r].stat == Init && Charged(w, freed, fair) && Fenced(w)
    ensures Charged(Settle(w, r, false), freed, fair) && Fenced(Settle(w, r, false))
  {
    var w' := Settle(w, r, false);
    forall id <- w'.table
      ensures Holders(w'.store, w'.table[id].fence, freed) == Holders(w.store, w.table[id].fence, freed)
    {
    }
  }

  lemma FailStep(w: World, r: TokenReq, m: Mid)
    requires Inv(w, m) && r in m.todo
    ensures Inv(Settle(w, r, false), Mid(m.todo - {r}, m.freed, NowDue(w, r, false, m.due), m.fair))
  {
    hide StoreInv, Owned, Charged, Pressed, Fenced, Delivered, Accounted;
    TodoKnown(w, r, m.todo);
    var w' := Settle(w, r, false);
    FinishSettles(w.store, r, false);
    SettleOwned(w, r, false, m.todo);
    SettleDelivered(w, r, false, m.due);
    AccountedFrame(w, w');
    FailKeepsCharges(w, r, m.freed, m.fair);
    PressedFrame(w, w');
  }

  // ----- Granting

  ghost function GrantAt(w: World, id: NodeId, r: TokenReq): World
    requires id in w.table && Knows(w.store, r)
  {
    var n := w.table[id];
    WithNode(w, id, n.(base := Charge(n.base, r.cost)), Finish(w.store, r, true).0)
  }

  // The new holder's tokens join the sum of its own node.
  lemma GrantHolders(w: World, id: NodeId, r: TokenReq, freed: set<TokenReq>, fence: int)
    requires id in w.table && Knows(w.store, r) && w.store.reqs[r].stat == Init && r !in freed
    ensures Holders(GrantAt(w, id, r).store, fence, freed)
         == if w.store.reqs[r].nodeid == fence then Holders(w.store, fence, freed) + {r} else Holders(w.store, fence, freed)
    ensures r !in Holders(w.store, fence, freed)
  {
  }

  // The arithmetic of one grant.
  lemma GrantSum(h: set<TokenReq>, b: Base, r: TokenReq, fair: bool)
    requires r !in h && b.inuse == Held(h) % TWO64
    requires fair ==> Exact(b) && Held(h) <= TWO63 && Fits(b, r.cost)
    ensures Charge(b, r.cost).inuse == Held(h + {r}) % TWO64
    ensures fair ==> Exact(Charge(b, r.cost)) && Held(h + {r}) <= TWO63
  {
    HeldSplit(h + {r}, r);
    assert h + {r} - {r} == h;
    AddWraps(Held(h), r.cost);
    if fair {
      ExactKept(b, r.cost, MIN_RS_NUM, 0);
    }
  }

  lemma GrantCharged(w: World, id: NodeId, r: TokenReq, freed: set<TokenReq>, fair: bool)
    requires id in w.table && Knows(w.store, r) && Charged(w, freed, fair)
    requires fair ==> Fits(w.table[id].base, r.cost)
    requires forall x <- w.table :: w.table[x].fence == w.table[id].fence ==> x == id
    requires w.store.reqs[r].stat == Init && w.store.reqs[r].nodeid == w.table[id].fence
    ensures Charged(GrantAt(w, id, r), freed, fair)
  {
    hide Charge, Fits, Held, Exact;
    var w' := GrantAt(w, id, r);
    forall x <- w'.table
      ensures w'.table[x].base.inuse == Held(Holders(w'.store, w'.table[x].fence, freed)) % TWO64
      ensures fair ==> Exact(w'.table[x].base) && Held(Holders(w'.store, w'.table[x].fence, freed)) <= TWO63
    {
      GrantHolders(w, id, r, freed, w.table[x].fence);
      if x == id {
        GrantSum(Holders(w.store, w.table[x].fence, freed), w.table[id].base, r, fair);
      }
    }
  }

  lemma GrantFenced(w: World, id: NodeId, r: TokenReq)
    requires id in w.table && Knows(w.store, r) && Fenced(w)
    requires w.store.reqs[r].nodeid == w.table[id].fence && r.id == id
    ensures Fenced(GrantAt(w, id, r))
  {
  }

  lemma GrantCharges(w: World, id: NodeId, r: TokenReq, freed: set<TokenReq>, fair: bool)
    requires id in w.table && Knows(w.store, r) && Charged(w, freed, fair) && Fenced(w)
    requires fair ==> Fits(w.table[id].base, r.cost)
    requires w.store.reqs[r].stat == Init && w.store.reqs[r].nodeid == w.table[id].fence && r.id == id
    ensures Charged(GrantAt(w, id, r), freed, fair) && Fenced(GrantAt(w, id, r))
  {
    GrantCharged(w, id, r, freed, fair);
    GrantFenced(w, id, r);
  }

  // The same nodes with the same waiters, whatever their quotas and charges.
  ghost predicate SameWaiters(w: World, w': World) {
    && w'.table.Keys == w.table.Keys
    && (forall id <- w.table ::
          w'.table[id].queue == w.table[id].queue && w'.table[id].fence == w.table[id].fence && w'.table[id].press == w.table[id].press)
  }

  lemma OwnedFrame(w: World, w': World, todo: set<TokenReq>)
    requires Owned(w, todo) && SameWaiters(w, w') && w'.store == w.store
    ensures Owned(w', todo)
  {
  }

  lemma ChargedFrame(w: World, w': World, freed: set<TokenReq>, fair: bool)
    requires Charged(w, freed, fair) && w'.store == w.store && w'.table.Keys == w.table.Keys
    requires forall id <- w.table ::
      w'.table[id].base.inuse == w.table[id].base.inuse && w'.table[id].fence == w.table[id].fence
    requires fair ==> forall id <- w.table :: Exact(w'.table[id].base)
    ensures Charged(w', freed, fair)
  {
  }

  lemma FencedFrame(w: World, w': World)
    requires Fenced(w) && w'.store == w.store && w'.version == w.version && w'.table.Keys == w.table.Keys
    requires forall id <- w.table :: w'.table[id].fence == w.table[id].fence
    ensures Fenced(w')
  {
  }

  lemma PressedFrame(w: World, w': World)
    requires Pressed(w) && SameWaiters(w, w')
    ensures Pressed(w')
  {
  }

  lemma DeliveredFrame(w: World, w': World, due: seq<TokenReqGrp>)
    requires Delivered(w, due) && w'.store.grps == w.store.grps && w'.log == w.log && w'.admitted == w.admitted
    ensures Delivered(w', due)
  {
  }

  lemma ExactNodes(w: World, freed: set<TokenReq>)
    requires Charged(w, freed, true)
    ensures forall id <- w.table :: Exact(w.table[id].base)
  {
  }

  lemma AccountedFrame(w: World, w': World)
    requires Accounted(w) && w'.limits == w.limits && w'.out == w.out
    requires w'.table.Keys == w.table.Keys && w'.store.reqs.Keys == w.store.reqs.Keys && w'.store.grps.Keys == w.store.grps.Keys
    ensures Accounted(w')
  {
    assert |w'.table| == |w'.table.Keys| && |w.table| == |w.table.Keys|;
    assert |w'.store.reqs| == |w'.store.reqs.Keys| && |w.store.reqs| == |w.store.reqs.Keys|;
    assert |w'.store.grps| == |w'.store.grps.Keys| && |w.store.grps| == |w.store.grps.Keys|;
  }

  lemma TodoKnown(w: World, r: TokenReq, todo: set<TokenReq>)
    requires Owned(w, todo) && r in todo
    ensures Knows(w.store, r) && w.store.reqs[r].stat == Init
  {
  }

  lemma GrantStep(w: World, id: NodeId, r: TokenReq, m: Mid)
    requires Inv(w, m) && r in m.todo && id in w.table && r.id == id
    requires w.store.reqs[r].nodeid == w.table[id].fence
    requires m.fair ==> Fits(w.table[id].base, r.cost)
    ensures Inv(GrantAt(w, id, r), Mid(m.todo - {r}, m.freed, NowDue(w, r, true, m.due), m.fair))
  {
    hide StoreInv, Owned, Charged, Pressed, Fenced, Delivered, Accounted;
    TodoKnown(w, r, m.todo);
    var w1, w' := Settle(w, r, true), GrantAt(w, id, r);
    FinishSettles(w.store, r, true);
    SettleOwned(w, r, true, m.todo);
    OwnedFrame(w1, w', m.todo - {r});
    SettleDelivered(w, r, true, m.due);
    DeliveredFrame(w1, w', NowDue(w, r, true, m.due));
    AccountedFrame(w, w');
    PressedFrame(w, w');
    GrantCharges(w, id, r, m.freed, m.fair);
  }

  // ----- Queueing

  ghost function Stamp(w: World, r: TokenReq, fence: int): World
    requires Knows(w.store, r)
  {
    w.(store := w.store.(reqs := w.store.reqs[r := w.store.reqs[r].(nodeid := fence)]))
  }

  lemma StampStore(w: World, r: TokenReq, fence: int)
    requires Knows(w.store, r) && StoreInv(w.store)
    ensures StoreInv(Stamp(w, r, fence).store)
  {
    var w' := Stamp(w, r, fence);
    forall g <- w.store.grps
      ensures Inits(w'.store, g) == Inits(w.store, g) && (AnyFailed(w'.store, g) <==> AnyFailed(w.store, g))
    {
      StampCounts(w, r, fence, g);
    }
  }

  lemma StampCharged(w: World, r: TokenReq, fence: int, freed: set<TokenReq>, fair: bool)
    requires Knows(w.store, r) && w.store.reqs[r].stat == Init && Charged(w, freed, fair) && Fenced(w)
    ensures Charged(Stamp(w, r, fence), freed, fair) && Fenced(Stamp(w, r, fence))
  {
    var w' := Stamp(w, r, fence);
    forall id <- w.table
      ensures Holders(w'.store, w.table[id].fence, freed) == Holders(w.store, w.table[id].fence, freed)
    {
    }
  }

  lemma StampOwned(w: World, r: TokenReq, fence: int, todo: set<TokenReq>)
    requires Owned(w, todo) && r in todo
    ensures Owned(Stamp(w, r, fence), todo)
  {
  }

  lemma StampStep(w: World, r: TokenReq, fence: int, m: Mid)
    requires Inv(w, m) && r in m.todo
    ensures Inv(Stamp(w, r, fence), m)
  {
    hide StoreInv, Owned, Charged, Pressed, Fenced, Delivered, Accounted;
    TodoKnown(w, r, m.todo);
    var w' := Stamp(w, r, fence);
    StampStore(w, r, fence);
    StampCharged(w, r, fence, m.freed, m.fair);
    StampOwned(w, r, fence, m.todo);
    AccountedFrame(w, w');
    PressedFrame(w, w');
    DeliveredFrame(w, w', m.due);
  }

  lemma StampCounts(w: World, r: TokenReq, fence: int, g: TokenReqGrp)
    requires Knows(w.store, r)
    ensures var s' := Stamp(w, r, fence).store;
      Inits(s', g) == Inits(w.store, g) && (AnyFailed(s', g) <==> AnyFailed(w.store, g))
  {
    var s' := Stamp(w, r, fence).store;
    if x :| x in w.store.reqs && x.grp == g && w.store.reqs[x].stat == Failed {
      assert s'.reqs[x].stat == Failed;
    }
  }

  ghost function PushAt(w: World, id: NodeId, r: TokenReq): World
    requires id in w.table
  {
    WithNode(w, id, Push(w.table[id], r), w.store)
  }

  lemma PushOwned(w: World, id: NodeId, r: TokenReq, todo: set<TokenReq>)
    requires Owned(w, todo) && r in todo && id in w.table && r.id == id
    requires w.store.reqs[r].nodeid == w.table[id].fence
    ensures Owned(PushAt(w, id, r), todo - {r})
  {
  }

  lemma PushPressed(w: World, id: NodeId, r: TokenReq)
    requires Pressed(w) && id in w.table
    ensures Pressed(PushAt(w, id, r))
  {
    WaitingSnoc(w.table[id].queue, r);
    AddWraps(Waiting(w.table[id].queue), r.cost);
  }

  lemma PushStep(w: World, id: NodeId, r: TokenReq, m: Mid)
    requires Inv(w, m) && r in m.todo && id in w.table && r.id == id
    requires w.store.reqs[r].nodeid == w.table[id].fence
    ensures Inv(PushAt(w, id, r), Mid(m.todo - {r}, m.freed, m.due, m.fair))
  {
    hide StoreInv, Owned, Charged, Pressed, Fenced, Delivered, Accounted;
    var w' := PushAt(w, id, r);
    PushOwned(w, id, r, m.todo);
    PushPressed(w, id, r);
    if m.fair { ExactNodes(w, m.freed); }
    ChargedFrame(w, w', m.freed, m.fair);
    FencedFrame(w, w');
    AccountedFrame(w, w');
    DeliveredFrame(w, w', m.due);
  }

  ghost function PopAt(w: World, id: NodeId): World
    requires id in w.table && w.table[id].queue != []
  {
    WithNode(w, id, Pop(w.table[id]), w.store)
  }

  lemma PopOwned(w: World, id: NodeId, todo: set<TokenReq>)
    requires Owned(w, todo) && id in w.table && w.table[id].queue != []
    ensures Owned(PopAt(w, id), todo + {w.table[id].queue[0]})
  {
    var w', q := PopAt(w, id), w.table[id].queue;
    assert q == [q[0]] + q[1..];
    forall x <- w'.table, r <- w'.table[x].queue
      ensures WaitsAt(w'.store, w'.table[x], x, r) && r !in todo && r != q[0]
    {
      assert r in w.table[x].queue;
      if x == id {
        var i :| 0 <= i < |q[1..]| && q[1..][i] == r;
        assert q[i + 1] == r;
      }
    }
  }

  lemma PopPressed(w: World, id: NodeId)
    requires Pressed(w) && id in w.table && w.table[id].queue != []
    ensures Pressed(PopAt(w, id))
  {
    var q := w.table[id].queue;
    SubWraps(Waiting(q), q[0].cost);
  }

  lemma PopStep(w: World, id: NodeId, m: Mid)
    requires Inv(w, m) && id in w.table && w.table[id].queue != []
    ensures Inv(PopAt(w, id), Mid(m.todo + {w.table[id].queue[0]}, m.freed, m.due, m.fair))
  {
    hide StoreInv, Owned, Charged, Pressed, Fenced, Delivered, Accounted;
    var w' := PopAt(w, id);
    PopOwned(w, id, m.todo);
    PopPressed(w, id);
    if m.fair { ExactNodes(w, m.freed); }
    ChargedFrame(w, w', m.freed, m.fair);
    FencedFrame(w, w');
    AccountedFrame(w, w');
    DeliveredFrame(w, w', m.due);
  }

  ghost function EmptyAt(w: World, id: NodeId): World
    requires id in w.table
  {
    var n := w.table[id];
    WithNode(w, id, n.(queue := [], press := if n.queue == [] then n.press else 0), w.store)
  }

  lemma EmptyOwned(w: World, id: NodeId, todo: set<TokenReq>)
    requires Owned(w, todo) && id in w.table
    ensures Owned(EmptyAt(w, id), todo + Members(w.table[id].queue))
  {
    var w', q := EmptyAt(w, id), w.table[id].queue;
    forall x <- w'.table, r <- w'.table[x].queue
      ensures WaitsAt(w'.store, w'.table[x], x, r) && r !in todo && r !in q
    {
      assert x != id && r in w.table[x].queue && r.id == x;
    }
    forall r <- Members(q)
      ensures Knows(w.store, r) && w.store.reqs[r].stat == Init
    {
      assert WaitsAt(w.store, w.table[id], id, r);
    }
  }

  lemma EmptyPressed(w: World, id: NodeId)
    requires Pressed(w) && id in w.table
    ensures Pressed(EmptyAt(w, id))
  {
  }

  lemma EmptyStep(w: World, id: NodeId, m: Mid)
    requires Inv(w, m) && id in w.table
    ensures Inv(EmptyAt(w, id), Mid(m.todo + Members(w.table[id].queue), m.freed, m.due, m.fair))
  {
    hide StoreInv, Owned, Charged, Pressed, Fenced, Delivered, Accounted;
    var w' := EmptyAt(w, id);
    EmptyOwned(w, id, m.todo);
    EmptyPressed(w, id);
    if m.fair { ExactNodes(w, m.freed); }
    ChargedFrame(w, w', m.freed, m.fair);
    FencedFrame(w, w');
    AccountedFrame(w, w');
    DeliveredFrame(w, w', m.due);
  }

  // ----- Tokens going back

  ghost function DischargeAt(w: World, id: NodeId, r: TokenReq): World
    requires id in w.table
  {
    WithNode(w, id, w.table[id].(base := Discharge(w.table[id].base, r.cost)), w.store)
  }

  lemma DischargeCharged(w: World, r: TokenReq, freed: set<TokenReq>, fair: bool)
    requires Charged(w, freed, fair) && Fenced(w) && r in w.store.reqs && w.store.reqs[r].stat == Got && r !in freed
    requires r.id in w.table && w.store.reqs[r].nodeid == w.table[r.id].fence
    ensures Charged(DischargeAt(w, r.id, r), freed + {r}, fair)
  {
    var w' := DischargeAt(w, r.id, r);
    forall id <- w.table
      ensures w'.table[id].base.inuse == Held(Holders(w.store, w.table[id].fence, freed + {r})) % TWO64
      ensures fair ==> Exact(w'.table[id].base) && Held(Holders(w.store, w.table[id].fence, freed + {r})) <= TWO63
    {
      var h, h' := Holders(w.store, w.table[id].fence, freed), Holders(w.store, w.table[id].fence, freed + {r});
      assert h' == h - {r};
      if id == r.id {
        HeldSplit(h, r);
        SubWraps(Held(h), r.cost);
      } else {
        assert r !in h;
        assert h' == h;
      }
    }
  }

  lemma DischargeStep(w: World, r: TokenReq, m: Mid)
    requires Inv(w, m) && r in w.store.reqs && w.store.reqs[r].stat == Got && r !in m.freed
    requires r.id in w.table && w.store.reqs[r].nodeid == w.table[r.id].fence
    ensures Inv(DischargeAt(w, r.id, r), Mid(m.todo, m.freed + {r}, m.due, m.fair))
  {
    hide StoreInv, Owned, Charged, Pressed, Fenced, Delivered, Accounted;
    var w' := DischargeAt(w, r.id, r);
    OwnedFrame(w, w', m.todo);
    PressedFrame(w, w');
    FencedFrame(w, w');
    DischargeCharged(w, r, m.freed, m.fair);
    AccountedFrame(w, w');
    DeliveredFrame(w, w', m.due);
  }

  lemma StaleCharged(w: World, r: TokenReq, freed: set<TokenReq>, fair: bool)
    requires Charged(w, freed, fair) && Fenced(w) && r in w.store.reqs && w.store.reqs[r].stat == Got && r !in freed
    requires r.id in w.table ==> w.store.reqs[r].nodeid != w.table[r.id].fence
    ensures Charged(w, freed + {r}, fair)
  {
    forall id <- w.table
      ensures Holders(w.store, w.table[id].fence, freed + {r}) == Holders(w.store, w.table[id].fence, freed)
    {
    }
  }

  // A request whose node is gone, or came back under another fence, holds nothing any more.
  lemma StaleStep(w: World, r: TokenReq, m: Mid)
    requires Inv(w, m) && r in w.store.reqs && w.store.reqs[r].stat == Got && r !in m.freed
    requires r.id in w.table ==> w.store.reqs[r].nodeid != w.table[r.id].fence
    ensures Inv(w, Mid(m.todo, m.freed + {r}, m.due, m.fair))
  {
    hide StoreInv, Owned, Charged, Pressed, Fenced, Delivered, Accounted;
    StaleCharged(w, r, m.freed, m.fair);
  }

  // ----- Quotas and nodes

  ghost function BaseAt(w: World, id: NodeId, b: Base): World
    requires id in w.table
  {
    WithNode(w, id, w.table[id].(base := b), w.store)
  }

  lemma BaseStep(w: World, id: NodeId, b: Base, m: Mid)
    requires Inv(w, m) && id in w.table && b.inuse == w.table[id].base.inuse && (m.fair ==> Exact(b))
    ensures Inv(BaseAt(w, id, b), m)
  {
    hide StoreInv, Owned, Charged, Pressed, Fenced, Delivered, Accounted;
    var w' := BaseAt(w, id, b);
    OwnedFrame(w, w', m.todo);
    PressedFrame(w, w');
    if m.fair { ExactNodes(w, m.freed); }
    ChargedFrame(w, w', m.freed, m.fair);
    FencedFrame(w, w');
    AccountedFrame(w, w');
    DeliveredFrame(w, w', m.due);
  }

  lemma OnlineCharged(w: World, id: NodeId, freed: set<TokenReq>, fair: bool)
    requires Charged(w, freed, fair) && Fenced(w)
    ensures Charged(Online(w, id), freed, fair)
  {
    assert Holders(w.store, w.version, freed) == {};
    assert Exact(INITIAL) && Held({}) == 0;
  }

  lemma OnlineFenced(w: World, id: NodeId)
    requires Fenced(w)
    ensures Fenced(Online(w, id))
  {
  }

  lemma OnlineOwned(w: World, id: NodeId, todo: set<TokenReq>)
    requires Owned(w, todo)
    ensures Owned(Online(w, id), todo)
  {
  }

  lemma OnlineAccounted(w: World, id: NodeId)
    requires Accounted(w)
    ensures Accounted(Online(w, id))
  {
    var w' := Online(w, id);
    if w.out.items != w.limits.nodes && id !in w.table {
      assert w'.table.Keys == w.table.Keys + {id};
      assert |w'.table| == |w'.table.Keys| && |w.table| == |w.table.Keys|;
    }
  }

  lemma OnlinePressed(w: World, id: NodeId)
    requires Pressed(w)
    ensures Pressed(Online(w, id))
  {
  }

  lemma OnlineStep(w: World, id: NodeId, m: Mid)
    requires Inv(w, m)
    ensures Inv(Online(w, id), m)
  {
    hide StoreInv, Owned, Charged, Pressed, Fenced, Delivered, Accounted;
    var w' := Online(w, id);
    OnlineCharged(w, id, m.freed, m.fair);
    OnlineFenced(w, id);
    OnlineOwned(w, id, m.todo);
    OnlineAccounted(w, id);
    OnlinePressed(w, id);
    DeliveredFrame(w, w', m.due);
  }

  lemma RemoveOwned(w: World, id: NodeId, todo: set<TokenReq>)
    requires Owned(w, todo) && id in w.table && w.table[id].queue == []
    ensures Owned(RemoveNode(w, id), todo)
  {
  }

  lemma RemoveCharged(w: World, id: NodeId, freed: set<TokenReq>, fair: bool)
    requires Charged(w, freed, fair) && Fenced(w) && Pressed(w)
    ensures Charged(RemoveNode(w, id), freed, fair) && Fenced(RemoveNode(w, id)) && Pressed(RemoveNode(w, id))
  {
  }

  lemma RemoveAccounted(w: World, id: NodeId)
    requires Accounted(w) && id in w.table
    ensures Accounted(RemoveNode(w, id))
  {
    var w' := RemoveNode(w, id);
    assert w'.table.Keys == w.table.Keys - {id};
    assert |w'.table| == |w'.table.Keys| && |w.table| == |w.table.Keys|;
  }

  lemma RemoveStep(w: World, id: NodeId, m: Mid)
    requires Inv(w, m) && id in w.table && w.table[id].queue == []
    ensures Inv(RemoveNode(w, id), m)
  {
    hide StoreInv, Owned, Charged, Pressed, Fenced, Delivered, Accounted;
    RemoveOwned(w, id, m.todo);
    RemoveCharged(w, id, m.freed, m.fair);
    RemoveAccounted(w, id);
    DeliveredFrame(w, RemoveNode(w, id), m.due);
  }

  // ----- Telling, admitting, retiring

  lemma ToldMore(log: seq<Delivery>, news: seq<Delivery>, g: TokenReqGrp)
    ensures Told(log + news, g) <==> Told(log, g) || Told(news, g)
  {
    if i :| 0 <= i < |log| && log[i].grp == g {
      assert (log + news)[i].grp == g;
    }
    if i :| 0 <= i < |news| && news[i].grp == g {
      assert (log + news)[|log| + i].grp == g;
    }
  }

  // The deliveries `news` tell exactly the groups of `due`, each with its recorded outcome.
  ghost predicate Tells(news: seq<Delivery>, grps: map<TokenReqGrp, Grp>, due: seq<TokenReqGrp>) {
    && |news| == |due|
    && (forall i :: 0 <= i < |due| ==> news[i].grp == due[i] && due[i] in grps && news[i].err == grps[due[i]].err)
  }

  lemma TellDelivered(w: World, due: seq<TokenReqGrp>, news: seq<Delivery>)
    requires Delivered(w, due) && Tells(news, w.store.grps, due)
    ensures Delivered(w.(log := w.log + news), [])
  {
    var w' := w.(log := w.log + news);
    forall i, j | 0 <= i < j < |w'.log|
      ensures w'.log[i].grp != w'.log[j].grp
    {
      if i < |w.log| <= j {
        assert !Told(w.log, due[j - |w.log|]);
      }
    }
    forall g <- w.admitted
      ensures Told(w'.log, g) <==> Told(w.log, g) || Told(news, g)
      ensures g in due ==> Told(news, g)
    {
      ToldMore(w.log, news, g);
      if i :| 0 <= i < |due| && due[i] == g {
        assert news[i].grp == g;
      }
    }
  }

  lemma TellStep(w: World, m: Mid, news: seq<Delivery>)
    requires Inv(w, m) && Tells(news, w.store.grps, m.due)
    ensures Inv(w.(log := w.log + news), m.(due := []))
  {
    hide StoreInv, Owned, Charged, Pressed, Fenced, Delivered, Accounted;
    var w' := w.(log := w.log + news);
    OwnedFrame(w, w', m.todo);
    PressedFrame(w, w');
    if m.fair { ExactNodes(w, m.freed); }
    ChargedFrame(w, w', m.freed, m.fair);
    FencedFrame(w, w');
    AccountedFrame(w, w');
    TellDelivered(w, m.due, news);
  }

  lemma ReversedMembers(hs: seq<TokenReq>)
    ensures Members(Reversed(hs)) == Members(hs)
    ensures NoDup(hs) ==> NoDup(Reversed(hs)) && |Members(hs)| == |hs|
  {
    forall r <- hs
      ensures r in Reversed(hs)
    {
      var i :| 0 <= i < |hs| && hs[i] == r;
      assert Reversed(hs)[|hs| - 1 - i] == r;
    }
    if NoDup(hs) {
      MembersCount(hs);
    }
  }

  lemma {:induction false} MembersCount(hs: seq<TokenReq>)
    requires NoDup(hs)
    ensures |Members(hs)| == |hs|
  {
    if hs == [] {
    } else {
      var n := |hs| - 1;
      MembersCount(hs[..n]);
      assert hs == hs[..n] + [hs[n]];
      assert Members(hs) == Members(hs[..n]) + {hs[n]};
    }
  }

  lemma AdmitLinked(w: World, g: TokenReqGrp, hs: seq<TokenReq>)
    requires Linked(w.store) && g !in w.store.grps && NoDup(hs) && (forall r <- hs :: r.grp == g)
    ensures Linked(Admit(w, g, hs).store)
  {
    ReversedMembers(hs);
    assert forall r :: r in Members(hs) <==> r in Members(Reversed(hs));
  }

  lemma AdmitCounted(w: World, g: TokenReqGrp, hs: seq<TokenReq>)
    requires Counted(w.store) && g !in w.store.grps && hs != [] && NoDup(hs) && (forall r <- hs :: r.grp == g)
    requires forall r <- w.store.reqs :: r.grp in w.store.grps
    ensures Counted(Admit(w, g, hs).store)
  {
    var s' := Admit(w, g, hs).store;
    MembersCount(hs);
    assert hs[0] in Members(hs);
    assert Inits(s', g) == Members(hs);
    forall x <- s'.grps
      ensures s'.grps[x].pending == |Inits(s', x)|
      ensures s'.grps[x].failed <==> AnyFailed(s', x)
      ensures s'.grps[x].err == Outcome(s', x)
    {
      if x != g {
        AdmitElsewhere(w, g, hs, x);
      }
    }
  }

  lemma AdmitElsewhere(w: World, g: TokenReqGrp, hs: seq<TokenReq>, x: TokenReqGrp)
    requires x != g && forall r <- hs :: r.grp == g
    ensures var s' := Admit(w, g, hs).store;
      Inits(s', x) == Inits(w.store, x) && (AnyFailed(s', x) <==> AnyFailed(w.store, x))
  {
    var s' := Admit(w, g, hs).store;
    if r :| r in w.store.reqs && r.grp == x && w.store.reqs[r].stat == Failed {
      assert s'.reqs[r].stat == Failed;
    }
  }

  lemma AdmitOwned(w: World, g: TokenReqGrp, hs: seq<TokenReq>)
    requires Owned(w, {}) && g !in w.store.grps && (forall r <- hs :: r.grp == g)
    requires forall r <- w.store.reqs :: r.grp in w.store.grps
    ensures Owned(Admit(w, g, hs), Members(hs))
  {
  }

  lemma AdmitCharged(w: World, g: TokenReqGrp, hs: seq<TokenReq>, fair: bool)
    requires Charged(w, {}, fair) && Fenced(w) && (forall r <- hs :: r !in w.store.reqs)
    ensures Charged(Admit(w, g, hs), {}, fair) && Fenced(Admit(w, g, hs))
  {
    var w' := Admit(w, g, hs);
    forall id <- w.table
      ensures Holders(w'.store, w.table[id].fence, {}) == Holders(w.store, w.table[id].fence, {})
    {
    }
  }

  lemma AddedCount<K, V>(m: map<K, V>, m': map<K, V>, ks: set<K>)
    requires m'.Keys == m.Keys + ks && m.Keys !! ks
    ensures |m'| == |m| + |ks|
  {
    assert |m| == |m.Keys| && |m'| == |m'.Keys|;
  }

  lemma AdmitAccounted(w: World, g: TokenReqGrp, hs: seq<TokenReq>)
    requires Accounted(w) && g !in w.store.grps && NoDup(hs) && (forall r <- hs :: r !in w.store.reqs)
    requires w.out.grps < w.limits.grps && w.out.reqs + |hs| <= w.limits.reqs
    ensures Accounted(Admit(w, g, hs))
  {
    AdmitReqCount(w, g, hs);
    AddedCount(w.store.grps, Admit(w, g, hs).store.grps, {g});
  }

  lemma AdmitReqCount(w: World, g: TokenReqGrp, hs: seq<TokenReq>)
    requires NoDup(hs) && (forall r <- hs :: r !in w.store.reqs)
    ensures |Admit(w, g, hs).store.reqs| == |w.store.reqs| + |hs|
  {
    MembersCount(hs);
    assert Admit(w, g, hs).store.reqs.Keys == w.store.reqs.Keys + Members(hs);
    AddedCount(w.store.reqs, Admit(w, g, hs).store.reqs, Members(hs));
  }

  lemma GroupIsNew(w: World, g: TokenReqGrp, hs: seq<TokenReq>, fair: bool)
    requires Inv(w, Rest(fair)) && NewGroup(w, g, hs)
    ensures g !in w.store.grps && (forall r <- hs :: r !in w.store.reqs)
    ensures Linked(w.store) && Counted(w.store)
  {
    assert NoneForgotten(w.log, w.admitted, w.store.grps, []);
  }

  lemma AdmitBoth(w: World, g: TokenReqGrp, hs: seq<TokenReq>)
    requires Linked(Admit(w, g, hs).store) && Counted(Admit(w, g, hs).store)
    ensures StoreInv(Admit(w, g, hs).store)
  {
  }

  lemma AdmitStep(w: World, g: TokenReqGrp, hs: seq<TokenReq>, fair: bool)
    requires Inv(w, Rest(fair)) && NewGroup(w, g, hs)
    requires w.out.grps < w.limits.grps && w.out.reqs + |hs| <= w.limits.reqs
    ensures Inv(Admit(w, g, hs), Mid(Members(hs), {}, [], fair))
  {
    hide StoreInv, Owned, Charged, Pressed, Fenced, Delivered, Accounted;
    GroupIsNew(w, g, hs, fair);
    AdmitLinked(w, g, hs);
    AdmitCounted(w, g, hs);
    AdmitBoth(w, g, hs);
    AdmitOwned(w, g, hs);
    AdmitCharged(w, g, hs, fair);
    AdmitAccounted(w, g, hs);
    AdmitDelivered(w, g, hs);
    PressedFrame(w, Admit(w, g, hs));
  }

  lemma AdmitDelivered(w: World, g: TokenReqGrp, hs: seq<TokenReq>)
    requires Delivered(w, []) && g !in w.admitted
    ensures Delivered(Admit(w, g, hs), [])
  {
  }

  ghost predicate AllSettled(s: Store, g: TokenReqGrp) {
    forall r <- s.reqs :: r.grp == g ==> s.reqs[r].stat != Init
  }

  lemma RetireStore(w: World, g: TokenReqGrp)
    requires StoreInv(w.store) && g in w.store.grps
    ensures StoreInv(Retire(w, g).store)
  {
    var s, s' := w.store, Retire(w, g).store;
    assert Linked(s');
    forall x <- s'.grps
      ensures s'.grps[x].pending == |Inits(s', x)|
      ensures s'.grps[x].failed <==> AnyFailed(s', x)
      ensures s'.grps[x].err == Outcome(s', x)
    {
      RetireElsewhere(w, g, x);
    }
  }

  lemma RetireElsewhere(w: World, g: TokenReqGrp, x: TokenReqGrp)
    requires Linked(w.store) && g in w.store.grps && x != g
    ensures var s' := Retire(w, g).store;
      Inits(s', x) == Inits(w.store, x) && (AnyFailed(s', x) <==> AnyFailed(w.store, x))
  {
    var s' := Retire(w, g).store;
    if r :| r in w.store.reqs && r.grp == x && w.store.reqs[r].stat == Failed {
      assert s'.reqs[r].stat == Failed;
    }
  }

  lemma RetireOwned(w: World, g: TokenReqGrp)
    requires Owned(w, {}) && Linked(w.store) && g in w.store.grps && AllSettled(w.store, g)
    ensures Owned(Retire(w, g), {})
  {
  }

  lemma RetireCharged(w: World, g: TokenReqGrp, freed: set<TokenReq>, fair: bool)
    requires Charged(w, freed, fair) && Fenced(w) && Linked(w.store) && g in w.store.grps
    requires forall r <- w.store.reqs :: r.grp == g && w.store.reqs[r].stat == Got ==> r in freed
    ensures Charged(Retire(w, g), freed - Members(w.store.grps[g].reqs), fair) && Fenced(Retire(w, g))
  {
    var w', freed' := Retire(w, g), freed - Members(w.store.grps[g].reqs);
    forall id <- w.table
      ensures Holders(w'.store, w.table[id].fence, freed') == Holders(w.store, w.table[id].fence, freed)
    {
    }
  }

  lemma RetireAccounted(w: World, g: TokenReqGrp)
    requires Accounted(w) && Linked(w.store) && g in w.store.grps
    ensures Accounted(Retire(w, g))
  {
    var s, s', rs := w.store, Retire(w, g).store, w.store.grps[g].reqs;
    MembersCount(rs);
    assert Members(rs) <= s.reqs.Keys;
    assert s'.reqs.Keys == s.reqs.Keys - Members(rs);
    assert s'.grps.Keys == s.grps.Keys - {g};
    assert |s'.reqs| == |s'.reqs.Keys| && |s.reqs| == |s.reqs.Keys|;
    assert |s'.grps| == |s'.grps.Keys| && |s.grps| == |s.grps.Keys|;
  }

  lemma RetireDelivered(w: World, g: TokenReqGrp, due: seq<TokenReqGrp>)
    requires Delivered(w, due) && g in w.store.grps && Told(w.log, g)
    ensures Delivered(Retire(w, g), due)
  {
  }

  lemma LinkedIn(s: Store)
    requires StoreInv(s)
    ensures Linked(s)
  {
  }

  lemma RetireStep(w: World, g: TokenReqGrp, m: Mid)
    requires Inv(w, m) && m.todo == {} && g in w.store.grps && Told(w.log, g) && AllSettled(w.store, g)
    requires forall r <- w.store.reqs :: r.grp == g && w.store.reqs[r].stat == Got ==> r in m.freed
    ensures Inv(Retire(w, g), Mid({}, m.freed - Members(w.store.grps[g].reqs), m.due, m.fair))
  {
    hide StoreInv, Owned, Charged, Pressed, Fenced, Delivered, Accounted;
    LinkedIn(w.store);
    RetireStore(w, g);
    RetireOwned(w, g);
    RetireCharged(w, g, m.freed, m.fair);
    RetireAccounted(w, g);
    RetireDelivered(w, g, m.due);
    PressedFrame(w, Retire(w, g));
  }
}
