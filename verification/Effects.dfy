/**
  What an operation leaves behind, field by field.

  `WorldSpec` says how an operation goes about it; here is what comes of it: which nodes are in the table and what is
  known of them, which requests have changed, and what is told.
 */
module Effects {
  import opened Words
  import opened Objects
  import opened Quota
  import opened Groups
  import opened NodeSpec
  import opened WorldSpec
  import opened Invariant
  import opened Steps
  import opened Versions
  import opened Telling
  import opened Order

  ghost function Ids(ids: seq<NodeId>): set<NodeId> {
    set id | id in ids
  }

  // ----- Nodes that come online

  // The nodes of `ids` have joined as unused nodes under the next fences, in that order, and nothing else has changed.
  ghost predicate Brought(w: World, w': World, ids: seq<NodeId>) {
    && NoDup(ids)
    && w'.table.Keys == w.table.Keys + Ids(ids)
    && (forall id <- w.table :: w'.table[id] == w.table[id])
    && (forall i | 0 <= i < |ids| :: ids[i] !in w.table
          && w'.table[ids[i]] == Node(Base(0, MIN_RS_NUM, MIN_RS_NUM, 0), [], 0, w.version + i))
    && w'.version == w.version + |ids|
    && w'.out == w.out.(items := w.out.items + |ids|, tabItems := w.out.tabItems + |ids|)
    && w'.store == w.store && w'.log == w.log && w'.admitted == w.admitted && w'.limits == w.limits
  }

  // A node comes online if it is new and an item is left. A node that is there only costs a fence, and with no item left
  // nothing happens.
  lemma OnlineBrings(w: World, id: NodeId)
    ensures w.out.items == w.limits.nodes ==> Online(w, id) == w
    ensures w.out.items != w.limits.nodes && id !in w.table ==> Brought(w, Online(w, id), [id])
    ensures w.out.items != w.limits.nodes && id in w.table ==> Online(w, id) == w.(version := w.version + 1)
  {
    assert Ids([id]) == {id};
  }

  // The ids asked for that are not known, each once, in the order in which they first come up.
  ghost function NewIds(known: set<NodeId>, hs: seq<TokenReq>): seq<NodeId> {
    if hs == [] then []
    else
      var before, id := NewIds(known, hs[..|hs| - 1]), hs[|hs| - 1].id;
      if id in known || id in before then before else before + [id]
  }

  lemma {:induction false} NewIdsAre(known: set<NodeId>, hs: seq<TokenReq>)
    ensures var ids := NewIds(known, hs);
      NoDup(ids) && forall id :: id in ids <==> (id !in known && exists i :: 0 <= i < |hs| && hs[i].id == id)
  {
    if hs == [] {
    } else {
      var n := |hs| - 1;
      NewIdsAre(known, hs[..n]);
      var ids := NewIds(known, hs);
      forall id
        ensures id in ids <==> (id !in known && exists i :: 0 <= i < |hs| && hs[i].id == id)
      {
        if i :| 0 <= i < n && hs[i].id == id {
          assert hs[..n][i].id == id;
        }
        if i :| 0 <= i < |hs| && hs[i].id == id && i != n {
          assert hs[..n][i].id == id;
        }
        assert hs[n].id in NewIds(known, hs[..n]) || hs[n].id in known || hs[n].id in ids;
      }
    }
  }

  // One more node, if it is new and there is room.
  lemma BroughtMore(w: World, w1: World, ids: seq<NodeId>, id: NodeId)
    requires Brought(w, w1, ids) && id !in w1.table && w1.out.items != w1.limits.nodes
    ensures Brought(w, Online(w1, id), ids + [id])
  {
    var all := ids + [id];
    assert Ids(all) == Ids(ids) + {id};
    forall i | 0 <= i < |ids|
      ensures ids[i] != id
    {
      assert ids[i] in Ids(ids);
    }
  }

  // Of the unknown ids asked for, those come online that the node cache has room for, the first ones first.
  lemma {:induction false} CheckInBrings(w: World, hs: seq<TokenReq>)
    requires w.out.items <= w.limits.nodes
    ensures var ids := NewIds(w.table.Keys, hs);
      var m := Min(|ids|, w.limits.nodes - w.out.items);
      Brought(w, CheckIn(w, hs), ids[..m])
  {
    if hs == [] {
      assert Ids([]) == {};
    } else {
      hide Online, Brought, CheckIn;
      var n := |hs| - 1;
      var before, r := hs[..n], hs[n];
      CheckInBrings(w, before);
      CheckInInOrder(w, hs, n);
      assert hs[..n + 1] == hs;
      CheckInOneMore(w, CheckIn(w, before), NewIds(w.table.Keys, before), r.id);
    }
  }

  lemma CheckInOneMore(w: World, w1: World, before: seq<NodeId>, id: NodeId)
    requires w.out.items <= w.limits.nodes && Brought(w, w1, before[..Min(|before|, w.limits.nodes - w.out.items)])
    ensures var ids := if id in w.table || id in before then before else before + [id];
      Brought(w, if id in w1.table then w1 else Online(w1, id), ids[..Min(|ids|, w.limits.nodes - w.out.items)])
  {
    var room := w.limits.nodes - w.out.items;
    var there := before[..Min(|before|, room)];
    assert id in w1.table <==> id in w.table || id in there by {
      assert id in Ids(there) <==> id in there;
    }
    if |before| <= room {
      assert there == before;
    }
    var ids := if id in w.table || id in before then before else before + [id];
    if id !in w1.table && |before| < room {
      BroughtMore(w, w1, before, id);
      assert ids[..Min(|ids|, room)] == before + [id];
    } else {
      assert ids[..Min(|ids|, room)] == there;
    }
  }

  // ----- Messages for unknown nodes

  // Such a message brings the node online if there is room, and is lost.
  lemma RcvdUnknown(w: World, id: NodeId, total: U64, ver: int)
    requires id !in w.table
    ensures w.out.items == w.limits.nodes ==> Rcvd(w, id, total, ver) == w
    ensures w.out.items != w.limits.nodes ==> Brought(w, Rcvd(w, id, total, ver), [id])
  {
    OnlineBrings(w, id);
  }

  // ----- Messages for known nodes

  // Some prefix of the queue that fits one by one was granted, and no longer one fits.
  ghost predicate Drained(n: Node, s: Store, n': Node, s': Store, k: nat) {
    && k <= |n.queue|
    && (forall j | 0 <= j <= |n.queue| :: FitsInTurn(n.base, n.queue[..j]) <==> j <= k)
    && n'.queue == n.queue[k..] && n'.fence == n.fence
    && n'.base == Charges(n.base, Costs(n.queue[..k]))
    && GrantedOnly(s, s', n.queue[..k])
  }

  // The outcomes of these groups were told through the callback, in this order.
  ghost predicate Called(w: World, w': World, due: seq<TokenReqGrp>) {
    && |w'.log| == |w.log| + |due| && w.log <= w'.log
    && forall i | 0 <= i < |due| ::
         due[i] in w'.store.grps && w'.log[|w.log| + i] == Callback(due[i], Outcome(w'.store, due[i]))
  }

  ghost predicate OtherNodesKept(w: World, w': World, id: NodeId) {
    w'.table.Keys == w.table.Keys && forall x <- w.table :: x != id ==> w'.table[x] == w.table[x]
  }

  ghost predicate CountsKept(w: World, w': World) {
    w'.version == w.version && w'.out == w.out && w'.admitted == w.admitted && w'.limits == w.limits
  }

  lemma DrainIs(n: Node, s: Store, due: seq<TokenReqGrp>)
    requires StoreInv(s) && AllWait(s, n.queue) && n.press == Sums.Waiting(n.queue) % TWO64
    ensures var e, k := Drain(n, s, due), Granted(n.base, n.queue);
      Drained(n, s, e.node, e.store, k) && e.due == Finals(s, n.queue, k) + due
  {
    hide StoreInv, Finals;
    LongestPrefix(n.base, n.queue);
    DrainNode(n, s, due);
    DrainStore(n, s, due);
    DrainTells(n, s, due);
    DrainVersion(n, s, due);
  }

  lemma QueueWaits(w: World, id: NodeId, m: Mid)
    requires Inv(w, m) && id in w.table
    ensures StoreInv(w.store) && AllWait(w.store, w.table[id].queue)
    ensures w.table[id].press == Sums.Waiting(w.table[id].queue) % TWO64
  {
    hide StoreInv, Charged, Fenced, Delivered, Accounted;
    forall i | 0 <= i < |w.table[id].queue|
      ensures Knows(w.store, w.table[id].queue[i]) && w.store.reqs[w.table[id].queue[i]].stat == Init
    {
      assert WaitsAt(w.store, w.table[id], id, w.table[id].queue[i]);
    }
  }

  // A message that raises the quota puts it in force and drains: the longest prefix that fits is granted, and the groups
  // whose last unsettled request is in it are told, the one completed last first.
  lemma RcvdRaises(w: World, id: NodeId, total: U64, ver: int) returns (k: nat)
    requires Inv(w, Rest(false)) && id in w.table && w.table[id].base.version < ver && w.table[id].base.quota < total
    ensures var n, w' := w.table[id], Rcvd(w, id, total, ver);
      && OtherNodesKept(w, w', id) && CountsKept(w, w')
      && Drained(n.(base := Base(n.base.inuse, total, total, ver)), w.store, w'.table[id], w'.store, k)
      && k <= |n.queue| && Called(w, w', Finals(w.store, n.queue, k))
  {
    hide Inv, Drain, Finals, Drained, Granted;
    var n := w.table[id];
    var n1 := n.(base := Base(n.base.inuse, total, total, ver));
    QueueWaits(w, id, Rest(false));
    k := Granted(n1.base, n1.queue);
    DrainIs(n1, w.store, []);
    var e := Drain(n1, w.store, []);
    assert k <= |n.queue| by { LongestPrefix(n1.base, n.queue); }
    var due := Finals(w.store, n.queue, k);
    assert due + [] == due;
    RcvdKeeps(w, id, total, ver, false);
    DrainOnward(n1, w.store, []);
    FinalsKnown(w.store, n.queue, k);
    var w' := Rcvd(w, id, total, ver);
    assert w' == Tell(WithNode(w, id, e.node, e.store), due);
    ToldIsCalled(w, WithNode(w, id, e.node, e.store), w', due);
  }

  // What is told right after an operation are outcomes.
  lemma ToldIsCalled(w: World, w1: World, w': World, due: seq<TokenReqGrp>)
    requires Inv(w', Rest(false)) && w1.log == w.log && w' == Tell(w1, due)
    requires forall i | 0 <= i < |due| :: due[i] in w1.store.grps
    ensures Called(w, w', due)
  {
    hide StoreInv, Owned, Charged, Pressed, Fenced, Delivered, Accounted;
    forall i | 0 <= i < |due|
      ensures due[i] in w'.store.grps && w'.log[|w.log| + i] == Callback(due[i], Outcome(w'.store, due[i]))
    {
      OutcomeRecorded(w', Rest(false), due[i]);
    }
  }

  // A newer message that does not raise the quota tells nobody and changes the base of this node only: with the total in
  // force the version, with a lower total the target, and the quota by one step.
  lemma RcvdLowers(w: World, id: NodeId, total: U64, ver: int)
    requires id in w.table && w.table[id].base.version < ver && total <= w.table[id].base.quota
    ensures var n, w' := w.table[id], Rcvd(w, id, total, ver);
      && OtherNodesKept(w, w', id) && CountsKept(w, w') && w'.store == w.store && w'.log == w.log
      && var b := w'.table[id].base;
         && w'.table[id] == n.(base := b) && b.version == ver && b.inuse == n.base.inuse
         && (total == n.base.quota ==> b.quota == total && b.quotaNew == n.base.quotaNew)
         && (total < n.base.quota && RESPOND_STEP <= n.base.quota ==>
               b.quotaNew == total && b.quota == Max(total, n.base.quota - RESPOND_STEP))
  {
    assert Callbacks(w.store, []) == [];
  }

  // A message of the node's own version changes nothing, whatever its total.
  lemma RcvdOwnVersion(w: World, id: NodeId, total: U64)
    requires id in w.table
    ensures Rcvd(w, id, total, w.table[id].base.version) == w
  {
    var w' := Rcvd(w, id, total, w.table[id].base.version);
    assert Callbacks(w.store, []) == [];
    assert w'.table == w.table;
  }

  lemma ResetEffect(w: World, id: NodeId)
    ensures id !in w.table ==> ResetNode(w, id) == w
    ensures id in w.table ==> ResetNode(w, id) == w.(table := w.table[id := Wiped(w.table[id])])
  {
  }

  // ----- Nodes that go offline

  // The unsettled requests for these nodes have failed, and no other request has changed.
  ghost predicate WaitersFailed(s: Store, s': Store, ids: set<NodeId>) {
    && s'.reqs.Keys == s.reqs.Keys
    && (forall r <- s.reqs ::
          s'.reqs[r] == if s.reqs[r].stat == Init && r.id in ids then s.reqs[r].(stat := Failed) else s.reqs[r])
  }

  lemma {:induction false} FailAllStats(q: seq<TokenReq>, s: Store, due: seq<TokenReqGrp>)
    requires forall r <- s.reqs :: r.grp in s.grps
    ensures var s' := FailAll(q, s, due).0;
      && s'.reqs.Keys == s.reqs.Keys
      && (forall r <- s.reqs ::
            s'.reqs[r] == if s.reqs[r].stat == Init && r in q then s.reqs[r].(stat := Failed) else s.reqs[r])
    decreases |q|
  {
    if q == [] {
    } else {
      var (s', err) := Finish(s, q[0], false);
      FailAllStats(q[1..], s', if err == FailedNode then [q[0].grp] + due else due);
      assert q == [q[0]] + q[1..];
    }
  }

  // The waiters of a node are the unsettled requests for it.
  lemma WaitersOf(w: World, id: NodeId)
    requires Inv(w, Rest(false))
    ensures forall r <- w.store.reqs :: w.store.reqs[r].stat == Init && r.id == id <==>
              id in w.table && r in w.table[id].queue
    ensures forall r <- w.store.reqs :: r.grp in w.store.grps
  {
    hide Counted, Charged, Pressed, Fenced, Delivered, Accounted;
    LinkedIn(w.store);
    forall r <- w.store.reqs | id in w.table && r in w.table[id].queue
      ensures w.store.reqs[r].stat == Init && r.id == id
    {
      assert WaitsAt(w.store, w.table[id], id, r);
    }
  }

  // A known node leaves the table with its two items; its waiters fail, and the groups that completes are told, the one
  // completed last first.
  lemma OfflineEffect(w: World, id: NodeId)
    requires Inv(w, Rest(false)) && id in w.table
    ensures var w' := Offline(w, id);
      && w'.table == w.table - {id} && WaitersFailed(w.store, w'.store, {id})
      && Called(w, w', Finals(w.store, w.table[id].queue, |w.table[id].queue|))
      && w'.out == w.out.(items := w.out.items - 1, tabItems := w.out.tabItems - 1)
      && w'.version == w.version && w'.admitted == w.admitted && w'.limits == w.limits
  {
    hide Inv, Finals, AllWait, StoreInv;
    var n, q := w.table[id], w.table[id].queue;
    WaitersOf(w, id);
    QueueWaits(w, id, Rest(false));
    FailAllStats(q, w.store, []);
    FailAllTells(q, w.store, []);
    FinalsKnown(w.store, q, |q|);
    FailAllOnward(q, w.store, []);
    OfflineKeeps(w, id, false);
    var due := Finals(w.store, q, |q|);
    assert due + [] == due;
    var w' := Offline(w, id);
    var e := PopAll(n, w.store, []);
    ToldIsCalled(w, RemoveNode(WithNode(w, id, e.node, e.store), id), w', due);
    assert w'.table == w.table - {id};
  }

  lemma OfflineUnknown(w: World, id: NodeId)
    requires id !in w.table
    ensures Offline(w, id) == w
  {
  }

  lemma {:induction false} CheckOutTable(w: World, ids: seq<NodeId>)
    ensures CheckOut(w, ids).table == w.table - Ids(ids)
    decreases |ids|
  {
    if ids == [] {
    } else {
      CheckOutTable(Offline(w, ids[0]), ids[1..]);
      assert ids == [ids[0]] + ids[1..];
      assert Ids(ids) == {ids[0]} + Ids(ids[1..]);
      assert Offline(w, ids[0]).table == w.table - {ids[0]};
    }
  }

  lemma {:induction false} CheckOutWaiters(w: World, ids: seq<NodeId>)
    requires Inv(w, Rest(false))
    ensures WaitersFailed(w.store, CheckOut(w, ids).store, Ids(ids))
    decreases |ids|
  {
    hide Inv, Offline;
    if ids == [] {
    } else {
      var w1 := Offline(w, ids[0]);
      if ids[0] in w.table {
        OfflineEffect(w, ids[0]);
      } else {
        OfflineUnknown(w, ids[0]);
        WaitersOf(w, ids[0]);
      }
      OfflineKeeps(w, ids[0], false);
      CheckOutWaiters(w1, ids[1..]);
      assert ids == [ids[0]] + ids[1..];
      assert Ids(ids) == {ids[0]} + Ids(ids[1..]);
    }
  }

  // What a put or its nodes tell, it tells through the callback.
  ghost predicate CallbacksOnly(w: World, w': World) {
    w.log <= w'.log && forall i | |w.log| <= i < |w'.log| :: w'.log[i].Callback?
  }

  lemma {:induction false} CheckOutCallbacks(w: World, ids: seq<NodeId>)
    ensures CallbacksOnly(w, CheckOut(w, ids))
    decreases |ids|
  {
    if ids == [] {
    } else {
      CheckOutCallbacks(Offline(w, ids[0]), ids[1..]);
    }
  }

  // A group whose last waiters stood at the nodes that went is told FAILEDNODE.
  lemma CompletedIsCalled(w: World, w': World, g: TokenReqGrp, ids: set<NodeId>)
    requires Inv(w, Rest(false)) && Inv(w', Rest(false)) && CallbacksOnly(w, w') && WaitersFailed(w.store, w'.store, ids)
    requires g in w.store.grps && g in w'.store.grps && Inits(w.store, g) != {} && Inits(w'.store, g) == {}
    ensures exists i :: |w.log| <= i < |w'.log| && w'.log[i] == Callback(g, FailedNode)
  {
    hide StoreInv, Owned, Charged, Pressed, Fenced, Accounted;
    var r :| r in Inits(w.store, g);
    assert r !in Inits(w'.store, g);
    assert w'.store.reqs[r].stat == Failed;
    OutcomeRecorded(w, Rest(false), g);
    OutcomeRecorded(w', Rest(false), g);
    assert NoneForgotten(w'.log, w'.admitted, w'.store.grps, []);
    var i :| 0 <= i < |w'.log| && w'.log[i].grp == g;
    assert ToldTruly(w'.log, w'.store.grps) && ToldTruly(w.log, w.store.grps);
    assert ToldOnce(w.log, w.admitted);
    assert forall j | 0 <= j < |w.log| :: w.log[j] == w'.log[j];
  }

  // ----- A put

  // The nodes reported failed are gone, and no others; their waiters have failed, and whoever completed by that is told.
  lemma PutReportsFailed(w: World, g: TokenReqGrp, fails: seq<NodeId>)
    requires Inv(w, Rest(false)) && g in w.store.grps && w.store.grps[g].err.Final()
    ensures var w1, w' := CheckOut(w, fails), Put(w, g, fails);
      && w'.table.Keys == w.table.Keys - Ids(fails) && CallbacksOnly(w, w') && w1.log <= w'.log
      && (forall r <- w.store.reqs :: w.store.reqs[r].stat == Init && r.id in fails ==>
            r in w'.store.reqs && w'.store.reqs[r].stat == Failed)
      && (forall x <- w.store.grps :: Inits(w.store, x) != {} && Inits(w1.store, x) == {} ==>
            exists i :: |w.log| <= i < |w'.log| && w'.log[i] == Callback(x, FailedNode))
  {
    hide Inv, CheckOut, Put, Inits, WaitersFailed;
    PutTable(w, g, fails);
    PutCallbacks(w, g, fails);
    PutFailsWaiters(w, g, fails);
    CheckOutCallbacks(w, fails);
    CheckOutWaiters(w, fails);
    CheckOutKeeps(w, fails, false);
    var w1, w' := CheckOut(w, fails), Put(w, g, fails);
    forall x <- w.store.grps | Inits(w.store, x) != {} && Inits(w1.store, x) == {}
      ensures exists i :: |w.log| <= i < |w'.log| && w'.log[i] == Callback(x, FailedNode)
    {
      CompletedIsCalled(w, w1, x, Ids(fails));
      var i :| |w.log| <= i < |w1.log| && w1.log[i] == Callback(x, FailedNode);
      assert w'.log[i] == w1.log[i];
    }
  }

  lemma PutTable(w: World, g: TokenReqGrp, fails: seq<NodeId>)
    ensures Put(w, g, fails).table.Keys == w.table.Keys - Ids(fails)
  {
    hide CheckOut, ReleaseAll;
    CheckOutTable(w, fails);
    var w1 := CheckOut(w, fails);
    ReleaseAllVersions(w1, if g in w1.store.grps then w1.store.grps[g].reqs else [], []);
  }

  lemma PutFailsWaiters(w: World, g: TokenReqGrp, fails: seq<NodeId>)
    requires Inv(w, Rest(false)) && g in w.store.grps && w.store.grps[g].err.Final()
    ensures var w' := Put(w, g, fails);
      forall r <- w.store.reqs :: w.store.reqs[r].stat == Init && r.id in fails ==>
        r in w'.store.reqs && w'.store.reqs[r].stat == Failed
  {
    hide Inv, CheckOut, ReleaseAll;
    FinalMeansSettled(w, g, false);
    CheckOutWaiters(w, fails);
    CheckOutKeeps(w, fails, false);
    var w1 := CheckOut(w, fails);
    ReleaseAllKeeps(w1, w1.store.grps[g].reqs, Rest(false));
  }

  lemma PutCallbacks(w: World, g: TokenReqGrp, fails: seq<NodeId>)
    ensures CallbacksOnly(w, Put(w, g, fails)) && CheckOut(w, fails).log <= Put(w, g, fails).log
  {
    hide CheckOut, ReleaseAll;
    CheckOutCallbacks(w, fails);
    var w1 := CheckOut(w, fails);
    ReleaseAllGrown(w1, if g in w1.store.grps then w1.store.grps[g].reqs else [], []);
  }

  // A get tells its own group by its result, and everybody else through the callback.
  lemma GetTells(w: World, g: TokenReqGrp, hs: seq<TokenReq>)
    ensures var (w', err) := Get(w, g, hs);
      var own := if err.Final() then [Returned(g, err)] else [];
      w.log + own <= w'.log && forall i | |w.log + own| <= i < |w'.log| :: w'.log[i].Callback?
  {
    hide AskAll, CheckIn, Put;
    AskedGrown(w, g, hs);
    var (w1, err) := Asked(w, g, hs);
    PutCallbacks(Answered(w1, g, err), g, []);
  }

  // Giving one request back does nothing if its node is gone or was granted under another fence.
  lemma ReleaseStale(w: World, r: TokenReq, due: seq<TokenReqGrp>)
    requires r in w.store.reqs
    requires w.store.reqs[r].stat != Got || r.id !in w.table || w.store.reqs[r].nodeid != w.table[r.id].fence
    ensures Release(w, r, due) == Sub(w, due)
  {
    if r.id in w.table {
      assert WithNode(w, r.id, w.table[r.id], w.store).table == w.table;
    }
  }

  // Otherwise its node has that much less in use and drains.
  lemma ReleaseDrains(w: World, r: TokenReq, m: Mid) returns (k: nat)
    requires Inv(w, m) && r in w.store.reqs && w.store.reqs[r].stat == Got && r.id in w.table
    requires w.store.reqs[r].nodeid == w.table[r.id].fence
    ensures var n, x := w.table[r.id], Release(w, r, m.due);
      && OtherNodesKept(w, x.world, r.id) && CountsKept(w, x.world) && x.world.log == w.log
      && Drained(n.(base := n.base.(inuse := Sub64(n.base.inuse, r.cost))), w.store, x.world.table[r.id], x.world.store, k)
      && k <= |n.queue| && x.due == Finals(w.store, n.queue, k) + m.due
  {
    hide Inv, Drain, Finals, Drained, Granted;
    var n := w.table[r.id];
    var n1 := n.(base := n.base.(inuse := Sub64(n.base.inuse, r.cost)));
    QueueWaits(w, r.id, m);
    k := Granted(n1.base, n1.queue);
    LongestPrefix(n1.base, n.queue);
    DrainIs(n1, w.store, m.due);
  }

  // ----- A get

  // What becomes of one request: it fails where the node is unknown, is granted where it fits, and else waits at the end.
  lemma AskEffect(w: World, r: TokenReq)
    requires Knows(w.store, r) && w.store.reqs[r].stat == Init
    ensures var w' := Ask(w, r).0;
      && w'.store.reqs.Keys == w.store.reqs.Keys && (forall x <- w.store.reqs :: x != r ==> w'.store.reqs[x] == w.store.reqs[x])
      && CountsKept(w, w') && w'.log == w.log
      && (r.id !in w.table ==> w'.table == w.table && w'.store.reqs[r].stat == Failed)
      && (r.id in w.table ==>
            && OtherNodesKept(w, w', r.id) && w'.store.reqs[r].nodeid == w.table[r.id].fence
            && var n, n' := w.table[r.id], w'.table[r.id];
               if Fits(n.base, r.cost)
               then w'.store.reqs[r].stat == Got && n' == n.(base := Charge(n.base, r.cost))
               else w'.store.reqs[r].stat == Init && n' == n.(queue := n.queue + [r], press := Add64(n.press, r.cost)))
  {
    hide Fits, Charge;
  }

  // Whatever becomes of a get, the unknown nodes it asks have joined as far as the node cache had room, and no node has
  // gone.
  lemma GetBrings(w: World, g: TokenReqGrp, hs: seq<TokenReq>)
    requires w.out.items <= w.limits.nodes && !OutOfMemory(w, hs)
    ensures var ids := NewIds(w.table.Keys, hs);
      Get(w, g, hs).0.table.Keys == w.table.Keys + Ids(ids[..Min(|ids|, w.limits.nodes - w.out.items)])
  {
    hide CheckIn, AskAll, Put;
    CheckInBrings(Admit(w, g, hs), hs);
    var w2 := CheckIn(Admit(w, g, hs), hs);
    AskAllVersions(w2, Reversed(hs));
    var (w3, err) := Asked(w, g, hs);
    PutTable(Answered(w3, g, err), g, []);
    assert Ids([]) == {};
  }

  // The group put is gone with its requests and their units; every other request and group is as it was.
  lemma RetireEffect(w: World, g: TokenReqGrp)
    requires StoreInv(w.store) && g in w.store.grps
    ensures var w' := Retire(w, g);
      && (forall r :: r in w'.store.reqs <==> r in w.store.reqs && r.grp != g)
      && (forall r <- w'.store.reqs :: w'.store.reqs[r] == w.store.reqs[r])
      && w'.store.grps == w.store.grps - {g}
      && w'.out == w.out.(grps := w.out.grps - 1, reqs := w.out.reqs - |w.store.grps[g].reqs|)
      && w'.table == w.table && w'.log == w.log && w'.version == w.version
  {
    hide Counted;
    LinkedIn(w.store);
  }

  // Distinct unused nodes, one for each request.
  ghost predicate AllFresh(w: World, rs: seq<TokenReq>) {
    && (forall i | 0 <= i < |rs| :: FreshAt(w, rs[i]))
    && (forall i, j | 0 <= i < j < |rs| :: rs[i].id != rs[j].id)
  }

  lemma {:induction false} FreshGrantAll(w: World, rs: seq<TokenReq>)
    requires AllFresh(w, rs)
    ensures var w' := AskAll(w, rs).0;
      && w'.store.reqs.Keys == w.store.reqs.Keys && w'.table.Keys == w.table.Keys
      && (forall r <- rs :: w'.store.reqs[r].stat == Got && w'.table[r.id].base.inuse == r.cost)
      && (forall r <- w.store.reqs :: r !in rs ==> w'.store.reqs[r] == w.store.reqs[r])
      && (forall id <- w.table :: (forall r <- rs :: r.id != id) ==> w'.table[id] == w.table[id])
    decreases |rs|
  {
    hide Ask;
    if rs == [] {
    } else {
      var r, w1 := rs[0], Ask(w, rs[0]).0;
      AskEffect(w, r);
      AskKeepsKnown(w, r);
      assert rs == [r] + rs[1..];
      FreshTail(w, rs);
      FreshGrantAll(w1, rs[1..]);
      assert AskAll(w, rs).0 == AskAll(w1, rs[1..]).0;
    }
  }

  lemma AskKeepsKnown(w: World, r: TokenReq)
    ensures Ask(w, r).0.store.grps.Keys == w.store.grps.Keys
  {
  }

  lemma FreshTail(w: World, rs: seq<TokenReq>)
    requires AllFresh(w, rs) && rs != []
    ensures AllFresh(Ask(w, rs[0]).0, rs[1..])
    ensures forall r <- rs[1..] :: r != rs[0] && r.id != rs[0].id
  {
    hide Ask, Fits, Charge;
    AskEffect(w, rs[0]);
    AskKeepsKnown(w, rs[0]);
    var w1 := Ask(w, rs[0]).0;
    forall i | 0 <= i < |rs[1..]|
      ensures Knows(w1.store, rs[1..][i]) && w1.store.reqs[rs[1..][i]].stat == Init && w1.table[rs[1..][i].id] == w.table[rs[1..][i].id]
    {
      assert rs[1..][i] == rs[i + 1];
    }
  }

  // Each of the requests asks a new node of its own for no more than an unused node can give.
  ghost predicate ForNewNodes(w: World, hs: seq<TokenReq>) {
    && (forall i | 0 <= i < |hs| :: hs[i].id !in w.table && hs[i].cost <= MIN_RS_NUM)
    && (forall i, j | 0 <= i < j < |hs| :: hs[i].id != hs[j].id)
  }

  // The nodes of the requests have joined, and each has what its request asked for in use.
  ghost predicate AllGranted(w: World, w': World, hs: seq<TokenReq>) {
    && w'.table.Keys == w.table.Keys + (set r | r in hs :: r.id)
    && (forall r <- hs :: r in w'.store.reqs && w'.store.reqs[r].stat == Got && w'.table[r.id].base.inuse == r.cost)
    && (forall id <- w.table :: w'.table[id] == w.table[id])
  }

  // A group that asks for what unused nodes can give gets it, if the caches have room.
  lemma NewNodesGrant(w: World, g: TokenReqGrp, hs: seq<TokenReq>)
    requires Inv(w, Rest(false)) && NewGroup(w, g, hs) && !OutOfMemory(w, hs)
    requires w.out.items + |hs| <= w.limits.nodes && ForNewNodes(w, hs)
    ensures var (w', err) := Get(w, g, hs); err == Ok && AllGranted(w, w', hs)
  {
    hide Inv, Asked, AllGranted, Put, ForNewNodes, NewGroup, Outcome;
    AskedNewNodes(w, g, hs);
    AskedKeeps(w, g, hs, false);
    GroupIsNew(w, g, hs, false);
    var (w', err) := Asked(w, g, hs);
    AllGotOk(w, g, hs, w'.store);
    assert Get(w, g, hs) == (Answered(w', g, err), err) by { GetAnswers(w, g, hs); }
    SameNodesAndStore(w, w', Answered(w', g, err), hs);
  }

  lemma GetAnswers(w: World, g: TokenReqGrp, hs: seq<TokenReq>)
    requires !OutOfMemory(w, hs) && Asked(w, g, hs).1 == Ok
    ensures Get(w, g, hs) == (Answered(Asked(w, g, hs).0, g, Ok), Ok)
  {
    hide CheckIn, AskAll;
  }

  lemma SameNodesAndStore(w: World, w1: World, w2: World, hs: seq<TokenReq>)
    requires AllGranted(w, w1, hs) && w2.table == w1.table && w2.store == w1.store
    ensures AllGranted(w, w2, hs)
  {
  }

  lemma AskedNewNodes(w: World, g: TokenReqGrp, hs: seq<TokenReq>)
    requires NewGroup(w, g, hs) && w.out.items + |hs| <= w.limits.nodes && ForNewNodes(w, hs)
    ensures var w' := Asked(w, g, hs).0;
      AllGranted(w, w', hs) && w'.store.reqs.Keys == w.store.reqs.Keys + Members(hs)
      && forall r <- hs :: w'.store.reqs[r].stat == Got
  {
    hide CheckIn, AskAll, Brought, AllFresh, Admit, Reversed, ForNewNodes;
    var w2 := CheckIn(Admit(w, g, hs), hs);
    NewNodesBrought(w, g, hs);
    BroughtFresh(w, g, hs, w2);
    FreshGrantAll(w2, Reversed(hs));
    InReversed(hs);
  }

  lemma InReversed(hs: seq<TokenReq>)
    ensures forall r :: r in Reversed(hs) <==> r in hs
  {
    ReversedMembers(hs);
    assert forall r :: r in Reversed(hs) <==> r in Members(Reversed(hs));
    assert forall r :: r in hs <==> r in Members(hs);
  }

  lemma IdsOf(hs: seq<TokenReq>)
    ensures Ids(IdSeq(hs)) == (set r | r in hs :: r.id)
  {
    var ids := IdSeq(hs);
    forall r <- hs
      ensures r.id in Ids(ids)
    {
      var i :| 0 <= i < |hs| && hs[i] == r;
      assert ids[i] == r.id;
    }
  }

  lemma {:induction false} AllNew(known: set<NodeId>, hs: seq<TokenReq>)
    requires forall i | 0 <= i < |hs| :: hs[i].id !in known
    requires forall i, j | 0 <= i < j < |hs| :: hs[i].id != hs[j].id
    ensures NewIds(known, hs) == IdSeq(hs)
  {
    if hs == [] {
    } else {
      AllNew(known, hs[..|hs| - 1]);
    }
  }

  lemma NewNodesBrought(w: World, g: TokenReqGrp, hs: seq<TokenReq>)
    requires w.out.items + |hs| <= w.limits.nodes && ForNewNodes(w, hs)
    ensures Brought(Admit(w, g, hs), CheckIn(Admit(w, g, hs), hs), IdSeq(hs))
  {
    hide Brought, CheckIn;
    AllNew(w.table.Keys, hs);
    CheckInBrings(Admit(w, g, hs), hs);
    var ids := NewIds(w.table.Keys, hs);
    assert ids[..|ids|] == ids;
  }

  ghost function IdSeq(hs: seq<TokenReq>): seq<NodeId> {
    seq(|hs|, i requires 0 <= i < |hs| => hs[i].id)
  }

  lemma BroughtFresh(w: World, g: TokenReqGrp, hs: seq<TokenReq>, w2: World)
    requires Brought(Admit(w, g, hs), w2, IdSeq(hs))
    requires (forall r <- hs :: r.grp == g) && ForNewNodes(w, hs)
    ensures AllFresh(w2, Reversed(hs)) && w2.table.Keys == w.table.Keys + (set r | r in hs :: r.id)
    ensures w2.store.reqs.Keys == w.store.reqs.Keys + Members(hs)
    ensures forall id <- w.table :: w2.table[id] == w.table[id]
    ensures forall r <- Reversed(hs) :: r.id !in w.table
  {
    hide Admit, AllFresh;
    IdsOf(hs);
    InReversed(hs);
    AdmitKeys(w, g, hs);
    forall i | 0 <= i < |hs|
      ensures FreshAt(w2, hs[i])
    {
      BroughtOne(w, g, hs, w2, i);
    }
    FreshReversed(w2, hs);
    forall r <- Reversed(hs)
      ensures r.id !in w.table
    {
      assert r in hs;
      var i :| 0 <= i < |hs| && hs[i] == r;
      assert hs[i].id !in w.table;
    }
  }

  ghost predicate FreshAt(w: World, r: TokenReq) {
    && Knows(w.store, r) && w.store.reqs[r].stat == Init && r.cost <= MIN_RS_NUM
    && r.id in w.table && w.table[r.id].base == Base(0, MIN_RS_NUM, MIN_RS_NUM, 0)
  }

  lemma AdmitKeys(w: World, g: TokenReqGrp, hs: seq<TokenReq>)
    ensures var w' := Admit(w, g, hs); w'.table == w.table && w'.store.reqs.Keys == w.store.reqs.Keys + Members(hs)
  {
  }

  lemma BroughtOne(w: World, g: TokenReqGrp, hs: seq<TokenReq>, w2: World, i: nat)
    requires i < |hs| && Brought(Admit(w, g, hs), w2, IdSeq(hs)) && hs[i].grp == g && hs[i].cost <= MIN_RS_NUM
    ensures FreshAt(w2, hs[i])
  {
    assert IdSeq(hs)[i] == hs[i].id && hs[i].id in Ids(IdSeq(hs));
    assert hs[i] in Members(hs);
  }

  lemma FreshReversed(w: World, hs: seq<TokenReq>)
    requires forall i | 0 <= i < |hs| :: FreshAt(w, hs[i])
    requires forall i, j | 0 <= i < j < |hs| :: hs[i].id != hs[j].id
    ensures AllFresh(w, Reversed(hs))
  {
    forall i | 0 <= i < |hs|
      ensures FreshAt(w, Reversed(hs)[i])
    {
      assert FreshAt(w, hs[|hs| - 1 - i]);
    }
  }

  lemma AllGotOk(w: World, g: TokenReqGrp, hs: seq<TokenReq>, s: Store)
    requires Inv(w, Rest(false)) && g !in w.store.grps && s.reqs.Keys == w.store.reqs.Keys + Members(hs)
    requires forall r <- hs :: s.reqs[r].stat == Got
    ensures Outcome(s, g) == Ok
  {
    hide Counted, Owned, Charged, Pressed, Fenced, Delivered, Accounted;
    LinkedIn(w.store);
    assert forall r <- s.reqs :: r.grp == g ==> r in Members(hs);
  }
}
