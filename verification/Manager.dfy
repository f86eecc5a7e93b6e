/** The token manager as an object (sysqos_token_reqgrp_manager.c); each method is one step of `World`. */
module Managers {
  import opened Words
  import opened Objects
  import opened Groups
  import opened NodeSpec
  import opened WorldSpec
  import opened Invariant
  import opened Steps
  import opened DispatchNodes
  import opened Caches

  datatype Resource = Resource(id: NodeId, cost: Cost)

  // The requests `hs` mirror the resources asked for.
  ghost predicate Mirrors(hs: seq<TokenReq>, g: TokenReqGrp, resources: seq<Resource>) {
    && |hs| == |resources| && NoDup(hs)
    && (forall i | 0 <= i < |hs| :: hs[i].grp == g && hs[i].id == resources[i].id && hs[i].cost == resources[i].cost)
  }

  ghost function BasesOf(t: map<NodeId, DispatchNode>): set<BaseNode> {
    set id | id in t :: t[id].base
  }

  ghost function ListsOf(t: map<NodeId, DispatchNode>): set<NodeReqList> {
    set id | id in t :: t[id].waiters
  }

  // The three ways of `node_online`.
  lemma OnlineIs(w: WorldSpec.World, id: NodeId)
    ensures w.out.items == w.limits.nodes ==> Online(w, id) == w
    ensures w.out.items != w.limits.nodes && id in w.table ==> Online(w, id) == w.(version := w.version + 1)
    ensures w.out.items != w.limits.nodes && id !in w.table ==>
      Online(w, id) == w.(table := w.table[id := Fresh(w.version)], version := w.version + 1,
                          out := w.out.(items := w.out.items + 1, tabItems := w.out.tabItems + 1))
  {
  }

  lemma LeftCount<V>(t: map<NodeId, V>, id: NodeId)
    requires id in t
    ensures |t - {id}| == |t| - 1
  {
    assert (t - {id}).Keys == t.Keys - {id};
    assert |t - {id}| == |(t - {id}).Keys| && |t| == |t.Keys|;
  }

  class Manager {
    const itemCache: MemoryCache   // manager_item_cache
    const tabCache: MemoryCache    // the item cache of app_node_table
    const grpCache: MemoryCache    // token_grp_cache
    const reqCache: MemoryCache    // resource_cache
    var table: map<NodeId, DispatchNode>
    var version: int
    var log: seq<Delivery>
    ghost var rs: set<TokenReq>
    ghost var gs: set<TokenReqGrp>
    ghost var admitted: set<TokenReqGrp>

    ghost function Bases(): set<BaseNode>
      reads this`table
    {
      BasesOf(table)
    }

    ghost function Lists(): set<NodeReqList>
      reads this`table
    {
      ListsOf(table)
    }

    // All of the structure but the node cache.
    ghost predicate Structure()
      reads this`table, this`rs, this`gs, Lists(), tabCache, grpCache, reqCache
    {
      && itemCache != tabCache && itemCache != grpCache && itemCache != reqCache
      && tabCache != grpCache && tabCache != reqCache && grpCache != reqCache
      && tabCache.Counts() && grpCache.Counts() && reqCache.Counts()
      && |table| == tabCache.out <= tabCache.unit == itemCache.unit
      && (forall x <- table, y <- table :: x != y ==> table[x].base != table[y].base && table[x].waiters != table[y].waiters)
      && (forall id <- table :: table[id].Knows(rs, gs))
      && (forall r <- rs :: r.grp in gs)
    }

    ghost predicate Valid()
      reads this`table, this`rs, this`gs, Lists(), itemCache, tabCache, grpCache, reqCache
    {
      Structure() && itemCache.Counts() && itemCache.out == |table|
    }

    ghost function Nodes(): map<NodeId, Node>
      reads this`table, Bases(), Lists()
    {
      map id | id in table :: table[id].Value()
    }

    // The world but for the node items taken.
    ghost function Core(): World
      reads this, Bases(), Lists(), rs, gs, tabCache, grpCache, reqCache
    {
      World(Limits(itemCache.unit, grpCache.unit, reqCache.unit), Nodes(), version, Snap(rs, gs),
            Out(0, tabCache.out, grpCache.out, reqCache.out), admitted, log)
    }

    ghost function Value(): World
      reads this, Bases(), Lists(), rs, gs, itemCache, tabCache, grpCache, reqCache
    {
      Core().(out := Core().out.(items := itemCache.out))
    }

    // Every node of the table was there before, or is made of new objects.
    twostate predicate OldOrFresh()
      reads this
    {
      forall id <- table ::
        (id in old(table) && table[id] == old(table)[id]) || (fresh(table[id].base) && fresh(table[id].waiters))
    }

    constructor (maxGrps: U64, maxReqs: U64, maxNodes: U64)
      ensures Valid() && Value() == Start(Limits(maxNodes, maxGrps, maxReqs))
      ensures fresh(itemCache) && fresh(tabCache) && fresh(grpCache) && fresh(reqCache)
    {
      itemCache := new MemoryCache(maxNodes);
      tabCache := new MemoryCache(maxNodes);
      grpCache := new MemoryCache(maxGrps);
      reqCache := new MemoryCache(maxReqs);
      table, version, log, rs, gs, admitted := map[], 0, [], {}, {}, {};
    }

    // ----- Telling

    method EndTokenGrps(due: seq<TokenReqGrp>)
      requires Valid() && AllIn(due, gs)
      modifies this`log
      ensures Valid() && Value() == Tell(old(Value()), due)
    {
      var i := 0;
      ghost var news := Callbacks(Snap(rs, gs), due);
      while i < |due|
        invariant 0 <= i <= |due| && log == old(log) + news[..i]
      {
        hide Valid, Value;
        log := log + [Callback(due[i], due[i].err)];
        i := i + 1;
      }
    }

    // ----- One node

    lemma StoreIs()
      ensures Value().store == Snap(rs, gs)
    {
    }

    lemma TableIs()
      ensures Value().table.Keys == table.Keys
    {
    }

    // What the structure says of one node.
    lemma NodeParts(id: NodeId)
      requires Valid() && id in table
      ensures table[id].Knows(rs, gs) && table[id].base in Bases() && table[id].waiters in Lists()
      ensures forall x <- table :: x != id ==> table[x].base != table[id].base && table[x].waiters != table[id].waiters
    {
    }

    lemma KnownGroups()
      requires Valid()
      ensures forall r <- rs :: r.grp in gs
      ensures itemCache.Counts() && tabCache.Counts() && grpCache.Counts() && reqCache.Counts()
      ensures |table| == itemCache.out == tabCache.out <= itemCache.unit == tabCache.unit
      ensures itemCache != tabCache && itemCache != grpCache && itemCache != reqCache
      ensures tabCache != grpCache && tabCache != reqCache && grpCache != reqCache
    {
    }

    // The table differs from what it was at one node only.
    twostate lemma NodeStepped(id: NodeId)
      requires old(Valid()) && id in table && table == old(table) && rs == old(rs) && gs == old(gs)
      requires version == old(version) && log == old(log) && admitted == old(admitted)
      requires forall x <- table :: x != id ==> unchanged(table[x].base) && unchanged(table[x].waiters)
      requires unchanged(itemCache) && unchanged(tabCache) && unchanged(grpCache) && unchanged(reqCache)
      requires table[id].Knows(rs, gs)
      ensures Valid()
      ensures Value() == WithNode(old(Value()), id, table[id].Value(), Snap(rs, gs))
      ensures old(Value()).table[id] == old(table[id].Value()) && old(Value()).store == old(Snap(rs, gs))
    {
      hide Snap;
      assert Nodes() == old(Nodes())[id := table[id].Value()];
    }

    // Only requests and groups changed.
    twostate lemma StoreStepped()
      requires old(Valid()) && table == old(table) && rs == old(rs) && gs == old(gs)
      requires version == old(version) && log == old(log) && admitted == old(admitted)
      requires forall x <- table :: unchanged(table[x].base) && unchanged(table[x].waiters)
      requires unchanged(itemCache) && unchanged(tabCache) && unchanged(grpCache) && unchanged(reqCache)
      ensures Valid() && Value() == old(Value()).(store := Snap(rs, gs)) && old(Value()).store == old(Snap(rs, gs))
    {
      hide Snap;
      assert Nodes() == old(Nodes());
    }

    method TryToAlloc(grp: TokenReqGrp, rip: TokenReq) returns (err: Err)
      requires Valid() && rip in rs && rip.grp == grp
      modifies Bases(), Lists(), rs, gs
      ensures Valid() && (Value(), err) == Ask(old(Value()), rip)
    {
      hide Snap, Finish, Alloc, Valid, Value;
      KnownGroups();
      TableIs();
      if rip.id !in table {
        err := grp.ToFailed(rip, rs, gs);
        StoreStepped();
      } else {
        var item := table[rip.id];
        NodeParts(rip.id);
        err := item.AllocResource(rip, rs, gs);
        NodeStepped(rip.id);
      }
    }

    method TryToFree(r: TokenReq, due: seq<TokenReqGrp>) returns (due': seq<TokenReqGrp>)
      requires Valid() && r in rs && r.stat == Got && AllIn(due, gs)
      modifies Bases(), Lists(), rs, gs
      ensures Valid() && AllIn(due', gs) && Sub(Value(), due') == Release(old(Value()), r, due)
    {
      hide Finish, Free, Valid, Value;
      due' := due;
      KnownGroups();
      TableIs();
      StoreIs();
      if r.id in table {
        var item := table[r.id];
        NodeParts(r.id);
        due' := item.FreeResource(r, due, rs, gs);
        NodeStepped(r.id);
      }
    }

    // ----- The events

    // A node of new objects joins the table and takes an item of the table's cache.
    twostate lemma JoinedNodes(id: NodeId, new item: DispatchNode)
      requires id !in old(table) && table == old(table)[id := item]
      requires forall x <- old(table) :: unchanged(table[x].base) && unchanged(table[x].waiters)
      ensures Nodes() == old(Nodes())[id := item.Value()]
    {
    }

    twostate lemma JoinedStructure(id: NodeId, new item: DispatchNode)
      requires old(Structure()) && id !in old(table) && table == old(table)[id := item]
      requires unchanged(`rs, `gs) && unchanged(old(Lists()))
      requires item.base !in old(Bases()) && item.waiters !in old(Lists()) && item.waiters.list == []
      requires unchanged(grpCache) && unchanged(reqCache)
      requires tabCache.Counts() && tabCache.out == old(tabCache.out) + 1 <= tabCache.unit
      ensures Structure()
    {
      hide MemoryCache.Counts;
      AddedCount(old(table), table, {id});
      forall x <- old(table)
        ensures table[x].base in old(Bases()) && table[x].waiters in old(Lists())
      {
      }
    }

    // The insert of the hash table: an item is taken first, and asserted to be there.
    method Insert(id: NodeId, item: DispatchNode) returns (inserted: bool)
      requires Structure() && |table| < tabCache.unit
      requires item.base !in Bases() && item.waiters !in Lists() && item.waiters.list == []
      modifies this`table, tabCache
      ensures Structure() && inserted == (id !in old(table))
      ensures inserted ==> table == old(table)[id := item] && Nodes() == old(Nodes())[id := item.Value()]
      ensures !inserted ==> table == old(table) && Nodes() == old(Nodes())
      ensures tabCache.out == old(tabCache.out) + if inserted then 1 else 0
    {
      hide MemoryCache.Counts, Nodes;
      var ok := tabCache.Alloc();
      assert ok;
      inserted := id !in table;
      if inserted {
        table := table[id := item];
        JoinedNodes(id, item);
        JoinedStructure(id, item);
      } else {
        tabCache.Free();
      }
    }

    // The new node is offered to the table under the next fence.
    method Enroll(id: NodeId) returns (inserted: bool)
      requires Structure() && |table| < tabCache.unit
      modifies this`table, this`version, tabCache
      ensures Structure() && OldOrFresh() && inserted == (id !in old(table))
      ensures |table| == |old(table)| + if inserted then 1 else 0
      ensures var w := old(Core());
        Core() == if inserted then
                    w.(table := w.table[id := Fresh(w.version)], version := w.version + 1,
                       out := w.out.(tabItems := w.out.tabItems + 1))
                  else w.(version := w.version + 1)
    {
      hide MemoryCache.Counts, Nodes, Snap, Fresh, DispatchNode.Value, DispatchNode.Knows;
      ghost var store := Snap(rs, gs);
      var item := new DispatchNode(version);
      version := version + 1;
      inserted := Insert(id, item);
      assert Snap(rs, gs) == store;
    }

    lemma CoreIs()
      ensures Core().table.Keys == table.Keys && Core().limits.nodes == itemCache.unit && Core().version == version
      ensures Structure() ==> |table| <= tabCache.unit == itemCache.unit && itemCache != tabCache && itemCache != grpCache && itemCache != reqCache
    {
    }

    method TakeItem() returns (ok: bool)
      requires Valid()
      modifies itemCache
      ensures Structure() && Core() == old(Core()) && itemCache.Counts()
      ensures ok == (|table| < itemCache.unit) && itemCache.out == |table| + if ok then 1 else 0
    {
      hide MemoryCache.Counts, Snap;
      ok := itemCache.Alloc();
      assert Nodes() == old(Nodes()) && Snap(rs, gs) == old(Snap(rs, gs));
    }

    method GiveItem()
      requires Structure() && itemCache.Counts()
      modifies itemCache
      ensures Structure() && Core() == old(Core()) && itemCache.Counts() && itemCache.out == old(itemCache.out) - 1
    {
      hide MemoryCache.Counts, Snap;
      itemCache.Free();
      assert Nodes() == old(Nodes()) && Snap(rs, gs) == old(Snap(rs, gs));
    }

    method NodeOnline(id: NodeId)
      requires Valid()
      modifies this`table, this`version, itemCache, tabCache
      ensures Valid() && Value() == Online(old(Value()), id)
      ensures OldOrFresh()
    {
      hide Structure, Core, Online, MemoryCache.Counts;
      CoreIs();
      OnlineIs(Value(), id);
      var ok := TakeItem();
      if ok {
        CoreIs();
        var inserted := Enroll(id);
        if !inserted {
          GiveItem();
        }
      }
    }

    // A node left the table; both caches took their unit back.
    twostate lemma NodeLeft(id: NodeId)
      requires old(Valid()) && id in old(table) && table == old(table) - {id}
      requires version == old(version) && rs == old(rs) && gs == old(gs) && log == old(log) && admitted == old(admitted)
      requires forall x <- table :: unchanged(table[x].base) && unchanged(table[x].waiters)
      requires unchanged(rs) && unchanged(gs) && unchanged(grpCache) && unchanged(reqCache)
      requires itemCache.Counts() && tabCache.Counts()
      requires itemCache.out == old(itemCache.out) - 1 == tabCache.out
      ensures Valid() && Bases() <= old(Bases()) && Lists() <= old(Lists())
      ensures Value() == RemoveNode(old(Value()), id)
    {
      hide Snap;
      LeftCount(old(table), id);
      assert Nodes() == old(Nodes()) - {id};
    }

    method Erase(id: NodeId)
      requires Valid() && id in table
      modifies this`table, itemCache, tabCache
      ensures Valid() && Value() == RemoveNode(old(Value()), id)
      ensures Bases() <= old(Bases()) && Lists() <= old(Lists())
    {
      hide Valid, Value, BasesOf, ListsOf;
      KnownGroups();
      table := table - {id};
      tabCache.Free();
      itemCache.Free();
      NodeLeft(id);
    }

    method NodeOffline(id: NodeId)
      requires Valid()
      modifies this`table, this`log, itemCache, tabCache, Lists(), rs, gs
      ensures Valid() && Value() == Offline(old(Value()), id)
      ensures Bases() <= old(Bases()) && Lists() <= old(Lists())
    {
      hide Valid, Value, PopAll;
      TableIs();
      if id !in table {
        return;
      }
      KnownGroups();
      NodeParts(id);
      var item := table[id];
      var due := item.PopAllWaiters([], rs, gs);
      NodeStepped(id);
      Erase(id);
      EndTokenGrps(due);
    }

    method NodeReset(id: NodeId)
      requires Valid()
      modifies Bases()
      ensures Valid() && Value() == ResetNode(old(Value()), id)
    {
      hide Valid, Value;
      TableIs();
      if id in table {
        KnownGroups();
        NodeParts(id);
        table[id].ResetNode();
        NodeStepped(id);
      }
    }

    // What a message for a node in the table does, before anyone is told.
    method TakeMessage(id: NodeId, total: U64, ver: int) returns (due: seq<TokenReqGrp>, toReset: bool)
      requires Valid() && id in table
      modifies Bases(), Lists(), rs, gs
      ensures Valid() && AllIn(due, gs)
      ensures id in old(Value()).table
      ensures var (e, reset) := Change(old(Value()).table[id], old(Value()).store, total, ver);
        Value() == WithNode(old(Value()), id, e.node, e.store) && due == e.due && toReset == reset
    {
      hide Valid, Value, Change;
      KnownGroups();
      TableIs();
      NodeParts(id);
      var item := table[id];
      due, toReset := item.ResourceChanged(total, ver, rs, gs);
      NodeStepped(id);
    }

    // The retry of the loop is never taken: `continue` leaves `do ... while (0)`.
    method Rcvd(id: NodeId, total: U64, ver: int)
      requires Valid()
      modifies this`table, this`version, this`log, itemCache, tabCache, Bases(), Lists(), rs, gs
      ensures Valid() && Value() == WorldSpec.Rcvd(old(Value()), id, total, ver)
      ensures OldOrFresh()
    {
      hide Valid, Value, Change;
      TableIs();
      if id !in table {
        NodeOnline(id);
      } else {
        var due, toReset := TakeMessage(id, total, ver);
        if toReset {
          NodeReset(id);
        }
        EndTokenGrps(due);
      }
    }

    // `snd_msg_buf`: what a node tells its dispatcher.
    method SndMsgBuf(id: NodeId) returns (err: Err, depth: int, ver: int, inuse: U64)
      requires Valid()
      ensures err == if id in Value().table then Ok else FailedNode
      ensures err == Ok ==> var n := Value().table[id];
        depth == Depth(n.press) && ver == n.base.version && inuse == n.base.inuse
    {
      TableIs();
      err, depth, ver, inuse := FailedNode, 0, 0, 0;
      if id in table {
        var item := table[id];
        assert Value().table[id] == item.Value();
        return Ok, Depth(item.waiters.press), item.base.version, item.base.inuse;
      }
    }

    // ----- Getting

    method CheckNodeIn(resources: seq<Resource>, ghost hs: seq<TokenReq>)
      requires Valid() && |hs| == |resources| && forall i | 0 <= i < |hs| :: hs[i].id == resources[i].id
      modifies this`table, this`version, itemCache, tabCache
      ensures Valid() && Value() == CheckIn(old(Value()), hs)
      ensures OldOrFresh()
    {
      hide Valid, Value, BasesOf, ListsOf, Online;
      var i := 0;
      while i < |resources|
        invariant 0 <= i <= |resources| && Valid()
        invariant CheckIn(Value(), hs[i..]) == CheckIn(old(Value()), hs)
        invariant OldOrFresh()
      {
        TableIs();
        if resources[i].id !in table {
          NodeOnline(resources[i].id);
        }
        assert hs[i..][1..] == hs[i + 1..];
        i := i + 1;
      }
    }

    method TryToGetTokens(grp: TokenReqGrp) returns (err: Err)
      requires Valid() && forall i | 0 <= i < |grp.reqs| :: grp.reqs[i] in rs && grp.reqs[i].grp == grp
      modifies Bases(), Lists(), rs, gs
      ensures Valid() && (Value(), err) == AskAll(old(Value()), old(grp.reqs))
    {
      err := Ok;
      var i, reqs := 0, grp.reqs;
      while i < |reqs|
        invariant 0 <= i <= |reqs| && Valid()
        invariant if i < |reqs| then AskAll(Value(), reqs[i..]) == AskAll(old(Value()), reqs)
                  else (Value(), err) == AskAll(old(Value()), reqs)
      {
        ghost var w := Value();
        err := TryToAlloc(grp, reqs[i]);
        assert reqs[i..][1..] == reqs[i + 1..];
        i := i + 1;
      }
    }

    // `token_reqgrp_init`: one request for each resource, listed front first; all or none.
    method InitGroup(grp: TokenReqGrp, resources: seq<Resource>) returns (ok: bool, ghost hs: seq<TokenReq>)
      requires reqCache.Counts() && 0 <= reqCache.out <= reqCache.unit
      requires grp.reqs == [] && grp.pending == 0 && !grp.failedExist && grp.err == Pending
      modifies grp, reqCache
      ensures reqCache.Counts() && ok == (old(reqCache.out) + |resources| <= reqCache.unit)
      ensures reqCache.out == old(reqCache.out) + if ok then |resources| else 0
      ensures ok ==> Mirrors(hs, grp, resources) && BrandNew(hs)
      ensures ok ==> grp.reqs == Reversed(hs) && grp.pending == |hs| && !grp.failedExist && grp.err == Pending
    {
      hide MemoryCache.Counts;
      ok, hs := true, [];
      var i := 0;
      while i < |resources|
        invariant 0 <= i <= |resources| && ok && |hs| == i
        invariant reqCache.Counts() && reqCache.out == old(reqCache.out) + i <= reqCache.unit
        invariant Mirrors(hs, grp, resources[..i]) && BrandNew(hs)
        invariant grp.reqs == Reversed(hs) && grp.pending == i && !grp.failedExist && grp.err == Pending
      {
        ok := reqCache.Alloc();
        if !ok {
          break;
        }
        var r := new TokenReq(grp, resources[i].id, resources[i].cost);
        grp.reqs := [r] + grp.reqs;
        grp.pending := grp.pending + 1;
        assert Reversed(hs + [r]) == [r] + Reversed(hs);
        hs := hs + [r];
        i := i + 1;
      }
      if !ok {
        FreeRequests(|grp.reqs|);
      } else {
        assert resources[..i] == resources;
      }
    }

    twostate predicate BrandNew(new hs: seq<TokenReq>)
      reads hs
    {
      forall i | 0 <= i < |hs| :: fresh(hs[i]) && hs[i].stat == Init && hs[i].nodeid == 0
    }

    // New objects joined the live sets.
    twostate lemma SnapJoined(new grp: TokenReqGrp, new hs: seq<TokenReq>)
      requires fresh(grp) && BrandNew(hs) && unchanged(old(rs)) && unchanged(old(gs))
      requires rs == old(rs) + Members(hs) && gs == old(gs) + {grp}
      requires grp.reqs == Reversed(hs) && grp.pending == |hs| && !grp.failedExist && grp.err == Pending
      ensures var s := old(Snap(rs, gs));
        Snap(rs, gs) == Store(s.reqs + map r | r in Members(hs) :: Req(Init, 0), s.grps[grp := Grp(Reversed(hs), |hs|, false, Pending)])
    {
      var s := old(Snap(rs, gs));
      assert Snap(rs, gs).reqs == s.reqs + map r | r in Members(hs) :: Req(Init, 0);
      assert Snap(rs, gs).grps == s.grps[grp := Grp(Reversed(hs), |hs|, false, Pending)];
    }

    // The group and its requests joined the live sets; their units are taken.
    twostate lemma GroupJoined(new grp: TokenReqGrp, new hs: seq<TokenReq>)
      requires old(Structure()) && unchanged(`table, `version, `log)
      requires forall x <- table :: unchanged(table[x].base) && unchanged(table[x].waiters)
      requires fresh(grp) && BrandNew(hs) && unchanged(old(rs)) && unchanged(old(gs))
      requires rs == old(rs) + Members(hs) && gs == old(gs) + {grp} && admitted == old(admitted) + {grp}
      requires forall i | 0 <= i < |hs| :: hs[i].grp == grp
      requires grp.reqs == Reversed(hs) && grp.pending == |hs| && !grp.failedExist && grp.err == Pending
      requires unchanged(tabCache)
      requires grpCache.Counts() && grpCache.out == old(grpCache.out) + 1
      requires reqCache.Counts() && reqCache.out == old(reqCache.out) + |hs|
      ensures Structure() && Core() == Admit(old(Core()), grp, hs)
    {
      hide Snap, MemoryCache.Counts;
      SnapJoined(grp, hs);
      assert Nodes() == old(Nodes());
    }

    // No group came of it; only counters of the caches may have moved.
    twostate lemma NothingJoined()
      requires old(Structure()) && unchanged(`table, `version, `log, `rs, `gs, `admitted)
      requires forall x <- table :: unchanged(table[x].base) && unchanged(table[x].waiters)
      requires unchanged(rs) && unchanged(gs) && unchanged(tabCache)
      requires grpCache.Counts() && grpCache.out == old(grpCache.out)
      requires reqCache.Counts() && reqCache.out == old(reqCache.out)
      ensures Structure() && Core() == old(Core())
    {
      hide Snap, MemoryCache.Counts;
      assert Nodes() == old(Nodes());
    }

    // The two allocations of a get; on failure everything taken has gone back.
    method AdmitGroup(resources: seq<Resource>) returns (grp: TokenReqGrp?, ghost hs: seq<TokenReq>)
      requires Structure() && 0 <= grpCache.out <= grpCache.unit && 0 <= reqCache.out <= reqCache.unit
      modifies this`rs, this`gs, this`admitted, grpCache, reqCache
      ensures Structure()
      ensures grp == null <==> old(grpCache.out) == grpCache.unit || reqCache.unit < old(reqCache.out) + |resources|
      ensures grp == null ==> Core() == old(Core())
      ensures grp != null ==> fresh(grp) && Mirrors(hs, grp, resources) && Core() == Admit(old(Core()), grp, hs)
      ensures grp != null ==> (forall i | 0 <= i < |hs| :: fresh(hs[i])) && rs == old(rs) + Members(hs) && gs == old(gs) + {grp}
      ensures grp != null ==> grp.reqs == Reversed(hs)
    {
      hide Structure, Core, MemoryCache.Counts;
      StructureParts();
      grp, hs := null, [];
      var ok := grpCache.Alloc();
      if ok {
        grp := new TokenReqGrp();
        ok, hs := InitGroup(grp, resources);
        if ok {
          rs, gs, admitted := rs + Members(hs), gs + {grp}, admitted + {grp};
          GroupJoined(grp, hs);
          return;
        }
        grpCache.Free();
        grp := null;
      }
      NothingJoined();
    }

    lemma StructureParts()
      requires Structure()
      ensures grpCache.Counts() && reqCache.Counts()
      ensures itemCache != tabCache && itemCache != grpCache && itemCache != reqCache
      ensures tabCache != grpCache && tabCache != reqCache && grpCache != reqCache
    {
    }

    // ----- What the invariant says of the objects

    lemma GroupIs(grp: TokenReqGrp)
      requires Valid() && grp in gs
      ensures grp in Value().store.grps && Value().store.grps[grp] == Grp(grp.reqs, grp.pending, grp.failedExist, grp.err)
      ensures Value().store.reqs.Keys == rs && Value().store.grps.Keys == gs
    {
    }

    lemma LinkedHere(grp: TokenReqGrp)
      requires Valid() && grp in gs && Inv(Value(), Rest(false))
      ensures forall i | 0 <= i < |grp.reqs| :: grp.reqs[i] in rs && grp.reqs[i].grp == grp
    {
      hide Owned, Charged, Pressed, Fenced, Delivered, Accounted, Valid;
      GroupIs(grp);
      LinkedIn(Value().store);
    }

    lemma SettledHere(grp: TokenReqGrp, freed: set<TokenReq>)
      requires Valid() && grp in gs && Inv(Value(), Mid({}, freed, [], false)) && AllSettled(Value().store, grp)
      ensures forall i | 0 <= i < |grp.reqs| :: grp.reqs[i] in rs && grp.reqs[i].grp == grp
      ensures forall r <- rs :: r.grp == grp ==> r in grp.reqs
      ensures forall id <- table :: forall i | 0 <= i < |table[id].waiters.list| :: table[id].waiters.list[i].grp != grp
    {
      hide StoreInv, Owned, Charged, Pressed, Fenced, Delivered, Accounted, Valid;
      GroupIs(grp);
      LinkedIn(Value().store);
      NobodyWaits(Value(), grp);
      assert forall id <- table :: Value().table[id].queue == table[id].waiters.list;
    }

    // ----- Putting

    lemma StatIs(r: TokenReq)
      requires r in rs
      ensures r in Value().store.reqs && Value().store.reqs[r].stat == r.stat
    {
    }

    method TryToPutTokens(grp: TokenReqGrp) returns (due: seq<TokenReqGrp>)
      requires Valid() && forall i | 0 <= i < |grp.reqs| :: grp.reqs[i] in rs
      modifies Bases(), Lists(), rs, gs
      ensures Valid() && AllIn(due, gs) && Sub(Value(), due) == ReleaseAll(old(Value()), old(grp.reqs), [])
    {
      hide Valid, Value, Snap, Free;
      due := [];
      var i, reqs := 0, grp.reqs;
      while i < |reqs|
        invariant 0 <= i <= |reqs| && Valid() && AllIn(due, gs)
        invariant ReleaseAll(Value(), reqs[i..], due) == ReleaseAll(old(Value()), reqs, [])
      {
        StatIs(reqs[i]);
        if reqs[i].stat == Got {
          due := TryToFree(reqs[i], due);
        }
        assert reqs[i..][1..] == reqs[i + 1..];
        i := i + 1;
      }
    }

    method CheckNodeOut(fails: seq<NodeId>)
      requires Valid()
      modifies this`table, this`log, itemCache, tabCache, Lists(), rs, gs
      ensures Valid() && Value() == CheckOut(old(Value()), fails)
      ensures Bases() <= old(Bases()) && Lists() <= old(Lists())
    {
      var i := 0;
      while i < |fails|
        invariant 0 <= i <= |fails| && Valid()
        invariant CheckOut(Value(), fails[i..]) == CheckOut(old(Value()), fails)
        invariant Bases() <= old(Bases()) && Lists() <= old(Lists())
      {
        if fails[i] in table {
          NodeOffline(fails[i]);
        }
        assert fails[i..][1..] == fails[i + 1..];
        i := i + 1;
      }
    }

    // `token_reqgrp_exit` frees the requests one by one.
    method FreeRequests(n: nat)
      requires reqCache.Counts()
      modifies reqCache
      ensures reqCache.Counts() && reqCache.out == old(reqCache.out) - n
    {
      hide MemoryCache.Counts;
      var i := 0;
      while i < n
        invariant 0 <= i <= n && reqCache.Counts() && reqCache.out == old(reqCache.out) - i
      {
        reqCache.Free();
        i := i + 1;
      }
    }

    // The group and its requests left the live sets; their units went back.
    twostate lemma GroupLeft(grp: TokenReqGrp)
      requires old(Valid()) && grp in old(gs) && (forall r <- old(rs) :: r.grp == grp ==> r in grp.reqs)
      requires forall id <- table :: forall i | 0 <= i < |table[id].waiters.list| :: table[id].waiters.list[i].grp != grp
      requires forall i | 0 <= i < |grp.reqs| :: grp.reqs[i].grp == grp
      requires rs == old(rs) - Members(grp.reqs) && gs == old(gs) - {grp}
      requires table == old(table) && version == old(version) && log == old(log) && admitted == old(admitted)
      requires unchanged(old(rs)) && unchanged(old(gs)) && unchanged(Bases()) && unchanged(Lists())
      requires unchanged(itemCache) && unchanged(tabCache)
      requires grpCache.Counts() && grpCache.out == old(grpCache.out) - 1
      requires reqCache.Counts() && reqCache.out == old(reqCache.out) - |grp.reqs|
      ensures Valid() && Value() == Retire(old(Value()), grp)
    {
      hide Snap, MemoryCache.Counts;
      SnapRetired(old(rs), old(gs), grp);
      assert Snap(old(rs), old(gs)) == old(Snap(rs, gs));
      assert Nodes() == old(Nodes());
    }

    // `token_reqgrp_exit`, and the release of the group itself.
    method RetireGroup(grp: TokenReqGrp)
      requires Valid() && grp in gs && (forall r <- rs :: r.grp == grp ==> r in grp.reqs)
      requires forall id <- table :: forall i | 0 <= i < |table[id].waiters.list| :: table[id].waiters.list[i].grp != grp
      requires forall i | 0 <= i < |grp.reqs| :: grp.reqs[i].grp == grp
      modifies this`rs, this`gs, grpCache, reqCache
      ensures Valid() && Value() == Retire(old(Value()), grp)
    {
      hide Snap, Valid, Value, MemoryCache.Counts;
      KnownGroups();
      FreeRequests(|grp.reqs|);
      grpCache.Free();
      rs, gs := rs - Members(grp.reqs), gs - {grp};
      GroupLeft(grp);
    }

    method PutTokenGrp(grp: TokenReqGrp, fails: seq<NodeId>)
      requires Valid() && Inv(Value(), Rest(false)) && grp in gs && grp.err.Final()
      modifies this`table, this`log, this`rs, this`gs, itemCache, tabCache, grpCache, reqCache, Bases(), Lists(), rs, gs
      ensures Valid() && Value() == Put(old(Value()), grp, fails) && Inv(Value(), Rest(false))
    {
      hide Inv, Valid, Value, Snap, CheckOut, ReleaseAll;
      ghost var w := Value();
      GroupIs(grp);
      EmptiedKeeps(w, grp, fails, false);
      PutKeeps(w, grp, fails, false);
      CheckNodeOut(fails);
      CheckOutKeeps(w, fails, false);
      GroupIs(grp);
      LinkedHere(grp);
      var due := TryToPutTokens(grp);
      EndTokenGrps(due);
      assert Value() == Emptied(w, grp, fails);
      SettledHere(grp, GotOf(Value().store, Value().store.grps[grp].reqs));
      RetireGroup(grp);
    }

    // Brings the missing nodes online, then asks for the requests in list order.
    method AskGroup(grp: TokenReqGrp, resources: seq<Resource>, ghost hs: seq<TokenReq>) returns (err: Err)
      requires Valid() && Mirrors(hs, grp, resources) && grp.reqs == Reversed(hs) && Members(hs) <= rs
      modifies this`table, this`version, itemCache, tabCache, Bases(), Lists(), rs, gs
      ensures Valid() && OldOrFresh()
      ensures (Value(), err) == AskAll(CheckIn(old(Value()), hs), Reversed(hs))
    {
      hide Valid, Value;
      ReversedMembers(hs);
      forall i | 0 <= i < |grp.reqs|
        ensures grp.reqs[i] in rs && grp.reqs[i].grp == grp
      {
        assert grp.reqs[i] in Members(Reversed(hs));
      }
      CheckNodeIn(resources, hs);
      err := TryToGetTokens(grp);
    }

    // What `get` does with the result of its last request.
    method AnswerGet(grp: TokenReqGrp, err: Err)
      requires Valid() && grp in gs && grp.err == err && err != Memory
      requires Inv(Value(), Mid({}, {}, if err.Final() then [grp] else [], false))
      modifies this`table, this`log, this`rs, this`gs, itemCache, tabCache, grpCache, reqCache, Bases(), Lists(), rs, gs
      ensures Valid() && Inv(Value(), Rest(false))
      ensures var w := Answered(old(Value()), grp, err);
        Value() == if err == FailedNode then Put(w, grp, []) else w
    {
      hide Inv, Valid, Put, Snap, Nodes;
      GroupIs(grp);
      AnsweredKeeps(Value(), grp, err, false);
      if err == Ok || err == FailedNode {
        log := log + [Returned(grp, err)];
        Logged();
      }
      if err != Ok && err != Pending {
        PutTokenGrp(grp, []);
      }
    }

    twostate lemma Logged()
      requires old(Valid()) && unchanged(`table, `version, `rs, `gs, `admitted)
      requires forall x <- table :: unchanged(table[x].base) && unchanged(table[x].waiters)
      requires unchanged(rs) && unchanged(gs)
      requires unchanged(itemCache) && unchanged(tabCache) && unchanged(grpCache) && unchanged(reqCache)
      ensures Valid() && Value() == old(Value()).(log := log)
    {
      hide Snap, MemoryCache.Counts;
      assert Nodes() == old(Nodes());
    }

    method GetTokenGrp(resources: seq<Resource>) returns (err: Err, grp: TokenReqGrp?, ghost hs: seq<TokenReq>)
      requires Valid() && Inv(Value(), Rest(false)) && resources != []
      modifies this, itemCache, tabCache, grpCache, reqCache, Bases(), Lists(), rs, gs
      ensures Valid() && Inv(Value(), Rest(false))
      ensures err == Memory ==> Value() == old(Value())
      ensures err != Memory ==> grp != null && Mirrors(hs, grp, resources) && NewGroup(old(Value()), grp, hs)
      ensures err != Memory ==> (Value(), err) == Get(old(Value()), grp, hs)
      ensures err == Memory <==>
        old(Value()).out.grps == old(Value()).limits.grps || old(Value()).limits.reqs < old(Value()).out.reqs + |resources|
    {
      hide Inv, Valid, Value, Put;
      ghost var w := Value();
      grp, hs := Begin(resources);
      if grp == null {
        return Memory, null, [];
      }
      AskedKeeps(w, grp, hs, false);
      err := AskGroup(grp, resources, hs);
      assert (Value(), err) == Asked(w, grp, hs);
      GroupIs(grp);
      AnswerGet(grp, err);
    }

    // Takes the objects of a get.
    method Begin(resources: seq<Resource>) returns (grp: TokenReqGrp?, ghost hs: seq<TokenReq>)
      requires Valid() && Inv(Value(), Rest(false)) && resources != []
      modifies this`rs, this`gs, this`admitted, grpCache, reqCache
      ensures Valid()
      ensures grp == null ==> Value() == old(Value())
      ensures grp == null <==>
        old(Value()).out.grps == old(Value()).limits.grps || old(Value()).limits.reqs < old(Value()).out.reqs + |resources|
      ensures grp != null ==> Mirrors(hs, grp, resources) && NewGroup(old(Value()), grp, hs)
      ensures grp != null ==> Value() == Admit(old(Value()), grp, hs) && !OutOfMemory(old(Value()), hs)
      ensures grp != null ==> (forall i | 0 <= i < |hs| :: fresh(hs[i])) && fresh(grp)
      ensures grp != null ==> rs == old(rs) + Members(hs) && gs == old(gs) + {grp} && grp.reqs == Reversed(hs)
    {
      hide Structure, Core, Inv, MemoryCache.Counts;
      UnitsInRange();
      StructureParts();
      CoreOut();
      grp, hs := AdmitGroup(resources);
    }

    lemma CoreOut()
      ensures Core().out.grps == grpCache.out && Core().out.reqs == reqCache.out && Core().admitted == admitted
      ensures Core().limits == Limits(itemCache.unit, grpCache.unit, reqCache.unit)
    {
    }

    lemma UnitsInRange()
      requires Valid() && Inv(Value(), Rest(false))
      ensures 0 <= grpCache.out <= grpCache.unit && 0 <= reqCache.out <= reqCache.unit
    {
      hide StoreInv, Owned, Charged, Pressed, Fenced, Delivered;
    }
  }

  // The values of the objects left once a group is gone.
  lemma SnapRetired(rs: set<TokenReq>, gs: set<TokenReqGrp>, g: TokenReqGrp)
    requires g in gs
    ensures var s := Snap(rs, gs);
      && g in s.grps && s.grps[g].reqs == g.reqs
      && Snap(rs - Members(g.reqs), gs - {g}) == Store(s.reqs - Members(g.reqs), s.grps - {g})
  {
    var s := Snap(rs, gs);
    assert Snap(rs - Members(g.reqs), gs - {g}).reqs == s.reqs - Members(g.reqs);
    assert Snap(rs - Members(g.reqs), gs - {g}).grps == s.grps - {g};
  }
}
