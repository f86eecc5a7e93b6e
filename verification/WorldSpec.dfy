/**
  The token manager (sysqos_token_reqgrp_manager.c) on values.

  A world holds the node table, the live requests and groups, the caches and, as history, every
  group ever admitted and every outcome delivered. One operation is one atomic step.
 */
module WorldSpec {
  import opened Words
  import opened Objects
  import opened Quota
  import opened NodeSpec

  // The three `cache_unit` limits; the table's own item cache has the limit of the node cache.
  datatype Limits = Limits(nodes: nat, grps: nat, reqs: nat)

  // Outstanding units of the caches.
  datatype Out = Out(items: int, tabItems: int, grps: int, reqs: int)

  // An outcome handed to the application, as the result of `get` or through `token_grp_got`.
  datatype Delivery = Returned(grp: TokenReqGrp, err: Err) | Callback(grp: TokenReqGrp, err: Err)

  datatype World = World(
    limits: Limits,
    table: map<NodeId, Node>,
    version: int,
    store: Store,
    out: Out,
    admitted: set<TokenReqGrp>,
    log: seq<Delivery>)

  function Start(limits: Limits): World {
    World(limits, map[], 0, Store(map[], map[]), Out(0, 0, 0, 0), {}, [])
  }

  // ----- Nodes

  // `node_online`: a fence is consumed even when the id turns out to be present.
  ghost function Online(w: World, id: NodeId): World {
    if w.out.items == w.limits.nodes then w
    else if id in w.table then w.(version := w.version + 1)
    else w.(table := w.table[id := Fresh(w.version)], version := w.version + 1,
            out := w.out.(items := w.out.items + 1, tabItems := w.out.tabItems + 1))
  }

  ghost function Callbacks(s: Store, due: seq<TokenReqGrp>): seq<Delivery> {
    seq(|due|, i requires 0 <= i < |due| =>
      Callback(due[i], if due[i] in s.grps then s.grps[due[i]].err else Pending))
  }

  // `end_token_grps`
  ghost function Tell(w: World, due: seq<TokenReqGrp>): World {
    w.(log := w.log + Callbacks(w.store, due))
  }

  ghost function WithNode(w: World, id: NodeId, n: Node, s: Store): World {
    w.(table := w.table[id := n], store := s)
  }

  ghost function RemoveNode(w: World, id: NodeId): World {
    w.(table := w.table - {id}, out := w.out.(items := w.out.items - 1, tabItems := w.out.tabItems - 1))
  }

  // `node_offline`: fail the waiters, drop the node, then tell the groups that completed.
  ghost function Offline(w: World, id: NodeId): World {
    if id !in w.table then w
    else
      var e := PopAll(w.table[id], w.store, []);
      Tell(RemoveNode(WithNode(w, id, e.node, e.store), id), e.due)
  }

  // `node_reset`
  ghost function ResetNode(w: World, id: NodeId): World {
    if id !in w.table then w
    else w.(table := w.table[id := w.table[id].(base := Reset(w.table[id].base))])
  }

  // `rcvd`: a message for an unknown node only brings the node online.
  ghost function Rcvd(w: World, id: NodeId, total: U64, ver: int): World {
    if id !in w.table then Online(w, id)
    else
      var (e, reset) := Change(w.table[id], w.store, total, ver);
      var w' := WithNode(w, id, e.node, e.store);
      Tell(if reset then ResetNode(w', id) else w', e.due)
  }

  // ----- Getting a group

  ghost function Reversed<T>(s: seq<T>): seq<T> {
    seq(|s|, i requires 0 <= i < |s| => s[|s| - 1 - i])
  }

  ghost function Members(q: seq<TokenReq>): set<TokenReq> {
    set r | r in q
  }

  // `token_reqgrp_init`: requests asked for in the order `hs` are listed front first.
  ghost function Admit(w: World, g: TokenReqGrp, hs: seq<TokenReq>): World {
    w.(store := Store(w.store.reqs + map r | r in Members(hs) :: Req(Init, 0),
                      w.store.grps[g := Grp(Reversed(hs), |hs|, false, Pending)]),
       out := w.out.(grps := w.out.grps + 1, reqs := w.out.reqs + |hs|),
       admitted := w.admitted + {g})
  }

  // `check_node_in_when_get`
  ghost function CheckIn(w: World, hs: seq<TokenReq>): World
    decreases |hs|
  {
    if hs == [] then w
    else CheckIn(if hs[0].id in w.table then w else Online(w, hs[0].id), hs[1..])
  }

  // `try_to_alloc_from_manager_nolock`
  ghost function Ask(w: World, r: TokenReq): (World, Err) {
    if r.id !in w.table then
      var (s', err) := Finish(w.store, r, false);
      (w.(store := s'), err)
    else
      var (n', s', err) := Alloc(w.table[r.id], w.store, r);
      (WithNode(w, r.id, n', s'), err)
  }

  // `try_to_get_tokens`: the result of the last request is the result of all.
  ghost function AskAll(w: World, rs: seq<TokenReq>): (World, Err)
    decreases |rs|
  {
    if rs == [] then (w, Ok)
    else if |rs| == 1 then Ask(w, rs[0])
    else AskAll(Ask(w, rs[0]).0, rs[1..])
  }

  // ----- Putting a group

  // A step under the manager lock: the world, and the groups completed, latest first.
  datatype Sub = Sub(world: World, due: seq<TokenReqGrp>)

  // `try_to_free_to_manager_nolock`, for a granted request only.
  ghost function Release(w: World, r: TokenReq, due: seq<TokenReqGrp>): Sub {
    if r in w.store.reqs && w.store.reqs[r].stat == Got && r.id in w.table then
      var e := Free(w.table[r.id], w.store, r, due);
      Sub(WithNode(w, r.id, e.node, e.store), e.due)
    else Sub(w, due)
  }

  // `try_to_put_tokens`
  ghost function ReleaseAll(w: World, rs: seq<TokenReq>, due: seq<TokenReqGrp>): Sub
    decreases |rs|
  {
    if rs == [] then Sub(w, due)
    else
      var x := Release(w, rs[0], due);
      ReleaseAll(x.world, rs[1..], x.due)
  }

  // `token_reqgrp_exit` and the release of the group itself.
  ghost function Retire(w: World, g: TokenReqGrp): World {
    if g !in w.store.grps then w else
    var rs := Members(w.store.grps[g].reqs);
    w.(store := Store(w.store.reqs - rs, w.store.grps - {g}),
       out := w.out.(grps := w.out.grps - 1, reqs := w.out.reqs - |w.store.grps[g].reqs|))
  }

  // `check_node_out_when_put`
  ghost function CheckOut(w: World, ids: seq<NodeId>): World
    decreases |ids|
  {
    if ids == [] then w else CheckOut(Offline(w, ids[0]), ids[1..])
  }

  // `put_token_grp`
  ghost function Put(w: World, g: TokenReqGrp, fails: seq<NodeId>): World {
    var w1 := CheckOut(w, fails);
    var x := ReleaseAll(w1, if g in w1.store.grps then w1.store.grps[g].reqs else [], []);
    Retire(Tell(x.world, x.due), g)
  }

  // `get_token_grp`. A final outcome is the caller's to know, and a failed group is put at once.
  ghost function Get(w: World, g: TokenReqGrp, hs: seq<TokenReq>): (World, Err) {
    if w.out.grps == w.limits.grps || w.limits.reqs < w.out.reqs + |hs| then (w, Memory)
    else
      var (w', err) := AskAll(CheckIn(Admit(w, g, hs), hs), Reversed(hs));
      var w'' := if err.Final() then w'.(log := w'.log + [Returned(g, err)]) else w';
      (if err == FailedNode then Put(w'', g, []) else w'', err)
  }

  // ----- Runs

  datatype Op =
    | OpGet(grp: TokenReqGrp, hs: seq<TokenReq>)
    | OpPut(grp: TokenReqGrp, fails: seq<NodeId>)
    | OpOnline(id: NodeId)
    | OpOffline(id: NodeId)
    | OpReset(id: NodeId)
    | OpRcvd(id: NodeId, total: U64, ver: int)

  ghost predicate NewGroup(w: World, g: TokenReqGrp, hs: seq<TokenReq>) {
    g !in w.admitted && hs != [] && NoDup(hs) && forall r <- hs :: r.grp == g
  }

  // What the engine asks of its callers: a get brings new objects, a put brings a group that has its outcome.
  ghost predicate Legal(w: World, op: Op) {
    match op
    case OpGet(g, hs) => NewGroup(w, g, hs)
    case OpPut(g, _) => g in w.store.grps && w.store.grps[g].err.Final()
    case _ => true
  }

  ghost function Step(w: World, op: Op): World {
    match op
    case OpGet(g, hs) => Get(w, g, hs).0
    case OpPut(g, fails) => Put(w, g, fails)
    case OpOnline(id) => Online(w, id)
    case OpOffline(id) => Offline(w, id)
    case OpReset(id) => ResetNode(w, id)
    case OpRcvd(id, total, ver) => Rcvd(w, id, total, ver)
  }

  ghost function Run(w: World, ops: seq<Op>): World
    decreases |ops|
  {
    if ops == [] then w else Run(Step(w, ops[0]), ops[1..])
  }

  ghost predicate LegalRun(w: World, ops: seq<Op>)
    decreases |ops|
  {
    ops == [] || (Legal(w, ops[0]) && LegalRun(Step(w, ops[0]), ops[1..]))
  }

  // The environment of a fair run sends no total below the smallest quota, and none that fills a word.
  predicate FairOp(op: Op) {
    op.OpRcvd? ==> Fair(op.total)
  }

  ghost predicate FairRun(ops: seq<Op>) {
    forall i :: 0 <= i < |ops| ==> FairOp(ops[i])
  }
}
