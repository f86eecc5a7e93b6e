/** What holds after every legal run of the manager, read off the invariant. */
module Results {
  import opened Words
  import opened Objects
  import opened Quota
  import opened Groups
  import opened Sums
  import opened NodeSpec
  import opened WorldSpec
  import opened Invariant
  import opened Steps
  import opened Bounds
  import opened Waiters
  import opened Neutral
  import opened Telling
  import opened Frozen
  import opened Versions

  ghost function After(limits: Limits, ops: seq<Op>): World {
    Run(Start(limits), ops)
  }

  ghost predicate LegalFrom(limits: Limits, ops: seq<Op>) {
    LegalRun(Start(limits), ops)
  }

  lemma AfterHolds(limits: Limits, ops: seq<Op>, fair: bool)
    requires LegalFrom(limits, ops) && (fair ==> FairRun(ops))
    ensures Inv(After(limits, ops), Rest(fair))
  {
    StartHolds(limits, fair);
    RunKeeps(Start(limits), ops, fair);
  }

  // ----- Charge conservation

  // A node's tokens in use are the costs of what it granted and was not given back, up to the word;
  // on a fair run the equation is exact.
  lemma ChargeConservation(limits: Limits, ops: seq<Op>, id: NodeId)
    requires LegalFrom(limits, ops) && id in After(limits, ops).table
    ensures var w := After(limits, ops);
      var n := w.table[id];
      && n.base.inuse == Held(Holders(w.store, n.fence, {})) % TWO64
      && (FairRun(ops) ==> n.base.inuse == Held(Holders(w.store, n.fence, {})))
  {
    var w := After(limits, ops);
    AfterHolds(limits, ops, FairRun(ops));
    HolderSum(w, id, FairRun(ops));
  }

  lemma HolderSum(w: World, id: NodeId, fair: bool)
    requires Charged(w, {}, fair) && id in w.table
    ensures var h := Held(Holders(w.store, w.table[id].fence, {}));
      w.table[id].base.inuse == h % TWO64 && (fair ==> w.table[id].base.inuse == h)
  {
  }

  // The code keeps fences in an `int`. As long as fewer than 2^32 have been handed out since the fence of a grant and
  // since that of the node of the same id, comparing them there is comparing them.
  lemma FencesAsInts(limits: Limits, ops: seq<Op>, r: TokenReq)
    requires LegalFrom(limits, ops)
    requires var w := After(limits, ops);
      && r in w.store.reqs && w.store.reqs[r].stat == Got && r.id in w.table
      && w.version - w.store.reqs[r].nodeid <= TWO32 && w.version - w.table[r.id].fence <= TWO32
    ensures var nodeid, fence := After(limits, ops).store.reqs[r].nodeid, After(limits, ops).table[r.id].fence;
      AsInt(nodeid) == AsInt(fence) <==> nodeid == fence
  {
    hide StoreInv, Owned, Charged, Pressed, Delivered, Accounted, Run, LegalRun;
    AfterHolds(limits, ops, false);
  }

  // ----- Ownership

  // Where a request waits: all pairs of a node and a position in its queue.
  ghost function Places(w: World, r: TokenReq): set<(NodeId, int)> {
    set id, i | id in w.table && 0 <= i < |w.table[id].queue| && w.table[id].queue[i] == r :: (id, i)
  }

  // Granted, failed, or waiting at exactly one place, under the fence of the node it named.
  lemma OwnershipPartition(limits: Limits, ops: seq<Op>, r: TokenReq)
    requires LegalFrom(limits, ops) && r in After(limits, ops).store.reqs
    ensures var w := After(limits, ops);
      && |Places(w, r)| == (if w.store.reqs[r].stat == Init then 1 else 0)
      && (w.store.reqs[r].stat == Init ==> r.id in w.table && w.store.reqs[r].nodeid == w.table[r.id].fence)
      && r.grp in w.store.grps && r in w.store.grps[r.grp].reqs
  {
    var w := After(limits, ops);
    AfterHolds(limits, ops, false);
    LinkedIn(w.store);
    PlacesOf(w, r);
  }

  lemma PlacesOf(w: World, r: TokenReq)
    requires Owned(w, {}) && r in w.store.reqs
    ensures |Places(w, r)| == (if w.store.reqs[r].stat == Init then 1 else 0)
    ensures w.store.reqs[r].stat == Init ==> r.id in w.table && w.store.reqs[r].nodeid == w.table[r.id].fence
  {
    forall id <- w.table, i | 0 <= i < |w.table[id].queue| && w.table[id].queue[i] == r
      ensures w.store.reqs[r].stat == Init && id == r.id
    {
      assert WaitsAt(w.store, w.table[id], id, r);
    }
    if w.store.reqs[r].stat == Init {
      var q := w.table[r.id].queue;
      var k :| 0 <= k < |q| && q[k] == r;
      assert WaitsAt(w.store, w.table[r.id], r.id, r);
      assert Places(w, r) == {(r.id, k)};
    } else {
      assert Places(w, r) == {};
    }
  }

  // Nothing but live requests of outstanding groups stands in a queue.
  lemma QueuesHoldLiveRequests(limits: Limits, ops: seq<Op>, id: NodeId, i: nat)
    requires LegalFrom(limits, ops) && id in After(limits, ops).table && i < |After(limits, ops).table[id].queue|
    ensures var w := After(limits, ops);
      var r := w.table[id].queue[i];
      r in w.store.reqs && w.store.reqs[r].stat == Init && r.id == id && r.grp in w.store.grps
  {
    AfterHolds(limits, ops, false);
    QueueEntry(After(limits, ops), id, i);
  }

  lemma QueueEntry(w: World, id: NodeId, i: nat)
    requires Owned(w, {}) && id in w.table && i < |w.table[id].queue|
    ensures WaitsAt(w.store, w.table[id], id, w.table[id].queue[i])
  {
  }

  // ----- Exactly-once completion

  ghost function Tellings(log: seq<Delivery>, g: TokenReqGrp): set<int> {
    set i | 0 <= i < |log| && log[i].grp == g
  }

  // Every group admitted is told once, as soon as none of its requests is unsettled and never before, and a group never
  // admitted is never told anything. What is told is final, is what the group's requests showed when it was told, and
  // for a group still outstanding is what they show now.
  lemma ExactlyOnce(limits: Limits, ops: seq<Op>, g: TokenReqGrp)
    requires LegalFrom(limits, ops)
    ensures var w := After(limits, ops);
      var open := g in w.store.grps && Inits(w.store, g) != {};
      && |Tellings(w.log, g)| == (if g in w.admitted && !open then 1 else 0)
      && (forall i <- Tellings(w.log, g) :: w.log[i].err.Final()
            && (exists j: nat :: MadeBy(Start(limits), ops, i, j))
            && (g in w.store.grps ==> (w.log[i].err == Ok <==> !AnyFailed(w.store, g))))
  {
    hide StoreInv, Owned, Charged, Pressed, Fenced, Delivered, Accounted, MadeBy, Run, LegalRun;
    var w := After(limits, ops);
    AfterHolds(limits, ops, false);
    StartHolds(limits, false);
    CountedIn(w.store);
    OnceAtRest(w, g);
    forall i <- Tellings(w.log, g)
      ensures exists j: nat :: MadeBy(Start(limits), ops, i, j)
    {
      var j := RunTellsTruly(Start(limits), ops, i);
    }
  }

  lemma CountedIn(s: Store)
    requires StoreInv(s)
    ensures Counted(s)
  {
  }

  lemma OnceAtRest(w: World, g: TokenReqGrp)
    requires Delivered(w, []) && Counted(w.store)
    ensures var open := g in w.store.grps && Inits(w.store, g) != {};
      && |Tellings(w.log, g)| == (if g in w.admitted && !open then 1 else 0)
      && (forall i <- Tellings(w.log, g) :: w.log[i].err.Final()
            && (g in w.store.grps ==> (w.log[i].err == Ok <==> !AnyFailed(w.store, g))))
  {
    if k :| 0 <= k < |w.log| && w.log[k].grp == g {
      assert Tellings(w.log, g) == {k};
      assert g in w.admitted;
    } else {
      assert Tellings(w.log, g) == {};
      assert !Told(w.log, g);
    }
  }

  // The result of a get is the outcome of its own requests: OK when all were granted, FAILEDNODE when all are
  // settled and one failed, PENDING while one waits; it is MEMORY exactly when a cache runs out, and then
  // nothing has changed. A final result is the next entry of the log, and any other makes none.
  lemma GetReports(limits: Limits, ops: seq<Op>, g: TokenReqGrp, hs: seq<TokenReq>)
    requires LegalFrom(limits, ops) && NewGroup(After(limits, ops), g, hs)
    ensures var w := After(limits, ops);
      var (w', err) := Get(w, g, hs);
      && (err == Memory <==> OutOfMemory(w, hs))
      && (err == Memory ==> w' == w)
      && (!OutOfMemory(w, hs) ==> err == Outcome(Asked(w, g, hs).0.store, g))
      && (if err.Final() then w.log + [Returned(g, err)] <= w'.log else w'.log == w.log)
      && (err == Pending ==> g in w'.store.grps && Inits(w'.store, g) != {})
      && (err == Ok ==> g in w'.store.grps && (forall r <- hs :: r in w'.store.reqs && w'.store.reqs[r].stat == Got))
      && (err == FailedNode ==> g !in w'.store.grps && (forall r <- hs :: r !in w'.store.reqs))
  {
    hide Inv, NewGroup, Run, LegalRun;
    var w := After(limits, ops);
    AfterHolds(limits, ops, false);
    GetGrown(w, g, hs);
    if !OutOfMemory(w, hs) {
      AskedKeeps(w, g, hs, false);
      AskedRequests(w, g, hs);
      var (w1, err) := Asked(w, g, hs);
      if err == FailedNode {
        AnsweredKeeps(w1, g, err, false);
        PutForgets(Answered(w1, g, err), g);
      }
    }
  }

  // While it is asked for, a group consists of the requests of the get.
  lemma AskedRequests(w: World, g: TokenReqGrp, hs: seq<TokenReq>)
    requires Inv(w, Rest(false)) && NewGroup(w, g, hs) && !OutOfMemory(w, hs)
    ensures var (w', err) := Asked(w, g, hs);
      && (forall r <- hs :: r in w'.store.reqs && r.grp == g)
      && (err == Ok ==> forall r <- hs :: w'.store.reqs[r].stat == Got)
  {
    hide StoreInv, Owned, Charged, Pressed, Fenced, Delivered, Accounted;
    LimitsHold(w, false);
    AdmitStep(w, g, hs, false);
    var w1, m := Admit(w, g, hs), Mid(Members(hs), {}, [], false);
    CheckInKeeps(w1, hs, m);
    var w2 := CheckIn(w1, hs);
    ReversedMembers(hs);
    AskAllKeys(w2, Reversed(hs));
    AskedKeeps(w, g, hs, false);
    var (w', err) := Asked(w, g, hs);
    forall r <- hs
      ensures r in w'.store.reqs && r.grp == g
      ensures err == Ok ==> w'.store.reqs[r].stat == Got
    {
      assert r in Members(hs);
      if err == Ok {
        assert r !in Inits(w'.store, g) && !AnyFailed(w'.store, g);
        assert w'.store.reqs[r].stat != Failed;
      }
    }
  }

  lemma {:induction false} AskAllKeys(w: World, rs: seq<TokenReq>)
    ensures AskAll(w, rs).0.store.reqs.Keys == w.store.reqs.Keys
    decreases |rs|
  {
    if |rs| <= 1 {
    } else {
      AskAllKeys(Ask(w, rs[0]).0, rs[1..]);
    }
  }

  lemma PutForgets(w: World, g: TokenReqGrp)
    requires Inv(w, Rest(false)) && g in w.store.grps && w.store.grps[g].err.Final()
    ensures var w' := Put(w, g, []);
      g !in w'.store.grps && (forall r <- w.store.reqs :: r.grp == g ==> r !in w'.store.reqs)
  {
    hide StoreInv, Owned, Charged, Pressed, Fenced, Delivered, Accounted, ReleaseAll;
    FinalMeansSettled(w, g, false);
    ReleaseAllKeeps(w, w.store.grps[g].reqs, Rest(false));
    ListedIfMember(w, g);
  }

  // ----- Caches

  // Every unit of every cache is accounted for, and the table insert of a new node finds a free item.
  lemma CacheAccounting(limits: Limits, ops: seq<Op>)
    requires LegalFrom(limits, ops)
    ensures var w := After(limits, ops);
      && w.out.grps == |w.store.grps| <= limits.grps
      && w.out.reqs == |w.store.reqs| <= limits.reqs
      && w.out.items == w.out.tabItems == |w.table| <= limits.nodes
      && (w.out.items != limits.nodes ==> w.out.tabItems < limits.nodes)
  {
    AfterHolds(limits, ops, false);
    RunLimits(Start(limits), ops);
  }

  lemma {:induction false} RunLimits(w: World, ops: seq<Op>)
    ensures Run(w, ops).limits == w.limits
    decreases |ops|
  {
    if ops == [] {
    } else {
      StepLimits(w, ops[0]);
      RunLimits(Step(w, ops[0]), ops[1..]);
    }
  }

  lemma StepLimits(w: World, op: Op)
    ensures Step(w, op).limits == w.limits
  {
    hide Get, Put;
    match op
    case OpGet(g, hs) => GetVersions(w, g, hs);
    case OpPut(g, fails) => PutVersions(w, g, fails);
    case _ =>
  }

  // ----- The reported press

  // `press` is the sum of the waiting costs up to the word; the message carries its low 16 bits, and is right
  // exactly while the sum fits into them.
  lemma PressReported(limits: Limits, ops: seq<Op>, id: NodeId)
    requires LegalFrom(limits, ops) && id in After(limits, ops).table
    ensures var n := After(limits, ops).table[id];
      && n.press == Waiting(n.queue) % TWO64
      && 0 <= Depth(n.press) < DEPTH_RANGE && Depth(n.press) == Waiting(n.queue) % DEPTH_RANGE
      && (Depth(n.press) == Waiting(n.queue) <==> Waiting(n.queue) < DEPTH_RANGE)
  {
    hide StoreInv, Owned, Charged, Pressed, Fenced, Delivered, Accounted, Run, Waiting, LegalRun;
    AfterHolds(limits, ops, false);
    PressedAt(After(limits, ops), id);
  }

  lemma PressedAt(w: World, id: NodeId)
    requires Pressed(w) && id in w.table
    ensures var n := w.table[id];
      && n.press == Waiting(n.queue) % TWO64
      && 0 <= Depth(n.press) < DEPTH_RANGE && Depth(n.press) == Waiting(n.queue) % DEPTH_RANGE
      && (Depth(n.press) == Waiting(n.queue) <==> Waiting(n.queue) < DEPTH_RANGE)
  {
    hide Waiting;
    LowBits(Waiting(w.table[id].queue));
  }

  lemma LowBits(x: nat)
    ensures x % TWO64 % DEPTH_RANGE == x % DEPTH_RANGE
  {
    var q, r := x / TWO64, x % TWO64;
    assert x == (q * (TWO64 / DEPTH_RANGE)) * DEPTH_RANGE + r;
  }

  // ----- Fair runs

  // Whatever the totals and costs, a run whose operations meet the guards strands nobody.
  lemma SafeRunsStrandNobody(limits: Limits, ops: seq<Op>, id: NodeId)
    requires SafeRun(Start(limits), ops) && id in After(limits, ops).table
    ensures var n := After(limits, ops).table[id];
      n.queue == [] || !Fits(n.base, n.queue[0].cost)
  {
    RunStrandsNobody(Start(limits), ops);
  }

  lemma AfterNoStranded(limits: Limits, ops: seq<Op>)
    requires LegalFrom(limits, ops) && FairRun(ops)
    ensures NoStranded(After(limits, ops))
  {
    StartHolds(limits, true);
    FairRunIsSafe(Start(limits), ops);
    RunStrandsNobody(Start(limits), ops);
  }

  // After every operation of a fair run each queue is empty or its head does not fit, in exact arithmetic.
  lemma NoStrandedWaiter(limits: Limits, ops: seq<Op>, id: NodeId)
    requires LegalFrom(limits, ops) && FairRun(ops) && id in After(limits, ops).table
    ensures var n := After(limits, ops).table[id];
      n.queue == [] || n.base.quota < n.queue[0].cost + n.base.inuse
  {
    AfterNoStranded(limits, ops);
    AfterHolds(limits, ops, true);
    var w := After(limits, ops);
    IsExact(w, Rest(true));
    if w.table[id].queue != [] {
      ExactKept(w.table[id].base, w.table[id].queue[0].cost, MIN_RS_NUM, 0);
    }
  }

  // No node ever has more in use than the largest quota its incarnation has had.
  lemma BoundedUse(limits: Limits, ops: seq<Op>, id: NodeId)
    requires LegalFrom(limits, ops) && FairRun(ops) && id in After(limits, ops).table
    ensures var n := After(limits, ops).table[id];
      n.base.inuse <= Peak(Start(limits), ops, id, n.fence)
  {
    StartHolds(limits, true);
    RunBounded(Start(limits), ops, id, After(limits, ops).table[id].fence);
    PeakPositive(Start(limits), ops, id, After(limits, ops).table[id].fence);
  }

  // Whatever is done next to a node above its quota, its use does not grow unless its quota has grown past it.
  lemma OverQuotaNeverGains(limits: Limits, ops: seq<Op>, op: Op, id: NodeId)
    requires LegalFrom(limits, ops) && FairRun(ops) && Legal(After(limits, ops), op) && FairOp(op)
    requires var w := After(limits, ops);
      id in w.table && id in Step(w, op).table && w.table[id].fence == Step(w, op).table[id].fence
    requires var b := After(limits, ops).table[id].base; b.quota < b.inuse
    ensures var w := After(limits, ops);
      var b, b' := w.table[id].base, Step(w, op).table[id].base;
      b'.inuse <= b.inuse || b.quota < b.inuse < b'.inuse <= b'.quota
  {
    hide StoreInv, Owned, Charged, Pressed, Fenced, Delivered, Accounted, Step, NoStranded, Legal;
    AfterNoStranded(limits, ops);
    AfterHolds(limits, ops, true);
    var w := After(limits, ops);
    StepBounded(w, op, id, w.table[id].fence);
  }

  // A node that stays above its quota whatever the operation gives back to it grants nothing, unless the operation is
  // a message that raises its quota: the grants under its fence are the old ones less those given back. For any
  // operation but a put nothing is given back.
  lemma OverQuotaGrantsNothing(limits: Limits, ops: seq<Op>, op: Op, id: NodeId)
    requires LegalFrom(limits, ops) && FairRun(ops) && Legal(After(limits, ops), op) && id in After(limits, ops).table
    requires var w := After(limits, ops);
      var n := w.table[id];
      !Raises(w, op, n.fence) && n.base.quota + Held(Returning(w, op, n.fence)) < n.base.inuse
    ensures var w := After(limits, ops);
      var fence := w.table[id].fence;
      Holders(Step(w, op).store, fence, {}) == Holders(w.store, fence, {}) - Returning(w, op, fence)
  {
    hide Inv, Step, Legal, Returning, Raises, Held, Run, LegalRun, NoRoom;
    AfterHolds(limits, ops, true);
    var w := After(limits, ops);
    var fence := w.table[id].fence;
    RoomOfOne(w, id, Held(Returning(w, op, fence)));
    StepGrantsNothing(w, op, fence);
  }

  lemma RoomOfOne(w: World, id: NodeId, back: nat)
    requires Inv(w, Rest(true)) && id in w.table && w.table[id].base.quota + back < w.table[id].base.inuse
    ensures NoRoom(w, w.table[id].fence, back) && w.table[id].fence < w.version
  {
  }

  // ----- A run

  // A request too large for a new node waits, is granted by a message, and its group is told once by a callback;
  // after the put nothing is left but the node, with nothing in use.
  lemma WaitGrantPut(limits: Limits, g: TokenReqGrp, r: TokenReq)
    requires r.grp == g && MIN_RS_NUM < r.cost <= 20 && 0 < limits.nodes && 0 < limits.grps && 0 < limits.reqs
    ensures var ops := [OpGet(g, [r]), OpRcvd(r.id, 20, 1), OpPut(g, [])];
      && LegalFrom(limits, ops) && FairRun(ops)
      && After(limits, ops).log == [Callback(g, Ok)]
      && After(limits, ops).table == map[r.id := Node(Base(0, 20, 20, 1), [], 0, 0)]
      && After(limits, ops).store == Store(map[], map[])
  {
    hide Step, Legal;
    var w0, w1, w2 := Start(limits), Waiter(limits, g, r), Holder(limits, g, r);
    Waits(limits, g, r);
    Holds(limits, g, r);
    GivesBack(limits, g, r);
    var op1, op2, op3 := OpGet(g, [r]), OpRcvd(r.id, 20, 1), OpPut(g, []);
    assert Run(w2, [op3]) == Step(w2, op3) && LegalRun(w2, [op3]);
    assert [op2, op3][1..] == [op3];
    assert Run(w1, [op2, op3]) == Step(w2, op3) && LegalRun(w1, [op2, op3]);
    assert [op1, op2, op3][1..] == [op2, op3];
  }

  // The manager with one group of one request, which waits.
  ghost function Waiter(limits: Limits, g: TokenReqGrp, r: TokenReq): World {
    World(limits, map[r.id := Node(INITIAL, [r], r.cost, 0)], 1,
          Store(map[r := Req(Init, 0)], map[g := Grp([r], 1, false, Pending)]), Out(1, 1, 1, 1), {g}, [])
  }

  // The same, once a quota of 20 has arrived.
  ghost function Holder(limits: Limits, g: TokenReqGrp, r: TokenReq): World {
    World(limits, map[r.id := Node(Base(r.cost, 20, 20, 1), [], 0, 0)], 1,
          Store(map[r := Req(Got, 0)], map[g := Grp([r], 0, false, Ok)]), Out(1, 1, 1, 1), {g}, [Callback(g, Ok)])
  }

  lemma NewNodeQueues(s: Store, r: TokenReq)
    requires r in s.reqs && s.reqs[r] == Req(Init, 0) && MIN_RS_NUM < r.cost
    ensures Alloc(Fresh(0), s, r) == (Node(INITIAL, [r], r.cost, 0), s, Pending)
  {
    assert s.reqs[r := Req(Init, 0)] == s.reqs;
    assert [] + [r] == [r];
  }

  lemma Waits(limits: Limits, g: TokenReqGrp, r: TokenReq)
    requires r.grp == g && MIN_RS_NUM < r.cost <= 20 && 0 < limits.nodes && 0 < limits.grps && 0 < limits.reqs
    ensures Legal(Start(limits), OpGet(g, [r])) && Step(Start(limits), OpGet(g, [r])) == Waiter(limits, g, r)
  {
    hide Alloc;
    var w := Admit(Start(limits), g, [r]);
    assert Reversed([r]) == [r] && Members([r]) == {r};
    assert w.store == Waiter(limits, g, r).store;
    assert CheckIn(w, [r]) == Online(w, r.id);
    NewNodeQueues(w.store, r);
    var w1 := Online(w, r.id);
    assert w1.table == map[r.id := Fresh(0)] && w1.store == w.store;
    assert Ask(w1, r).0.table == Waiter(limits, g, r).table;
  }

  lemma Holds(limits: Limits, g: TokenReqGrp, r: TokenReq)
    requires r.grp == g && MIN_RS_NUM < r.cost <= 20
    ensures var op := OpRcvd(r.id, 20, 1);
      Legal(Waiter(limits, g, r), op) && Step(Waiter(limits, g, r), op) == Holder(limits, g, r)
  {
    var w := Waiter(limits, g, r);
    var n := w.table[r.id].(base := Base(0, 20, 20, 1));
    var (s, err) := Finish(w.store, r, true);
    var n' := Node(Base(r.cost, 20, 20, 1), [], 0, 0);
    assert Pop(n).(base := Charge(n.base, r.cost)) == n';
    assert Drain(n', s, [g]) == Effect(n', s, [g]);
    assert Drain(n, w.store, []) == Effect(n', s, [g] + []);
    assert Callbacks(s, [g]) == [Callback(g, Ok)];
  }

  lemma GivesBack(limits: Limits, g: TokenReqGrp, r: TokenReq)
    requires r.grp == g && MIN_RS_NUM < r.cost <= 20
    ensures var w := Holder(limits, g, r);
      var w' := Step(w, OpPut(g, []));
      && Legal(w, OpPut(g, [])) && w'.log == w.log && w'.store == Store(map[], map[])
      && w'.table == map[r.id := Node(Base(0, 20, 20, 1), [], 0, 0)]
  {
    var w := Holder(limits, g, r);
    var x := Release(w, r, []);
    assert x.due == [] && x.world.table == map[r.id := Node(Base(0, 20, 20, 1), [], 0, 0)];
    assert ReleaseAll(w, [r], []) == x;
    assert Members([r]) == {r} && Callbacks(x.world.store, []) == [];
  }

  // ----- Getting and putting back

  // After any fair run, a group that completed within its get and is put back leaves no trace.
  lemma GetPutLeavesNoTrace(limits: Limits, ops: seq<Op>, g: TokenReqGrp, hs: seq<TokenReq>)
    requires LegalFrom(limits, ops) && FairRun(ops) && NewGroup(After(limits, ops), g, hs)
    ensures var w := After(limits, ops);
      var (w1, err) := Get(w, g, hs);
      && (err == Ok ==> NoTrace(w, Put(w1, g, [])) && Put(w1, g, []).log == w.log + [Returned(g, Ok)])
      && (err == FailedNode ==> NoTrace(w, w1) && w1.log == w.log + [Returned(g, FailedNode)])
      && (err == Memory ==> w1 == w)
  {
    hide StoreInv, Owned, Charged, Pressed, Fenced, Delivered, Accounted, NoStranded, Get, Put, NoTrace, NewGroup;
    AfterNoStranded(limits, ops);
    AfterHolds(limits, ops, true);
    GetPutNeutral(After(limits, ops), g, hs);
  }

  lemma PeakPositive(w: World, ops: seq<Op>, id: NodeId, fence: int)
    ensures 0 <= Peak(w, ops, id, fence)
  {
  }
}
