/** The node objects (sysqos_dispatch_base_node.c, sysqos_nodereq_list.c, sysqos_dispatch_node.c). */
module DispatchNodes {
  import opened Words
  import opened Objects
  import opened Quota
  import opened NodeSpec

  class BaseNode {
    var inuse: U64
    var quota: U64
    var quotaNew: U64
    var version: int

    ghost function Value(): Base
      reads this
    {
      Base(inuse, quota, quotaNew, version)
    }

    constructor ()
      ensures Value() == INITIAL
    {
      inuse, version, quota, quotaNew := 0, 0, MIN_RS_NUM, MIN_RS_NUM;
    }

    method CheckUpdateTotalVersion(total: U64, ver: int) returns (increased: bool, toReset: bool)
      modifies this
      ensures Verdict(Value(), increased, toReset) == Update(old(Value()), total, ver)
    {
      increased := false;
      toReset := ver < version;
      if toReset || ver == version {
        return;
      }
      if quota < total {
        increased := true;
        quota, quotaNew := total, total;
      } else if quota > total {
        quotaNew := total;
        quota := Max(total, Sub64(quota, RESPOND_STEP));
      }
      version := ver;
    }

    method CheckAlloc(cost: Cost) returns (err: Err)
      ensures err == if Fits(Value(), cost) then Ok else Pending
    {
      err := if Add64(cost, inuse) > quota then Pending else Ok;
    }

    // A check, then the check again with the update; as one atomic step the second check agrees with the first.
    method TryAlloc(cost: Cost) returns (err: Err)
      modifies this
      ensures err == if Fits(old(Value()), cost) then Ok else Pending
      ensures Value() == if err == Ok then Charge(old(Value()), cost) else old(Value())
    {
      err := CheckAlloc(cost);
      if err != Ok {
        return;
      }
      if Add64(cost, inuse) <= quota {
        inuse := Add64(inuse, cost);
        if quotaNew < quota {
          quota := Max(quotaNew, Sub64(quota, RESPOND_STEP));
        }
      }
    }

    method Free(cost: Cost)
      modifies this
      ensures Value() == Discharge(old(Value()), cost)
    {
      inuse := Sub64(inuse, cost);
    }

    method ResetBase()
      modifies this
      ensures Value() == Reset(old(Value()))
    {
      quota, quotaNew, version := MIN_RS_NUM, MIN_RS_NUM, 0;
    }
  }

  class NodeReqList {
    var press: U64
    var list: seq<TokenReq>

    constructor ()
      ensures press == 0 && list == []
    {
      press, list := 0, [];
    }

    method PushBack(r: TokenReq)
      modifies this
      ensures list == old(list) + [r] && press == Add64(old(press), r.cost)
    {
      list := list + [r];
      press := Add64(press, r.cost);
    }

    method Front() returns (r: TokenReq?)
      ensures r == null <==> list == []
      ensures r != null ==> list == [r] + list[1..]
    {
      r := if list == [] then null else list[0];
    }

    method PopFront()
      modifies this
      ensures old(list) == [] ==> list == [] && press == old(press)
      ensures old(list) != [] ==> list == old(list)[1..] && press == Sub64(old(press), old(list)[0].cost)
    {
      if list != [] {
        press := Sub64(press, list[0].cost);
        list := list[1..];
      }
    }

    // The waiters leave in order; the press is cleared only when there were any.
    method PopAll() returns (rs: seq<TokenReq>)
      modifies this
      ensures rs == old(list) && list == [] && press == if rs == [] then old(press) else 0
    {
      rs := list;
      if list != [] {
        press := 0;
        list := [];
      }
    }
  }

  ghost predicate AllIn(due: seq<TokenReqGrp>, gs: set<TokenReqGrp>) {
    forall i | 0 <= i < |due| :: due[i] in gs
  }

  class DispatchNode {
    const base: BaseNode
    const waiters: NodeReqList
    const fence: int

    ghost function Value(): Node
      reads base, waiters
    {
      Node(base.Value(), waiters.list, waiters.press, fence)
    }

    // The objects of this node and the live requests and groups are where its waiters are.
    ghost predicate Knows(rs: set<TokenReq>, gs: set<TokenReqGrp>)
      reads waiters
    {
      forall i | 0 <= i < |waiters.list| :: waiters.list[i] in rs && waiters.list[i].grp in gs
    }

    constructor (fence: int)
      ensures this.fence == fence && fresh(base) && fresh(waiters) && Value() == Fresh(fence) && waiters.list == []
    {
      base := new BaseNode();
      waiters := new NodeReqList();
      this.fence := fence;
    }

    // Grants the head; the group joins the front of the list when that completed it.
    method ToGotIfFinal(r: TokenReq, due: seq<TokenReqGrp>, ghost rs: set<TokenReq>, ghost gs: set<TokenReqGrp>)
      returns (due': seq<TokenReqGrp>)
      requires r in rs && r.grp in gs
      modifies r, r.grp
      ensures var (s, err) := Finish(old(Snap(rs, gs)), r, true);
        Snap(rs, gs) == s && due' == Collect(r.grp, err, due)
      ensures AllIn(due, gs) ==> AllIn(due', gs)
    {
      var err := r.grp.ToGot(r, rs, gs);
      due' := if err == FailedNode || err == Ok then [r.grp] + due else due;
    }

    // One round of the drain: what the base charged for leaves the queue and is settled.
    method GrantHead(r: TokenReq, due: seq<TokenReqGrp>, ghost rs: set<TokenReq>, ghost gs: set<TokenReqGrp>)
      returns (due': seq<TokenReqGrp>)
      requires Knows(rs, gs) && waiters.list != [] && waiters.list[0] == r
      modifies waiters, r, r.grp
      ensures Knows(rs, gs) && Value() == Pop(old(Value()))
      ensures var (s, err) := Finish(old(Snap(rs, gs)), r, true);
        Snap(rs, gs) == s && due' == Collect(r.grp, err, due)
      ensures AllIn(due, gs) ==> AllIn(due', gs)
    {
      waiters.PopFront();
      due' := ToGotIfFinal(r, due, rs, gs);
    }

    method ResourceIncreased(due: seq<TokenReqGrp>, ghost rs: set<TokenReq>, ghost gs: set<TokenReqGrp>)
      returns (due': seq<TokenReqGrp>)
      requires Knows(rs, gs) && AllIn(due, gs)
      modifies base, waiters, rs, gs
      ensures Knows(rs, gs) && AllIn(due', gs)
      ensures Effect(Value(), Snap(rs, gs), due') == Drain(old(Value()), old(Snap(rs, gs)), due)
    {
      hide Snap, Finish, Collect;
      due' := due;
      var r := waiters.Front();
      while r != null
        invariant Knows(rs, gs) && AllIn(due', gs)
        invariant r == if waiters.list == [] then null else waiters.list[0]
        invariant Drain(Value(), Snap(rs, gs), due') == Drain(old(Value()), old(Snap(rs, gs)), due)
        decreases |waiters.list|
      {
        ghost var n, s := Value(), Snap(rs, gs);
        var err := base.TryAlloc(r.cost);
        assert Snap(rs, gs) == s;
        if err != Ok {
          break;
        }
        due' := GrantHead(r, due', rs, gs);
        assert Value() == Pop(n).(base := Charge(n.base, r.cost));
        r := waiters.Front();
      }
    }

    method ResourceChanged(total: U64, ver: int, ghost rs: set<TokenReq>, ghost gs: set<TokenReqGrp>)
      returns (due: seq<TokenReqGrp>, toReset: bool)
      requires Knows(rs, gs)
      modifies base, waiters, rs, gs
      ensures Knows(rs, gs) && AllIn(due, gs)
      ensures (Effect(Value(), Snap(rs, gs), due), toReset) == Change(old(Value()), old(Snap(rs, gs)), total, ver)
    {
      due := [];
      var increased;
      increased, toReset := base.CheckUpdateTotalVersion(total, ver);
      if increased {
        due := ResourceIncreased(due, rs, gs);
      }
    }

    method FreeResource(r: TokenReq, due: seq<TokenReqGrp>, ghost rs: set<TokenReq>, ghost gs: set<TokenReqGrp>)
      returns (due': seq<TokenReqGrp>)
      requires Knows(rs, gs) && r in rs && AllIn(due, gs)
      modifies base, waiters, rs, gs
      ensures Knows(rs, gs) && AllIn(due', gs)
      ensures Effect(Value(), Snap(rs, gs), due') == NodeSpec.Free(old(Value()), old(Snap(rs, gs)), r, due)
    {
      due' := due;
      if r.nodeid == fence {
        base.Free(r.cost);
        due' := ResourceIncreased(due', rs, gs);
      }
    }

    method StampFence(r: TokenReq, ghost rs: set<TokenReq>, ghost gs: set<TokenReqGrp>)
      requires r in rs
      modifies r
      ensures Snap(rs, gs) == Stamped(old(Snap(rs, gs)), r, fence)
    {
      r.nodeid := fence;
      assert Snap(rs, gs).reqs == Stamped(old(Snap(rs, gs)), r, fence).reqs;
      assert Snap(rs, gs).grps == old(Snap(rs, gs)).grps;
    }

    // The code tries once more under the queue's lock; with the entry point as one step that changes nothing.
    method AllocResource(r: TokenReq, ghost rs: set<TokenReq>, ghost gs: set<TokenReqGrp>) returns (err: Err)
      requires Knows(rs, gs) && r in rs && r.grp in gs
      modifies base, waiters, r, r.grp
      ensures Knows(rs, gs)
      ensures (Value(), Snap(rs, gs), err) == Alloc(old(Value()), old(Snap(rs, gs)), r)
    {
      StampFence(r, rs, gs);
      err := base.TryAlloc(r.cost);
      if err != Ok {
        waiters.PushBack(r);
      } else {
        err := r.grp.ToGot(r, rs, gs);
      }
    }

    method PopAllWaiters(due: seq<TokenReqGrp>, ghost rs: set<TokenReq>, ghost gs: set<TokenReqGrp>)
      returns (due': seq<TokenReqGrp>)
      requires Knows(rs, gs) && AllIn(due, gs)
      modifies waiters, rs, gs
      ensures Knows(rs, gs) && AllIn(due', gs)
      ensures Effect(Value(), Snap(rs, gs), due') == PopAll(old(Value()), old(Snap(rs, gs)), due)
    {
      hide Snap, Finish;
      due' := due;
      var failed := waiters.PopAll();
      assert Snap(rs, gs) == old(Snap(rs, gs));
      var i := 0;
      while i < |failed|
        invariant 0 <= i <= |failed| && AllIn(due', gs)
        invariant forall j | 0 <= j < |failed| :: failed[j] in rs && failed[j].grp in gs
        invariant waiters.list == [] && Value() == PopAll(old(Value()), old(Snap(rs, gs)), due).node
        invariant FailAll(failed[i..], Snap(rs, gs), due') == FailAll(failed, old(Snap(rs, gs)), due)
      {
        var r := failed[i];
        var err := r.grp.ToFailed(r, rs, gs);
        if err == FailedNode {
          due' := [r.grp] + due';
        }
        i := i + 1;
      }
    }

    method ResetNode()
      modifies base
      ensures Value() == old(Value()).(base := Reset(old(Value()).base))
    {
      base.ResetBase();
    }
  }
}
