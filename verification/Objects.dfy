/**
  Token requests and their groups (sysqos_token_reqgrp.h, sysqos_token_reqgrp.c).

  `Store` is the value of all live requests and groups; `Finish` is what `to_got` and `to_failed` do to it.
 */
module Objects {
  import opened Words

  // The address of a node, as the application names it.
  type NodeId(==)

  datatype Stat = Init | Got | Failed

  datatype Req = Req(stat: Stat, nodeid: int)

  datatype Grp = Grp(reqs: seq<TokenReq>, pending: int, failed: bool, err: Err)

  datatype Store = Store(reqs: map<TokenReq, Req>, grps: map<TokenReqGrp, Grp>)

  ghost predicate NoDup<T>(s: seq<T>) {
    forall i, j :: 0 <= i < j < |s| ==> s[i] != s[j]
  }

  ghost predicate Knows(s: Store, r: TokenReq) {
    r in s.reqs && r.grp in s.grps
  }

  // `to_got` (ok) and `to_failed` (!ok): the failure flag is raised first, then the request is settled once.
  // A request that is not live is left alone; the code never asks for that (the invariant of the manager rules it out).
  ghost function Finish(s: Store, r: TokenReq, ok: bool): (Store, Err) {
    if !Knows(s, r) then (s, Pending) else
    var g := s.grps[r.grp].(failed := s.grps[r.grp].failed || !ok);
    if s.reqs[r].stat != Init then (s.(grps := s.grps[r.grp := g]), Pending)
    else
      var e := if g.pending != 1 then Pending else if g.failed then FailedNode else Ok;
      (Store(s.reqs[r := s.reqs[r].(stat := if ok then Got else Failed)],
             s.grps[r.grp := g.(pending := g.pending - 1, err := if e == Pending then g.err else e)]),
       e)
  }

  // ----- The objects

  class TokenReqGrp {
    var reqs: seq<TokenReq>   // lhead_reqgrp, in list order
    var pending: int          // req_pending_nr
    var failedExist: bool
    var err: Err

    constructor ()
      ensures reqs == [] && pending == 0 && !failedExist && err == Pending
    {
      reqs, pending, failedExist, err := [], 0, false, Pending;
    }

    // `rs` and `gs` are the live requests and groups this call is seen against.
    method ToGot(rip: TokenReq, ghost rs: set<TokenReq>, ghost gs: set<TokenReqGrp>) returns (err: Err)
      requires rip in rs && rip.grp == this && this in gs
      modifies this, rip
      ensures (Snap(rs, gs), err) == Finish(old(Snap(rs, gs)), rip, true)
    {
      err := Pending;
      var swapped := rip.ToStat(Got);
      if swapped {
        pending := pending - 1;
        if pending == 0 {
          err := if failedExist then FailedNode else Ok;
          this.err := err;
        }
      }
      SnapIs(old(Snap(rs, gs)), rip, true, rs, gs, err);
    }

    method ToFailed(rip: TokenReq, ghost rs: set<TokenReq>, ghost gs: set<TokenReqGrp>) returns (err: Err)
      requires rip in rs && rip.grp == this && this in gs
      modifies this, rip
      ensures (Snap(rs, gs), err) == Finish(old(Snap(rs, gs)), rip, false)
    {
      err := Pending;
      failedExist := true;
      var swapped := rip.ToStat(Failed);
      if swapped {
        pending := pending - 1;
        if pending == 0 {
          err := FailedNode;
          this.err := err;
        }
      }
      SnapIs(old(Snap(rs, gs)), rip, false, rs, gs, err);
    }
  }

  class TokenReq {
    const grp: TokenReqGrp
    const id: NodeId
    const cost: Cost
    var stat: Stat
    var nodeid: int           // Nodeid: the fence of the node asked

    constructor (grp: TokenReqGrp, id: NodeId, cost: Cost)
      ensures this.grp == grp && this.id == id && this.cost == cost
      ensures stat == Init && nodeid == 0
    {
      this.grp, this.id, this.cost, stat, nodeid := grp, id, cost, Init, 0;
    }

    // The compare-and-swap of `_to_got` and `_to_fail`.
    method ToStat(s: Stat) returns (swapped: bool)
      modifies this
      ensures swapped <==> old(stat) == Init
      ensures stat == (if swapped then s else old(stat)) && nodeid == old(nodeid)
    {
      swapped := stat == Init;
      if swapped {
        stat := s;
      }
    }
  }

  // The values of the objects in `rs` and `gs`.
  ghost function Snap(rs: set<TokenReq>, gs: set<TokenReqGrp>): Store
    reads rs, gs
  {
    Store(map r | r in rs :: Req(r.stat, r.nodeid),
          map g | g in gs :: Grp(g.reqs, g.pending, g.failedExist, g.err))
  }

  lemma SnapIs(s: Store, r: TokenReq, ok: bool, rs: set<TokenReq>, gs: set<TokenReqGrp>, err: Err)
    requires Knows(s, r) && s.reqs.Keys == rs && s.grps.Keys == gs
    requires forall x <- rs :: Req(x.stat, x.nodeid) == Finish(s, r, ok).0.reqs[x]
    requires forall g <- gs :: Grp(g.reqs, g.pending, g.failedExist, g.err) == Finish(s, r, ok).0.grps[g]
    requires err == Finish(s, r, ok).1
    ensures (Snap(rs, gs), err) == Finish(s, r, ok)
  {
    assert Snap(rs, gs).reqs == Finish(s, r, ok).0.reqs;
    assert Snap(rs, gs).grps == Finish(s, r, ok).0.grps;
  }
}
