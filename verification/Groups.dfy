/** What holds of groups and their requests, and what one completion does to them. */
module Groups {
  import opened Words
  import opened Objects

  // ----- The invariant of groups and their requests

  ghost function Inits(s: Store, g: TokenReqGrp): set<TokenReq> {
    set r | r in s.reqs && r.grp == g && s.reqs[r].stat == Init
  }

  ghost predicate AnyFailed(s: Store, g: TokenReqGrp) {
    exists r :: r in s.reqs && r.grp == g && s.reqs[r].stat == Failed
  }

  // Requests and groups name each other.
  ghost predicate Linked(s: Store) {
    && (forall r <- s.reqs :: r.grp in s.grps && r in s.grps[r.grp].reqs)
    && (forall g <- s.grps :: NoDup(s.grps[g].reqs) && forall r <- s.grps[g].reqs :: r in s.reqs && r.grp == g)
  }

  // The outcome a group must report, read off its requests.
  ghost function Outcome(s: Store, g: TokenReqGrp): Err {
    if Inits(s, g) != {} then Pending else if AnyFailed(s, g) then FailedNode else Ok
  }

  ghost predicate Counted(s: Store) {
    forall g <- s.grps ::
      && s.grps[g].pending == |Inits(s, g)|
      && (s.grps[g].failed <==> AnyFailed(s, g))
      && s.grps[g].err == Outcome(s, g)
  }

  ghost predicate StoreInv(s: Store) {
    Linked(s) && Counted(s)
  }

  // Settling a request leaves the other groups' counts alone.
  lemma FinishElsewhere(s: Store, r: TokenReq, ok: bool, g: TokenReqGrp)
    requires Knows(s, r) && g != r.grp
    ensures var s' := Finish(s, r, ok).0;
      Inits(s', g) == Inits(s, g) && (AnyFailed(s', g) <==> AnyFailed(s, g))
  {
    var s' := Finish(s, r, ok).0;
    if x :| x in s.reqs && x.grp == g && s.reqs[x].stat == Failed {
      assert s'.reqs[x].stat == Failed;
    }
  }

  lemma FinishHere(s: Store, r: TokenReq, ok: bool)
    requires Knows(s, r) && s.reqs[r].stat == Init
    ensures var s' := Finish(s, r, ok).0;
      Inits(s', r.grp) == Inits(s, r.grp) - {r} && (AnyFailed(s', r.grp) <==> !ok || AnyFailed(s, r.grp))
  {
    var s' := Finish(s, r, ok).0;
    if x :| x in s.reqs && x.grp == r.grp && s.reqs[x].stat == Failed {
      assert s'.reqs[x].stat == Failed;
    }
    if !ok {
      assert s'.reqs[r].stat == Failed;
    }
  }

  lemma FinishCounted(s: Store, r: TokenReq, ok: bool)
    requires Counted(s) && Knows(s, r) && s.reqs[r].stat == Init
    ensures Counted(Finish(s, r, ok).0)
    ensures Finish(s, r, ok).1 == Outcome(Finish(s, r, ok).0, r.grp)
  {
    var s' := Finish(s, r, ok).0;
    assert r in Inits(s, r.grp);
    FinishHere(s, r, ok);
    assert |Inits(s', r.grp)| == |Inits(s, r.grp)| - 1;
    forall g <- s'.grps
      ensures s'.grps[g].pending == |Inits(s', g)|
      ensures s'.grps[g].failed <==> AnyFailed(s', g)
      ensures s'.grps[g].err == Outcome(s', g)
    {
      if g != r.grp {
        FinishElsewhere(s, r, ok, g);
      }
    }
  }

  lemma FinishFrame(s: Store, r: TokenReq, ok: bool)
    ensures var s' := Finish(s, r, ok).0;
      && s'.reqs.Keys == s.reqs.Keys && s'.grps.Keys == s.grps.Keys
      && (forall g <- s.grps :: s'.grps[g].reqs == s.grps[g].reqs)
  {
  }

  lemma LinkedFrame(s: Store, s': Store)
    requires Linked(s) && s'.reqs.Keys == s.reqs.Keys && s'.grps.Keys == s.grps.Keys
    requires forall g <- s.grps :: s'.grps[g].reqs == s.grps[g].reqs
    ensures Linked(s')
  {
  }

  lemma FinishLinked(s: Store, r: TokenReq, ok: bool)
    requires Linked(s)
    ensures Linked(Finish(s, r, ok).0)
  {
    hide Finish;
    FinishFrame(s, r, ok);
    LinkedFrame(s, Finish(s, r, ok).0);
  }

  // What settling an unsettled request does, said without the code's counters and flags.
  lemma FinishSettles(s: Store, r: TokenReq, ok: bool)
    requires StoreInv(s) && Knows(s, r) && s.reqs[r].stat == Init
    ensures
      var (s', e) := Finish(s, r, ok);
      && StoreInv(s')
      && s'.reqs == s.reqs[r := s.reqs[r].(stat := if ok then Got else Failed)]
      && (forall g <- s.grps :: s'.grps[g].reqs == s.grps[g].reqs && (g != r.grp ==> s'.grps[g] == s.grps[g]))
      && e == Outcome(s', r.grp) == s'.grps[r.grp].err
  {
    hide Linked, Counted, Outcome;
    FinishLinked(s, r, ok);
    FinishCounted(s, r, ok);
    OutcomeKept(s, r, ok);
  }

  lemma OutcomeKept(s: Store, r: TokenReq, ok: bool)
    requires Counted(Finish(s, r, ok).0) && Knows(s, r)
    ensures var s' := Finish(s, r, ok).0; s'.grps[r.grp].err == Outcome(s', r.grp)
  {
  }
}
