/** In what order an operation serves nodes, requests and groups. */
module Order {
  import opened Words
  import opened Objects
  import opened Quota
  import opened Groups
  import opened NodeSpec
  import opened WorldSpec
  import opened Invariant
  import opened Steps

  // ----- Lists are served front first

  // The resource i is looked at in the world that the resources before it leave.
  lemma {:induction false} CheckInInOrder(w: World, hs: seq<TokenReq>, i: nat)
    requires i < |hs|
    ensures var w' := CheckIn(w, hs[..i]);
      CheckIn(w, hs[..i + 1]) == if hs[i].id in w'.table then w' else Online(w', hs[i].id)
    decreases i
  {
    hide Online;
    var w1 := if hs[0].id in w.table then w else Online(w, hs[0].id);
    if i == 0 {
      assert hs[..1] == [hs[0]] && hs[..0] == [];
      assert CheckIn(w, [hs[0]]) == CheckIn(w1, [hs[0]][1..]);
    } else {
      CheckInInOrder(w1, hs[1..], i - 1);
      assert hs[..i][1..] == hs[1..][..i - 1] && hs[..i + 1][1..] == hs[1..][..i];
    }
  }

  lemma {:induction false} CheckOutInOrder(w: World, ids: seq<NodeId>, i: nat)
    requires i < |ids|
    ensures CheckOut(w, ids[..i + 1]) == Offline(CheckOut(w, ids[..i]), ids[i])
    decreases i
  {
    hide Offline;
    if i == 0 {
      assert ids[..1] == [ids[0]] && ids[..0] == [];
      assert CheckOut(w, [ids[0]]) == CheckOut(Offline(w, ids[0]), [ids[0]][1..]);
    } else {
      CheckOutInOrder(Offline(w, ids[0]), ids[1..], i - 1);
      assert ids[..i][1..] == ids[1..][..i - 1] && ids[..i + 1][1..] == ids[1..][..i];
    }
  }

  lemma {:induction false} AskAllInOrder(w: World, rs: seq<TokenReq>, i: nat)
    requires i < |rs|
    ensures AskAll(w, rs[..i + 1]) == Ask(AskAll(w, rs[..i]).0, rs[i])
    decreases i
  {
    hide Ask;
    if i == 0 {
      assert rs[..1] == [rs[0]] && rs[..0] == [];
    } else {
      AskAllInOrder(Ask(w, rs[0]).0, rs[1..], i - 1);
      assert rs[..i][1..] == rs[1..][..i - 1] && rs[..i + 1][1..] == rs[1..][..i];
      if i == 1 {
        assert rs[1..][..0] == [] && rs[..1] == [rs[0]];
      }
    }
  }

  lemma {:induction false} ReleaseAllInOrder(w: World, rs: seq<TokenReq>, due: seq<TokenReqGrp>, i: nat)
    requires i < |rs|
    ensures var x := ReleaseAll(w, rs[..i], due);
      ReleaseAll(w, rs[..i + 1], due) == Release(x.world, rs[i], x.due)
    decreases i
  {
    hide Release;
    if i == 0 {
      assert rs[..1] == [rs[0]] && rs[..0] == [];
      var x := Release(w, rs[0], due);
      assert ReleaseAll(w, [rs[0]], due) == ReleaseAll(x.world, [rs[0]][1..], x.due);
    } else {
      var x := Release(w, rs[0], due);
      ReleaseAllInOrder(x.world, rs[1..], x.due, i - 1);
      assert rs[..i][1..] == rs[1..][..i - 1] && rs[..i + 1][1..] == rs[1..][..i];
    }
  }

  // ----- The last resource of a get is asked for first

  // A get asks for its resources from the last to the first, and its group lists them so.
  lemma AskedBackwards(w: World, g: TokenReqGrp, hs: seq<TokenReq>, i: nat)
    requires i < |hs|
    ensures var w0 := CheckIn(Admit(w, g, hs), hs);
      AskAll(w0, Reversed(hs)[..i + 1]) == Ask(AskAll(w0, Reversed(hs)[..i]).0, hs[|hs| - 1 - i])
    ensures var grp := Admit(w, g, hs).store.grps[g]; |grp.reqs| == |hs| && grp.reqs[i] == hs[|hs| - 1 - i]
  {
    hide CheckIn, Ask, AskAll;
    AskAllInOrder(CheckIn(Admit(w, g, hs), hs), Reversed(hs), i);
  }

  // Of two resources at one node that has room for either but not for both, the later one gets it.
  lemma LaterAskedFirst(w: World, g: TokenReqGrp, a: TokenReq, b: TokenReq)
    requires Inv(w, Rest(false)) && NewGroup(w, g, [a, b]) && !OutOfMemory(w, [a, b])
    requires a.id == b.id && a.id in w.table
    requires var base := w.table[a.id].base; Fits(base, b.cost) && !Fits(Charge(base, b.cost), a.cost)
    ensures var (w', err) := Get(w, g, [a, b]);
      && err == Pending && a in w'.store.reqs && b in w'.store.reqs
      && w'.store.reqs[b].stat == Got && w'.store.reqs[a].stat == Init
      && a.id in w'.table && w'.table[a.id].queue == w.table[a.id].queue + [a]
  {
    hide Inv, Fits, Charge;
    assert [a, b][0] == a && [a, b][1] == b;
    var w1 := Admit(w, g, [a, b]);
    assert a in Members([a, b]) && b in Members([a, b]);
    assert CheckIn(w1, [a, b]) == w1 by {
      assert [a, b][1..] == [b];
      assert CheckIn(w1, [b]) == CheckIn(w1, [b][1..]);
    }
    assert Reversed([a, b]) == [b, a];
    var w2 := Ask(w1, b).0;
    assert AskAll(w1, [b, a]) == AskAll(w2, [b, a][1..]) && [b, a][1..] == [a];
    AskedForBoth(w1, a, b);
  }

  lemma AskedForBoth(w: World, a: TokenReq, b: TokenReq)
    requires a != b && a.id == b.id && a.id in w.table && a.grp == b.grp && a.grp in w.store.grps
    requires a in w.store.reqs && b in w.store.reqs && w.store.reqs[a].stat == w.store.reqs[b].stat == Init
    requires var base := w.table[a.id].base; Fits(base, b.cost) && !Fits(Charge(base, b.cost), a.cost)
    ensures var w1 := Ask(w, b).0;
      var (w2, err) := Ask(w1, a);
      && err == Pending && a in w2.store.reqs && b in w2.store.reqs
      && w2.store.reqs[b].stat == Got && w2.store.reqs[a].stat == Init
      && a.id in w2.table && w2.table[a.id].queue == w.table[a.id].queue + [a]
  {
    hide Fits, Charge;
  }

  // ----- Groups are told of latest first

  // The groups whose unsettled requests all stand among the first k of the queue, the one completed last in front.
  ghost function Finals(s: Store, q: seq<TokenReq>, k: nat): seq<TokenReqGrp>
    requires k <= |q|
  {
    if k == 0 then []
    else (if Inits(s, q[k - 1].grp) <= Members(q[..k]) then [q[k - 1].grp] else []) + Finals(s, q, k - 1)
  }

  ghost predicate AllWait(s: Store, q: seq<TokenReq>) {
    NoDup(q) && forall i | 0 <= i < |q| :: Knows(s, q[i]) && s.reqs[q[i]].stat == Init
  }

  lemma {:induction false} FinalsKnown(s: Store, q: seq<TokenReq>, k: nat)
    requires AllWait(s, q) && k <= |q|
    ensures forall i | 0 <= i < |Finals(s, q, k)| :: Finals(s, q, k)[i] in s.grps
  {
    if k == 0 {
    } else {
      FinalsKnown(s, q, k - 1);
      assert Knows(s, q[k - 1]);
    }
  }

  // Settling the head first changes nothing about who completes after it.
  lemma {:induction false} FinalsHead(s: Store, q: seq<TokenReq>, ok: bool, k: nat)
    requires StoreInv(s) && AllWait(s, q) && 0 < k <= |q|
    ensures var (s', e) := Finish(s, q[0], ok);
      Finals(s, q, k) == Finals(s', q[1..], k - 1) + if e.Final() then [q[0].grp] else []
    decreases k
  {
    hide Finish, StoreInv, Inits;
    var (s', e) := Finish(s, q[0], ok);
    FinalsStep(s, q, ok, k);
    if k == 1 {
      assert Finals(s, q, 0) == [];
    } else {
      FinalsHead(s, q, ok, k - 1);
      assert q[1..][k - 2] == q[k - 1];
    }
  }

  lemma FinalsStep(s: Store, q: seq<TokenReq>, ok: bool, k: nat)
    requires StoreInv(s) && AllWait(s, q) && 0 < k <= |q|
    ensures var (s', e) := Finish(s, q[0], ok);
      && (k == 1 ==> (Inits(s, q[0].grp) <= Members(q[..1]) <==> e.Final()))
      && (1 < k ==> (Inits(s, q[k - 1].grp) <= Members(q[..k]) <==> Inits(s', q[k - 1].grp) <= Members(q[1..][..k - 1])))
  {
    hide Counted, Linked;
    var (s', e) := Finish(s, q[0], ok);
    var g := q[k - 1].grp;
    FinishSettles(s, q[0], ok);
    FinishHere(s, q[0], ok);
    if g != q[0].grp { FinishElsewhere(s, q[0], ok, g); }
    assert q[..k] == [q[0]] + q[1..][..k - 1];
    assert Members(q[..k]) == {q[0]} + Members(q[1..][..k - 1]);
    assert q[0] in Inits(s, q[0].grp);
    assert q[0] !in Inits(s', g);
  }

  lemma StillWait(s: Store, q: seq<TokenReq>, ok: bool)
    requires StoreInv(s) && AllWait(s, q) && q != []
    ensures var s' := Finish(s, q[0], ok).0; StoreInv(s') && AllWait(s', q[1..])
  {
    hide Counted, Linked;
    FinishSettles(s, q[0], ok);
  }

  // What a drain completes, in front of what was due before.
  lemma {:induction false} DrainTells(n: Node, s: Store, due: seq<TokenReqGrp>)
    requires StoreInv(s) && AllWait(s, n.queue)
    ensures Granted(n.base, n.queue) <= |n.queue|
    ensures Drain(n, s, due).due == Finals(s, n.queue, Granted(n.base, n.queue)) + due
    decreases |n.queue|
  {
    hide Finish, StoreInv, Fits, Charge;
    var q := n.queue;
    if q == [] || !Fits(n.base, q[0].cost) {
    } else {
      var r := q[0];
      var (s', e) := Finish(s, r, true);
      StillWait(s, q, true);
      var n' := Pop(n).(base := Charge(n.base, r.cost));
      DrainTells(n', s', Collect(r.grp, e, due));
      FinalsHead(s, q, true, Granted(n.base, q));
    }
  }

  // Failing all waiters completes every group that waits nowhere else.
  lemma {:induction false} FailAllTells(q: seq<TokenReq>, s: Store, due: seq<TokenReqGrp>)
    requires StoreInv(s) && AllWait(s, q)
    ensures FailAll(q, s, due).1 == Finals(s, q, |q|) + due
    decreases |q|
  {
    hide Finish, StoreInv;
    if q == [] {
    } else {
      var (s', e) := Finish(s, q[0], false);
      StillWait(s, q, false);
      FailedIsFinal(s, q[0]);
      FailAllTells(q[1..], s', if e == FailedNode then [q[0].grp] + due else due);
      FinalsHead(s, q, false, |q|);
    }
  }

  lemma FailedIsFinal(s: Store, r: TokenReq)
    requires StoreInv(s) && Knows(s, r) && s.reqs[r].stat == Init
    ensures Finish(s, r, false).1.Final() <==> Finish(s, r, false).1 == FailedNode
  {
    hide Counted, Linked;
    FinishSettles(s, r, false);
    FinishHere(s, r, false);
  }
}
