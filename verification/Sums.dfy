/** Sums of costs over queues and over sets of requests. */
module Sums {
  import opened Objects

  ghost function Waiting(q: seq<TokenReq>): nat {
    if q == [] then 0 else q[0].cost + Waiting(q[1..])
  }

  lemma {:induction false} WaitingSnoc(q: seq<TokenReq>, r: TokenReq)
    ensures Waiting(q + [r]) == Waiting(q) + r.cost
  {
    if q == [] {
      assert q + [r] == [r];
    } else {
      WaitingSnoc(q[1..], r);
      assert (q + [r])[1..] == q[1..] + [r];
    }
  }

  ghost function Held(s: set<TokenReq>): nat {
    if s == {} then 0 else var r :| r in s; r.cost + Held(s - {r})
  }

  // The sum does not depend on the order in which the set is walked.
  lemma {:induction false} HeldSplit(s: set<TokenReq>, r: TokenReq)
    requires r in s
    ensures Held(s) == r.cost + Held(s - {r})
    decreases |s|
  {
    var x :| x in s && Held(s) == x.cost + Held(s - {x});
    if x == r {
    } else {
      HeldSplit(s - {x}, r);
      HeldSplit(s - {r}, x);
      assert s - {x} - {r} == s - {r} - {x};
    }
  }

  lemma {:induction false} HeldMonotone(s: set<TokenReq>, t: set<TokenReq>)
    requires s <= t
    ensures Held(s) <= Held(t)
    decreases |s|
  {
    if s == {} {
    } else {
      var r :| r in s;
      HeldSplit(s, r);
      HeldSplit(t, r);
      HeldMonotone(s - {r}, t - {r});
    }
  }
}
