/**
  The dispatcher's proportional split of tokens over its nodes (sysqos_token_update.c, sysqos_update_node.c).

  `HandOut` is the two passes on values, in the word arithmetic of the code, whatever the limits and however large the
  numbers. What it hands out is proved of it; `TokenUpdates` proves that the objects do it.
 */
module Split {
  import opened Words

  // ----- The arithmetic

  function Sum(xs: seq<nat>): nat {
    if xs == [] then 0 else Sum(xs[..|xs| - 1]) + xs[|xs| - 1]
  }

  // What the first k of xs amount to.
  function Taken(xs: seq<nat>, k: nat): nat
    requires k <= |xs|
  {
    Sum(xs[..k])
  }

  lemma TakenStep(xs: seq<nat>, k: nat)
    requires k < |xs|
    ensures Taken(xs, 0) == 0 && Taken(xs, k + 1) == Taken(xs, k) + xs[k]
  {
    assert xs[..k + 1][..k] == xs[..k];
  }

  lemma TakenAll(xs: seq<nat>)
    ensures Taken(xs, |xs|) == Sum(xs) && Taken(xs, 0) == 0
  {
    assert xs[..|xs|] == xs;
  }

  // Products are named, so that the proofs below stay linear.
  function Mul(a: int, b: int): int {
    a * b
  }

  lemma MulAdd(a: int, b: int, c: int)
    ensures Mul(a, b + c) == Mul(a, b) + Mul(a, c)
  {
  }

  lemma MulStep(w: nat, a: int, b: int)
    requires a < b
    ensures Mul(w, a) + w <= Mul(w, b)
  {
    MulAdd(w, a, b - a);
    MulAdd(w, 1, b - a - 1);
    assert Mul(w, b - a - 1) >= 0;
  }

  // A node's part of the pool, rounded down.
  function Share(pool: nat, weight: nat, total: nat): nat
    requires 0 < total
  {
    Mul(pool, weight) / total
  }

  function Shares(pool: nat, weights: seq<nat>, total: nat): seq<nat>
    requires 0 < total
  {
    seq(|weights|, i requires 0 <= i < |weights| => Share(pool, weights[i], total))
  }

  lemma ShareBounds(pool: nat, weight: nat, total: nat)
    requires 0 < total
    ensures Mul(pool, weight) - total < Mul(total, Share(pool, weight, total)) <= Mul(pool, weight)
  {
  }

  lemma {:induction false} SumSplit(xs: seq<nat>, k: nat)
    requires k <= |xs|
    ensures Sum(xs) == Sum(xs[..k]) + Sum(xs[k..])
  {
    if k == |xs| {
      assert xs[..k] == xs && xs[k..] == [];
    } else {
      var n := |xs| - 1;
      SumSplit(xs[..n], k);
      assert xs[..n][..k] == xs[..k] && xs[..n][k..] == xs[k..][..n - k];
      assert xs[k..][|xs[k..]| - 1] == xs[n];
    }
  }

  // Rounding loses less than one unit a node, and never gains.
  lemma {:induction false} RoundingLoss(pool: nat, weights: seq<nat>, total: nat)
    requires 0 < total
    ensures var s := Sum(Shares(pool, weights, total));
      Mul(pool, Sum(weights)) - Mul(total, |weights|) <= Mul(total, s) <= Mul(pool, Sum(weights))
      && (weights != [] ==> Mul(pool, Sum(weights)) - Mul(total, |weights|) < Mul(total, s))
  {
    if weights == [] {
      assert Mul(pool, 0) == 0 && Mul(total, 0) == 0;
    } else {
      hide Mul, Share;
      var n := |weights| - 1;
      var front := weights[..n];
      RoundingLoss(pool, front, total);
      ShareBounds(pool, weights[n], total);
      assert Shares(pool, weights, total)[..n] == Shares(pool, front, total);
      MulAdd(pool, Sum(front), weights[n]);
      MulAdd(total, Sum(Shares(pool, front, total)), Share(pool, weights[n], total));
      MulAdd(total, n, 1);
      MulOne(total);
    }
  }

  lemma MulOne(a: int)
    ensures Mul(a, 1) == a
  {
  }

  lemma MulSwap(a: int, b: int)
    ensures Mul(a, b) == Mul(b, a)
  {
  }

  // The shares of all nodes leave a rest smaller than the number of nodes.
  lemma RestSmall(pool: nat, weights: seq<nat>)
    requires 0 < Sum(weights)
    ensures var s := Sum(Shares(pool, weights, Sum(weights))); s <= pool < s + |weights|
  {
    hide Mul, Share, Shares;
    var w, s, n := Sum(weights), Sum(Shares(pool, weights, Sum(weights))), |weights|;
    RoundingLoss(pool, weights, w);
    MulSwap(pool, w);
    MulAdd(w, s, n);
    if pool < s { MulStep(w, pool, s); }
    if s + n < pool { MulStep(w, s + n, pool); }
  }

  lemma {:induction false} ZeroSum(xs: seq<nat>)
    requires Sum(xs) == 0
    ensures forall i :: 0 <= i < |xs| ==> xs[i] == 0
  {
    if xs == [] {
    } else {
      ZeroSum(xs[..|xs| - 1]);
    }
  }

  // The first shares fit into the pool; once they use it up, the remaining shares are zero.
  lemma UsedUp(pool: nat, weights: seq<nat>, k: nat)
    requires 0 < Sum(weights) && k <= |weights|
    ensures var shares := Shares(pool, weights, Sum(weights));
      && Taken(shares, k) <= pool
      && (Taken(shares, k) == pool ==> forall i :: k <= i < |weights| ==> shares[i] == 0)
      && (0 < k ==> shares[0] <= Taken(shares, k))
  {
    var shares := Shares(pool, weights, Sum(weights));
    RestSmall(pool, weights);
    SumSplit(shares, k);
    if Taken(shares, k) == pool {
      ZeroSum(shares[k..]);
      forall i | k <= i < |weights|
        ensures shares[i] == 0
      {
        assert shares[k..][i - k] == shares[i];
      }
    }
    if 0 < k {
      SumSplit(shares[..k], 1);
      assert shares[..k][..1] == [shares[0]];
      assert Sum([shares[0]]) == shares[0];
    }
  }

  // ----- The two passes on values

  // What a node brings to an update, and what the update makes of it.
  datatype Part = Part(quota: U64, base: U64, weight: U64, max: U64, tmp: U64, quotaNew: U64)

  // An upper limit of zero is none.
  function Cap(max: U64, quota: U64): U64 {
    if 0 < max < quota then max else quota
  }

  lemma QuotientSmall(x: nat, total: nat)
    requires 0 < total
    ensures x / total <= x
  {
    hide Mul;
    var q := Share(x, 1, total);
    ShareBounds(x, 1, total);
    MulOne(x);
    MulOne(q);
    MulSwap(q, total);
    if 1 < total { MulStep(q, 1, total); }
  }

  // The share as the code computes it: the product wraps around.
  function WordShare(pool: U64, weight: U64, total: U64): U64
    requires 0 < total
  {
    QuotientSmall(Mul(pool, weight) % TWO64, total);
    Mul(pool, weight) % TWO64 / total
  }

  // `update_node_quota`: the node, and what is left of `left`.
  function FirstStep(p: Part, pool: U64, total: U64, left: U64): (Part, U64)
    requires 0 < total
  {
    var t := Add64(WordShare(pool, p.weight, total), p.base);
    var q := Cap(p.max, t);
    (p.(tmp := t, quotaNew := q), Sub64(left, Sub64(q, p.base)))
  }

  // `update_node_quota_left`
  function SecondStep(p: Part, left: U64): (Part, U64) {
    var t := Add64(p.tmp, left);
    var q := Cap(p.max, t);
    (p.(tmp := t, quotaNew := q), Sub64(left, Sub64(q, p.tmp)))
  }

  datatype Pass = Pass(parts: seq<Part>, left: U64, reached: nat)

  function FirstPass(ps: seq<Part>, pool: U64, total: U64, left: U64): Pass
    requires ps != [] ==> 0 < total
  {
    if ps == [] then Pass([], left, 0)
    else
      var (p, l) := FirstStep(ps[0], pool, total, left);
      if l == 0 then Pass([p] + ps[1..], 0, 1)
      else
        var r := FirstPass(ps[1..], pool, total, l);
        Pass([p] + r.parts, r.left, r.reached + 1)
  }

  function SecondPass(ps: seq<Part>, left: U64): Pass {
    if ps == [] then Pass([], left, 0)
    else
      var (p, l) := SecondStep(ps[0], left);
      if l == 0 then Pass([p] + ps[1..], 0, 1)
      else
        var r := SecondPass(ps[1..], l);
        Pass([p] + r.parts, r.left, r.reached + 1)
  }

  function HandOut(ps: seq<Part>, pool: U64, total: U64): Pass
    requires ps != [] ==> 0 < total
  {
    var f := FirstPass(ps, pool, total, pool);
    SecondPass(f.parts, f.left)
  }

  // ----- The law of the pool, for all inputs

  ghost predicate Congruent(a: int, b: int) {
    (a - b) % TWO64 == 0
  }

  lemma CongruentChain(a: int, b: int, c: int, d: int, l: int)
    requires Congruent(a + l, b) && Congruent(c, d + l)
    ensures Congruent(a + c, b + d)
  {
  }

  // What the first k nodes have above their base.
  function Assigned(ps: seq<Part>, k: nat): int
    requires k <= |ps|
  {
    if k == 0 then 0 else ps[0].quotaNew - ps[0].base + Assigned(ps[1..], k - 1)
  }

  // What a second pass over the first j nodes counts twice: of a node that the first pass has reached, the part its
  // upper limit cut off; of any other, what it had above its base instead of its base.
  function Slip(ps: seq<Part>, k: nat, j: nat): int
    requires j <= |ps|
  {
    if j == 0 then 0
    else (if 0 < k then ps[0].tmp - ps[0].quotaNew else ps[0].tmp - ps[0].base)
         + Slip(ps[1..], if 0 < k then k - 1 else 0, j - 1)
  }

  lemma {:induction false} FirstLaw(ps: seq<Part>, pool: U64, total: U64, left: U64)
    requires ps != [] ==> 0 < total
    ensures var r := FirstPass(ps, pool, total, left);
      && |r.parts| == |ps| && r.reached <= |ps| && (r.reached < |ps| ==> r.left == 0) && (ps != [] ==> 0 < r.reached)
      && Congruent(Assigned(r.parts, r.reached) + r.left, left)
      && (forall i :: 0 <= i < |ps| ==> r.parts[i].base == ps[i].base)
      && (forall i :: r.reached <= i < |ps| ==> r.parts[i] == ps[i])
  {
    hide FirstStep, Congruent;
    CongruentSame(left);
    if ps == [] {
    } else {
      var (p, l) := FirstStep(ps[0], pool, total, left);
      FirstStepLaw(ps[0], pool, total, left);
      if l != 0 {
        FirstLaw(ps[1..], pool, total, l);
        var r := FirstPass(ps[1..], pool, total, l);
        assert ([p] + r.parts)[1..] == r.parts;
        CongruentChain(p.quotaNew - p.base, left, Assigned(r.parts, r.reached) + r.left, 0, l);
      }
    }
  }

  lemma FirstStepLaw(p: Part, pool: U64, total: U64, left: U64)
    requires 0 < total
    ensures var (p', l) := FirstStep(p, pool, total, left); Congruent(p'.quotaNew - p'.base + l, left) && p'.base == p.base
  {
    hide WordShare;
  }

  // A second pass on top of a first one that reached k nodes.
  lemma {:induction false} SecondLaw(ps: seq<Part>, k: nat, left: U64)
    requires k <= |ps|
    ensures var r := SecondPass(ps, left);
      && |r.parts| == |ps| && r.reached <= |ps|
      && (forall i :: 0 <= i < |ps| ==> r.parts[i].base == ps[i].base)
      && var m := if r.reached < k then k else r.reached;
         Congruent(Assigned(r.parts, m) + r.left, Assigned(ps, k) + left + Slip(ps, k, r.reached))
  {
    hide Congruent, SecondStep;
    if ps == [] {
      assert Congruent(left, left) by { CongruentSame(left); }
    } else {
      var (p, l) := SecondStep(ps[0], left);
      var k' := if 0 < k then k - 1 else 0;
      StepLaw(ps[0], left);
      if l == 0 {
        assert ([p] + ps[1..])[1..] == ps[1..];
        assert Slip(ps[1..], k', 0) == 0;
        CongruentSame(Assigned(ps[1..], k'));
        CongruentChain(p.quotaNew - p.base, ps[0].tmp + left - p.base, Assigned(ps[1..], k'), Assigned(ps[1..], k'), l);
      } else {
        SecondLaw(ps[1..], k', l);
        var r := SecondPass(ps[1..], l);
        assert ([p] + r.parts)[1..] == r.parts;
        var m := if r.reached < k' then k' else r.reached;
        CongruentChain(p.quotaNew - p.base, ps[0].tmp + left - p.base,
                       Assigned(r.parts, m) + r.left, Assigned(ps[1..], k') + Slip(ps[1..], k', r.reached), l);
      }
    }
  }

  lemma CongruentSame(a: int)
    ensures Congruent(a, a)
  {
  }

  lemma StepLaw(p: Part, left: U64)
    ensures var (p', l) := SecondStep(p, left); Congruent(p'.quotaNew - p.base + l, p.tmp + left - p.base) && p'.base == p.base
  {
  }

  // ----- What each node is given, for all inputs

  // The share is the product, taken modulo the word, divided by the total weight and rounded down.
  lemma ShareWord(pool: U64, weight: U64, total: U64)
    requires 0 < total
    ensures var share := WordShare(pool, weight, total);
      exists p :: 0 <= p < TWO64 && Congruent(p, Mul(pool, weight)) && Mul(total, share) <= p < Mul(total, share) + total
  {
    hide Mul;
    var x := Mul(pool, weight);
    var p := x % TWO64;
    ProductPositive(pool, weight);
    ShareBounds(p, 1, total);
    MulOne(p);
    assert Congruent(p, x);
    assert 0 <= p < TWO64 && Congruent(p, Mul(pool, weight));
  }

  // The quota a node takes of the one set, given its upper limit.
  predicate Limited(quota: int, max: U64, target: int) {
    quota == if max == 0 || target <= max then target else max
  }

  // The part a pass has made of a node differs from what it was in the quotas at most.
  predicate SameNode(p: Part, q: Part) {
    q.quota == p.quota && q.base == p.base && q.weight == p.weight && q.max == p.max
  }

  // Every node the first pass reaches is set to its share above its base, within its limit; the others are left alone.
  lemma {:induction false} FirstGives(ps: seq<Part>, pool: U64, total: U64, left: U64)
    requires ps != [] ==> 0 < total
    ensures var r := FirstPass(ps, pool, total, left);
      && |r.parts| == |ps| && r.reached <= |ps|
      && (forall i :: 0 <= i < r.reached ==>
            && SameNode(ps[i], r.parts[i])
            && Congruent(r.parts[i].tmp, WordShare(pool, ps[i].weight, total) + ps[i].base)
            && Limited(r.parts[i].quotaNew, ps[i].max, r.parts[i].tmp))
      && (forall i :: r.reached <= i < |ps| ==> r.parts[i] == ps[i])
  {
    hide WordShare, Congruent, FirstStep, SameNode, Limited;
    if ps == [] {
    } else {
      var (p, l) := FirstStep(ps[0], pool, total, left);
      FirstStepGives(ps[0], pool, total, left);
      if l != 0 {
        FirstGives(ps[1..], pool, total, l);
        var all, r := FirstPass(ps, pool, total, left), FirstPass(ps[1..], pool, total, l);
        assert all == Pass([p] + r.parts, r.left, r.reached + 1);
        forall i | 0 < i < |ps|
          ensures all.parts[i] == r.parts[i - 1] && ps[i] == ps[1..][i - 1]
        {
        }
      }
    }
  }

  // The first pass goes on exactly as long as something is left.
  lemma {:induction false} FirstStops(ps: seq<Part>, pool: U64, total: U64, left: U64)
    requires ps != [] ==> 0 < total
    ensures var r := FirstPass(ps, pool, total, left);
      && |r.parts| == |ps| && r.reached <= |ps| && (ps != [] ==> 0 < r.reached)
      && (forall j :: 0 < j < r.reached ==> !Congruent(Assigned(r.parts, j), left))
      && (r.reached < |ps| ==> Congruent(Assigned(r.parts, r.reached), left))
  {
    hide WordShare, Congruent, FirstStep;
    FirstLaw(ps, pool, total, left);
    if ps == [] {
    } else {
      var (p, l) := FirstStep(ps[0], pool, total, left);
      FirstStepGives(ps[0], pool, total, left);
      if l != 0 {
        FirstStops(ps[1..], pool, total, l);
        var all, r := FirstPass(ps, pool, total, left), FirstPass(ps[1..], pool, total, l);
        assert all.parts[1..] == r.parts;
        forall j | 0 < j < all.reached
          ensures !Congruent(Assigned(all.parts, j), left)
        {
          StillLeft(p.quotaNew - p.base, Assigned(r.parts, j - 1), l, left);
        }
      }
    }
  }

  lemma FirstStepGives(p: Part, pool: U64, total: U64, left: U64)
    requires 0 < total
    ensures var (q, l) := FirstStep(p, pool, total, left);
      && SameNode(p, q) && Congruent(q.tmp, WordShare(pool, p.weight, total) + p.base)
      && Limited(q.quotaNew, p.max, q.tmp) && Congruent(q.quotaNew - q.base + l, left)
  {
    hide WordShare;
  }

  // What the nodes further on are given decides whether something is left of the whole.
  lemma StillLeft(a: int, b: int, l: U64, left: U64)
    requires Congruent(a + l, left) && l != 0
    ensures b == 0 ==> !Congruent(a + b, left)
    ensures !Congruent(b, l) ==> !Congruent(a + b, left)
  {
  }

  // What the second pass has given to the first j nodes, on top of what the first pass set them to.
  function Given(ps: seq<Part>, qs: seq<Part>, j: nat): int
    requires j <= |ps| == |qs|
  {
    if j == 0 then 0 else qs[0].quotaNew - ps[0].tmp + Given(ps[1..], qs[1..], j - 1)
  }

  // Every node the second pass reaches is offered all that is left by then on top of what it was set to.
  lemma {:induction false} SecondOffers(ps: seq<Part>, left: U64)
    ensures var r := SecondPass(ps, left);
      && |r.parts| == |ps| && r.reached <= |ps|
      && (forall i :: 0 <= i < r.reached ==> Congruent(r.parts[i].tmp, ps[i].tmp + left - Given(ps, r.parts, i)))
  {
    hide Congruent, SecondStep;
    if ps == [] {
    } else {
      var (p, l) := SecondStep(ps[0], left);
      SecondStepGives(ps[0], left);
      var all := SecondPass(ps, left);
      if l != 0 {
        SecondOffers(ps[1..], l);
        var r := SecondPass(ps[1..], l);
        assert all.parts[1..] == r.parts;
        forall i | 0 < i < all.reached
          ensures Congruent(all.parts[i].tmp, ps[i].tmp + left - Given(ps, all.parts, i))
        {
          Onwards(p.quotaNew - ps[0].tmp, l, left, all.parts[i].tmp, ps[i].tmp, Given(ps[1..], r.parts, i - 1));
        }
      }
    }
  }

  // It takes what it is offered within its limit, and the nodes not reached are left alone.
  lemma {:induction false} SecondGives(ps: seq<Part>, left: U64)
    ensures var r := SecondPass(ps, left);
      && |r.parts| == |ps| && r.reached <= |ps|
      && (forall i :: 0 <= i < r.reached ==>
            SameNode(ps[i], r.parts[i]) && Limited(r.parts[i].quotaNew, ps[i].max, r.parts[i].tmp))
      && (forall i :: r.reached <= i < |ps| ==> r.parts[i] == ps[i])
  {
    hide Congruent, SecondStep, SameNode, Limited;
    if ps == [] {
    } else {
      var (p, l) := SecondStep(ps[0], left);
      SecondStepGives(ps[0], left);
      if l != 0 {
        SecondGives(ps[1..], l);
        var all, r := SecondPass(ps, left), SecondPass(ps[1..], l);
        assert all == Pass([p] + r.parts, r.left, r.reached + 1);
        forall i | 0 < i < |ps|
          ensures all.parts[i] == r.parts[i - 1] && ps[i] == ps[1..][i - 1]
        {
        }
      }
    }
  }

  // The second pass goes on exactly as long as something is left.
  lemma {:induction false} SecondStops(ps: seq<Part>, left: U64)
    ensures var r := SecondPass(ps, left);
      && |r.parts| == |ps| && r.reached <= |ps| && (ps != [] ==> 0 < r.reached)
      && (forall j :: 0 < j < r.reached ==> !Congruent(Given(ps, r.parts, j), left))
      && (r.reached < |ps| ==> Congruent(Given(ps, r.parts, r.reached), left))
  {
    hide Congruent, SecondStep;
    if ps == [] {
    } else {
      var (p, l) := SecondStep(ps[0], left);
      SecondStepGives(ps[0], left);
      var all := SecondPass(ps, left);
      var a := p.quotaNew - ps[0].tmp;
      if l == 0 {
        assert Given(ps[1..], all.parts[1..], 0) == 0;
        assert Given(ps, all.parts, 1) == a + l;
      } else {
        SecondStops(ps[1..], l);
        var r := SecondPass(ps[1..], l);
        assert all.parts[1..] == r.parts;
        forall j | 0 < j < all.reached
          ensures !Congruent(Given(ps, all.parts, j), left)
        {
          StillLeft(a, Given(ps[1..], r.parts, j - 1), l, left);
        }
        if all.reached < |ps| {
          CongruentChain(a, left, Given(ps[1..], r.parts, r.reached), 0, l);
        }
      }
    }
  }

  lemma SecondStepGives(p: Part, left: U64)
    ensures var (q, l) := SecondStep(p, left);
      && SameNode(p, q) && Congruent(q.tmp, p.tmp + left)
      && Limited(q.quotaNew, p.max, q.tmp) && Congruent(q.quotaNew - p.tmp + l, left)
  {
  }

  lemma Onwards(a: int, l: U64, left: U64, tmp': int, tmp: int, given: int)
    requires Congruent(a + l, left) && Congruent(tmp', tmp + l - given)
    ensures Congruent(tmp', tmp + left - (a + given))
  {
  }

  // Whatever the numbers and the limits, the pool is handed out exactly, up to the word, if and only if nothing slips.
  lemma PoolKeptIff(ps: seq<Part>, pool: U64, total: U64)
    requires ps != [] ==> 0 < total
    ensures var f, r := FirstPass(ps, pool, total, pool), HandOut(ps, pool, total);
      && |f.parts| == |r.parts| == |ps| && f.reached <= |ps| && r.reached <= |ps|
      && var m := if r.reached < f.reached then f.reached else r.reached;
         && Congruent(Assigned(r.parts, m) + r.left, pool + Slip(f.parts, f.reached, r.reached))
         && (Congruent(Assigned(r.parts, m) + r.left, pool) <==> Congruent(Slip(f.parts, f.reached, r.reached), 0))
         && (forall i :: 0 <= i < |ps| ==> r.parts[i].base == ps[i].base)
  {
    hide FirstPass, SecondPass, Congruent;
    var f := FirstPass(ps, pool, total, pool);
    FirstLaw(ps, pool, total, pool);
    SecondLaw(f.parts, f.reached, f.left);
    var r := HandOut(ps, pool, total);
    var m := if r.reached < f.reached then f.reached else r.reached;
    PoolArithmetic(Assigned(r.parts, m) + r.left, Assigned(f.parts, f.reached) + f.left, pool, Slip(f.parts, f.reached, r.reached));
  }

  lemma PoolArithmetic(a: int, b: int, pool: int, slip: int)
    requires Congruent(a, b + slip) && Congruent(b, pool)
    ensures Congruent(a, pool + slip)
    ensures Congruent(a, pool) <==> Congruent(slip, 0)
  {
  }

  // A first node that its upper limit cuts off: of a pool of 20, 25 are handed out.
  lemma LimitHandsOutMore()
    ensures var ps := [Part(0, 0, 1, 5, 0, 0), Part(0, 0, 1, 0, 0, 0)];
      var r := HandOut(ps, 20, 2);
      r.left == 0 && r.reached == 2 && Assigned(r.parts, 2) == 25
  {
    var ps := [Part(0, 0, 1, 5, 0, 0), Part(0, 0, 1, 0, 0, 0)];
    assert WordShare(20, 1, 2) == 10;
    var p0, p1 := Part(0, 0, 1, 5, 10, 5), Part(0, 0, 1, 0, 10, 10);
    assert FirstPass(ps[1..], 20, 2, 15) == Pass([p1], 5, 1);
    assert FirstPass(ps, 20, 2, 20) == Pass([p0, p1], 5, 2);
    var q0, q1 := Part(0, 0, 1, 5, 15, 5), Part(0, 0, 1, 0, 20, 20);
    assert [p0, p1][1..] == [p1];
    assert SecondPass([p1], 10) == Pass([q1], 0, 1);
    assert SecondPass([p0, p1], 5) == Pass([q0, q1], 0, 2);
    assert [q0, q1][1..] == [q1] && [q1][1..] == [];
    assert Assigned([q1], 1) == 20;
  }

  // The computed share is the true one exactly if the product fits into the word.
  lemma ShareTrueIff(pool: U64, weight: U64, total: U64)
    requires 0 < total
    ensures WordShare(pool, weight, total) == Share(pool, weight, total) <==> Mul(pool, weight) < TWO64
  {
    hide Mul;
    var x := Mul(pool, weight);
    assert 0 <= x by { ProductPositive(pool, weight); }
    if TWO64 <= x {
      WrapSmaller(x, total);
    }
  }

  lemma ProductPositive(a: nat, b: nat)
    ensures 0 <= Mul(a, b)
  {
  }

  lemma WrapSmaller(x: nat, total: U64)
    requires 0 < total && TWO64 <= x
    ensures x % TWO64 / total < x / total
  {
    hide Mul;
    var y := x % TWO64;
    var q, r := Share(y, 1, total), Share(x, 1, total);
    ShareBounds(y, 1, total);
    ShareBounds(x, 1, total);
    MulOne(y);
    MulOne(x);
    if r < q {
      MulStep(total, r, q);
    }
  }

  // ----- Splits in which no number leaves the word

  function Weights(ps: seq<Part>): seq<nat> {
    seq(|ps|, i requires 0 <= i < |ps| => ps[i].weight as nat)
  }

  function Bases(ps: seq<Part>): seq<nat> {
    seq(|ps|, i requires 0 <= i < |ps| => ps[i].base as nat)
  }

  function Quotas(ps: seq<Part>): seq<nat> {
    seq(|ps|, i requires 0 <= i < |ps| => ps[i].quota as nat)
  }

  function NewQuotas(ps: seq<Part>): seq<nat> {
    seq(|ps|, i requires 0 <= i < |ps| => ps[i].quotaNew as nat)
  }

  // The share of a node within its upper limit.
  function WithinLimit(p: Part, pool: nat, total: nat): nat
    requires 0 < total
  {
    var s := Share(pool, p.weight, total);
    if 0 < p.max < p.base + s then Max(0, p.max - p.base) else s
  }

  function LimitedShares(ps: seq<Part>, pool: nat, total: nat): seq<nat>
    requires 0 < total
  {
    seq(|ps|, i requires 0 <= i < |ps| => WithinLimit(ps[i], pool, total))
  }

  // No product and no sum leaves the word, and no node's base is above its limit.
  predicate Tame(p: Part, pool: U64) {
    Mul(pool, p.weight) < TWO64 && pool + p.base < TWO64 && (p.max == 0 || p.base <= p.max)
  }

  // The first node's limit, if it has one, has room for the whole pool.
  predicate Roomy(p: Part, pool: U64) {
    p.max == 0 || pool + p.base <= p.max
  }

  predicate Plain(ps: seq<Part>, pool: U64, total: U64) {
    && ps != [] && total == Sum(Weights(ps)) && 0 < total
    && (forall i :: 0 <= i < |ps| ==> Tame(ps[i], pool))
  }

  // If the shares of all but the last node leave something of the pool, or there is one node, all are reached.
  predicate AllReached(ps: seq<Part>, pool: U64, total: U64)
    requires ps != [] && 0 < total
  {
    |ps| == 1 || Taken(LimitedShares(ps, pool, total), |ps| - 1) < pool
  }

  lemma ShareInPool(pool: nat, weight: nat, total: nat)
    requires 0 < total && weight <= total
    ensures Share(pool, weight, total) <= pool
  {
    hide Mul;
    var s := Share(pool, weight, total);
    ShareBounds(pool, weight, total);
    MulSwap(pool, total);
    if weight < total {
      MulAdd(pool, weight, total - weight);
      ProductPositive(pool, total - weight);
    }
    if pool < s {
      MulStep(total, pool, s);
    }
  }

  // What the first pass makes of a node it reaches.
  predicate Shared(p: Part, q: Part, pool: U64, total: U64)
    requires 0 < total
  {
    && q.quota == p.quota && q.base == p.base && q.weight == p.weight && q.max == p.max
    && q.tmp == p.base + Share(pool, p.weight, total)
    && q.quotaNew == p.base + WithinLimit(p, pool, total)
  }

  // A tame node's step of the first pass.
  lemma FirstStepIs(p: Part, pool: U64, total: U64, left: U64)
    requires 0 < total && p.weight <= total && Tame(p, pool) && WithinLimit(p, pool, total) <= left
    ensures var (q, l) := FirstStep(p, pool, total, left);
      && Shared(p, q, pool, total)
      && l == left - WithinLimit(p, pool, total)
  {
    hide Share, WordShare, Mul;
    ShareInPool(pool, p.weight, total);
    ShareTrueIff(pool, p.weight, total);
  }

  lemma TakenCons(xs: seq<nat>, k: nat)
    requires 0 < k <= |xs|
    ensures Taken(xs, k) == xs[0] + Taken(xs[1..], k - 1)
  {
    SumSplit(xs[..k], 1);
    assert xs[..k][..1] == [xs[0]] && xs[..k][1..] == xs[1..][..k - 1];
    assert Sum([xs[0]]) == xs[0] by { assert [xs[0]][..0] == []; }
  }

  // The nodes the first pass reaches get their limited shares above base, in order, until nothing is left.
  lemma {:induction false} FirstExact(ps: seq<Part>, pool: U64, total: U64, left: U64)
    requires 0 < total
    requires forall i :: 0 <= i < |ps| ==> Tame(ps[i], pool) && ps[i].weight <= total
    requires forall k :: 0 <= k <= |ps| ==> Taken(LimitedShares(ps, pool, total), k) <= left
    ensures var r, s := FirstPass(ps, pool, total, left), LimitedShares(ps, pool, total);
      && |r.parts| == |ps| && r.reached <= |ps| && (ps != [] ==> 0 < r.reached)
      && r.left == left - Taken(s, r.reached) && (r.reached < |ps| ==> r.left == 0)
      && (forall j :: 0 < j < r.reached ==> Taken(s, j) < left)
      && (forall i :: 0 <= i < r.reached ==> Shared(ps[i], r.parts[i], pool, total))
      && (forall i :: r.reached <= i < |ps| ==> r.parts[i] == ps[i])
  {
    hide Shared, WithinLimit, Tame, Taken, FirstStep;
    var s := LimitedShares(ps, pool, total);
    TakenAll(s);
    if ps == [] {
    } else {
      var tail := ps[1..];
      assert s[1..] == LimitedShares(tail, pool, total);
      TakenCons(s, 1);
      TakenAll(s[1..]);
      FirstStepIs(ps[0], pool, total, left);
      var (p, l) := FirstStep(ps[0], pool, total, left);
      if l != 0 {
        forall k | 0 <= k <= |tail|
          ensures Taken(s[1..], k) <= l
        {
          TakenCons(s, k + 1);
        }
        FirstExact(tail, pool, total, l);
        var all, r := FirstPass(ps, pool, total, left), FirstPass(tail, pool, total, l);
        assert all == Pass([p] + r.parts, r.left, r.reached + 1);
        forall i | 0 < i < |ps|
          ensures all.parts[i] == r.parts[i - 1] && ps[i] == tail[i - 1]
        {
        }
        TakenCons(s, r.reached + 1);
        forall j | 0 < j < r.reached + 1
          ensures Taken(s, j) < left
        {
          TakenCons(s, j);
        }
      }
    }
  }

  lemma {:induction false} TakenMonotone(xs: seq<nat>, j: nat, k: nat)
    requires j <= k <= |xs|
    ensures Taken(xs, j) <= Taken(xs, k)
    decreases k
  {
    if j == k {
    } else {
      TakenMonotone(xs, j, k - 1);
      TakenStep(xs, k - 1);
    }
  }

  lemma {:induction false} TakenBelow(xs: seq<nat>, ys: seq<nat>, k: nat)
    requires k <= |xs| == |ys| && forall i :: 0 <= i < |xs| ==> xs[i] <= ys[i]
    ensures Taken(xs, k) <= Taken(ys, k)
    decreases k
  {
    if k == 0 {
    } else {
      TakenBelow(xs, ys, k - 1);
      TakenStep(xs, k - 1);
      TakenStep(ys, k - 1);
    }
  }

  // The limited shares fit into the pool; once they use it up, the remaining nodes have none.
  lemma LimitedUsedUp(ps: seq<Part>, pool: U64, total: U64, k: nat)
    requires Plain(ps, pool, total) && k <= |ps|
    ensures var s := LimitedShares(ps, pool, total);
      && Taken(s, k) <= pool
      && (Taken(s, k) == pool ==> forall i :: k <= i < |ps| ==> Share(pool, ps[i].weight, total) == 0)
      && (0 < k ==> s[0] <= Taken(s, k))
  {
    hide Share, Taken;
    var s, shares := LimitedShares(ps, pool, total), Shares(pool, Weights(ps), total);
    UsedUp(pool, Weights(ps), k);
    TakenBelow(s, shares, k);
    assert forall i :: 0 <= i < |ps| ==> shares[i] == Share(pool, ps[i].weight, total);
    if 0 < k {
      TakenStep(s, 0);
      TakenMonotone(s, 1, k);
    }
  }

  lemma WeightInSum(ps: seq<Part>, i: nat)
    requires i < |ps|
    ensures ps[i].weight <= Sum(Weights(ps))
  {
    var w := Weights(ps);
    TakenStep(w, i);
    TakenMonotone(w, i + 1, |w|);
    TakenAll(w);
  }

  // The first pass, seen from the whole pool.
  lemma FirstOfAll(ps: seq<Part>, pool: U64, total: U64)
    requires Plain(ps, pool, total)
    ensures var f, s := FirstPass(ps, pool, total, pool), LimitedShares(ps, pool, total);
      && 0 < f.reached <= |ps| == |f.parts| && f.left == pool - Taken(s, f.reached) && (f.reached < |ps| ==> f.left == 0)
      && (f.reached == |ps| <==> AllReached(ps, pool, total))
      && (forall i :: 0 <= i < f.reached ==> Shared(ps[i], f.parts[i], pool, total))
      && (forall i :: f.reached <= i < |ps| ==> f.parts[i] == ps[i])
  {
    hide FirstPass, Taken, Shared, Tame, WithinLimit, Weights;
    var f, s := FirstPass(ps, pool, total, pool), LimitedShares(ps, pool, total);
    forall i | 0 <= i < |ps|
      ensures ps[i].weight <= total
    {
      WeightInSum(ps, i);
    }
    forall k | 0 <= k <= |ps|
      ensures Taken(s, k) <= pool
    {
      LimitedUsedUp(ps, pool, total, k);
    }
    FirstExact(ps, pool, total, pool);
    if f.reached < |ps| {
      TakenMonotone(s, f.reached, |ps| - 1);
    }
  }

  // The second pass ends at a first node that has room.
  lemma SecondAtFirst(ps: seq<Part>, left: U64)
    requires ps != [] && ps[0].tmp + left < TWO64 && (ps[0].max == 0 || ps[0].tmp + left <= ps[0].max)
    ensures var r := SecondPass(ps, left);
      && r.left == 0 && r.reached == 1 && |r.parts| == |ps| && r.parts[1..] == ps[1..]
      && r.parts[0].base == ps[0].base && r.parts[0].quotaNew == ps[0].tmp + left
  {
  }

  lemma {:induction false} AssignedIs(ps: seq<Part>, s: seq<nat>, k: nat)
    requires k <= |ps| == |s| && forall i :: 0 <= i < k ==> ps[i].quotaNew - ps[i].base == s[i]
    ensures Assigned(ps, k) == Taken(s, k)
  {
    hide Taken;
    if k == 0 {
      TakenAll(s);
    } else {
      AssignedIs(ps[1..], s[1..], k - 1);
      TakenCons(s, k);
    }
  }

  // What one split gives: every node reached its limited share above its base, the first one also what is left of the
  // pool, together exactly the pool; a node not reached keeps what it had, and its share is zero. Without limits what
  // is left over by rounding is less than one token a node.
  lemma SplitExact(ps: seq<Part>, pool: U64, total: U64)
    requires Plain(ps, pool, total) && Roomy(ps[0], pool)
    ensures var r, s, k := HandOut(ps, pool, total), LimitedShares(ps, pool, total), FirstPass(ps, pool, total, pool).reached;
      && 0 < k <= |ps| == |r.parts| && r.left == 0
      && (k == |ps| <==> AllReached(ps, pool, total))
      && (forall i :: 0 <= i < |ps| ==> r.parts[i].base == ps[i].base)
      && (forall i :: 0 <= i < k ==> r.parts[i].quotaNew == ps[i].base + s[i] + if i == 0 then pool - Taken(s, k) else 0)
      && (forall i :: k <= i < |ps| ==> r.parts[i] == ps[i] && Share(pool, ps[i].weight, total) == 0)
      && Assigned(r.parts, k) == pool
      && ((forall i :: 0 <= i < |ps| ==> ps[i].max == 0) ==> 0 <= pool - Taken(s, k) < |ps|)
  {
    hide FirstPass, HandOut, Taken, WithinLimit, Share, Tame, Weights, AllReached;
    var s, k := LimitedShares(ps, pool, total), FirstPass(ps, pool, total, pool).reached;
    FirstOfAll(ps, pool, total);
    LimitedUsedUp(ps, pool, total, k);
    PartsHandedOut(ps, pool, total);
    AssignedWithRest(HandOut(ps, pool, total).parts, s, pool - Taken(s, k), k);
    if forall i :: 0 <= i < |ps| ==> ps[i].max == 0 {
      RestUnlimited(ps, pool, total, k);
    }
  }

  // Node by node, after both passes.
  lemma PartsHandedOut(ps: seq<Part>, pool: U64, total: U64)
    requires Plain(ps, pool, total) && Roomy(ps[0], pool)
    ensures var r, s, k := HandOut(ps, pool, total), LimitedShares(ps, pool, total), FirstPass(ps, pool, total, pool).reached;
      && 0 < k <= |ps| == |r.parts| && r.left == 0
      && (forall i :: 0 <= i < |ps| ==> r.parts[i].base == ps[i].base)
      && (forall i :: 0 <= i < k ==> r.parts[i].quotaNew == ps[i].base + s[i] + if i == 0 then pool - Taken(s, k) else 0)
      && (forall i :: k <= i < |ps| ==> r.parts[i] == ps[i])
  {
    hide FirstPass, SecondPass, Taken, WithinLimit, Share, Tame, Weights, AllReached;
    var f := FirstPass(ps, pool, total, pool);
    FirstOfAll(ps, pool, total);
    FirstHasRoom(ps, pool, total);
    SecondAtFirst(f.parts, f.left);
    var parts := HandOut(ps, pool, total).parts;
    forall i | 0 < i < |ps|
      ensures parts[i] == f.parts[i]
    {
      assert parts[i] == parts[1..][i - 1];
    }
  }

  lemma AssignedWithRest(ps: seq<Part>, s: seq<nat>, rest: int, k: nat)
    requires 0 < k <= |ps| == |s|
    requires forall i :: 0 <= i < k ==> ps[i].quotaNew - ps[i].base == s[i] + if i == 0 then rest else 0
    ensures Assigned(ps, k) == Taken(s, k) + rest
  {
    hide Taken;
    AssignedIs(ps[1..], s[1..], k - 1);
    TakenCons(s, k);
  }

  lemma FirstHasRoom(ps: seq<Part>, pool: U64, total: U64)
    requires Plain(ps, pool, total) && Roomy(ps[0], pool)
    ensures var f := FirstPass(ps, pool, total, pool);
      f.parts != [] && f.parts[0].tmp + f.left <= pool + ps[0].base < TWO64 && f.parts[0].max == ps[0].max
      && f.parts[0].tmp == ps[0].base + LimitedShares(ps, pool, total)[0]
  {
    hide FirstPass, Taken, Share, Weights;
    FirstOfAll(ps, pool, total);
    var f, s := FirstPass(ps, pool, total, pool), LimitedShares(ps, pool, total);
    LimitedUsedUp(ps, pool, total, f.reached);
    WeightInSum(ps, 0);
    ShareInPool(pool, ps[0].weight, total);
    assert Shared(ps[0], f.parts[0], pool, total);
  }

  lemma RestUnlimited(ps: seq<Part>, pool: U64, total: U64, k: nat)
    requires Plain(ps, pool, total) && 0 < k <= |ps| && forall i :: 0 <= i < |ps| ==> ps[i].max == 0
    requires k < |ps| ==> Taken(LimitedShares(ps, pool, total), k) == pool
    ensures pool - Taken(LimitedShares(ps, pool, total), k) < |ps|
  {
    hide Taken, Share;
    assert LimitedShares(ps, pool, total) == Shares(pool, Weights(ps), total);
    RestSmall(pool, Weights(ps));
    TakenAll(Shares(pool, Weights(ps), total));
  }

  // ----- When the pool is kept, said of the inputs

  // Without limits, as the dispatcher sets its nodes up: the second pass ends at the first node, and the shares above
  // base are the pool, whatever products and sums leave the word.
  lemma PoolKeptUnlimited(ps: seq<Part>, pool: U64, total: U64)
    requires ps != [] && 0 < total && forall i :: 0 <= i < |ps| ==> ps[i].max == 0
    ensures var f, r := FirstPass(ps, pool, total, pool), HandOut(ps, pool, total);
      && 0 < f.reached <= |ps| == |f.parts| == |r.parts| && r.reached == 1 && r.left == 0
      && Congruent(Assigned(r.parts, f.reached), pool)
  {
    hide Congruent, WordShare, Assigned;
    var f := FirstPass(ps, pool, total, pool);
    FirstLaw(ps, pool, total, pool);
    UncutFirst(ps, pool, total);
    assert Slip(f.parts[1..], f.reached - 1, 0) == 0;
    PoolKeptIff(ps, pool, total);
    CongruentSame(0);
  }

  lemma UncutFirst(ps: seq<Part>, pool: U64, total: U64)
    requires ps != [] && 0 < total && ps[0].max == 0
    ensures var f := FirstPass(ps, pool, total, pool);
      f.parts != [] && f.parts[0].max == 0 && f.parts[0].quotaNew == f.parts[0].tmp
  {
    hide WordShare;
  }

  // The rest is used up before the first node that its limit cuts off.
  predicate UsedUpInTime(ps: seq<Part>, pool: U64, total: U64, rest: int)
    requires 0 < total
  {
    ps == [] ||
    var full := ps[0].base + Share(pool, ps[0].weight, total);
    ps[0].max == 0
    || (full <= ps[0].max
        && (rest <= ps[0].max - full || UsedUpInTime(ps[1..], pool, total, rest - (ps[0].max - full))))
  }

  ghost predicate AllShared(ps: seq<Part>, qs: seq<Part>, pool: U64, total: U64)
    requires 0 < total
  {
    |qs| == |ps| && forall i :: 0 <= i < |ps| ==> Shared(ps[i], qs[i], pool, total)
  }

  function FullShares(ps: seq<Part>, pool: nat, total: nat): seq<nat>
    requires 0 < total
  {
    seq(|ps|, i requires 0 <= i < |ps| => Share(pool, ps[i].weight, total))
  }

  // What slips over nodes that the first pass has reached is what their limits cut off.
  lemma {:induction false} SlipIsCut(ps: seq<Part>, qs: seq<Part>, pool: U64, total: U64, k: nat, j: nat)
    requires 0 < total && AllShared(ps, qs, pool, total) && j <= |qs| <= k
    ensures Slip(qs, k, j) == Taken(FullShares(ps, pool, total), j) - Taken(LimitedShares(ps, pool, total), j)
    decreases j
  {
    hide Share, WithinLimit, Taken;
    var full, limited := FullShares(ps, pool, total), LimitedShares(ps, pool, total);
    TakenAll(full);
    TakenAll(limited);
    if j == 0 {
    } else {
      SlipIsCut(ps[1..], qs[1..], pool, total, k - 1, j - 1);
      assert full[1..] == FullShares(ps[1..], pool, total) && limited[1..] == LimitedShares(ps[1..], pool, total);
      TakenCons(full, j);
      TakenCons(limited, j);
      assert Shared(ps[0], qs[0], pool, total);
    }
  }

  // The turn of a node that is not cut off, in the second pass.
  lemma UncutTurn(p: Part, q: Part, pool: U64, total: U64, left: U64)
    requires 0 < total && Tame(p, pool) && Shared(p, q, pool, total) && WithinLimit(p, pool, total) + left <= pool
    requires p.max == 0 || p.base + Share(pool, p.weight, total) <= p.max
    ensures var full := p.base + Share(pool, p.weight, total);
      SecondStep(q, left).1 == if p.max == 0 || left <= p.max - full then 0 else left - (p.max - full)
    ensures q.tmp == q.quotaNew
  {
    hide Share, Mul;
  }

  lemma CutSlips(p: Part, q: Part, pool: U64, total: U64)
    requires 0 < total && Tame(p, pool) && Shared(p, q, pool, total)
    requires 0 < p.max < p.base + Share(pool, p.weight, total)
    ensures q.quotaNew < q.tmp
  {
    hide Share, Mul;
  }

  // A second pass slips exactly if the rest is not used up in time.
  lemma {:induction false} SlipsIff(ps: seq<Part>, qs: seq<Part>, pool: U64, total: U64, k: nat, left: U64)
    requires 0 < total && AllShared(ps, qs, pool, total) && |qs| <= k
    requires forall i :: 0 <= i < |ps| ==> Tame(ps[i], pool) && WithinLimit(ps[i], pool, total) + left <= pool
    ensures var j := SecondPass(qs, left).reached;
      j <= |qs| && (Slip(qs, k, j) == 0 <==> UsedUpInTime(ps, pool, total, left)) && 0 <= Slip(qs, k, j)
  {
    hide Tame, Taken, SecondStep;
    SecondLaw(qs, |qs|, left);
    var j := SecondPass(qs, left).reached;
    SlipPositive(ps, qs, pool, total, k, j);
    if ps == [] {
    } else {
      assert Shared(ps[0], qs[0], pool, total);
      var full := ps[0].base + Share(pool, ps[0].weight, total);
      if ps[0].max == 0 || full <= ps[0].max {
        UncutTurn(ps[0], qs[0], pool, total, left);
        var l := SecondStep(qs[0], left).1;
        if l == 0 {
          assert Slip(qs[1..], k - 1, 0) == 0;
        } else {
          SlipsIff(ps[1..], qs[1..], pool, total, k - 1, l);
        }
      } else {
        CutSlips(ps[0], qs[0], pool, total);
        SlipPositive(ps[1..], qs[1..], pool, total, k - 1, j - 1);
        assert Slip(qs, k, j) == qs[0].tmp - qs[0].quotaNew + Slip(qs[1..], k - 1, j - 1);
      }
    }
  }

  lemma SlipPositive(ps: seq<Part>, qs: seq<Part>, pool: U64, total: U64, k: nat, j: nat)
    requires 0 < total && AllShared(ps, qs, pool, total) && j <= |qs| <= k
    ensures 0 <= Slip(qs, k, j)
  {
    hide Share, Taken;
    SlipIsCut(ps, qs, pool, total, k, j);
    TakenBelow(LimitedShares(ps, pool, total), FullShares(ps, pool, total), j);
  }

  // Whether the pool is kept can be told before the split: it is, exactly if what the limited shares leave is used up
  // before the first node that its limit cuts off.
  lemma PoolKeptBefore(ps: seq<Part>, pool: U64, total: U64)
    requires Plain(ps, pool, total) && AllReached(ps, pool, total)
    ensures var r, s := HandOut(ps, pool, total), LimitedShares(ps, pool, total);
      && |r.parts| == |ps|
      && (Congruent(Assigned(r.parts, |ps|) + r.left, pool) <==> UsedUpInTime(ps, pool, total, pool - Taken(s, |ps|)))
  {
    hide FirstPass, SecondPass, Tame, Shared, Share, Taken, Weights, Congruent, AllReached, Sum;
    var f, s := FirstPass(ps, pool, total, pool), LimitedShares(ps, pool, total);
    FirstOfAll(ps, pool, total);
    var j := SecondPass(f.parts, f.left).reached;
    forall i | 0 <= i < |ps|
      ensures WithinLimit(ps[i], pool, total) + f.left <= pool
    {
      TakenStep(s, i);
      TakenMonotone(s, i + 1, |ps|);
      TakenMonotone(s, 0, i);
      TakenAll(s);
    }
    SlipsIff(ps, f.parts, pool, total, |ps|, f.left);
    SlipIsCut(ps, f.parts, pool, total, |ps|, j);
    FullInPool(ps, pool, total, j);
    PoolKeptIff(ps, pool, total);
    SmallCongruent(Slip(f.parts, |ps|, j));
  }

  // If the pool is used up before every node is reached, it is kept unless the first node is cut off.
  lemma PoolKeptEarly(ps: seq<Part>, pool: U64, total: U64)
    requires Plain(ps, pool, total) && !AllReached(ps, pool, total)
    requires ps[0].max == 0 || ps[0].base + Share(pool, ps[0].weight, total) <= ps[0].max
    ensures var f, r := FirstPass(ps, pool, total, pool), HandOut(ps, pool, total);
      && f.reached < |ps| == |r.parts| && r.left == 0
      && Congruent(Assigned(r.parts, f.reached), pool)
  {
    hide FirstPass, Tame, Share, Taken, Weights, Congruent, AllReached, Sum;
    var f := FirstPass(ps, pool, total, pool);
    FirstOfAll(ps, pool, total);
    assert Shared(ps[0], f.parts[0], pool, total);
    assert SecondPass(f.parts, 0).reached == 1 && SecondPass(f.parts, 0).left == 0;
    assert Slip(f.parts[1..], f.reached - 1, 0) == 0;
    PoolKeptIff(ps, pool, total);
    CongruentSame(0);
  }

  lemma FullInPool(ps: seq<Part>, pool: U64, total: U64, j: nat)
    requires Plain(ps, pool, total) && j <= |ps|
    ensures Taken(FullShares(ps, pool, total), j) <= pool
  {
    hide Share, Taken;
    assert FullShares(ps, pool, total) == Shares(pool, Weights(ps), total);
    UsedUp(pool, Weights(ps), j);
  }

  lemma SmallCongruent(x: int)
    requires 0 <= x < TWO64
    ensures Congruent(x, 0) <==> x == 0
  {
  }

  // ----- The quotas before and after

  lemma {:induction false} NewQuotasAre(ps: seq<Part>)
    ensures Sum(NewQuotas(ps)) == Sum(Bases(ps)) + Assigned(ps, |ps|)
  {
    if ps == [] {
    } else {
      NewQuotasAre(ps[1..]);
      SumCons(NewQuotas(ps));
      SumCons(Bases(ps));
      assert NewQuotas(ps)[1..] == NewQuotas(ps[1..]) && Bases(ps)[1..] == Bases(ps[1..]);
    }
  }

  lemma SumCons(xs: seq<nat>)
    requires xs != []
    ensures Sum(xs) == xs[0] + Sum(xs[1..])
  {
    TakenCons(xs, |xs|);
    TakenAll(xs);
    TakenAll(xs[1..]);
  }

  // If all but the last node leave something of the pool, or there is only one, every node is reached, and the new
  // quotas together are the old ones less every base once more, up to the word. Nothing is lost exactly if no node
  // has a base.
  lemma BaseLostIff(ps: seq<Part>, pool: U64, total: U64)
    requires Plain(ps, pool, total) && Roomy(ps[0], pool) && AllReached(ps, pool, total)
    requires Congruent(pool, Sum(Quotas(ps)) - 2 * Sum(Bases(ps)))
    ensures var before, after, bases := Sum(Quotas(ps)), Sum(NewQuotas(HandOut(ps, pool, total).parts)), Sum(Bases(ps));
      && after == bases + pool
      && (Congruent(after, before) <==> Congruent(bases, 0))
      && (bases <= before < TWO64 ==> (after == before <==> bases == 0))
  {
    hide HandOut, Sum, Taken, Tame, WithinLimit, Share, FirstPass, Congruent;
    SplitExact(ps, pool, total);
    var parts := HandOut(ps, pool, total).parts;
    NewQuotasAre(parts);
    assert Bases(parts) == Bases(ps);
    BaseArithmetic(Sum(Quotas(ps)), Sum(Bases(ps)), pool);
  }

  lemma BaseArithmetic(before: nat, bases: nat, pool: U64)
    requires Congruent(pool, before - 2 * bases)
    ensures Congruent(bases + pool, before) <==> Congruent(bases, 0)
    ensures bases <= before < TWO64 ==> (bases + pool == before <==> bases == 0)
  {
    var q := (pool - (before - 2 * bases)) / TWO64;
    assert bases + pool - before == q * TWO64 - bases;
    OffByMultiple(q, bases);
  }

  lemma OffByMultiple(q: int, x: int)
    ensures (q * TWO64 - x) % TWO64 == 0 <==> x % TWO64 == 0
  {
    if x % TWO64 == 0 {
      var p := x / TWO64;
      assert q * TWO64 - x == (q - p) * TWO64;
    }
    if (q * TWO64 - x) % TWO64 == 0 {
      var p := (q * TWO64 - x) / TWO64;
      assert x == (q - p) * TWO64;
    }
  }

  // A single node with a quota of 10, a minimum of 4 and some press ends with 6.
  lemma BaseLost()
    ensures var ps := [Part(10, 4, 1, 0, 6, 10)];
      && Plain(ps, 2, 1) && Roomy(ps[0], 2) && AllReached(ps, 2, 1)
      && Congruent(2, Sum(Quotas(ps)) - 2 * Sum(Bases(ps))) && HandOut(ps, 2, 1).parts[0].quotaNew == 6
  {
    var ps := [Part(10, 4, 1, 0, 6, 10)];
    SumOne(Weights(ps));
    SumOne(Quotas(ps));
    SumOne(Bases(ps));
    SplitExact(ps, 2, 1);
    TakenAll(LimitedShares(ps, 2, 1));
  }

  // The pool is what the quotas leave beyond twice the bases, unless that is negative: then it wraps around.
  lemma PoolWrapsIff(total: U64, fixed: U64, bases: nat, quotas: nat)
    requires Congruent(fixed, bases) && Congruent(total + fixed, quotas) && bases <= quotas < TWO64
    ensures Sub64(total, fixed) == quotas - 2 * bases <==> 2 * bases <= quotas
  {
    PoolIs(total, fixed, bases, quotas);
  }

  lemma PoolIs(total: U64, fixed: U64, bases: nat, quotas: nat)
    requires Congruent(fixed, bases) && Congruent(total + fixed, quotas)
    ensures Congruent(Sub64(total, fixed), quotas - 2 * bases)
  {
  }

  // A single node whose quota of 10 is its minimum makes a pool of 2^64 - 10, and ends with a quota of 0.
  lemma MinimumEndsAtZero(weight: U64, quotaNew: U64)
    requires 0 < weight
    ensures Congruent(10, Sum(Bases([Part(10, 10, weight, 0, 0, quotaNew)])))
    ensures Sub64(0, 10) == TWO64 - 10
    ensures HandOut([Part(10, 10, weight, 0, 0, quotaNew)], TWO64 - 10, weight).parts[0].quotaNew == 0
  {
    var ps := [Part(10, 10, weight, 0, 0, quotaNew)];
    SumOne(Bases(ps));
    PoolKeptUnlimited(ps, TWO64 - 10, weight);
    PoolKeptIff(ps, TWO64 - 10, weight);
    var r := HandOut(ps, TWO64 - 10, weight);
    assert Assigned(r.parts[1..], 0) == 0;
    assert r.parts[0].base == 10;
  }

  lemma SumOne(xs: seq<nat>)
    requires |xs| == 1
    ensures Sum(xs) == xs[0]
  {
    assert xs[..0] == [];
  }
}
