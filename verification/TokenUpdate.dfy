/** The objects of an update (sysqos_token_update.c): they end as the split on their values leaves them. */
module TokenUpdates {
  import opened Words
  import opened Split

  class UpdateNode {
    // of the application node this is part of
    const limitMin: U64
    const limitMax: U64
    var tokenQuota: U64
    var tokenQuotaNew: U64
    var press: U64
    // of the update itself
    var weight: U64
    var tmpTokenQuota: U64
    var tokenBase: U64

    constructor (limitMin: U64, limitMax: U64)
      ensures this.limitMin == limitMin && this.limitMax == limitMax
    {
      this.limitMin, this.limitMax := limitMin, limitMax;
      tokenQuota, tokenQuotaNew, press, weight, tmpTokenQuota, tokenBase := 0, 0, 0, 0, 0, 0;
    }

    ghost function Value(): Part
      reads this
    {
      Part(tokenQuota, tokenBase, weight, limitMax, tmpTokenQuota, tokenQuotaNew)
    }

    // `init_update_node`
    method InitUpdate()
      modifies this
      ensures weight == press && tokenBase == Min(limitMin, tokenQuota) && tmpTokenQuota + tokenBase == tokenQuota
      ensures unchanged(`tokenQuota, `tokenQuotaNew, `press)
    {
      tokenBase := Min(limitMin, tokenQuota);
      tmpTokenQuota := tokenQuota - tokenBase;
      weight := press;
    }

    // `update_token_quota_new`: the new quota is taken, cut off at the limit.
    method SetQuotaNew(quota: U64) returns (taken: U64)
      modifies this`tokenQuotaNew
      ensures taken == tokenQuotaNew == Cap(limitMax, quota)
    {
      taken := if limitMax > 0 then Min(limitMax, quota) else quota;
      tokenQuotaNew := taken;
    }
  }

  ghost function Parts(nodes: seq<UpdateNode>): (ps: seq<Part>)
    reads nodes
    ensures |ps| == |nodes| && forall i :: 0 <= i < |nodes| ==> ps[i] == nodes[i].Value()
  {
    if nodes == [] then [] else [nodes[0].Value()] + Parts(nodes[1..])
  }

  ghost predicate Distinct(nodes: seq<UpdateNode>) {
    forall i, j :: 0 <= i < j < |nodes| ==> nodes[i] != nodes[j]
  }

  // Nodes that did not change have the values they had.
  twostate lemma PartsKept(nodes: seq<UpdateNode>)
    requires forall i :: 0 <= i < |nodes| ==> unchanged(nodes[i])
    ensures Parts(nodes) == old(Parts(nodes))
  {
  }

  function Behind(ps: seq<Part>, r: Pass): Pass {
    Pass(ps + r.parts, r.left, |ps| + r.reached)
  }

  lemma FirstNext(before: seq<Part>, ps: seq<Part>, pool: U64, total: U64, left: U64)
    requires ps != [] && 0 < total
    ensures var (p, l) := FirstStep(ps[0], pool, total, left);
      Behind(before, FirstPass(ps, pool, total, left)) ==
      if l == 0 then Pass(before + [p] + ps[1..], 0, |before| + 1)
      else Behind(before + [p], FirstPass(ps[1..], pool, total, l))
  {
    hide FirstStep;
    var (p, l) := FirstStep(ps[0], pool, total, left);
    assert before + ([p] + ps[1..]) == before + [p] + ps[1..];
    var r := FirstPass(ps[1..], pool, total, l);
    assert before + ([p] + r.parts) == before + [p] + r.parts;
  }

  lemma SecondNext(before: seq<Part>, ps: seq<Part>, left: U64)
    requires ps != []
    ensures var (p, l) := SecondStep(ps[0], left);
      Behind(before, SecondPass(ps, left)) ==
      if l == 0 then Pass(before + [p] + ps[1..], 0, |before| + 1)
      else Behind(before + [p], SecondPass(ps[1..], l))
  {
    hide SecondStep;
    var (p, l) := SecondStep(ps[0], left);
    assert before + ([p] + ps[1..]) == before + [p] + ps[1..];
    var r := SecondPass(ps[1..], l);
    assert before + ([p] + r.parts) == before + [p] + r.parts;
  }

  // The nodes' values `now`, in the first loop before the turn of node i; `ps` are their values before the loop.
  ghost predicate FirstUnderway(now: seq<Part>, ps: seq<Part>, i: nat, pool: U64, total: U64, left: U64, goal: Pass)
    requires ps != [] ==> 0 < total
  {
    && i <= |ps| == |now| && now[i..] == ps[i..]
    && Behind(now[..i], FirstPass(ps[i..], pool, total, left)) == goal
  }

  lemma FirstStarts(ps: seq<Part>, pool: U64, total: U64, left: U64)
    requires ps != [] ==> 0 < total
    ensures FirstUnderway(ps, ps, 0, pool, total, left, FirstPass(ps, pool, total, left))
  {
    hide FirstPass;
    var r := FirstPass(ps, pool, total, left);
    assert ps[0..] == ps && ps[..0] + r.parts == r.parts;
  }

  lemma FirstTurn(now: seq<Part>, ps: seq<Part>, i: nat, pool: U64, total: U64, left: U64, goal: Pass)
    requires 0 < total && i < |ps| && FirstUnderway(now, ps, i, pool, total, left, goal)
    ensures i < |now|
    ensures var (p, l) := FirstStep(now[i], pool, total, left);
      if l == 0 then Pass(now[i := p], l, i + 1) == goal else FirstUnderway(now[i := p], ps, i + 1, pool, total, l, goal)
  {
    hide FirstStep, FirstPass, Behind;
    var (p, l) := FirstStep(now[i], pool, total, left);
    assert now[i] == now[i..][0] == ps[i..][0] && ps[i..][1..] == ps[i + 1..] == now[i + 1..];
    FirstNext(now[..i], ps[i..], pool, total, left);
    assert now[i := p][..i + 1] == now[..i] + [p] && now[i := p][i + 1..] == now[i + 1..];
    assert now[i := p] == now[..i] + [p] + ps[i + 1..];
  }

  lemma FirstEnds(now: seq<Part>, ps: seq<Part>, pool: U64, total: U64, left: U64, goal: Pass)
    requires (ps != [] ==> 0 < total) && FirstUnderway(now, ps, |ps|, pool, total, left, goal)
    ensures Pass(now, left, |ps|) == goal
  {
    assert now[..|ps|] + [] == now;
  }

  // The nodes' values `now`, in the second loop before the turn of node i; `ps` are their values before the loop.
  ghost predicate SecondUnderway(now: seq<Part>, ps: seq<Part>, i: nat, left: U64, goal: Pass)
  {
    && i <= |ps| == |now| && now[i..] == ps[i..]
    && Behind(now[..i], SecondPass(ps[i..], left)) == goal
  }

  lemma SecondStarts(ps: seq<Part>, left: U64)
    ensures SecondUnderway(ps, ps, 0, left, SecondPass(ps, left))
  {
    hide SecondPass;
    var r := SecondPass(ps, left);
    assert ps[0..] == ps && ps[..0] + r.parts == r.parts;
  }

  lemma SecondTurn(now: seq<Part>, ps: seq<Part>, i: nat, left: U64, goal: Pass)
    requires i < |ps| && SecondUnderway(now, ps, i, left, goal)
    ensures i < |now|
    ensures var (p, l) := SecondStep(now[i], left);
      if l == 0 then Pass(now[i := p], l, i + 1) == goal else SecondUnderway(now[i := p], ps, i + 1, l, goal)
  {
    hide SecondStep, SecondPass, Behind;
    var (p, l) := SecondStep(now[i], left);
    assert now[i] == now[i..][0] == ps[i..][0] && ps[i..][1..] == ps[i + 1..] == now[i + 1..];
    SecondNext(now[..i], ps[i..], left);
    assert now[i := p][..i + 1] == now[..i] + [p] && now[i := p][i + 1..] == now[i + 1..];
    assert now[i := p] == now[..i] + [p] + ps[i + 1..];
  }

  lemma SecondEnds(now: seq<Part>, ps: seq<Part>, left: U64, goal: Pass)
    requires SecondUnderway(now, ps, |ps|, left, goal)
    ensures Pass(now, left, |ps|) == goal
  {
    assert now[..|ps|] + [] == now;
  }

  lemma AddedTo(a: U64, b: U64, sum: nat)
    requires Congruent(a, sum)
    ensures Congruent(Add64(a, b), b + sum)
  {
  }

  lemma AddedBoth(total: U64, fixed: U64, tmp: U64, base: U64, sum: nat)
    requires Congruent(total + fixed, sum)
    ensures Congruent(Add64(total, tmp) + Add64(fixed, base), tmp + base + sum)
  {
  }

  lemma SumsOf(p: Part, ps: seq<Part>)
    ensures Sum(Weights([p] + ps)) == p.weight + Sum(Weights(ps))
    ensures Sum(Bases([p] + ps)) == p.base + Sum(Bases(ps))
    ensures Sum(Quotas([p] + ps)) == p.quota + Sum(Quotas(ps))
  {
    var all := [p] + ps;
    assert Weights(all)[1..] == Weights(ps) && Bases(all)[1..] == Bases(ps) && Quotas(all)[1..] == Quotas(ps);
    SumCons(Weights(all));
    SumCons(Bases(all));
    SumCons(Quotas(all));
  }

  class TokenUpdateCtx {
    var totalWeight: U64
    var tokenTotal: U64
    var tokenStatic: U64
    var nodes: seq<UpdateNode>

    constructor ()
      ensures Valid() && nodes == []
    {
      nodes, totalWeight, tokenTotal, tokenStatic := [], 0, 0, 0;
    }

    // The totals are those of the nodes, up to the word; the total of the tokens leaves out the bases.
    ghost predicate Valid()
      reads this, nodes
    {
      var ps := Parts(nodes);
      && Distinct(nodes)
      && Congruent(totalWeight, Sum(Weights(ps)))
      && Congruent(tokenStatic, Sum(Bases(ps)))
      && Congruent(tokenTotal + tokenStatic, Sum(Quotas(ps)))
    }

    // `add_resource`
    method AddResource(node: UpdateNode)
      requires Valid() && node !in nodes
      modifies this, node
      ensures Valid() && nodes == [node] + old(nodes)
      ensures unchanged(node`tokenQuota, node`tokenQuotaNew, node`press)
      ensures node.weight == node.press && node.tokenBase == Min(node.limitMin, node.tokenQuota)
    {
      hide Sum, Parts, Congruent;
      ghost var ps := Parts(nodes);
      ghost var ns := nodes;
      node.InitUpdate();
      PartsKept(ns);
      nodes := [node] + nodes;
      totalWeight := Add64(totalWeight, node.weight);
      tokenTotal := Add64(tokenTotal, node.tmpTokenQuota);
      tokenStatic := Add64(tokenStatic, node.tokenBase);
      assert Parts(nodes) == [node.Value()] + ps;
      SumsOf(node.Value(), ps);
      AddedTo(old(totalWeight), node.weight, Sum(Weights(ps)));
      AddedTo(old(tokenStatic), node.tokenBase, Sum(Bases(ps)));
      AddedBoth(old(tokenTotal), old(tokenStatic), node.tmpTokenQuota, node.tokenBase, Sum(Quotas(ps)));
    }

    // `update_node_quota`: returns what the node took from the pool.
    method UpdateNodeQuota(node: UpdateNode, pool: U64, total: U64, ghost left: U64) returns (used: U64)
      requires 0 < total
      modifies node`tmpTokenQuota, node`tokenQuotaNew
      ensures (node.Value(), Sub64(left, used)) == FirstStep(old(node.Value()), pool, total, left)
    {
      node.tmpTokenQuota := Add64(WordShare(pool, node.weight, total), node.tokenBase);
      var taken := node.SetQuotaNew(node.tmpTokenQuota);
      used := Sub64(taken, node.tokenBase);
    }

    // `update_node_quota_left`
    method UpdateNodeQuotaLeft(node: UpdateNode, left: U64) returns (used: U64)
      modifies node`tmpTokenQuota, node`tokenQuotaNew
      ensures (node.Value(), Sub64(left, used)) == SecondStep(old(node.Value()), left)
    {
      var was := node.tmpTokenQuota;
      node.tmpTokenQuota := Add64(node.tmpTokenQuota, left);
      var taken := node.SetQuotaNew(node.tmpTokenQuota);
      used := Sub64(taken, was);
    }

    // One round of the first loop of `update`.
    method FirstAt(i: nat, pool: U64, total: U64, left: U64, ghost ps: seq<Part>, ghost goal: Pass) returns (left': U64)
      requires Distinct(nodes) && i < |nodes| == |ps| && 0 < total && FirstUnderway(Parts(nodes), ps, i, pool, total, left, goal)
      modifies nodes
      ensures if left' == 0 then Pass(Parts(nodes), left', i + 1) == goal
              else FirstUnderway(Parts(nodes), ps, i + 1, pool, total, left', goal)
    {
      hide FirstStep, FirstUnderway, Parts, UpdateNode.Value;
      ghost var was := Parts(nodes);
      FirstTurn(was, ps, i, pool, total, left, goal);
      var used := UpdateNodeQuota(nodes[i], pool, total, left);
      assert forall j | 0 <= j < |nodes| && j != i :: nodes[j].Value() == old(nodes[j].Value());
      assert Parts(nodes) == was[i := FirstStep(was[i], pool, total, left).0];
      left' := Sub64(left, used);
    }

    // One round of the second loop of `update`.
    method SecondAt(i: nat, left: U64, ghost ps: seq<Part>, ghost goal: Pass) returns (left': U64)
      requires Distinct(nodes) && i < |nodes| == |ps| && SecondUnderway(Parts(nodes), ps, i, left, goal)
      modifies nodes
      ensures if left' == 0 then Pass(Parts(nodes), left', i + 1) == goal
              else SecondUnderway(Parts(nodes), ps, i + 1, left', goal)
    {
      hide SecondStep, SecondUnderway, Parts, UpdateNode.Value;
      ghost var was := Parts(nodes);
      SecondTurn(was, ps, i, left, goal);
      var used := UpdateNodeQuotaLeft(nodes[i], left);
      assert forall j | 0 <= j < |nodes| && j != i :: nodes[j].Value() == old(nodes[j].Value());
      assert Parts(nodes) == was[i := SecondStep(was[i], left).0];
      left' := Sub64(left, used);
    }

    // The first loop of `update`.
    method RunFirst(pool: U64, total: U64) returns (left: U64, ghost reached: nat)
      requires Distinct(nodes) && (nodes != [] ==> 0 < total)
      modifies nodes
      ensures Pass(Parts(nodes), left, reached) == FirstPass(old(Parts(nodes)), pool, total, pool)
    {
      hide FirstPass, FirstUnderway, Parts, UpdateNode.Value, Distinct;
      ghost var ps := Parts(nodes);
      ghost var goal := FirstPass(ps, pool, total, pool);
      FirstStarts(ps, pool, total, pool);
      left := pool;
      var i := 0;
      while i < |nodes|
        invariant i <= |nodes| == |ps| && FirstUnderway(Parts(nodes), ps, i, pool, total, left, goal)
      {
        left := FirstAt(i, pool, total, left, ps, goal);
        i := i + 1;
        if left <= 0 {
          return left, i;
        }
      }
      FirstEnds(Parts(nodes), ps, pool, total, left, goal);
      reached := i;
    }

    // The second loop of `update`.
    method RunSecond(rest: U64) returns (left: U64, ghost reached: nat)
      requires Distinct(nodes)
      modifies nodes
      ensures Pass(Parts(nodes), left, reached) == SecondPass(old(Parts(nodes)), rest)
    {
      hide SecondPass, SecondUnderway, Parts, UpdateNode.Value, Distinct;
      ghost var ps := Parts(nodes);
      ghost var goal := SecondPass(ps, rest);
      SecondStarts(ps, rest);
      left := rest;
      var i := 0;
      while i < |nodes|
        invariant i <= |nodes| == |ps| && SecondUnderway(Parts(nodes), ps, i, left, goal)
      {
        left := SecondAt(i, left, ps, goal);
        i := i + 1;
        if left <= 0 {
          return left, i;
        }
      }
      SecondEnds(Parts(nodes), ps, left, goal);
      reached := i;
    }

    // `update`: the nodes are left as the split leaves their values, and the context is empty again.
    method Update() returns (ghost left: U64, ghost reached: nat)
      requires Valid() && (nodes != [] ==> 0 < totalWeight)
      modifies this, nodes
      ensures Valid() && nodes == []
      ensures Pass(Parts(old(nodes)), left, reached)
           == HandOut(old(Parts(nodes)), old(Sub64(tokenTotal, tokenStatic)), old(totalWeight))
      ensures Congruent(old(Sub64(tokenTotal, tokenStatic)),
                        Sum(Quotas(old(Parts(nodes)))) - 2 * Sum(Bases(old(Parts(nodes)))))
    {
      hide FirstPass, SecondPass, Parts, Sum, Congruent, Weights, Bases, Quotas;
      var pool := Sub64(tokenTotal, tokenStatic);
      PoolIs(tokenTotal, tokenStatic, Sum(Bases(Parts(nodes))), Sum(Quotas(Parts(nodes))));
      var rest, k := RunFirst(pool, totalWeight);
      left, reached := RunSecond(rest);
      ghost var ns := nodes;
      nodes, totalWeight, tokenTotal, tokenStatic := [], 0, 0, 0;
      EmptySums(Parts(nodes));
      CongruentSame(0);
    }
  }

  lemma EmptySums(ps: seq<Part>)
    requires ps == []
    ensures Sum(Weights(ps)) == Sum(Bases(ps)) == Sum(Quotas(ps)) == 0
  {
  }
}
