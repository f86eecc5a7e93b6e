/** The quota arithmetic of one node (sysqos_dispatch_base_node.c), on values. */
module Quota {
  import opened Words

  datatype Base = Base(inuse: U64, quota: U64, quotaNew: U64, version: int)

  const INITIAL: Base := Base(0, MIN_RS_NUM, MIN_RS_NUM, 0)

  predicate Fits(b: Base, cost: Cost) {
    Add64(cost, b.inuse) <= b.quota
  }

  // What one grant leaves of the quota: one step towards `quotaNew`, never past it.
  function Shrunk(b: Base): U64 {
    if b.quotaNew < b.quota then Max(b.quotaNew, Sub64(b.quota, RESPOND_STEP)) else b.quota
  }

  function Charge(b: Base, cost: Cost): Base {
    b.(inuse := Add64(b.inuse, cost), quota := Shrunk(b))
  }

  function Discharge(b: Base, cost: Cost): Base {
    b.(inuse := Sub64(b.inuse, cost))
  }

  function Reset(b: Base): Base {
    b.(quota := MIN_RS_NUM, quotaNew := MIN_RS_NUM, version := 0)
  }

  datatype Verdict = Verdict(base: Base, increased: bool, reset: bool)

  function Update(b: Base, total: U64, ver: int): Verdict {
    if ver < b.version then Verdict(b, false, true)
    else if ver == b.version then Verdict(b, false, false)
    else if b.quota < total then
      Verdict(b.(quota := total, quotaNew := total, version := ver), true, false)
    else if b.quota > total then
      Verdict(b.(quota := Max(total, Sub64(b.quota, RESPOND_STEP)), quotaNew := total, version := ver), false, false)
    else Verdict(b.(version := ver), false, false)
  }

  // ----- When the arithmetic is exact

  // The states in which no sum or difference of this file wraps around.
  predicate Exact(b: Base) {
    MIN_RS_NUM <= b.quotaNew <= b.quota <= TWO63 && b.inuse <= TWO63
  }

  // A total the environment is expected to send.
  predicate Fair(total: U64) {
    MIN_RS_NUM <= total <= TWO63
  }

  lemma ExactKept(b: Base, cost: Cost, total: U64, ver: int)
    requires Exact(b)
    ensures Fits(b, cost) <==> cost + b.inuse <= b.quota
    ensures Fits(b, cost) ==> Exact(Charge(b, cost)) && Charge(b, cost).inuse == b.inuse + cost
    ensures Charge(b, cost).quota == Max(b.quotaNew, b.quota - RESPOND_STEP) || b.quotaNew == b.quota == Charge(b, cost).quota
    ensures Fair(total) ==> Exact(Update(b, total, ver).base)
    ensures Exact(Reset(b)) && Reset(b).quota <= b.quota
    ensures cost <= b.inuse ==> Exact(Discharge(b, cost)) && Discharge(b, cost).inuse == b.inuse - cost
  {
  }

  // The code's check is the true comparison for every cost exactly up to half a word in use; beyond, a large cost
  // wraps the sum around and fits.
  lemma FitsTrulyIff(b: Base)
    ensures (forall c: Cost :: Fits(b, c) <==> c + b.inuse <= b.quota) <==> b.inuse <= TWO63
  {
    if b.inuse > TWO63 {
      var c: Cost := TWO64 - b.inuse;
      assert Fits(b, c) && !(c + b.inuse <= b.quota);
    }
  }

  // ----- Gradual shrink

  // The pending target never exceeds the quota in force: every operation keeps it, wrapping or not.
  lemma TargetBelowQuota(b: Base, cost: Cost, total: U64, ver: int)
    requires b.quotaNew <= b.quota
    ensures Charge(b, cost).quotaNew <= Charge(b, cost).quota
    ensures Discharge(b, cost).quotaNew <= Discharge(b, cost).quota
    ensures Reset(b).quotaNew <= Reset(b).quota
    ensures Update(b, total, ver).base.quotaNew <= Update(b, total, ver).base.quota
  {
  }

  function Charges(b: Base, costs: seq<Cost>): Base
    decreases |costs|
  {
    if costs == [] then b else Charges(Charge(b, costs[0]), costs[1..])
  }

  // k grants leave the quota k steps lower, stopped at the target, whatever the grants cost.
  lemma {:induction false} GradualShrink(b: Base, costs: seq<Cost>)
    requires RESPOND_STEP <= b.quotaNew <= b.quota
    ensures Charges(b, costs).quota == Max(b.quotaNew, b.quota - |costs| * RESPOND_STEP)
    ensures Charges(b, costs).quotaNew == b.quotaNew
    decreases |costs|
  {
    if costs == [] {
    } else {
      GradualShrink(Charge(b, costs[0]), costs[1..]);
    }
  }

  // A smaller total is taken on in steps of RESPOND_STEP: one at once, one more with each grant, and then it stays.
  lemma MessageConverges(b: Base, total: U64, ver: int, costs: seq<Cost>)
    requires Exact(b) && Fair(total) && b.version < ver && total < b.quota
    ensures var b' := Charges(Update(b, total, ver).base, costs);
      && b'.quota == Max(total, b.quota - (|costs| + 1) * RESPOND_STEP)
      && (b'.quota == total <==> b.quota - total <= (|costs| + 1) * RESPOND_STEP)
  {
    GradualShrink(Update(b, total, ver).base, costs);
  }

  // ----- What each message does, and to later grants

  // A message older than the node, or of its own version, leaves the node as it is, whatever its total; the older one
  // asks for a reset.
  lemma NotNewerIdle(b: Base, total: U64, ver: int)
    requires ver <= b.version
    ensures var v := Update(b, total, ver);
      v.base == b && !v.increased && (v.reset <==> ver < b.version)
  {
  }

  // A raise ends a shrink under way: the total is in force at once, and no number of grants changes that.
  lemma RaiseHolds(b: Base, total: U64, ver: int, costs: seq<Cost>)
    requires b.version < ver && b.quota < total
    ensures var v := Update(b, total, ver);
      && v.increased && !v.reset && v.base.version == ver && v.base.inuse == b.inuse
      && Charges(v.base, costs).quota == Charges(v.base, costs).quotaNew == total
  {
    HeldQuota(Update(b, total, ver).base, costs);
  }

  lemma {:induction false} HeldQuota(b: Base, costs: seq<Cost>)
    requires b.quotaNew == b.quota
    ensures Charges(b, costs).quota == Charges(b, costs).quotaNew == b.quota
    decreases |costs|
  {
    if costs == [] {
    } else {
      HeldQuota(Charge(b, costs[0]), costs[1..]);
    }
  }

  // A newer message with the total in force takes its version along and leaves a shrink under way where it is, so that
  // later grants go on with it.
  lemma SameTotalShrinksOn(b: Base, ver: int, costs: seq<Cost>)
    requires b.version < ver && RESPOND_STEP <= b.quotaNew <= b.quota
    ensures var v := Update(b, b.quota, ver);
      && !v.increased && !v.reset && v.base.version == ver && v.base.inuse == b.inuse
      && Charges(v.base, costs).quota == Max(b.quotaNew, b.quota - |costs| * RESPOND_STEP)
      && Charges(v.base, costs).quotaNew == b.quotaNew
  {
    GradualShrink(Update(b, b.quota, ver).base, costs);
  }

  // For a target below a step as well, and for any state: only the version changes.
  lemma SameTotalKeepsTarget(b: Base, ver: int)
    requires b.version < ver
    ensures var b' := Update(b, b.quota, ver).base;
      b'.quotaNew == b.quotaNew && b'.quota == b.quota && b'.inuse == b.inuse && b'.version == ver
  {
  }

  // One step down, in word arithmetic: below one step it lands near 2^64.
  lemma StepDown(b: Base, total: U64, ver: int)
    requires b.version < ver && total < b.quota
    ensures var v := Update(b, total, ver);
      && !v.increased && !v.reset && v.base.quotaNew == total && v.base.version == ver && v.base.inuse == b.inuse
      && v.base.quota == if RESPOND_STEP <= b.quota then Max(total, b.quota - RESPOND_STEP) else b.quota + (TWO64 - RESPOND_STEP)
  {
  }

  // What a grant does to the quota, whether or not a number leaves the word; target and version stay.
  lemma GrantWord(b: Base, cost: Cost)
    ensures var b' := Charge(b, cost);
      && (b'.inuse == b.inuse + cost || b'.inuse == b.inuse + cost - TWO64)
      && b'.quotaNew == b.quotaNew && b'.version == b.version
      && (b.quota <= b.quotaNew ==> b'.quota == b.quota)
      && (b.quotaNew < b.quota && RESPOND_STEP <= b.quota ==> b'.quota == Max(b.quotaNew, b.quota - RESPOND_STEP))
      && (b.quotaNew < b.quota < RESPOND_STEP ==> b'.quota == b.quota + (TWO64 - RESPOND_STEP))
  {
  }

  lemma FreeWord(b: Base, cost: Cost)
    ensures var b' := Discharge(b, cost);
      && (b'.inuse == b.inuse - cost || b'.inuse == b.inuse - cost + TWO64)
      && b'.quota == b.quota && b'.quotaNew == b.quotaNew && b'.version == b.version
  {
  }

  // A cost fits if the sum is within the quota, or has left the word and is within the quota again.
  lemma FitsWord(b: Base, cost: Cost)
    ensures Fits(b, cost) <==> cost + b.inuse <= b.quota || TWO64 <= cost + b.inuse <= b.quota + TWO64
  {
  }

  // The step wraps exactly when the quota is below it, and then it raises the quota.
  lemma ShrinkLowersIff(b: Base, total: U64, ver: int)
    requires b.version < ver && total < b.quota
    ensures Update(b, total, ver).base.quota <= b.quota <==> RESPOND_STEP <= b.quota
    ensures b.quotaNew < b.quota ==> (Shrunk(b) <= b.quota <==> RESPOND_STEP <= b.quota)
  {
  }

  // Two messages below the expected totals, with one grant between, take a fresh node to a quota near 2^64.
  lemma ShrinkMayRaise()
    ensures
      var b1 := Update(INITIAL, 3, 1).base;
      var b2 := Charge(b1, 1);
      var b3 := Update(b2, 1, 2).base;
      Fits(b1, 1) && b2.quota == 3 && b3.quota == TWO64 - 2
  {
  }

  // ----- Versions

  // Redelivering a message that was not older than the node changes nothing, and reports nothing.
  lemma Redelivered(b: Base, total: U64, ver: int)
    requires b.version <= ver
    ensures var v := Update(b, total, ver);
      v.base.version == ver && !v.reset && Update(v.base, total, ver) == Verdict(v.base, false, false)
  {
  }

  // ----- What did not fit keeps out

  // A grant lets in no waiter: no sum may wrap around, unless every cost fits anyway, and a shrink under way must not
  // start below one step.
  predicate GrantSafe(b: Base) {
    if b.inuse > TWO63 then b.quota == TWO64 - 1
    else if b.quota > TWO63 then b.inuse + TWO63 - 1 <= b.quota
    else b.quota < b.inuse || b.quota <= b.quotaNew || RESPOND_STEP <= b.quota
  }

  lemma GrantKeepsUnfitIff(b: Base)
    ensures (forall c: Cost, d: Cost :: Fits(b, d) && !Fits(b, c) ==> !Fits(Charge(b, d), c)) <==> GrantSafe(b)
  {
    if b.inuse > TWO63 {
      if b.quota < TWO64 - 1 {
        LetIn(b, Max(0, b.quota + 1 - b.inuse), TWO64 - b.inuse);
      }
    } else if b.quota > TWO63 {
      if b.quota < b.inuse + TWO63 - 1 {
        LetIn(b, TWO63 - 1, b.quota - b.inuse);
      }
    } else if b.inuse <= b.quota && b.quotaNew < b.quota < RESPOND_STEP {
      LetIn(b, b.quota + 1 - b.inuse, 0);
    }
  }

  // The cost c waits, d is granted, and c fits.
  lemma LetIn(b: Base, c: Cost, d: Cost)
    requires Fits(b, d) && !Fits(b, c) && Fits(Charge(b, d), c)
    ensures !forall c: Cost, d: Cost :: Fits(b, d) && !Fits(b, c) ==> !Fits(Charge(b, d), c)
  {
  }

  // A message that starts no drain lets in no waiter: it must not shrink a quota below one step.
  predicate MessageSafe(b: Base, total: U64, ver: int) {
    !(b.version < ver && total < b.quota < RESPOND_STEP)
  }

  lemma MessageKeepsUnfitIff(b: Base, total: U64, ver: int)
    requires !Update(b, total, ver).increased
    ensures (forall c: Cost :: !Fits(b, c) ==> !Fits(Update(b, total, ver).base, c)) <==> MessageSafe(b, total, ver)
  {
    if !MessageSafe(b, total, ver) {
      var b' := Update(b, total, ver).base;
      var c: Cost := if b.inuse <= b.quota then b.quota + 1 - b.inuse else if b.inuse <= b'.quota then 0 else RESPOND_STEP;
      assert !Fits(b, c) && Fits(b', c);
    }
  }

  // A reset lets in no waiter: the quota does not rise, or no cost fits under MIN_RS_NUM either; the last clause is about
  // sums that wrap around.
  predicate ResetSafe(b: Base) {
    MIN_RS_NUM <= b.quota || MIN_RS_NUM < b.inuse <= b.quota + TWO63 + 1
  }

  lemma ResetKeepsUnfitIff(b: Base)
    ensures (forall c: Cost :: !Fits(b, c) ==> !Fits(Reset(b), c)) <==> ResetSafe(b)
  {
    if b.quota < MIN_RS_NUM {
      if b.inuse <= MIN_RS_NUM {
        var c: Cost := MIN_RS_NUM - b.inuse;
        assert !Fits(b, c) && Fits(Reset(b), c);
      } else if b.quota + TWO63 + 1 < b.inuse {
        var c: Cost := b.quota + 1 + TWO64 - b.inuse;
        assert !Fits(b, c) && Fits(Reset(b), c);
      }
    }
  }

  lemma ExactIsSafe(b: Base, total: U64, ver: int)
    requires Exact(b)
    ensures GrantSafe(b) && ResetSafe(b) && MessageSafe(b, total, ver)
  {
  }
}
