/**
  `to_got` and `to_failed` called by any number of threads at once (sysqos_token_reqgrp.c), one shared access a step.

  A thread runs one call on one request of the group. Calls may repeat and clash on the same request.
 */
module Completion {
  import opened Words
  import opened Objects
  import opened Groups

  datatype Kind = ToGot | ToFailed

  datatype Pc =
    | Raise            // to_failed: about to set failed_exist
    | Cas              // about to compare-and-swap the request's state
    | Dec              // the swap succeeded: about to subtract from req_pending_nr
    | ReadFlag         // to_got saw zero: about to read failed_exist
    | WriteErr(code: Err)  // about to record the outcome in the group
    | Done(code: Err)

  datatype Thread = Thread(kind: Kind, req: nat, pc: Pc)

  datatype State = State(stat: seq<Stat>, pending: int, failed: bool, err: Err, threads: seq<Thread>)

  datatype Move = Call(kind: Kind, req: nat) | Go(t: nat)

  function Begin(n: nat): State {
    State(seq(n, _ => Init), n, false, Pending, [])
  }

  predicate Enabled(s: State, m: Move) {
    match m
    case Call(_, r) => r < |s.stat|
    case Go(t) => t < |s.threads| && s.threads[t].req < |s.stat| && !s.threads[t].pc.Done?
  }

  function At(s: State, t: nat, pc: Pc): State
    requires t < |s.threads|
  {
    s.(threads := s.threads[t := s.threads[t].(pc := pc)])
  }

  function Step(s: State, m: Move): State
    requires Enabled(s, m)
  {
    match m
    case Call(k, r) => s.(threads := s.threads + [Thread(k, r, if k == ToFailed then Raise else Cas)])
    case Go(t) =>
      var me := s.threads[t];
      match me.pc
      case Raise => At(s, t, Cas).(failed := true)
      case Cas =>
        if s.stat[me.req] == Init
        then At(s, t, Dec).(stat := s.stat[me.req := if me.kind == ToGot then Got else Failed])
        else At(s, t, Done(Pending))
      case Dec =>
        At(s, t, if s.pending != 1 then Done(Pending) else if me.kind == ToGot then ReadFlag else WriteErr(FailedNode))
        .(pending := s.pending - 1)
      case ReadFlag => At(s, t, WriteErr(if s.failed then FailedNode else Ok))
      case WriteErr(code) => At(s, t, Done(code)).(err := code)
  }

  // ----- What the threads keep

  ghost function Unsettled(s: State): set<int> {
    set i | 0 <= i < |s.stat| && s.stat[i] == Init
  }

  ghost function Owing(s: State): set<int> {
    set t | 0 <= t < |s.threads| && s.threads[t].pc == Dec
  }

  // The thread that took the count to zero holds the outcome, or is about to.
  predicate Finishing(pc: Pc) {
    pc == ReadFlag || (pc.WriteErr? && pc.code.Final()) || (pc.Done? && pc.code.Final())
  }

  ghost function Finishers(s: State): set<int> {
    set t | 0 <= t < |s.threads| && Finishing(s.threads[t].pc)
  }

  // req_pending_nr: the unsettled requests and the calls past their swap that have not subtracted yet.
  ghost predicate Balanced(s: State) {
    s.pending == |Unsettled(s)| + |Owing(s)|
  }

  ghost predicate OneFinisher(s: State) {
    |Finishers(s)| == if s.pending == 0 then 1 else 0
  }

  ghost predicate AnyRequestFailed(s: State) {
    exists i :: 0 <= i < |s.stat| && s.stat[i] == Failed
  }

  ghost predicate Flagged(s: State) {
    && (AnyRequestFailed(s) ==> s.failed)
    && (forall t :: 0 <= t < |s.threads| && s.threads[t].pc == Raise ==> s.threads[t].kind == ToFailed)
    && (forall t :: 0 <= t < |s.threads| && s.threads[t].kind == ToFailed && s.threads[t].pc != Raise ==> s.failed)
    && (s.failed ==> exists t :: 0 <= t < |s.threads| && s.threads[t].kind == ToFailed && s.threads[t].pc != Raise)
  }

  // What a held outcome says.
  ghost predicate Truthful(s: State, code: Err) {
    && (code == Ok ==> forall i :: 0 <= i < |s.stat| ==> s.stat[i] == Got)
    && (code == FailedNode ==> s.failed)
  }

  ghost predicate Outcomes(s: State) {
    && (forall t :: 0 <= t < |s.threads| && s.threads[t].pc.WriteErr? ==>
          s.threads[t].pc.code.Final() && Truthful(s, s.threads[t].pc.code))
    && (forall t :: 0 <= t < |s.threads| && s.threads[t].pc.Done? ==>
          if s.threads[t].pc.code.Final() then Truthful(s, s.threads[t].pc.code) && s.err == s.threads[t].pc.code
          else s.threads[t].pc.code == Pending)
    && (s.err != Pending ==> exists t :: 0 <= t < |s.threads| && s.threads[t].pc == Done(s.err) && s.err.Final())
  }

  ghost predicate SettledBy(s: State, t: int, i: int)
    requires 0 <= i < |s.stat|
  {
    && 0 <= t < |s.threads| && s.threads[t].req == i
    && s.threads[t].kind == (if s.stat[i] == Got then ToGot else ToFailed)
  }

  // Every settled request was the request of some call of the matching kind.
  ghost predicate Settlers(s: State) {
    && (forall t :: 0 <= t < |s.threads| ==> s.threads[t].req < |s.stat|)
    && (forall i :: 0 <= i < |s.stat| && s.stat[i] != Init ==>
          exists t :: SettledBy(s, t, i))
  }

  ghost predicate Inv(s: State) {
    Balanced(s) && OneFinisher(s) && Flagged(s) && Outcomes(s) && Settlers(s) && 0 < |s.stat|
  }

  // ----- Preservation

  lemma CallSettlers(s: State, k: Kind, r: nat)
    requires Settlers(s) && r < |s.stat|
    ensures Settlers(Step(s, Call(k, r)))
  {
    var s' := Step(s, Call(k, r));
    forall i | 0 <= i < |s.stat| && s.stat[i] != Init
      ensures exists t :: SettledBy(s', t, i)
    {
      var t :| SettledBy(s, t, i);
      assert SettledBy(s', t, i);
    }
  }

  lemma CallKeeps(s: State, k: Kind, r: nat)
    requires Inv(s) && r < |s.stat|
    ensures Inv(Step(s, Call(k, r)))
  {
    var s' := Step(s, Call(k, r));
    assert forall t :: 0 <= t < |s.threads| ==> s'.threads[t] == s.threads[t];
    assert Unsettled(s') == Unsettled(s) && Owing(s') == Owing(s) && Finishers(s') == Finishers(s);
    assert Flagged(s') && Outcomes(s');
    CallSettlers(s, k, r);
  }

  lemma SwapSets(s: State, t: nat)
    requires Enabled(s, Go(t)) && s.threads[t].pc == Cas && s.stat[s.threads[t].req] == Init
    ensures var s' := Step(s, Go(t));
      && Unsettled(s') == Unsettled(s) - {s.threads[t].req as int} && s.threads[t].req as int in Unsettled(s)
      && Owing(s') == Owing(s) + {t as int} && t as int !in Owing(s)
  {
  }

  lemma OtherSets(s: State, t: nat)
    requires Enabled(s, Go(t)) && !(s.threads[t].pc == Cas && s.stat[s.threads[t].req] == Init)
    ensures var s' := Step(s, Go(t));
      && Unsettled(s') == Unsettled(s)
      && Owing(s') == (if s.threads[t].pc == Dec then Owing(s) - {t as int} else Owing(s))
      && (s.threads[t].pc == Dec ==> t as int in Owing(s))
  {
  }

  lemma GoBalanced(s: State, t: nat)
    requires Balanced(s) && Enabled(s, Go(t))
    ensures Balanced(Step(s, Go(t)))
  {
    hide Unsettled, Owing;
    if s.threads[t].pc == Cas && s.stat[s.threads[t].req] == Init {
      SwapSets(s, t);
    } else {
      OtherSets(s, t);
    }
  }

  lemma GoOneFinisher(s: State, t: nat)
    requires Balanced(s) && OneFinisher(s) && Outcomes(s) && Enabled(s, Go(t))
    ensures OneFinisher(Step(s, Go(t)))
  {
    var s' := Step(s, Go(t));
    if s.threads[t].pc == Dec {
      assert t as int in Owing(s);
      assert 0 < s.pending;
      if s.pending == 1 {
        assert Finishers(s) == {};
        assert Finishers(s') == {t as int};
      } else {
        assert Finishers(s') == Finishers(s);
      }
    } else {
      assert Finishers(s') == Finishers(s);
    }
  }

  lemma GoFlagged(s: State, t: nat)
    requires Flagged(s) && Enabled(s, Go(t))
    ensures Flagged(Step(s, Go(t)))
  {
    var s' := Step(s, Go(t));
    if s.failed {
      var x :| 0 <= x < |s.threads| && s.threads[x].kind == ToFailed && s.threads[x].pc != Raise;
      assert s'.threads[x].kind == ToFailed && s'.threads[x].pc != Raise;
    }
    if s.threads[t].pc == Raise {
      assert s'.failed ==> s'.threads[t].pc != Raise;
    }
  }

  // At zero every request is settled and no call owes a subtraction.
  lemma ZeroMeansSettled(s: State)
    requires Balanced(s) && s.pending == 0
    ensures forall i :: 0 <= i < |s.stat| ==> s.stat[i] != Init
    ensures forall t :: 0 <= t < |s.threads| ==> s.threads[t].pc != Dec
  {
    assert Unsettled(s) == {} && Owing(s) == {};
    forall i | 0 <= i < |s.stat|
      ensures s.stat[i] != Init
    {
      assert i !in Unsettled(s);
    }
    forall t | 0 <= t < |s.threads|
      ensures s.threads[t].pc != Dec
    {
      assert t !in Owing(s);
    }
  }

  // Holding an outcome means the count is zero.
  lemma HolderMeansZero(s: State, t: nat)
    requires OneFinisher(s) && t < |s.threads| && Finishing(s.threads[t].pc)
    ensures s.pending == 0 && forall x :: 0 <= x < |s.threads| && Finishing(s.threads[x].pc) ==> x == t
  {
    assert t as int in Finishers(s);
    forall x | 0 <= x < |s.threads| && Finishing(s.threads[x].pc)
      ensures x == t
    {
      assert |Finishers(s) - {t as int}| == 0;
      assert x in Finishers(s);
    }
  }

  // A recorded outcome keeps the call that recorded it.
  lemma RecordKept(s: State, t: nat)
    requires Outcomes(s) && Enabled(s, Go(t)) && !s.threads[t].pc.WriteErr?
    ensures var s' := Step(s, Go(t));
      s'.err != Pending ==> exists x :: 0 <= x < |s'.threads| && s'.threads[x].pc == Done(s'.err) && s'.err.Final()
  {
    var s' := Step(s, Go(t));
    if s.err != Pending {
      var x :| 0 <= x < |s.threads| && s.threads[x].pc == Done(s.err) && s.err.Final();
      assert s'.threads[x].pc == Done(s'.err);
    }
  }

  lemma GoOutcomes(s: State, t: nat)
    requires Inv(s) && Enabled(s, Go(t))
    ensures Outcomes(Step(s, Go(t)))
  {
    hide Balanced, OneFinisher, Settlers, Owing, Unsettled;
    var s', me := Step(s, Go(t)), s.threads[t];
    if s.pending == 0 {
      ZeroMeansSettled(s);
    }
    if Finishing(me.pc) {
      HolderMeansZero(s, t);
    }
    forall x | 0 <= x < |s.threads| && x != t && (s.threads[x].pc.WriteErr? || s.threads[x].pc.Done?) && s.threads[x].pc.code.Final()
      ensures Truthful(s', s.threads[x].pc.code)
    {
      HolderMeansZero(s, x);
      assert s'.stat == s.stat;
    }
    if me.pc.WriteErr? {
      assert s'.threads[t].pc == Done(s'.err);
    } else {
      RecordKept(s, t);
    }
    if me.pc == ReadFlag && !s.failed {
      FlagDecides(s);
    }
  }

  // Read at zero, the flag tells whether every request is got.
  lemma FlagDecides(s: State)
    requires Balanced(s) && s.pending == 0 && Flagged(s) && !s.failed
    ensures forall i :: 0 <= i < |s.stat| ==> s.stat[i] == Got
  {
    ZeroMeansSettled(s);
    forall i | 0 <= i < |s.stat|
      ensures s.stat[i] == Got
    {
      assert s.stat[i] == Failed ==> AnyRequestFailed(s);
    }
  }

  lemma GoSettlers(s: State, t: nat)
    requires Settlers(s) && Enabled(s, Go(t))
    ensures Settlers(Step(s, Go(t)))
  {
    var s', me := Step(s, Go(t)), s.threads[t];
    assert forall x :: 0 <= x < |s.threads| ==> s'.threads[x].kind == s.threads[x].kind && s'.threads[x].req == s.threads[x].req;
    forall i | 0 <= i < |s'.stat| && s'.stat[i] != Init
      ensures exists x :: SettledBy(s', x, i)
    {
      if s.stat[i] != Init {
        var x :| SettledBy(s, x, i);
        assert SettledBy(s', x, i);
      } else {
        assert SettledBy(s', t, i);
      }
    }
  }

  lemma StepKeeps(s: State, m: Move)
    requires Inv(s) && Enabled(s, m)
    ensures Inv(Step(s, m))
  {
    hide Balanced, OneFinisher, Flagged, Outcomes, Settlers;
    match m
    case Call(k, r) => CallKeeps(s, k, r);
    case Go(t) =>
      GoBalanced(s, t);
      GoOneFinisher(s, t);
      GoFlagged(s, t);
      GoOutcomes(s, t);
      GoSettlers(s, t);
  }

  // ----- Runs

  ghost predicate Legal(s: State, moves: seq<Move>)
    decreases |moves|
  {
    moves == [] || (Enabled(s, moves[0]) && Legal(Step(s, moves[0]), moves[1..]))
  }

  ghost function Run(s: State, moves: seq<Move>): State
    requires Legal(s, moves)
    decreases |moves|
  {
    if moves == [] then s else Run(Step(s, moves[0]), moves[1..])
  }

  lemma {:induction false} RunKeeps(s: State, moves: seq<Move>)
    requires Inv(s) && Legal(s, moves)
    ensures Inv(Run(s, moves))
    decreases |moves|
  {
    if moves == [] {
    } else {
      StepKeeps(s, moves[0]);
      RunKeeps(Step(s, moves[0]), moves[1..]);
    }
  }

  lemma BeginHolds(n: nat)
    requires 0 < n
    ensures Inv(Begin(n))
  {
    var s := Begin(n);
    UptoMembers(n);
    assert Unsettled(s) == Upto(n);
    assert Finishers(s) == {} && Owing(s) == {};
  }

  ghost function Upto(n: nat): set<int> {
    if n == 0 then {} else Upto(n - 1) + {n - 1}
  }

  lemma {:induction false} UptoMembers(n: nat)
    ensures |Upto(n)| == n && forall i: int :: i in Upto(n) <==> 0 <= i < n
  {
    if n == 0 {
    } else {
      UptoMembers(n - 1);
    }
  }

  // The call t has returned an outcome.
  ghost predicate Returned(s: State, t: int) {
    0 <= t < |s.threads| && s.threads[t].pc.Done? && s.threads[t].pc.code.Final()
  }

  // However the calls interleave: the counter is what is unsettled or owed, at most one call returns an outcome,
  // that outcome is recorded in the group, OK means every request is got, and a failed request forces FAILEDNODE.
  lemma AnyInterleaving(n: nat, moves: seq<Move>)
    requires 0 < n && Legal(Begin(n), moves)
    ensures var s := Run(Begin(n), moves);
      && s.pending == |Unsettled(s)| + |Owing(s)|
      && (forall t, u :: Returned(s, t) && Returned(s, u) ==> t == u)
      && (forall t :: Returned(s, t) ==>
            && s.err == s.threads[t].pc.code && s.pending == 0
            && (s.err == Ok ==> forall i :: 0 <= i < |s.stat| ==> s.stat[i] == Got)
            && (AnyRequestFailed(s) ==> s.err == FailedNode))
  {
    BeginHolds(n);
    RunKeeps(Begin(n), moves);
    var s := Run(Begin(n), moves);
    forall t, u | Returned(s, t) && Returned(s, u)
      ensures t == u && s.pending == 0
    {
      HolderMeansZero(s, t);
    }
  }

  ghost predicate Quiet(s: State) {
    forall t :: 0 <= t < |s.threads| ==> s.threads[t].pc.Done?
  }

  // Once every request has been asked about and every call has returned, exactly one call has returned the outcome.
  lemma OutcomeDelivered(n: nat, moves: seq<Move>)
    requires 0 < n && Legal(Begin(n), moves)
    requires var s := Run(Begin(n), moves); Quiet(s) && Unsettled(s) == {}
    ensures var s := Run(Begin(n), moves);
      s.err.Final() && exists t :: 0 <= t < |s.threads| && s.threads[t].pc == Done(s.err)
  {
    BeginHolds(n);
    RunKeeps(Begin(n), moves);
    var s := Run(Begin(n), moves);
    assert Owing(s) == {};
    assert |Finishers(s)| == 1;
    var t :| t in Finishers(s);
    assert s.threads[t].pc == Done(s.err);
  }

  // ----- Clashing calls

  // One grant and one failure of the same single request: the failure loses the swap, and still spoils the outcome.
  lemma LostFailureSpoils()
    ensures var moves := [Call(ToGot, 0), Call(ToFailed, 0), Go(1), Go(0), Go(0), Go(0), Go(0), Go(1)];
      && Legal(Begin(1), moves)
      && Run(Begin(1), moves).err == FailedNode && Run(Begin(1), moves).stat == [Got]
  {
    var s0 := Begin(1);
    var s1 := Step(s0, Call(ToGot, 0));
    var s2 := Step(s1, Call(ToFailed, 0));
    var s3 := Step(s2, Go(1));
    var s4 := Step(s3, Go(0));
    var s5 := Step(s4, Go(0));
    var s6 := Step(s5, Go(0));
    var s7 := Step(s6, Go(0));
    var s8 := Step(s7, Go(1));
    assert s8.err == FailedNode && s8.stat == [Got];
    var moves := [Call(ToGot, 0), Call(ToFailed, 0), Go(1), Go(0), Go(0), Go(0), Go(0), Go(1)];
    RunOne(s7, [Go(1)]);
    RunOne(s6, [Go(0), Go(1)]);
    RunOne(s5, [Go(0), Go(0), Go(1)]);
    RunOne(s4, [Go(0), Go(0), Go(0), Go(1)]);
    RunOne(s3, [Go(0), Go(0), Go(0), Go(0), Go(1)]);
    RunOne(s2, [Go(1), Go(0), Go(0), Go(0), Go(0), Go(1)]);
    RunOne(s1, moves[1..]);
    RunOne(s0, moves);
  }

  lemma RunOne(s: State, moves: seq<Move>)
    requires moves != [] && Enabled(s, moves[0]) && Legal(Step(s, moves[0]), moves[1..])
    ensures Legal(s, moves) && Run(s, moves) == Run(Step(s, moves[0]), moves[1..])
  {
  }

  // ----- The access that decides

  // Some call to fail has raised the flag.
  ghost predicate FailureUnderway(s: State) {
    exists t :: 0 <= t < |s.threads| && s.threads[t].kind == ToFailed && s.threads[t].pc != Raise
  }

  // A grant that saw zero reads the flag, or a failure takes the count to zero.
  predicate Decides(s: State, m: Move) {
    && m.Go? && m.t < |s.threads|
    && (s.threads[m.t].pc == ReadFlag
        || (s.threads[m.t].pc == Dec && s.pending == 1 && s.threads[m.t].kind == ToFailed))
  }

  ghost function Verdict(s: State): Err {
    if FailureUnderway(s) then FailedNode else Ok
  }

  // Some call is about to record this outcome, or has.
  ghost predicate Fixed(s: State, code: Err) {
    code.Final() && exists t :: 0 <= t < |s.threads| && (s.threads[t].pc == WriteErr(code) || s.threads[t].pc == Done(code))
  }

  lemma NothingUnsettled(s: State, t: nat)
    requires Balanced(s) && t < |s.threads|
    requires (s.pending == 1 && s.threads[t].pc == Dec) || s.pending == 0
    ensures Unsettled(s) == {}
  {
    if s.pending == 1 {
      assert t as int in Owing(s);
    }
  }

  // What the deciding access makes of the outcome; every request is settled by then.
  lemma DecisionFixes(s: State, m: Move)
    requires Inv(s) && Enabled(s, m) && Decides(s, m)
    ensures var s' := Step(s, m);
      && s'.threads[m.t].pc == WriteErr(Verdict(s)) && Fixed(s', Verdict(s))
      && Unsettled(s) == {} && s'.stat == s.stat
  {
    hide Outcomes, Settlers;
    var t := m.t;
    if s.threads[t].pc == ReadFlag {
      HolderMeansZero(s, t);
    }
    NothingUnsettled(s, t);
    assert s.failed <==> FailureUnderway(s);
    assert Step(s, m).threads[t].pc == WriteErr(Verdict(s));
  }

  // A fixed outcome stays, nothing decides again, and no request changes.
  lemma FixedStays(s: State, m: Move, code: Err)
    requires Inv(s) && Enabled(s, m) && Fixed(s, code)
    ensures Fixed(Step(s, m), code) && !Decides(s, m) && Step(s, m).stat == s.stat
  {
    hide Flagged, Settlers, Outcomes;
    var s' := Step(s, m);
    var t :| 0 <= t < |s.threads| && (s.threads[t].pc == WriteErr(code) || s.threads[t].pc == Done(code));
    HolderMeansZero(s, t);
    ZeroMeansSettled(s);
    assert s'.threads[t].pc == WriteErr(code) || s'.threads[t].pc == Done(code);
    if m.Go? {
      assert s.threads[m.t].pc != Dec;
    }
  }

  lemma OneCode(s: State, c: Err, d: Err)
    requires OneFinisher(s) && Fixed(s, c) && Fixed(s, d)
    ensures c == d
  {
    var t :| 0 <= t < |s.threads| && (s.threads[t].pc == WriteErr(c) || s.threads[t].pc == Done(c));
    HolderMeansZero(s, t);
  }

  // Nothing but the deciding access fixes an outcome.
  lemma OnlyDecisionFixes(s: State, m: Move, code: Err)
    requires Inv(s) && Enabled(s, m) && !Decides(s, m) && Fixed(Step(s, m), code)
    ensures Fixed(s, code)
  {
    hide Balanced, OneFinisher, Flagged, Settlers;
    var s' := Step(s, m);
    var t :| 0 <= t < |s'.threads| && (s'.threads[t].pc == WriteErr(code) || s'.threads[t].pc == Done(code));
    assert t < |s.threads|;
    assert s.threads[t].pc == WriteErr(code) || s.threads[t].pc == Done(code);
  }

  // The state in which the move k is made.
  ghost function StateAt(s: State, moves: seq<Move>, k: nat): State
    requires Legal(s, moves) && k <= |moves|
    decreases k
  {
    if k == 0 then s else StateAt(Step(s, moves[0]), moves[1..], k - 1)
  }

  ghost predicate DecidedAt(s: State, moves: seq<Move>, k: nat)
    requires Legal(s, moves)
  {
    k < |moves| && Decides(StateAt(s, moves, k), moves[k])
  }

  lemma {:induction false} FixedRun(s: State, moves: seq<Move>, code: Err)
    requires Inv(s) && Legal(s, moves) && Fixed(s, code)
    ensures Fixed(Run(s, moves), code) && Run(s, moves).stat == s.stat
    ensures forall k: nat :: !DecidedAt(s, moves, k)
    decreases |moves|
  {
    hide Inv, Fixed, Step, Decides, Enabled;
    if moves == [] {
    } else {
      FixedStays(s, moves[0], code);
      StepKeeps(s, moves[0]);
      FixedRun(Step(s, moves[0]), moves[1..], code);
      forall k: nat
        ensures !DecidedAt(s, moves, k)
      {
        if 0 < k < |moves| {
          assert !DecidedAt(Step(s, moves[0]), moves[1..], k - 1);
        }
      }
    }
  }

  // What one decision means for the rest of the run.
  ghost predicate Decisive(s: State, moves: seq<Move>, k: nat)
    requires Legal(s, moves) && k < |moves|
  {
    var d := StateAt(s, moves, k);
    && Unsettled(d) == {} && Run(s, moves).stat == d.stat && Fixed(Run(s, moves), Verdict(d))
    && (forall j: nat :: DecidedAt(s, moves, j) ==> j == k)
  }

  lemma {:induction false} DecisionIsFinal(s: State, moves: seq<Move>, k: nat)
    requires Inv(s) && Legal(s, moves) && DecidedAt(s, moves, k)
    ensures Decisive(s, moves, k)
    decreases k
  {
    hide Inv, Fixed, Step, Decides, Enabled, Unsettled, Verdict;
    var s1, rest := Step(s, moves[0]), moves[1..];
    StepKeeps(s, moves[0]);
    assert forall j: nat | 0 < j < |moves| :: DecidedAt(s, moves, j) ==> DecidedAt(s1, rest, j - 1);
    if k == 0 {
      DecisionFixes(s, moves[0]);
      FixedRun(s1, rest, Verdict(s));
    } else {
      if Decides(s, moves[0]) {
        DecisionFixes(s, moves[0]);
        FixedRun(s1, rest, Verdict(s));
      }
      DecisionIsFinal(s1, rest, k - 1);
      assert Decisive(s1, rest, k - 1);
    }
  }

  lemma {:induction false} SomeDecision(s: State, moves: seq<Move>, code: Err) returns (k: nat)
    requires Inv(s) && Legal(s, moves) && Fixed(Run(s, moves), code) && !Fixed(s, code)
    ensures DecidedAt(s, moves, k)
    decreases |moves|
  {
    hide Inv, Fixed, Step, Decides, Enabled;
    if Decides(s, moves[0]) {
      k := 0;
    } else {
      if Fixed(Step(s, moves[0]), code) {
        OnlyDecisionFixes(s, moves[0], code);
      }
      StepKeeps(s, moves[0]);
      var j := SomeDecision(Step(s, moves[0]), moves[1..], code);
      k := j + 1;
    }
  }

  // In any state that calls can reach, the deciding access writes FAILEDNODE exactly if a call to fail has raised the
  // flag by then, whether or not its request failed.
  lemma DecidingAccess(n: nat, moves: seq<Move>, m: Move)
    requires 0 < n && Legal(Begin(n), moves) && Enabled(Run(Begin(n), moves), m) && Decides(Run(Begin(n), moves), m)
    ensures var s := Run(Begin(n), moves);
      Step(s, m).threads[m.t].pc == WriteErr(if FailureUnderway(s) then FailedNode else Ok)
  {
    BeginHolds(n);
    RunKeeps(Begin(n), moves);
    DecisionFixes(Run(Begin(n), moves), m);
  }

  // An outcome is decided by one access; it is FAILEDNODE exactly if a call to fail has raised the flag by then, and
  // from there on no request changes.
  lemma OutcomeIff(n: nat, moves: seq<Move>) returns (k: nat)
    requires 0 < n && Legal(Begin(n), moves) && Run(Begin(n), moves).err.Final()
    ensures DecidedAt(Begin(n), moves, k) && forall j: nat :: DecidedAt(Begin(n), moves, j) ==> j == k
    ensures var s, d := Run(Begin(n), moves), StateAt(Begin(n), moves, k);
      (s.err == FailedNode <==> FailureUnderway(d)) && Unsettled(d) == {} && s.stat == d.stat
  {
    hide Step, Decides, Enabled, FailureUnderway, Unsettled;
    BeginHolds(n);
    RunKeeps(Begin(n), moves);
    var s := Run(Begin(n), moves);
    assert Fixed(s, s.err);
    k := SomeDecision(Begin(n), moves, s.err);
    DecisionIsFinal(Begin(n), moves, k);
    OneCode(s, s.err, Verdict(StateAt(Begin(n), moves, k)));
  }

  // A call to fail raised the flag, and the request it meant to fail was granted.
  ghost predicate Clash(s: State) {
    exists t :: 0 <= t < |s.threads| && s.threads[t].kind == ToFailed && s.threads[t].pc != Raise
      && s.threads[t].req < |s.stat| && s.stat[s.threads[t].req] == Got
  }

  // A final outcome is FAILEDNODE without a failed request exactly if the deciding access saw every request got and
  // some call to fail had clashed with a grant by then.
  lemma SpoiledIffClash(n: nat, moves: seq<Move>)
    requires 0 < n && Legal(Begin(n), moves) && Run(Begin(n), moves).err.Final()
    ensures var s := Run(Begin(n), moves);
      (s.err == FailedNode && !AnyRequestFailed(s))
      <==> (exists k: nat :: DecidedAt(Begin(n), moves, k)
              && !AnyRequestFailed(StateAt(Begin(n), moves, k)) && Clash(StateAt(Begin(n), moves, k)))
  {
    hide Step, Decides, Enabled;
    var k := OutcomeIff(n, moves);
    var s, d := Run(Begin(n), moves), StateAt(Begin(n), moves, k);
    BeginHolds(n);
    StateAtKeeps(Begin(n), moves, k);
    assert AnyRequestFailed(s) <==> AnyRequestFailed(d);
    if !AnyRequestFailed(d) {
      ClashOrUnder(d);
    }
  }

  lemma {:induction false} StateAtKeeps(s: State, moves: seq<Move>, k: nat)
    requires Inv(s) && Legal(s, moves) && k <= |moves|
    ensures Inv(StateAt(s, moves, k))
    decreases k
  {
    hide Inv, Step, Enabled;
    if k == 0 {
    } else {
      StepKeeps(s, moves[0]);
      StateAtKeeps(Step(s, moves[0]), moves[1..], k - 1);
    }
  }

  // With every request settled and none failed, a call to fail that raised the flag lost to a grant.
  lemma ClashOrUnder(s: State)
    requires Settlers(s) && Unsettled(s) == {} && !AnyRequestFailed(s)
    ensures FailureUnderway(s) <==> Clash(s)
  {
    forall t | 0 <= t < |s.threads|
      ensures s.stat[s.threads[t].req] == Got
    {
      assert s.threads[t].req as int !in Unsettled(s);
      assert s.stat[s.threads[t].req] != Failed;
    }
  }

  // ----- A call that nobody interrupts

  // The effect of one whole call, as `Finish` in `Objects` has it.
  function Atomic(s: State, k: Kind, r: nat): (State, Err)
    requires r < |s.stat|
  {
    var failed := s.failed || k == ToFailed;
    if s.stat[r] != Init then (s.(failed := failed), Pending)
    else
      var code := if s.pending != 1 then Pending else if failed then FailedNode else Ok;
      (s.(failed := failed, stat := s.stat[r := if k == ToGot then Got else Failed], pending := s.pending - 1,
          err := if code == Pending then s.err else code),
       code)
  }

  ghost function Solo(s: State, t: nat): seq<Move>
    requires Enabled(s, Go(t))
    decreases match s.threads[t].pc case Raise => 5 case Cas => 4 case Dec => 3 case ReadFlag => 2 case _ => 1
  {
    var s' := Step(s, Go(t));
    [Go(t)] + if s'.threads[t].pc.Done? then [] else Solo(s', t)
  }

  lemma {:induction false} SoloRun(s: State, t: nat)
    requires Enabled(s, Go(t))
    ensures Legal(s, Solo(s, t))
    ensures var s' := Step(s, Go(t));
      Run(s, Solo(s, t)) == if s'.threads[t].pc.Done? then s' else Run(s', Solo(s', t))
    decreases match s.threads[t].pc case Raise => 5 case Cas => 4 case Dec => 3 case ReadFlag => 2 case _ => 1
  {
    var s' := Step(s, Go(t));
    if s'.threads[t].pc.Done? {
      assert Solo(s, t) == [Go(t)];
      assert Legal(s', []);
    } else {
      SoloRun(s', t);
      assert Solo(s, t)[1..] == Solo(s', t);
    }
    RunOne(s, Solo(s, t));
  }

  // From the subtraction on: the last one decides and records the outcome.
  lemma DecToEnd(s: State, t: nat)
    requires Enabled(s, Go(t)) && s.threads[t].pc == Dec
    ensures Legal(s, Solo(s, t))
    ensures var code := if s.pending != 1 then Pending else if s.failed || s.threads[t].kind == ToFailed then FailedNode else Ok;
      Run(s, Solo(s, t)) == At(s, t, Done(code)).(pending := s.pending - 1, err := if code == Pending then s.err else code)
  {
    SoloRun(s, t);
    var s1 := Step(s, Go(t));
    if s.pending == 1 {
      SoloRun(s1, t);
      var s2 := Step(s1, Go(t));
      if s.threads[t].kind == ToGot {
        SoloRun(s2, t);
        assert Step(s2, Go(t)).threads == At(s, t, Done(if s.failed then FailedNode else Ok)).threads;
      } else {
        assert s2.threads == At(s, t, Done(FailedNode)).threads;
      }
    }
  }

  lemma CasToEnd(s: State, t: nat)
    requires Enabled(s, Go(t)) && s.threads[t].pc == Cas && (s.threads[t].kind == ToFailed ==> s.failed)
    ensures Legal(s, Solo(s, t))
    ensures var (a, code) := Atomic(s, s.threads[t].kind, s.threads[t].req);
      Run(s, Solo(s, t)) == At(a, t, Done(code))
  {
    SoloRun(s, t);
    if s.stat[s.threads[t].req] == Init {
      var s1 := Step(s, Go(t));
      DecToEnd(s1, t);
      var (a, code) := Atomic(s, s.threads[t].kind, s.threads[t].req);
      assert At(s1, t, Done(code)).threads == At(a, t, Done(code)).threads;
    }
  }

  // Run to its end without interruption, a call is the atomic step the manager uses.
  lemma AloneIsAtomic(s: State, k: Kind, r: nat)
    requires r < |s.stat|
    ensures var t := |s.threads|;
      var s1 := Step(s, Call(k, r));
      var (a, code) := Atomic(s, k, r);
      Legal(s1, Solo(s1, t)) && Run(s1, Solo(s1, t)) == a.(threads := s.threads + [Thread(k, r, Done(code))])
  {
    hide Solo, Run, Legal;
    var t := |s.threads|;
    var s1 := Step(s, Call(k, r));
    var (a, code) := Atomic(s, k, r);
    SoloRun(s1, t);
    var s2 := if k == ToFailed then Step(s1, Go(t)) else s1;
    CasToEnd(s2, t);
    assert At(s2, t, Done(code)).threads == s.threads + [Thread(k, r, Done(code))];
  }

  // A group of the store as this protocol sees it: its requests in list order, and no call under way.
  ghost function View(s: Store, g: TokenReqGrp): State
    requires Linked(s) && g in s.grps
  {
    var grp := s.grps[g];
    State(seq(|grp.reqs|, i requires 0 <= i < |grp.reqs| => s.reqs[grp.reqs[i]].stat), grp.pending, grp.failed, grp.err, [])
  }

  // The step by which nodes and manager settle a request is a whole call of this protocol.
  lemma FinishIsAtomic(s: Store, g: TokenReqGrp, i: nat, ok: bool)
    requires Linked(s) && g in s.grps && i < |s.grps[g].reqs|
    ensures var (s', code) := Finish(s, s.grps[g].reqs[i], ok);
      Linked(s') && g in s'.grps && (View(s', g), code) == Atomic(View(s, g), if ok then ToGot else ToFailed, i)
  {
    var r := s.grps[g].reqs[i];
    var (s', code) := Finish(s, r, ok);
    FinishLinked(s, r, ok);
    assert r in s.reqs && r.grp == g;
    assert View(s', g).stat == Atomic(View(s, g), if ok then ToGot else ToFailed, i).0.stat;
  }
}
