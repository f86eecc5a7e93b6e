/**
  One node when the threads inside `alloc_resource`, `free_resource` and `resource_changed` interleave, one locked
  section of the quota or of the waiting list a step (sysqos_dispatch_node.c:24-128).

  The lock of the node is held from `Seek` or `Want` to `Release`; only its holder adds to the waiters or takes from them.
 */
module Wakeups {
  import opened Words
  import opened Quota

  datatype Pc =
    // a request: a try without the lock, then a try with it, then the queue
    | Check | Commit | Seek | Recheck | Recommit | Push
    // a drain: the look without the lock, then grants from the front
    | Give | Peek | Want | Front | HeadCheck | HeadCommit | Pop
    | Release
    | Done

  datatype Thread = Thread(cost: Cost, pc: Pc)

  datatype State = State(base: Base, queue: seq<Cost>, held: bool, threads: seq<Thread>)

  datatype Move = Alloc(cost: Cost) | Free(cost: Cost) | Message(total: U64, ver: int) | ResetNode | Go(t: nat)

  predicate Enabled(s: State, m: Move) {
    match m
    case Go(t) => t < |s.threads| && s.threads[t].pc != Done && (s.threads[t].pc in {Seek, Want} ==> !s.held)
    case _ => true
  }

  function At(s: State, t: nat, pc: Pc): State
    requires t < |s.threads|
  {
    s.(threads := s.threads[t := s.threads[t].(pc := pc)])
  }

  function Try(b: Base, c: Cost): Base {
    if Fits(b, c) then Charge(b, c) else b
  }

  // The threads one after another: what thread t does next.
  function Turn(s: State, t: nat): State
    requires t < |s.threads|
  {
    var c := s.threads[t].cost;
    match s.threads[t].pc
    case Check => At(s, t, if Fits(s.base, c) then Commit else Seek)
    case Commit => At(s, t, Done).(base := Try(s.base, c))
    case Seek => At(s, t, Recheck).(held := true)
    case Recheck => At(s, t, if Fits(s.base, c) then Recommit else Push)
    case Recommit => At(s, t, Release).(base := Try(s.base, c))
    case Push => At(s, t, Release).(queue := s.queue + [c])
    case Give => At(s, t, Peek).(base := Discharge(s.base, c))
    case Peek => At(s, t, if s.queue == [] then Done else Want)
    case Want => At(s, t, Front).(held := true)
    case Front => At(s, t, if s.queue == [] then Release else HeadCheck)
    case HeadCheck => At(s, t, if s.queue != [] && Fits(s.base, s.queue[0]) then HeadCommit else Release)
    case HeadCommit => At(s, t, Pop).(base := if s.queue == [] then s.base else Try(s.base, s.queue[0]))
    case Pop => At(s, t, Front).(queue := if s.queue == [] then [] else s.queue[1..])
    case Release => At(s, t, Done).(held := false)
    case Done => s
  }

  function Step(s: State, m: Move): State
    requires Enabled(s, m)
  {
    match m
    case Alloc(c) => s.(threads := s.threads + [Thread(c, Check)])
    case Free(c) => s.(threads := s.threads + [Thread(c, Give)])
    case Message(total, ver) =>
      var v := Update(s.base, total, ver);
      s.(base := v.base, threads := s.threads + if v.increased then [Thread(0, Peek)] else [])
    case ResetNode => s.(base := Reset(s.base))
    case Go(t) => Turn(s, t)
  }

  // ----- Who will look at the head

  // A thread that has yet to find the head unfit or the queue empty.
  predicate Looking(pc: Pc) {
    pc in {Peek, Want, Front, HeadCheck, HeadCommit, Pop}
  }

  ghost predicate SomeLooking(s: State) {
    exists t :: 0 <= t < |s.threads| && Looking(s.threads[t].pc)
  }

  predicate HeadFits(s: State) {
    s.queue != [] && Fits(s.base, s.queue[0])
  }

  // If the head fits, somebody is going to look at it.
  ghost predicate Attended(s: State) {
    HeadFits(s) ==> SomeLooking(s)
  }

  // The guards of `Quota`, at the moves that change the base.
  predicate Guarded(s: State, m: Move)
    requires Enabled(s, m)
  {
    match m
    case Message(total, ver) => MessageSafe(s.base, total, ver)
    case ResetNode => ResetSafe(s.base)
    case Go(t) => s.threads[t].pc in {Commit, Recommit, HeadCommit} ==> GrantSafe(s.base)
    case _ => true
  }

  // The lost wakeup: a request that was refused joins an empty queue although it fits by now, and whoever made room for
  // it has already looked.
  ghost predicate Lost(s: State, m: Move)
    requires Enabled(s, m)
  {
    m.Go? && s.threads[m.t].pc == Push && s.queue == [] && Fits(s.base, s.threads[m.t].cost) && !SomeLooking(s)
  }

  // ----- The exact condition

  lemma OthersLook(s: State, t: nat)
    requires t < |s.threads|
    ensures SomeLooking(Turn(s, t)) ==> SomeLooking(s) || s.threads[t].pc == Give
    ensures SomeLooking(s) && !SomeLooking(Turn(s, t)) ==> Looking(s.threads[t].pc)
    ensures SomeLooking(s) && !SomeLooking(Turn(s, t)) ==> s.threads[t].pc in {Peek, Front, HeadCheck}
  {
    var s' := Turn(s, t);
    assert forall x :: 0 <= x < |s.threads| && x != t ==> s'.threads[x] == s.threads[x];
    if Looking(s.threads[t].pc) && s.threads[t].pc !in {Peek, Front, HeadCheck} {
      assert Looking(s'.threads[t].pc);
    }
  }

  lemma TryKeepsOut(b: Base, c: Cost, d: Cost)
    requires !Fits(b, c) && GrantSafe(b)
    ensures !Fits(Try(b, d), c)
  {
    GrantKeepsUnfitIff(b);
  }

  lemma PushAttendedIff(s: State, t: nat)
    requires Attended(s) && Enabled(s, Go(t)) && s.threads[t].pc == Push
    ensures Attended(Turn(s, t)) <==> !Lost(s, Go(t))
  {
    var s' := Turn(s, t);
    OthersLook(s, t);
    assert SomeLooking(s) <==> SomeLooking(s');
    if s.queue == [] {
      assert s'.queue == [s.threads[t].cost];
    } else {
      assert s'.queue[0] == s.queue[0];
    }
  }

  lemma TurnAttendedIff(s: State, t: nat)
    requires Attended(s) && Enabled(s, Go(t)) && Guarded(s, Go(t))
    ensures Attended(Turn(s, t)) <==> !Lost(s, Go(t))
  {
    hide Fits, Charge, Discharge, GrantSafe;
    var s', pc := Turn(s, t), s.threads[t].pc;
    OthersLook(s, t);
    if pc == Give {
      assert Looking(s'.threads[t].pc);
    } else if pc == Pop {
      assert Looking(s'.threads[t].pc);
    } else if pc in {Commit, Recommit, HeadCommit} {
      if s.queue != [] && !Fits(s.base, s.queue[0]) {
        TryKeepsOut(s.base, s.queue[0], s.threads[t].cost);
        TryKeepsOut(s.base, s.queue[0], s.queue[0]);
      }
    } else if pc == Push {
      PushAttendedIff(s, t);
    } else if Looking(s'.threads[t].pc) {
      assert SomeLooking(s');
    }
  }

  lemma MoreThreads(s: State, s': State)
    requires SomeLooking(s) && s.threads <= s'.threads
    ensures SomeLooking(s')
  {
    var t :| 0 <= t < |s.threads| && Looking(s.threads[t].pc);
    assert Looking(s'.threads[t].pc);
  }

  // Under the guards, a move leaves the head unattended exactly if it is a lost wakeup.
  lemma StepAttendedIff(s: State, m: Move)
    requires Attended(s) && Enabled(s, m) && Guarded(s, m)
    ensures Attended(Step(s, m)) <==> !Lost(s, m)
  {
    hide Fits, Update, Reset, MessageSafe, ResetSafe, Turn;
    var s' := Step(s, m);
    match m
    case Go(t) => TurnAttendedIff(s, t);
    case Message(total, ver) =>
      if Update(s.base, total, ver).increased {
        assert Looking(s'.threads[|s.threads|].pc);
      } else {
        MessageKeepsUnfitIff(s.base, total, ver);
        if SomeLooking(s) { MoreThreads(s, s'); }
      }
    case ResetNode =>
      ResetKeepsUnfitIff(s.base);
      if SomeLooking(s) { MoreThreads(s, s'); }
    case _ =>
      if SomeLooking(s) { MoreThreads(s, s'); }
  }

  // ----- Runs

  ghost predicate Legal(s: State, moves: seq<Move>)
    decreases |moves|
  {
    moves == [] || (Enabled(s, moves[0]) && Legal(Step(s, moves[0]), moves[1..]))
  }

  ghost function Run(s: State, moves: seq<Move>): State
    requires Legal(s, moves)
    decreases |moves|
  {
    if moves == [] then s else Run(Step(s, moves[0]), moves[1..])
  }

  ghost predicate GuardedRun(s: State, moves: seq<Move>)
    requires Legal(s, moves)
    decreases |moves|
  {
    moves == [] || (Guarded(s, moves[0]) && GuardedRun(Step(s, moves[0]), moves[1..]))
  }

  ghost predicate NoneLost(s: State, moves: seq<Move>)
    requires Legal(s, moves)
    decreases |moves|
  {
    moves == [] || (!Lost(s, moves[0]) && NoneLost(Step(s, moves[0]), moves[1..]))
  }

  ghost predicate AlwaysAttended(s: State, moves: seq<Move>)
    requires Legal(s, moves)
    decreases |moves|
  {
    Attended(s) && (moves == [] || AlwaysAttended(Step(s, moves[0]), moves[1..]))
  }

  // However the threads interleave, the head is attended all along exactly if no wakeup is lost.
  lemma {:induction false} AlwaysAttendedIff(s: State, moves: seq<Move>)
    requires Attended(s) && Legal(s, moves) && GuardedRun(s, moves)
    ensures AlwaysAttended(s, moves) <==> NoneLost(s, moves)
    decreases |moves|
  {
    hide Attended, Enabled, Guarded, Lost, Step;
    if moves == [] {
    } else {
      StepAttendedIff(s, moves[0]);
      if Attended(Step(s, moves[0])) {
        AlwaysAttendedIff(Step(s, moves[0]), moves[1..]);
      }
    }
  }

  lemma {:induction false} AttendedLast(s: State, moves: seq<Move>)
    requires Legal(s, moves) && AlwaysAttended(s, moves)
    ensures Attended(Run(s, moves))
    decreases |moves|
  {
    hide Attended, Enabled, Step;
    if moves == [] {
    } else {
      AttendedLast(Step(s, moves[0]), moves[1..]);
    }
  }

  ghost predicate Quiet(s: State) {
    forall t :: 0 <= t < |s.threads| ==> s.threads[t].pc == Done
  }

  // When every call has returned and no wakeup was lost, nobody is stranded.
  lemma QuietStrandsNobody(b: Base, moves: seq<Move>)
    requires var s := State(b, [], false, []); Legal(s, moves) && GuardedRun(s, moves) && NoneLost(s, moves)
    requires Quiet(Run(State(b, [], false, []), moves))
    ensures !HeadFits(Run(State(b, [], false, []), moves))
  {
    var s := State(b, [], false, []);
    AlwaysAttendedIff(s, moves);
    AttendedLast(s, moves);
  }

  // ----- When no wakeup is lost

  // Nobody makes room while a refused request is on its way to the queue.
  ghost predicate Apart(s: State, m: Move)
    requires Enabled(s, m)
  {
    (exists t :: 0 <= t < |s.threads| && s.threads[t].pc == Push) ==>
      && !(m.Go? && s.threads[m.t].pc == Give)
      && !(m.Message? && Update(s.base, m.total, m.ver).increased)
  }

  ghost predicate ApartRun(s: State, moves: seq<Move>)
    requires Legal(s, moves)
    decreases |moves|
  {
    moves == [] || (Apart(s, moves[0]) && ApartRun(Step(s, moves[0]), moves[1..]))
  }

  // Whoever is on its way to the queue does not fit.
  ghost predicate Refused(s: State) {
    forall t :: 0 <= t < |s.threads| && s.threads[t].pc == Push ==> !Fits(s.base, s.threads[t].cost)
  }

  lemma RefusedStays(s: State, m: Move)
    requires Refused(s) && Enabled(s, m) && Guarded(s, m) && Apart(s, m)
    ensures Refused(Step(s, m)) && !Lost(s, m)
  {
    hide Fits, Charge, Discharge, GrantSafe, Update, Reset, MessageSafe, ResetSafe;
    var s' := Step(s, m);
    forall t | 0 <= t < |s'.threads| && s'.threads[t].pc == Push
      ensures !Fits(s'.base, s'.threads[t].cost)
    {
      if m.Go? && m.t == t {
        assert s.threads[t].pc == Recheck;
      } else {
        assert t < |s.threads| && s'.threads[t] == s.threads[t];
        var c := s.threads[t].cost;
        match m
        case Go(x) =>
          if s.threads[x].pc in {Commit, Recommit, HeadCommit} {
            TryKeepsOut(s.base, c, s.threads[x].cost);
            if s.queue != [] { TryKeepsOut(s.base, c, s.queue[0]); }
          }
        case Message(total, ver) => MessageKeepsUnfitIff(s.base, total, ver);
        case ResetNode => ResetKeepsUnfitIff(s.base);
        case _ =>
      }
    }
  }

  // A run in which frees and raising messages keep apart from requests on their way to the queue loses no wakeup.
  lemma {:induction false} ApartLosesNone(s: State, moves: seq<Move>)
    requires Refused(s) && Legal(s, moves) && GuardedRun(s, moves) && ApartRun(s, moves)
    ensures NoneLost(s, moves)
    decreases |moves|
  {
    hide Refused, Enabled, Guarded, Apart, Lost, Step;
    if moves == [] {
    } else {
      RefusedStays(s, moves[0]);
      ApartLosesNone(Step(s, moves[0]), moves[1..]);
    }
  }

  // ----- A lost wakeup

  lemma Next(s: State, m: Move, moves: seq<Move>)
    requires Enabled(s, m) && Legal(Step(s, m), moves)
    ensures Legal(s, [m] + moves) && Run(s, [m] + moves) == Run(Step(s, m), moves)
    ensures GuardedRun(s, [m] + moves) <==> Guarded(s, m) && GuardedRun(Step(s, m), moves)
  {
    assert ([m] + moves)[1..] == moves;
  }

  // A request of 6 holds its tokens, a second one is refused twice; the first gives back and looks before the second is
  // in the queue. All calls return, and the second waits at a node with nothing in use.
  lemma LostWakeup()
    ensures var s := State(INITIAL, [], false, []);
      var moves := [Alloc(6), Go(0), Go(0), Alloc(6), Go(1), Go(1), Go(1), Free(6)] + [Go(2), Go(2), Go(1), Go(1)];
      && Legal(s, moves) && GuardedRun(s, moves)
      && Quiet(Run(s, moves)) && Run(s, moves).queue == [6] && Run(s, moves).base.inuse == 0 && HeadFits(Run(s, moves))
  {
    var s8 := State(Base(6, 10, 10, 0), [], true, [Thread(6, Done), Thread(6, Push), Thread(6, Give)]);
    hide Run, Legal, GuardedRun, Step;
    SecondHalf(s8);
    FirstHalf(s8, [Go(2), Go(2), Go(1), Go(1)]);
  }

  lemma SecondHalf(s8: State)
    requires s8 == State(Base(6, 10, 10, 0), [], true, [Thread(6, Done), Thread(6, Push), Thread(6, Give)])
    ensures var moves := [Go(2), Go(2), Go(1), Go(1)];
      && Legal(s8, moves) && GuardedRun(s8, moves)
      && var d := Thread(6, Done); Run(s8, moves) == State(INITIAL, [6], false, [d, d, d])
  {
    var d: Thread := Thread(6, Done);
    var s9 := State(INITIAL, [], true, [d, Thread(6, Push), Thread(6, Peek)]);
    var s10 := State(INITIAL, [], true, [d, Thread(6, Push), d]);
    var s11 := State(INITIAL, [6], true, [d, Thread(6, Release), d]);
    assert Step(s11, Go(1)) == State(INITIAL, [6], false, [d, d, d]);
    Next(s11, Go(1), []);
    assert Step(s10, Go(1)) == s11;
    Next(s10, Go(1), [Go(1)]);
    assert Step(s9, Go(2)) == s10;
    Next(s9, Go(2), [Go(1)] + [Go(1)]);
    assert Step(s8, Go(2)) == s9;
    Next(s8, Go(2), [Go(2)] + ([Go(1)] + [Go(1)]));
    assert [Go(2)] + ([Go(2)] + ([Go(1)] + [Go(1)])) == [Go(2), Go(2), Go(1), Go(1)];
  }

  lemma FirstHalf(s8: State, moves: seq<Move>)
    requires s8 == State(Base(6, 10, 10, 0), [], true, [Thread(6, Done), Thread(6, Push), Thread(6, Give)])
    requires Legal(s8, moves) && GuardedRun(s8, moves)
    ensures var s, all := State(INITIAL, [], false, []), [Alloc(6), Go(0), Go(0), Alloc(6), Go(1), Go(1), Go(1), Free(6)] + moves;
      Legal(s, all) && GuardedRun(s, all) && Run(s, all) == Run(s8, moves)
  {
    hide Run, Legal, GuardedRun;
    var b0, b6 := INITIAL, Base(6, 10, 10, 0);
    var d: Thread := Thread(6, Done);
    var s0 := State(b0, [], false, []);
    var s1 := State(b0, [], false, [Thread(6, Check)]);
    var s2 := State(b0, [], false, [Thread(6, Commit)]);
    var s3 := State(b6, [], false, [d]);
    var s4 := State(b6, [], false, [d, Thread(6, Check)]);
    var s5 := State(b6, [], false, [d, Thread(6, Seek)]);
    var s6 := State(b6, [], true, [d, Thread(6, Recheck)]);
    var s7 := State(b6, [], true, [d, Thread(6, Push)]);
    assert Step(s7, Free(6)) == s8;
    Next(s7, Free(6), moves);
    var m7 := [Free(6)] + moves;
    assert Step(s6, Go(1)) == s7;
    Next(s6, Go(1), m7);
    var m6 := [Go(1)] + m7;
    assert Step(s5, Go(1)) == s6;
    Next(s5, Go(1), m6);
    var m5 := [Go(1)] + m6;
    assert Step(s4, Go(1)) == s5;
    Next(s4, Go(1), m5);
    var m4 := [Go(1)] + m5;
    assert Step(s3, Alloc(6)) == s4;
    Next(s3, Alloc(6), m4);
    var m3 := [Alloc(6)] + m4;
    assert Step(s2, Go(0)) == s3;
    Next(s2, Go(0), m3);
    var m2 := [Go(0)] + m3;
    assert Step(s1, Go(0)) == s2;
    Next(s1, Go(0), m2);
    var m1 := [Go(0)] + m2;
    assert Step(s0, Alloc(6)) == s1;
    Next(s0, Alloc(6), m1);
    assert [Alloc(6)] + m1 == [Alloc(6), Go(0), Go(0), Alloc(6), Go(1), Go(1), Go(1), Free(6)] + moves;
  }
}
