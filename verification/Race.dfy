/**
  `try_alloc_from_desc` and `free_to_desc` when other threads run between the two locked sections of a try
  (sysqos_dispatch_base_node.c:78-117).

  A try checks, lets go of the lock, and checks again before it charges; it returns OK even when the second check fails.
 */
module Race {
  import opened Words
  import opened Quota

  datatype Pc =
    | Check
    | Commit
    | Refused
    | Granted(charged: bool)    // OK was returned
    | Freed(charged: bool)      // and the tokens were given back

  datatype Call = Call(cost: Cost, pc: Pc)

  datatype State = State(base: Base, calls: seq<Call>)

  // A quota message or a reset may come at any time.
  datatype Move = Begin(cost: Cost) | Go(t: nat) | Message(total: U64, ver: int) | ResetNode

  predicate Enabled(s: State, m: Move) {
    match m
    case Go(t) => t < |s.calls| && !s.calls[t].pc.Refused? && !s.calls[t].pc.Freed?
    case _ => true
  }

  function Step(s: State, m: Move): State
    requires Enabled(s, m)
  {
    match m
    case Begin(c) => s.(calls := s.calls + [Call(c, Check)])
    case Message(total, ver) => s.(base := Update(s.base, total, ver).base)
    case ResetNode => s.(base := Reset(s.base))
    case Go(t) =>
      var c := s.calls[t].cost;
      match s.calls[t].pc
      case Check => s.(calls := s.calls[t := Call(c, if Fits(s.base, c) then Commit else Refused)])
      case Commit =>
        if Fits(s.base, c)
        then State(Charge(s.base, c), s.calls[t := Call(c, Granted(true))])
        else s.(calls := s.calls[t := Call(c, Granted(false))])
      case Granted(charged) => State(Discharge(s.base, c), s.calls[t := Call(c, Freed(charged))])
  }

  // A charged grant not given back counts once; an uncharged one that was given back counts against.
  function Weight(c: Call): int {
    match c.pc
    case Granted(true) => c.cost as int
    case Freed(false) => -(c.cost as int)
    case _ => 0
  }

  function Total(calls: seq<Call>): int {
    if calls == [] then 0 else Total(calls[..|calls| - 1]) + Weight(calls[|calls| - 1])
  }

  lemma {:induction false} TotalUpdate(calls: seq<Call>, t: nat, c: Call)
    requires t < |calls|
    ensures Total(calls[t := c]) == Total(calls) - Weight(calls[t]) + Weight(c)
  {
    var n := |calls| - 1;
    if t < n {
      TotalUpdate(calls[..n], t, c);
      assert calls[t := c][..n] == calls[..n][t := c];
    } else {
      assert calls[t := c][..n] == calls[..n];
    }
  }

  // What was in use before the calls of s, and what they have added and taken since.
  ghost predicate Balanced(s: State, before: U64) {
    s.base.inuse == (before + Total(s.calls)) % TWO64
  }

  lemma StepBalanced(s: State, m: Move, before: U64)
    requires Balanced(s, before) && Enabled(s, m)
    ensures Balanced(Step(s, m), before)
  {
    match m
    case Begin(c) =>
      assert (s.calls + [Call(c, Check)])[..|s.calls|] == s.calls;
    case Go(t) =>
      TotalUpdate(s.calls, t, Step(s, m).calls[t]);
      var total, c := before + Total(s.calls), s.calls[t].cost;
      AddWrapsInt(total, c);
    case Message(total, ver) =>
    case ResetNode =>
  }

  lemma AddWrapsInt(total: int, c: Cost)
    ensures Add64(total % TWO64, c) == (total + c) % TWO64
    ensures Sub64(total % TWO64, c) == (total - c) % TWO64
  {
  }

  ghost predicate Legal(s: State, moves: seq<Move>)
    decreases |moves|
  {
    moves == [] || (Enabled(s, moves[0]) && Legal(Step(s, moves[0]), moves[1..]))
  }

  ghost function Run(s: State, moves: seq<Move>): State
    requires Legal(s, moves)
    decreases |moves|
  {
    if moves == [] then s else Run(Step(s, moves[0]), moves[1..])
  }

  lemma {:induction false} RunBalanced(s: State, moves: seq<Move>, before: U64)
    requires Balanced(s, before) && Legal(s, moves)
    ensures Balanced(Run(s, moves), before)
    decreases |moves|
  {
    if moves == [] {
    } else {
      StepBalanced(s, moves[0], before);
      RunBalanced(Step(s, moves[0]), moves[1..], before);
    }
  }

  function Uncharged(c: Call): nat {
    if c.pc == Freed(false) || c.pc == Granted(false) then c.cost as int else 0
  }

  // The costs of the calls that were told OK without being charged.
  function Lost(calls: seq<Call>): nat {
    if calls == [] then 0
    else Lost(calls[..|calls| - 1]) + Uncharged(calls[|calls| - 1])
  }

  ghost predicate AllBack(calls: seq<Call>) {
    forall t :: 0 <= t < |calls| ==> calls[t].pc.Refused? || calls[t].pc.Freed?
  }

  lemma {:induction false} AllBackTotal(calls: seq<Call>)
    requires AllBack(calls)
    ensures Total(calls) == -(Lost(calls) as int)
  {
    if calls == [] {
    } else {
      AllBackTotal(calls[..|calls| - 1]);
    }
  }

  // From any state of the node, with any messages and resets in between: when every grant has been given back, the use
  // is off by exactly what was granted without a charge, so it is what it was if and only if that is a multiple of the
  // word, in particular if no second check failed.
  lemma BackAgainIff(b: Base, moves: seq<Move>)
    requires Legal(State(b, []), moves) && AllBack(Run(State(b, []), moves).calls)
    ensures var s := Run(State(b, []), moves);
      && s.base.inuse == (b.inuse - Lost(s.calls)) % TWO64
      && (s.base.inuse == b.inuse <==> Lost(s.calls) % TWO64 == 0)
  {
    RunBalanced(State(b, []), moves, b.inuse);
    var lost := Lost(Run(State(b, []), moves).calls);
    AllBackTotal(Run(State(b, []), moves).calls);
    OffByIff(b.inuse, lost);
  }

  lemma OffByIff(x: U64, d: nat)
    ensures (x - d) % TWO64 == x <==> d % TWO64 == 0
  {
    var q, r := d / TWO64, d % TWO64;
    assert x - d == (x - r) - q * TWO64;
    assert (x - d) % TWO64 == (x - r) % TWO64;
  }

  // Two calls that check together: both are told OK, one is charged, and giving both back leaves 2^64 - 6 in use.
  lemma TwoAtOnce()
    ensures var moves := [Begin(6), Begin(6), Go(0), Go(1), Go(0), Go(1), Go(0), Go(1)];
      && Legal(State(INITIAL, []), moves) && AllBack(Run(State(INITIAL, []), moves).calls)
      && Run(State(INITIAL, []), moves).base.inuse == TWO64 - 6
  {
    var s0 := State(INITIAL, []);
    var s1 := Step(s0, Begin(6));
    var s2 := Step(s1, Begin(6));
    var s3 := Step(s2, Go(0));
    var s4 := Step(s3, Go(1));
    var s5 := Step(s4, Go(0));
    var s6 := Step(s5, Go(1));
    var s7 := Step(s6, Go(0));
    var s8 := Step(s7, Go(1));
    assert s8.calls == [Call(6, Freed(true)), Call(6, Freed(false))];
    RunOne(s7, [Go(1)]);
    RunOne(s6, [Go(0), Go(1)]);
    RunOne(s5, [Go(1), Go(0), Go(1)]);
    RunOne(s4, [Go(0), Go(1), Go(0), Go(1)]);
    RunOne(s3, [Go(1), Go(0), Go(1), Go(0), Go(1)]);
    RunOne(s2, [Go(0), Go(1), Go(0), Go(1), Go(0), Go(1)]);
    var moves := [Begin(6), Begin(6), Go(0), Go(1), Go(0), Go(1), Go(0), Go(1)];
    RunOne(s1, moves[1..]);
    RunOne(s0, moves);
  }

  lemma RunOne(s: State, moves: seq<Move>)
    requires moves != [] && Enabled(s, moves[0]) && Legal(Step(s, moves[0]), moves[1..])
    ensures Legal(s, moves) && Run(s, moves) == Run(Step(s, moves[0]), moves[1..])
  {
  }
}
