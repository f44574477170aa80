/**
 The replicas of one reservation: goroutines that try to reserve the same seat and tell each other to
 stop through a buffered channel.

 A replica that reserves sends a token and ends. A replica that receives a token sends it on and
 ends. The channel's buffer is as large as the number of replicas.
 */
module Reserver {

  datatype Replica =
    | Starting                      // waits for the maintenance window to end
    | Looking(attempt: nat)         // about to poll the channel
    | Reserving(attempt: nat)       // the poll found nothing: the reserve call is under way
    | Relaying                      // holds a received token, is about to send it on
    | Succeeded                     // has reserved, is about to send its token
    | Finished(reserved: bool)

  datatype State = State(replicas: seq<Replica>, buffered: nat, attempts: nat)

  datatype Step =
    | Begin                         // maintenance is over
    | BeginFails
    | Poll
    | ReserveFails
    | ReserveSucceeds
    | Send

  function At(s: State, r: nat, next: Replica): State
    requires r < |s.replicas|
  {
    s.(replicas := s.replicas[r := next])
  }

  /** What a replica may do now; a send needs room in the buffer. */
  predicate Enabled(s: State, r: nat, step: Step) {
    r < |s.replicas| &&
    match s.replicas[r]
    case Starting => step.Begin? || step.BeginFails?
    case Looking(_) => step.Poll?
    case Reserving(_) => step.ReserveFails? || step.ReserveSucceeds?
    case Relaying | Succeeded => step.Send? && s.buffered < |s.replicas|
    case Finished(_) => false
  }

  function Next(s: State, r: nat, step: Step): State
    requires Enabled(s, r, step)
  {
    match s.replicas[r]
    case Starting => At(s, r, if step.Begin? then Looking(0) else Finished(false))
    case Looking(i) =>
      if i >= s.attempts then At(s, r, Finished(false))
      else if s.buffered > 0 then At(s, r, Relaying).(buffered := s.buffered - 1)
      else At(s, r, Reserving(i))
    case Reserving(i) => At(s, r, if step.ReserveFails? then Looking(i + 1) else Succeeded)
    case Relaying => At(s, r, Finished(false)).(buffered := s.buffered + 1)
    case Succeeded => At(s, r, Finished(true)).(buffered := s.buffered + 1)
  }

  datatype Move = Move(replica: nat, step: Step)

  predicate ValidRun(s: State, moves: seq<Move>)
    decreases |moves|
  {
    moves == [] ||
    (Enabled(s, moves[0].replica, moves[0].step) && ValidRun(Next(s, moves[0].replica, moves[0].step), moves[1..]))
  }

  function Run(s: State, moves: seq<Move>): State
    requires ValidRun(s, moves)
    decreases |moves|
  {
    if moves == [] then s else Run(Next(s, moves[0].replica, moves[0].step), moves[1..])
  }

  function Initial(replicas: nat, attempts: nat): State {
    State(seq(replicas, _ => Starting), 0, attempts)
  }

  ghost predicate Reachable(replicas: nat, attempts: nat, s: State) {
    exists moves :: ValidRun(Initial(replicas, attempts), moves) && Run(Initial(replicas, attempts), moves) == s
  }

  // ---------------------------------------------------------------- counting

  function Sum(replicas: seq<Replica>, weight: Replica -> nat): nat {
    if replicas == [] then 0 else weight(replicas[0]) + Sum(replicas[1..], weight)
  }

  lemma {:induction false} SumAfterUpdate(replicas: seq<Replica>, weight: Replica -> nat, r: nat, next: Replica)
    requires r < |replicas|
    ensures Sum(replicas[r := next], weight) + weight(replicas[r]) == Sum(replicas, weight) + weight(next)
  {
    if r > 0 {
      assert replicas[r := next][1..] == replicas[1..][r - 1 := next];
      SumAfterUpdate(replicas[1..], weight, r - 1, next);
    } else {
      assert replicas[r := next][1..] == replicas[1..];
    }
  }

  lemma {:induction false} SumIsWithin(replicas: seq<Replica>, weight: Replica -> nat, most: nat)
    requires forall r | r in replicas :: weight(r) <= most
    ensures Sum(replicas, weight) <= |replicas| * most
  {
    if replicas != [] {
      assert replicas[0] in replicas && forall r | r in replicas[1..] :: r in replicas;
      SumIsWithin(replicas[1..], weight, most);
      OneMoreTime(|replicas| - 1, most);
    }
  }

  lemma OneMoreTime(n: nat, most: nat)
    ensures n * most + most == (n + 1) * most
  {
  }

  lemma {:induction false} PartOfSum(replicas: seq<Replica>, weight: Replica -> nat, r: nat)
    requires r < |replicas|
    ensures weight(replicas[r]) <= Sum(replicas, weight)
  {
    if r > 0 {
      PartOfSum(replicas[1..], weight, r - 1);
    }
  }

  /** One for a replica that has reserved. */
  function Reserved(r: Replica): nat {
    if r.Succeeded? || r == Finished(true) then 1 else 0
  }

  /** One for a replica with a token it still has to send. */
  function Owed(r: Replica): nat {
    if r.Succeeded? || r.Relaying? then 1 else 0
  }

  /** Every success is one token: in the buffer, or in the hands of a replica about to send it. */
  ghost predicate TokensBalance(s: State) {
    s.buffered + Sum(s.replicas, Owed) == Sum(s.replicas, Reserved)
  }

  ghost predicate Inv(s: State) {
    TokensBalance(s) &&
    forall r | 0 <= r < |s.replicas| ::
      match s.replicas[r]
      case Looking(i) => i <= s.attempts
      case Reserving(i) => i < s.attempts
      case _ => true
  }

  lemma StepKeepsInv(s: State, r: nat, step: Step)
    requires Inv(s) && Enabled(s, r, step)
    ensures Inv(Next(s, r, step))
  {
    var next := Next(s, r, step).replicas[r];
    SumAfterUpdate(s.replicas, Owed, r, next);
    SumAfterUpdate(s.replicas, Reserved, r, next);
  }

  lemma {:induction false} NobodyOwesAtFirst(replicas: seq<Replica>, weight: Replica -> nat)
    requires forall r | r in replicas :: weight(r) == 0
    ensures Sum(replicas, weight) == 0
  {
    if replicas != [] {
      assert replicas[0] in replicas && forall r | r in replicas[1..] :: r in replicas;
      NobodyOwesAtFirst(replicas[1..], weight);
    }
  }

  lemma InitialIsSound(replicas: nat, attempts: nat)
    ensures Inv(Initial(replicas, attempts))
  {
    NobodyOwesAtFirst(Initial(replicas, attempts).replicas, Owed);
    NobodyOwesAtFirst(Initial(replicas, attempts).replicas, Reserved);
  }

  /** The steps a replica can still take, its share of the work left. */
  function Left(attempts: nat, r: Replica): nat {
    match r
    case Starting => 2 * attempts + 3
    case Looking(i) => if i <= attempts then 2 * (attempts - i) + 2 else 0
    case Reserving(i) => if i <= attempts then 2 * (attempts - i) + 1 else 0
    case Relaying | Succeeded => 1
    case Finished(_) => 0
  }

  function Work(s: State): nat {
    Sum(s.replicas, r => Left(s.attempts, r))
  }

  lemma StepUsesWork(s: State, r: nat, step: Step)
    requires Inv(s) && Enabled(s, r, step)
    ensures Work(Next(s, r, step)) < Work(s)
  {
    var next := Next(s, r, step).replicas[r];
    SumAfterUpdate(s.replicas, q => Left(s.attempts, q), r, next);
    assert Left(s.attempts, next) < Left(s.attempts, s.replicas[r]);
    assert Sum(Next(s, r, step).replicas, q => Left(s.attempts, q)) < Sum(s.replicas, q => Left(s.attempts, q));
  }

  lemma {:induction false} RunKeepsInv(s: State, moves: seq<Move>)
    requires Inv(s) && ValidRun(s, moves)
    ensures Inv(Run(s, moves)) && |Run(s, moves).replicas| == |s.replicas|
    ensures Work(Run(s, moves)) + |moves| <= Work(s)
    decreases |moves|
  {
    if moves != [] {
      var m := moves[0];
      StepKeepsInv(s, m.replica, m.step);
      StepUsesWork(s, m.replica, m.step);
      RunKeepsInv(Next(s, m.replica, m.step), moves[1..]);
    }
  }

  // ---------------------------------------------------------------- the claims

  lemma ReachableIsSound(replicas: nat, attempts: nat, s: State)
    requires Reachable(replicas, attempts, s)
    ensures Inv(s) && |s.replicas| == replicas
  {
    InitialIsSound(replicas, attempts);
    var moves :| ValidRun(Initial(replicas, attempts), moves) && Run(Initial(replicas, attempts), moves) == s;
    RunKeepsInv(Initial(replicas, attempts), moves);
  }

  /** Tokens buffered, relayed and not yet sent are the successes, of which each replica has at most one. */
  lemma TokensAreSuccesses(replicas: nat, attempts: nat, s: State)
    requires Reachable(replicas, attempts, s)
    ensures s.buffered + Sum(s.replicas, Owed) == Sum(s.replicas, Reserved) <= replicas
  {
    ReachableIsSound(replicas, attempts, s);
    SumIsWithin(s.replicas, Reserved, 1);
  }

  /** A replica with a token to send always finds room: no sender ever blocks. */
  lemma SendersNeverBlock(replicas: nat, attempts: nat, s: State, r: nat)
    requires Reachable(replicas, attempts, s) && r < replicas
    requires |s.replicas| == replicas && Owed(s.replicas[r]) == 1
    ensures s.buffered < |s.replicas| && Enabled(s, r, Send)
  {
    TokensAreSuccesses(replicas, attempts, s);
    PartOfSum(s.replicas, Owed, r);
  }

  /** Every replica that has not finished can take its next step, whatever the others do. */
  lemma NoReplicaIsStuck(replicas: nat, attempts: nat, s: State, r: nat)
    requires Reachable(replicas, attempts, s) && r < |s.replicas| && !s.replicas[r].Finished?
    ensures exists step :: Enabled(s, r, step)
  {
    ReachableIsSound(replicas, attempts, s);
    match s.replicas[r]
    case Starting => assert Enabled(s, r, Begin);
    case Looking(_) => assert Enabled(s, r, Poll);
    case Reserving(_) => assert Enabled(s, r, ReserveFails);
    case _ => SendersNeverBlock(replicas, attempts, s, r);
  }

  /** No run goes on for longer than this, so with nobody stuck every replica finishes. */
  lemma RunsEnd(replicas: nat, attempts: nat, moves: seq<Move>)
    requires ValidRun(Initial(replicas, attempts), moves)
    ensures |moves| <= replicas * (2 * attempts + 3)
  {
    var s := Initial(replicas, attempts);
    InitialIsSound(replicas, attempts);
    RunKeepsInv(s, moves);
    SumIsWithin(s.replicas, r => Left(attempts, r), 2 * attempts + 3);
  }

  /** A run that cannot be continued has finished every replica and left one token per success. */
  lemma FinalTokensAreSuccesses(replicas: nat, attempts: nat, s: State)
    requires Reachable(replicas, attempts, s)
    requires forall r, step :: !Enabled(s, r, step)
    ensures forall r | 0 <= r < replicas && r < |s.replicas| :: s.replicas[r].Finished?
    ensures s.buffered == Sum(s.replicas, Reserved)
  {
    ReachableIsSound(replicas, attempts, s);
    forall r: nat | r < |s.replicas|
      ensures s.replicas[r].Finished?
    {
      if !s.replicas[r].Finished? {
        NoReplicaIsStuck(replicas, attempts, s, r);
      }
    }
    assert forall r | r in s.replicas :: Owed(r) == 0;
    NobodyOwesAtFirst(s.replicas, Owed);
  }

  /** How often replica r reserves successfully in a run. */
  function Successes(moves: seq<Move>, r: nat): nat {
    if moves == [] then 0
    else (if moves[0] == Move(r, ReserveSucceeds) then 1 else 0) + Successes(moves[1..], r)
  }

  lemma {:induction false} EachReservesAtMostOnce(s: State, moves: seq<Move>, r: nat)
    requires ValidRun(s, moves) && r < |s.replicas|
    ensures Successes(moves, r) <= (if Owed(s.replicas[r]) == 1 || s.replicas[r].Finished? then 0 else 1)
    decreases |moves|
  {
    if moves != [] {
      EachReservesAtMostOnce(Next(s, moves[0].replica, moves[0].step), moves[1..], r);
    }
  }

  // ---------------------------------------------------------------- what stops a replica

  /** How often replica r makes a step of this kind in a run. */
  function Steps(moves: seq<Move>, r: nat, step: Step): nat {
    if moves == [] then 0
    else (if moves[0] == Move(r, step) then 1 else 0) + Steps(moves[1..], r, step)
  }

  /** What is left for a replica to do, by where it stands. */
  ghost predicate EndsAs(s: State, moves: seq<Move>, r: nat)
    requires r < |s.replicas|
  {
    var fails, sends := Steps(moves, r, ReserveFails), Steps(moves, r, Send);
    var begins, aborts := Steps(moves, r, Begin), Steps(moves, r, BeginFails);
    begins + aborts == (if s.replicas[r].Starting? then 1 else 0) &&
    match s.replicas[r]
    case Starting =>
      (aborts == 1 ==> sends == 0 && fails == 0 && Successes(moves, r) == 0) &&
      (begins == 1 && sends == 0 ==> fails == s.attempts)
    case Looking(i) => i <= s.attempts && (sends == 0 ==> fails == s.attempts - i)
    case Reserving(i) => i < s.attempts && (sends == 0 ==> fails == s.attempts - i)
    case Relaying => sends == 1 && fails == 0 && Successes(moves, r) == 0
    case Succeeded => sends == 1 && fails == 0 && Successes(moves, r) == 0
    case Finished(_) => sends == 0 && fails == 0 && Successes(moves, r) == 0
  }

  /**
   A replica that got through maintenance and ends without sending a token has made every attempt and failed
   each; one that has received or earned a token sends it once and does not reserve again.
   */
  lemma {:induction false} WhyReplicasEnd(s: State, moves: seq<Move>, r: nat)
    requires Inv(s) && ValidRun(s, moves) && r < |s.replicas| && |Run(s, moves).replicas| == |s.replicas|
    requires Run(s, moves).replicas[r].Finished?
    ensures EndsAs(s, moves, r)
    decreases |moves|
  {
    if moves != [] {
      var t := Next(s, moves[0].replica, moves[0].step);
      StepKeepsInv(s, moves[0].replica, moves[0].step);
      WhyReplicasEnd(t, moves[1..], r);
    }
  }

  /** A replica that looks and finds a token takes it, and does not reserve. */
  lemma {:induction false} TokenIsTaken(s: State, r: nat, moves: seq<Move>)
    requires Inv(s) && r < |s.replicas| && s.replicas[r].Looking? && s.buffered > 0
    requires moves != [] && moves[0] == Move(r, Poll) && ValidRun(s, moves)
    requires |Run(s, moves).replicas| == |s.replicas| && Run(s, moves).replicas[r].Finished?
    ensures Successes(moves, r) == 0 && Steps(moves, r, ReserveFails) == 0
  {
    var t := Next(s, r, Poll);
    StepKeepsInv(s, r, Poll);
    WhyReplicasEnd(t, moves[1..], r);
  }
}
