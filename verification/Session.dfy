/**
 The KTMB session every module shares: a cached login, the Redis lock around filling it, and the two
 ways of dropping it.

 Each Redis or KTMB call is one step of one client, so any number of clients interleave freely.
 Tokens stand for their fingerprints. Encrypting is randomised, so a cached value is a token and a
 nonce; the Redis scripts compare whole values.
 */
module Session {
  import opened Wrappers

  type Token = nat

  /** A random lock owner, drawn once per login. */
  type Owner = nat

  datatype Blob = Blob(token: Token, nonce: nat)

  datatype Client =
    | Idle
    // Login
    | Checking
    | Acquiring(owner: Owner)
    | Waiting(owner: Owner)
    | Holding(owner: Owner)
    | LoggingIn(owner: Owner)
    | Storing(owner: Owner, token: Token)
    | Releasing(owner: Owner)
    // Invalidate
    | Rejected(token: Token)
    | Invalidating(token: Token, seen: Blob)
    // RecoverSession
    | Recovering(dead: set<Token>)
    | Cleaning(dead: set<Token>)
    | Dropping(dead: set<Token>, seen: Blob)

  datatype Cause = ByRejection(token: Token) | BySignal(dead: set<Token>)

  datatype Deletion = Deletion(token: Token, cause: Cause)

  datatype State = State(
    cache: Option<Blob>,
    lock: Option<Owner>,
    signals: set<Token>,
    clients: seq<Client>,
    nextOwner: Owner,
    nextToken: Token,           // KTMB hands out every token once
    stored: seq<Token>,         // every token ever put in the cache, oldest first
    deleted: seq<Deletion>,     // every deletion from it
    signalled: set<Token>)      // every token ever signalled dead

  datatype Step =
    | BeginLogin
    | CheckCache                // a hit returns the token; a miss goes for the lock
    | SetLock                   // SET NX: taken, or wait
    | CheckWhileWaiting
    | CheckHolding
    | KtmbLogin
    | Store(nonce: nat)
    | ReleaseLock
    | BeginInvalidate(token: Token)
    | ReadRejected
    | DeleteRejected
    | ReadSignals
    | ReadSignalled
    | DropStaleSignals
    | DeleteSignalled
    | Fail                      // an error return, or the context ends
    | Crash
    | SignalDead(token: Token)  // a prober reports a session it was using

  predicate InLogin(c: Client) {
    c.Acquiring? || c.Waiting? || c.Holding? || c.LoggingIn? || c.Storing? || c.Releasing?
  }

  predicate Critical(c: Client) {
    c.Holding? || c.LoggingIn? || c.Storing?
  }

  function At(s: State, k: nat, c: Client): State
    requires k < |s.clients|
  {
    s.(clients := s.clients[k := c])
  }

  function Delete(s: State, cause: Cause): State
    requires s.cache.Some?
  {
    s.(cache := None, deleted := s.deleted + [Deletion(s.cache.value.token, cause)])
  }

  function LoginNext(s: State, k: nat, step: Step): Option<State>
    requires k < |s.clients|
  {
    match (step, s.clients[k])
    case (BeginLogin, Idle) => Some(At(s, k, Checking))
    case (CheckCache, Checking) =>
      if s.cache.Some? then Some(At(s, k, Idle))
      else Some(At(s, k, Acquiring(s.nextOwner)).(nextOwner := s.nextOwner + 1))
    case (SetLock, Acquiring(owner)) =>
      if s.lock.None? then Some(At(s, k, Holding(owner)).(lock := Some(owner))) else Some(At(s, k, Waiting(owner)))
    case (CheckWhileWaiting, Waiting(owner)) =>
      Some(At(s, k, if s.cache.Some? then Idle else Acquiring(owner)))
    case (CheckHolding, Holding(owner)) =>
      Some(At(s, k, if s.cache.Some? then Releasing(owner) else LoggingIn(owner)))
    case (KtmbLogin, LoggingIn(owner)) =>
      Some(At(s, k, Storing(owner, s.nextToken)).(nextToken := s.nextToken + 1))
    case (Store(nonce), Storing(owner, token)) =>
      Some(At(s, k, Releasing(owner)).(cache := Some(Blob(token, nonce)), stored := s.stored + [token]))
    case (ReleaseLock, Releasing(owner)) =>
      Some(At(s, k, Idle).(lock := if s.lock == Some(owner) then None else s.lock))
    case _ => None
  }

  function DropNext(s: State, k: nat, step: Step): Option<State>
    requires k < |s.clients|
  {
    match (step, s.clients[k])
    case (BeginInvalidate(token), Idle) => Some(At(s, k, Rejected(token)))
    case (ReadRejected, Rejected(token)) =>
      if s.cache.Some? && s.cache.value.token == token then Some(At(s, k, Invalidating(token, s.cache.value)))
      else Some(At(s, k, Idle))
    case (DeleteRejected, Invalidating(token, seen)) =>
      Some(At(if s.cache == Some(seen) then Delete(s, ByRejection(token)) else s, k, Idle))
    case (ReadSignals, Idle) =>
      Some(At(s, k, if s.signals == {} then Idle else Recovering(s.signals)))
    case (ReadSignalled, Recovering(dead)) =>
      if s.cache.None? then Some(At(s, k, Idle))
      else if s.cache.value.token in dead then Some(At(s, k, Dropping(dead, s.cache.value)))
      else Some(At(s, k, Cleaning(dead)))
    case (DropStaleSignals, Cleaning(dead)) =>
      Some(At(s, k, Idle).(signals := s.signals - dead))
    case (DeleteSignalled, Dropping(dead, seen)) =>
      Some(At(if s.cache == Some(seen) then Delete(s, BySignal(dead)).(signals := {}) else s, k, Idle))
    case (SignalDead(token), Idle) =>
      if token in s.stored then Some(s.(signals := s.signals + {token}, signalled := s.signalled + {token})) else None
    case _ => None
  }

  function ClientNext(s: State, k: nat, step: Step): Option<State> {
    if k >= |s.clients| then None
    else if step.Crash? then Some(At(s, k, Idle))
    else if step.Fail? then Some(At(s, k, if Critical(s.clients[k]) then Releasing(s.clients[k].owner) else Idle))
    else
      var login := LoginNext(s, k, step);
      if login.Some? then login else DropNext(s, k, step)
  }

  datatype Event =
    | ByClient(k: nat, step: Step)
    | LockExpires               // never under a client still inside: its TTL outlasts the KTMB timeout
    | SignalsExpire

  function Next(s: State, e: Event): Option<State> {
    match e
    case ByClient(k, step) => ClientNext(s, k, step)
    case LockExpires =>
      if forall c | c in s.clients :: Critical(c) ==> s.lock != Some(c.owner) then Some(s.(lock := None)) else None
    case SignalsExpire => Some(s.(signals := {}))
  }

  /** Everyone idle; the cache may already hold a session. */
  ghost predicate Initial(s: State) {
    && (forall c | c in s.clients :: c.Idle?)
    && s.lock.None? && s.signals == {} && s.signalled == {} && s.deleted == []
    && s.stored == (if s.cache.Some? then [s.cache.value.token] else [])
    && (s.cache.Some? ==> s.cache.value.token < s.nextToken)
  }

  function Run(s: State, events: seq<Event>): Option<State>
    decreases |events|
  {
    if events == [] then Some(s)
    else
      var t := Next(s, events[0]);
      if t.None? then None else Run(t.value, events[1..])
  }

  ghost predicate Reachable(s: State) {
    exists init, events :: Initial(init) && Run(init, events) == Some(s)
  }

  // ---------------------------------------------------------------- the lock

  /** Whoever is inside owns the lock, and no two logins share an owner. */
  ghost predicate LockHeld(s: State) {
    && (forall k | 0 <= k < |s.clients| && Critical(s.clients[k]) :: s.lock == Some(s.clients[k].owner))
    && (forall k | 0 <= k < |s.clients| && InLogin(s.clients[k]) :: s.clients[k].owner < s.nextOwner)
    && (forall j, k | 0 <= j < k < |s.clients| && InLogin(s.clients[j]) && InLogin(s.clients[k]) ::
          s.clients[j].owner != s.clients[k].owner)
    && (s.lock.Some? ==> s.lock.value < s.nextOwner)
  }

  /** Client k moves on as c, with the lock and the owner counter as given; who may do so. */
  ghost predicate MayMove(s: State, k: nat, c: Client, lock: Option<Owner>, nextOwner: Owner)
    requires k < |s.clients|
  {
    var was := s.clients[k];
    && (InLogin(c) ==>
          || (InLogin(was) && c.owner == was.owner && nextOwner == s.nextOwner)
          || (c.owner == s.nextOwner && nextOwner == s.nextOwner + 1))
    && (InLogin(c) || nextOwner == s.nextOwner)
    && (Critical(c) ==> lock == Some(c.owner) && (Critical(was) || s.lock.None?))
    && (lock == s.lock || (s.lock.None? && Critical(c)) || (lock.None? && InLogin(was) && s.lock == Some(was.owner)))
  }

  lemma MoveKeepsLock(s: State, k: nat, c: Client, t: State)
    requires k < |s.clients| && LockHeld(s) && MayMove(s, k, c, t.lock, t.nextOwner)
    requires t.clients == s.clients[k := c]
    ensures LockHeld(t)
  {
  }

  lemma LoginMayMove(s: State, k: nat, step: Step, t: State)
    requires k < |s.clients| && LockHeld(s) && LoginNext(s, k, step) == Some(t)
    ensures t.clients == s.clients[k := t.clients[k]] && MayMove(s, k, t.clients[k], t.lock, t.nextOwner)
  {
  }

  lemma DropMayMove(s: State, k: nat, step: Step, t: State)
    requires k < |s.clients| && LockHeld(s) && DropNext(s, k, step) == Some(t)
    ensures t.clients == s.clients[k := t.clients[k]] && MayMove(s, k, t.clients[k], t.lock, t.nextOwner)
  {
  }

  lemma LockStaysHeld(s: State, e: Event, t: State)
    requires LockHeld(s) && Next(s, e) == Some(t)
    ensures LockHeld(t)
  {
    match e {
      case ByClient(k, step) =>
        if step.Crash? || step.Fail? {
          MoveKeepsLock(s, k, t.clients[k], t);
        } else if LoginNext(s, k, step).Some? {
          LoginMayMove(s, k, step, t);
          MoveKeepsLock(s, k, t.clients[k], t);
        } else {
          DropMayMove(s, k, step, t);
          MoveKeepsLock(s, k, t.clients[k], t);
        }
      case LockExpires =>
        assert forall k | 0 <= k < |s.clients| :: s.clients[k] in s.clients;
      case SignalsExpire =>
    }
  }

  // ---------------------------------------------------------------- the tokens

  function Tokens(deleted: seq<Deletion>): (tokens: seq<Token>)
    ensures |tokens| == |deleted|
    ensures forall i | 0 <= i < |deleted| :: tokens[i] == deleted[i].token
  {
    seq(|deleted|, i requires 0 <= i < |deleted| => deleted[i].token)
  }

  function Cached(s: State): seq<Token> {
    if s.cache.Some? then [s.cache.value.token] else []
  }

  ghost predicate Increasing(tokens: seq<Token>) {
    forall i, j | 0 <= i < j < |tokens| :: tokens[i] < tokens[j]
  }

  /** The cache is empty while anyone inside is past the second check. */
  ghost predicate EmptyWhileLoggingIn(s: State) {
    forall k | 0 <= k < |s.clients| && (s.clients[k].LoggingIn? || s.clients[k].Storing?) :: s.cache.None?
  }

  /** Stored tokens are exactly the deleted ones followed by the cached one, each stored once. */
  ghost predicate Accounted(s: State) {
    && s.stored == Tokens(s.deleted) + Cached(s)
    && Increasing(s.stored) && (forall token | token in s.stored :: token < s.nextToken)
    && (forall k | 0 <= k < |s.clients| && s.clients[k].Storing? ::
          s.clients[k].token < s.nextToken && forall token | token in s.stored :: token < s.clients[k].token)
  }

  /** What a client remembers of the signals was really signalled, and only of stored tokens. */
  ghost predicate SignalsSound(s: State) {
    && s.signals <= s.signalled && (forall token | token in s.signalled :: token in s.stored)
    && (forall k | 0 <= k < |s.clients| ::
          match s.clients[k]
          case Recovering(dead) => dead <= s.signalled
          case Cleaning(dead) => dead <= s.signalled && (s.cache.Some? ==> s.cache.value.token !in dead)
          case Dropping(dead, seen) => dead <= s.signalled && seen.token in dead
          case Invalidating(token, seen) => seen.token == token
          case _ => true)
  }

  ghost predicate DeletionsJustified(s: State) {
    forall d | d in s.deleted ::
      match d.cause
      case ByRejection(token) => d.token == token
      case BySignal(dead) => d.token in dead && dead <= s.signalled
  }

  ghost predicate Inv(s: State) {
    LockHeld(s) && EmptyWhileLoggingIn(s) && Accounted(s) && SignalsSound(s) && DeletionsJustified(s)
  }

  lemma OnlyOneInside(s: State, k: nat)
    requires LockHeld(s) && k < |s.clients| && Critical(s.clients[k])
    ensures forall j | 0 <= j < |s.clients| && Critical(s.clients[j]) :: j == k
  {
  }

  lemma LoginKeepsTokens(s: State, k: nat, step: Step, t: State)
    requires k < |s.clients| && Inv(s) && LoginNext(s, k, step) == Some(t)
    ensures EmptyWhileLoggingIn(t) && Accounted(t)
  {
    hide LockHeld, SignalsSound, DeletionsJustified;
    if Critical(s.clients[k]) {
      OnlyOneInside(s, k);
      assert s.clients[k].Storing? ==> s.stored == Tokens(s.deleted);
      assert forall i | 0 <= i < |s.stored| :: s.stored[i] in s.stored;
    }
  }

  lemma DropKeepsTokens(s: State, k: nat, step: Step, t: State)
    requires k < |s.clients| && Inv(s) && DropNext(s, k, step) == Some(t)
    ensures EmptyWhileLoggingIn(t) && Accounted(t)
  {
    hide LockHeld, SignalsSound, DeletionsJustified;
  }

  lemma LoginKeepsSignals(s: State, k: nat, step: Step, t: State)
    requires k < |s.clients| && Inv(s) && LoginNext(s, k, step) == Some(t)
    ensures SignalsSound(t) && DeletionsJustified(t)
  {
    hide LockHeld, EmptyWhileLoggingIn;
  }

  lemma DropKeepsSignals(s: State, k: nat, step: Step, t: State)
    requires k < |s.clients| && Inv(s) && DropNext(s, k, step) == Some(t)
    ensures SignalsSound(t) && DeletionsJustified(t)
  {
    hide LockHeld, EmptyWhileLoggingIn, Accounted;
    DropKeepsSignalsSound(s, k, step, t);
    hide SignalsSound;
    DropKeepsDeletionsJustified(s, k, step, t);
  }

  lemma DropKeepsSignalsSound(s: State, k: nat, step: Step, t: State)
    requires k < |s.clients| && SignalsSound(s) && DropNext(s, k, step) == Some(t)
    ensures SignalsSound(t)
  {
  }

  lemma DropKeepsDeletionsJustified(s: State, k: nat, step: Step, t: State)
    requires k < |s.clients| && SignalsSound(s) && DeletionsJustified(s) && DropNext(s, k, step) == Some(t)
    ensures DeletionsJustified(t)
  {
  }

  lemma StepKeepsInv(s: State, e: Event, t: State)
    requires Inv(s) && Next(s, e) == Some(t)
    ensures Inv(t)
  {
    LockStaysHeld(s, e, t);
    if e.ByClient? && !e.step.Crash? && !e.step.Fail? {
      if LoginNext(s, e.k, e.step).Some? {
        LoginKeepsTokens(s, e.k, e.step, t);
        LoginKeepsSignals(s, e.k, e.step, t);
      } else {
        DropKeepsTokens(s, e.k, e.step, t);
        DropKeepsSignals(s, e.k, e.step, t);
      }
    } else {
      hide LockHeld;
    }
  }

  lemma {:induction false} RunKeepsInv(s: State, events: seq<Event>, t: State)
    requires Inv(s) && Run(s, events) == Some(t)
    ensures Inv(t)
    decreases |events|
  {
    hide Inv;
    if events != [] {
      var u := Next(s, events[0]).value;
      StepKeepsInv(s, events[0], u);
      RunKeepsInv(u, events[1..], t);
    }
  }

  lemma ReachableIsSound(s: State)
    requires Reachable(s)
    ensures Inv(s)
  {
    hide Inv, Initial, Run;
    var init, events :| Initial(init) && Run(init, events) == Some(s);
    InitialIsSound(init);
    RunKeepsInv(init, events, s);
  }

  lemma InitialIsSound(init: State)
    requires Initial(init)
    ensures Inv(init)
  {
    forall k | 0 <= k < |init.clients|
      ensures init.clients[k].Idle?
    {
      assert init.clients[k] in init.clients;
    }
    IdleClientsAreSound(init);
    hide LockHeld, EmptyWhileLoggingIn, SignalsSound;
    assert Tokens([]) + Cached(init) == Cached(init);
  }

  lemma IdleClientsAreSound(s: State)
    requires forall k | 0 <= k < |s.clients| :: s.clients[k].Idle?
    requires s.lock.None? && s.signals == {} && s.signalled == {}
    ensures LockHeld(s) && EmptyWhileLoggingIn(s) && SignalsSound(s)
  {
  }

  // ---------------------------------------------------------------- the claims

  /** At most one client is inside, and the lock is its own. */
  lemma OneLoginAtATime(s: State, j: nat, k: nat)
    requires Reachable(s) && j < |s.clients| && k < |s.clients|
    requires Critical(s.clients[j]) && Critical(s.clients[k])
    ensures j == k && s.lock == Some(s.clients[k].owner)
  {
    ReachableIsSound(s);
    OnlyOneInside(s, k);
  }

  lemma OthersStay(s: State, k: nat, e: Event, t: State)
    requires k < |s.clients| && Next(s, e) == Some(t) && (e.ByClient? ==> e.k != k)
    ensures |t.clients| == |s.clients| && t.clients[k] == s.clients[k]
  {
  }

  /** Nothing anyone else does, a late release included, takes the lock from the client inside. */
  lemma NobodyElseTakesTheLock(s: State, k: nat, e: Event, t: State)
    requires Reachable(s) && k < |s.clients| && Critical(s.clients[k])
    requires Next(s, e) == Some(t) && (e.ByClient? ==> e.k != k)
    ensures t.lock == Some(s.clients[k].owner)
  {
    ReachableIsSound(s);
    LockStaysHeld(s, e, t);
    OthersStay(s, k, e, t);
    hide Next, Reachable, EmptyWhileLoggingIn, Accounted, SignalsSound, DeletionsJustified;
  }

  /** A KTMB login never happens under a live cached session, which it would invalidate. */
  lemma LoginNeverKillsASession(s: State, k: nat, t: State)
    requires Reachable(s) && Next(s, ByClient(k, KtmbLogin)) == Some(t)
    ensures s.cache.None?
  {
    ReachableIsSound(s);
  }

  /** The logins stored are the deletions plus the one in the cache: never more than one ahead. */
  lemma LoginsMatchDeletions(s: State)
    requires Reachable(s)
    ensures s.stored == Tokens(s.deleted) + Cached(s)
    ensures |s.deleted| <= |s.stored| <= |s.deleted| + 1
    ensures forall i, j | 0 <= i < j < |s.stored| :: s.stored[i] != s.stored[j]
  {
    ReachableIsSound(s);
  }

  /** Every deletion was of the token its caller saw rejected, or of one signalled dead. */
  lemma OnlyDeadTokensAreDeleted(s: State, d: Deletion)
    requires Reachable(s) && d in s.deleted
    ensures d.cause == ByRejection(d.token) || (d.cause.BySignal? && d.token in s.signalled)
  {
    ReachableIsSound(s);
  }

  /** Whatever happens, what was stored stays on record, and a client that takes no step stays where it is. */
  lemma {:induction false} RunKeepsRecord(s: State, events: seq<Event>, t: State, k: nat)
    requires Run(s, events) == Some(t) && k < |s.clients|
    requires forall e | e in events && e.ByClient? :: e.k != k
    ensures s.stored <= t.stored && k < |t.clients| && t.clients[k] == s.clients[k]
    decreases |events|
  {
    if events != [] {
      var u := Next(s, events[0]).value;
      OthersStay(s, k, events[0], u);
      StoredGrows(s, events[0], u);
      hide Next;
      RunKeepsRecord(u, events[1..], t, k);
    }
  }

  lemma StoredGrows(s: State, e: Event, t: State)
    requires Next(s, e) == Some(t)
    ensures s.stored <= t.stored
  {
  }

  /** A token stored after a client read the cache is not the one it read. */
  lemma {:induction false} StoredSinceIsAnother(s: State, u: State, seen: Token)
    requires Reachable(s) && Reachable(u) && s.stored <= u.stored && |s.stored| < |u.stored|
    requires s.cache.Some? && s.cache.value.token == seen && u.cache.Some?
    ensures u.cache.value.token != seen
  {
    LoginsMatchDeletions(s);
    LoginsMatchDeletions(u);
    hide Reachable;
    assert s.stored[|s.stored| - 1] == seen;
    assert u.stored[|s.stored| - 1] == seen;
    assert u.stored[|u.stored| - 1] == u.cache.value.token;
  }

  /**
   A client reads the cache to drop what it finds; others run on, and a token is stored meanwhile. When the
   client comes to its compare-and-delete, the cache is left as it is.
   */
  lemma {:induction false} FreshTokenSurvives(s: State, k: nat, read: Step, r: State, events: seq<Event>, u: State,
                                              drop: Step, t: State)
    requires Reachable(s) && Next(s, ByClient(k, read)) == Some(r)
    requires k < |r.clients| && (r.clients[k].Invalidating? || r.clients[k].Dropping?)
    requires read.ReadRejected? || read.ReadSignalled?
    requires Run(r, events) == Some(u) && forall e | e in events && e.ByClient? :: e.k != k
    requires |u.stored| > |s.stored|
    requires Next(u, ByClient(k, drop)) == Some(t)
    ensures t.cache == u.cache
  {
    assert Run(r, [ByClient(k, read)][1..]) == Some(r);
    ReachableRuns(s, [ByClient(k, read)], r);
    ReachableRuns(r, events, u);
    RunKeepsRecord(r, events, u, k);
    ReadSeesTheCache(s, k, read, r);
    if u.cache.Some? {
      StoredSinceIsAnother(s, u, r.clients[k].seen.token);
    }
    hide Reachable, Run, Next;
    AnotherIsLeft(u, k, drop, t);
  }

  /** A client about to drop what it saw leaves any other cached value alone. */
  lemma AnotherIsLeft(u: State, k: nat, drop: Step, t: State)
    requires Next(u, ByClient(k, drop)) == Some(t)
    requires u.clients[k].Invalidating? || u.clients[k].Dropping?
    requires u.cache.Some? ==> u.cache.value.token != u.clients[k].seen.token
    ensures t.cache == u.cache
  {
  }

  /** A client that reads a value to drop has seen the one in the cache. */
  lemma ReadSeesTheCache(s: State, k: nat, read: Step, r: State)
    requires Next(s, ByClient(k, read)) == Some(r) && (read.ReadRejected? || read.ReadSignalled?)
    requires k < |r.clients| && (r.clients[k].Invalidating? || r.clients[k].Dropping?)
    ensures s.cache == Some(r.clients[k].seen) && r.stored == s.stored
  {
  }

  lemma {:induction false} ReachableRuns(s: State, events: seq<Event>, t: State)
    requires Reachable(s) && Run(s, events) == Some(t)
    ensures Reachable(t)
  {
    var init, before :| Initial(init) && Run(init, before) == Some(s);
    RunsAppend(init, before, s, events);
  }

  lemma {:induction false} RunsAppend(s: State, before: seq<Event>, m: State, events: seq<Event>)
    requires Run(s, before) == Some(m)
    ensures Run(s, before + events) == Run(m, events)
    decreases |before|
  {
    if before == [] {
      assert before + events == events;
    } else {
      assert (before + events)[0] == before[0] && (before + events)[1..] == before[1..] + events;
      RunsAppend(Next(s, before[0]).value, before[1..], m, events);
    }
  }

  /** Cleaning up stale signals never drops a signal for the token in the cache. */
  lemma CurrentSignalSurvives(s: State, k: nat, t: State)
    requires Reachable(s) && Next(s, ByClient(k, DropStaleSignals)) == Some(t)
    requires s.cache.Some? && s.cache.value.token in s.signals
    ensures s.cache.value.token in t.signals
  {
    ReachableIsSound(s);
  }
}
