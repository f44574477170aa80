/** What the three session calls achieve when nobody gets in between, and what their decisive steps do in any case. */
module SessionOutcomes {
  import opened Wrappers
  import opened Session

  /** The call runs from start to end: it ends idle, is idle nowhere between, and neither fails nor crashes. */
  ghost predicate WholeCall(s: State, k: nat, steps: seq<Step>, t: State)
    requires k < |s.clients|
    decreases |steps|
  {
    && steps != [] && !steps[0].Fail? && !steps[0].Crash?
    && var u := ClientNext(s, k, steps[0]);
       && u.Some?
       && |u.value.clients| == |s.clients|
       && if u.value.clients[k].Idle? then steps == steps[..1] && t == u.value
          else WholeCall(u.value, k, steps[1..], t)
  }

  lemma OneMore(s: State, k: nat, step: Step, steps: seq<Step>, t: State)
    requires k < |s.clients| && !step.Fail? && !step.Crash?
    requires ClientNext(s, k, step).Some? && !ClientNext(s, k, step).value.clients[k].Idle?
    requires WholeCall(ClientNext(s, k, step).value, k, steps, t)
    ensures WholeCall(s, k, [step] + steps, t)
  {
    assert ([step] + steps)[1..] == steps;
  }

  // ---------------------------------------------------------------- login

  /** Nothing but the login itself changes. */
  ghost predicate OnlyLogin(s: State, t: State) {
    t.deleted == s.deleted && t.signals == s.signals && t.signalled == s.signalled
  }

  /** The session is cached afresh, and the lock free again. */
  ghost predicate LoggedIn(s: State, token: Token, t: State) {
    && t.cache.Some? && t.cache.value.token == token && t.stored == s.stored + [token]
    && t.lock.None? && OnlyLogin(s, t)
  }

  /** The rest of a login from where the client stands. */
  lemma {:induction false} LoginEnds(s: State, k: nat, steps: seq<Step>, t: State)
    requires k < |s.clients| && WholeCall(s, k, steps, t)
    ensures var c := s.clients[k];
            && (c.Releasing? ==>
                  && t.cache == s.cache && t.stored == s.stored && OnlyLogin(s, t)
                  && t.lock == if s.lock == Some(c.owner) then None else s.lock)
            && (c.Storing? && s.lock == Some(c.owner) ==> LoggedIn(s, c.token, t))
            && (c.LoggingIn? && s.lock == Some(c.owner) ==> LoggedIn(s, s.nextToken, t))
            && (c.Holding? && s.lock == Some(c.owner) && s.cache.None? ==> LoggedIn(s, s.nextToken, t))
            && ((c.Acquiring? || c.Waiting?) && s.cache.None? ==> s.lock.None? && LoggedIn(s, s.nextToken, t))
    decreases |steps|
  {
    var u := ClientNext(s, k, steps[0]).value;
    if !u.clients[k].Idle? {
      LoginEnds(u, k, steps[1..], t);
    }
  }

  /**
   A login nobody disturbs: a cached session is used as it is. Otherwise it ends only with the lock free at its
   start, and then with a fresh token cached and the lock free again.
   */
  lemma {:induction false} LoginAlone(s: State, k: nat, steps: seq<Step>, t: State)
    requires k < |s.clients| && s.clients[k].Idle? && WholeCall(s, k, steps, t) && steps[0] == BeginLogin
    ensures s.cache.Some? ==> t.cache == s.cache && t.stored == s.stored && t.lock == s.lock && OnlyLogin(s, t)
    ensures s.cache.None? ==> s.lock.None? && LoggedIn(s, s.nextToken, t)
  {
    var u := ClientNext(s, k, BeginLogin).value;
    var v := ClientNext(u, k, steps[1]).value;
    if s.cache.None? {
      LoginEnds(v, k, steps[1..][1..], t);
    }
  }

  /** There is such a login. */
  lemma {:induction false} LoginCanEnd(s: State, k: nat) returns (steps: seq<Step>, t: State)
    requires k < |s.clients| && s.clients[k].Idle? && s.cache.None? && s.lock.None?
    ensures WholeCall(s, k, steps, t) && steps[0] == BeginLogin
  {
    var a := ClientNext(s, k, BeginLogin).value;
    var b := ClientNext(a, k, CheckCache).value;
    var c := ClientNext(b, k, SetLock).value;
    steps, t := HolderCanEnd(c, k);
    OneMore(b, k, SetLock, steps, t);
    OneMore(a, k, CheckCache, [SetLock] + steps, t);
    steps := [CheckCache] + ([SetLock] + steps);
    OneMore(s, k, BeginLogin, steps, t);
    steps := [BeginLogin] + steps;
  }

  lemma {:induction false} HolderCanEnd(s: State, k: nat) returns (steps: seq<Step>, t: State)
    requires k < |s.clients| && s.clients[k].Holding? && s.cache.None?
    ensures WholeCall(s, k, steps, t)
  {
    var d := ClientNext(s, k, CheckHolding).value;
    var e := ClientNext(d, k, KtmbLogin).value;
    var f := ClientNext(e, k, Store(0)).value;
    t := ClientNext(f, k, ReleaseLock).value;
    steps := [ReleaseLock];
    assert WholeCall(f, k, steps, t);
    OneMore(e, k, Store(0), steps, t);
    steps := [Store(0)] + steps;
    OneMore(d, k, KtmbLogin, steps, t);
    steps := [KtmbLogin] + steps;
    OneMore(s, k, CheckHolding, steps, t);
    steps := [CheckHolding] + steps;
  }

  // ---------------------------------------------------------------- dropping a session

  /** The cached session is gone, for this cause; or nothing changed. */
  ghost predicate Dropped(s: State, cause: Cause, t: State)
    requires s.cache.Some?
  {
    t.cache.None? && t.deleted == s.deleted + [Deletion(s.cache.value.token, cause)] && t.lock == s.lock
  }

  ghost predicate Kept(s: State, t: State) {
    t.cache == s.cache && t.deleted == s.deleted && t.lock == s.lock
  }

  /** The last step of a call that read the cache. */
  lemma DropEnds(s: State, k: nat, steps: seq<Step>, t: State)
    requires k < |s.clients| && WholeCall(s, k, steps, t)
    ensures s.clients[k].Invalidating? && s.cache == Some(s.clients[k].seen) ==>
              Dropped(s, ByRejection(s.clients[k].token), t)
    ensures s.clients[k].Dropping? && s.cache == Some(s.clients[k].seen) ==>
              Dropped(s, BySignal(s.clients[k].dead), t) && t.signals == {}
    ensures s.clients[k].Cleaning? ==> Kept(s, t) && t.signals == s.signals - s.clients[k].dead
  {
  }

  /** An invalidation nobody disturbs: the rejected token is uncached, and no other is. */
  lemma {:induction false} InvalidateAlone(s: State, k: nat, token: Token, steps: seq<Step>, t: State)
    requires k < |s.clients| && s.clients[k].Idle? && WholeCall(s, k, steps, t) && steps[0] == BeginInvalidate(token)
    ensures if s.cache.Some? && s.cache.value.token == token then Dropped(s, ByRejection(token), t) else Kept(s, t)
  {
    var u := ClientNext(s, k, BeginInvalidate(token)).value;
    var v := ClientNext(u, k, steps[1]).value;
    if !v.clients[k].Idle? {
      DropEnds(v, k, steps[1..][1..], t);
    }
  }

  lemma {:induction false} InvalidateCanEnd(s: State, k: nat, token: Token) returns (steps: seq<Step>, t: State)
    requires k < |s.clients| && s.clients[k].Idle?
    ensures WholeCall(s, k, steps, t) && steps[0] == BeginInvalidate(token)
  {
    var u := ClientNext(s, k, BeginInvalidate(token)).value;
    var v := ClientNext(u, k, ReadRejected).value;
    if v.clients[k].Idle? {
      steps, t := [ReadRejected], v;
    } else {
      t := ClientNext(v, k, DeleteRejected).value;
      assert WholeCall(v, k, [DeleteRejected], t);
      OneMore(u, k, ReadRejected, [DeleteRejected], t);
      steps := [ReadRejected] + [DeleteRejected];
    }
    assert WholeCall(u, k, steps, t);
    OneMore(s, k, BeginInvalidate(token), steps, t);
    steps := [BeginInvalidate(token)] + steps;
  }

  /**
   A recovery nobody disturbs: a cached token that was signalled dead is uncached and the signals with it; one
   that was not stays, and the stale signals go.
   */
  lemma {:induction false} RecoverAlone(s: State, k: nat, steps: seq<Step>, t: State)
    requires k < |s.clients| && s.clients[k].Idle? && WholeCall(s, k, steps, t) && steps[0] == ReadSignals
    ensures s.cache.Some? && s.cache.value.token in s.signals ==>
              Dropped(s, BySignal(s.signals), t) && t.signals == {}
    ensures !(s.cache.Some? && s.cache.value.token in s.signals) ==>
              Kept(s, t) && t.signals == if s.cache.Some? then {} else s.signals
  {
    var u := ClientNext(s, k, ReadSignals).value;
    if !u.clients[k].Idle? {
      var v := ClientNext(u, k, steps[1]).value;
      if !v.clients[k].Idle? {
        DropEnds(v, k, steps[1..][1..], t);
      }
    }
  }

  lemma {:induction false} RecoverCanEnd(s: State, k: nat) returns (steps: seq<Step>, t: State)
    requires k < |s.clients| && s.clients[k].Idle?
    ensures WholeCall(s, k, steps, t) && steps[0] == ReadSignals
  {
    var u := ClientNext(s, k, ReadSignals).value;
    if u.clients[k].Idle? {
      steps, t := [ReadSignals], u;
      return;
    }
    var v := ClientNext(u, k, ReadSignalled).value;
    if v.clients[k].Idle? {
      steps, t := [ReadSignalled], v;
    } else {
      var last := if v.clients[k].Dropping? then DeleteSignalled else DropStaleSignals;
      t := ClientNext(v, k, last).value;
      assert WholeCall(v, k, [last], t);
      OneMore(u, k, ReadSignalled, [last], t);
      steps := [ReadSignalled] + [last];
    }
    assert WholeCall(u, k, steps, t);
    OneMore(s, k, ReadSignals, steps, t);
    steps := [ReadSignals] + steps;
  }

  // ---------------------------------------------------------------- in any company

  /** The compare-and-delete drops the cached value if it is still the one the client read, and only then. */
  lemma {:induction false} DropsWhatItSaw(s: State, k: nat, step: Step, t: State)
    requires Next(s, ByClient(k, step)) == Some(t) && (step.DeleteRejected? || step.DeleteSignalled?)
    ensures s.clients[k].Invalidating? || s.clients[k].Dropping?
    ensures s.cache == Some(s.clients[k].seen) ==> t.cache.None? && |t.deleted| == |s.deleted| + 1
    ensures s.cache == Some(s.clients[k].seen) ==> t.deleted[|s.deleted|].token == s.clients[k].seen.token
    ensures s.cache != Some(s.clients[k].seen) ==> t.cache == s.cache && t.deleted == s.deleted
    ensures step.DeleteSignalled? && s.cache == Some(s.clients[k].seen) ==> t.signals == {}
  {
  }

  /** Releasing frees the client's own lock and nobody else's, and an abandoned lock expires. */
  lemma {:induction false} ReleaseFrees(s: State, e: Event, t: State)
    requires Next(s, e) == Some(t)
    ensures e.ByClient? && e.step.ReleaseLock? ==>
              && s.clients[e.k].Releasing?
              && t.lock == if s.lock == Some(s.clients[e.k].owner) then None else s.lock
    ensures e.LockExpires? ==> t.lock.None?
    ensures e.SignalsExpire? ==> t.signals == {}
    ensures e.ByClient? && e.step.SignalDead? ==> t.signals == s.signals + {e.step.token}
  {
  }

  /** A client that fails while it holds the lock goes on to release it, and one that crashes leaves it to expire. */
  lemma {:induction false} FailuresRelease(s: State, k: nat, t: State)
    requires k < |s.clients| && Critical(s.clients[k])
    ensures Next(s, ByClient(k, Fail)) == Some(t) ==> t.clients[k] == Releasing(s.clients[k].owner) && t.lock == s.lock
    ensures Next(s, ByClient(k, Crash)) == Some(t) ==> t.clients[k].Idle? && t.lock == s.lock
  {
  }
}
