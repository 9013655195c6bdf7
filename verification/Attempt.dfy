// One attempt of a queued request: the control flow of `executeWithRetry`, `handleRetry` and
// `settleOnWorkerCrash` in src/network/queue-state.ts, where every await may throw. Between the
// release of the slot and the settling of the request there is no await, so what the rest of
// the queue sees is one step.

module Attempt {
  import opened Retry
  import Q = QueueSystem
  import S = Semaphore

  /** A classified error, or anything else, perhaps an abort by our own timeout. */
  datatype Thrown = Classified(error: Error) | Plain(timedOut: bool)

  datatype Await = Fine | Throws(thrown: Thrown)

  /** The part before the `try`: measuring the body and the start hook. */
  datatype Started = Goes | AbortedByHook | StartThrows

  /** What the attempt meets, in order. `complete` stands for reading the headers and the
      completion hook; `error` and `limited` concern a non-successful answer only; `aborted` is
      the caller's signal; `onRetry` is the retry hook where the `try` reaches it, `onRetryLate`
      where the `catch` does, each with the time elapsed then. */
  datatype Script = Script(
    start: Started, fetch: Await, complete: Await, ok: bool, body: Await, error: Error, limited: Await,
    aborted: bool, onRetry: Await, elapsed: real, onRetryLate: Await, elapsedLate: real)

  // ---------------------------------------------------------- what happens

  /** The server answered, not successfully, and the hooks about that returned. */
  predicate AnsweredBadly(x: Script) {
    x.start.Goes? && x.fetch.Fine? && x.complete.Fine? && !x.ok && (x.error.kind.RateLimit? ==> x.limited.Fine?)
  }

  /** The retry hook threw inside the `try`, after the slot was released there. */
  predicate HookThrows(p: Policy, req: Request, attempt: nat, x: Script) {
    AnsweredBadly(x) && WillRetry(p, req, x.error, attempt, x.elapsed) && x.onRetry.Throws?
  }

  /** What the `try` throws, if anything. */
  function TryThrows(p: Policy, req: Request, attempt: nat, x: Script): Option<Thrown> {
    if x.fetch.Throws? then Some(x.fetch.thrown)
    else if x.complete.Throws? then Some(x.complete.thrown)
    else if x.ok then (if x.body.Throws? then Some(x.body.thrown) else None)
    else if x.error.kind.RateLimit? && x.limited.Throws? then Some(x.limited.thrown)
    else if x.start.Goes? && HookThrows(p, req, attempt, x) then Some(x.onRetry.thrown)
    else None
  }

  /** The body could not be read although the answer was a success. */
  predicate Unreadable(x: Script) { x.fetch.Fine? && x.complete.Fine? && x.ok && x.body.Throws? }

  /** The error the `catch` hands to the retry decision; none when it rejects at once. */
  function CatchError(t: Thrown, x: Script): Option<Error> {
    match t
    case Classified(e) => Some(e)
    case Plain(timedOut) =>
      if x.aborted || Unreadable(x) then None else Some(Error(if timedOut then Timeout else Network, true, None, None))
  }

  /** The retry hook threw inside the `catch`, after the slot was released there. */
  predicate LateHookThrows(p: Policy, req: Request, attempt: nat, x: Script) {
    x.start.Goes? &&
      var t := TryThrows(p, req, attempt, x);
      t.Some? && CatchError(t.value, x).Some?
      && WillRetry(p, req, CatchError(t.value, x).value, attempt, x.elapsedLate) && x.onRetryLate.Throws?
  }

  /** How the attempt ends, as the step system names it. */
  function EndOf(p: Policy, req: Request, attempt: nat, x: Script): Q.End {
    match x.start
    case StartThrows => Q.Crashed
    case AbortedByHook => Q.AbortedByHook
    case Goes =>
      var t := TryThrows(p, req, attempt, x);
      if t.None? then
        if x.ok then Q.Resolved
        else if WillRetry(p, req, x.error, attempt, x.elapsed) then Q.Retry else Q.Failed
      else if CatchError(t.value, x).None? then (if x.aborted then Q.CallerAborted else Q.BodyUnreadable)
      else if LateHookThrows(p, req, attempt, x) then Q.Crashed
      else if WillRetry(p, req, CatchError(t.value, x).value, attempt, x.elapsedLate) then Q.Retry
      else Q.Failed
  }

  /** What the `try` waits for and calls, in order, as far as nothing throws. */
  function Awaited(p: Policy, req: Request, attempt: nat, x: Script): seq<Await> {
    [x.fetch, x.complete]
    + (if x.ok then [x.body]
       else (if x.error.kind.RateLimit? then [x.limited] else [])
            + (if WillRetry(p, req, x.error, attempt, x.elapsed) then [x.onRetry] else []))
  }

  ghost predicate FirstThrow(awaits: seq<Await>, t: Thrown) {
    exists k :: 0 <= k < |awaits| && awaits[k] == Throws(t) && forall j :: 0 <= j < k ==> awaits[j].Fine?
  }

  /** The error a thrown value is retried as: itself when classified; otherwise a timeout or a
      network failure, but nothing once the caller has aborted or the answer was a success. */
  ghost predicate RetriedAs(t: Thrown, x: Script, e: Error) {
    if t.Classified? then e == t.error
    else !x.aborted && !(x.ok && x.fetch.Fine? && x.complete.Fine?)
         && e == Error(if t.timedOut then Timeout else Network, true, None, None)
  }

  lemma EscapesFirst(p: Policy, req: Request, attempt: nat, x: Script, t: Thrown)
    requires x.start.Goes?
    ensures TryThrows(p, req, attempt, x) == Some(t) <==> FirstThrow(Awaited(p, req, attempt, x), t)
  {
    hide WillRetry;
    var awaits := Awaited(p, req, attempt, x);
    assert awaits[0] == x.fetch && awaits[1] == x.complete;
    if x.ok {
      assert |awaits| == 3 && awaits[2] == x.body;
    } else if x.error.kind.RateLimit? {
      assert awaits[2] == x.limited;
      if WillRetry(p, req, x.error, attempt, x.elapsed) { assert |awaits| == 4 && awaits[3] == x.onRetry; }
    } else if WillRetry(p, req, x.error, attempt, x.elapsed) {
      assert |awaits| == 3 && awaits[2] == x.onRetry;
    }
  }

  /** The request is resolved exactly when a successful answer arrives and is read; it is put on a
      timer exactly when the retry decision goes for a non-successful answer, or for what the
      first thing to throw is retried as, and the retry hook called then returns. */
  lemma EndsIff(p: Policy, req: Request, attempt: nat, x: Script)
    ensures EndOf(p, req, attempt, x).Resolved? <==>
              x.start.Goes? && x.fetch.Fine? && x.complete.Fine? && x.ok && x.body.Fine?
    ensures EndOf(p, req, attempt, x).Retry? <==>
              && x.start.Goes?
              && (|| (&& x.fetch.Fine? && x.complete.Fine? && !x.ok && (x.error.kind.RateLimit? ==> x.limited.Fine?)
                      && WillRetry(p, req, x.error, attempt, x.elapsed) && x.onRetry.Fine?)
                  || (&& x.onRetryLate.Fine?
                      && exists t, e :: FirstThrow(Awaited(p, req, attempt, x), t) && RetriedAs(t, x, e)
                                        && WillRetry(p, req, e, attempt, x.elapsedLate)))
  {
    hide WillRetry, Awaited, FirstThrow;
    if x.start.Goes? {
      forall t ensures TryThrows(p, req, attempt, x) == Some(t) <==> FirstThrow(Awaited(p, req, attempt, x), t) {
        EscapesFirst(p, req, attempt, x, t);
      }
      var t := TryThrows(p, req, attempt, x);
      if t.Some? {
        forall e ensures CatchError(t.value, x) == Some(e) <==> RetriedAs(t.value, x, e) {}
      }
    }
  }

  // ----------------------------------------------------------------- class

  /** What the attempt does to the slot and to the entry's promise. */
  class Worker {
    var releases: nat
    var resolves: nat
    var rejects: nat
    var timers: nat

    constructor ()
      ensures releases == resolves == rejects == timers == 0
    {
      releases, resolves, rejects, timers := 0, 0, 0, 0;
    }

    method HandleRetry(p: Policy, req: Request, e: Error, attempt: nat, elapsed: real, onRetry: Await)
      returns (thrown: Option<Thrown>)
      modifies this`timers, this`rejects
      ensures var will := WillRetry(p, req, e, attempt, elapsed);
              && thrown == (if will && onRetry.Throws? then Some(onRetry.thrown) else None)
              && timers == old(timers) + (if will && onRetry.Fine? then 1 else 0)
              && rejects == old(rejects) + (if will then 0 else 1)
    {
      thrown := None;
      if WillRetry(p, req, e, attempt, elapsed) {
        if onRetry.Throws? { return Some(onRetry.thrown); }
        timers := timers + 1;
      } else {
        rejects := rejects + 1;
      }
    }

    /** The `try` block: what escapes it, and whether the answer was known to be a success. */
    method Try(p: Policy, req: Request, attempt: nat, x: Script) returns (thrown: Option<Thrown>, succeeded: bool)
      requires x.start.Goes?
      modifies this
      ensures thrown == TryThrows(p, req, attempt, x)
      ensures thrown.Some? ==> succeeded == Unreadable(x)
      ensures var end, here := EndOf(p, req, attempt, x), thrown.None?;
              && releases == old(releases) + (if here || HookThrows(p, req, attempt, x) then 1 else 0)
              && resolves == old(resolves) + (if here && end.Resolved? then 1 else 0)
              && timers == old(timers) + (if here && end.Retry? then 1 else 0)
              && rejects == old(rejects) + (if here && end.Failed? then 1 else 0)
    {
      succeeded := false;
      if x.fetch.Throws? { return Some(x.fetch.thrown), succeeded; }
      if x.complete.Throws? { return Some(x.complete.thrown), succeeded; }
      if x.ok {
        succeeded := true;
        if x.body.Throws? { return Some(x.body.thrown), succeeded; }
        releases := releases + 1;
        resolves := resolves + 1;
        return None, succeeded;
      }
      if x.error.kind.RateLimit? {
        if x.limited.Throws? { return Some(x.limited.thrown), succeeded; }
      }
      releases := releases + 1;
      thrown := HandleRetry(p, req, x.error, attempt, x.elapsed, x.onRetry);
    }

    method ExecuteWithRetry(p: Policy, req: Request, attempt: nat, x: Script) returns (crashed: bool)
      modifies this
      ensures crashed == (x.start.StartThrows? || LateHookThrows(p, req, attempt, x))
      ensures var end := EndOf(p, req, attempt, x);
              && releases == old(releases) + (if x.start.StartThrows? then 0 else 1)
                             + (if HookThrows(p, req, attempt, x) then 1 else 0)
              && resolves == old(resolves) + (if end.Resolved? then 1 else 0)
              && timers == old(timers) + (if end.Retry? then 1 else 0)
              && rejects == old(rejects) + (if end.Resolved? || end.Retry? || crashed then 0 else 1)
    {
      hide WillRetry;
      if x.start.StartThrows? { return true; }
      if x.start.AbortedByHook? {
        releases := releases + 1;
        rejects := rejects + 1;
        return false;
      }
      var thrown, succeeded := Try(p, req, attempt, x);
      if thrown.None? { return false; }
      releases := releases + 1;
      var late: Option<Thrown>;
      match thrown.value {
        case Classified(e) =>
          late := HandleRetry(p, req, e, attempt, x.elapsedLate, x.onRetryLate);
        case Plain(timedOut) =>
          if x.aborted {
            rejects := rejects + 1;
            return false;
          }
          if succeeded {
            rejects := rejects + 1;
            return false;
          }
          var e := Error(if timedOut then Timeout else Network, true, None, None);
          late := HandleRetry(p, req, e, attempt, x.elapsedLate, x.onRetryLate);
      }
      return late.Some?;
    }

    method SettleOnWorkerCrash()
      modifies this`releases, this`rejects
      ensures releases == old(releases) + 1 && rejects == old(rejects) + 1
    {
      releases := releases + 1;
      rejects := rejects + 1;
    }

    /** The whole attempt: the entry is resolved, when a success is read and only then, or rejected
        or put on a timer, exactly one of the three and once, however its awaits and subscribers
        throw; and the slot is released once, and once more for each time the retry hook throws. */
    method Run(p: Policy, req: Request, attempt: nat, x: Script)
      modifies this
      ensures var end := EndOf(p, req, attempt, x);
              && timers == old(timers) + (if end.Retry? then 1 else 0)
              && rejects == old(rejects) + (if end.Resolved? || end.Retry? then 0 else 1)
      ensures var read := x.start.Goes? && x.fetch.Fine? && x.complete.Fine? && x.ok && x.body.Fine?;
              resolves == old(resolves) + (if read then 1 else 0)
      ensures releases == old(releases) + Releases(p, req, attempt, x)
    {
      hide WillRetry, Awaited;
      EndsIff(p, req, attempt, x);
      var crashed := ExecuteWithRetry(p, req, attempt, x);
      if crashed { SettleOnWorkerCrash(); }
    }
  }

  function Releases(p: Policy, req: Request, attempt: nat, x: Script): nat {
    1 + (if HookThrows(p, req, attempt, x) then 1 else 0) + (if LateHookThrows(p, req, attempt, x) then 1 else 0)
  }

  /** The slot is released exactly once unless a retry hook that is reached throws; so always
      when subscribers do not throw, and up to three times when they do. */
  lemma ReleasedOnceIff(p: Policy, req: Request, attempt: nat, x: Script)
    ensures Releases(p, req, attempt, x) == 1 <==> !HookThrows(p, req, attempt, x) && !LateHookThrows(p, req, attempt, x)
    ensures x.onRetry.Fine? && x.onRetryLate.Fine? ==> Releases(p, req, attempt, x) == 1
    ensures HookThrows(p, req, attempt, x) <==>
              && x.start.Goes? && x.fetch.Fine? && x.complete.Fine? && !x.ok && (x.error.kind.RateLimit? ==> x.limited.Fine?)
              && WillRetry(p, req, x.error, attempt, x.elapsed) && x.onRetry.Throws?
    ensures LateHookThrows(p, req, attempt, x) <==>
              && x.start.Goes? && x.onRetryLate.Throws?
              && exists t, e :: FirstThrow(Awaited(p, req, attempt, x), t) && RetriedAs(t, x, e)
                                && WillRetry(p, req, e, attempt, x.elapsedLate)
  {
    hide WillRetry, Awaited, FirstThrow;
    if x.start.Goes? {
      forall t ensures TryThrows(p, req, attempt, x) == Some(t) <==> FirstThrow(Awaited(p, req, attempt, x), t) {
        EscapesFirst(p, req, attempt, x, t);
      }
      var t := TryThrows(p, req, attempt, x);
      if t.Some? {
        forall e ensures CatchError(t.value, x) == Some(e) <==> RetriedAs(t.value, x, e) {}
      }
    }
  }

  /** Three releases of one slot do happen: a 503 under the default policy and a retry hook that
      throws each time. */
  lemma ReleasedThreeTimes(x: Script, hook: Thrown)
    requires x.start.Goes? && x.fetch.Fine? && x.complete.Fine? && !x.ok && !x.aborted
    requires x.error == Error(ServerError, true, None, None) && x.elapsed == 0.0 == x.elapsedLate
    requires hook.Plain? && x.onRetry == Throws(hook) && x.onRetryLate == Throws(hook)
    ensures Releases(DEFAULT_RETRY, Request(None, false, false), 0, x) == 3
  {
    var p, req := DEFAULT_RETRY, Request(None, false, false);
    var late := Error(if hook.timedOut then Timeout else Network, true, None, None);
    DefaultRetriesAtFirst(x.error);
    DefaultRetriesAtFirst(late);
    hide WillRetry;
    assert HookThrows(p, req, 0, x);
    assert TryThrows(p, req, 0, x) == Some(hook) && CatchError(hook, x) == Some(late);
  }

  lemma DefaultRetriesAtFirst(e: Error)
    requires e.kind.ServerError? || e.kind.Timeout? || e.kind.Network?
    requires e.retryable && e.retryAfter == None && e.shouldRetry == None
    ensures WillRetry(DEFAULT_RETRY, Request(None, false, false), e, 0, 0.0)
  {
    DefaultRules(e.kind);
    DefaultMax(Request(None, false, false), e.kind);
  }

  /** Without throwing retry hooks the attempt is a step of the queue: a retry is within the
      budget because the decision made sure of it, one slot goes to the next waiter, and the
      request is on a timer or settled. */
  lemma AttemptIsStep(c: Q.Config, s: Q.State, id: nat, p: Policy, req: Request, x: Script)
    requires Q.Inv(c, s) && id in s.flight && id < |s.tries|
    requires MostRetries(p, req) <= c.retries
    requires Releases(p, req, s.tries[id], x) == 1
    ensures var e := Q.EndAttempt(id, EndOf(p, req, s.tries[id], x));
            && Q.Enabled(c, s, e)
            && Q.After(c, s, e).sem == S.Released(s.sem)
            && Q.After(c, s, e).timers == (if e.end.Retry? then Q.Add(s.timers, id) else s.timers)
            && Q.After(c, s, e).settled == (if e.end.Retry? then s.settled else Q.Add(s.settled, id))
  {
    RetryIsInBudget(p, req, s.tries[id], x);
    hide EndOf, Releases, MostRetries, Q.Inv;
    var u := s.(flight := Q.Less(s.flight, id));
    Q.FreedKeeps(u);
    assert Q.Freed(u).sem == S.Released(s.sem);
  }

  lemma RetryIsInBudget(p: Policy, req: Request, attempt: nat, x: Script)
    ensures EndOf(p, req, attempt, x).Retry? ==> attempt < MostRetries(p, req)
  {
    hide TryThrows, CatchError, MaxRetries, IsRetryable, TooLong, ReplaySafe, RetryFor;
    EveryKind(x.error.kind);
    var t := TryThrows(p, req, attempt, x);
    if t.Some? && CatchError(t.value, x).Some? { EveryKind(CatchError(t.value, x).value.kind); }
  }
}
