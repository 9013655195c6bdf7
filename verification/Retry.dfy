// Whether a failed request is sent again: the error taxonomy of
// src/network/errors.ts, the policy of src/network/queue-state-config.ts and the
// two decisions, buffered and streamed, of src/network/queue-state.ts.

module Retry {

  datatype Option<+T> = None | Some(value: T)

  function Or<T>(a: Option<T>, b: T): T { if a.Some? then a.value else b }

  datatype Kind =
    | RateLimit | Auth | ContextOverflow | InvalidRequest | ServerError | Timeout
    | Network | ContentFilter | ModelNotFound | QuotaExceeded | Unsupported

  /** A number as a header yields it. */
  datatype Num = NaN | NegInf | PosInf | Fin(r: real)

  datatype Error = Error(kind: Kind, retryable: bool, retryAfter: Option<Num>, shouldRetry: Option<bool>)

  // -------------------------------------------------------- classification

  /** Which of the message patterns for a 400 is the first to match. */
  datatype Message = Overflow | NoModel | NotSupported | Other

  /** A `Retry-After` value: delay-seconds, an HTTP-date so far ahead, or neither. */
  datatype RetryAfter = Absent | Seconds(s: Num) | DateIn(ms: Num) | Garbled

  datatype Answer = Answer(status: int, message: Message, afterMs: Option<Num>, after: RetryAfter, shouldRetry: Option<bool>)

  function UsableDelay(ms: Num): Option<Num> {
    match ms
    case NaN => None
    case NegInf => None
    case PosInf => Some(PosInf)
    case Fin(r) => if r < 0.0 then None else Some(ms)
  }

  function Times1000(n: Num): Num { if n.Fin? then Fin(n.r * 1000.0) else n }

  function ParseRetryAfter(a: Answer): Option<Num> {
    var ms := if a.afterMs.Some? then UsableDelay(a.afterMs.value) else None;
    if ms.Some? then ms else
      match a.after
      case Absent => None
      case Garbled => None
      case Seconds(s) => if s.NaN? then None else UsableDelay(Times1000(s))
      case DateIn(d) => UsableDelay(d)
  }

  function ClassifyByStatus(a: Answer): Error {
    if a.status == 401 || a.status == 403 then Error(Auth, false, None, None)
    else if a.status == 429 then Error(RateLimit, true, ParseRetryAfter(a), None)
    else if a.status == 400 then
      Error(match a.message case Overflow => ContextOverflow case NoModel => ModelNotFound
            case NotSupported => Unsupported case Other => InvalidRequest, false, None, None)
    else if a.status == 402 || a.status == 413 then Error(QuotaExceeded, false, None, None)
    else if a.status >= 500 then Error(ServerError, true, None, None)
    else if a.status >= 400 then Error(InvalidRequest, false, None, None)
    else Error(ServerError, false, None, None)
  }

  function Classify(a: Answer): Error {
    ClassifyByStatus(a).(shouldRetry := a.shouldRetry)
  }

  /** Each status has its kind, whatever else the answer holds; nothing but a 429 or a 5xx is
      flagged as retryable, only a 429 carries a wait, and the server's own word is kept. */
  lemma KindsByStatus(a: Answer)
    ensures var e := Classify(a);
            && (e.kind.Auth? <==> a.status in {401, 403})
            && (e.kind.RateLimit? <==> a.status == 429)
            && (e.kind.QuotaExceeded? <==> a.status in {402, 413})
            && (e.kind.ContextOverflow? <==> a.status == 400 && a.message.Overflow?)
            && (e.kind.ModelNotFound? <==> a.status == 400 && a.message.NoModel?)
            && (e.kind.Unsupported? <==> a.status == 400 && a.message.NotSupported?)
            && (e.kind.InvalidRequest? <==>
                  (a.status == 400 && a.message.Other?) || (400 < a.status < 500 && a.status !in {401, 402, 403, 413, 429}))
            && (e.kind.ServerError? <==> a.status < 400 || a.status >= 500)
            && (e.retryable <==> a.status == 429 || a.status >= 500)
            && e.retryAfter == (if a.status == 429 then ParseRetryAfter(a) else None) && e.shouldRetry == a.shouldRetry
  {
    hide ParseRetryAfter;
  }

  // ---------------------------------------------------------------- policy

  datatype Backoff = Backoff(initialMs: real, maxMs: real, multiplier: real, jitter: real)
  datatype Rule = Rule(retryable: Option<bool>, maxRetries: Option<int>, fixedBackoffMs: Option<real>)
  datatype Policy = Policy(maxRetries: int, totalTimeoutMs: real, backoff: Backoff, maxRetryAfterMs: real, perKind: map<Kind, Rule>)

  const RETRYABLE := (n: int) => Rule(Some(true), Some(n), None)
  const FINAL := Rule(Some(false), None, None)

  const DEFAULT_RETRY := Policy(2, 120000.0, Backoff(500.0, 8000.0, 2.0, 0.25), 120000.0, map[
    RateLimit := RETRYABLE(5), ServerError := RETRYABLE(2), Timeout := RETRYABLE(2), Network := RETRYABLE(2),
    ContextOverflow := FINAL, Auth := FINAL, InvalidRequest := FINAL, ModelNotFound := FINAL,
    QuotaExceeded := FINAL, ContentFilter := FINAL, Unsupported := FINAL])

  /** What one request may override; the per-kind rules are not among it. */
  datatype Override = Override(maxRetries: Option<int>, totalTimeoutMs: Option<real>, maxRetryAfterMs: Option<real>,
                               backoff: Option<BackoffOverride>, approveUnsafeReplay: bool)
  datatype BackoffOverride = BackoffOverride(initialMs: Option<real>, maxMs: Option<real>,
                                             multiplier: Option<real>, jitter: Option<real>)

  datatype Request = Request(retry: Option<Override>, streamBody: bool, stateful: bool)

  /** The effective policy of one request. */
  function RetryFor(p: Policy, req: Request): Policy {
    if req.retry == None then p else
      var o := req.retry.value;
      p.(maxRetries := Or(o.maxRetries, p.maxRetries), totalTimeoutMs := Or(o.totalTimeoutMs, p.totalTimeoutMs),
         maxRetryAfterMs := Or(o.maxRetryAfterMs, p.maxRetryAfterMs),
         backoff := if o.backoff.Some? then Merged(p.backoff, o.backoff.value) else p.backoff)
  }

  function Merged(b: Backoff, o: BackoffOverride): Backoff {
    Backoff(Or(o.initialMs, b.initialMs), Or(o.maxMs, b.maxMs), Or(o.multiplier, b.multiplier), Or(o.jitter, b.jitter))
  }

  function RuleFor(p: Policy, kind: Kind): Rule {
    if kind in p.perKind then p.perKind[kind] else Rule(None, None, None)
  }

  /** The re-sends allowed for a kind: the request's word, then the kind's, then the queue's. */
  function MaxRetries(p: Policy, req: Request, kind: Kind): int {
    Or(if req.retry.Some? then req.retry.value.maxRetries else None, Or(RuleFor(p, kind).maxRetries, RetryFor(p, req).maxRetries))
  }

  /** A server that says "do not" is obeyed; otherwise the kind's rule beats the error's own flag. */
  predicate IsRetryable(p: Policy, e: Error) {
    if e.shouldRetry == Some(false) then false else Or(RuleFor(p, e.kind).retryable, e.retryable)
  }

  predicate TooLong(p: Policy, e: Error) {
    e.retryAfter.Some? && (e.retryAfter.value.PosInf? || (e.retryAfter.value.Fin? && e.retryAfter.value.r > p.maxRetryAfterMs))
  }

  predicate ReplaySafe(req: Request) {
    !req.stateful || (req.retry.Some? && req.retry.value.approveUnsafeReplay)
  }

  /** The buffered decision. */
  predicate WillRetry(p: Policy, req: Request, e: Error, attempt: nat, elapsed: real) {
    var retry := RetryFor(p, req);
    && IsRetryable(retry, e) && attempt < MaxRetries(p, req, e.kind) && elapsed < retry.totalTimeoutMs
    && !req.streamBody && ReplaySafe(req) && !TooLong(retry, e)
  }

  /** The decision while a stream connects. */
  predicate WillReconnect(p: Policy, req: Request, e: Error, attempt: nat, elapsed: real) {
    var retry := RetryFor(p, req);
    !(!IsRetryable(retry, e) || attempt >= MaxRetries(p, req, e.kind) || TooLong(retry, e)
      || !(elapsed < retry.totalTimeoutMs) || req.streamBody)
  }

  /** What a request sets is what it gets, one figure at a time; what it leaves open is the
      queue's, and the rules per kind always are. */
  lemma RequestWins(p: Policy, req: Request, o: Override)
    requires req.retry == Some(o)
    ensures var r := RetryFor(p, req);
            && (o.maxRetries.Some? ==> Some(r.maxRetries) == o.maxRetries)
            && (o.totalTimeoutMs.Some? ==> Some(r.totalTimeoutMs) == o.totalTimeoutMs)
            && (o.maxRetryAfterMs.Some? ==> Some(r.maxRetryAfterMs) == o.maxRetryAfterMs)
            && (o.backoff.Some? ==>
                  && (o.backoff.value.initialMs.Some? ==> Some(r.backoff.initialMs) == o.backoff.value.initialMs)
                  && (o.backoff.value.maxMs.Some? ==> Some(r.backoff.maxMs) == o.backoff.value.maxMs)
                  && (o.backoff.value.multiplier.Some? ==> Some(r.backoff.multiplier) == o.backoff.value.multiplier)
                  && (o.backoff.value.jitter.Some? ==> Some(r.backoff.jitter) == o.backoff.value.jitter))
    ensures o == Override(None, None, None, Some(BackoffOverride(None, None, None, None)), o.approveUnsafeReplay) ==>
              RetryFor(p, req) == p
    ensures RetryFor(RetryFor(p, req), req) == RetryFor(p, req) && RetryFor(p, req).perKind == p.perKind
    ensures RetryFor(p, req.(retry := None)) == p
  {
  }

  /** Of the numbers of re-sends the most specific that is given counts: the request's, then the
      kind's, then the queue's. */
  lemma MostSpecificCounts(p: Policy, req: Request, kind: Kind, n: int)
    ensures MaxRetries(p, req, kind) == n <==>
              || (req.retry.Some? && req.retry.value.maxRetries == Some(n))
              || ((req.retry.None? || req.retry.value.maxRetries.None?)
                  && (|| (kind in p.perKind && p.perKind[kind].maxRetries == Some(n))
                      || ((kind !in p.perKind || p.perKind[kind].maxRetries.None?) && p.maxRetries == n)))
  {
  }

  /** The server's wait decides one thing about a retry, and only by its length: one longer than
      the cap rules it out, one up to the cap, the cap included, does not. */
  lemma LongWaitIsFinal(p: Policy, req: Request, e: Error, attempt: nat, elapsed: real, wait: Num)
    requires wait == PosInf || wait.Fin?
    ensures WillRetry(p, req, e.(retryAfter := Some(wait)), attempt, elapsed) <==>
              && WillRetry(p, req, e.(retryAfter := None), attempt, elapsed)
              && wait.Fin? && wait.r <= RetryFor(p, req).maxRetryAfterMs
  {
    hide RetryFor, MaxRetries;
  }

  // ----------------------------------------------------------- retry bound

  /** A send settles its request, or fails with an error the retry decision is made about. */
  datatype Outcome = Settled | Failure(error: Error, elapsed: real)

  /** How often a buffered request goes out, given what each send would come to. */
  function Sends(p: Policy, req: Request, outcomes: seq<Outcome>, attempt: nat): nat
    decreases |outcomes|
  {
    if outcomes == [] then 0 else
      match outcomes[0]
      case Settled => 1
      case Failure(e, elapsed) =>
        1 + if WillRetry(p, req, e, attempt, elapsed) then Sends(p, req, outcomes[1..], attempt + 1) else 0
  }

  ghost predicate Bounds(p: Policy, req: Request, m: nat) { forall k :: MaxRetries(p, req, k) <= m }

  lemma {:induction false} RetryBound(p: Policy, req: Request, outcomes: seq<Outcome>, attempt: nat, m: nat)
    requires Bounds(p, req, m) && attempt <= m
    ensures Sends(p, req, outcomes, attempt) <= 1 + m - attempt
    decreases |outcomes|
  {
    hide WillRetry, Bounds, MaxRetries;
    if outcomes != [] && outcomes[0].Failure? {
      var e, elapsed := outcomes[0].error, outcomes[0].elapsed;
      if WillRetry(p, req, e, attempt, elapsed) {
        RetryInBudget(p, req, e, attempt, elapsed, m);
        RetryBound(p, req, outcomes[1..], attempt + 1, m);
      }
    }
  }

  lemma RetryInBudget(p: Policy, req: Request, e: Error, attempt: nat, elapsed: real, m: nat)
    requires WillRetry(p, req, e, attempt, elapsed) && Bounds(p, req, m)
    ensures attempt < m
  {
    assert MaxRetries(p, req, e.kind) <= m;
  }

  function Larger(a: int, b: int): int { if a >= b then a else b }

  const KINDS: seq<Kind> := [RateLimit, Auth, ContextOverflow, InvalidRequest, ServerError, Timeout,
                             Network, ContentFilter, ModelNotFound, QuotaExceeded, Unsupported]

  /** The kind with the largest effective `maxRetries`. */
  function Greediest(p: Policy, req: Request, kinds: seq<Kind>): (kind: Kind)
    requires kinds != []
    ensures forall k :: k in kinds ==> MaxRetries(p, req, k) <= MaxRetries(p, req, kind)
  {
    if |kinds| == 1 then kinds[0]
    else
      var rest := Greediest(p, req, kinds[1..]);
      if MaxRetries(p, req, kinds[0]) >= MaxRetries(p, req, rest) then kinds[0] else rest
  }

  lemma EveryKind(k: Kind)
    ensures k in KINDS
  {
    var at := match k case RateLimit => 0 case Auth => 1 case ContextOverflow => 2 case InvalidRequest => 3
                      case ServerError => 4 case Timeout => 5 case Network => 6 case ContentFilter => 7
                      case ModelNotFound => 8 case QuotaExceeded => 9 case Unsupported => 10;
    assert KINDS[at] == k;
  }

  function MostRetries(p: Policy, req: Request): int { MaxRetries(p, req, Greediest(p, req, KINDS)) }

  /** Whatever the server answers, in whatever order, the request goes out at most once
      plus the largest effective `maxRetries` over the error kinds. */
  lemma SentAtMost(p: Policy, req: Request, outcomes: seq<Outcome>)
    ensures Sends(p, req, outcomes, 0) <= 1 + Larger(0, MostRetries(p, req))
  {
    hide MaxRetries, Sends;
    forall k ensures MaxRetries(p, req, k) <= Larger(0, MostRetries(p, req)) { EveryKind(k); }
    RetryBound(p, req, outcomes, 0, Larger(0, MostRetries(p, req)));
  }

  /** What one connect attempt comes to: an open stream, a non-successful answer, or something
      thrown on the way, perhaps already a classified error or after the caller's abort. */
  datatype Connection =
    | Opened
    | Refused(error: Error, elapsed: real)
    | Crashed(classified: bool, aborted: bool, timedOut: bool, elapsed: real)

  /** The error the retry decision is made about; none when the loop ends at once. */
  function ErrorOf(c: Connection): Option<Error> {
    match c
    case Opened => None
    case Refused(e, _) => Some(e)
    case Crashed(classified, aborted, timedOut, _) =>
      if classified || aborted then None else Some(Error(if timedOut then Timeout else Network, true, None, None))
  }

  predicate GoesOn(p: Policy, req: Request, c: Connection, attempt: nat) {
    ErrorOf(c).Some? && WillReconnect(p, req, ErrorOf(c).value, attempt, c.elapsed)
  }

  /** Exactly what a stream's connect loop goes on past: an answer that may be retried, and anything
      thrown that is no classified error and no abort of the caller's, as a timeout or a network
      failure. */
  lemma WhatGoesOn(p: Policy, req: Request, c: Connection, attempt: nat)
    ensures GoesOn(p, req, c, attempt) <==>
              || (c.Refused? && WillReconnect(p, req, c.error, attempt, c.elapsed))
              || (c.Crashed? && !c.classified && !c.aborted && c.timedOut
                  && WillReconnect(p, req, Error(Timeout, true, None, None), attempt, c.elapsed))
              || (c.Crashed? && !c.classified && !c.aborted && !c.timedOut
                  && WillReconnect(p, req, Error(Network, true, None, None), attempt, c.elapsed))
  {
    hide WillReconnect;
  }

  /** The connect loop of a stream, given what each attempt comes to: it goes on past exactly the
      failures that may be retried, stops at the first other one, and so always stops. */
  method Connect(p: Policy, req: Request, connection: nat -> Connection) returns (connected: bool, sends: nat)
    ensures 1 <= sends <= 1 + Larger(0, MostRetries(p, req))
    ensures forall k: nat :: k + 1 < sends ==> GoesOn(p, req, connection(k), k)
    ensures !GoesOn(p, req, connection(sends - 1), sends - 1)
    ensures connected <==> connection(sends - 1).Opened?
  {
    hide Greediest, MaxRetries, IsRetryable, TooLong;
    ghost var most := MostRetries(p, req);
    var retry := RetryFor(p, req);
    var attempt: nat := 0;
    while true
      invariant attempt <= Larger(0, most)
      invariant forall k: nat :: k < attempt ==> GoesOn(p, req, connection(k), k)
      decreases most - attempt
    {
      var now := connection(attempt);
      var e: Error;
      match now {
        case Opened => return true, attempt + 1;
        case Refused(error, _) => e := error;
        case Crashed(classified, aborted, timedOut, _) =>
          if classified { return false, attempt + 1; }
          if aborted { return false, attempt + 1; }
          e := Error(if timedOut then Timeout else Network, true, None, None);
      }
      EveryKind(e.kind);
      assert MaxRetries(p, req, e.kind) <= most;
      if !IsRetryable(retry, e) || attempt >= MaxRetries(p, req, e.kind) || TooLong(retry, e)
         || !(now.elapsed < retry.totalTimeoutMs) || req.streamBody {
        return false, attempt + 1;
      }
      attempt := attempt + 1;
    }
  }

  /** The bound is reached: a retryable error that keeps coming is sent exactly that often. */
  lemma {:induction false} RetryBoundReached(p: Policy, req: Request, e: Error, attempt: nat, n: nat)
    requires n > 0 && attempt + n - 1 == MaxRetries(p, req, e.kind)
    requires IsRetryable(RetryFor(p, req), e) && !TooLong(RetryFor(p, req), e) && ReplaySafe(req) && !req.streamBody
    requires 0.0 < RetryFor(p, req).totalTimeoutMs
    ensures Sends(p, req, seq(n, _ => Failure(e, 0.0)), attempt) == n
    decreases n
  {
    hide IsRetryable, TooLong, ReplaySafe, MaxRetries, RetryFor;
    var same := seq(n, _ => Failure(e, 0.0));
    assert same[0] == Failure(e, 0.0);
    if n > 1 {
      assert same[1..] == seq(n - 1, _ => Failure(e, 0.0));
      RetryBoundReached(p, req, e, attempt + 1, n - 1);
    }
  }

  // -------------------------------------------------------- default policy

  lemma DefaultRules(kind: Kind)
    ensures RuleFor(DEFAULT_RETRY, kind).retryable
            == Some(kind.RateLimit? || kind.ServerError? || kind.Timeout? || kind.Network?)
    ensures RuleFor(DEFAULT_RETRY, kind).fixedBackoffMs == None
  {
  }

  /** Which answers the default policy re-sends, for every request: a 429, a 5xx and,
      because the per-kind rule beats the error's own flag, anything non-successful below
      400; never when the server said not to or asked for a longer wait than the cap. */
  lemma DefaultResends(req: Request, a: Answer, attempt: nat, elapsed: real)
    ensures var retry, e := RetryFor(DEFAULT_RETRY, req), Classify(a);
            WillRetry(DEFAULT_RETRY, req, e, attempt, elapsed) <==>
              && (a.status == 429 || a.status >= 500 || a.status < 400)
              && a.shouldRetry != Some(false)
              && !(a.status == 429 && TooLong(retry, e))
              && attempt < MaxRetries(DEFAULT_RETRY, req, e.kind) && elapsed < retry.totalTimeoutMs
              && !req.streamBody && ReplaySafe(req)
  {
    hide MaxRetries, ReplaySafe, ParseRetryAfter;
    var e := Classify(a);
    DefaultRules(e.kind);
    assert RetryFor(DEFAULT_RETRY, req).perKind == DEFAULT_RETRY.perKind;
  }

  /** An error flagged as not retryable is re-sent all the same below 400. */
  lemma RedirectIsResent(a: Answer)
    requires a.status == 302 && a.shouldRetry == None
    ensures !Classify(a).retryable && WillRetry(DEFAULT_RETRY, Request(None, false, false), Classify(a), 0, 0.0)
  {
    DefaultResends(Request(None, false, false), a, 0, 0.0);
    DefaultMax(Request(None, false, false), ServerError);
  }

  lemma DefaultMax(req: Request, kind: Kind)
    requires req.retry == None
    ensures MaxRetries(DEFAULT_RETRY, req, kind) == if kind.RateLimit? then 5 else 2
  {
  }

  // --------------------------------------------------------------- streams

  /** While a stream connects, the same failures are retried, except that a request that
      continues server-side state is retried too, approved or not. */
  lemma ReconnectVersusRetry(p: Policy, req: Request, e: Error, attempt: nat, elapsed: real)
    ensures WillRetry(p, req, e, attempt, elapsed) <==> WillReconnect(p, req, e, attempt, elapsed) && ReplaySafe(req)
    ensures WillReconnect(p, req, e, attempt, elapsed) && !WillRetry(p, req, e, attempt, elapsed) ==>
              req.stateful && (req.retry.None? || !req.retry.value.approveUnsafeReplay)
  {
    hide RetryFor, IsRetryable, MaxRetries, TooLong;
  }

  // ----------------------------------------------------------------- waits

  function Min(a: real, b: real): real { if a <= b then a else b }

  /** The wait the limiter and the timer use: the server's, clamped to the cap. */
  function HonoredRetryAfter(p: Policy, e: Error): Option<real> {
    if e.retryAfter.None? || !e.retryAfter.value.Fin? || e.retryAfter.value.r <= 0.0 then None
    else Some(Min(e.retryAfter.value.r, p.maxRetryAfterMs))
  }

  function Pow(b: real, n: nat): real { if n == 0 then 1.0 else b * Pow(b, n - 1) }

  function Grown(b: Backoff, attempt: nat): real { b.initialMs * Pow(b.multiplier, attempt) }

  function Round(x: real): int { (x + 0.5).Floor }

  function Shift(random: real, jitter: real): real { random * jitter * 2.0 - jitter }

  function Spread(base: real, shift: real): real { base * (1.0 - shift) }

  /** `random` is what `Math.random` returned. */
  function CalculateBackoff(p: Policy, e: Error, attempt: nat, random: real): real {
    var honored, fixed := HonoredRetryAfter(p, e), RuleFor(p, e.kind).fixedBackoffMs;
    if honored.Some? then honored.value
    else if fixed.Some? && fixed.value != 0.0 then fixed.value
    else
      var b := p.backoff;
      var base := Min(Grown(b, attempt), b.maxMs);
      Round(Spread(base, Shift(random, b.jitter))) as real
  }

  /** A wait the server asked for is never cut short by a retry: what is retried at all
      is retried after exactly that long. */
  lemma ServerWaitIsKept(p: Policy, req: Request, e: Error, attempt: nat, elapsed: real, random: real)
    requires WillRetry(p, req, e, attempt, elapsed) || WillReconnect(p, req, e, attempt, elapsed)
    requires e.retryAfter.Some? && e.retryAfter.value.Fin? && e.retryAfter.value.r > 0.0
    ensures CalculateBackoff(RetryFor(p, req), e, attempt, random) == e.retryAfter.value.r
  {
    hide RetryFor, IsRetryable, MaxRetries, Pow, Round;
  }

  lemma {:induction false} PowPositive(b: real, n: nat)
    requires b > 0.0
    ensures Pow(b, n) > 0.0
  {
    if n > 0 { PowPositive(b, n - 1); }
  }

  lemma Product(x: real, y: real, z: real)
    requires x >= 0.0 && y <= z
    ensures x * y <= x * z
  {
  }

  lemma Scaled(base: real, factor: real, max: real, j: real)
    requires 0.0 <= base <= max && 0.0 <= 1.0 - j <= factor <= 1.0 + j
    ensures 0.0 <= base * factor <= max * (1.0 + j)
  {
    Product(base, 0.0, factor);
    assert 0.0 <= base * factor;
    Product(base, factor, 1.0 + j);
    Product(1.0 + j, base, max);
    assert base * factor <= base * (1.0 + j) == (1.0 + j) * base <= (1.0 + j) * max == max * (1.0 + j);
  }

  lemma RoundNear(x: real)
    ensures x - 0.5 <= Round(x) as real <= x + 0.5
    ensures x >= 0.0 ==> Round(x) >= 0
  {
  }

  /** Without a server wait or a fixed one, the wait is the initial one, multiplied once for each
      attempt before and cut at the cap, give or take the jitter and the rounding. */
  lemma BackoffBounded(p: Policy, e: Error, attempt: nat, random: real)
    requires HonoredRetryAfter(p, e) == None
    requires RuleFor(p, e.kind).fixedBackoffMs == None || RuleFor(p, e.kind).fixedBackoffMs == Some(0.0)
    requires p.backoff.initialMs >= 0.0 && p.backoff.maxMs >= 0.0 && p.backoff.multiplier > 0.0
    requires 0.0 <= p.backoff.jitter <= 1.0 && 0.0 <= random < 1.0
    ensures var base := Min(Grown(p.backoff, attempt), p.backoff.maxMs);
            && Grown(p.backoff, attempt) == p.backoff.initialMs * Pow(p.backoff.multiplier, attempt)
            && base * (1.0 - p.backoff.jitter) - 0.5 <= CalculateBackoff(p, e, attempt, random)
            && CalculateBackoff(p, e, attempt, random) <= base * (1.0 + p.backoff.jitter) + 0.5
    ensures 0.0 <= CalculateBackoff(p, e, attempt, random) <= p.backoff.maxMs * (1.0 + p.backoff.jitter) + 0.5
  {
    hide HonoredRetryAfter, Pow, Round, Shift;
    var b := p.backoff;
    PowPositive(b.multiplier, attempt);
    Product(b.initialMs, 0.0, Pow(b.multiplier, attempt));
    var base := Min(Grown(b, attempt), b.maxMs);
    var shift := Jitter(random, b.jitter);
    Scaled(base, 1.0 - shift, b.maxMs, b.jitter);
    SpreadWithin(base, shift, b.jitter);
    RoundNear(Spread(base, shift));
    assert CalculateBackoff(p, e, attempt, random) == Round(Spread(base, shift)) as real;
    hide CalculateBackoff, Grown, Min, Spread, RuleFor;
  }

  lemma SpreadWithin(base: real, shift: real, j: real)
    requires base >= 0.0 && -j <= shift <= j
    ensures base * (1.0 - j) <= Spread(base, shift) <= base * (1.0 + j)
  {
    Product(base, 1.0 - j, 1.0 - shift);
    Product(base, 1.0 - shift, 1.0 + j);
  }

  /** Attempts multiply: what `m` and then `n` more of them make of a wait. */
  lemma {:induction false} PowAdds(b: real, m: nat, n: nat)
    ensures Pow(b, m + n) == Pow(b, m) * Pow(b, n) && Pow(b, 1) == b
    decreases m
  {
    assert Pow(b, 1) == b * Pow(b, 0);
    if m > 0 {
      PowAdds(b, m - 1, n);
      assert m + n - 1 == (m - 1) + n;
      Associate(b, Pow(b, m - 1), Pow(b, n));
    }
  }

  lemma Associate(x: real, y: real, z: real)
    ensures x * (y * z) == (x * y) * z
  {
  }

  /** The default waits, a quarter either way: half a second, then twice that each time, eight
      seconds at most. */
  lemma {:induction false} DefaultWaits(e: Error, attempt: nat, random: real)
    requires HonoredRetryAfter(DEFAULT_RETRY, e) == None && 0.0 <= random < 1.0
    ensures var base := if attempt == 0 then 500.0 else if attempt == 1 then 1000.0
                        else if attempt == 2 then 2000.0 else if attempt == 3 then 4000.0 else 8000.0;
            base * 0.75 - 0.5 <= CalculateBackoff(DEFAULT_RETRY, e, attempt, random) <= base * 1.25 + 0.5
  {
    hide HonoredRetryAfter, CalculateBackoff;
    DefaultRules(e.kind);
    BackoffBounded(DEFAULT_RETRY, e, attempt, random);
    PowAdds(2.0, 1, 1);
    PowAdds(2.0, 2, 1);
    PowAdds(2.0, 2, 2);
    if attempt >= 4 {
      PowAdds(2.0, 4, attempt - 4);
      PowGrows(attempt - 4);
    }
  }

  lemma {:induction false} PowGrows(n: nat)
    ensures Pow(2.0, n) >= 1.0
  {
    if n > 0 { PowGrows(n - 1); }
  }

  /** Which wait it is: the server's, cut at the cap, before the kind's fixed one. */
  lemma WhichWait(p: Policy, e: Error, attempt: nat, random: real)
    ensures var w, fixed := CalculateBackoff(p, e, attempt, random), RuleFor(p, e.kind).fixedBackoffMs;
            if e.retryAfter.Some? && e.retryAfter.value.Fin? && e.retryAfter.value.r > 0.0
            then w <= e.retryAfter.value.r && w <= p.maxRetryAfterMs && (w == e.retryAfter.value.r || w == p.maxRetryAfterMs)
            else fixed.Some? && fixed.value != 0.0 ==> w == fixed.value
  {
    hide Pow, Round;
  }

  lemma Jitter(random: real, j: real) returns (shift: real)
    requires 0.0 <= random < 1.0 && j >= 0.0
    ensures shift == Shift(random, j) && -j <= shift <= j
  {
    shift := random * j * 2.0 - j;
    Product(j, 0.0, random);
    Product(j, random, 1.0);
  }

  // -------------------------------------------------------- Retry-After

  /** A wait no number can hold is a refusal, not silence: never re-sent, under any policy. */
  lemma EndlessWaitIsRefused(p: Policy, req: Request, a: Answer, attempt: nat, elapsed: real)
    requires a.status == 429 && ParseRetryAfter(a) == Some(PosInf)
    ensures !WillRetry(p, req, Classify(a), attempt, elapsed) && !WillReconnect(p, req, Classify(a), attempt, elapsed)
  {
  }

  /** A wait that can be one. */
  predicate Usable(n: Num) { n.PosInf? || (n.Fin? && 0.0 <= n.r) }

  /** A usable number of milliseconds counts, whatever else is said; without one a usable number
      of seconds, a thousand times that, or the time to the date; and otherwise the server has
      asked for nothing. */
  lemma WaitAsAsked(a: Answer)
    ensures var w := ParseRetryAfter(a);
            if a.afterMs.Some? && Usable(a.afterMs.value) then w == a.afterMs
            else if a.after.DateIn? && Usable(a.after.ms) then w == Some(a.after.ms)
            else if a.after.Seconds? && Usable(a.after.s) then
              w.Some? && (if a.after.s.PosInf? then w.value.PosInf? else w.value.Fin? && w.value.r / 1000.0 == a.after.s.r)
            else w == None
  {
  }

  /** What is parsed is a wait: never NaN and never negative, whatever the headers held. */
  lemma ParsedWaitIsAWait(a: Answer)
    ensures var w := ParseRetryAfter(a); w.Some? ==> w.value.PosInf? || (w.value.Fin? && w.value.r >= 0.0)
  {
  }
}
