// One queue of src/network/queue-state.ts as a step system: the heap of
// src/network/request-queue.ts, the single processing loop, the attempts that
// hold a slot, the retry timers and the streams that share the slots.
//
// A request is named by its submission number. A step is what runs between two
// suspension points; which entries expire or are served next, what the limiter
// says and how an attempt ends are the environment's choice; `Attempt` derives the
// ends, with their one release and one settlement, from the code of an attempt.

module QueueSystem {
  import opened Semaphore

  /** `retries` is the largest number of re-sends any request's policy allows. */
  datatype Config = Config(maxSize: int, slots: int, retries: nat)

  datatype Waiter = LoopWaiter | StreamWaiter

  /** Where the processing loop is suspended. */
  datatype Loop =
    | Stopped
    | Waiting                // in waitForItem
    | InHand(id: nat)        // an entry dequeued, the limiter not yet asked
    | Sleeping(id: nat)      // waiting for the limiter
    | Acquiring(id: nat)     // queued at the semaphore
    | Granted(id: nat)       // handed a slot, not yet resumed

  datatype State = State(
    heap: multiset<nat>, loop: Loop, sem: Sem<Waiter>, flight: multiset<nat>, timers: multiset<nat>,
    settled: multiset<nat>, tries: seq<nat>, streaming: nat, leaked: nat)

  /** How an attempt ends. All but `Retry` settle the request. */
  datatype End = Resolved | AbortedByHook | BodyUnreadable | CallerAborted | Crashed | Failed | Retry

  datatype Step =
    | Submit
    | StreamStart
    | StreamLeak
    | Dequeue(expired: multiset<nat>, served: Option<nat>)
    | RejectLimited
    | Sleep
    | AcquireSlot
    | StartAttempt
    | EndAttempt(id: nat, end: End)
    | FireTimer(id: nat)
    | StreamEnd

  function Start(): State {
    State(multiset{}, Stopped, Sem(0, []), multiset{}, multiset{}, multiset{}, [], 0, 0)
  }

  /** The request the loop carries. */
  function Hand(l: Loop): multiset<nat> {
    if l.Stopped? || l.Waiting? then multiset{} else multiset{l.id}
  }

  function Add(m: multiset<nat>, id: nat): multiset<nat> { m + multiset{id} }
  function Less(m: multiset<nat>, id: nat): multiset<nat> { m - multiset{id} }

  // ----------------------------------------------------------------- steps

  /** A full queue rejects the entry, otherwise it joins the heap; the loop runs. */
  function Enqueued(c: Config, s: State, id: nat): State {
    var t := if |s.heap| >= c.maxSize then s.(settled := Add(s.settled, id))
             else s.(heap := Add(s.heap, id));
    if s.loop.Stopped? then t.(loop := Waiting) else t
  }

  /** One slot released: the longest waiter, if any, has it now. */
  function Freed(s: State): State {
    var t, next := s.(sem := Released(s.sem)), Next(s.sem);
    if next == Some(StreamWaiter) then t.(streaming := s.streaming + 1)
    else if next == Some(LoopWaiter) && s.loop.Acquiring? then t.(loop := Granted(s.loop.id))
    else t
  }

  predicate Enabled(c: Config, s: State, e: Step) {
    match e
    case Submit => true
    case StreamStart => true
    case StreamLeak => s.streaming > 0
    case Dequeue(expired, served) =>
      && s.loop.Waiting? && s.heap != multiset{} && expired <= s.heap
      && (if served.Some? then served.value in s.heap - expired else expired == s.heap)
    case RejectLimited => s.loop.InHand?
    case Sleep => s.loop.InHand?
    case AcquireSlot => s.loop.InHand? || s.loop.Sleeping?
    case StartAttempt => s.loop.Granted?
    case EndAttempt(id, end) =>
      id in s.flight && (end.Retry? ==> id < |s.tries| && s.tries[id] < c.retries)
    case FireTimer(id) => id in s.timers
    case StreamEnd => s.streaming > 0
  }

  function After(c: Config, s: State, e: Step): State
    requires Enabled(c, s, e)
  {
    match e
    case Submit => Enqueued(c, s.(tries := s.tries + [0]), |s.tries|)
    case StreamStart =>
      var t := s.(sem := Acquired(s.sem, c.slots, StreamWaiter));
      if s.sem.current < c.slots then t.(streaming := s.streaming + 1) else t
    case StreamLeak => s.(streaming := s.streaming - 1, leaked := s.leaked + 1)
    case Dequeue(expired, served) =>
      var t := s.(settled := s.settled + expired);
      if served.Some? then t.(heap := Less(s.heap - expired, served.value), loop := InHand(served.value))
      else t.(heap := multiset{}, loop := Stopped)
    case RejectLimited => s.(settled := Add(s.settled, s.loop.id), loop := Waiting)
    case Sleep => s.(loop := Sleeping(s.loop.id))
    case AcquireSlot =>
      var t := s.(sem := Acquired(s.sem, c.slots, LoopWaiter));
      if s.sem.current < c.slots then t.(flight := Add(s.flight, s.loop.id), loop := Waiting)
      else t.(loop := Acquiring(s.loop.id))
    case StartAttempt => s.(flight := Add(s.flight, s.loop.id), loop := Waiting)
    case EndAttempt(id, end) =>
      var t := Freed(s.(flight := Less(s.flight, id)));
      if end.Retry? then t.(timers := Add(s.timers, id), tries := s.tries[id := s.tries[id] + 1])
      else t.(settled := Add(s.settled, id))
    case FireTimer(id) => Enqueued(c, s.(timers := Less(s.timers, id)), id)
    case StreamEnd => Freed(s.(streaming := s.streaming - 1))
  }

  /** Steps the queue takes by itself, once nobody submits or starts anything new. */
  predicate Internal(e: Step) { !e.Submit? && !e.StreamStart? && !e.StreamLeak? }

  // ------------------------------------------------------------- invariant

  /** In how many places request `k` is, settlements counted each time. */
  function Count(s: State, k: nat): nat {
    s.heap[k] + Hand(s.loop)[k] + s.flight[k] + s.timers[k] + s.settled[k]
  }

  function Holders(s: State): int {
    |s.flight| + s.streaming + (if s.loop.Granted? then 1 else 0)
  }

  function LoopWaiters(ws: seq<Waiter>): nat {
    if ws == [] then 0 else (if ws[0].LoopWaiter? then 1 else 0) + LoopWaiters(ws[1..])
  }

  /** Every submitted request is in exactly one place, and settled at most once. */
  ghost predicate InvPlaces(s: State) {
    forall k: nat :: Count(s, k) == if k < |s.tries| then 1 else 0
  }

  /** The semaphore counts the slots held; the loop waits there at most once. */
  ghost predicate InvSlots(c: Config, s: State) {
    && s.sem.current == Holders(s) + s.leaked
    && Fair(s.sem, c.slots)
    && LoopWaiters(s.sem.waiters) == (if s.loop.Acquiring? then 1 else 0)
  }

  /** Whatever is queued has a running loop; queue length and re-sends are bounded. */
  ghost predicate InvQueue(c: Config, s: State) {
    && (s.loop.Stopped? ==> s.heap == multiset{})
    && (|s.heap| == 0 || |s.heap| <= c.maxSize)
    && InvTries(c, s.tries)
  }

  ghost predicate InvTries(c: Config, tries: seq<nat>) {
    forall k :: 0 <= k < |tries| ==> tries[k] <= c.retries
  }

  ghost predicate Inv(c: Config, s: State) { InvPlaces(s) && InvSlots(c, s) && InvQueue(c, s) }

  // --------------------------------------------------------- preservation

  lemma LoopWaitersSnoc(ws: seq<Waiter>, w: Waiter)
    ensures LoopWaiters(ws + [w]) == LoopWaiters(ws) + (if w.LoopWaiter? then 1 else 0)
  {
    if ws != [] {
      assert (ws + [w])[1..] == ws[1..] + [w];
    }
  }

  lemma StartInv(c: Config)
    requires c.slots >= 0
    ensures Inv(c, Start())
  {
  }

  lemma FreedKeeps(s: State)
    ensures var t := Freed(s);
            && Hand(t.loop) == Hand(s.loop) && t.heap == s.heap && t.flight == s.flight
            && t.timers == s.timers && t.settled == s.settled && t.tries == s.tries && t.leaked == s.leaked
            && (t.loop.Stopped? <==> s.loop.Stopped?)
  {
  }

  lemma EnqueuedKeeps(c: Config, s: State, id: nat)
    ensures var t := Enqueued(c, s, id);
            && t.sem == s.sem && t.flight == s.flight && t.timers == s.timers && t.tries == s.tries
            && t.streaming == s.streaming && t.leaked == s.leaked && Hand(t.loop) == Hand(s.loop)
            && (t.loop == s.loop || (s.loop.Stopped? && t.loop.Waiting?)) && !t.loop.Stopped?
            && (t.heap == s.heap || (t.heap == Add(s.heap, id) && |s.heap| < c.maxSize))
  {
  }

  lemma AddAt(m: multiset<nat>, id: nat, k: nat)
    ensures Add(m, id)[k] == m[k] + (if k == id then 1 else 0)
  {
  }

  lemma LessAt(m: multiset<nat>, id: nat, k: nat)
    requires id in m
    ensures Less(m, id)[k] == m[k] - (if k == id then 1 else 0)
  {
  }

  lemma HandAt(l: Loop, k: nat)
    ensures Hand(l)[k] == if !l.Stopped? && !l.Waiting? && l.id == k then 1 else 0
  {
  }

  lemma DequeuedAt(heap: multiset<nat>, settled: multiset<nat>, expired: multiset<nat>, served: Option<nat>, k: nat)
    requires expired <= heap && (if served.Some? then served.value in heap - expired else expired == heap)
    ensures (settled + expired)[k] == settled[k] + expired[k]
    ensures served.Some? ==>
              Less(heap - expired, served.value)[k] == heap[k] - expired[k] - (if k == served.value then 1 else 0)
  {
  }

  lemma EnqueuedCount(c: Config, s: State, id: nat, k: nat)
    ensures Count(Enqueued(c, s, id), k) == Count(s, k) + (if k == id then 1 else 0)
  {
    hide Add;
    AddAt(s.heap, id, k);
    AddAt(s.settled, id, k);
  }

  /** No step loses, copies or settles a request twice: only `Submit` adds one. */
  lemma StepCount(c: Config, s: State, e: Step, k: nat)
    requires Enabled(c, s, e)
    ensures Count(After(c, s, e), k) == Count(s, k) + (if e.Submit? && k == |s.tries| then 1 else 0)
    ensures |After(c, s, e).tries| == |s.tries| + (if e.Submit? then 1 else 0)
  {
    hide Freed, Enqueued, Acquired, Released, Add, Less, Hand;
    var t := After(c, s, e);
    HandAt(s.loop, k);
    HandAt(t.loop, k);
    match e
    case Submit =>
      EnqueuedCount(c, s.(tries := s.tries + [0]), |s.tries|, k);
      EnqueuedKeeps(c, s.(tries := s.tries + [0]), |s.tries|);
    case EndAttempt(id, end) =>
      LessAt(s.flight, id, k);
      FreedKeeps(s.(flight := Less(s.flight, id)));
      AddAt(s.timers, id, k);
      AddAt(s.settled, id, k);
    case FireTimer(id) =>
      LessAt(s.timers, id, k);
      EnqueuedCount(c, s.(timers := Less(s.timers, id)), id, k);
      EnqueuedKeeps(c, s.(timers := Less(s.timers, id)), id);
    case StreamEnd =>
      FreedKeeps(s.(streaming := s.streaming - 1));
    case Dequeue(expired, served) => DequeuedAt(s.heap, s.settled, expired, served, k);
    case RejectLimited => AddAt(s.settled, s.loop.id, k);
    case AcquireSlot => AddAt(s.flight, s.loop.id, k);
    case StartAttempt => AddAt(s.flight, s.loop.id, k);
    case _ =>
  }

  lemma StepPlaces(c: Config, s: State, e: Step)
    requires InvPlaces(s) && Enabled(c, s, e)
    ensures InvPlaces(After(c, s, e))
  {
    hide After, Enabled, Count;
    var t := After(c, s, e);
    forall k: nat ensures Count(t, k) == if k < |t.tries| then 1 else 0 {
      StepCount(c, s, e, k);
    }
  }

  /** One slot given up by its holder: the count and the waiting line still agree. */
  lemma FreedSlots(c: Config, s: State, t: State)
    requires InvSlots(c, s) && t.sem == s.sem && t.loop == s.loop && t.leaked == s.leaked && Holders(t) == Holders(s) - 1
    ensures InvSlots(c, Freed(t))
  {
    if s.sem.waiters != [] {
      assert LoopWaiters(s.sem.waiters) == (if s.sem.waiters[0].LoopWaiter? then 1 else 0) + LoopWaiters(s.sem.waiters[1..]);
    }
  }

  lemma Sizes(m: multiset<nat>, id: nat)
    ensures |Add(m, id)| == |m| + 1
    ensures id in m ==> |Less(m, id)| == |m| - 1
  {
    if id in m { assert m == Less(m, id) + multiset{id}; }
  }

  /** Slots only depend on who holds one and who waits for one. */
  lemma SameSlots(c: Config, s: State, t: State)
    requires InvSlots(c, s) && t.sem == s.sem && t.leaked == s.leaked && Holders(t) == Holders(s)
    requires t.loop.Acquiring? <==> s.loop.Acquiring?
    ensures InvSlots(c, t)
  {
  }

  lemma AcquiredSlots(c: Config, s: State, t: State, w: Waiter)
    requires InvSlots(c, s) && t.sem == Acquired(s.sem, c.slots, w) && t.leaked == s.leaked
    requires s.sem.current < c.slots ==> Holders(t) == Holders(s) + 1 && (t.loop.Acquiring? <==> s.loop.Acquiring?)
    requires s.sem.current >= c.slots ==>
               Holders(t) == Holders(s) && !(w.LoopWaiter? && s.loop.Acquiring?)
               && (t.loop.Acquiring? <==> s.loop.Acquiring? || w.LoopWaiter?)
    ensures InvSlots(c, t)
  {
    LoopWaitersSnoc(s.sem.waiters, w);
  }

  lemma StepSlots(c: Config, s: State, e: Step)
    requires InvSlots(c, s) && Enabled(c, s, e)
    ensures InvSlots(c, After(c, s, e))
  {
    hide Freed, Enqueued, InvSlots, Acquired, Released, Add, Less;
    var t := After(c, s, e);
    match e
    case EndAttempt(id, end) =>
      Sizes(s.flight, id);
      FreedSlots(c, s, s.(flight := Less(s.flight, id)));
      SameSlots(c, Freed(s.(flight := Less(s.flight, id))), t);
    case StreamEnd =>
      FreedSlots(c, s, s.(streaming := s.streaming - 1));
    case Submit =>
      EnqueuedKeeps(c, s.(tries := s.tries + [0]), |s.tries|);
      SameSlots(c, s, t);
    case FireTimer(id) =>
      EnqueuedKeeps(c, s.(timers := Less(s.timers, id)), id);
      SameSlots(c, s, t);
    case StreamStart => AcquiredSlots(c, s, t, StreamWaiter);
    case AcquireSlot =>
      Sizes(s.flight, s.loop.id);
      AcquiredSlots(c, s, t, LoopWaiter);
    case StartAttempt =>
      Sizes(s.flight, s.loop.id);
      SameSlots(c, s, t);
    case StreamLeak => LeakedSlots(c, s, t);
    case _ => SameSlots(c, s, t);
  }

  lemma LeakedSlots(c: Config, s: State, t: State)
    requires InvSlots(c, s) && s.streaming > 0 && t == s.(streaming := s.streaming - 1, leaked := s.leaked + 1)
    ensures InvSlots(c, t)
  {
  }

  lemma Smaller(m: multiset<nat>, n: multiset<nat>)
    requires m <= n
    ensures |m| <= |n|
  {
    assert n == m + (n - m);
  }

  lemma SmallerQueue(c: Config, s: State, t: State)
    requires InvQueue(c, s) && t.heap <= s.heap && InvTries(c, t.tries)
    requires t.loop.Stopped? ==> s.loop.Stopped? || t.heap == multiset{}
    ensures InvQueue(c, t)
  {
    Smaller(t.heap, s.heap);
  }

  lemma EnqueuedQueue(c: Config, s: State, id: nat)
    requires InvQueue(c, s)
    ensures InvQueue(c, Enqueued(c, s, id))
  {
  }

  lemma StepTries(c: Config, s: State, e: Step)
    requires InvTries(c, s.tries) && Enabled(c, s, e)
    ensures InvTries(c, After(c, s, e).tries)
  {
    hide Freed, Enqueued, Acquired, Released, Add, Less;
    match e
    case EndAttempt(id, end) => FreedKeeps(s.(flight := Less(s.flight, id)));
    case StreamEnd => FreedKeeps(s.(streaming := s.streaming - 1));
    case Submit => EnqueuedKeeps(c, s.(tries := s.tries + [0]), |s.tries|);
    case FireTimer(id) => EnqueuedKeeps(c, s.(timers := Less(s.timers, id)), id);
    case _ =>
  }

  lemma FewerWaiting(heap: multiset<nat>, expired: multiset<nat>, served: nat)
    ensures Less(heap - expired, served) <= heap && multiset{} <= heap
  {
  }

  lemma StepQueue(c: Config, s: State, e: Step)
    requires InvQueue(c, s) && Enabled(c, s, e)
    ensures InvQueue(c, After(c, s, e))
  {
    hide Freed, Enqueued, Acquired, Released, Add, Less, InvTries;
    var t := After(c, s, e);
    StepTries(c, s, e);
    match e
    case EndAttempt(id, end) =>
      FreedKeeps(s.(flight := Less(s.flight, id)));
    case StreamEnd =>
      FreedKeeps(s.(streaming := s.streaming - 1));
    case Submit =>
      var u := s.(tries := s.tries + [0]);
      assert InvTries(c, u.tries) by { EnqueuedKeeps(c, u, |s.tries|); }
      EnqueuedQueue(c, u, |s.tries|);
    case FireTimer(id) =>
      EnqueuedQueue(c, s.(timers := Less(s.timers, id)), id);
    case Dequeue(expired, served) =>
      if served.Some? { FewerWaiting(s.heap, expired, served.value); }
      SmallerQueue(c, s, t);
    case _ =>
  }

  lemma StepInv(c: Config, s: State, e: Step)
    requires Inv(c, s) && Enabled(c, s, e)
    ensures Inv(c, After(c, s, e))
  {
    hide InvPlaces, InvSlots, InvQueue, Enabled, After;
    StepPlaces(c, s, e);
    StepSlots(c, s, e);
    StepQueue(c, s, e);
  }

  // ------------------------------------------------------------------ runs

  ghost predicate IsRun(c: Config, states: seq<State>, steps: seq<Step>) {
    && |states| == |steps| + 1
    && forall i :: 0 <= i < |steps| ==> Enabled(c, states[i], steps[i]) && states[i + 1] == After(c, states[i], steps[i])
  }

  lemma {:induction false} RunInv(c: Config, states: seq<State>, steps: seq<Step>, i: nat)
    requires IsRun(c, states, steps) && i < |states| && Inv(c, states[0])
    ensures Inv(c, states[i])
    decreases i
  {
    hide Inv, Enabled, After;
    if i > 0 {
      RunInv(c, states, steps, i - 1);
      StepInv(c, states[i - 1], steps[i - 1]);
    }
  }

  /** Over every run, at every moment: each submitted request is queued, carried by the
      loop, in an attempt, on a retry timer or settled, in one of them and once; the
      semaphore's count is the holders plus the leaked slots and never above `concurrent`;
      a queued request has a running loop; no request is re-sent beyond its budget. */
  lemma Lifecycle(c: Config, states: seq<State>, steps: seq<Step>, i: nat)
    requires c.slots >= 0 && IsRun(c, states, steps) && i < |states| && states[0] == Start()
    ensures var s := states[i];
            && (forall k: nat :: k < |s.tries| ==>
                  s.heap[k] + Hand(s.loop)[k] + s.flight[k] + s.timers[k] + s.settled[k] == 1)
            && Holders(s) + s.leaked == s.sem.current <= c.slots
            && (s.heap != multiset{} ==> !s.loop.Stopped?)
            && (forall k :: 0 <= k < |s.tries| ==> s.tries[k] <= c.retries)
  {
    hide After, Enabled;
    StartInv(c);
    RunInv(c, states, steps, i);
    var s := states[i];
    forall k: nat | k < |s.tries|
      ensures s.heap[k] + Hand(s.loop)[k] + s.flight[k] + s.timers[k] + s.settled[k] == 1
    {
      assert Count(s, k) == 1;
    }
  }

  lemma StepSettled(c: Config, s: State, e: Step, k: nat)
    requires Enabled(c, s, e)
    ensures s.settled[k] <= After(c, s, e).settled[k]
    ensures |s.tries| <= |After(c, s, e).tries|
  {
    hide Acquired, Released, Less, Hand, Freed;
    match e
    case EndAttempt(id, end) => FreedKeeps(s.(flight := Less(s.flight, id)));
    case StreamEnd => FreedKeeps(s.(streaming := s.streaming - 1));
    case _ =>
  }

  /** A settled request stays settled, and is never again anywhere else. */
  lemma {:induction false} SettledForGood(c: Config, states: seq<State>, steps: seq<Step>, i: nat, j: nat, k: nat)
    requires c.slots >= 0 && IsRun(c, states, steps) && states[0] == Start()
    requires i <= j < |states| && k in states[i].settled
    ensures states[j].settled[k] == 1
    ensures k !in states[j].heap && k !in states[j].flight && k !in states[j].timers && k !in Hand(states[j].loop)
    decreases j - i
  {
    hide After, Enabled;
    StartInv(c);
    RunInv(c, states, steps, j);
    if i < j {
      SettledForGood(c, states, steps, i, j - 1, k);
      StepSettled(c, states[j - 1], steps[j - 1], k);
    }
    assert Count(states[j], k) <= 1;
  }

  // -------------------------------------------------------------- liveness

  /** Re-sends still allowed, over all requests. */
  function Budget(retries: nat, tries: seq<nat>): nat {
    if tries == [] then 0
    else Budget(retries, tries[1..]) + (if tries[0] <= retries then retries - tries[0] else 0)
  }

  lemma {:induction false} BudgetSpent(retries: nat, tries: seq<nat>, k: nat)
    requires k < |tries| && tries[k] < retries
    ensures Budget(retries, tries[k := tries[k] + 1]) == Budget(retries, tries) - 1
  {
    if k > 0 {
      BudgetSpent(retries, tries[1..], k - 1);
      assert tries[k := tries[k] + 1][1..] == tries[1..][k - 1 := tries[k] + 1];
    } else {
      assert tries[k := tries[k] + 1][1..] == tries[1..];
    }
  }

  function HandWeight(l: Loop): nat {
    match l
    case Stopped => 0
    case Waiting => 0
    case InHand(_) => 9
    case Sleeping(_) => 8
    case Acquiring(_) => 5
    case Granted(_) => 4
  }

  /** How much the queue has still to do by itself. */
  function Measure(c: Config, s: State): nat {
    10 * Budget(c.retries, s.tries) + 11 * |s.timers| + 10 * |s.heap| + HandWeight(s.loop) + 3 * |s.flight|
    + 2 * |s.sem.waiters| + s.streaming
  }

  lemma FreedWeighs(s: State)
    requires s.loop.Acquiring? || LoopWaiters(s.sem.waiters) == 0
    ensures var t := Freed(s);
            HandWeight(t.loop) + 2 * |t.sem.waiters| + t.streaming
            <= HandWeight(s.loop) + 2 * |s.sem.waiters| + s.streaming
  {
  }

  lemma EnqueuedWeighs(c: Config, s: State, id: nat)
    ensures Measure(c, Enqueued(c, s, id)) <= Measure(c, s) + 10
  {
    hide Budget;
  }

  lemma DequeuedWeighs(heap: multiset<nat>, expired: multiset<nat>, served: nat)
    requires expired <= heap && served in heap - expired
    ensures |Less(heap - expired, served)| < |heap|
  {
    var h := heap - expired;
    Sizes(h, served);
    Smaller(h, heap);
  }

  lemma EndDecreases(c: Config, s: State, id: nat, end: End)
    requires s.loop.Acquiring? || LoopWaiters(s.sem.waiters) == 0
    requires Enabled(c, s, EndAttempt(id, end))
    ensures Measure(c, After(c, s, EndAttempt(id, end))) < Measure(c, s)
  {
    hide Freed, Add, Less, Budget, LoopWaiters, HandWeight;
    var u := s.(flight := Less(s.flight, id));
    Sizes(s.flight, id);
    Sizes(s.timers, id);
    FreedKeeps(u);
    FreedWeighs(u);
    if end.Retry? { BudgetSpent(c.retries, s.tries, id); }
  }

  /** Every step the queue takes by itself brings it closer to having nothing left to do. */
  lemma StepDecreases(c: Config, s: State, e: Step)
    requires Inv(c, s) && Enabled(c, s, e) && Internal(e)
    ensures Measure(c, After(c, s, e)) < Measure(c, s)
  {
    hide Freed, Enqueued, Add, Less, Budget, LoopWaiters, InvPlaces, Holders, InvTries;
    match e
    case EndAttempt(id, end) => EndDecreases(c, s, id, end);
    case StreamEnd =>
      FreedKeeps(s.(streaming := s.streaming - 1));
      FreedWeighs(s.(streaming := s.streaming - 1));
    case FireTimer(id) =>
      Sizes(s.timers, id);
      EnqueuedWeighs(c, s.(timers := Less(s.timers, id)), id);
    case Dequeue(expired, served) =>
      if served.Some? {
        DequeuedWeighs(s.heap, expired, served.value);
      } else {
        var t := After(c, s, e);
        assert |t.heap| == 0 && |s.heap| > 0 && t.loop == Stopped && s.loop == Waiting;
        assert Measure(c, s) == Measure(c, t) + 10 * |s.heap|;
      }
    case AcquireSlot => Sizes(s.flight, s.loop.id);
    case StartAttempt => Sizes(s.flight, s.loop.id);
    case _ =>
  }

  /** While a request is unsettled and a slot is left, some step of the queue's own is due. */
  lemma Progress(c: Config, s: State, k: nat) returns (e: Step)
    requires Inv(c, s) && k < |s.tries| && k !in s.settled && s.leaked < c.slots
    ensures Internal(e) && Enabled(c, s, e)
  {
    assert Count(s, k) == 1;
    assert s.loop.Acquiring? ==> s.sem.waiters != [];
    if s.flight != multiset{} {
      var id :| id in s.flight;
      e := EndAttempt(id, Failed);
    } else if s.timers != multiset{} {
      var id :| id in s.timers;
      e := FireTimer(id);
    } else if s.streaming > 0 {
      e := StreamEnd;
    } else {
      match s.loop
      case InHand(_) => e := RejectLimited;
      case Sleeping(_) => e := AcquireSlot;
      case Granted(_) => e := StartAttempt;
      case Waiting =>
        assert k in s.heap;
        e := Dequeue(multiset{}, Some(k));
      case Acquiring(_) =>
      case Stopped =>
    }
  }

  /** Left to itself the queue takes only so many steps; and when it can take no more,
      every request ever submitted is settled, unless leaked slots have used up them all. */
  lemma {:induction false} EverythingSettles(c: Config, states: seq<State>, steps: seq<Step>)
    requires IsRun(c, states, steps) && Inv(c, states[0])
    requires forall i :: 0 <= i < |steps| ==> Internal(steps[i])
    ensures |steps| + Measure(c, states[|steps|]) <= Measure(c, states[0])
    ensures var last := states[|steps|];
            Stuck(c, last) && last.leaked < c.slots ==>
              forall k :: 0 <= k < |last.tries| ==> k in last.settled
    decreases |steps|
  {
    hide Inv, Enabled, After, Measure;
    var n := |steps|;
    RunInv(c, states, steps, n);
    if n > 0 {
      EverythingSettles(c, states[..n], steps[..n - 1]);
      RunInv(c, states, steps, n - 1);
      StepDecreases(c, states[n - 1], steps[n - 1]);
    }
    var last := states[n];
    if Stuck(c, last) && last.leaked < c.slots {
      forall k | 0 <= k < |last.tries| ensures k in last.settled {
        if k !in last.settled { var e := Progress(c, last, k); }
      }
    }
  }

  /** Even when no consumer ever reads on or closes its stream: as long as open streams and leaks
      leave a slot, a queue in which nothing else is due has settled every request. */
  lemma SettlesBesideIdleStreams(c: Config, s: State, k: nat)
    requires Inv(c, s) && s.streaming + s.leaked < c.slots && k < |s.tries|
    requires forall e :: Internal(e) && !e.StreamEnd? ==> !Enabled(c, s, e)
    ensures k in s.settled
  {
    assert Count(s, k) == 1;
    if s.flight != multiset{} {
      var id :| id in s.flight;
      assert Enabled(c, s, EndAttempt(id, Failed));
    } else if s.timers != multiset{} {
      var id :| id in s.timers;
      assert Enabled(c, s, FireTimer(id));
    } else {
      NotDue(c, s, k);
    }
  }

  lemma NotDue(c: Config, s: State, k: nat)
    requires Inv(c, s) && s.streaming + s.leaked < c.slots && Count(s, k) == 1
    requires s.flight == multiset{} && s.timers == multiset{}
    requires !Enabled(c, s, RejectLimited) && !Enabled(c, s, AcquireSlot) && !Enabled(c, s, StartAttempt)
    requires !Enabled(c, s, Dequeue(multiset{}, Some(k)))
    ensures k in s.settled
  {
    assert s.loop.Acquiring? ==> s.sem.waiters != [];
    assert s.heap - multiset{} == s.heap;
  }

  /** No step of the queue's own is due. */
  ghost predicate Stuck(c: Config, s: State) {
    forall e :: Internal(e) ==> !Enabled(c, s, e)
  }

  function LeakSteps(): seq<Step> {
    [StreamStart, StreamLeak, Submit, Dequeue(multiset{}, Some(0)), AcquireSlot]
  }

  function LeakStates(): seq<State> {
    var s1 := State(multiset{}, Stopped, Sem(1, []), multiset{}, multiset{}, multiset{}, [], 1, 0);
    var s2 := s1.(streaming := 0, leaked := 1);
    var s3 := s2.(heap := multiset{0}, loop := Waiting, tries := [0]);
    var s4 := s3.(heap := multiset{}, loop := InHand(0));
    [Start(), s1, s2, s3, s4, s4.(loop := Acquiring(0), sem := Sem(1, [LoopWaiter]))]
  }

  lemma LeakFirst(c: Config, i: nat)
    requires c.slots == 1 && c.maxSize >= 1 && i < 3
    ensures var s, e := LeakStates()[i], LeakSteps()[i];
            Enabled(c, s, e) && LeakStates()[i + 1] == After(c, s, e)
  {
    if i == 0 {} else if i == 1 {} else {}
  }

  lemma LeakThen(c: Config, i: nat)
    requires c.slots == 1 && c.maxSize >= 1 && 3 <= i < 5
    ensures var s, e := LeakStates()[i], LeakSteps()[i];
            Enabled(c, s, e) && LeakStates()[i + 1] == After(c, s, e)
  {
    assert multiset{0} - multiset{} == multiset{0};
    if i == 3 {} else {}
  }

  /** The code does not always meet this: a stream whose body cannot be measured throws
      after it got its slot and never gives it back, and the one request behind it is
      stranded for ever. */
  lemma LeakStrandsARequest(c: Config)
    requires c.slots == 1 && c.maxSize >= 1
    ensures IsRun(c, LeakStates(), LeakSteps()) && LeakStates()[0] == Start()
    ensures var last := LeakStates()[5]; 0 < |last.tries| && 0 !in last.settled && Stuck(c, last)
  {
    hide Enabled, After;
    forall i | 0 <= i < 5
      ensures Enabled(c, LeakStates()[i], LeakSteps()[i])
              && LeakStates()[i + 1] == After(c, LeakStates()[i], LeakSteps()[i])
    {
      hide LeakStates, LeakSteps;
      if i < 3 { LeakFirst(c, i); } else { LeakThen(c, i); }
    }
    Strands(c, LeakStates()[5]);
  }

  lemma Strands(c: Config, s: State)
    requires s.loop.Acquiring? && s.heap == s.flight == s.timers == multiset{} && s.streaming == 0
    ensures Stuck(c, s)
  {
  }

  // --------------------------------------------------------- all slots leaked

  /** A run from a state, and where it ends. */
  ghost predicate Runs(c: Config, s: State, steps: seq<Step>)
    decreases |steps|
  {
    steps != [] ==> Enabled(c, s, steps[0]) && Runs(c, After(c, s, steps[0]), steps[1..])
  }

  ghost function Final(c: Config, s: State, steps: seq<Step>): State
    requires Runs(c, s, steps)
    decreases |steps|
  {
    if steps == [] then s else Final(c, After(c, s, steps[0]), steps[1..])
  }

  lemma Begin(c: Config, s: State, e: Step, steps: seq<Step>)
    requires Enabled(c, s, e) && Runs(c, After(c, s, e), steps)
    ensures Runs(c, s, [e] + steps) && Final(c, s, [e] + steps) == Final(c, After(c, s, e), steps)
  {
    assert ([e] + steps)[1..] == steps;
  }

  /** How many streams of a run threw between getting their slot and their `try`. */
  function Leaks(steps: seq<Step>): nat {
    if steps == [] then 0 else (if steps[0].StreamLeak? then 1 else 0) + Leaks(steps[1..])
  }

  lemma {:induction false} RunKeeps(c: Config, s: State, steps: seq<Step>)
    requires Runs(c, s, steps) && Inv(c, s)
    ensures Inv(c, Final(c, s, steps)) && Final(c, s, steps).leaked == s.leaked + Leaks(steps)
    decreases |steps|
  {
    hide Inv, Enabled, After;
    if steps != [] {
      StepInv(c, s, steps[0]);
      StepLeaked(c, s, steps[0]);
      RunKeeps(c, After(c, s, steps[0]), steps[1..]);
    }
  }

  lemma StepLeaked(c: Config, s: State, e: Step)
    requires Enabled(c, s, e)
    ensures After(c, s, e).leaked == s.leaked + (if e.StreamLeak? then 1 else 0)
  {
    hide Add, Less, Acquired, Released, Next;
  }

  /** With every slot leaked nobody holds one. */
  lemma NobodyHolds(c: Config, s: State)
    requires Inv(c, s)
    ensures s.leaked <= c.slots
    ensures s.leaked == c.slots ==>
              s.flight == multiset{} && s.streaming == 0 && !s.loop.Granted? && s.sem.current == c.slots
  {
    if s.leaked == c.slots { assert |s.flight| == 0; }
  }

  /** For any number of slots: once all have leaked, no request is ever attempted again,
      whatever is submitted and however long the queue runs on. */
  lemma NeverAttemptedAgain(c: Config, s: State, steps: seq<Step>)
    requires Runs(c, s, steps) && Inv(c, s) && s.leaked == c.slots
    ensures var t := Final(c, s, steps); t.leaked == c.slots && t.flight == multiset{}
  {
    hide Inv;
    RunKeeps(c, s, steps);
    NobodyHolds(c, Final(c, s, steps));
  }

  /** A loop waiting for a slot then waits for ever. */
  lemma StillAcquiring(c: Config, s: State, e: Step)
    requires Inv(c, s) && s.leaked == c.slots && s.loop.Acquiring? && Enabled(c, s, e)
    ensures After(c, s, e).loop == s.loop && After(c, s, e).leaked == c.slots
  {
    NobodyHolds(c, s);
    hide Inv, Add, Less, Acquired, Released, Next;
  }

  lemma {:induction false} DrainBehindTheWaiter(c: Config, s: State) returns (steps: seq<Step>)
    requires Inv(c, s) && s.leaked == c.slots && s.loop.Acquiring?
    ensures Leaks(steps) == 0 && Runs(c, s, steps)
    ensures var t := Final(c, s, steps); Stuck(c, t) && t.loop == s.loop && Inv(c, t)
    decreases Measure(c, s)
  {
    hide Inv, Enabled, After, Measure;
    if Stuck(c, s) {
      steps := [];
    } else {
      var e :| Internal(e) && Enabled(c, s, e);
      StepInv(c, s, e);
      StepDecreases(c, s, e);
      StillAcquiring(c, s, e);
      var rest := DrainBehindTheWaiter(c, After(c, s, e));
      steps := [e] + rest;
      Begin(c, s, e, rest);
      assert steps[1..] == rest;
    }
  }

  lemma AcquireBlocks(c: Config, s: State)
    requires Inv(c, s) && s.leaked == c.slots && (s.loop.InHand? || s.loop.Sleeping?)
    ensures Enabled(c, s, AcquireSlot) && After(c, s, AcquireSlot).loop.Acquiring?
    ensures After(c, s, AcquireSlot).leaked == c.slots
  {
    NobodyHolds(c, s);
  }

  lemma TakeQueued(c: Config, s: State) returns (e: Step)
    requires s.loop.Waiting? && s.heap != multiset{}
    ensures Enabled(c, s, e) && e.Dequeue?
    ensures After(c, s, e).loop.InHand? && After(c, s, e).leaked == s.leaked && After(c, s, e).sem == s.sem
    ensures After(c, s, e).flight == s.flight
  {
    var k :| k in s.heap;
    assert s.heap - multiset{} == s.heap;
    e := Dequeue(multiset{}, Some(k));
  }

  lemma SubmitQueues(c: Config, s: State)
    requires c.maxSize >= 1 && s.heap == multiset{} && (s.loop.Waiting? || s.loop.Stopped?)
    ensures var t := After(c, s, Submit);
            t.loop.Waiting? && t.heap != multiset{} && t.leaked == s.leaked && t.sem == s.sem && t.flight == s.flight
  {
    assert |s.heap| == 0;
    assert |s.tries| in Add(s.heap, |s.tries|);
  }

  /** Some run brings the loop to wait for a slot, a request in its hand. */
  lemma {:induction false} BringToWait(c: Config, s: State, stage: nat) returns (steps: seq<Step>)
    requires Inv(c, s) && s.leaked == c.slots && c.maxSize >= 1
    requires stage >= 1 && (!s.loop.Acquiring? ==> stage >= 2) && (s.loop.Waiting? || s.loop.Stopped? ==> stage >= 3)
    requires (s.loop.Waiting? || s.loop.Stopped?) && s.heap == multiset{} ==> stage >= 4
    ensures Leaks(steps) == 0 && Runs(c, s, steps)
    ensures var t := Final(c, s, steps); Inv(c, t) && t.leaked == c.slots && t.loop.Acquiring?
    decreases stage
  {
    hide Enabled, After;
    NobodyHolds(c, s);
    var e: Step;
    if s.loop.Acquiring? { return []; }
    else if s.loop.InHand? || s.loop.Sleeping? {
      AcquireBlocks(c, s);
      e := AcquireSlot;
    } else if s.heap != multiset{} {
      e := TakeQueued(c, s);
    } else {
      SubmitIsAlwaysPossible(c, s);
      SubmitQueues(c, s);
      e := Submit;
    }
    StepInv(c, s, e);
    hide Inv;
    var rest := BringToWait(c, After(c, s, e), stage - 1);
    steps := [e] + rest;
    Begin(c, s, e, rest);
    assert steps[1..] == rest;
  }

  lemma SubmitIsAlwaysPossible(c: Config, s: State)
    ensures Enabled(c, s, Submit)
  {
  }

  lemma {:induction false} Chain(c: Config, s: State, first: seq<Step>, second: seq<Step>)
    requires Runs(c, s, first) && Runs(c, Final(c, s, first), second)
    ensures Runs(c, s, first + second) && Final(c, s, first + second) == Final(c, Final(c, s, first), second)
    ensures Leaks(first + second) == Leaks(first) + Leaks(second)
    decreases |first|
  {
    hide Enabled, After;
    if first == [] {
      assert first + second == second;
    } else {
      Chain(c, After(c, s, first[0]), first[1..], second);
      assert (first + second)[1..] == first[1..] + second;
    }
  }

  ghost predicate SomeUnsettled(s: State) { exists k: nat :: k < |s.tries| && k !in s.settled }

  /** The queue can come to rest with a request that is not settled and never will be. */
  ghost predicate CanStrand(c: Config, s: State) {
    exists steps :: Leaks(steps) == 0 && Runs(c, s, steps) && Stuck(c, Final(c, s, steps)) && SomeUnsettled(Final(c, s, steps))
  }

  lemma HandUnsettled(c: Config, s: State)
    requires Inv(c, s) && s.loop.Acquiring?
    ensures SomeUnsettled(s)
  {
    var k := s.loop.id;
    assert Count(s, k) <= 1 && Hand(s.loop)[k] == 1;
    assert k < |s.tries| && k !in s.settled;
  }

  /** From any moment of any run, and with no further leak: a request can be left unsettled for
      ever exactly when every slot has leaked. */
  lemma StrandsIff(c: Config, s: State)
    requires Inv(c, s) && c.maxSize >= 1
    ensures CanStrand(c, s) <==> s.leaked == c.slots
  {
    hide Enabled, After, Leaks;
    NobodyHolds(c, s);
    if s.leaked == c.slots {
      var first := BringToWait(c, s, 4);
      var second := DrainBehindTheWaiter(c, Final(c, s, first));
      Chain(c, s, first, second);
      HandUnsettled(c, Final(c, s, first + second));
    }
    if steps :| Leaks(steps) == 0 && Runs(c, s, steps) && Stuck(c, Final(c, s, steps)) && SomeUnsettled(Final(c, s, steps)) {
      RunKeeps(c, s, steps);
      NobodyHolds(c, Final(c, s, steps));
      var k: nat :| k < |Final(c, s, steps).tries| && k !in Final(c, s, steps).settled;
      if s.leaked < c.slots { var e := Progress(c, Final(c, s, steps), k); }
    }
  }

  /** So over runs from the start: the number of streams that threw before their `try` never
      exceeds the slots, and a later request can be stranded exactly when it reaches them. */
  lemma StrandsIffAllSlotsLeaked(c: Config, steps: seq<Step>)
    requires c.slots >= 0 && c.maxSize >= 1 && Runs(c, Start(), steps)
    ensures Leaks(steps) <= c.slots
    ensures CanStrand(c, Final(c, Start(), steps)) <==> Leaks(steps) == c.slots
  {
    hide Inv, CanStrand;
    StartInv(c);
    RunKeeps(c, Start(), steps);
    NobodyHolds(c, Final(c, Start(), steps));
    StrandsIff(c, Final(c, Start(), steps));
  }
}
