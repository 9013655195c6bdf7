// The event bus of src/bus/agent-bus.ts: queued top-level emits, nested emits
// run at once, handler errors contained. A machine that takes one small step at
// a time, with emits from outside arriving at any moment, is proved to do what a
// recursive interpreter does when it serves the top-level emits one by one.

module AgentBus {
  import opened BusTable

  datatype Option<+T> = None | Some(value: T)

  // --------------------------------------------------------------- handlers

  /** What a handler does next; `Emit` awaits the nested event, `guarded` if its failure is caught. */
  datatype Action =
    | Return
    | Throw(nullish: bool)
    | Emit(event: Event, guarded: bool)
    | On(pattern: Pattern, handler: nat)
    | Off(pattern: Pattern, id: nat)
    | Clear

  datatype Call = Call(handler: nat, event: Event)

  /** A handler may decide each of its steps by everything that happened before. */
  type Script = (nat, Event, nat, seq<Call>) -> Action

  datatype World = World(table: Table, trace: seq<Call>)

  const HANDLER_ERROR := Event("system.handler-error", "")

  // ------------------------------------------------- recursive interpreter

  datatype Outcome = Returned | Threw(nullish: bool)

  datatype Siblings = Done(world: World, rejected: bool) | OutOfFuel
  datatype Handled = Ended(world: World, outcome: Outcome) | Exhausted

  /** Serve one event's subscribers in order. A thrown error is reported to the error
      subscribers, whose own errors are swallowed (`sys`), and the next sibling follows;
      throwing null or undefined breaks the report itself and rejects the event. */
  function RunSiblings(act: Script, fuel: nat, e: Event, subs: seq<Sub>, sys: bool, w: World): Siblings
    decreases fuel
  {
    if subs == [] then Done(w, false)
    else if fuel == 0 then OutOfFuel
    else
      match RunHandler(act, fuel - 1, subs[0].handler, e, 0, w.(trace := w.trace + [Call(subs[0].handler, e)]))
      case Exhausted => OutOfFuel
      case Ended(v, outcome) =>
        if outcome.Returned? || sys then RunSiblings(act, fuel - 1, e, subs[1..], sys, v)
        else if outcome.nullish then Done(v, true)
        else
          match RunSiblings(act, fuel - 1, HANDLER_ERROR, Subscribers(v.table, HANDLER_ERROR), true, v)
          case OutOfFuel => OutOfFuel
          case Done(u, _) => RunSiblings(act, fuel - 1, e, subs[1..], sys, u)
  }

  /** One handler from its step `k` on; a nested emit is served on the spot. */
  function RunHandler(act: Script, fuel: nat, h: nat, e: Event, k: nat, w: World): Handled
    decreases fuel
  {
    if fuel == 0 then Exhausted else
      match act(h, e, k, w.trace)
      case Return => Ended(w, Returned)
      case Throw(nullish) => Ended(w, Threw(nullish))
      case On(p, handler) => RunHandler(act, fuel - 1, h, e, k + 1, w.(table := Subscribe(w.table, p, handler)))
      case Off(p, id) => RunHandler(act, fuel - 1, h, e, k + 1, w.(table := Unsubscribe(w.table, p, id)))
      case Clear => RunHandler(act, fuel - 1, h, e, k + 1, w.(table := Cleared(w.table)))
      case Emit(f, guarded) =>
        match RunSiblings(act, fuel - 1, f, Subscribers(w.table, f), false, w)
        case OutOfFuel => Exhausted
        case Done(v, rejected) =>
          if rejected && !guarded then Ended(v, Threw(false))
          else RunHandler(act, fuel - 1, h, e, k + 1, v)
  }

  function RunEvent(act: Script, fuel: nat, e: Event, w: World): Siblings {
    RunSiblings(act, fuel, e, Subscribers(w.table, e), false, w)
  }

  /** The interpreter: top-level emits one after the other, in the order submitted. */
  function Serve(act: Script, fuel: nat, events: seq<Event>, w: World): World {
    if events == [] then w else
      var v := Serve(act, fuel, events[..|events| - 1], w);
      var r := RunEvent(act, fuel, events[|events| - 1], v);
      if r.Done? then r.world else v
  }

  /** With so much fuel every one of the emits is served to its end. */
  predicate Terminates(act: Script, fuel: nat, events: seq<Event>, w: World) {
    events == [] ||
    (var front := events[..|events| - 1];
     Terminates(act, fuel, front, w) && RunEvent(act, fuel, events[|events| - 1], Serve(act, fuel, front, w)).Done?)
  }

  /** Which of the emits reject. */
  function Rejections(act: Script, fuel: nat, events: seq<Event>, w: World): seq<bool> {
    if events == [] then [] else
      var front := events[..|events| - 1];
      Rejections(act, fuel, front, w) + [Rejects(act, fuel, events[|events| - 1], Serve(act, fuel, front, w))]
  }

  predicate Rejects(act: Script, fuel: nat, e: Event, w: World) {
    var r := RunEvent(act, fuel, e, w);
    r.Done? && r.rejected
  }

  // ---------------------------------------------------------------- machine

  /** A suspended call: inside the sibling loop, or inside a handler awaiting or about to act. */
  datatype Frame = Loop(event: Event, rest: seq<Sub>, sys: bool) | Running(handler: nat, event: Event, k: nat, guarded: bool)

  /** Going on, throwing out of a handler, or rejecting an event. */
  datatype Control = Go | Raise(nullish: bool) | Reject

  datatype Core = Core(stack: seq<Frame>, control: Control, world: World)

  /** One step between two suspension points, by the topmost suspended call. */
  function TopStep(act: Script, below: seq<Frame>, top: Frame, control: Control, w: World): Core {
    match top
    case Loop(e, rest, sys) =>
      if control.Raise? then
        if sys then Core(below + [top], Go, w)
        else if control.nullish then Core(below, Reject, w)
        else Core(below + [top] + [Loop(HANDLER_ERROR, Subscribers(w.table, HANDLER_ERROR), true)], Go, w)
      else if rest == [] then Core(below, Go, w)
      else Core(below + [Loop(e, rest[1..], sys)] + [Running(rest[0].handler, e, 0, false)], Go,
                w.(trace := w.trace + [Call(rest[0].handler, e)]))
    case Running(h, e, k, guarded) =>
      if control.Reject? && !guarded then Core(below, Raise(false), w)
      else
        match act(h, e, k, w.trace)
        case Return => Core(below, Go, w)
        case Throw(nullish) => Core(below, Raise(nullish), w)
        case On(p, handler) => Core(below + [Running(h, e, k + 1, false)], Go, w.(table := Subscribe(w.table, p, handler)))
        case Off(p, id) => Core(below + [Running(h, e, k + 1, false)], Go, w.(table := Unsubscribe(w.table, p, id)))
        case Clear => Core(below + [Running(h, e, k + 1, false)], Go, w.(table := Cleared(w.table)))
        case Emit(f, g) => Core(below + [Running(h, e, k + 1, g)] + [Loop(f, Subscribers(w.table, f), false)], Go, w)
  }

  function CoreStep(act: Script, c: Core): Core
    requires c.stack != []
  {
    TopStep(act, c.stack[..|c.stack| - 1], c.stack[|c.stack| - 1], c.control, c.world)
  }

  /** From `c` the machine gets to `d` in `n` steps, its stack staying above `base` until then. */
  predicate Reaches(act: Script, base: nat, c: Core, n: nat, d: Core)
    decreases n
  {
    if n == 0 then c == d
    else |c.stack| > base && Reaches(act, base, CoreStep(act, c), n - 1, d)
  }

  lemma {:induction false} Compose(act: Script, base: nat, c: Core, m: nat, d: Core, low: nat, n: nat, f: Core)
    requires low <= base && Reaches(act, base, c, m, d) && Reaches(act, low, d, n, f)
    ensures Reaches(act, low, c, m + n, f)
    decreases m
  {
    hide CoreStep;
    if m > 0 { Compose(act, base, CoreStep(act, c), m - 1, d, low, n, f); }
  }

  /** One step, then the rest. */
  lemma Then(act: Script, below: seq<Frame>, top: Frame, control: Control, w: World, n: nat, d: Core)
    requires Reaches(act, |below|, TopStep(act, below, top, control, w), n, d)
    ensures Reaches(act, |below|, Core(below + [top], control, w), n + 1, d)
  {
    hide TopStep, Reaches;
    var c := Core(below + [top], control, w);
    assert c.stack[..|c.stack| - 1] == below;
    OneMore(act, |below|, c, n, d);
  }

  lemma OneMore(act: Script, base: nat, c: Core, n: nat, d: Core)
    requires |c.stack| > base && Reaches(act, base, CoreStep(act, c), n, d)
    ensures Reaches(act, base, c, n + 1, d)
  {
    hide CoreStep;
  }

  lemma Here(act: Script, base: nat, c: Core)
    ensures Reaches(act, base, c, 0, c)
  {
  }

  // ------------------------------------------------------------- simulation

  lemma {:induction false} ErrorReportsNeverReject(act: Script, fuel: nat, e: Event, subs: seq<Sub>, w: World)
    requires RunSiblings(act, fuel, e, subs, true, w).Done?
    ensures !RunSiblings(act, fuel, e, subs, true, w).rejected
    decreases fuel
  {
    hide RunHandler;
    if subs != [] {
      var v := RunHandler(act, fuel - 1, subs[0].handler, e, 0, w.(trace := w.trace + [Call(subs[0].handler, e)])).world;
      ErrorReportsNeverReject(act, fuel - 1, e, subs[1..], v);
    }
  }

  function Landed(rejected: bool): Control { if rejected then Reject else Go }
  function Left(o: Outcome): Control { if o.Returned? then Go else Raise(o.nullish) }

  /** The machine serves a list of siblings as the interpreter does. */
  lemma {:induction false} SiblingsSimulated(act: Script, fuel: nat, below: seq<Frame>, e: Event, subs: seq<Sub>, sys: bool, w: World)
    returns (n: nat)
    requires RunSiblings(act, fuel, e, subs, sys, w).Done?
    ensures var d := RunSiblings(act, fuel, e, subs, sys, w);
            Reaches(act, |below|, Core(below + [Loop(e, subs, sys)], Go, w), n, Core(below, Landed(d.rejected), d.world))
    decreases fuel, 1
  {
    hide Reaches, RunHandler;
    var d := RunSiblings(act, fuel, e, subs, sys, w);
    var final := Core(below, Landed(d.rejected), d.world);
    if subs == [] {
      Here(act, |below|, final);
      Then(act, below, Loop(e, subs, sys), Go, w, 0, final);
      n := 1;
    } else {
      var x := w.(trace := w.trace + [Call(subs[0].handler, e)]);
      var loop := below + [Loop(e, subs[1..], sys)];
      var r := RunHandler(act, fuel - 1, subs[0].handler, e, 0, x);
      var m := HandlerSimulated(act, fuel - 1, loop, subs[0].handler, e, 0, false, Go, x);
      var k := AfterHandler(act, fuel, below, e, subs, sys, w, r.world, r.outcome);
      Compose(act, |loop|, Core(loop + [Running(subs[0].handler, e, 0, false)], Go, x), m,
              Core(loop, Left(r.outcome), r.world), |below|, k, final);
      Then(act, below, Loop(e, subs, sys), Go, w, m + k, final);
      n := m + k + 1;
    }
  }

  /** What follows one sibling's handler: the next sibling, an error report first, or rejection. */
  lemma {:induction false} AfterHandler(act: Script, fuel: nat, below: seq<Frame>, e: Event, subs: seq<Sub>, sys: bool, w: World,
                                        v: World, o: Outcome)
    returns (n: nat)
    requires subs != [] && RunSiblings(act, fuel, e, subs, sys, w).Done?
    requires RunHandler(act, fuel - 1, subs[0].handler, e, 0, w.(trace := w.trace + [Call(subs[0].handler, e)])) == Ended(v, o)
    ensures var d := RunSiblings(act, fuel, e, subs, sys, w);
            Reaches(act, |below|, Core(below + [Loop(e, subs[1..], sys)], Left(o), v), n, Core(below, Landed(d.rejected), d.world))
    decreases fuel, 0
  {
    hide Reaches, RunHandler;
    var d := RunSiblings(act, fuel, e, subs, sys, w);
    var final := Core(below, Landed(d.rejected), d.world);
    var top := Loop(e, subs[1..], sys);
    if o.Returned? {
      n := SiblingsSimulated(act, fuel - 1, below, e, subs[1..], sys, v);
    } else if sys {
      n := SiblingsSimulated(act, fuel - 1, below, e, subs[1..], sys, v);
      Then(act, below, top, Left(o), v, n, final);
      n := n + 1;
    } else if o.nullish {
      Here(act, |below|, final);
      Then(act, below, top, Left(o), v, 0, final);
      n := 1;
    } else {
      var errors := Subscribers(v.table, HANDLER_ERROR);
      var u := RunSiblings(act, fuel - 1, HANDLER_ERROR, errors, true, v).world;
      ErrorReportsNeverReject(act, fuel - 1, HANDLER_ERROR, errors, v);
      var loop := below + [top];
      var m := SiblingsSimulated(act, fuel - 1, loop, HANDLER_ERROR, errors, true, v);
      var k := SiblingsSimulated(act, fuel - 1, below, e, subs[1..], sys, u);
      Compose(act, |loop|, Core(loop + [Loop(HANDLER_ERROR, errors, true)], Go, v), m, Core(loop, Go, u), |below|, k, final);
      Then(act, below, top, Left(o), v, m + k, final);
      n := m + k + 1;
    }
  }

  /** The machine runs a handler from any of its steps as the interpreter does. */
  lemma {:induction false} HandlerSimulated(act: Script, fuel: nat, below: seq<Frame>, h: nat, e: Event, k: nat, guarded: bool,
                                            control: Control, w: World)
    returns (n: nat)
    requires RunHandler(act, fuel, h, e, k, w).Ended?
    requires control == Go || (control == Reject && guarded)
    ensures var d := RunHandler(act, fuel, h, e, k, w);
            Reaches(act, |below|, Core(below + [Running(h, e, k, guarded)], control, w), n, Core(below, Left(d.outcome), d.world))
    decreases fuel, 1
  {
    hide Reaches, RunSiblings;
    var d := RunHandler(act, fuel, h, e, k, w);
    var final := Core(below, Left(d.outcome), d.world);
    var top := Running(h, e, k, guarded);
    match act(h, e, k, w.trace)
    case Return =>
      Here(act, |below|, final);
      Then(act, below, top, control, w, 0, final);
      n := 1;
    case Throw(nullish) =>
      Here(act, |below|, final);
      Then(act, below, top, control, w, 0, final);
      n := 1;
    case On(p, handler) =>
      n := HandlerSimulated(act, fuel - 1, below, h, e, k + 1, false, Go, w.(table := Subscribe(w.table, p, handler)));
      Then(act, below, top, control, w, n, final);
      n := n + 1;
    case Off(p, id) =>
      n := HandlerSimulated(act, fuel - 1, below, h, e, k + 1, false, Go, w.(table := Unsubscribe(w.table, p, id)));
      Then(act, below, top, control, w, n, final);
      n := n + 1;
    case Clear =>
      n := HandlerSimulated(act, fuel - 1, below, h, e, k + 1, false, Go, w.(table := Cleared(w.table)));
      Then(act, below, top, control, w, n, final);
      n := n + 1;
    case Emit(f, g) =>
      var r := RunSiblings(act, fuel - 1, f, Subscribers(w.table, f), false, w);
      var loop := below + [Running(h, e, k + 1, g)];
      var m := SiblingsSimulated(act, fuel - 1, loop, f, Subscribers(w.table, f), false, w);
      var j;
      if r.rejected && !g {
        Here(act, |below|, final);
        Then(act, below, Running(h, e, k + 1, g), Reject, r.world, 0, final);
        j := 1;
      } else {
        j := HandlerSimulated(act, fuel - 1, below, h, e, k + 1, g, Landed(r.rejected), r.world);
      }
      Compose(act, |loop|, Core(loop + [Loop(f, Subscribers(w.table, f), false)], Go, w), m,
              Core(loop, Landed(r.rejected), r.world), |below|, j, final);
      Then(act, below, top, control, w, m + j, final);
      n := m + j + 1;
  }

  // -------------------------------------------------------------------- bus

  /** The bus as the outside sees it; `results` says of each completed emit whether it rejected. */
  datatype Bus = Bus(queue: seq<Event>, draining: bool, busy: bool, core: Core, results: seq<bool>)

  function Idle(w: World): Bus { Bus([], false, false, Core([], Go, w), []) }

  /** A top-level emit: queued, and drained from now on. */
  function Submit(b: Bus, e: Event): Bus { b.(queue := b.queue + [e], draining := true) }

  /** The drain loop's next step. */
  function Tick(act: Script, b: Bus): Bus
    requires b.draining && (b.busy ==> b.core.stack != [])
  {
    if b.busy then
      var c := CoreStep(act, b.core);
      if c.stack == [] then b.(busy := false, core := Core([], Go, c.world), results := b.results + [c.control == Reject])
      else b.(core := c)
    else if b.queue == [] then b.(draining := false)
    else
      var e := b.queue[0];
      b.(busy := true, queue := b.queue[1..],
         core := Core([Loop(e, Subscribers(b.core.world.table, e), false)], Go, b.core.world))
  }

  lemma {:induction false} PrefixTerminates(act: Script, fuel: nat, events: seq<Event>, w: World, m: nat)
    requires m <= |events| && Terminates(act, fuel, events, w)
    ensures Terminates(act, fuel, events[..m], w)
    decreases |events| - m
  {
    hide RunEvent, Serve;
    if m == |events| {
      assert events[..m] == events;
    } else {
      PrefixTerminates(act, fuel, events, w, m + 1);
      assert events[..m + 1][..m] == events[..m];
    }
  }

  lemma ServeNext(act: Script, fuel: nat, events: seq<Event>, w: World, m: nat)
    requires m < |events| && Terminates(act, fuel, events, w)
    ensures var v := Serve(act, fuel, events[..m], w);
            && RunEvent(act, fuel, events[m], v) == Done(Serve(act, fuel, events[..m + 1], w), Rejects(act, fuel, events[m], v))
            && Rejections(act, fuel, events[..m + 1], w) ==
                 Rejections(act, fuel, events[..m], w) + [Rejects(act, fuel, events[m], v)]
  {
    hide RunEvent;
    PrefixTerminates(act, fuel, events, w, m + 1);
    assert events[..m + 1][..m] == events[..m];
  }

  /** Serving the event at hand takes `n` more steps and ends as the interpreter's does. */
  ghost predicate EndsIn(act: Script, c: Core, n: nat, w: World, rejected: bool) {
    c.stack != [] && Reaches(act, 0, c, n, Core([], Landed(rejected), w))
  }

  ghost predicate Serving(act: Script, c: Core, w: World, rejected: bool) {
    exists n: nat :: EndsIn(act, c, n, w, rejected)
  }

  /** The bus after `sent` of the emits `all` were submitted, the first |results| of them done. */
  ghost predicate Tracks(act: Script, fuel: nat, w0: World, all: seq<Event>, sent: nat, b: Bus) {
    var m := |b.results|;
    && m <= sent <= |all|
    && (b.queue != [] || b.busy ==> b.draining)
    && b.results == Rejections(act, fuel, all[..m], w0)
    && (if b.busy then TracksBusy(act, fuel, w0, all, sent, b, m)
        else b.queue == all[m..sent] && b.core == Core([], Go, Serve(act, fuel, all[..m], w0)))
  }

  ghost predicate TracksBusy(act: Script, fuel: nat, w0: World, all: seq<Event>, sent: nat, b: Bus, m: nat) {
    && m < sent <= |all| && b.queue == all[m + 1..sent]
    && Serving(act, b.core, Serve(act, fuel, all[..m + 1], w0), Rejects(act, fuel, all[m], Serve(act, fuel, all[..m], w0)))
  }

  lemma SubmitTracks(act: Script, fuel: nat, w0: World, all: seq<Event>, sent: nat, b: Bus)
    requires Tracks(act, fuel, w0, all, sent, b) && sent < |all|
    ensures Tracks(act, fuel, w0, all, sent + 1, Submit(b, all[sent]))
  {
    hide Serve, Rejections, RunEvent, Serving, Rejects;
    var m := |b.results|;
    assert all[m..sent + 1] == all[m..sent] + [all[sent]];
    if b.busy { assert all[m + 1..sent + 1] == all[m + 1..sent] + [all[sent]]; }
  }

  lemma ServingStep(act: Script, c: Core, w: World, rejected: bool)
    requires Serving(act, c, w, rejected)
    ensures c.stack != []
    ensures var d := CoreStep(act, c); if d.stack == [] then d == Core([], Landed(rejected), w) else Serving(act, d, w, rejected)
  {
    hide CoreStep;
    var n: nat :| EndsIn(act, c, n, w, rejected);
    EndsStep(act, c, n, w, rejected);
  }

  lemma EndsStep(act: Script, c: Core, n: nat, w: World, rejected: bool)
    requires EndsIn(act, c, n, w, rejected)
    ensures n > 0
    ensures var d := CoreStep(act, c); if d.stack == [] then d == Core([], Landed(rejected), w) else EndsIn(act, d, n - 1, w, rejected)
  {
    hide CoreStep;
    var d := CoreStep(act, c);
    assert n > 0;
    assert Reaches(act, 0, d, n - 1, Core([], Landed(rejected), w));
    if d.stack == [] && n > 1 { assert false; }
  }

  lemma EventStarts(act: Script, fuel: nat, e: Event, w: World)
    requires RunEvent(act, fuel, e, w).Done?
    ensures Serving(act, Core([Loop(e, Subscribers(w.table, e), false)], Go, w),
                    RunEvent(act, fuel, e, w).world, RunEvent(act, fuel, e, w).rejected)
  {
    hide RunSiblings, Reaches;
    var n := SiblingsSimulated(act, fuel, [], e, Subscribers(w.table, e), false, w);
    assert [] + [Loop(e, Subscribers(w.table, e), false)] == [Loop(e, Subscribers(w.table, e), false)];
    assert EndsIn(act, Core([Loop(e, Subscribers(w.table, e), false)], Go, w), n,
                  RunEvent(act, fuel, e, w).world, RunEvent(act, fuel, e, w).rejected);
  }

  lemma TickTracks(act: Script, fuel: nat, w0: World, all: seq<Event>, sent: nat, b: Bus)
    requires Terminates(act, fuel, all, w0) && Tracks(act, fuel, w0, all, sent, b) && b.draining
    ensures b.busy ==> b.core.stack != []
    ensures Tracks(act, fuel, w0, all, sent, Tick(act, b))
  {
    hide Serve, Rejections, RunEvent, CoreStep, Serving, Rejects;
    var m := |b.results|;
    if b.busy {
      ServeNext(act, fuel, all, w0, m);
      ServingStep(act, b.core, Serve(act, fuel, all[..m + 1], w0), Rejects(act, fuel, all[m], Serve(act, fuel, all[..m], w0)));
    } else if b.queue != [] {
      ServeNext(act, fuel, all, w0, m);
      EventStarts(act, fuel, all[m], b.core.world);
      assert all[m..sent][1..] == all[m + 1..sent];
    }
  }

  /** A schedule: `Some(e)` submits, `None` lets the drain loop, if it runs, take a step. */
  function Run(act: Script, b: Bus, schedule: seq<Option<Event>>): Bus {
    if schedule == [] then b else
      var x := Run(act, b, schedule[..|schedule| - 1]);
      match schedule[|schedule| - 1]
      case Some(e) => Submit(x, e)
      case None => if !x.draining || (x.busy && x.core.stack == []) then x else Tick(act, x)
  }

  function Submitted(schedule: seq<Option<Event>>): seq<Event> {
    if schedule == [] then [] else
      Submitted(schedule[..|schedule| - 1])
      + (if schedule[|schedule| - 1].Some? then [schedule[|schedule| - 1].value] else [])
  }

  lemma StartTracks(act: Script, fuel: nat, w0: World, all: seq<Event>)
    ensures Tracks(act, fuel, w0, all, 0, Idle(w0))
  {
    hide RunEvent;
    assert all[..0] == [] && all[0..0] == [];
  }

  lemma {:induction false} RunTracks(act: Script, fuel: nat, w0: World, all: seq<Event>, schedule: seq<Option<Event>>)
    requires Terminates(act, fuel, all, w0) && Submitted(schedule) <= all
    ensures Tracks(act, fuel, w0, all, |Submitted(schedule)|, Run(act, Idle(w0), schedule))
    decreases |schedule|
  {
    hide Tracks, Serve, Terminates;
    if schedule == [] {
      StartTracks(act, fuel, w0, all);
    } else {
      var front, step := schedule[..|schedule| - 1], schedule[|schedule| - 1];
      var sent := |Submitted(front)|;
      assert Submitted(front) <= Submitted(schedule) <= all;
      RunTracks(act, fuel, w0, all, front);
      var x := Run(act, Idle(w0), front);
      match step
      case Some(e) =>
        assert e == Submitted(schedule)[sent] == all[sent];
        SubmitTracks(act, fuel, w0, all, sent, x);
      case None =>
        if x.draining { TickTracks(act, fuel, w0, all, sent, x); }
    }
  }

  /** However emits arrive between the steps of slow handlers: nothing queued is ever left
      without a drain loop, and once it rests, the calls made and the results handed back
      are those of the interpreter run over the top-level emits in submission order. */
  lemma OrderRefinesInterpreter(act: Script, fuel: nat, w0: World, schedule: seq<Option<Event>>)
    requires Terminates(act, fuel, Submitted(schedule), w0)
    ensures var all, b := Submitted(schedule), Run(act, Idle(w0), schedule);
            && (b.queue != [] ==> b.draining)
            && (!b.draining ==> b.core.world == Serve(act, fuel, all, w0) && b.results == Rejections(act, fuel, all, w0))
            && (!b.busy ==> |b.results| <= |all| && b.core.world == Serve(act, fuel, all[..|b.results|], w0))
  {
    hide Serve, Rejections, Run;
    var all := Submitted(schedule);
    RunTracks(act, fuel, w0, all, schedule);
    var b := Run(act, Idle(w0), schedule);
    if !b.draining {
      assert all[|b.results|..|all|] == [];
      assert all[..|b.results|] == all;
    }
  }

  function Rest(k: nat): seq<Option<Event>> { seq(k, _ => None) }

  /** Every emit completes: with nothing more submitted, some number of drain steps brings
      the bus to rest, each emit with its result. */
  lemma EveryEmitCompletes(act: Script, fuel: nat, w0: World, schedule: seq<Option<Event>>) returns (k: nat)
    requires Terminates(act, fuel, Submitted(schedule), w0)
    ensures var b := Run(act, Idle(w0), schedule + Rest(k));
            !b.draining && |b.results| == |Submitted(schedule)|
  {
    hide Terminates, Serve, Rejections, Run, Submitted;
    var all := Submitted(schedule);
    RunTracks(act, fuel, w0, all, schedule);
    var b := Run(act, Idle(w0), schedule);
    var n: nat := 0;
    if b.busy {
      var m := |b.results|;
      n :| EndsIn(act, b.core, n, Serve(act, fuel, all[..m + 1], w0), Rejects(act, fuel, all[m], Serve(act, fuel, all[..m], w0)));
    }
    k := DrainsFrom(act, fuel, w0, all, schedule, n);
    RunTracksAll(act, fuel, w0, all, schedule, k);
    var c := Run(act, Idle(w0), schedule + Rest(k));
    assert |all[|c.results|..|all|]| == 0;
  }

  lemma {:induction false} RunTracksAll(act: Script, fuel: nat, w0: World, all: seq<Event>, schedule: seq<Option<Event>>, k: nat)
    requires Terminates(act, fuel, all, w0) && all == Submitted(schedule)
    ensures Submitted(schedule + Rest(k)) == all
    ensures Tracks(act, fuel, w0, all, |all|, Run(act, Idle(w0), schedule + Rest(k)))
  {
    hide Terminates, Tracks, Run;
    RestSubmits(schedule, k);
    RunTracks(act, fuel, w0, all, schedule + Rest(k));
  }

  lemma {:induction false} RestSubmits(schedule: seq<Option<Event>>, k: nat)
    ensures Submitted(schedule + Rest(k)) == Submitted(schedule)
  {
    if k == 0 {
      assert schedule + Rest(0) == schedule;
    } else {
      RestSubmits(schedule, k - 1);
      RestSnoc(schedule, k - 1);
    }
  }

  lemma RestSnoc(schedule: seq<Option<Event>>, k: nat)
    ensures (schedule + Rest(k + 1))[..|schedule + Rest(k + 1)| - 1] == schedule + Rest(k)
    ensures (schedule + Rest(k + 1))[|schedule + Rest(k + 1)| - 1] == None
    ensures (schedule + [None]) + Rest(k) == schedule + Rest(k + 1)
  {
  }

  /** `n` bounds the steps the event at hand still takes. */
  lemma {:induction false} DrainsFrom(act: Script, fuel: nat, w0: World, all: seq<Event>, schedule: seq<Option<Event>>, n: nat)
    returns (k: nat)
    requires Terminates(act, fuel, all, w0) && all == Submitted(schedule)
    requires var b := Run(act, Idle(w0), schedule);
             && |b.results| <= |all|
             && (b.busy ==>
                   (|b.results| < |all| &&
                    EndsIn(act, b.core, n, Serve(act, fuel, all[..|b.results| + 1], w0),
                           Rejects(act, fuel, all[|b.results|], Serve(act, fuel, all[..|b.results|], w0)))))
    ensures !Run(act, Idle(w0), schedule + Rest(k)).draining
    decreases |all| - |Run(act, Idle(w0), schedule).results|, if Run(act, Idle(w0), schedule).busy then 0 else 1, n
  {
    hide Terminates, Serve, Rejections, Submitted, CoreStep, EndsIn, Rejects, RunEvent;
    var b := Run(act, Idle(w0), schedule);
    if !b.draining {
      assert schedule + Rest(0) == schedule;
      return 0;
    }
    RunTracks(act, fuel, w0, all, schedule);
    var next := schedule + [None];
    assert next[..|next| - 1] == schedule;
    RestSubmits(schedule, 1);
    assert schedule + Rest(1) == next;
    var m := |b.results|;
    var left: nat := n;
    if b.busy {
      EndsStep(act, b.core, n, Serve(act, fuel, all[..m + 1], w0), Rejects(act, fuel, all[m], Serve(act, fuel, all[..m], w0)));
      EndsBusy(act, b.core, n, Serve(act, fuel, all[..m + 1], w0), Rejects(act, fuel, all[m], Serve(act, fuel, all[..m], w0)));
      left := n - 1;
    } else if b.queue != [] {
      ServeNext(act, fuel, all, w0, m);
      EventStarts(act, fuel, all[m], b.core.world);
      left :| EndsIn(act, Tick(act, b).core, left, Serve(act, fuel, all[..m + 1], w0),
                     Rejects(act, fuel, all[m], Serve(act, fuel, all[..m], w0)));
    } else {
      k := 1;
      return;
    }
    RunTracks(act, fuel, w0, all, next);
    var j := DrainsFrom(act, fuel, w0, all, next, left);
    RestSnoc(schedule, j);
    k := j + 1;
  }

  lemma EndsBusy(act: Script, c: Core, n: nat, w: World, rejected: bool)
    requires EndsIn(act, c, n, w, rejected)
    ensures c.stack != []
  {
  }

  // ------------------------------------------------------------ containment

  lemma {:induction false} SiblingsGrow(act: Script, fuel: nat, e: Event, subs: seq<Sub>, sys: bool, w: World)
    requires RunSiblings(act, fuel, e, subs, sys, w).Done?
    ensures w.trace <= RunSiblings(act, fuel, e, subs, sys, w).world.trace
    decreases fuel, 1
  {
    hide RunHandler;
    if subs != [] {
      var x := w.(trace := w.trace + [Call(subs[0].handler, e)]);
      HandlerGrows(act, fuel - 1, subs[0].handler, e, 0, x);
      var r := RunHandler(act, fuel - 1, subs[0].handler, e, 0, x);
      if r.outcome.Returned? || sys {
        SiblingsGrow(act, fuel - 1, e, subs[1..], sys, r.world);
      } else if !r.outcome.nullish {
        var errors := Subscribers(r.world.table, HANDLER_ERROR);
        SiblingsGrow(act, fuel - 1, HANDLER_ERROR, errors, true, r.world);
        SiblingsGrow(act, fuel - 1, e, subs[1..], sys, RunSiblings(act, fuel - 1, HANDLER_ERROR, errors, true, r.world).world);
      }
    }
  }

  lemma {:induction false} HandlerGrows(act: Script, fuel: nat, h: nat, e: Event, k: nat, w: World)
    requires RunHandler(act, fuel, h, e, k, w).Ended?
    ensures w.trace <= RunHandler(act, fuel, h, e, k, w).world.trace
    decreases fuel, 1
  {
    hide RunSiblings;
    match act(h, e, k, w.trace)
    case Return =>
    case Throw(_) =>
    case On(p, handler) => HandlerGrows(act, fuel - 1, h, e, k + 1, w.(table := Subscribe(w.table, p, handler)));
    case Off(p, id) => HandlerGrows(act, fuel - 1, h, e, k + 1, w.(table := Unsubscribe(w.table, p, id)));
    case Clear => HandlerGrows(act, fuel - 1, h, e, k + 1, w.(table := Cleared(w.table)));
    case Emit(f, g) =>
      SiblingsGrow(act, fuel - 1, f, Subscribers(w.table, f), false, w);
      var r := RunSiblings(act, fuel - 1, f, Subscribers(w.table, f), false, w);
      if !r.rejected || g { HandlerGrows(act, fuel - 1, h, e, k + 1, r.world); }
  }

  /** How the subscriber at `i` went on from the moment it was called. */
  function Ran(act: Script, fuel: nat, e: Event, subs: seq<Sub>, starts: seq<World>, i: nat): Handled
    requires i < |starts| <= |subs| && i < fuel
  {
    RunHandler(act, fuel - 1 - i, subs[i].handler, e, 0, starts[i])
  }

  /** The subscriber at `i` returned, or threw something that could be reported. */
  predicate LetsNextRun(act: Script, fuel: nat, e: Event, subs: seq<Sub>, sys: bool, starts: seq<World>, i: nat)
    requires i < |starts| <= |subs| && i < fuel
  {
    var r := Ran(act, fuel, e, subs, starts, i);
    r.Ended? && (sys || r.outcome != Threw(true))
  }

  /** In `x` the subscriber has just been called with the event, later than `w` and before `v`. */
  predicate Begins(e: Event, s: Sub, w: World, x: World, v: World) {
    |w.trace| < |x.trace| && x.trace <= v.trace && x.trace[|x.trace| - 1] == Call(s.handler, e)
  }

  ghost predicate AllLetNextRun(act: Script, fuel: nat, e: Event, subs: seq<Sub>, sys: bool, starts: seq<World>)
    requires |starts| <= |subs| && |starts| <= fuel
  {
    forall i: nat :: i + 1 < |starts| ==> LetsNextRun(act, fuel, e, subs, sys, starts, i)
  }

  /** Each was called with the event, in order. */
  ghost predicate BeginInOrder(e: Event, subs: seq<Sub>, w: World, starts: seq<World>, v: World)
    requires |starts| <= |subs|
  {
    && (forall i: nat :: i < |starts| ==> Begins(e, subs[i], w, starts[i], v))
    && (forall i: nat, j: nat :: i < j < |starts| ==> |starts[i].trace| < |starts[j].trace|)
  }

  /** The subscribers called are the first ones, in order: `starts` holds the world each began
      in. They are all of them unless the event rejects, and it rejects exactly when the last
      one called threw null or undefined, which no earlier one did. */
  lemma {:induction false} SkipsOnlyAfterNullish(act: Script, fuel: nat, e: Event, subs: seq<Sub>, sys: bool, w: World)
    returns (starts: seq<World>)
    requires RunSiblings(act, fuel, e, subs, sys, w).Done?
    ensures |starts| <= |subs| && |starts| <= fuel
    ensures var d := RunSiblings(act, fuel, e, subs, sys, w);
            && (d.rejected || |starts| == |subs|)
            && (d.rejected <==> !sys && starts != []
                                && Ran(act, fuel, e, subs, starts, |starts| - 1) == Ended(d.world, Threw(true)))
            && AllLetNextRun(act, fuel, e, subs, sys, starts) && BeginInOrder(e, subs, w, starts, d.world)
    decreases fuel
  {
    hide RunHandler, RunSiblings, LetsNextRun, AllLetNextRun, BeginInOrder;
    Nobody(act, fuel, e, subs, sys, w);
    if subs == [] {
      SiblingsOfNobody(act, fuel, e, sys, w);
      return [];
    }
    var x, r, u := FirstSibling(act, fuel, e, subs, sys, w);
    JustOne(act, fuel, e, subs, sys, w, x, RunSiblings(act, fuel, e, subs, sys, w).world);
    if !sys && r.outcome == Threw(true) { return [x]; }
    SiblingsGrow(act, fuel - 1, e, subs[1..], sys, u);
    var rest := SkipsOnlyAfterNullish(act, fuel - 1, e, subs[1..], sys, u);
    starts := [x] + rest;
    OneEarlier(act, fuel - 1, e, subs[0], subs[1..], sys, w, x, u, RunSiblings(act, fuel, e, subs, sys, w).world, rest);
    assert [subs[0]] + subs[1..] == subs;
    if rest != [] { RanEarlier(act, fuel - 1, e, subs[0], subs[1..], x, rest, |rest| - 1); }
  }

  lemma SiblingsOfNobody(act: Script, fuel: nat, e: Event, sys: bool, w: World)
    ensures RunSiblings(act, fuel, e, [], sys, w) == Done(w, false)
  {
  }

  /** The first subscriber runs; unless it throws null or undefined, the others follow, after its
      error, if any, has been reported. */
  lemma FirstSibling(act: Script, fuel: nat, e: Event, subs: seq<Sub>, sys: bool, w: World)
    returns (x: World, r: Handled, u: World)
    requires subs != [] && RunSiblings(act, fuel, e, subs, sys, w).Done?
    ensures fuel > 0 && x == w.(trace := w.trace + [Call(subs[0].handler, e)])
    ensures r == RunHandler(act, fuel - 1, subs[0].handler, e, 0, x) && r.Ended? && x.trace <= r.world.trace <= u.trace
    ensures RunSiblings(act, fuel, e, subs, sys, w) ==
            if !sys && r.outcome == Threw(true) then Done(r.world, true)
            else RunSiblings(act, fuel - 1, e, subs[1..], sys, u)
  {
    hide RunHandler;
    x := w.(trace := w.trace + [Call(subs[0].handler, e)]);
    r := RunHandler(act, fuel - 1, subs[0].handler, e, 0, x);
    HandlerGrows(act, fuel - 1, subs[0].handler, e, 0, x);
    u := r.world;
    if !sys && r.outcome == Threw(false) {
      var errors := Subscribers(r.world.table, HANDLER_ERROR);
      SiblingsGrow(act, fuel - 1, HANDLER_ERROR, errors, true, r.world);
      u := RunSiblings(act, fuel - 1, HANDLER_ERROR, errors, true, r.world).world;
    }
  }

  lemma Nobody(act: Script, fuel: nat, e: Event, subs: seq<Sub>, sys: bool, w: World)
    ensures AllLetNextRun(act, fuel, e, subs, sys, []) && BeginInOrder(e, subs, w, [], w)
  {
  }

  lemma JustOne(act: Script, fuel: nat, e: Event, subs: seq<Sub>, sys: bool, w: World, x: World, v: World)
    requires subs != [] && fuel > 0
    ensures AllLetNextRun(act, fuel, e, subs, sys, [x])
    ensures Begins(e, subs[0], w, x, v) ==> BeginInOrder(e, subs, w, [x], v)
  {
  }

  lemma RanEarlier(act: Script, fuel: nat, e: Event, s: Sub, subs: seq<Sub>, x: World, rest: seq<World>, i: nat)
    requires i < |rest| <= |subs| && i < fuel
    ensures Ran(act, fuel + 1, e, [s] + subs, [x] + rest, i + 1) == Ran(act, fuel, e, subs, rest, i)
  {
    hide RunHandler;
  }

  /** One more subscriber in front of those already accounted for. */
  lemma OneEarlier(act: Script, fuel: nat, e: Event, s: Sub, subs: seq<Sub>, sys: bool,
                   w: World, x: World, u: World, v: World, rest: seq<World>)
    requires |rest| <= |subs| && |rest| <= fuel
    requires Begins(e, s, w, x, v) && |x.trace| <= |u.trace|
    requires var r := RunHandler(act, fuel, s.handler, e, 0, x); rest != [] ==> r.Ended? && (sys || r.outcome != Threw(true))
    requires AllLetNextRun(act, fuel, e, subs, sys, rest) && BeginInOrder(e, subs, u, rest, v)
    ensures AllLetNextRun(act, fuel + 1, e, [s] + subs, sys, [x] + rest) && BeginInOrder(e, [s] + subs, w, [x] + rest, v)
  {
    hide RunHandler;
    var starts, all := [x] + rest, [s] + subs;
    var more := fuel + 1;
    forall i: nat | i + 1 < |starts| ensures LetsNextRun(act, more, e, all, sys, starts, i) {
      if i > 0 {
        assert LetsNextRun(act, fuel, e, subs, sys, rest, i - 1);
        RanEarlier(act, fuel, e, s, subs, x, rest, i - 1);
      }
    }
    forall i: nat | i < |starts| ensures Begins(e, all[i], w, starts[i], v) {
      if i > 0 { assert Begins(e, subs[i - 1], u, rest[i - 1], v); }
    }
  }

  // ---------------------------------------------------------- error reports

  /** The world a subscriber is called in: the one its predecessor left. */
  function Before(w: World, afters: seq<World>, k: nat): World
    requires k <= |afters|
  {
    if k == 0 then w else afters[k - 1]
  }

  /** Called with the event in `w`, the subscriber begins in `x` and leaves `v`. */
  predicate Runs(act: Script, fuel: nat, e: Event, s: Sub, w: World, x: World, v: World) {
    fuel > 0 && x == w.(trace := w.trace + [Call(s.handler, e)])
    && var r := RunHandler(act, fuel - 1, s.handler, e, 0, x); r.Ended? && r.world == v
  }

  /** Every one of them is called once, in order, and nothing else happens. */
  ghost predicate AllRun(act: Script, fuel: nat, e: Event, subs: seq<Sub>, w: World,
                         starts: seq<World>, afters: seq<World>, u: World) {
    && |starts| == |afters| == |subs| <= fuel && u == Before(w, afters, |afters|)
    && forall k: nat :: k < |subs| ==> Runs(act, fuel - k, e, subs[k], Before(w, afters, k), starts[k], afters[k])
  }

  /** Every subscriber found for an error event in `v` is called with it, and `u` is what they leave. */
  ghost predicate Reported(act: Script, fuel: nat, v: World, u: World) {
    exists starts, afters :: AllRun(act, fuel, HANDLER_ERROR, Subscribers(v.table, HANDLER_ERROR), v, starts, afters, u)
  }

  /** A subscriber is called in `w` and the next one in `u`: with what the first left, or, when it
      threw an error and is not itself a report's, with what the reports of that error left. */
  ghost predicate Served(act: Script, fuel: nat, e: Event, s: Sub, sys: bool, w: World, x: World, u: World) {
    fuel > 0 &&
    var r := RunHandler(act, fuel - 1, s.handler, e, 0, x);
    && r.Ended? && Runs(act, fuel, e, s, w, x, r.world)
    && if !sys && r.outcome == Threw(false) then Reported(act, fuel - 1, r.world, u) else u == r.world
  }

  lemma {:induction false} ReportsInTurn(act: Script, fuel: nat, e: Event, subs: seq<Sub>, w: World)
    returns (starts: seq<World>, afters: seq<World>)
    requires RunSiblings(act, fuel, e, subs, true, w).Done?
    ensures AllRun(act, fuel, e, subs, w, starts, afters, RunSiblings(act, fuel, e, subs, true, w).world)
    decreases fuel
  {
    hide RunHandler;
    starts, afters := [], [];
    if subs != [] {
      var x := w.(trace := w.trace + [Call(subs[0].handler, e)]);
      var v := RunHandler(act, fuel - 1, subs[0].handler, e, 0, x).world;
      var moreStarts, moreAfters := ReportsInTurn(act, fuel - 1, e, subs[1..], v);
      starts, afters := [x] + moreStarts, [v] + moreAfters;
      forall k: nat | k < |subs| ensures Runs(act, fuel - k, e, subs[k], Before(w, afters, k), starts[k], afters[k]) {
        if k > 0 {
          assert Before(w, afters, k) == Before(v, moreAfters, k - 1);
          assert Runs(act, fuel - 1 - (k - 1), e, subs[1..][k - 1], Before(v, moreAfters, k - 1),
                      moreStarts[k - 1], moreAfters[k - 1]);
        }
      }
    }
  }

  /** Errors are reported: an event's subscribers are called one after the other, and between one
      that throws an error and the next, every subscriber of "system.handler-error" is called once,
      in order; nothing else happens between them. */
  lemma {:induction false} ServedInTurn(act: Script, fuel: nat, e: Event, subs: seq<Sub>, sys: bool, w: World)
    returns (starts: seq<World>, nexts: seq<World>)
    requires RunSiblings(act, fuel, e, subs, sys, w).Done?
    ensures |starts| == |nexts| <= |subs| && |starts| <= fuel
    ensures var d := RunSiblings(act, fuel, e, subs, sys, w);
            (!d.rejected ==> |starts| == |subs|) && d.world == Before(w, nexts, |nexts|)
    ensures forall k: nat :: k < |starts| ==> Served(act, fuel - k, e, subs[k], sys, Before(w, nexts, k), starts[k], nexts[k])
    decreases fuel
  {
    hide RunHandler, RunSiblings, Served;
    starts, nexts := [], [];
    if subs == [] {
      SiblingsOfNobody(act, fuel, e, sys, w);
    } else {
      var x, u, stops := FirstServed(act, fuel, e, subs, sys, w);
      if stops { return [x], [u]; }
      var moreStarts, moreNexts := ServedInTurn(act, fuel - 1, e, subs[1..], sys, u);
      starts, nexts := [x] + moreStarts, [u] + moreNexts;
      forall k: nat | k < |starts| ensures Served(act, fuel - k, e, subs[k], sys, Before(w, nexts, k), starts[k], nexts[k]) {
        if k > 0 {
          assert Before(w, nexts, k) == Before(u, moreNexts, k - 1);
          assert Served(act, fuel - 1 - (k - 1), e, subs[1..][k - 1], sys, Before(u, moreNexts, k - 1),
                        moreStarts[k - 1], moreNexts[k - 1]);
        }
      }
    }
  }

  lemma FirstServed(act: Script, fuel: nat, e: Event, subs: seq<Sub>, sys: bool, w: World)
    returns (x: World, u: World, stops: bool)
    requires subs != [] && RunSiblings(act, fuel, e, subs, sys, w).Done?
    ensures fuel > 0 && Served(act, fuel, e, subs[0], sys, w, x, u)
    ensures RunSiblings(act, fuel, e, subs, sys, w) ==
            if stops then Done(u, true) else RunSiblings(act, fuel - 1, e, subs[1..], sys, u)
  {
    hide RunHandler, AllRun;
    x := w.(trace := w.trace + [Call(subs[0].handler, e)]);
    var r := RunHandler(act, fuel - 1, subs[0].handler, e, 0, x);
    u, stops := r.world, !sys && r.outcome == Threw(true);
    if !sys && r.outcome == Threw(false) {
      var errors := Subscribers(r.world.table, HANDLER_ERROR);
      var reports, afters := ReportsInTurn(act, fuel - 1, HANDLER_ERROR, errors, r.world);
      u := RunSiblings(act, fuel - 1, HANDLER_ERROR, errors, true, r.world).world;
    }
  }

  /** No handler ever throws null or undefined. */
  ghost predicate ThrowsErrors(act: Script) {
    forall h, e, k, calls :: act(h, e, k, calls) != Throw(true)
  }

  /** Then errors are contained: no event rejects, nested or not. */
  lemma {:induction false} ErrorsContained(act: Script, fuel: nat, e: Event, subs: seq<Sub>, sys: bool, w: World)
    requires ThrowsErrors(act) && RunSiblings(act, fuel, e, subs, sys, w).Done?
    ensures !RunSiblings(act, fuel, e, subs, sys, w).rejected
    decreases fuel, 1
  {
    hide RunHandler, ThrowsErrors;
    if subs != [] {
      var x := w.(trace := w.trace + [Call(subs[0].handler, e)]);
      HandlerErrors(act, fuel - 1, subs[0].handler, e, 0, x);
      var r := RunHandler(act, fuel - 1, subs[0].handler, e, 0, x);
      if r.outcome.Returned? || sys {
        ErrorsContained(act, fuel - 1, e, subs[1..], sys, r.world);
      } else {
        var errors := Subscribers(r.world.table, HANDLER_ERROR);
        ErrorsContained(act, fuel - 1, e, subs[1..], sys, RunSiblings(act, fuel - 1, HANDLER_ERROR, errors, true, r.world).world);
      }
    }
  }

  lemma {:induction false} HandlerErrors(act: Script, fuel: nat, h: nat, e: Event, k: nat, w: World)
    requires ThrowsErrors(act) && RunHandler(act, fuel, h, e, k, w).Ended?
    ensures RunHandler(act, fuel, h, e, k, w).outcome != Threw(true)
    decreases fuel, 1
  {
    hide RunSiblings;
    match act(h, e, k, w.trace)
    case Return =>
    case Throw(_) =>
    case On(p, handler) => HandlerErrors(act, fuel - 1, h, e, k + 1, w.(table := Subscribe(w.table, p, handler)));
    case Off(p, id) => HandlerErrors(act, fuel - 1, h, e, k + 1, w.(table := Unsubscribe(w.table, p, id)));
    case Clear => HandlerErrors(act, fuel - 1, h, e, k + 1, w.(table := Cleared(w.table)));
    case Emit(f, g) =>
      var r := RunSiblings(act, fuel - 1, f, Subscribers(w.table, f), false, w);
      if !r.rejected || g { HandlerErrors(act, fuel - 1, h, e, k + 1, r.world); }
  }

  /** Not so when a handler throws null or undefined: reporting it fails, the event rejects
      there and then, and no later sibling is called. */
  lemma NullishSkipsSiblings(act: Script, fuel: nat, e: Event, subs: seq<Sub>, w: World)
    requires fuel >= 2 && subs != []
    requires act(subs[0].handler, e, 0, w.trace + [Call(subs[0].handler, e)]) == Throw(true)
    ensures RunSiblings(act, fuel, e, subs, false, w) == Done(w.(trace := w.trace + [Call(subs[0].handler, e)]), true)
  {
  }
}
