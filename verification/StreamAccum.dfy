// Tool calls assembled from a stream of fragments: the accumulator of
// src/agent/loop-internals.ts. Several calls may be in flight at once and their
// fragments may interleave in any way.

module StreamAccum {

  datatype Option<+T> = None | Some(value: T)

  /** The stream events that concern tool calls; an id the provider did not send is "". */
  datatype Event = Start(id: string, name: string) | Delta(id: string, args: string) | End(id: string)

  datatype Acc = Acc(id: string, name: string, args: string)

  /** A finished call, its argument text still to be parsed. */
  datatype Call = Call(id: string, name: string, raw: string)

  /** `order` is the insertion order of the accumulator map. */
  datatype State = State(order: seq<string>, accum: map<string, Acc>, calls: seq<Call>)

  function Empty(): State { State([], map[], []) }

  /** The accumulator a fragment belongs to: its id's, else the most recently started one. */
  function AccumFor(s: State, id: string): Option<Acc> {
    if id != "" && id in s.accum then Some(s.accum[id])
    else if s.order != [] && s.order[|s.order| - 1] in s.accum then Some(s.accum[s.order[|s.order| - 1]])
    else None
  }

  function Finished(a: Acc): Call { Call(a.id, a.name, a.args) }

  predicate HasCall(calls: seq<Call>, id: string) { exists i :: 0 <= i < |calls| && calls[i].id == id }

  function Accumulate(s: State, e: Event): State {
    match e
    case Start(id, name) =>
      State(if id in s.accum then s.order else s.order + [id], s.accum[id := Acc(id, name, "")], s.calls)
    case Delta(id, args) =>
      (match AccumFor(s, id)
       case None => s
       case Some(a) => s.(accum := s.accum[a.id := a.(args := a.args + args)]))
    case End(id) =>
      (match AccumFor(s, id)
       case None => s
       case Some(a) => if HasCall(s.calls, a.id) then s else s.(calls := s.calls + [Finished(a)]))
  }

  function Stream(events: seq<Event>): State {
    if events == [] then Empty() else Accumulate(Stream(events[..|events| - 1]), events[|events| - 1])
  }

  /** The accumulators from position `i` on that no end event has finished. */
  function Finalized(s: State, i: nat): State
    requires i <= |s.order|
    decreases |s.order| - i
  {
    if i == |s.order| then s
    else
      var id := s.order[i];
      var t := if HasCall(s.calls, id) || id !in s.accum then s else s.(calls := s.calls + [Finished(s.accum[id])]);
      Finalized(t, i + 1)
  }

  // ----------------------------------------------------------------- class

  class StepState {
    var order: seq<string>
    var accum: map<string, Acc>
    var calls: seq<Call>

    ghost function Value(): State
      reads this
    {
      State(order, accum, calls)
    }

    ghost predicate Valid()
      reads this
    {
      Consistent(Value())
    }

    constructor ()
      ensures Valid() && Value() == Empty()
    {
      order, accum, calls := [], map[], [];
    }

    method FindAccumulator(id: string) returns (acc: Option<Acc>)
      requires Valid()
      ensures acc == AccumFor(Value(), id)
    {
      if id != "" && id in accum { return Some(accum[id]); }
      acc := None;
      for i := 0 to |order|
        invariant acc == if i == 0 then None else Some(accum[order[i - 1]])
      {
        acc := Some(accum[order[i]]);
      }
    }

    method Contains(id: string) returns (found: bool)
      ensures found == HasCall(calls, id)
    {
      found := false;
      for i := 0 to |calls|
        invariant found == exists k :: 0 <= k < i && calls[k].id == id
      {
        if calls[i].id == id { found := true; }
      }
    }

    method AccumulateStreamEvent(e: Event)
      requires Valid()
      modifies this
      ensures Valid() && Value() == Accumulate(old(Value()), e)
    {
      KeepsConsistent(Value(), e);
      match e
      case Start(id, name) =>
        if id !in accum { order := order + [id]; }
        accum := accum[id := Acc(id, name, "")];
      case Delta(id, args) =>
        var acc := FindAccumulator(id);
        if acc.Some? { accum := accum[acc.value.id := acc.value.(args := acc.value.args + args)]; }
      case End(id) =>
        var acc := FindAccumulator(id);
        if acc.Some? {
          var pushed := Contains(acc.value.id);
          if !pushed { calls := calls + [Finished(acc.value)]; }
        }
    }

    method FinalizeUnendedToolCalls()
      requires Valid()
      modifies this`calls
      ensures Value() == Finalized(old(Value()), 0)
    {
      var i := 0;
      while i < |order|
        invariant i <= |order| && Finalized(Value(), i) == Finalized(old(Value()), 0)
      {
        var pushed := Contains(order[i]);
        if !pushed { calls := calls + [Finished(accum[order[i]])]; }
        i := i + 1;
      }
    }
  }

  // ------------------------------------------------------------ consistency

  ghost predicate DistinctIds(calls: seq<Call>) {
    forall i, j :: 0 <= i < j < |calls| ==> calls[i].id != calls[j].id
  }

  ghost predicate Consistent(s: State) {
    && (forall i, j :: 0 <= i < j < |s.order| ==> s.order[i] != s.order[j])
    && (forall id :: id in s.order <==> id in s.accum)
    && (forall id :: id in s.accum ==> s.accum[id].id == id)
    && DistinctIds(s.calls)
    && (forall i :: 0 <= i < |s.calls| ==> s.calls[i].id in s.accum)
  }

  lemma KeepsConsistent(s: State, e: Event)
    requires Consistent(s)
    ensures Consistent(Accumulate(s, e))
  {
    var t := Accumulate(s, e);
    if e.Start? {
      forall id ensures id in t.order <==> id in t.accum {}
    } else {
      var a := AccumFor(s, e.id);
      if a.Some? { assert a.value.id in s.accum; }
    }
  }

  lemma {:induction false} StreamConsistent(events: seq<Event>)
    ensures Consistent(Stream(events))
  {
    hide Consistent, Accumulate;
    if events == [] {
      assert Consistent(Empty()) by { EmptyConsistent(); }
    } else {
      StreamConsistent(events[..|events| - 1]);
      KeepsConsistent(Stream(events[..|events| - 1]), events[|events| - 1]);
    }
  }

  lemma EmptyConsistent()
    ensures Consistent(Empty())
  {
  }

  lemma HasCallSnoc(calls: seq<Call>, c: Call, id: string)
    ensures HasCall(calls + [c], id) <==> HasCall(calls, id) || c.id == id
  {
    var more := calls + [c];
    assert more[|calls|] == c;
    if HasCall(calls, id) {
      var k :| 0 <= k < |calls| && calls[k].id == id;
      assert more[k].id == id;
    }
  }

  /** One accumulator finished late. */
  lemma PushFinished(s: State, id: string) returns (t: State)
    requires Consistent(s) && id in s.accum && !HasCall(s.calls, id)
    ensures t == s.(calls := s.calls + [Finished(s.accum[id])]) && Consistent(t)
  {
    t := s.(calls := s.calls + [Finished(s.accum[id])]);
  }

  /** What finalizing leaves: one call per accumulator, those already finished as they were,
      each other one with the arguments gathered so far. */
  lemma {:induction false} FinalizedCalls(s: State, i: nat)
    requires Consistent(s) && i <= |s.order|
    requires forall k :: 0 <= k < i ==> HasCall(s.calls, s.order[k])
    ensures var t := Finalized(s, i);
            && t.order == s.order && t.accum == s.accum && Consistent(t)
            && (forall k :: 0 <= k < |s.order| ==> HasCall(t.calls, s.order[k]))
            && s.calls <= t.calls
            && (forall c :: c in t.calls[|s.calls|..] ==> c.id in s.accum && c == Finished(s.accum[c.id]))
    decreases |s.order| - i
  {
    hide HasCall, Finished;
    if i < |s.order| {
      var id := s.order[i];
      assert id in s.accum;
      if HasCall(s.calls, id) {
        FinalizedCalls(s, i + 1);
      } else {
        var t := PushFinished(s, id);
        forall k | 0 <= k <= i ensures HasCall(t.calls, t.order[k]) {
          HasCallSnoc(s.calls, Finished(s.accum[id]), t.order[k]);
          FinishedId(s.accum[id]);
        }
        FinalizedCalls(t, i + 1);
        var u := Finalized(t, i + 1);
        FinishedId(s.accum[id]);
        assert u.calls[|s.calls|..] == [Finished(s.accum[id])] + u.calls[|t.calls|..];
      }
    }
  }

  lemma FinishedId(a: Acc)
    ensures Finished(a).id == a.id
  {
  }

  // ---------------------------------------------------------- one call each

  predicate Started(events: seq<Event>, id: string) {
    exists k :: 0 <= k < |events| && events[k].Start? && events[k].id == id
  }

  lemma {:induction false} AccumulatorsAreStarted(events: seq<Event>, id: string)
    ensures id in Stream(events).accum <==> Started(events, id)
  {
    hide Started;
    if events == [] {
      assert !Started(events, id) by { NothingStarted(id); }
    } else {
      var front, e := events[..|events| - 1], events[|events| - 1];
      AccumulatorsAreStarted(front, id);
      StreamConsistent(front);
      StartedSnoc(front, e, id);
      assert front + [e] == events;
    }
  }

  lemma NothingStarted(id: string)
    ensures !Started([], id)
  {
  }

  lemma StartedSnoc(front: seq<Event>, e: Event, id: string)
    ensures Started(front + [e], id) <==> Started(front, id) || (e.Start? && e.id == id)
  {
    var all := front + [e];
    assert all[|front|] == e;
    if Started(front, id) {
      var k :| 0 <= k < |front| && front[k].Start? && front[k].id == id;
      assert all[k] == front[k];
    }
  }

  /** The calls of a finalized stream. */
  function Calls(events: seq<Event>): seq<Call> { Finalized(Stream(events), 0).calls }

  /** Whatever the stream: exactly one call for each id that was started, and none else. */
  lemma OneCallPerStartedId(events: seq<Event>, id: string)
    ensures DistinctIds(Calls(events))
    ensures HasCall(Calls(events), id) <==> Started(events, id)
  {
    hide Started, Stream, Finalized;
    var s := Stream(events);
    StreamConsistent(events);
    FinalizedCalls(s, 0);
    AccumulatorsAreStarted(events, id);
    if id in s.accum {
      assert id in s.order;
    }
  }

  // --------------------------------------------------------- own fragments

  /** What the events of one id come to, read without the others: not started, started with
      the arguments so far, ended with them, or out of order. */
  datatype Phase = Absent | Open(name: string, args: string) | Closed(name: string, args: string) | Broken

  function Next(p: Phase, e: Event): Phase {
    match e
    case Start(_, name) => if p.Absent? then Open(name, "") else Broken
    case Delta(_, args) => if p.Open? then Open(p.name, p.args + args) else Broken
    case End(_) => if p.Open? then Closed(p.name, p.args) else Broken
  }

  function PhaseOf(own: seq<Event>): Phase {
    if own == [] then Absent else Next(PhaseOf(own[..|own| - 1]), own[|own| - 1])
  }

  function Own(events: seq<Event>, id: string): seq<Event> {
    if events == [] then [] else
      Own(events[..|events| - 1], id) + (if events[|events| - 1].id == id then [events[|events| - 1]] else [])
  }

  /** Every event carries its id, and each id's deltas lie between its start and its end. */
  ghost predicate WellFormed(events: seq<Event>) {
    && (forall k :: 0 <= k < |events| ==> events[k].id != "")
    && (forall id :: PhaseOf(Own(events, id)) != Broken)
  }

  /** What the state holds of one id is what its own events come to. */
  ghost predicate Agrees(s: State, id: string, p: Phase) {
    match p
    case Absent => id !in s.accum && !HasCall(s.calls, id)
    case Open(name, args) => id in s.accum && s.accum[id] == Acc(id, name, args) && !HasCall(s.calls, id)
    case Closed(name, args) => id in s.accum && Call(id, name, args) in s.calls
    case Broken => true
  }

  lemma OwnSnoc(front: seq<Event>, e: Event, id: string)
    ensures Own(front + [e], id) == if e.id == id then Own(front, id) + [e] else Own(front, id)
  {
    assert (front + [e])[..|front|] == front;
  }

  lemma PhaseSnoc(own: seq<Event>, e: Event)
    ensures PhaseOf(own + [e]) == Next(PhaseOf(own), e)
  {
    assert (own + [e])[..|own|] == own;
  }

  lemma StepAgrees(s: State, e: Event, id: string, p: Phase)
    requires Consistent(s) && e.id != "" && Agrees(s, id, p)
    requires e.Start? || e.id in s.accum
    ensures Agrees(Accumulate(s, e), id, if e.id == id then Next(p, e) else p)
  {
    hide Consistent, HasCall;
    AccumulatorId(s, e.id);
    if e.End? && e.id in s.accum {
      HasCallSnoc(s.calls, Finished(s.accum[e.id]), id);
    }
  }

  lemma AccumulatorId(s: State, id: string)
    requires Consistent(s)
    ensures id in s.accum ==> s.accum[id].id == id
  {
  }

  lemma {:induction false} StreamAgrees(events: seq<Event>, id: string)
    requires WellFormed(events)
    ensures Agrees(Stream(events), id, PhaseOf(Own(events, id)))
    decreases |events|
  {
    hide Accumulate, Agrees, Consistent;
    if events == [] {
      assert Agrees(Empty(), id, Absent) by { NothingAgrees(id); }
    } else {
      var front, e := events[..|events| - 1], events[|events| - 1];
      assert front + [e] == events;
      FrontWellFormed(front, e);
      StreamAgrees(front, id);
      StreamAgrees(front, e.id);
      StreamConsistent(front);
      OwnSnoc(front, e, id);
      OwnSnoc(front, e, e.id);
      PhaseSnoc(Own(front, id), e);
      PhaseSnoc(Own(front, e.id), e);
      assert e.Start? || e.id in Stream(front).accum by { OpenIsThere(Stream(front), e, PhaseOf(Own(front, e.id))); }
      StepAgrees(Stream(front), e, id, PhaseOf(Own(front, id)));
    }
  }

  lemma NothingAgrees(id: string)
    ensures Agrees(Empty(), id, Absent)
  {
  }

  lemma OpenIsThere(s: State, e: Event, p: Phase)
    requires Agrees(s, e.id, p) && Next(p, e) != Broken
    ensures e.Start? || e.id in s.accum
  {
  }

  lemma FrontWellFormed(front: seq<Event>, e: Event)
    requires WellFormed(front + [e])
    ensures WellFormed(front)
  {
    var all := front + [e];
    forall k | 0 <= k < |front| ensures front[k].id != "" { assert all[k] == front[k]; }
    forall id ensures PhaseOf(Own(front, id)) != Broken {
      OwnSnoc(front, e, id);
      PhaseSnoc(Own(front, id), e);
      assert PhaseOf(Own(all, id)) != Broken;
    }
    assert all[|front|] == e;
  }

  lemma PrefixCall(early: seq<Call>, late: seq<Call>, k: nat)
    requires early <= late && k < |late|
    ensures k < |early| ==> HasCall(early, late[k].id)
  {
    if k < |early| { assert early[k] == late[k]; }
  }

  /** However parallel calls interleave, each call comes out with the concatenation of its
      own deltas and the name it was started with, and is the only call of its id. */
  lemma OwnArguments(events: seq<Event>, id: string)
    requires WellFormed(events)
    ensures var p := PhaseOf(Own(events, id));
            if p.Absent? then !HasCall(Calls(events), id) else Call(id, p.name, p.args) in Calls(events)
    ensures DistinctIds(Calls(events))
  {
    hide Stream, Finalized, Own, PhaseOf, DistinctIds;
    var s, p := Stream(events), PhaseOf(Own(events, id));
    StreamAgrees(events, id);
    StreamConsistent(events);
    FinalizedCalls(s, 0);
    OneCallPerStartedId(events, id);
    AccumulatorsAreStarted(events, id);
    var t := Finalized(s, 0);
    match p
    case Absent =>
    case Open(name, args) =>
      var k :| 0 <= k < |t.calls| && t.calls[k].id == id;
      PrefixCall(s.calls, t.calls, k);
      assert t.calls[k] in t.calls[|s.calls|..];
    case Closed(name, args) =>
    case Broken =>
  }

  /** So the calls do not depend on the interleaving: two streams in which every id has the
      same events in the same order end with the same calls. */
  lemma InterleavingIrrelevant(events: seq<Event>, others: seq<Event>, id: string)
    requires WellFormed(events) && (forall k :: 0 <= k < |others| ==> others[k].id != "")
    requires forall x :: Own(events, x) == Own(others, x)
    ensures HasCall(Calls(events), id) <==> HasCall(Calls(others), id)
    ensures forall c :: c in Calls(events) && c.id == id ==> c in Calls(others)
  {
    hide Calls, Own, PhaseOf;
    forall x ensures PhaseOf(Own(others, x)) != Broken { assert PhaseOf(Own(events, x)) != Broken; }
    OwnArguments(events, id);
    OwnArguments(others, id);
    var p := PhaseOf(Own(events, id));
    if !p.Absent? {
      var c := Call(id, p.name, p.args);
      var i :| 0 <= i < |Calls(events)| && Calls(events)[i] == c;
      var j :| 0 <= j < |Calls(others)| && Calls(others)[j] == c;
    }
  }

  // ------------------------------------------------------------------ order

  function Ids(calls: seq<Call>): (ids: seq<string>)
    ensures |ids| == |calls| && forall k :: 0 <= k < |calls| ==> ids[k] == calls[k].id
  {
    seq(|calls|, (k: int) requires 0 <= k < |calls| => calls[k].id)
  }

  /** The start and end events of a stream. */
  function Marks(events: seq<Event>): seq<Event> {
    if events == [] then []
    else
      var e := events[|events| - 1];
      Marks(events[..|events| - 1]) + (if e.Delta? then [] else [e])
  }

  /** Which ids were started, and which ended, in order of their first time. */
  datatype Order = Order(started: seq<string>, ended: seq<string>)

  function Append(ids: seq<string>, id: string): seq<string> { if id in ids then ids else ids + [id] }

  function OrderOf(marks: seq<Event>): Order {
    if marks == [] then Order([], [])
    else
      var o, e := OrderOf(marks[..|marks| - 1]), marks[|marks| - 1];
      if e.Start? then o.(started := Append(o.started, e.id)) else o.(ended := Append(o.ended, e.id))
  }

  /** The ended ids, then the started ones from position `i` on that have not ended. */
  function Finish(started: seq<string>, i: nat, ended: seq<string>): seq<string>
    requires i <= |started|
    decreases |started| - i
  {
    if i == |started| then ended else Finish(started, i + 1, Append(ended, started[i]))
  }

  lemma MarksSnoc(front: seq<Event>, e: Event)
    ensures Marks(front + [e]) == if e.Delta? then Marks(front) else Marks(front) + [e]
    ensures var o := OrderOf(Marks(front));
            !e.Delta? ==>
              OrderOf(Marks(front) + [e]) == (if e.Start? then o.(started := Append(o.started, e.id))
                                              else o.(ended := Append(o.ended, e.id)))
  {
    assert (front + [e])[..|front|] == front;
    assert (Marks(front) + [e])[..|Marks(front)|] == Marks(front);
  }

  lemma IdsSnoc(calls: seq<Call>, c: Call)
    ensures Ids(calls + [c]) == Ids(calls) + [c.id]
    ensures HasCall(calls, c.id) <==> c.id in Ids(calls)
  {
    if c.id in Ids(calls) {
      var k :| 0 <= k < |calls| && Ids(calls)[k] == c.id;
      assert calls[k].id == c.id;
    }
    if HasCall(calls, c.id) {
      var k :| 0 <= k < |calls| && calls[k].id == c.id;
      assert Ids(calls)[k] == c.id;
    }
  }

  /** One event changes the order of the accumulators and of the calls by its mark alone. */
  lemma StepOrder(s: State, e: Event)
    requires Consistent(s) && e.id != "" && (e.Start? || e.id in s.accum)
    ensures var t := Accumulate(s, e);
            && t.order == (if e.Start? then Append(s.order, e.id) else s.order)
            && Ids(t.calls) == (if e.End? then Append(Ids(s.calls), e.id) else Ids(s.calls))
  {
    hide HasCall;
    AccumulatorId(s, e.id);
    if e.End? { IdsSnoc(s.calls, Finished(s.accum[e.id])); }
  }

  lemma {:induction false} StreamOrder(events: seq<Event>)
    requires WellFormed(events)
    ensures var s, o := Stream(events), OrderOf(Marks(events)); s.order == o.started && Ids(s.calls) == o.ended
    decreases |events|
  {
    hide Accumulate, Consistent, Agrees, WellFormed, Append;
    if events != [] {
      var front, e := events[..|events| - 1], events[|events| - 1];
      assert front + [e] == events;
      FrontWellFormed(front, e);
      StreamOrder(front);
      StreamConsistent(front);
      StreamAgrees(front, e.id);
      OwnSnoc(front, e, e.id);
      PhaseSnoc(Own(front, e.id), e);
      LastIsInPlace(front, e);
      assert e.Start? || e.id in Stream(front).accum by { OpenIsThere(Stream(front), e, PhaseOf(Own(front, e.id))); }
      StepOrder(Stream(front), e);
      MarksSnoc(front, e);
    }
  }

  lemma LastIsInPlace(front: seq<Event>, e: Event)
    requires WellFormed(front + [e])
    ensures e.id != "" && PhaseOf(Own(front + [e], e.id)) != Broken
  {
    assert (front + [e])[|front|] == e;
  }

  lemma {:induction false} FinalizedOrder(s: State, i: nat)
    requires Consistent(s) && i <= |s.order|
    ensures Ids(Finalized(s, i).calls) == Finish(s.order, i, Ids(s.calls))
    decreases |s.order| - i
  {
    hide HasCall, Finished;
    if i < |s.order| {
      var id := s.order[i];
      assert id in s.accum;
      var c := Finished(s.accum[id]);
      FinishedId(s.accum[id]);
      IdsSnoc(s.calls, c);
      if HasCall(s.calls, id) {
        FinalizedOrder(s, i + 1);
      } else {
        var t := PushFinished(s, id);
        FinalizedOrder(t, i + 1);
      }
    }
  }

  lemma CallsOrder(events: seq<Event>)
    requires WellFormed(events)
    ensures var o := OrderOf(Marks(events)); Ids(Calls(events)) == Finish(o.started, 0, o.ended)
  {
    hide Stream, Finalized, Consistent, WellFormed;
    StreamOrder(events);
    StreamConsistent(events);
    FinalizedOrder(Stream(events), 0);
  }

  /** The calls come in order of their ends, those never ended after them in order of their
      starts; so streams that agree on those, and on what each id is sent, end with the same
      list of calls however the deltas interleave. */
  lemma SameCallsSameOrder(events: seq<Event>, others: seq<Event>)
    requires WellFormed(events) && WellFormed(others)
    requires Marks(events) == Marks(others) && forall x :: Own(events, x) == Own(others, x)
    ensures Calls(events) == Calls(others)
  {
    hide Calls, Own, PhaseOf, WellFormed, Marks, OrderOf, Finish;
    CallsOrder(events);
    CallsOrder(others);
    var a, b := Calls(events), Calls(others);
    assert |a| == |Ids(a)| == |b|;
    forall k | 0 <= k < |a| ensures a[k] == b[k] {
      var id := Ids(a)[k];
      assert a[k].id == id == b[k].id;
      NotBroken(events, id);
      OwnArguments(events, id);
      OwnArguments(others, id);
      OnlyCallOf(a, k, id, PhaseOf(Own(events, id)));
      OnlyCallOf(b, k, id, PhaseOf(Own(events, id)));
    }
  }

  lemma NotBroken(events: seq<Event>, id: string)
    requires WellFormed(events)
    ensures PhaseOf(Own(events, id)) != Broken
  {
  }

  lemma OnlyCallOf(calls: seq<Call>, k: nat, id: string, p: Phase)
    requires DistinctIds(calls) && k < |calls| && calls[k].id == id
    requires if p.Absent? then !HasCall(calls, id) else p != Broken && Call(id, p.name, p.args) in calls
    ensures !p.Absent? && p != Broken && calls[k] == Call(id, p.name, p.args)
  {
    assert HasCall(calls, id);
    if !p.Absent? {
      var j :| 0 <= j < |calls| && calls[j] == Call(id, p.name, p.args);
      assert j == k;
    }
  }
}
