// The counting semaphore of src/network/semaphore.ts, with direct hand-over of
// a released slot to the waiter that has waited longest.

module Semaphore {

  datatype Option<+T> = None | Some(value: T)

  /** The fields of a semaphore as a value; a waiter is whatever acquires slots. */
  datatype Sem<W> = Sem(current: int, waiters: seq<W>)

  function Acquired<W>(s: Sem<W>, max: int, w: W): Sem<W> {
    if s.current < max then s.(current := s.current + 1) else s.(waiters := s.waiters + [w])
  }

  function Released<W>(s: Sem<W>): Sem<W> {
    if s.waiters == [] then s.(current := s.current - 1) else s.(waiters := s.waiters[1..])
  }

  /** Who a release hands the slot to. */
  function Next<W>(s: Sem<W>): Option<W> {
    if s.waiters == [] then None else Some(s.waiters[0])
  }

  /** Slots are never oversold, and nobody waits while one is free. */
  predicate Fair<W(==)>(s: Sem<W>, max: int) {
    s.current <= max && (s.waiters != [] ==> s.current == max)
  }

  class Semaphore<W> {
    var current: int
    var waiters: seq<W>
    const max: int

    function State(): Sem<W>
      reads this
    {
      Sem(current, waiters)
    }

    constructor (max: int)
      ensures State() == Sem(0, []) && this.max == max
    {
      current, waiters := 0, [];
      this.max := max;
    }

    /** True when the slot is granted at once, false when `w` now waits for one. */
    method Acquire(w: W) returns (granted: bool)
      modifies this
      ensures State() == Acquired(old(State()), max, w)
      ensures granted == (old(current) < max)
    {
      if current < max {
        current := current + 1;
        return true;
      }
      waiters := waiters + [w];
      return false;
    }

    method Release() returns (next: Option<W>)
      modifies this
      ensures State() == Released(old(State()))
      ensures next == Next(old(State()))
    {
      current := current - 1;
      next := None;
      if |waiters| > 0 {
        next := Some(waiters[0]);
        waiters := waiters[1..];
        current := current + 1;
      }
    }
  }

  // ------------------------------------------------------------------- runs

  datatype Op<W> = Acquire(w: W) | Release

  function After<W>(s: Sem<W>, max: int, op: Op<W>): Sem<W> {
    match op case Acquire(w) => Acquired(s, max, w) case Release => Released(s)
  }

  /** Who gets a slot in a call: the caller himself, or the one a release hands it to. */
  function GrantedIn<W>(s: Sem<W>, max: int, op: Op<W>): seq<W> {
    match op
    case Acquire(w) => if s.current < max then [w] else []
    case Release => if Next(s).Some? then [Next(s).value] else []
  }

  /** The semaphore after a run of calls, who was granted a slot and who asked, in order. */
  function Run<W>(max: int, ops: seq<Op<W>>): Sem<W> {
    if ops == [] then Sem(0, []) else After(Run(max, ops[..|ops| - 1]), max, ops[|ops| - 1])
  }

  function Granted<W>(max: int, ops: seq<Op<W>>): seq<W> {
    if ops == [] then []
    else Granted(max, ops[..|ops| - 1]) + GrantedIn(Run(max, ops[..|ops| - 1]), max, ops[|ops| - 1])
  }

  function Askers<W>(ops: seq<Op<W>>): seq<W> {
    if ops == [] then []
    else Askers(ops[..|ops| - 1]) + (if ops[|ops| - 1].Acquire? then [ops[|ops| - 1].w] else [])
  }

  function Releases<W>(ops: seq<Op<W>>): nat {
    if ops == [] then 0 else Releases(ops[..|ops| - 1]) + (if ops[|ops| - 1].Release? then 1 else 0)
  }

  /** Over every run of calls slots are granted in the order they were asked for, each once; the
      grants not yet given back are as many as the count says, never more than there are slots;
      and nobody waits while a slot is free. */
  lemma {:induction false} FirstComeFirstServed<W>(max: nat, ops: seq<Op<W>>)
    ensures var s := Run(max, ops);
            && Granted(max, ops) + s.waiters == Askers(ops)
            && |Granted(max, ops)| - Releases(ops) == s.current <= max
            && (s.waiters != [] ==> s.current == max)
    decreases |ops|
  {
    if ops != [] {
      var front, op := ops[..|ops| - 1], ops[|ops| - 1];
      FirstComeFirstServed(max, front);
      var s, granted := Run(max, front), Granted(max, front);
      if op.Acquire? {
        if s.waiters == [] { assert granted + [] == granted; }
        assert (granted + s.waiters) + [op.w] == granted + (s.waiters + [op.w]);
      } else if s.waiters != [] {
        assert (granted + [s.waiters[0]]) + s.waiters[1..] == granted + s.waiters;
      }
    }
  }
}
