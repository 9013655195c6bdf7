// The priority queue of src/network/request-queue.ts: a binary heap with
// deadlines, purged and rebuilt when entries expire.

module RequestQueue {

  datatype Option<+T> = None | Some(value: T)

  datatype Entry = Entry(id: nat, priority: real, enqueuedAt: real, deadline: real, tokens: nat, attempt: nat)

  /** Lower priority first, then earlier enqueue time: negative when `a` goes before `b`. */
  function Compare(a: Entry, b: Entry): real {
    if a.priority != b.priority then a.priority - b.priority else a.enqueuedAt - b.enqueuedAt
  }

  predicate Le(a: Entry, b: Entry) { Compare(a, b) <= 0.0 }

  /** In numbers: `a` goes before `b` by its lower priority, or of one priority by its age. */
  lemma LeInNumbers(a: Entry, b: Entry)
    ensures Le(a, b) <==> a.priority < b.priority || (a.priority == b.priority && a.enqueuedAt <= b.enqueuedAt)
  {
  }

  lemma LeTransitive(a: Entry, b: Entry, c: Entry)
    requires Le(a, b) && Le(b, c)
    ensures Le(a, c)
  {
  }

  predicate Expired(e: Entry, now: real) { now > e.deadline }

  // ----------------------------------------------------------------- heap

  function Parent(k: nat): nat
    requires k > 0
  {
    (k - 1) / 2
  }

  /** The order holds at every position whose parent is `lo` or later. */
  ghost predicate HeapFrom(s: seq<Entry>, lo: nat) {
    forall k :: 0 < k < |s| && lo <= Parent(k) ==> Le(s[Parent(k)], s[k])
  }

  ghost predicate IsHeap(s: seq<Entry>) { HeapFrom(s, 0) }

  function Swap(s: seq<Entry>, i: nat, j: nat): seq<Entry>
    requires i < |s| && j < |s|
  {
    s[i := s[j]][j := s[i]]
  }

  lemma SwapKeeps(s: seq<Entry>, i: nat, j: nat)
    requires i < |s| && j < |s|
    ensures multiset(Swap(s, i, j)) == multiset(s) && |Swap(s, i, j)| == |s|
  {
  }

  lemma {:induction false} RootIsLeast(s: seq<Entry>, k: nat)
    requires IsHeap(s) && k < |s|
    ensures Le(s[0], s[k])
    decreases k
  {
    if k > 0 {
      RootIsLeast(s, Parent(k));
      LeTransitive(s[0], s[Parent(k)], s[k]);
    }
  }

  /** All in order but the edge above `i`, which may be too small for its parent. */
  ghost predicate Bubbling(s: seq<Entry>, i: nat) {
    && i < |s|
    && (forall k :: 0 < k < |s| && k != i ==> Le(s[Parent(k)], s[k]))
    && (forall k :: 0 < k < |s| && i > 0 && Parent(k) == i ==> Le(s[Parent(i)], s[k]))
  }

  lemma BubbleStep(s: seq<Entry>, i: nat)
    requires 0 < i && Bubbling(s, i) && !Le(s[Parent(i)], s[i])
    ensures Bubbling(Swap(s, i, Parent(i)), Parent(i))
  {
    var p := Parent(i);
    var t := Swap(s, i, p);
    forall k | 0 < k < |t| && k != p ensures Le(t[Parent(k)], t[k]) {
      if k == i {
      } else if Parent(k) == i {
      } else if Parent(k) == p {
        LeTransitive(s[i], s[p], s[k]);
      }
    }
    forall k | 0 < k < |t| && p > 0 && Parent(k) == p ensures Le(t[Parent(p)], t[k]) {
      if k != i { LeTransitive(s[Parent(p)], s[p], s[k]); }
    }
  }

  /** From `lo` on all in order but the edges below `i`. */
  ghost predicate Sinking(s: seq<Entry>, lo: nat, i: nat) {
    && lo <= i < |s|
    && (forall k :: 0 < k < |s| && lo <= Parent(k) && Parent(k) != i ==> Le(s[Parent(k)], s[k]))
    && (forall k :: 0 < k < |s| && Parent(k) == i && i > 0 && lo <= Parent(i) ==> Le(s[Parent(i)], s[k]))
  }

  /** The smaller of `i` and its children, the left one first. */
  function Smallest(s: seq<Entry>, i: nat): (m: nat)
    requires i < |s|
    ensures m < |s| && (m == i || (m > 0 && Parent(m) == i))
    ensures forall k :: 0 < k < |s| && Parent(k) == i ==> Le(s[m], s[k])
    ensures m != i ==> !Le(s[i], s[m])
  {
    var left, right := 2 * i + 1, 2 * i + 2;
    var m := if left < |s| && Compare(s[left], s[i]) < 0.0 then left else i;
    assert forall k :: 0 < k && Parent(k) == i ==> k == left || k == right;
    if right < |s| && Compare(s[right], s[m]) < 0.0 then right else m
  }

  lemma SinkStart(s: seq<Entry>, lo: nat)
    requires lo < |s| && HeapFrom(s, lo + 1)
    ensures Sinking(s, lo, lo)
  {
  }

  lemma SinkStep(s: seq<Entry>, lo: nat, i: nat)
    requires Sinking(s, lo, i)
    ensures var m := Smallest(s, i);
            if m == i then HeapFrom(s, lo) else m > i && m < |s| && Sinking(Swap(s, i, m), lo, m)
  {
    var m := Smallest(s, i);
    if m != i {
      var t := Swap(s, i, m);
      forall k | 0 < k < |t| && lo <= Parent(k) && Parent(k) != m ensures Le(t[Parent(k)], t[k]) {
        if k == i {
          assert Le(s[Parent(i)], s[m]);
        }
      }
      forall k | 0 < k < |t| && Parent(k) == m && lo <= i ensures Le(t[Parent(m)], t[k]) {
        assert Le(s[Parent(k)], s[k]);
      }
    }
  }

  /** Where swapping upward from `i`, and downward from `i`, leaves the array. */
  function Risen(s: seq<Entry>, i: nat): seq<Entry>
    requires i < |s|
    decreases i
  {
    if i > 0 && Compare(s[i], s[Parent(i)]) < 0.0 then Risen(Swap(s, i, Parent(i)), Parent(i)) else s
  }

  function Sunk(s: seq<Entry>, i: nat): seq<Entry>
    requires i < |s|
    decreases |s| - i
  {
    var m := Smallest(s, i);
    if m <= i then s else Sunk(Swap(s, i, m), m)
  }

  function Pushed(s: seq<Entry>, e: Entry): seq<Entry> { Risen(s + [e], |s|) }

  function Popped(s: seq<Entry>): seq<Entry>
    requires s != []
  {
    var rest := s[..|s| - 1];
    if rest == [] then rest else Sunk(rest[0 := s[|s| - 1]], 0)
  }

  /** Entries that tie, same priority and same time stamp, are not served in the order they
      came: of three, the last overtakes the second. */
  lemma TiesAreNotFifo(a: Entry, b: Entry, c: Entry)
    requires a.priority == b.priority == c.priority && a.enqueuedAt == b.enqueuedAt == c.enqueuedAt
    ensures var s := Pushed(Pushed(Pushed([], a), b), c);
            |s| == 3 && |Popped(s)| == 2 && |Popped(Popped(s))| == 1
            && s[0] == a && Popped(s)[0] == c && Popped(Popped(s))[0] == b
  {
    assert [] + [a] == [a] && [a] + [b] == [a, b] && [a, b] + [c] == [a, b, c];
    assert Pushed([a, b], c) == [a, b, c];
    assert [a, b, c][..2] == [a, b] && [a, b][0 := c] == [c, b];
    assert Popped([a, b, c]) == [c, b];
    assert [c, b][..1] == [c] && [c][0 := b] == [b];
  }

  // ------------------------------------------------------------- deadlines

  /** The entries that are still waiting in time, and those that are not, each in heap order. */
  function Live(s: seq<Entry>, now: real): seq<Entry> {
    if s == [] then [] else
      Live(s[..|s| - 1], now) + (if Expired(s[|s| - 1], now) then [] else [s[|s| - 1]])
  }

  function Dead(s: seq<Entry>, now: real): seq<Entry> {
    if s == [] then [] else
      Dead(s[..|s| - 1], now) + (if Expired(s[|s| - 1], now) then [s[|s| - 1]] else [])
  }

  lemma MultisetSnoc(s: seq<Entry>)
    requires s != []
    ensures multiset(s) == multiset(s[..|s| - 1]) + multiset{s[|s| - 1]}
  {
    assert s[..|s| - 1] + [s[|s| - 1]] == s;
  }

  lemma {:induction false} LiveAndDead(s: seq<Entry>, now: real)
    ensures multiset(Live(s, now)) + multiset(Dead(s, now)) == multiset(s)
    ensures |Live(s, now)| + |Dead(s, now)| == |s|
  {
    hide Expired;
    if s != [] {
      var front, e := s[..|s| - 1], s[|s| - 1];
      LiveAndDead(front, now);
      MultisetSnoc(s);
      if Expired(e, now) {
        assert multiset(Dead(front, now) + [e]) == multiset(Dead(front, now)) + multiset{e};
        assert Live(s, now) == Live(front, now);
      } else {
        assert multiset(Live(front, now) + [e]) == multiset(Live(front, now)) + multiset{e};
        assert Dead(s, now) == Dead(front, now);
      }
    }
  }

  lemma {:induction false} AllLive(s: seq<Entry>, now: real)
    requires Dead(s, now) == []
    ensures Live(s, now) == s
  {
    hide Expired;
    if s != [] {
      AllLive(s[..|s| - 1], now);
      assert s[..|s| - 1] + [s[|s| - 1]] == s;
    }
  }

  lemma {:induction false} WhichAreLive(s: seq<Entry>, now: real, e: Entry)
    ensures e in Live(s, now) <==> e in s && !Expired(e, now)
    ensures e in Dead(s, now) <==> e in s && Expired(e, now)
  {
    hide Expired;
    if s != [] {
      WhichAreLive(s[..|s| - 1], now, e);
      assert s[..|s| - 1] + [s[|s| - 1]] == s;
    }
  }

  // ---------------------------------------------------------------- class

  class RequestQueue {
    var heap: seq<Entry>
    var drainWaiters: seq<nat>
    const maxSize: int
    const timeoutMs: real

    ghost predicate Valid()
      reads this`heap
    {
      IsHeap(heap) && (|heap| == 0 || |heap| <= maxSize)
    }

    constructor (maxSize: int, timeoutMs: real)
      ensures Valid() && heap == [] && drainWaiters == []
      ensures this.maxSize == maxSize && this.timeoutMs == timeoutMs
    {
      heap, drainWaiters := [], [];
      this.maxSize, this.timeoutMs := maxSize, timeoutMs;
    }

    /** A full queue rejects; otherwise the entry joins the heap and wakes one waiter. */
    method Enqueue(id: nat, priority: real, tokens: nat, attempt: nat, now: real)
      returns (accepted: bool, woken: Option<nat>)
      requires Valid()
      modifies this
      ensures Valid()
      ensures accepted == (|old(heap)| < maxSize)
      ensures !accepted ==> heap == old(heap) && drainWaiters == old(drainWaiters) && woken == None
      ensures accepted ==>
                && multiset(heap) == multiset(old(heap))
                                     + multiset{Entry(id, priority, now, now + timeoutMs, tokens, attempt)}
                && woken == (if old(drainWaiters) == [] then None else Some(old(drainWaiters)[0]))
                && drainWaiters == (if old(drainWaiters) == [] then [] else old(drainWaiters)[1..])
    {
      if |heap| >= maxSize {
        return false, None;
      }
      var entry := Entry(id, priority, now, now + timeoutMs, tokens, attempt);
      Push(entry);
      accepted := true;
      woken := NotifyDrain();
    }

    method NotifyDrain() returns (woken: Option<nat>)
      modifies this`drainWaiters
      ensures woken == (if old(drainWaiters) == [] then None else Some(old(drainWaiters)[0]))
      ensures drainWaiters == (if old(drainWaiters) == [] then [] else old(drainWaiters)[1..])
    {
      woken := None;
      if |drainWaiters| > 0 {
        woken := Some(drainWaiters[0]);
        drainWaiters := drainWaiters[1..];
      }
    }

    /** Resolves at once when something is queued, otherwise leaves a waiter behind. */
    method WaitForItem(waiter: nat) returns (ready: bool)
      modifies this`drainWaiters
      ensures ready == (heap != [])
      ensures drainWaiters == if heap != [] then old(drainWaiters) else old(drainWaiters) + [waiter]
    {
      ready := |heap| > 0;
      if !ready { drainWaiters := drainWaiters + [waiter]; }
    }

    /** Serves a least unexpired entry and rejects every expired one. */
    method Dequeue(now: real) returns (served: Option<Entry>, expired: seq<Entry>)
      requires Valid()
      modifies this`heap
      ensures Valid()
      ensures expired == Dead(old(heap), now)
      ensures served == None <==> Live(old(heap), now) == []
      ensures served == None ==> heap == []
      ensures served.Some? ==>
                && multiset(Live(old(heap), now)) == multiset(heap) + multiset{served.value}
                && forall e :: e in Live(old(heap), now) ==> Le(served.value, e)
      ensures served.Some? ==>
                && served.value in old(heap) && now <= served.value.deadline
                && forall e :: e in old(heap) && now <= e.deadline ==>
                     || served.value.priority < e.priority
                     || (served.value.priority == e.priority && served.value.enqueuedAt <= e.enqueuedAt)
      ensures forall e :: e in expired <==> e in old(heap) && e.deadline < now
    {
      forall e ensures (e in Live(heap, now) <==> e in heap && now <= e.deadline)
                       && (e in Dead(heap, now) <==> e in heap && e.deadline < now) {
        WhichAreLive(heap, now, e);
      }
      hide Live, Dead;
      expired := PurgeExpired(now);
      if |heap| == 0 {
        assert |multiset(Live(old(heap), now))| == 0;
        return None, expired;
      }
      ghost var live := heap;
      var top := Pop();
      served := Some(top);
      forall e | e in Live(old(heap), now) ensures Le(top, e) {
        assert e in multiset(live);
        LeInNumbers(top, e);
      }
      assert top in multiset(Live(old(heap), now));
    }

    /** The entry a dequeue would serve, after rejecting the expired ones. */
    method Peek(now: real) returns (first: Option<Entry>, expired: seq<Entry>)
      requires Valid()
      modifies this`heap
      ensures Valid()
      ensures expired == Dead(old(heap), now)
      ensures multiset(heap) == multiset(Live(old(heap), now))
      ensures first == if heap == [] then None else Some(heap[0])
      ensures first.Some? ==> forall e :: e in Live(old(heap), now) ==> Le(first.value, e)
    {
      expired := PurgeExpired(now);
      first := if |heap| > 0 then Some(heap[0]) else None;
      forall e | e in Live(old(heap), now) && first.Some? ensures Le(first.value, e) {
        assert e in multiset(heap);
        var k :| 0 <= k < |heap| && heap[k] == e;
        RootIsLeast(heap, k);
      }
    }

    method PurgeExpired(now: real) returns (expired: seq<Entry>)
      requires Valid()
      modifies this`heap
      ensures Valid()
      ensures expired == Dead(old(heap), now)
      ensures multiset(heap) == multiset(Live(old(heap), now))
    {
      var before := heap;
      var kept: seq<Entry> := [];
      expired := [];
      assert before[..0] == [];
      for i := 0 to |before|
        invariant heap == before && kept == Live(before[..i], now) && expired == Dead(before[..i], now)
      {
        assert before[..i + 1][..i] == before[..i];
        if now > before[i].deadline { expired := expired + [before[i]]; } else { kept := kept + [before[i]]; }
      }
      assert before[..|before|] == before;
      LiveAndDead(before, now);
      if expired == [] { AllLive(before, now); }
      heap := kept;
      if |expired| > 0 {
        RebuildHeap();
        SameSize(heap, kept);
      }
    }

    method Push(entry: Entry)
      requires IsHeap(heap)
      modifies this`heap
      ensures IsHeap(heap) && multiset(heap) == multiset(old(heap)) + multiset{entry}
      ensures |heap| == |old(heap)| + 1 && heap == Pushed(old(heap), entry)
    {
      heap := heap + [entry];
      BubbleUp(|heap| - 1);
    }

    method Pop() returns (top: Entry)
      requires IsHeap(heap) && heap != []
      modifies this`heap
      ensures IsHeap(heap) && multiset(old(heap)) == multiset(heap) + multiset{top}
      ensures |heap| == |old(heap)| - 1 && top == old(heap)[0] && heap == Popped(old(heap))
      ensures forall e :: e in old(heap) ==> Le(top, e)
    {
      ghost var before := heap;
      forall k | 0 <= k < |before| ensures Le(before[0], before[k]) { RootIsLeast(before, k); }
      top := heap[0];
      var last := heap[|heap| - 1];
      heap := heap[..|heap| - 1];
      assert before == heap + [last];
      if |heap| > 0 {
        Replaced(heap, last);
        heap := heap[0 := last];
        SinkDown(0);
      }
    }

    method BubbleUp(from: nat)
      requires Bubbling(heap, from)
      modifies this`heap
      ensures IsHeap(heap) && multiset(heap) == multiset(old(heap)) && |heap| == |old(heap)|
      ensures heap == Risen(old(heap), from)
    {
      var i: nat := from;
      while i > 0
        invariant Bubbling(heap, i) && Risen(heap, i) == Risen(old(heap), from)
        invariant multiset(heap) == multiset(old(heap)) && |heap| == |old(heap)|
      {
        var parent := (i - 1) / 2;
        if Compare(heap[i], heap[parent]) < 0.0 {
          BubbleStep(heap, i);
          SwapKeeps(heap, i, parent);
          heap := Swap(heap, i, parent);
          i := parent;
        } else {
          break;
        }
      }
    }

    method SinkDown(from: nat)
      requires from < |heap| && HeapFrom(heap, from + 1)
      modifies this`heap
      ensures HeapFrom(heap, from) && multiset(heap) == multiset(old(heap)) && |heap| == |old(heap)|
      ensures heap == Sunk(old(heap), from)
    {
      hide Sinking, HeapFrom, Parent, Le, Compare, Swap;
      var n := |heap|;
      var i := from;
      SinkStart(heap, from);
      while true
        invariant n == |heap| == |old(heap)| && i < n && Sinking(heap, from, i)
        invariant Sunk(heap, i) == Sunk(old(heap), from)
        invariant multiset(heap) == multiset(old(heap))
        decreases n - i
      {
        var smallest := i;
        var left, right := 2 * i + 1, 2 * i + 2;
        if left < n && Compare(heap[left], heap[smallest]) < 0.0 { smallest := left; }
        if right < n && Compare(heap[right], heap[smallest]) < 0.0 { smallest := right; }
        assert smallest == Smallest(heap, i);
        SinkStep(heap, from, i);
        if smallest == i { break; }
        SwapKeeps(heap, i, smallest);
        heap := Swap(heap, i, smallest);
        i := smallest;
      }
    }

    /** Floyd's construction: sink every inner position, last first. */
    method RebuildHeap()
      modifies this`heap
      ensures IsHeap(heap) && multiset(heap) == multiset(old(heap))
    {
      var i: int := |heap| / 2 - 1;
      while i >= 0
        invariant -1 <= i < |heap| && HeapFrom(heap, i + 1)
        invariant multiset(heap) == multiset(old(heap))
      {
        SinkDown(i);
        i := i - 1;
      }
    }
  }

  lemma SameSize(s: seq<Entry>, t: seq<Entry>)
    requires multiset(s) == multiset(t)
    ensures |s| == |t|
  {
    assert |s| == |multiset(s)| == |multiset(t)| == |t|;
  }

  lemma Replaced(s: seq<Entry>, last: Entry)
    requires s != []
    ensures multiset(s[0 := last]) + multiset{s[0]} == multiset(s + [last])
  {
    assert s == [s[0]] + s[1..] && s[0 := last] == [last] + s[1..];
  }

  // ----------------------------------------------------------------- runs

  /** What one call does, seen from outside: the waiting entries as a multiset. */
  datatype Call =
    | Accept(entry: Entry)
    | Reject
    | Serve(now: real, served: Option<Entry>, expired: multiset<Entry>)
    | Purge(now: real, expired: multiset<Entry>)

  ghost predicate Step(s: multiset<Entry>, call: Call, t: multiset<Entry>, maxSize: int) {
    match call
    case Accept(e) => |s| < maxSize && t == s + multiset{e}
    case Reject => |s| >= maxSize && t == s
    case Purge(now, expired) =>
      && s == t + expired
      && (forall e :: e in expired ==> Expired(e, now))
      && (forall e :: e in t ==> !Expired(e, now))
    case Serve(now, served, expired) =>
      && s == t + expired + (if served.Some? then multiset{served.value} else multiset{})
      && (forall e :: e in expired ==> Expired(e, now))
      && (forall e :: e in t ==> !Expired(e, now))
      && (served.None? ==> t == multiset{})
      && (served.Some? ==> !Expired(served.value, now) && forall e :: e in t ==> Le(served.value, e))
  }

  /** The methods of the class are such steps. */
  method EnqueueStep(q: RequestQueue, id: nat, priority: real, tokens: nat, attempt: nat, now: real)
    returns (ghost call: Call, accepted: bool)
    requires q.Valid()
    modifies q
    ensures q.Valid() && Step(multiset(old(q.heap)), call, multiset(q.heap), q.maxSize)
    ensures call == if accepted then Accept(Entry(id, priority, now, now + q.timeoutMs, tokens, attempt)) else Reject
  {
    var woken;
    accepted, woken := q.Enqueue(id, priority, tokens, attempt, now);
    call := if accepted then Accept(Entry(id, priority, now, now + q.timeoutMs, tokens, attempt)) else Reject;
  }

  method PeekStep(q: RequestQueue, now: real) returns (first: Option<Entry>, ghost call: Call)
    requires q.Valid()
    modifies q
    ensures q.Valid() && Step(multiset(old(q.heap)), call, multiset(q.heap), q.maxSize)
    ensures call == Purge(now, multiset(Dead(old(q.heap), now)))
    ensures first == if q.heap == [] then None else Some(q.heap[0])
  {
    hide Live, Dead, Expired, Le;
    ghost var before := q.heap;
    var expired;
    first, expired := q.Peek(now);
    call := Purge(now, multiset(expired));
    LiveAndDead(before, now);
    forall e | e in multiset(expired) ensures Expired(e, now) { WhichAreLive(before, now, e); }
    forall e | e in multiset(q.heap) ensures !Expired(e, now) {
      assert e in multiset(Live(before, now));
      WhichAreLive(before, now, e);
    }
  }

  lemma ServeIsStep(before: seq<Entry>, after: seq<Entry>, now: real, served: Option<Entry>, maxSize: int)
    requires served == None ==> after == [] && Live(before, now) == []
    requires served.Some? ==>
               && multiset(Live(before, now)) == multiset(after) + multiset{served.value}
               && forall e :: e in Live(before, now) ==> Le(served.value, e)
    ensures Step(multiset(before), Serve(now, served, multiset(Dead(before, now))), multiset(after), maxSize)
  {
    hide Live, Dead, Expired, Le;
    var x, t := multiset(Dead(before, now)), multiset(after);
    LiveAndDead(before, now);
    forall e | e in x ensures Expired(e, now) { WhichAreLive(before, now, e); }
    forall e | e in t ensures !Expired(e, now) && (served.Some? ==> Le(served.value, e)) {
      assert e in multiset(Live(before, now));
      WhichAreLive(before, now, e);
    }
    if served.Some? {
      assert served.value in multiset(Live(before, now));
      WhichAreLive(before, now, served.value);
    }
  }

  method DequeueStep(q: RequestQueue, now: real) returns (served: Option<Entry>, ghost call: Call)
    requires q.Valid()
    modifies q
    ensures q.Valid() && Step(multiset(old(q.heap)), call, multiset(q.heap), q.maxSize)
    ensures call == Serve(now, served, multiset(Dead(old(q.heap), now)))
  {
    hide Live, Dead, Step, Expired, Le;
    var expired;
    served, expired := q.Dequeue(now);
    call := Serve(now, served, multiset(expired));
    ServeIsStep(old(q.heap), q.heap, now, served, q.maxSize);
  }

  /** A run from the empty queue. */
  ghost predicate IsRun(states: seq<multiset<Entry>>, calls: seq<Call>, maxSize: int) {
    && |states| == |calls| + 1
    && states[0] == multiset{}
    && forall k :: 0 <= k < |calls| ==> Step(states[k], calls[k], states[k + 1], maxSize)
  }

  function Accepted(calls: seq<Call>): multiset<Entry> {
    if calls == [] then multiset{} else
      Accepted(calls[..|calls| - 1]) + (match calls[|calls| - 1] case Accept(e) => multiset{e} case _ => multiset{})
  }

  function Served(calls: seq<Call>): multiset<Entry> {
    if calls == [] then multiset{} else
      Served(calls[..|calls| - 1])
      + (match calls[|calls| - 1] case Serve(_, Some(e), _) => multiset{e} case _ => multiset{})
  }

  function TimedOut(calls: seq<Call>): multiset<Entry> {
    if calls == [] then multiset{} else
      TimedOut(calls[..|calls| - 1])
      + (match calls[|calls| - 1] case Serve(_, _, x) => x case Purge(_, x) => x case _ => multiset{})
  }

  lemma StepConserves(s: multiset<Entry>, call: Call, t: multiset<Entry>, maxSize: int,
                      a: multiset<Entry>, out: multiset<Entry>, x: multiset<Entry>)
    requires Step(s, call, t, maxSize) && a == s + out + x
    ensures a + Accepted([call]) == t + (out + Served([call])) + (x + TimedOut([call]))
    ensures |s| == 0 || |s| <= maxSize ==> |t| == 0 || |t| <= maxSize
  {
    OneCall(call);
    if call.Serve? {
      var o := if call.served.Some? then multiset{call.served.value} else multiset{};
      assert s == t + call.expired + o;
      assert |s| == |t| + |call.expired| + |o|;
    } else if call.Purge? {
      assert |s| == |t| + |call.expired|;
    }
  }

  lemma OneCall(call: Call)
    ensures Accepted([call]) == match call case Accept(e) => multiset{e} case _ => multiset{}
    ensures Served([call]) == match call case Serve(_, Some(e), _) => multiset{e} case _ => multiset{}
    ensures TimedOut([call]) == match call case Serve(_, _, x) => x case Purge(_, x) => x case _ => multiset{}
  {
    assert [call][..0] == [];
  }

  /** Over every run: whatever was accepted is waiting, served or timed out, each once,
      and no more than `maxSize` ever wait. */
  lemma {:induction false} Conservation(states: seq<multiset<Entry>>, calls: seq<Call>, maxSize: int)
    requires IsRun(states, calls, maxSize)
    ensures Accepted(calls) == states[|calls|] + Served(calls) + TimedOut(calls)
    ensures |states[|calls|]| == 0 || |states[|calls|]| <= maxSize
    decreases |calls|
  {
    hide Step;
    if calls != [] {
      var n := |calls| - 1;
      var front, call := calls[..n], calls[n];
      Conservation(states[..n + 1], front, maxSize);
      StepConserves(states[n], call, states[n + 1], maxSize, Accepted(front), Served(front), TimedOut(front));
      OneCall(call);
    }
  }

  /** An entry waiting at one moment of a run has waited since it was last accepted. */
  lemma {:induction false} WaitedSince(states: seq<multiset<Entry>>, calls: seq<Call>, maxSize: int, e: Entry, i: nat, j: nat)
    requires IsRun(states, calls, maxSize) && i <= j <= |calls| && e in states[j]
    requires forall k :: i <= k < j ==> calls[k] != Accept(e)
    ensures e in states[i]
    decreases j - i
  {
    if i < j {
      assert Step(states[j - 1], calls[j - 1], states[j], maxSize);
      WaitedSince(states, calls, maxSize, e, i, j - 1);
    }
  }

  /** Same priority is first in, first out: over every run, of two entries accepted one
      after the other with a later time stamp, both served, the earlier is served first. */
  lemma FifoWithinPriority(states: seq<multiset<Entry>>, calls: seq<Call>, maxSize: int,
                           a: Entry, b: Entry, inA: nat, inB: nat, outA: nat, outB: nat)
    requires IsRun(states, calls, maxSize)
    requires inA < inB < outB < |calls| && inA < outA < |calls|
    requires calls[inA] == Accept(a) && calls[inB] == Accept(b)
    requires forall k :: 0 <= k < |calls| && k != inA ==> calls[k] != Accept(a)
    requires a.priority == b.priority && a.enqueuedAt < b.enqueuedAt
    requires calls[outA].Serve? && calls[outA].served == Some(a)
    requires calls[outB].Serve? && calls[outB].served == Some(b)
    ensures outA < outB
  {
    assert Step(states[outA], calls[outA], states[outA + 1], maxSize);
    assert Step(states[outB], calls[outB], states[outB + 1], maxSize);
    if outB < outA {
      WaitedSince(states, calls, maxSize, a, outB + 1, outA);
    }
  }

  /** The more urgent go first: over every run, while an entry waits in time none of a higher
      priority number is served, and of the same priority none that came later; what is served
      is served in time. */
  lemma MostUrgentFirst(states: seq<multiset<Entry>>, calls: seq<Call>, maxSize: int, k: nat, a: Entry)
    requires IsRun(states, calls, maxSize) && k < |calls|
    requires calls[k].Serve? && a in states[k] && calls[k].now <= a.deadline
    ensures calls[k].served.Some?
    ensures var b := calls[k].served.value;
            && calls[k].now <= b.deadline
            && (b.priority < a.priority || (b.priority == a.priority && b.enqueuedAt <= a.enqueuedAt))
  {
    assert Step(states[k], calls[k], states[k + 1], maxSize);
    assert a in states[k + 1] || calls[k].served == Some(a);
    LeInNumbers(calls[k].served.value, a);
  }

  // ------------------------------------------------------ first in, first out

  lemma {:induction false} RisenKeeps(s: seq<Entry>, i: nat)
    requires Bubbling(s, i)
    ensures IsHeap(Risen(s, i)) && multiset(Risen(s, i)) == multiset(s)
    decreases i
  {
    hide Le, Compare, Swap;
    if i > 0 && Compare(s[i], s[Parent(i)]) < 0.0 {
      OutOfOrder(s[Parent(i)], s[i]);
      BubbleStep(s, i);
      SwapKeeps(s, i, Parent(i));
      RisenKeeps(Swap(s, i, Parent(i)), Parent(i));
    } else if i > 0 {
      InOrder(s[Parent(i)], s[i]);
    }
  }

  lemma OutOfOrder(a: Entry, b: Entry)
    requires Compare(b, a) < 0.0
    ensures !Le(a, b)
  {
  }

  lemma InOrder(a: Entry, b: Entry)
    requires !(Compare(b, a) < 0.0)
    ensures Le(a, b)
  {
  }

  lemma {:induction false} SunkKeeps(s: seq<Entry>, lo: nat, i: nat)
    requires Sinking(s, lo, i)
    ensures HeapFrom(Sunk(s, i), lo) && multiset(Sunk(s, i)) == multiset(s)
    decreases |s| - i
  {
    hide Sinking, HeapFrom, Le, Compare, Swap;
    SinkingInside(s, lo, i);
    var m := Smallest(s, i);
    SinkStep(s, lo, i);
    if m != i {
      SwapKeeps(s, i, m);
      SunkKeeps(Swap(s, i, m), lo, m);
    }
  }

  lemma SinkingInside(s: seq<Entry>, lo: nat, i: nat)
    requires Sinking(s, lo, i)
    ensures lo <= i < |s|
  {
  }

  lemma PushedKeeps(s: seq<Entry>, e: Entry)
    requires IsHeap(s)
    ensures IsHeap(Pushed(s, e)) && multiset(Pushed(s, e)) == multiset(s) + multiset{e}
  {
    RisenKeeps(s + [e], |s|);
  }

  lemma LastToRoot(s: seq<Entry>)
    requires IsHeap(s) && |s| > 1
    ensures Sinking(s[..|s| - 1][0 := s[|s| - 1]], 0, 0)
  {
    hide Le, Compare;
    SinkStart(s[..|s| - 1][0 := s[|s| - 1]], 0);
  }

  lemma PoppedKeeps(s: seq<Entry>)
    requires IsHeap(s) && s != []
    ensures IsHeap(Popped(s)) && multiset(s) == multiset(Popped(s)) + multiset{s[0]} && |Popped(s)| == |s| - 1
  {
    var rest, last := s[..|s| - 1], s[|s| - 1];
    assert s == rest + [last];
    if rest != [] {
      Replaced(rest, last);
      LastToRoot(s);
      hide Le, Compare, HeapFrom, Sinking, Sunk;
      SunkKeeps(rest[0 := last], 0, 0);
      SameSize(Popped(s), rest[0 := last]);
    } else {
      assert s == [s[0]];
    }
  }

  /** The array after enqueueing entries in order. */
  function PushAll(es: seq<Entry>): seq<Entry> {
    if es == [] then [] else Pushed(PushAll(es[..|es| - 1]), es[|es| - 1])
  }

  /** The order in which a heap is served, `n` being how many entries to serve. */
  function ServedInOrder(s: seq<Entry>, n: nat): seq<Entry>
    decreases n
  {
    if n == 0 || s == [] then [] else [s[0]] + ServedInOrder(Popped(s), n - 1)
  }

  lemma {:induction false} PushAllKeeps(es: seq<Entry>)
    ensures IsHeap(PushAll(es)) && multiset(PushAll(es)) == multiset(es)
  {
    if es != [] {
      var front, e := es[..|es| - 1], es[|es| - 1];
      PushAllKeeps(front);
      PushedKeeps(PushAll(front), e);
      assert es == front + [e];
    }
  }

  /** A heap is served in order, one of its entries after the other. */
  lemma {:induction false} ServedSorted(s: seq<Entry>, n: nat, j: nat)
    requires IsHeap(s) && j < |ServedInOrder(s, n)|
    ensures ServedInOrder(s, n)[j] in s
    ensures forall i :: 0 <= i <= j ==> Le(ServedInOrder(s, n)[i], ServedInOrder(s, n)[j])
    decreases n
  {
    hide Le, IsHeap, Popped;
    var out := ServedInOrder(s, n);
    if j > 0 {
      PoppedKeeps(s);
      ServedSorted(Popped(s), n - 1, j - 1);
      assert out[1..] == ServedInOrder(Popped(s), n - 1);
      assert out[j] in multiset(Popped(s));
      assert out[j] in multiset(s);
    }
    var k :| 0 <= k < |s| && s[k] == out[j];
    RootIsLeast(s, k);
    LeReflexive(out[j]);
  }

  lemma LeReflexive(e: Entry)
    ensures Le(e, e)
  {
  }

  /** However full the queue is of whatever other entries, accepted before, between or after,
      `a` accepted before `b` is served before `b`. */
  ghost predicate AlwaysFirst(a: Entry, b: Entry) {
    forall es, i, j :: PushedBefore(es, a, b) && ServedAt(es, i, a) && ServedAt(es, j, b) ==> i < j
  }

  ghost predicate PushedBefore(es: seq<Entry>, a: Entry, b: Entry) {
    exists i, j :: 0 <= i < j < |es| && es[i] == a && es[j] == b
  }

  ghost predicate ServedAt(es: seq<Entry>, i: int, e: Entry) {
    0 <= i < |ServedInOrder(PushAll(es), |es|)| && ServedInOrder(PushAll(es), |es|)[i] == e
  }

  /** First in, first out between two entries of one priority, the first no later than the
      second, holds whatever else is queued exactly when their time stamps differ. */
  lemma FifoIff(a: Entry, b: Entry)
    requires a != b && a.priority == b.priority && a.enqueuedAt <= b.enqueuedAt
    ensures AlwaysFirst(a, b) <==> a.enqueuedAt < b.enqueuedAt
  {
    hide ServedAt, PushedBefore;
    if a.enqueuedAt < b.enqueuedAt {
      forall es, i, j | PushedBefore(es, a, b) && ServedAt(es, i, a) && ServedAt(es, j, b) ensures i < j {
        EarlierFirst(es, a, b, i, j);
      }
    } else {
      TieOvertakes(a, b);
    }
  }

  lemma EarlierFirst(es: seq<Entry>, a: Entry, b: Entry, i: int, j: int)
    requires a.priority == b.priority && a.enqueuedAt < b.enqueuedAt
    requires ServedAt(es, i, a) && ServedAt(es, j, b)
    ensures i < j
  {
    hide ServedInOrder;
    PushAllKeeps(es);
    ServedSorted(PushAll(es), |es|, i);
    assert !Le(b, a);
  }

  /** A third entry of the same key, accepted first, makes the later one overtake. */
  lemma TieOvertakes(a: Entry, b: Entry)
    requires a != b && a.priority == b.priority && a.enqueuedAt == b.enqueuedAt
    ensures !AlwaysFirst(a, b)
  {
    var x := a.(id := a.id + b.id + 1);
    var es := [x, a, b];
    assert es[1] == a && es[2] == b;
    assert PushedBefore(es, a, b);
    assert es[..2] == [x, a] && [x, a][..1] == [x] && [x][..0] == [];
    hide Pushed, Popped;
    TiesAreNotFifo(x, a, b);
    var s := PushAll(es);
    assert PushAll([x]) == Pushed([], x);
    assert PushAll([x, a]) == Pushed(PushAll([x]), a);
    assert s == Pushed(Pushed(Pushed([], x), a), b);
    hide PushAll;
    ThreeServed(s);
    assert ServedAt(es, 1, b) && ServedAt(es, 2, a);
  }

  lemma ThreeServed(s: seq<Entry>)
    requires s != [] && Popped(s) != [] && Popped(Popped(s)) != []
    ensures var out := ServedInOrder(s, 3); |out| == 3 && out[1] == Popped(s)[0] && out[2] == Popped(Popped(s))[0]
  {
    hide Popped;
    assert ServedInOrder(Popped(Popped(s)), 1) == [Popped(Popped(s))[0]];
    assert ServedInOrder(Popped(s), 2) == [Popped(s)[0]] + [Popped(Popped(s))[0]];
  }
}
