// The subscriber tables of src/bus/agent-bus.ts: which subscribers an event has, in which order
// they are called, and what subscribing and unsubscribing change about that.

module BusTable {

  /** `correlation` is "" when the event carries none. */
  datatype Event = Event(kind: string, correlation: string)
  datatype Sub = Sub(id: nat, handler: nat)

  // --------------------------------------------------------- subscriptions

  /** The subscriber maps: prefixes keep the order of their first subscription. */
  datatype Table = Table(wildcard: seq<Sub>, prefix: seq<(string, seq<Sub>)>, exact: map<string, seq<Sub>>,
                         replies: map<string, seq<Sub>>, next: nat)

  datatype Pattern = Kind(pattern: string) | Reply(correlation: string)

  predicate IsPrefixPattern(p: string) { |p| >= 2 && p[|p| - 2..] == ".*" }

  /** What a pattern is documented to match. */
  predicate Matches(p: Pattern, e: Event) {
    match p
    case Kind(k) => if k == "*" then true else if IsPrefixPattern(k) then k[..|k| - 1] <= e.kind else k == e.kind
    case Reply(c) => e.correlation != "" && c == e.correlation
  }

  /** In characters: "*" matches every kind, a pattern that ends in ".*" the kinds that begin with
      what stands before the star, and any other pattern itself. */
  lemma MatchesInCharacters(k: string, e: Event)
    ensures Matches(Kind(k), e) <==>
              || k == ['*']
              || (|k| > 1 && k[|k| - 1] == '*' && k[|k| - 2] == '.' && k[..|k| - 1] <= e.kind)
              || (k == e.kind && !(|k| > 1 && k[|k| - 1] == '*' && k[|k| - 2] == '.'))
  {
    if |k| > 1 { assert k[|k| - 2..] == [k[|k| - 2], k[|k| - 1]]; }
  }

  function Bucket(m: map<string, seq<Sub>>, key: string): seq<Sub> { if key in m then m[key] else [] }

  function AddPrefix(ps: seq<(string, seq<Sub>)>, key: string, s: Sub): seq<(string, seq<Sub>)> {
    if ps == [] then [(key, [s])]
    else if ps[0].0 == key then [(key, ps[0].1 + [s])] + ps[1..]
    else [ps[0]] + AddPrefix(ps[1..], key, s)
  }

  function Subscribe(t: Table, p: Pattern, handler: nat): Table {
    var s, u := Sub(t.next, handler), t.(next := t.next + 1);
    match p
    case Kind(k) =>
      if k == "*" then u.(wildcard := t.wildcard + [s])
      else if IsPrefixPattern(k) then u.(prefix := AddPrefix(t.prefix, k[..|k| - 1], s))
      else u.(exact := t.exact[k := Bucket(t.exact, k) + [s]])
    case Reply(c) => u.(replies := t.replies[c := Bucket(t.replies, c) + [s]])
  }

  function Drop(ss: seq<Sub>, id: nat): seq<Sub> {
    if ss == [] then [] else (if ss[0].id == id then [] else [ss[0]]) + Drop(ss[1..], id)
  }

  /** A prefix left without subscribers loses its place in the order. */
  function DropPrefix(ps: seq<(string, seq<Sub>)>, key: string, id: nat): seq<(string, seq<Sub>)> {
    if ps == [] then []
    else if ps[0].0 == key then
      (if Drop(ps[0].1, id) == [] then [] else [(key, Drop(ps[0].1, id))]) + ps[1..]
    else [ps[0]] + DropPrefix(ps[1..], key, id)
  }

  function DropKey(m: map<string, seq<Sub>>, key: string, id: nat): map<string, seq<Sub>> {
    if key !in m then m
    else if Drop(m[key], id) == [] then m - {key}
    else m[key := Drop(m[key], id)]
  }

  function Unsubscribe(t: Table, p: Pattern, id: nat): Table {
    match p
    case Kind(k) =>
      if k == "*" then t.(wildcard := Drop(t.wildcard, id))
      else if IsPrefixPattern(k) then t.(prefix := DropPrefix(t.prefix, k[..|k| - 1], id))
      else t.(exact := DropKey(t.exact, k, id))
    case Reply(c) => t.(replies := DropKey(t.replies, c, id))
  }

  function Cleared(t: Table): Table { Table([], [], map[], map[], t.next) }

  function PrefixSubs(ps: seq<(string, seq<Sub>)>, kind: string): seq<Sub> {
    if ps == [] then [] else (if ps[0].0 <= kind then ps[0].1 else []) + PrefixSubs(ps[1..], kind)
  }

  /** The subscribers of an event: wildcard, then prefix, then exact, then reply. */
  function Subscribers(t: Table, e: Event): seq<Sub> {
    t.wildcard + PrefixSubs(t.prefix, e.kind) + Bucket(t.exact, e.kind)
    + (if e.correlation != "" then Bucket(t.replies, e.correlation) else [])
  }

  /** The maps as the bus holds them, changed in place. */
  class Subscriptions {
    var wildcard: seq<Sub>
    var prefix: seq<(string, seq<Sub>)>
    var exact: map<string, seq<Sub>>
    var replies: map<string, seq<Sub>>
    var next: nat

    function State(): Table
      reads this
    {
      Table(wildcard, prefix, exact, replies, next)
    }

    constructor ()
      ensures State() == Table([], [], map[], map[], 0)
    {
      wildcard, prefix, exact, replies, next := [], [], map[], map[], 0;
    }

    method On(kindPattern: string, handler: nat) returns (id: nat)
      modifies this
      ensures id == old(next) && State() == Subscribe(old(State()), Kind(kindPattern), handler)
    {
      id := next;
      var entry := Sub(id, handler);
      next := next + 1;
      if kindPattern == "*" {
        wildcard := wildcard + [entry];
      } else if IsPrefixPattern(kindPattern) {
        prefix := AddPrefix(prefix, kindPattern[..|kindPattern| - 1], entry);
      } else {
        if kindPattern !in exact { exact := exact[kindPattern := []]; }
        exact := exact[kindPattern := exact[kindPattern] + [entry]];
      }
    }

    method OnReply(correlation: string, handler: nat) returns (id: nat)
      modifies this
      ensures id == old(next) && State() == Subscribe(old(State()), Reply(correlation), handler)
    {
      id := next;
      next := next + 1;
      if correlation !in replies { replies := replies[correlation := []]; }
      replies := replies[correlation := replies[correlation] + [Sub(id, handler)]];
    }

    /** What the function handed back by `On` or `OnReply` does. */
    method Off(p: Pattern, id: nat)
      modifies this
      ensures State() == Unsubscribe(old(State()), p, id)
    {
      match p
      case Kind(k) =>
        if k == "*" {
          wildcard := Drop(wildcard, id);
        } else if IsPrefixPattern(k) {
          prefix := DropPrefix(prefix, k[..|k| - 1], id);
        } else if k in exact {
          exact := exact[k := Drop(exact[k], id)];
          if exact[k] == [] { exact := exact - {k}; }
        }
      case Reply(c) =>
        if c in replies {
          replies := replies[c := Drop(replies[c], id)];
          if replies[c] == [] { replies := replies - {c}; }
        }
    }

    method Clear()
      modifies this
      ensures State() == Cleared(old(State()))
    {
      wildcard, prefix, exact, replies := [], [], map[], map[];
    }
  }

  // --------------------------------------------------------------- patterns

  lemma {:induction false} AddPrefixSubs(ps: seq<(string, seq<Sub>)>, key: string, s: Sub, kind: string)
    ensures multiset(PrefixSubs(AddPrefix(ps, key, s), kind)) ==
              multiset(PrefixSubs(ps, kind)) + (if key <= kind then multiset{s} else multiset{})
  {
    if ps == [] {
      assert [(key, [s])][1..] == [];
    } else if ps[0].0 == key {
      var qs := [(key, ps[0].1 + [s])] + ps[1..];
      assert qs[1..] == ps[1..];
    } else {
      var qs := [ps[0]] + AddPrefix(ps[1..], key, s);
      assert qs[1..] == AddPrefix(ps[1..], key, s);
      AddPrefixSubs(ps[1..], key, s, kind);
    }
  }

  function ReplySubs(t: Table, e: Event): seq<Sub> {
    if e.correlation != "" then Bucket(t.replies, e.correlation) else []
  }

  lemma SubscribersInParts(t: Table, e: Event)
    ensures multiset(Subscribers(t, e)) == multiset(t.wildcard) + multiset(PrefixSubs(t.prefix, e.kind))
                                           + multiset(Bucket(t.exact, e.kind)) + multiset(ReplySubs(t, e))
  {
    hide PrefixSubs, Bucket;
  }

  lemma BucketGrows(m: map<string, seq<Sub>>, key: string, s: Sub, other: string)
    ensures multiset(Bucket(m[key := Bucket(m, key) + [s]], other)) ==
              multiset(Bucket(m, other)) + (if key == other then multiset{s} else multiset{})
  {
  }

  /** A subscription is found for exactly the events its pattern is documented to match,
      and finding it disturbs no other. */
  lemma SubscriptionMatches(t: Table, p: Pattern, handler: nat, e: Event)
    ensures multiset(Subscribers(Subscribe(t, p, handler), e)) ==
              multiset(Subscribers(t, e)) + (if Matches(p, e) then multiset{Sub(t.next, handler)} else multiset{})
  {
    hide Subscribers, Subscribe, Matches;
    forall x ensures multiset(Subscribers(Subscribe(t, p, handler), e))[x] ==
                     multiset(Subscribers(t, e))[x] + (if Matches(p, e) && x == Sub(t.next, handler) then 1 else 0) {
      SubscriptionCounts(t, p, handler, e, x);
    }
  }

  lemma SubscriptionCounts(t: Table, p: Pattern, handler: nat, e: Event, x: Sub)
    ensures multiset(Subscribers(Subscribe(t, p, handler), e))[x] ==
              multiset(Subscribers(t, e))[x] + (if Matches(p, e) && x == Sub(t.next, handler) then 1 else 0)
  {
    hide PrefixSubs, AddPrefix, Subscribers, Bucket, IsPrefixPattern;
    var s := Sub(t.next, handler);
    SubscribersInParts(t, e);
    SubscribersInParts(Subscribe(t, p, handler), e);
    match p
    case Kind(k) =>
      if k == "*" {
        assert multiset(t.wildcard + [s]) == multiset(t.wildcard) + multiset{s};
      } else if IsPrefixPattern(k) {
        PrefixKey(k);
        AddPrefixSubs(t.prefix, k[..|k| - 1], s, e.kind);
      } else {
        BucketGrows(t.exact, k, s, e.kind);
      }
    case Reply(c) => BucketGrows(t.replies, c, s, e.correlation);
  }

  lemma PrefixKey(k: string)
    requires IsPrefixPattern(k)
    ensures |k| >= 2
  {
  }

  // ---------------------------------------------------------- unsubscribing

  function PrefixBucket(ps: seq<(string, seq<Sub>)>, key: string): seq<Sub> {
    if ps == [] then [] else if ps[0].0 == key then ps[0].1 else PrefixBucket(ps[1..], key)
  }

  /** The subscriptions made under a pattern. */
  function Listed(t: Table, p: Pattern): seq<Sub> {
    match p
    case Kind(k) =>
      if k == "*" then t.wildcard
      else if IsPrefixPattern(k) then PrefixBucket(t.prefix, k[..|k| - 1])
      else Bucket(t.exact, k)
    case Reply(c) => Bucket(t.replies, c)
  }

  lemma {:induction false} DropCount(ss: seq<Sub>, id: nat, x: Sub)
    ensures multiset(Drop(ss, id))[x] == if x.id == id then 0 else multiset(ss)[x]
  {
    if ss != [] {
      DropCount(ss[1..], id, x);
      assert ss == [ss[0]] + ss[1..];
      assert multiset(ss) == multiset{ss[0]} + multiset(ss[1..]);
    }
  }

  lemma {:induction false} DropPrefixCount(ps: seq<(string, seq<Sub>)>, key: string, id: nat, kind: string, x: Sub)
    ensures multiset(PrefixSubs(ps, kind))[x] == multiset(PrefixSubs(DropPrefix(ps, key, id), kind))[x]
              + (if key <= kind && x.id == id then multiset(PrefixBucket(ps, key))[x] else 0)
  {
    hide Drop;
    if ps != [] {
      if ps[0].0 == key {
        DropCount(ps[0].1, id, x);
        assert ([(key, Drop(ps[0].1, id))] + ps[1..])[1..] == ps[1..];
        assert [] + ps[1..] == ps[1..];
      } else {
        DropPrefixCount(ps[1..], key, id, kind, x);
        assert ([ps[0]] + DropPrefix(ps[1..], key, id))[1..] == DropPrefix(ps[1..], key, id);
      }
    }
  }

  lemma DropKeyCount(m: map<string, seq<Sub>>, key: string, id: nat, other: string, x: Sub)
    ensures multiset(Bucket(m, other))[x] == multiset(Bucket(DropKey(m, key, id), other))[x]
              + (if key == other && x.id == id then multiset(Bucket(m, key))[x] else 0)
  {
    hide Drop;
    if key in m { DropCount(m[key], id, x); }
  }

  /** Unsubscribing takes that subscription out for exactly the events its pattern matches, and
      leaves every other one, under whatever pattern, as it was. */
  lemma UnsubscriptionMatches(t: Table, p: Pattern, id: nat, e: Event, x: Sub)
    ensures multiset(Subscribers(t, e))[x] == multiset(Subscribers(Unsubscribe(t, p, id), e))[x]
              + (if Matches(p, e) && x.id == id then multiset(Listed(t, p))[x] else 0)
  {
    hide PrefixSubs, PrefixBucket, DropPrefix, DropKey, Drop, Subscribers, Bucket, IsPrefixPattern;
    SubscribersInParts(t, e);
    SubscribersInParts(Unsubscribe(t, p, id), e);
    match p
    case Kind(k) =>
      if k == "*" {
        DropCount(t.wildcard, id, x);
      } else if IsPrefixPattern(k) {
        PrefixKey(k);
        DropPrefixCount(t.prefix, k[..|k| - 1], id, e.kind, x);
      } else {
        DropKeyCount(t.exact, k, id, e.kind, x);
      }
    case Reply(c) => DropKeyCount(t.replies, c, id, e.correlation, x);
  }

  /** Subscribing and unsubscribing again leaves every event with the subscribers it had. */
  lemma OffUndoesOn(t: Table, p: Pattern, handler: nat, e: Event)
    requires forall x :: x in Listed(t, p) ==> x.id < t.next
    ensures multiset(Subscribers(Unsubscribe(Subscribe(t, p, handler), p, t.next), e)) == multiset(Subscribers(t, e))
  {
    hide Subscribers, Subscribe, Unsubscribe, Listed, Matches;
    var u := Subscribe(t, p, handler);
    SubscriptionMatches(t, p, handler, e);
    ListedGrows(t, p, handler);
    forall x ensures multiset(Subscribers(Unsubscribe(u, p, t.next), e))[x] == multiset(Subscribers(t, e))[x] {
      UnsubscriptionMatches(u, p, t.next, e, x);
      if x.id == t.next { assert x !in Listed(t, p); }
    }
  }

  lemma {:induction false} PrefixBucketGrows(ps: seq<(string, seq<Sub>)>, key: string, s: Sub)
    ensures PrefixBucket(AddPrefix(ps, key, s), key) == PrefixBucket(ps, key) + [s]
  {
    if ps != [] && ps[0].0 != key {
      PrefixBucketGrows(ps[1..], key, s);
      assert ([ps[0]] + AddPrefix(ps[1..], key, s))[1..] == AddPrefix(ps[1..], key, s);
    }
  }

  lemma ListedGrows(t: Table, p: Pattern, handler: nat)
    ensures Listed(Subscribe(t, p, handler), p) == Listed(t, p) + [Sub(t.next, handler)]
  {
    hide PrefixBucket, AddPrefix, IsPrefixPattern;
    if p.Kind? && IsPrefixPattern(p.pattern) {
      PrefixKey(p.pattern);
      PrefixBucketGrows(t.prefix, p.pattern[..|p.pattern| - 1], Sub(t.next, handler));
    }
  }

  // ------------------------------------------------------------------ order

  /** Where a prefix stands among the prefixes, and after them all when it has no subscriber. */
  function KeyIndex(ps: seq<(string, seq<Sub>)>, key: string): (i: nat)
    ensures i <= |ps| && (i < |ps| ==> ps[i].0 == key)
  {
    if ps == [] || ps[0].0 == key then 0 else 1 + KeyIndex(ps[1..], key)
  }

  /** The place of a pattern in the order of calls: the wildcard, the prefixes, the kind itself,
      the reply. */
  function Place(t: Table, p: Pattern): nat {
    match p
    case Reply(_) => |t.prefix| + 3
    case Kind(k) =>
      if k == "*" then 0
      else if IsPrefixPattern(k) then 1 + KeyIndex(t.prefix, k[..|k| - 1])
      else |t.prefix| + 2
  }

  /** `part` stands in `all`, from `i` on. */
  predicate StandsAt(all: seq<Sub>, i: nat, part: seq<Sub>) { i + |part| <= |all| && all[i..i + |part|] == part }

  lemma {:induction false} PrefixSubsConcat(a: seq<(string, seq<Sub>)>, b: seq<(string, seq<Sub>)>, kind: string)
    ensures PrefixSubs(a + b, kind) == PrefixSubs(a, kind) + PrefixSubs(b, kind)
  {
    if a == [] {
      assert a + b == b;
    } else {
      assert (a + b)[1..] == a[1..] + b;
      PrefixSubsConcat(a[1..], b, kind);
    }
  }

  lemma {:induction false} BucketAtIndex(ps: seq<(string, seq<Sub>)>, key: string)
    ensures PrefixBucket(ps, key) == if KeyIndex(ps, key) < |ps| then ps[KeyIndex(ps, key)].1 else []
  {
    if ps != [] { BucketAtIndex(ps[1..], key); }
  }

  /** Among the subscribers of an event, those before a place. */
  function Earlier(t: Table, e: Event, place: nat): nat {
    if place == 0 then 0
    else if place <= |t.prefix| then |t.wildcard| + |PrefixSubs(t.prefix[..place - 1], e.kind)|
    else |t.wildcard| + |PrefixSubs(t.prefix, e.kind)|
         + (if place == |t.prefix| + 3 then |Bucket(t.exact, e.kind)| else 0)
  }

  lemma InPlace(t: Table, p: Pattern, e: Event)
    requires Matches(p, e)
    ensures StandsAt(Subscribers(t, e), Earlier(t, e, Place(t, p)), Listed(t, p))
  {
    hide Bucket, PrefixSubs, PrefixBucket, KeyIndex, IsPrefixPattern;
    if p.Kind? && p.pattern != "*" && IsPrefixPattern(p.pattern) {
      PrefixKey(p.pattern);
      PrefixInPlace(t, p.pattern[..|p.pattern| - 1], e);
    }
  }

  lemma PrefixInPlace(t: Table, key: string, e: Event)
    requires key <= e.kind
    ensures var i := KeyIndex(t.prefix, key);
            StandsAt(Subscribers(t, e), Earlier(t, e, i + 1), PrefixBucket(t.prefix, key))
  {
    hide Bucket, PrefixBucket, KeyIndex;
    var ps, i := t.prefix, KeyIndex(t.prefix, key);
    BucketAtIndex(ps, key);
    if i < |ps| {
      assert ps == ps[..i] + ([ps[i]] + ps[i + 1..]);
      PrefixSubsConcat(ps[..i], [ps[i]] + ps[i + 1..], e.kind);
      assert ([ps[i]] + ps[i + 1..])[1..] == ps[i + 1..];
      assert PrefixSubs([ps[i]] + ps[i + 1..], e.kind) == ps[i].1 + PrefixSubs(ps[i + 1..], e.kind);
      hide PrefixSubs;
      var at := |t.wildcard| + |PrefixSubs(ps[..i], e.kind)|;
      assert Subscribers(t, e)[at..at + |ps[i].1|] == ps[i].1;
    }
  }

  lemma LaterPlace(t: Table, e: Event, p: Pattern, q: Pattern)
    requires Matches(p, e) && Place(t, p) < Place(t, q)
    ensures Earlier(t, e, Place(t, p)) + |Listed(t, p)| <= Earlier(t, e, Place(t, q))
  {
    hide Bucket, PrefixSubs, PrefixBucket, KeyIndex, IsPrefixPattern, Subscribers;
    if p.Kind? && p.pattern != "*" && IsPrefixPattern(p.pattern) {
      PrefixKey(p.pattern);
      var key := p.pattern[..|p.pattern| - 1];
      var i := KeyIndex(t.prefix, key);
      BucketAtIndex(t.prefix, key);
      if i < |t.prefix| {
        PrefixesBefore(t.prefix, e.kind, i, i + 1);
        var j := if Place(t, q) <= |t.prefix| then Place(t, q) - 1 else |t.prefix|;
        PrefixesBefore(t.prefix, e.kind, i + 1, j);
        assert t.prefix[..|t.prefix|] == t.prefix;
        OnePrefix(t.prefix[..i], t.prefix[i], e.kind);
        assert t.prefix[..i] + [t.prefix[i]] == t.prefix[..i + 1];
      }
    }
  }

  lemma OnePrefix(ps: seq<(string, seq<Sub>)>, x: (string, seq<Sub>), kind: string)
    requires x.0 <= kind
    ensures PrefixSubs(ps + [x], kind) == PrefixSubs(ps, kind) + x.1
  {
    PrefixSubsConcat(ps, [x], kind);
    assert [x][1..] == [];
  }

  lemma PrefixesBefore(ps: seq<(string, seq<Sub>)>, kind: string, i: nat, j: nat)
    requires i <= j <= |ps|
    ensures |PrefixSubs(ps[..i], kind)| <= |PrefixSubs(ps[..j], kind)|
  {
    assert ps[..j] == ps[..i] + ps[i..j];
    PrefixSubsConcat(ps[..i], ps[i..j], kind);
  }

  /** An event's subscribers are called pattern by pattern: those under one pattern together, in
      the order they subscribed in, and before those under a pattern with a later place. */
  lemma CalledInOrder(t: Table, e: Event, p: Pattern, q: Pattern) returns (i: nat, j: nat)
    requires Matches(p, e) && Matches(q, e) && Place(t, p) < Place(t, q)
    ensures StandsAt(Subscribers(t, e), i, Listed(t, p)) && StandsAt(Subscribers(t, e), j, Listed(t, q))
    ensures i + |Listed(t, p)| <= j
  {
    hide Subscribers, Listed, Earlier, Place, Matches;
    i, j := Earlier(t, e, Place(t, p)), Earlier(t, e, Place(t, q));
    InPlace(t, p, e);
    InPlace(t, q, e);
    LaterPlace(t, e, p, q);
  }

  /** Places are given in the order of first subscription: a prefix keeps the one it has, and a
      new one comes after all others. */
  lemma {:induction false} NewPrefixLast(ps: seq<(string, seq<Sub>)>, key: string, s: Sub, other: string)
    ensures var i := KeyIndex(ps, other);
            KeyIndex(AddPrefix(ps, key, s), other) ==
              if i < |ps| || other == key then i else |AddPrefix(ps, key, s)|
    ensures |AddPrefix(ps, key, s)| == |ps| + (if KeyIndex(ps, key) < |ps| then 0 else 1)
  {
    if ps == [] {
      assert [(key, [s])][1..] == [];
    } else if ps[0].0 == key {
      assert ([(key, ps[0].1 + [s])] + ps[1..])[1..] == ps[1..];
    } else {
      assert ([ps[0]] + AddPrefix(ps[1..], key, s))[1..] == AddPrefix(ps[1..], key, s);
      NewPrefixLast(ps[1..], key, s, other);
    }
  }

  /** Unsubscribing leaves the others in their order. */
  lemma {:induction false} DropKeepsOrder(a: seq<Sub>, b: seq<Sub>, id: nat)
    ensures Drop(a + b, id) == Drop(a, id) + Drop(b, id)
  {
    if a == [] {
      assert a + b == b;
    } else {
      assert (a + b)[1..] == a[1..] + b && (a + b)[0] == a[0];
      DropKeepsOrder(a[1..], b, id);
      var first := if a[0].id == id then [] else [a[0]];
      assert Drop(a + b, id) == first + Drop(a[1..] + b, id) && Drop(a, id) == first + Drop(a[1..], id);
      hide Drop;
      assert first + (Drop(a[1..], id) + Drop(b, id)) == (first + Drop(a[1..], id)) + Drop(b, id);
    }
  }

  lemma KeyIndexCons(x: (string, seq<Sub>), ps: seq<(string, seq<Sub>)>, key: string)
    ensures KeyIndex([x] + ps, key) == if x.0 == key then 0 else 1 + KeyIndex(ps, key)
  {
    assert ([x] + ps)[1..] == ps;
  }

  /** The other prefixes keep their order too; the one at hand keeps its place as long as a
      subscriber is left. */
  lemma {:induction false} DropPrefixKeepsOrder(ps: seq<(string, seq<Sub>)>, key: string, id: nat, other: string)
    requires other != key
    ensures var qs, i, at := DropPrefix(ps, key, id), KeyIndex(ps, other), KeyIndex(ps, key);
            if at < |ps| && Drop(PrefixBucket(ps, key), id) == []
            then |qs| == |ps| - 1 && KeyIndex(qs, other) == (if i > at then i - 1 else i)
            else |qs| == |ps| && KeyIndex(qs, other) == i && KeyIndex(qs, key) == at
  {
    hide Drop, KeyIndex;
    if ps == [] {
      assert KeyIndex(ps, other) == KeyIndex(ps, key) == 0;
    } else {
      var x, rest := ps[0], ps[1..];
      assert ps == [x] + rest;
      KeyIndexCons(x, rest, key);
      KeyIndexCons(x, rest, other);
      if x.0 == key {
        KeyIndexCons((key, Drop(x.1, id)), rest, key);
        KeyIndexCons((key, Drop(x.1, id)), rest, other);
        assert [] + rest == rest;
      } else {
        DropPrefixKeepsOrder(rest, key, id, other);
        KeyIndexCons(x, DropPrefix(rest, key, id), key);
        KeyIndexCons(x, DropPrefix(rest, key, id), other);
      }
    }
  }
}
