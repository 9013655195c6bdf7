// Derived descriptions of response bodies: collecting paths and checking a body against a
// declaration (src/llm/response-shape.ts), and folding samples into one
// (scripts/derive-response-shapes.ts).

module Shape {

  datatype Json =
    | Null | Bool(b: bool) | Num(n: real) | Str(s: string)
    | Arr(items: seq<Json>)
    | Obj(fields: seq<(string, Json)>)

  const MAX_DEPTH := 10
  const MAX_PATHS := 2000

  const DISCRIMINATORS: set<string> :=
    {"type", "object", "role", "finish_reason", "finishReason", "stop_reason", "status", "event"}

  function Join(prefix: string, key: string): string {
    if prefix == "" then key else prefix + "." + key
  }

  // ----------------------------------------------------------------- paths

  /** The accumulator after one value, its first `n` items, its first `n` fields. */
  function Paths(v: Json, prefix: string, out: set<string>, depth: nat): set<string>
    decreases v, 1, 0
  {
    if depth > MAX_DEPTH || |out| > MAX_PATHS then out
    else if v.Arr? then ItemPaths(v, prefix + "[]", out + {prefix + "[]"}, depth, |v.items|)
    else if v.Obj? then FieldPaths(v, prefix, out, depth, |v.fields|)
    else out
  }

  function ItemPaths(v: Json, p: string, out: set<string>, depth: nat, n: nat): set<string>
    requires v.Arr? && n <= |v.items|
    decreases v, 0, n
  {
    if n == 0 then out else Paths(v.items[n - 1], p, ItemPaths(v, p, out, depth, n - 1), depth + 1)
  }

  function FieldPaths(v: Json, prefix: string, out: set<string>, depth: nat, n: nat): set<string>
    requires v.Obj? && n <= |v.fields|
    decreases v, 0, n
  {
    if n == 0 then out
    else
      var p := Join(prefix, v.fields[n - 1].0);
      Paths(v.fields[n - 1].1, p, FieldPaths(v, prefix, out, depth, n - 1) + {p}, depth + 1)
  }

  method PathsOf(v: Json, prefix: string, out: set<string>, depth: nat) returns (all: set<string>)
    ensures all == Paths(v, prefix, out, depth)
    decreases v
  {
    all := out;
    if depth > MAX_DEPTH || |out| > MAX_PATHS { return; }
    if v.Arr? {
      var p := prefix + "[]";
      all := all + {p};
      for i := 0 to |v.items|
        invariant all == ItemPaths(v, p, out + {p}, depth, i)
      {
        all := PathsOf(v.items[i], p, all, depth + 1);
      }
    } else if v.Obj? {
      for i := 0 to |v.fields|
        invariant all == FieldPaths(v, prefix, out, depth, i)
      {
        var p := Join(prefix, v.fields[i].0);
        all := PathsOf(v.fields[i].1, p, all + {p}, depth + 1);
      }
    }
  }

  /** The paths of a value down to the depth limit, with no accumulator and no size guard. */
  function Reach(v: Json, prefix: string, depth: nat): set<string>
    decreases v, 1, 0
  {
    if depth > MAX_DEPTH then {}
    else if v.Arr? then {prefix + "[]"} + ReachItems(v, prefix + "[]", depth, |v.items|)
    else if v.Obj? then ReachFields(v, prefix, depth, |v.fields|)
    else {}
  }

  function ReachItems(v: Json, p: string, depth: nat, n: nat): set<string>
    requires v.Arr? && n <= |v.items|
    decreases v, 0, n
  {
    if n == 0 then {} else ReachItems(v, p, depth, n - 1) + Reach(v.items[n - 1], p, depth + 1)
  }

  function ReachFields(v: Json, prefix: string, depth: nat, n: nat): set<string>
    requires v.Obj? && n <= |v.fields|
    decreases v, 0, n
  {
    if n == 0 then {}
    else
      var p := Join(prefix, v.fields[n - 1].0);
      ReachFields(v, prefix, depth, n - 1) + {p} + Reach(v.fields[n - 1].1, p, depth + 1)
  }

  lemma {:induction false} SubsetIsNoLarger(a: set<string>, b: set<string>)
    requires a <= b
    ensures |a| <= |b|
  {
    assert |b| == |a| + |b - a| by { assert a + (b - a) == b; }
  }

  /** Nothing is forgotten, nothing invented, and as long as the result is within the limit
      nothing was skipped. */
  ghost predicate Collects(out: set<string>, all: set<string>, reach: set<string>) {
    out <= all <= out + reach && (|all| <= MAX_PATHS ==> all == out + reach)
  }

  lemma {:induction false} PathsCollect(v: Json, prefix: string, out: set<string>, depth: nat)
    ensures Collects(out, Paths(v, prefix, out, depth), Reach(v, prefix, depth))
    decreases v, 1, 0
  {
    hide ItemPaths, FieldPaths, ReachItems, ReachFields;
    if depth > MAX_DEPTH || |out| > MAX_PATHS {
    } else if v.Arr? {
      var p := prefix + "[]";
      ItemsCollect(v, p, out + {p}, depth, |v.items|);
      assert (out + {p}) + ReachItems(v, p, depth, |v.items|) == out + ({p} + ReachItems(v, p, depth, |v.items|));
    } else if v.Obj? {
      FieldsCollect(v, prefix, out, depth, |v.fields|);
    }
  }

  lemma CollectThen(out: set<string>, mid: set<string>, first: set<string>, all: set<string>, second: set<string>, extra: set<string>)
    requires Collects(out, mid, first) && Collects(mid + extra, all, second)
    ensures Collects(out, all, first + extra + second)
  {
    SubsetIsNoLarger(mid, all);
  }

  lemma {:induction false} ItemsCollect(v: Json, p: string, out: set<string>, depth: nat, n: nat)
    requires v.Arr? && n <= |v.items|
    ensures Collects(out, ItemPaths(v, p, out, depth, n), ReachItems(v, p, depth, n))
    decreases v, 0, n
  {
    hide Collects, Paths, Reach;
    if n == 0 {
      assert Collects(out, out, {}) by { CollectNothing(out); }
    } else {
      var mid := ItemPaths(v, p, out, depth, n - 1);
      var item := v.items[n - 1];
      ItemsCollect(v, p, out, depth, n - 1);
      PathsCollect(item, p, mid, depth + 1);
      assert mid + {} == mid;
      CollectThen(out, mid, ReachItems(v, p, depth, n - 1), ItemPaths(v, p, out, depth, n), Reach(item, p, depth + 1), {});
      assert ReachItems(v, p, depth, n - 1) + {} == ReachItems(v, p, depth, n - 1);
    }
  }

  lemma {:induction false} FieldsCollect(v: Json, prefix: string, out: set<string>, depth: nat, n: nat)
    requires v.Obj? && n <= |v.fields|
    ensures Collects(out, FieldPaths(v, prefix, out, depth, n), ReachFields(v, prefix, depth, n))
    decreases v, 0, n
  {
    hide Collects, Paths, Reach, Join;
    if n == 0 {
      assert Collects(out, out, {}) by { CollectNothing(out); }
    } else {
      var mid := FieldPaths(v, prefix, out, depth, n - 1);
      var p, child := Join(prefix, v.fields[n - 1].0), v.fields[n - 1].1;
      FieldsCollect(v, prefix, out, depth, n - 1);
      PathsCollect(child, p, mid + {p}, depth + 1);
      CollectThen(out, mid, ReachFields(v, prefix, depth, n - 1), FieldPaths(v, prefix, out, depth, n), Reach(child, p, depth + 1), {p});
    }
  }

  lemma CollectNothing(out: set<string>)
    ensures Collects(out, out, {})
  {
  }

  /** The paths collected are paths the body has: all of them when it has no more than the limit,
      and otherwise more than the limit. */
  lemma PathsAreReached(body: Json)
    ensures Paths(body, "", {}, 0) <= Reach(body, "", 0)
    ensures |Reach(body, "", 0)| <= MAX_PATHS ==> Paths(body, "", {}, 0) == Reach(body, "", 0)
    ensures |Reach(body, "", 0)| > MAX_PATHS ==> |Paths(body, "", {}, 0)| > MAX_PATHS
  {
    hide Paths, Reach;
    PathsCollect(body, "", {}, 0);
    assert {} + Reach(body, "", 0) == Reach(body, "", 0);
    SubsetIsNoLarger(Paths(body, "", {}, 0), Reach(body, "", 0));
  }

  lemma {:induction false} ItemReach(v: Json, p: string, depth: nat, n: nat, x: string)
    requires v.Arr? && n <= |v.items|
    ensures x in ReachItems(v, p, depth, n) <==> exists i :: 0 <= i < n && x in Reach(v.items[i], p, depth + 1)
  {
    hide Reach;
    if n > 0 { ItemReach(v, p, depth, n - 1, x); }
  }

  /** Lists of the same items, however often repeated and in whatever order, have one shape. */
  lemma ListLengthIrrelevant(v: Json, w: Json, prefix: string, depth: nat)
    requires v.Arr? && w.Arr? && forall x :: x in v.items <==> x in w.items
    ensures Reach(v, prefix, depth) == Reach(w, prefix, depth)
  {
    var p := prefix + "[]";
    forall x ensures x in ReachItems(v, p, depth, |v.items|) <==> x in ReachItems(w, p, depth, |w.items|) {
      hide Reach, ReachItems;
      ItemReach(v, p, depth, |v.items|, x);
      ItemReach(w, p, depth, |w.items|, x);
      SameItems(v, w, p, depth, x);
      SameItems(w, v, p, depth, x);
    }
  }

  lemma SameItems(v: Json, w: Json, p: string, depth: nat, x: string)
    requires v.Arr? && w.Arr? && forall y :: y in v.items ==> y in w.items
    ensures (exists i :: 0 <= i < |v.items| && x in Reach(v.items[i], p, depth + 1)) ==>
              exists i :: 0 <= i < |w.items| && x in Reach(w.items[i], p, depth + 1)
  {
    hide Reach;
    if i :| 0 <= i < |v.items| && x in Reach(v.items[i], p, depth + 1) {
      assert v.items[i] in w.items;
      var j :| 0 <= j < |w.items| && w.items[j] == v.items[i];
    }
  }

  /** An object of scalars only, no key twice. */
  ghost predicate FlatMap(v: Json) {
    && v.Obj?
    && (forall i :: 0 <= i < |v.fields| ==> v.fields[i].1.Null?)
    && (forall i, j :: 0 <= i < j < |v.fields| ==> v.fields[i].0 != v.fields[j].0)
  }

  predicate KeyBefore(v: Json, n: nat, k: string)
    requires v.Obj? && n <= |v.fields|
  {
    exists i :: 0 <= i < n && v.fields[i].0 == k
  }

  /** The limit does not bound one object: its own keys are never counted against it, so a flat
      map of n entries yields n paths however large n is. */
  lemma FlatMapIsUnbounded(v: Json)
    requires FlatMap(v)
    ensures |Paths(v, "", {}, 0)| == |v.fields|
  {
    hide FieldPaths;
    FlatMapPaths(v, |v.fields|);
  }

  lemma {:induction false} FlatMapPaths(v: Json, n: nat)
    requires FlatMap(v) && n <= |v.fields|
    ensures |FieldPaths(v, "", {}, 0, n)| == n
    ensures forall k :: k in FieldPaths(v, "", {}, 0, n) ==> KeyBefore(v, n, k)
  {
    if n > 0 {
      FlatMapPaths(v, n - 1);
      OneScalarMore(v, n);
      hide FieldPaths;
      NewKey(v, n);
      forall k | KeyBefore(v, n - 1, k) ensures KeyBefore(v, n, k) {}
    }
  }

  lemma NewKey(v: Json, n: nat)
    requires FlatMap(v) && 0 < n <= |v.fields|
    ensures !KeyBefore(v, n - 1, v.fields[n - 1].0) && KeyBefore(v, n, v.fields[n - 1].0)
  {
  }

  lemma OneScalarMore(v: Json, n: nat)
    requires FlatMap(v) && 0 < n <= |v.fields|
    ensures FieldPaths(v, "", {}, 0, n) == FieldPaths(v, "", {}, 0, n - 1) + {v.fields[n - 1].0}
  {
    hide Paths;
    var before, key := FieldPaths(v, "", {}, 0, n - 1), v.fields[n - 1].0;
    ScalarAddsNothing(v.fields[n - 1].1, key, before + {key}, 1);
  }

  lemma ScalarAddsNothing(v: Json, prefix: string, out: set<string>, depth: nat)
    requires !v.Arr? && !v.Obj?
    ensures Paths(v, prefix, out, depth) == out
  {
  }

  // -------------------------------------------------------- discriminators

  type Found = seq<(string, string)>

  function Discs(v: Json, prefix: string, out: Found, depth: nat): Found
    decreases v, 1, 0
  {
    if depth > MAX_DEPTH || |out| > MAX_PATHS then out
    else if v.Arr? then ItemDiscs(v, prefix + "[]", out, depth, |v.items|)
    else if v.Obj? then FieldDiscs(v, prefix, out, depth, |v.fields|)
    else out
  }

  function ItemDiscs(v: Json, p: string, out: Found, depth: nat, n: nat): Found
    requires v.Arr? && n <= |v.items|
    decreases v, 0, n
  {
    if n == 0 then out else Discs(v.items[n - 1], p, ItemDiscs(v, p, out, depth, n - 1), depth + 1)
  }

  function FieldDiscs(v: Json, prefix: string, out: Found, depth: nat, n: nat): Found
    requires v.Obj? && n <= |v.fields|
    decreases v, 0, n
  {
    if n == 0 then out
    else
      var (key, child) := v.fields[n - 1];
      var before := FieldDiscs(v, prefix, out, depth, n - 1);
      Discs(child, Join(prefix, key), before + OwnDisc(prefix, key, child), depth + 1)
  }

  function OwnDisc(prefix: string, key: string, child: Json): Found {
    if key in DISCRIMINATORS && child.Str? then [(Join(prefix, key), child.s)] else []
  }

  method DiscriminatorsOf(v: Json, prefix: string, out: Found, depth: nat) returns (all: Found)
    ensures all == Discs(v, prefix, out, depth)
    decreases v
  {
    all := out;
    if depth > MAX_DEPTH || |out| > MAX_PATHS { return; }
    if v.Arr? {
      for i := 0 to |v.items|
        invariant all == ItemDiscs(v, prefix + "[]", out, depth, i)
      {
        all := DiscriminatorsOf(v.items[i], prefix + "[]", all, depth + 1);
      }
    } else if v.Obj? {
      for i := 0 to |v.fields|
        invariant all == FieldDiscs(v, prefix, out, depth, i)
      {
        var key, child := v.fields[i].0, v.fields[i].1;
        var p := Join(prefix, key);
        ghost var before := all;
        if key in DISCRIMINATORS && child.Str? { all := all + [(p, child.s)]; }
        assert all == before + OwnDisc(prefix, key, child);
        all := DiscriminatorsOf(child, p, all, depth + 1);
      }
    }
  }

  /** The discriminators of a value down to the depth limit, with no accumulator and no size
      guard. */
  function DiscReach(v: Json, prefix: string, depth: nat): Found
    decreases v, 1, 0
  {
    if depth > MAX_DEPTH then []
    else if v.Arr? then ItemDiscReach(v, prefix + "[]", depth, |v.items|)
    else if v.Obj? then FieldDiscReach(v, prefix, depth, |v.fields|)
    else []
  }

  function ItemDiscReach(v: Json, p: string, depth: nat, n: nat): Found
    requires v.Arr? && n <= |v.items|
    decreases v, 0, n
  {
    if n == 0 then [] else ItemDiscReach(v, p, depth, n - 1) + DiscReach(v.items[n - 1], p, depth + 1)
  }

  function FieldDiscReach(v: Json, prefix: string, depth: nat, n: nat): Found
    requires v.Obj? && n <= |v.fields|
    decreases v, 0, n
  {
    if n == 0 then []
    else
      var (key, child) := v.fields[n - 1];
      FieldDiscReach(v, prefix, depth, n - 1) + OwnDisc(prefix, key, child) + DiscReach(child, Join(prefix, key), depth + 1)
  }

  /** What was there stays in front, what is added is there to be found, and as long as the
      result is within the limit nothing was skipped. */
  ghost predicate Gathers(out: Found, all: Found, reach: Found) {
    && out <= all && |all| <= |out| + |reach|
    && (forall x :: x in all ==> x in out || x in reach)
    && (|all| <= MAX_PATHS ==> all == out + reach)
  }

  lemma GatherNothing(out: Found)
    ensures Gathers(out, out, [])
  {
  }

  lemma GatherThen(out: Found, mid: Found, first: Found, extra: Found, all: Found, second: Found)
    requires Gathers(out, mid, first) && Gathers(mid + extra, all, second)
    ensures Gathers(out, all, first + extra + second)
  {
    assert out <= mid + extra;
    if |all| <= MAX_PATHS {
      assert (out + first) + extra + second == out + (first + extra + second);
    }
  }

  lemma {:induction false} DiscsGather(v: Json, prefix: string, out: Found, depth: nat)
    ensures Gathers(out, Discs(v, prefix, out, depth), DiscReach(v, prefix, depth))
    decreases v, 1, 0
  {
    hide ItemDiscs, FieldDiscs, ItemDiscReach, FieldDiscReach;
    if depth > MAX_DEPTH || |out| > MAX_PATHS {
    } else if v.Arr? {
      ItemDiscsGather(v, prefix + "[]", out, depth, |v.items|);
    } else if v.Obj? {
      FieldDiscsGather(v, prefix, out, depth, |v.fields|);
    }
  }

  lemma {:induction false} ItemDiscsGather(v: Json, p: string, out: Found, depth: nat, n: nat)
    requires v.Arr? && n <= |v.items|
    ensures Gathers(out, ItemDiscs(v, p, out, depth, n), ItemDiscReach(v, p, depth, n))
    decreases v, 0, n
  {
    hide Gathers, Discs, DiscReach;
    if n == 0 {
      GatherNothing(out);
    } else {
      var mid := ItemDiscs(v, p, out, depth, n - 1);
      var first, second := ItemDiscReach(v, p, depth, n - 1), DiscReach(v.items[n - 1], p, depth + 1);
      ItemDiscsGather(v, p, out, depth, n - 1);
      DiscsGather(v.items[n - 1], p, mid, depth + 1);
      assert mid + [] == mid && first + [] + second == first + second;
      GatherThen(out, mid, first, [], ItemDiscs(v, p, out, depth, n), second);
    }
  }

  lemma {:induction false} FieldDiscsGather(v: Json, prefix: string, out: Found, depth: nat, n: nat)
    requires v.Obj? && n <= |v.fields|
    ensures Gathers(out, FieldDiscs(v, prefix, out, depth, n), FieldDiscReach(v, prefix, depth, n))
    decreases v, 0, n
  {
    hide Gathers, Discs, DiscReach, OwnDisc, Join;
    if n == 0 {
      GatherNothing(out);
    } else {
      var (key, child) := v.fields[n - 1];
      var own, mid := OwnDisc(prefix, key, child), FieldDiscs(v, prefix, out, depth, n - 1);
      FieldDiscsGather(v, prefix, out, depth, n - 1);
      DiscsGather(child, Join(prefix, key), mid + own, depth + 1);
      GatherThen(out, mid, FieldDiscReach(v, prefix, depth, n - 1), own, FieldDiscs(v, prefix, out, depth, n),
                 DiscReach(child, Join(prefix, key), depth + 1));
    }
  }

  /** The child at a position of a list or an object, and the path that leads to it. */
  function Size(v: Json): nat { if v.Arr? then |v.items| else if v.Obj? then |v.fields| else 0 }

  function Child(v: Json, i: nat): Json
    requires i < Size(v)
  {
    if v.Arr? then v.items[i] else v.fields[i].1
  }

  function ChildPath(v: Json, prefix: string, i: nat): string
    requires i < Size(v)
  {
    if v.Arr? then prefix + "[]" else Join(prefix, v.fields[i].0)
  }

  /** Following `route` from child to child ends at a string under a discriminator key, within
      the depth limit; `x` is its path and the string. */
  predicate Leads(v: Json, prefix: string, depth: nat, route: seq<nat>, x: (string, string))
    decreases |route|
  {
    && depth <= MAX_DEPTH && route != [] && route[0] < Size(v)
    && if |route| == 1
       then v.Obj? && v.fields[route[0]].0 in DISCRIMINATORS && x.0 == ChildPath(v, prefix, route[0])
            && v.fields[route[0]].1 == Str(x.1)
       else Leads(Child(v, route[0]), ChildPath(v, prefix, route[0]), depth + 1, route[1..], x)
  }

  lemma {:induction false} ItemDiscAt(v: Json, p: string, depth: nat, n: nat, x: (string, string))
    requires v.Arr? && n <= |v.items|
    ensures x in ItemDiscReach(v, p, depth, n) <==> exists i :: 0 <= i < n && x in DiscReach(v.items[i], p, depth + 1)
  {
    hide DiscReach;
    if n > 0 { ItemDiscAt(v, p, depth, n - 1, x); }
  }

  /** A field contributes its own string or what lies below it. */
  predicate FromField(v: Json, prefix: string, depth: nat, i: nat, x: (string, string))
    requires v.Obj? && i < |v.fields|
  {
    || x in OwnDisc(prefix, v.fields[i].0, v.fields[i].1)
    || x in DiscReach(v.fields[i].1, Join(prefix, v.fields[i].0), depth + 1)
  }

  lemma {:induction false} FieldDiscAt(v: Json, prefix: string, depth: nat, n: nat, x: (string, string))
    requires v.Obj? && n <= |v.fields|
    ensures x in FieldDiscReach(v, prefix, depth, n) <==> exists i: nat :: i < n && FromField(v, prefix, depth, i, x)
  {
    hide DiscReach, OwnDisc, Join;
    if n > 0 {
      FieldDiscAt(v, prefix, depth, n - 1, x);
      assert x in FieldDiscReach(v, prefix, depth, n) <==>
             x in FieldDiscReach(v, prefix, depth, n - 1) || FromField(v, prefix, depth, n - 1, x);
    }
  }

  lemma {:induction false} RouteTo(v: Json, prefix: string, depth: nat, x: (string, string)) returns (route: seq<nat>)
    requires x in DiscReach(v, prefix, depth)
    ensures Leads(v, prefix, depth, route, x)
    decreases v
  {
    hide ItemDiscReach, FieldDiscReach;
    if v.Arr? {
      ItemDiscAt(v, prefix + "[]", depth, |v.items|, x);
      var i: nat :| i < |v.items| && x in DiscReach(v.items[i], prefix + "[]", depth + 1);
      var rest := RouteTo(v.items[i], prefix + "[]", depth + 1, x);
      route := [i] + rest;
      assert route[1..] == rest;
    } else {
      FieldDiscAt(v, prefix, depth, |v.fields|, x);
      var i: nat :| i < |v.fields| && FromField(v, prefix, depth, i, x);
      if x in OwnDisc(prefix, v.fields[i].0, v.fields[i].1) {
        route := [i];
      } else {
        var rest := RouteTo(v.fields[i].1, Join(prefix, v.fields[i].0), depth + 1, x);
        route := [i] + rest;
        assert route[1..] == rest;
      }
    }
  }

  lemma {:induction false} RouteFrom(v: Json, prefix: string, depth: nat, route: seq<nat>, x: (string, string))
    requires Leads(v, prefix, depth, route, x)
    ensures x in DiscReach(v, prefix, depth)
    decreases |route|
  {
    hide ItemDiscReach, FieldDiscReach;
    var i := route[0];
    if |route| > 1 { RouteFrom(Child(v, i), ChildPath(v, prefix, i), depth + 1, route[1..], x); }
    if v.Arr? {
      ItemDiscAt(v, prefix + "[]", depth, |v.items|, x);
    } else {
      FieldDiscAt(v, prefix, depth, |v.fields|, x);
      assert FromField(v, prefix, depth, i, x);
    }
  }

  /** The discriminators collected are strings some route from the root leads to: all of those,
      in order, when there are no more than the limit, and otherwise more than the limit. */
  lemma DiscsAreReached(body: Json, x: (string, string))
    ensures x in DiscReach(body, "", 0) <==> exists route :: Leads(body, "", 0, route, x)
    ensures x in Discs(body, "", [], 0) ==> x in DiscReach(body, "", 0)
    ensures |DiscReach(body, "", 0)| <= MAX_PATHS ==> Discs(body, "", [], 0) == DiscReach(body, "", 0)
    ensures |DiscReach(body, "", 0)| > MAX_PATHS ==> |Discs(body, "", [], 0)| > MAX_PATHS
  {
    hide Discs, DiscReach, Leads;
    DiscsGather(body, "", [], 0);
    assert [] + DiscReach(body, "", 0) == DiscReach(body, "", 0);
    if x in DiscReach(body, "", 0) { var route := RouteTo(body, "", 0, x); }
    if route :| Leads(body, "", 0, route, x) { RouteFrom(body, "", 0, route, x); }
  }

  // ----------------------------------------------------------------- routes

  /** Following `route` from child to child one comes by the path `x`: a list met on the way, or
      the field at its end. */
  predicate Passes(v: Json, prefix: string, depth: nat, route: seq<nat>, x: string)
    decreases |route|
  {
    depth <= MAX_DEPTH &&
    if route == [] then v.Arr? && x == prefix + "[]"
    else route[0] < Size(v) &&
         ((|route| == 1 && v.Obj? && x == ChildPath(v, prefix, route[0]))
          || Passes(Child(v, route[0]), ChildPath(v, prefix, route[0]), depth + 1, route[1..], x))
  }

  lemma {:induction false} FieldReach(v: Json, prefix: string, depth: nat, n: nat, x: string)
    requires v.Obj? && n <= |v.fields|
    ensures x in ReachFields(v, prefix, depth, n) <==> exists i: nat :: i < n && FromPath(v, prefix, depth, i, x)
  {
    hide Reach, Join;
    if n > 0 {
      FieldReach(v, prefix, depth, n - 1, x);
      assert x in ReachFields(v, prefix, depth, n) <==>
             x in ReachFields(v, prefix, depth, n - 1) || FromPath(v, prefix, depth, n - 1, x);
    }
  }

  predicate FromPath(v: Json, prefix: string, depth: nat, i: nat, x: string)
    requires v.Obj? && i < |v.fields|
  {
    x == Join(prefix, v.fields[i].0) || x in Reach(v.fields[i].1, Join(prefix, v.fields[i].0), depth + 1)
  }

  lemma {:induction false} PathRouteTo(v: Json, prefix: string, depth: nat, x: string) returns (route: seq<nat>)
    requires x in Reach(v, prefix, depth)
    ensures Passes(v, prefix, depth, route, x)
    decreases v
  {
    hide ReachItems, ReachFields;
    if v.Arr? {
      if x == prefix + "[]" { return []; }
      ItemReach(v, prefix + "[]", depth, |v.items|, x);
      var i: nat :| i < |v.items| && x in Reach(v.items[i], prefix + "[]", depth + 1);
      var rest := PathRouteTo(v.items[i], prefix + "[]", depth + 1, x);
      route := [i] + rest;
      assert route[1..] == rest;
    } else {
      FieldReach(v, prefix, depth, |v.fields|, x);
      var i: nat :| i < |v.fields| && FromPath(v, prefix, depth, i, x);
      if x == Join(prefix, v.fields[i].0) {
        route := [i];
      } else {
        var rest := PathRouteTo(v.fields[i].1, Join(prefix, v.fields[i].0), depth + 1, x);
        route := [i] + rest;
        assert route[1..] == rest;
      }
    }
  }

  lemma {:induction false} PathRouteFrom(v: Json, prefix: string, depth: nat, route: seq<nat>, x: string)
    requires Passes(v, prefix, depth, route, x)
    ensures x in Reach(v, prefix, depth)
    decreases |route|
  {
    hide ReachItems, ReachFields;
    if route != [] {
      var i := route[0];
      var here := |route| == 1 && v.Obj? && x == ChildPath(v, prefix, i);
      if !here { PathRouteFrom(Child(v, i), ChildPath(v, prefix, i), depth + 1, route[1..], x); }
      if v.Arr? {
        ItemReach(v, prefix + "[]", depth, |v.items|, x);
      } else {
        FieldReach(v, prefix, depth, |v.fields|, x);
        assert FromPath(v, prefix, depth, i, x);
      }
    }
  }

  /** The paths of a body are those some route from its root comes by. */
  lemma PathsByRoute(body: Json, x: string)
    ensures x in Reach(body, "", 0) <==> exists route :: Passes(body, "", 0, route, x)
  {
    hide Reach, Passes;
    if x in Reach(body, "", 0) { var route := PathRouteTo(body, "", 0, x); }
    if route :| Passes(body, "", 0, route, x) { PathRouteFrom(body, "", 0, route, x); }
  }

  /** Objects in objects, one key each. */
  function Nest(keys: seq<string>): Json
    decreases |keys|
  {
    if keys == [] then Null else Obj([(keys[0], Nest(keys[1..]))])
  }

  function Dotted(keys: seq<string>): string
    requires keys != []
  {
    if |keys| == 1 then keys[0] else keys[0] + "." + Dotted(keys[1..])
  }

  lemma {:induction false} BelowPrefix(keys: seq<string>, n: nat, prefix: string, depth: nat)
    requires 0 < n <= |keys| && prefix != "" && depth + n - 1 <= MAX_DEPTH
    ensures prefix + "." + Dotted(keys[..n]) in Reach(Nest(keys), prefix, depth)
    decreases n
  {
    var v := Nest(keys);
    var p := prefix + "." + keys[0];
    hide Reach, Nest;
    assert v == Obj([(keys[0], Nest(keys[1..]))]) by { NestIs(keys); }
    OneField(v, prefix, depth, p);
    if n > 1 {
      BelowPrefix(keys[1..], n - 1, p, depth + 1);
      assert keys[..n][1..] == keys[1..][..n - 1];
      var x := p + "." + Dotted(keys[1..][..n - 1]);
      assert x == prefix + "." + Dotted(keys[..n]);
      OneField(v, prefix, depth, x);
    } else {
      assert keys[..1] == [keys[0]];
    }
  }

  lemma NestIs(keys: seq<string>)
    requires keys != []
    ensures Nest(keys) == Obj([(keys[0], Nest(keys[1..]))])
  {
  }

  lemma OneField(v: Json, prefix: string, depth: nat, x: string)
    requires v.Obj? && |v.fields| == 1 && depth <= MAX_DEPTH
    ensures var p := Join(prefix, v.fields[0].0);
            x in Reach(v, prefix, depth) <==> x == p || x in Reach(v.fields[0].1, p, depth + 1)
  {
    FieldReach(v, prefix, depth, 1, x);
    hide Join, ReachFields, ReachItems;
    assert x in Reach(v, prefix, depth) <==> FromPath(v, prefix, depth, 0, x);
  }

  /** A path is written as its keys with dots between them, down to eleven levels. */
  lemma DottedPaths(keys: seq<string>, n: nat)
    requires 0 < n <= |keys| && n <= 11 && keys[0] != ""
    ensures Dotted(keys[..n]) in Reach(Nest(keys), "", 0)
  {
    NestIs(keys);
    hide Reach, Nest;
    if n == 1 {
      OneField(Nest(keys), "", 0, keys[0]);
    } else {
      BelowPrefix(keys[1..], n - 1, keys[0], 1);
      assert keys[..n][1..] == keys[1..][..n - 1];
      OneField(Nest(keys), "", 0, keys[0] + "." + Dotted(keys[1..][..n - 1]));
    }
  }

  // ----------------------------------------------------------------- check

  datatype Decl = Decl(known: set<string>, expected: set<string>, values: map<string, set<string>>)

  datatype Findings = Findings(unknown: set<string>, missing: set<string>, unknownValues: Found)

  function NewValues(found: Found, values: map<string, set<string>>): (r: Found)
    ensures forall x :: x in r <==> x in found && x.0 in values && x.1 !in values[x.0]
  {
    if found == [] then []
    else
      var x := found[0];
      (if x.0 in values && x.1 !in values[x.0] then [x] else []) + NewValues(found[1..], values)
  }

  lemma {:induction false} NothingNew(found: Found, values: map<string, set<string>>)
    requires forall x :: x in found ==> x.0 in values && x.1 in values[x.0]
    ensures NewValues(found, values) == []
  {
    if found != [] { NothingNew(found[1..], values); }
  }

  function CheckShape(body: Json, d: Decl): Findings {
    var seen := Paths(body, "", {}, 0);
    Findings(seen - d.known, d.expected - seen, NewValues(Discs(body, "", [], 0), d.values))
  }

  // ---------------------------------------------------------------- derive

  datatype Sample = Sample(paths: set<string>, values: Found, weak: bool)

  /** A recorded body; a synthetic one was constructed rather than received. */
  datatype Recording = Recording(body: Json, synthetic: bool)

  function SampleOf(r: Recording): Sample {
    Sample(Paths(r.body, "", {}, 0), Discs(r.body, "", [], 0), r.synthetic)
  }

  ghost predicate SomeSampleHas(samples: seq<Sample>, p: string) { exists i :: 0 <= i < |samples| && p in samples[i].paths }

  ghost predicate SomeRecorded(samples: seq<Sample>) { exists i :: 0 <= i < |samples| && !samples[i].weak }

  ghost predicate EveryRecordedHas(samples: seq<Sample>, p: string) {
    forall i :: 0 <= i < |samples| && !samples[i].weak ==> p in samples[i].paths
  }

  ghost predicate SomeSampleShows(samples: seq<Sample>, x: (string, string)) {
    exists i :: 0 <= i < |samples| && x in samples[i].values
  }

  /** What a declaration derived from samples says, read off the samples alone. */
  ghost predicate Describes(d: Decl, samples: seq<Sample>) {
    && (forall p :: p in d.known <==> SomeSampleHas(samples, p))
    && (forall p :: p in d.expected <==> SomeRecorded(samples) && EveryRecordedHas(samples, p))
    && (forall p, v :: p in d.values && v in d.values[p] <==> SomeSampleShows(samples, (p, v)))
    && (forall p :: p in d.values ==> d.values[p] != {})
  }

  lemma SamplesSnoc(samples: seq<Sample>, s: Sample, p: string, x: (string, string))
    ensures SomeSampleHas(samples + [s], p) <==> SomeSampleHas(samples, p) || p in s.paths
    ensures SomeRecorded(samples + [s]) <==> SomeRecorded(samples) || !s.weak
    ensures EveryRecordedHas(samples + [s], p) <==> EveryRecordedHas(samples, p) && (s.weak || p in s.paths)
    ensures SomeSampleShows(samples + [s], x) <==> SomeSampleShows(samples, x) || x in s.values
  {
    var all := samples + [s];
    assert all[|samples|] == s;
    assert forall i :: 0 <= i < |samples| ==> all[i] == samples[i];
  }

  datatype Option<+T> = None | Some(value: T)

  method Declare(samples: seq<Sample>) returns (d: Decl)
    ensures Describes(d, samples)
  {
    hide SomeSampleHas, SomeRecorded, EveryRecordedHas, SomeSampleShows;
    var known, values := GatherKnown(samples);
    var expected := GatherExpected(samples);
    d := Decl(known, if expected.Some? then expected.value else {}, values);
  }

  method GatherKnown(samples: seq<Sample>) returns (known: set<string>, values: map<string, set<string>>)
    ensures forall p :: p in known <==> SomeSampleHas(samples, p)
    ensures forall p, v :: p in values && v in values[p] <==> SomeSampleShows(samples, (p, v))
    ensures forall p :: p in values ==> values[p] != {}
  {
    hide SomeSampleHas, SomeRecorded, EveryRecordedHas, SomeSampleShows;
    known, values := {}, map[];
    assert forall p :: !SomeSampleHas([], p) by { NoSamples(); }
    assert forall x :: !SomeSampleShows([], x) by { NoSamples(); }
    for i := 0 to |samples|
      invariant forall p :: p in known <==> SomeSampleHas(samples[..i], p)
      invariant forall p, v :: p in values && v in values[p] <==> SomeSampleShows(samples[..i], (p, v))
      invariant forall p :: p in values ==> values[p] != {}
    {
      var s := samples[i];
      known := known + s.paths;
      ghost var before := values;
      for k := 0 to |s.values|
        invariant forall p, v :: p in values && v in values[p] <==>
                    (p in before && v in before[p]) || (p, v) in s.values[..k]
        invariant forall p :: p in values ==> values[p] != {}
      {
        var (path, value) := s.values[k];
        assert s.values[..k + 1] == s.values[..k] + [(path, value)];
        values := values[path := (if path in values then values[path] else {}) + {value}];
      }
      assert s.values[..|s.values|] == s.values;
      assert samples[..i + 1] == samples[..i] + [s];
      forall p ensures SomeSampleHas(samples[..i + 1], p) <==> SomeSampleHas(samples[..i], p) || p in s.paths {
        SamplesSnoc(samples[..i], s, p, ("", ""));
      }
      forall x ensures SomeSampleShows(samples[..i + 1], x) <==> SomeSampleShows(samples[..i], x) || x in s.values {
        SamplesSnoc(samples[..i], s, "", x);
      }
    }
    assert samples[..|samples|] == samples;
  }

  method GatherExpected(samples: seq<Sample>) returns (expected: Option<set<string>>)
    ensures expected.Some? <==> SomeRecorded(samples)
    ensures expected.Some? ==> forall p :: p in expected.value <==> EveryRecordedHas(samples, p)
  {
    hide SomeSampleHas, SomeRecorded, EveryRecordedHas, SomeSampleShows;
    expected := None;
    assert !SomeRecorded([]) by { NoSamples(); }
    for i := 0 to |samples|
      invariant expected.Some? <==> SomeRecorded(samples[..i])
      invariant expected.Some? ==> forall p :: p in expected.value <==> EveryRecordedHas(samples[..i], p)
    {
      var s := samples[i];
      assert samples[..i + 1] == samples[..i] + [s];
      forall p
        ensures EveryRecordedHas(samples[..i + 1], p) <==> EveryRecordedHas(samples[..i], p) && (s.weak || p in s.paths)
        ensures !SomeRecorded(samples[..i]) ==> EveryRecordedHas(samples[..i], p)
      {
        SamplesSnoc(samples[..i], s, p, ("", ""));
        if !SomeRecorded(samples[..i]) { NoneRecorded(samples[..i], p); }
      }
      SamplesSnoc(samples[..i], s, "", ("", ""));
      if s.weak { continue; }
      expected := Some(if expected.None? then s.paths else expected.value * s.paths);
    }
    assert samples[..|samples|] == samples;
  }

  lemma NoSamples()
    ensures forall p :: !SomeSampleHas([], p) && EveryRecordedHas([], p)
    ensures forall x :: !SomeSampleShows([], x)
    ensures !SomeRecorded([])
  {
  }

  function Samples(recordings: seq<Recording>): (samples: seq<Sample>)
    ensures |samples| == |recordings|
    ensures forall i :: 0 <= i < |samples| ==> samples[i] == SampleOf(recordings[i])
  {
    seq(|recordings|, (i: int) requires 0 <= i < |recordings| => SampleOf(recordings[i]))
  }

  /** Checked against the declaration derived from a corpus, no body of the corpus has an
      unknown path or an unknown value, and no recorded body a missing path. */
  lemma CorpusIsClean(recordings: seq<Recording>, d: Decl, i: nat)
    requires Describes(d, Samples(recordings)) && i < |recordings|
    ensures var f := CheckShape(recordings[i].body, d);
            && f.unknown == {} && f.unknownValues == []
            && (!recordings[i].synthetic ==> f.missing == {})
  {
    hide Paths, Discs;
    var samples := Samples(recordings);
    var s := samples[i];
    assert s == SampleOf(recordings[i]);
    assert forall p :: p in s.paths ==> SomeSampleHas(samples, p);
    forall x | x in s.values ensures x.0 in d.values && x.1 in d.values[x.0] {
      assert SomeSampleShows(samples, (x.0, x.1));
    }
    NothingNew(s.values, d.values);
  }

  /** For any body, exactly what is reported: the paths no sample had, the paths every recorded
      sample had and this body lacks, and the values of a known discriminator no sample showed. */
  lemma ReportedExactly(samples: seq<Sample>, d: Decl, body: Json, p: string, v: string)
    requires Describes(d, samples)
    ensures var s := SampleOf(Recording(body, false));
            var f := CheckShape(body, d);
            && (p in f.unknown <==> p in s.paths && !SomeSampleHas(samples, p))
            && (p in f.missing <==> p !in s.paths && SomeRecorded(samples) && EveryRecordedHas(samples, p))
            && ((p, v) in f.unknownValues <==> (p, v) in s.values && !SomeSampleShows(samples, (p, v))
                                               && exists u :: SomeSampleShows(samples, (p, u)))
  {
    hide Paths, Discs, SomeSampleHas, SomeRecorded, EveryRecordedHas, SomeSampleShows;
    if p in d.values {
      var u :| u in d.values[p];
      assert SomeSampleShows(samples, (p, u));
    }
  }

  /** One more sample never takes a path or a value away; it leaves `expected` alone when it is
      synthetic, and otherwise shrinks it, except that the first recorded sample sets it. */
  lemma OneMoreSample(samples: seq<Sample>, s: Sample, before: Decl, after: Decl)
    requires Describes(before, samples) && Describes(after, samples + [s])
    ensures before.known <= after.known
    ensures forall p :: p in before.values ==> p in after.values && before.values[p] <= after.values[p]
    ensures s.weak ==> after.expected == before.expected
    ensures after.expected <= before.expected <==> s.weak || SomeRecorded(samples) || s.paths == {}
  {
    hide SomeSampleHas, SomeRecorded, EveryRecordedHas, SomeSampleShows;
    forall p ensures p in before.known ==> p in after.known {
      SamplesSnoc(samples, s, p, ("", ""));
    }
    forall p, v ensures p in before.values && v in before.values[p] ==> p in after.values && v in after.values[p] {
      SamplesSnoc(samples, s, p, (p, v));
      assert p in before.values && v in before.values[p] ==> SomeSampleShows(samples, (p, v));
      assert SomeSampleShows(samples + [s], (p, v)) ==> p in after.values && v in after.values[p];
    }
    forall p | p in before.values ensures p in after.values {
      var v :| v in before.values[p];
    }
    forall p ensures p in after.expected <==>
                     (SomeRecorded(samples) || !s.weak) && EveryRecordedHas(samples, p) && (s.weak || p in s.paths)
    {
      SamplesSnoc(samples, s, p, ("", ""));
    }
    if !s.weak && !SomeRecorded(samples) {
      forall p ensures EveryRecordedHas(samples, p) { NoneRecorded(samples, p); }
      assert after.expected == s.paths;
    }
  }

  lemma NoneRecorded(samples: seq<Sample>, p: string)
    requires !SomeRecorded(samples)
    ensures EveryRecordedHas(samples, p)
  {
  }

  // --------------------------------------------------------------- checker

  function UnknownKey(kind: string, path: string): string { kind + ":" + path }

  function MissingKey(kind: string, path: string): string { kind + ":!" + path }

  function ValueKey(kind: string, x: (string, string)): string { kind + ":" + x.0 + "=" + x.1 }

  ghost predicate OfUnknown(kind: string, paths: set<string>, key: string) {
    exists p :: p in paths && key == UnknownKey(kind, p)
  }

  ghost predicate OfMissing(kind: string, paths: set<string>, key: string) {
    exists p :: p in paths && key == MissingKey(kind, p)
  }

  ghost predicate OfValues(kind: string, found: Found, key: string) {
    exists x :: x in found && key == ValueKey(kind, x)
  }

  /** The keys under which findings are reported. */
  ghost predicate Reports(kind: string, f: Findings, key: string) {
    OfUnknown(kind, f.unknown, key) || OfMissing(kind, f.missing, key) || OfValues(kind, f.unknownValues, key)
  }

  lemma OneMoreFinding(kind: string, paths: set<string>, p: string, found: Found, x: (string, string), key: string)
    ensures OfUnknown(kind, paths + {p}, key) <==> OfUnknown(kind, paths, key) || key == UnknownKey(kind, p)
    ensures OfMissing(kind, paths + {p}, key) <==> OfMissing(kind, paths, key) || key == MissingKey(kind, p)
    ensures OfValues(kind, found + [x], key) <==> OfValues(kind, found, key) || key == ValueKey(kind, x)
    ensures !OfUnknown(kind, {}, key) && !OfMissing(kind, {}, key) && !OfValues(kind, [], key)
  {
    hide UnknownKey, MissingKey, ValueKey;
  }

  class ResponseShapeChecker {
    var reported: set<string>
    var warnings: seq<string>

    /** Every key reported was warned about exactly once. */
    ghost predicate Valid()
      reads this
    {
      && (forall i, j :: 0 <= i < j < |warnings| ==> warnings[i] != warnings[j])
      && (forall k :: k in reported <==> k in warnings)
    }

    constructor ()
      ensures Valid() && warnings == []
    {
      reported, warnings := {}, [];
    }

    method Warn(key: string)
      requires Valid()
      modifies this
      ensures Valid() && reported == old(reported) + {key}
      ensures warnings == if key in old(reported) then old(warnings) else old(warnings) + [key]
    {
      if key in reported { return; }
      reported := reported + {key};
      warnings := warnings + [key];
    }

    method WarnUnknown(kind: string, paths: set<string>)
      requires Valid()
      modifies this
      ensures Valid() && old(warnings) <= warnings
      ensures forall k :: k in reported <==> k in old(reported) || OfUnknown(kind, paths, k)
    {
      hide UnknownKey, MissingKey, ValueKey, OfUnknown, OfMissing, OfValues, Valid;
      NoFindings(kind);
      var left := paths;
      assert paths - left == {};
      while left != {}
        invariant Valid() && old(warnings) <= warnings && left <= paths
        invariant forall k :: k in reported <==> k in old(reported) || OfUnknown(kind, paths - left, k)
        decreases |left|
      {
        var p :| p in left;
        ghost var done := paths - left;
        forall k ensures OfUnknown(kind, done + {p}, k) <==> OfUnknown(kind, done, k) || k == UnknownKey(kind, p) {
          OneMoreFinding(kind, done, p, [], ("", ""), k);
        }
        Warn(UnknownKey(kind, p));
        left := left - {p};
        assert paths - left == done + {p};
      }
      assert paths - left == paths;
    }

    method WarnMissing(kind: string, paths: set<string>)
      requires Valid()
      modifies this
      ensures Valid() && old(warnings) <= warnings
      ensures forall k :: k in reported <==> k in old(reported) || OfMissing(kind, paths, k)
    {
      hide UnknownKey, MissingKey, ValueKey, OfUnknown, OfMissing, OfValues, Valid;
      NoFindings(kind);
      var left := paths;
      assert paths - left == {};
      while left != {}
        invariant Valid() && old(warnings) <= warnings && left <= paths
        invariant forall k :: k in reported <==> k in old(reported) || OfMissing(kind, paths - left, k)
        decreases |left|
      {
        var p :| p in left;
        ghost var done := paths - left;
        forall k ensures OfMissing(kind, done + {p}, k) <==> OfMissing(kind, done, k) || k == MissingKey(kind, p) {
          OneMoreFinding(kind, done, p, [], ("", ""), k);
        }
        Warn(MissingKey(kind, p));
        left := left - {p};
        assert paths - left == done + {p};
      }
      assert paths - left == paths;
    }

    method WarnValues(kind: string, found: Found)
      requires Valid()
      modifies this
      ensures Valid() && old(warnings) <= warnings
      ensures forall k :: k in reported <==> k in old(reported) || OfValues(kind, found, k)
    {
      hide UnknownKey, MissingKey, ValueKey, OfUnknown, OfMissing, OfValues, Valid;
      NoFindings(kind);
      for i := 0 to |found|
        invariant Valid() && old(warnings) <= warnings
        invariant forall k :: k in reported <==> k in old(reported) || OfValues(kind, found[..i], k)
      {
        var x := found[i];
        assert found[..i + 1] == found[..i] + [x];
        forall k ensures OfValues(kind, found[..i + 1], k) <==> OfValues(kind, found[..i], k) || k == ValueKey(kind, x) {
          OneMoreFinding(kind, {}, "", found[..i], x, k);
        }
        Warn(ValueKey(kind, x));
      }
      assert found[..|found|] == found;
    }

    /** Whatever was reported before, a check warns once of each finding not yet reported and
        of nothing else. */
    method Report(kind: string, f: Findings)
      requires Valid()
      modifies this
      ensures Valid() && old(warnings) <= warnings
      ensures forall k :: k in reported <==> k in old(reported) || Reports(kind, f, k)
    {
      hide OfUnknown, OfMissing, OfValues, Valid;
      WarnUnknown(kind, f.unknown);
      WarnMissing(kind, f.missing);
      WarnValues(kind, f.unknownValues);
    }
  }

  lemma NoFindings(kind: string)
    ensures forall k :: !OfUnknown(kind, {}, k) && !OfMissing(kind, {}, k) && !OfValues(kind, [], k)
  {
  }

  /** One finding of a check. */
  datatype Finding = UnknownPath(path: string) | MissingPath(path: string) | UnknownValue(path: string, value: string)

  function KeyOf(kind: string, f: Finding): string {
    match f
    case UnknownPath(p) => UnknownKey(kind, p)
    case MissingPath(p) => MissingKey(kind, p)
    case UnknownValue(p, v) => ValueKey(kind, (p, v))
  }

  /** What a key says after the kind and its colon. */
  function Body(f: Finding): string {
    match f
    case UnknownPath(p) => p
    case MissingPath(p) => "!" + p
    case UnknownValue(p, v) => p + "=" + v
  }

  /** Two ways to cut one string in two at a separator: the same way, or with a piece of the
      one in between. */
  predicate SameCut(a: string, x: string, sep: char, b: string, y: string) {
    || (a == b && x == y)
    || (|a| < |b| && b[..|a|] == a && b[|a|] == sep && x == b[|a| + 1..] + [sep] + y)
    || (|b| < |a| && a[..|b|] == b && a[|b|] == sep && y == a[|b| + 1..] + [sep] + x)
  }

  lemma ShorterCut(a: string, x: string, sep: char, b: string, y: string)
    requires a + [sep] + x == b + [sep] + y && |a| < |b|
    ensures b[..|a|] == a && b[|a|] == sep && x == b[|a| + 1..] + [sep] + y
  {
    var s := a + [sep] + x;
    assert a == s[..|a|] == b[..|a|];
    assert b[|a|] == s[|a|] == sep;
    assert x == s[|a| + 1..] == (b + [sep] + y)[|a| + 1..];
  }

  lemma CutsAgree(a: string, x: string, sep: char, b: string, y: string)
    ensures a + [sep] + x == b + [sep] + y <==> SameCut(a, x, sep, b, y)
  {
    if a + [sep] + x == b + [sep] + y {
      if |a| < |b| {
        ShorterCut(a, x, sep, b, y);
      } else if |b| < |a| {
        ShorterCut(b, y, sep, a, x);
      } else {
        assert a == (a + [sep] + x)[..|a|] && b == (b + [sep] + y)[..|a|];
        assert x == (a + [sep] + x)[|a| + 1..] && y == (b + [sep] + y)[|a| + 1..];
      }
    } else if |a| < |b| {
      if b[..|a|] == a && b[|a|] == sep { assert b == a + [sep] + b[|a| + 1..]; }
    } else if |b| < |a| {
      if a[..|b|] == b && a[|b|] == sep { assert a == b + [sep] + a[|b| + 1..]; }
    }
  }

  /** Two findings of one kind of body under one key. */
  predicate Confused(f: Finding, g: Finding) {
    match (f, g)
    case (UnknownPath(p), UnknownPath(q)) => p == q
    case (MissingPath(p), MissingPath(q)) => p == q
    case (UnknownPath(p), MissingPath(q)) => p == "!" + q
    case (MissingPath(q), UnknownPath(p)) => p == "!" + q
    case (UnknownPath(p), UnknownValue(q, v)) => p == q + "=" + v
    case (UnknownValue(q, v), UnknownPath(p)) => p == q + "=" + v
    case (MissingPath(p), UnknownValue(q, v)) => q != "" && q[0] == '!' && p == q[1..] + "=" + v
    case (UnknownValue(q, v), MissingPath(p)) => q != "" && q[0] == '!' && p == q[1..] + "=" + v
    case (UnknownValue(p, v), UnknownValue(q, u)) => SameCut(p, v, '=', q, u)
  }

  lemma MissingOrValue(p: string, q: string, v: string)
    ensures "!" + p == q + "=" + v <==> q != "" && q[0] == '!' && p == q[1..] + "=" + v
  {
    var s, t := "!" + p, q + "=" + v;
    if q != "" {
      assert t == [q[0]] + (q[1..] + "=" + v);
      if s == t { assert p == s[1..] == t[1..]; }
    } else {
      assert t[0] == '=';
    }
  }

  lemma BodiesShared(f: Finding, g: Finding)
    ensures Body(f) == Body(g) <==> Confused(f, g)
  {
    match (f, g)
    case (UnknownPath(_), UnknownPath(_)) =>
    case (MissingPath(p), MissingPath(q)) => assert ("!" + p)[1..] == p && ("!" + q)[1..] == q;
    case (UnknownPath(_), MissingPath(_)) =>
    case (MissingPath(_), UnknownPath(_)) =>
    case (UnknownPath(_), UnknownValue(_, _)) =>
    case (UnknownValue(_, _), UnknownPath(_)) =>
    case (MissingPath(p), UnknownValue(q, v)) => MissingOrValue(p, q, v);
    case (UnknownValue(q, v), MissingPath(p)) => MissingOrValue(p, q, v);
    case (UnknownValue(p, v), UnknownValue(q, u)) => CutsAgree(p, v, '=', q, u);
  }

  lemma KeyIsKindAndBody(kind: string, f: Finding)
    ensures KeyOf(kind, f) == kind + [':'] + Body(f)
  {
    match f
    case UnknownPath(p) =>
    case MissingPath(p) => assert kind + ":!" + p == kind + ":" + ("!" + p);
    case UnknownValue(p, v) => assert kind + ":" + p + "=" + v == kind + ":" + (p + "=" + v);
  }

  /** One key can stand for two findings, and then only the first is ever warned about: exactly
      when they are of one kind and confused with each other, or one kind begins with the other
      and a colon and the difference makes up for it. */
  lemma SharedKeys(kind: string, f: Finding, other: string, g: Finding)
    ensures KeyOf(kind, f) == KeyOf(other, g) <==>
            if kind == other then Confused(f, g) else SameCut(kind, Body(f), ':', other, Body(g))
  {
    hide KeyOf, Body, Confused, SameCut;
    KeyIsKindAndBody(kind, f);
    KeyIsKindAndBody(other, g);
    CutsAgree(kind, Body(f), ':', other, Body(g));
    BodiesShared(f, g);
    OneKind(kind, Body(f), Body(g));
  }

  lemma OneKind(kind: string, x: string, y: string)
    ensures SameCut(kind, x, ':', kind, y) <==> x == y
  {
  }

  /** A body's findings and those of a stream event are never confused. */
  lemma ResponseAndStreamApart(f: Finding, event: string, g: Finding)
    ensures KeyOf("response", f) != KeyOf("stream " + event, g)
  {
    KeyIsKindAndBody("response", f);
    KeyIsKindAndBody("stream " + event, g);
    assert KeyOf("response", f)[0] == 'r' && KeyOf("stream " + event, g)[0] == 's';
  }
}
