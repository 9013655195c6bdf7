// The model catalog's three-level index, after src/catalog/catalog.ts: exact slugs,
// ids a provider accepts, and spellings of a version.

module Catalog {

  datatype Option<+T> = None | Some(value: T)

  /** Whether an entry, or a provider, can continue a conversation kept by the server. */
  datatype StateFields = StateFields(statefulApi: bool, supports: Option<bool>,
                                     retention: Option<Option<real>>, modelBound: Option<bool>)

  datatype Info = Info(model: string, providerModelName: Option<string>, aliases: seq<string>, state: StateFields)

  /** One call of `set`. */
  datatype Registration = Registration(provider: string, info: Info)

  // -------------------------------------------------------------- spelling

  predicate Digit(c: char) { '0' <= c <= '9' }

  function Lower(c: char): char {
    if 'A' <= c <= 'Z' then ((c as int) + 32) as char else c
  }

  /** A '-' or '.' with a digit on either side. */
  predicate Separator(s: string, i: int)
    requires 0 <= i < |s|
  {
    (s[i] == '-' || s[i] == '.') && 0 < i < |s| - 1 && Digit(s[i - 1]) && Digit(s[i + 1])
  }

  function NormAt(s: string, i: int): char
    requires 0 <= i < |s|
  {
    if Separator(s, i) then '.' else Lower(s[i])
  }

  function Normalize(s: string): (r: string)
    ensures |r| == |s|
    ensures forall i :: 0 <= i < |s| ==> r[i] == NormAt(s, i)
  {
    seq(|s|, (i: int) requires 0 <= i < |s| => NormAt(s, i))
  }

  lemma NormKeepsDigits(s: string, i: int)
    requires 0 <= i < |s|
    ensures Digit(NormAt(s, i)) <==> Digit(s[i])
    ensures Digit(s[i]) ==> NormAt(s, i) == s[i]
  {
  }

  lemma NormalizeIdempotent(s: string)
    ensures Normalize(Normalize(s)) == Normalize(s)
  {
    var r := Normalize(s);
    forall i | 0 <= i < |s| ensures Normalize(r)[i] == r[i] {
      if 0 < i < |s| - 1 {
        NormKeepsDigits(s, i - 1);
        NormKeepsDigits(s, i + 1);
      }
    }
  }

  /** What becomes of each character, and that nothing else does: a capital turns into the small
      letter of its place in the alphabet, and a hyphen with a digit on either side into a dot. */
  lemma SpellingOf(s: string, i: int)
    requires 0 <= i < |s|
    ensures var r, c := Normalize(s)[i], s[i];
            && ('A' <= c <= 'Z' ==> 'a' <= r <= 'z' && r as int - 'a' as int == c as int - 'A' as int)
            && (!('A' <= c <= 'Z') && r != c <==>
                  c == '-' && 0 < i < |s| - 1 && '0' <= s[i - 1] <= '9' && '0' <= s[i + 1] <= '9')
            && (!('A' <= c <= 'Z') && r != c ==> r == '.')
  {
  }

  /** The same letters up to case, and a separator between two digits in both wherever they
      differ. */
  predicate Alike(a: string, b: string) {
    |a| == |b| && forall i :: 0 <= i < |a| ==> Lower(a[i]) == Lower(b[i]) || (Separator(a, i) && Separator(b, i))
  }

  lemma AlikeAt(a: string, b: string, i: int)
    requires Alike(a, b) && 0 <= i < |a|
    ensures NormAt(a, i) == NormAt(b, i)
  {
    if 0 < i < |a| - 1 {
      assert Digit(a[i - 1]) <==> Digit(b[i - 1]);
      assert Digit(a[i + 1]) <==> Digit(b[i + 1]);
    }
  }

  lemma NormalizedAlike(a: string, b: string, i: int)
    requires |a| == |b| && 0 <= i < |a|
    requires forall j :: 0 <= j < |a| ==> NormAt(a, j) == NormAt(b, j)
    ensures Lower(a[i]) == Lower(b[i]) || (Separator(a, i) && Separator(b, i))
  {
    assert NormAt(a, i) == NormAt(b, i);
    if 0 < i < |a| - 1 {
      NormKeepsDigits(a, i - 1); NormKeepsDigits(a, i + 1);
      NormKeepsDigits(b, i - 1); NormKeepsDigits(b, i + 1);
    }
  }

  /** Exactly which ids count as one spelling. */
  lemma SameSpelling(a: string, b: string)
    ensures Normalize(a) == Normalize(b) <==> Alike(a, b)
  {
    if Normalize(a) == Normalize(b) {
      assert |a| == |Normalize(a)| == |b|;
      forall i | 0 <= i < |a| ensures NormAt(a, i) == NormAt(b, i) {
        assert Normalize(a)[i] == Normalize(b)[i];
      }
      forall i | 0 <= i < |a| ensures Lower(a[i]) == Lower(b[i]) || (Separator(a, i) && Separator(b, i)) {
        NormalizedAlike(a, b, i);
      }
    }
    if Alike(a, b) {
      forall i | 0 <= i < |a| ensures Normalize(a)[i] == Normalize(b)[i] { AlikeAt(a, b, i); }
      assert Normalize(a) == Normalize(b);
    }
  }

  // ------------------------------------------------------------------ keys

  function Key(provider: string, model: string): string { provider + "/" + model }

  function NormKey(provider: string, model: string): string { Key(provider, Normalize(model)) }

  /** One provider's name, with a slash after it, begins the other's: "a" and "a/b". */
  predicate Nested(p: string, q: string) { p + "/" <= q || q + "/" <= p }

  /** Names of providers none of which is nested in another. */
  predicate Apart(p: string, q: string) { !Nested(p, q) }

  lemma LongerIsNested(p: string, m: string, q: string, n: string)
    requires Key(p, m) == Key(q, n) && |p| < |q|
    ensures p + "/" <= q
  {
    assert (p + "/")[..|p|] == p;
    assert forall k :: 0 <= k < |p| + 1 ==> Key(p, m)[k] == (p + "/")[k] && Key(q, n)[k] == q[k];
  }

  /** Two providers are told apart by their keys as long as neither is nested in the other. */
  lemma KeyInjective(p: string, m: string, q: string, n: string)
    requires Apart(p, q)
    ensures Key(p, m) == Key(q, n) <==> p == q && m == n
  {
    var x, y := Key(p, m), Key(q, n);
    if x == y {
      if |p| < |q| { LongerIsNested(p, m, q, n); }
      if |q| < |p| { LongerIsNested(q, n, p, m); }
      assert p == x[..|p|] && q == y[..|q|];
      assert m == x[|p| + 1..] && n == y[|q| + 1..];
    }
  }

  /** Nested ones are not: some model of one has the key of some model of the other. */
  lemma NestedCollide(p: string, q: string) returns (m: string, n: string)
    requires Nested(p, q)
    ensures Key(p, m) == Key(q, n) && p != q
  {
    if p + "/" <= q {
      m, n := q[|p| + 1..] + "/m", "m";
      assert q == p + "/" + q[|p| + 1..];
    } else {
      m, n := "m", p[|q| + 1..] + "/m";
      assert p == q + "/" + p[|q| + 1..];
    }
  }

  // ----------------------------------------------------- scans of the log

  function Canonical(r: Registration): string { Key(r.provider, r.info.model) }

  function Callables(i: Info): seq<string> {
    (if i.providerModelName.Some? then [i.providerModelName.value] else []) + i.aliases
  }

  /** One of the names, blanks left out, has this key. */
  predicate Lists(provider: string, names: seq<string>, k: string) {
    exists i :: 0 <= i < |names| && names[i] != "" && Key(provider, names[i]) == k
  }

  /** One of the names, blanks left out, has this key once its spelling is normalized. */
  predicate Spells(provider: string, names: seq<string>, k: string) {
    exists i :: 0 <= i < |names| && names[i] != "" && NormKey(provider, names[i]) == k
  }

  /** The latest registration of a slug. */
  function LatestSlug(log: seq<Registration>, k: string): Option<Info> {
    if log == [] then None
    else if Canonical(log[|log| - 1]) == k then Some(log[|log| - 1].info)
    else LatestSlug(log[..|log| - 1], k)
  }

  /** The slug of the latest registration that lists an id as callable. */
  function LatestLister(log: seq<Registration>, k: string): Option<string> {
    if log == [] then None
    else
      var r := log[|log| - 1];
      if Lists(r.provider, Callables(r.info), k) then Some(Canonical(r)) else LatestLister(log[..|log| - 1], k)
  }

  /** The slug of the earliest registration with a name of this spelling. */
  function EarliestSpeller(log: seq<Registration>, k: string): Option<string> {
    if log == [] then None
    else
      var r := log[|log| - 1];
      var before := EarliestSpeller(log[..|log| - 1], k);
      if before.Some? then before
      else if Spells(r.provider, [r.info.model] + Callables(r.info), k) then Some(Canonical(r))
      else None
  }

  /** The entry a name finds, told from the calls of `set` alone. */
  function Lookup(log: seq<Registration>, provider: string, model: string): Option<Info> {
    var k := Key(provider, model);
    if LatestSlug(log, k).Some? then LatestSlug(log, k)
    else if LatestLister(log, k).Some? then LatestSlug(log, LatestLister(log, k).value)
    else if EarliestSpeller(log, NormKey(provider, model)).Some?
    then LatestSlug(log, EarliestSpeller(log, NormKey(provider, model)).value)
    else None
  }

  lemma SlugSnoc(log: seq<Registration>, r: Registration, k: string)
    ensures LatestSlug(log + [r], k) == if Canonical(r) == k then Some(r.info) else LatestSlug(log, k)
  {
    assert (log + [r])[..|log|] == log;
  }

  lemma ListerSnoc(log: seq<Registration>, r: Registration, k: string)
    ensures LatestLister(log + [r], k) ==
            if Lists(r.provider, Callables(r.info), k) then Some(Canonical(r)) else LatestLister(log, k)
  {
    assert (log + [r])[..|log|] == log;
  }

  lemma SpellerSnoc(log: seq<Registration>, r: Registration, k: string)
    ensures EarliestSpeller(log + [r], k) ==
            if EarliestSpeller(log, k).Some? then EarliestSpeller(log, k)
            else if Spells(r.provider, [r.info.model] + Callables(r.info), k) then Some(Canonical(r))
            else None
  {
    assert (log + [r])[..|log|] == log;
  }

  lemma ListsSnoc(provider: string, names: seq<string>, n: string, k: string)
    ensures Lists(provider, names + [n], k) <==> Lists(provider, names, k) || (n != "" && Key(provider, n) == k)
  {
    var all := names + [n];
    assert all[|names|] == n;
    if Lists(provider, names, k) {
      var i :| 0 <= i < |names| && names[i] != "" && Key(provider, names[i]) == k;
      assert all[i] == names[i];
    }
  }

  lemma SpellsSnoc(provider: string, names: seq<string>, n: string, k: string)
    ensures Spells(provider, names + [n], k) <==> Spells(provider, names, k) || (n != "" && NormKey(provider, n) == k)
  {
    var all := names + [n];
    assert all[|names|] == n;
    if Spells(provider, names, k) {
      var i :| 0 <= i < |names| && names[i] != "" && NormKey(provider, names[i]) == k;
      assert all[i] == names[i];
    }
  }

  /** Whatever slug a scan names was registered: no index entry points nowhere. */
  lemma {:induction false} TargetsExist(log: seq<Registration>, k: string)
    ensures LatestLister(log, k).Some? ==> LatestSlug(log, LatestLister(log, k).value).Some?
    ensures EarliestSpeller(log, k).Some? ==> LatestSlug(log, EarliestSpeller(log, k).value).Some?
  {
    hide Lists, Spells, Canonical;
    if log != [] {
      TargetsExist(log[..|log| - 1], k);
    }
  }

  /** A name that finds an entry goes on finding one, whatever is registered later. */
  lemma FoundStaysFound(log: seq<Registration>, r: Registration, provider: string, model: string)
    requires Lookup(log, provider, model).Some?
    ensures Lookup(log + [r], provider, model).Some?
  {
    hide LatestSlug, LatestLister, EarliestSpeller, Lists, Spells, Canonical, Key, NormKey;
    var k, nk := Key(provider, model), NormKey(provider, model);
    SlugSnoc(log, r, k);
    ListerSnoc(log, r, k);
    SpellerSnoc(log, r, nk);
    TargetsExist(log + [r], k);
    TargetsExist(log + [r], nk);
  }

  /** A name an entry is registered under: its slug, the provider's name for it or an alias. */
  predicate GoesBy(i: Info, name: string) { name == i.model || i.providerModelName == Some(name) || name in i.aliases }

  /** Right after its registration an entry answers to every one of its names, unless the name is
      another entry's slug, which then answers; and to every spelling of them some entry does. */
  lemma NamesFind(log: seq<Registration>, r: Registration, name: string, spelling: string)
    requires GoesBy(r.info, name) && name != "" && Normalize(spelling) == Normalize(name)
    ensures var after := log + [r];
            && (LatestSlug(after, Key(r.provider, name)).None? || name == r.info.model ==>
                  Lookup(after, r.provider, name) == Some(r.info))
            && (LatestSlug(after, Key(r.provider, name)).Some? ==>
                  Lookup(after, r.provider, name) == LatestSlug(after, Key(r.provider, name)))
            && Lookup(after, r.provider, spelling).Some?
  {
    hide LatestSlug, LatestLister, EarliestSpeller, Normalize, Lists, Spells;
    var after, k, nk := log + [r], Key(r.provider, name), NormKey(r.provider, name);
    SlugSnoc(log, r, k);
    SlugSnoc(log, r, Canonical(r));
    ListerSnoc(log, r, k);
    SpellerSnoc(log, r, nk);
    if name != r.info.model { NameIsCallable(r.info, name, r.provider); }
    NameSpells(r.info, name, r.provider);
    TargetsExist(after, nk);
    TargetsExist(after, Key(r.provider, spelling));
  }

  lemma NameIsCallable(i: Info, name: string, provider: string)
    requires GoesBy(i, name) && name != "" && name != i.model
    ensures Lists(provider, Callables(i), Key(provider, name))
  {
    var names := Callables(i);
    if i.providerModelName == Some(name) {
      assert names[0] == name;
    } else {
      var k :| 0 <= k < |i.aliases| && i.aliases[k] == name;
      assert names[|names| - |i.aliases| + k] == name;
    }
  }

  lemma NameSpells(i: Info, name: string, provider: string)
    requires GoesBy(i, name) && name != ""
    ensures Spells(provider, [i.model] + Callables(i), NormKey(provider, name))
  {
    hide Normalize;
    var names := [i.model] + Callables(i);
    if name == i.model {
      assert names[0] == name;
    } else {
      NameIsCallable(i, name, provider);
      if i.providerModelName == Some(name) {
        assert names[1] == name;
      } else {
        var k :| 0 <= k < |i.aliases| && i.aliases[k] == name;
        assert names[|names| - |i.aliases| + k] == name;
      }
    }
  }

  /** A registration of the provider lists the id as one it accepts. */
  ghost predicate Accepted(log: seq<Registration>, provider: string, id: string) {
    id != "" && exists i :: 0 <= i < |log| && log[i].provider == provider
                            && (log[i].info.providerModelName == Some(id) || id in log[i].info.aliases)
  }

  lemma {:induction false} ListerIsOwn(log: seq<Registration>, provider: string, id: string)
    requires forall i :: 0 <= i < |log| ==> Apart(log[i].provider, provider)
    ensures LatestLister(log, Key(provider, id)).Some? <==> Accepted(log, provider, id)
  {
    hide Key, Lists, Callables;
    if log != [] {
      var front, r := log[..|log| - 1], log[|log| - 1];
      ListerIsOwn(front, provider, id);
      ListsItself(r, provider, id);
      assert forall i :: 0 <= i < |front| ==> log[i] == front[i];
      assert log[|front|] == r;
    }
  }

  lemma ListsItself(r: Registration, provider: string, id: string)
    requires Apart(r.provider, provider)
    ensures Lists(r.provider, Callables(r.info), Key(provider, id)) <==>
              id != "" && r.provider == provider && (r.info.providerModelName == Some(id) || id in r.info.aliases)
  {
    hide Key;
    var names := Callables(r.info);
    if Lists(r.provider, names, Key(provider, id)) {
      var i :| 0 <= i < |names| && names[i] != "" && Key(r.provider, names[i]) == Key(provider, id);
      KeyInjective(r.provider, names[i], provider, id);
    }
    if id != "" && r.provider == provider && (r.info.providerModelName == Some(id) || id in r.info.aliases) {
      if r.info.providerModelName == Some(id) {
        assert names[0] == id;
      } else {
        var k :| 0 <= k < |r.info.aliases| && r.info.aliases[k] == id;
        assert names[|names| - |r.info.aliases| + k] == id;
      }
    }
  }

  /** Among providers not nested in one another, an exact slug only ever finds what was
      registered for the provider asked. */
  lemma {:induction false} SlugIsOwn(log: seq<Registration>, provider: string, model: string)
    requires forall i :: 0 <= i < |log| ==> Apart(log[i].provider, provider)
    ensures var found := LatestSlug(log, Key(provider, model));
            found.Some? <==> exists i :: 0 <= i < |log| && log[i].provider == provider && log[i].info.model == model
    ensures var found := LatestSlug(log, Key(provider, model));
            found.Some? ==> found.value.model == model && Registration(provider, found.value) in log
  {
    hide Key;
    if log != [] {
      var front, r := log[..|log| - 1], log[|log| - 1];
      SlugIsOwn(front, provider, model);
      KeyInjective(r.provider, r.info.model, provider, model);
      assert forall i :: 0 <= i < |front| ==> log[i] == front[i];
      assert log[|front|] == r;
    }
  }

  /** The slugs the scans name are slugs of the provider asked. */
  lemma {:induction false} ScansNameOwnSlugs(log: seq<Registration>, provider: string, model: string)
    requires forall i :: 0 <= i < |log| ==> Apart(log[i].provider, provider)
    ensures var l := LatestLister(log, Key(provider, model));
            l.Some? ==> exists slug :: l.value == Key(provider, slug)
    ensures var e := EarliestSpeller(log, Key(provider, model));
            e.Some? ==> exists slug :: e.value == Key(provider, slug)
  {
    hide Key, Lists, Spells, Callables;
    if log != [] {
      var front, r := log[..|log| - 1], log[|log| - 1];
      assert forall i :: 0 <= i < |front| ==> log[i] == front[i];
      ScansNameOwnSlugs(front, provider, model);
      if Lists(r.provider, Callables(r.info), Key(provider, model)) {
        ListedUnderOwn(r.provider, Callables(r.info), provider, model);
      }
      if Spells(r.provider, [r.info.model] + Callables(r.info), Key(provider, model)) {
        ListedUnderOwn(r.provider, [r.info.model] + Callables(r.info), provider, model);
      }
    }
  }

  lemma ListedUnderOwn(q: string, names: seq<string>, provider: string, model: string)
    requires Apart(q, provider)
    requires Lists(q, names, Key(provider, model)) || Spells(q, names, Key(provider, model))
    ensures q == provider
  {
    if Lists(q, names, Key(provider, model)) {
      var i :| 0 <= i < |names| && names[i] != "" && Key(q, names[i]) == Key(provider, model);
      KeyInjective(q, names[i], provider, model);
    } else {
      var i :| 0 <= i < |names| && names[i] != "" && NormKey(q, names[i]) == Key(provider, model);
      KeyInjective(q, Normalize(names[i]), provider, model);
    }
  }

  /** Whichever of the three levels answers, the entry was registered for the provider asked. */
  lemma LookupStaysWithProvider(log: seq<Registration>, provider: string, model: string)
    requires forall i :: 0 <= i < |log| ==> Apart(log[i].provider, provider)
    ensures Lookup(log, provider, model).Some? ==> Registration(provider, Lookup(log, provider, model).value) in log
  {
    hide Key, LatestSlug, LatestLister, EarliestSpeller, Normalize;
    SlugIsOwn(log, provider, model);
    ScansNameOwnSlugs(log, provider, model);
    ScansNameOwnSlugs(log, provider, Normalize(model));
    forall slug ensures var f := LatestSlug(log, Key(provider, slug)); f.Some? ==> Registration(provider, f.value) in log {
      SlugIsOwn(log, provider, slug);
    }
  }

  /** Whatever is registered for these providers, each is only answered with its own entries. */
  ghost predicate KeptApart(providers: set<string>) {
    forall log, provider, model :: provider in providers && RegisteredFor(log, providers) ==>
      OwnAnswer(log, provider, model)
  }

  ghost predicate RegisteredFor(log: seq<Registration>, providers: set<string>) {
    forall i :: 0 <= i < |log| ==> log[i].provider in providers
  }

  ghost predicate OwnAnswer(log: seq<Registration>, provider: string, model: string) {
    var found := Lookup(log, provider, model);
    found.Some? ==> Registration(provider, found.value) in log
  }

  /** Exactly which sets of providers a catalog keeps apart: those with no name nested in
      another. A slash alone does no harm. */
  lemma KeptApartIff(providers: set<string>)
    ensures KeptApart(providers) <==> forall p, q :: p in providers && q in providers ==> Apart(p, q)
  {
    hide Lookup, Apart, KeptApart;
    if forall p, q :: p in providers && q in providers ==> Apart(p, q) {
      AllOwnAnswers(providers);
    }
    if KeptApart(providers) {
      forall p, q | p in providers && q in providers ensures Apart(p, q) {
        if !Apart(p, q) { NestedCross(p, q, providers); }
      }
    }
  }

  lemma AllOwnAnswers(providers: set<string>)
    requires forall p, q :: p in providers && q in providers ==> Apart(p, q)
    ensures KeptApart(providers)
  {
    hide Lookup, Apart;
    forall log, provider, model | provider in providers && RegisteredFor(log, providers)
      ensures OwnAnswer(log, provider, model)
    {
      LookupStaysWithProvider(log, provider, model);
    }
  }

  lemma NestedCross(p: string, q: string, providers: set<string>)
    requires !Apart(p, q) && p in providers && q in providers
    ensures !KeptApart(providers)
  {
    hide Lookup, Apart, OwnAnswer;
    var log, model := CrossedLookup(p, q);
    assert RegisteredFor(log, providers) && !OwnAnswer(log, p, model);
  }

  /** For nested providers there is an entry of one that answers for the other. */
  lemma CrossedLookup(p: string, q: string) returns (log: seq<Registration>, model: string)
    requires !Apart(p, q)
    ensures |log| == 1 && log[0].provider == q && !OwnAnswer(log, p, model)
  {
    var m, n := NestedCollide(p, q);
    var info := Info(n, None, [], StateFields(false, None, None, None));
    log, model := [Registration(q, info)], m;
    assert Canonical(log[0]) == Key(p, m);
    assert Lookup(log, p, m) == Some(info);
  }

  // ----------------------------------------------------------------- class

  class ModelCatalog {
    var models: map<string, Info>
    var aliasIndex: map<string, string>
    var normIndex: map<string, string>
    ghost var log: seq<Registration>

    ghost predicate Exact(k: string)
      reads this
    {
      && (k in models <==> LatestSlug(log, k).Some?)
      && (k in models ==> models[k] == LatestSlug(log, k).value)
    }

    /** An id listed while its own slug was already known is not indexed, and need not be. */
    ghost predicate Aliased(k: string)
      reads this
    {
      k !in models ==>
        && (k in aliasIndex <==> LatestLister(log, k).Some?)
        && (k in aliasIndex ==> aliasIndex[k] == LatestLister(log, k).value)
    }

    ghost predicate Spelled(k: string)
      reads this
    {
      && (k in normIndex <==> EarliestSpeller(log, k).Some?)
      && (k in normIndex ==> normIndex[k] == EarliestSpeller(log, k).value)
    }

    ghost predicate Valid()
      reads this
    {
      forall k :: Exact(k) && Aliased(k) && Spelled(k)
    }

    constructor ()
      ensures Valid() && log == []
    {
      models, aliasIndex, normIndex, log := map[], map[], map[], [];
    }

    method Set(provider: string, info: Info)
      requires Valid()
      modifies this
      ensures Valid() && log == old(log) + [Registration(provider, info)]
    {
      hide LatestSlug, LatestLister, EarliestSpeller, Key, Normalize, Callables, Lists, Spells;
      var r := Registration(provider, info);
      var canonical := Key(provider, info.model);
      var known := models[canonical := info];
      var index := IndexCallables(provider, Callables(info), canonical, known, aliasIndex);
      var spellings := IndexSpellings(provider, [info.model] + Callables(info), canonical, normIndex);
      forall k
        ensures k in known <==> LatestSlug(log + [r], k).Some?
        ensures k in known ==> known[k] == LatestSlug(log + [r], k).value
        ensures k !in known ==> (k in index <==> LatestLister(log + [r], k).Some?)
        ensures k !in known && k in index ==> index[k] == LatestLister(log + [r], k).value
        ensures k in spellings <==> EarliestSpeller(log + [r], k).Some?
        ensures k in spellings ==> spellings[k] == EarliestSpeller(log + [r], k).value
      {
        assert Exact(k) && Aliased(k) && Spelled(k);
        SlugSnoc(log, r, k);
        ListerSnoc(log, r, k);
        SpellerSnoc(log, r, k);
      }
      models, aliasIndex, normIndex, log := known, index, spellings, log + [r];
    }

    method Get(provider: string, model: string) returns (found: Option<Info>)
      requires Valid()
      ensures found == Lookup(log, provider, model)
    {
      hide LatestSlug, LatestLister, EarliestSpeller, Key, NormKey;
      var k, nk := Key(provider, model), NormKey(provider, model);
      assert Exact(k) && Aliased(k) && Spelled(nk);
      if k in models { return Some(models[k]); }
      TargetsExist(log, k);
      TargetsExist(log, nk);
      if k in aliasIndex {
        assert Exact(aliasIndex[k]);
        return if aliasIndex[k] in models then Some(models[aliasIndex[k]]) else None;
      }
      if nk in normIndex {
        assert Exact(normIndex[nk]);
        return if normIndex[nk] in models then Some(models[normIndex[nk]]) else None;
      }
      return None;
    }

    method ResolveModelId(provider: string, model: string) returns (id: string)
      requires Valid()
      ensures id == Sent(log, provider, model)
    {
      hide LatestSlug, LatestLister, EarliestSpeller, Key, NormKey;
      var k, nk := Key(provider, model), NormKey(provider, model);
      assert Exact(k) && Aliased(k) && Spelled(nk);
      if k in models { return Or(models[k].providerModelName, model); }
      if k in aliasIndex { return model; }
      if nk in normIndex && normIndex[nk] in models {
        assert Exact(normIndex[nk]);
        return Or(models[normIndex[nk]].providerModelName, models[normIndex[nk]].model);
      }
      TargetsExist(log, nk);
      assert nk in normIndex ==> Exact(normIndex[nk]);
      return model;
    }
  }

  function Or<T>(a: Option<T>, b: T): T { if a.Some? then a.value else b }

  method IndexCallables(provider: string, names: seq<string>, canonical: string, models: map<string, Info>,
                        before: map<string, string>) returns (index: map<string, string>)
    ensures forall k :: k !in models && Lists(provider, names, k) ==> k in index && index[k] == canonical
    ensures forall k :: !(k !in models && Lists(provider, names, k)) ==>
              (k in index <==> k in before) && (k in before ==> index[k] == before[k])
  {
    hide Lists, Key;
    index := before;
    assert forall k :: !Lists(provider, [], k) by { NothingListed(provider); }
    for i := 0 to |names|
      invariant forall k :: k !in models && Lists(provider, names[..i], k) ==> k in index && index[k] == canonical
      invariant forall k :: !(k !in models && Lists(provider, names[..i], k)) ==>
                  (k in index <==> k in before) && (k in before ==> index[k] == before[k])
    {
      var alias := names[i];
      assert names[..i + 1] == names[..i] + [alias];
      forall k ensures Lists(provider, names[..i + 1], k) <==>
                       Lists(provider, names[..i], k) || (alias != "" && Key(provider, alias) == k) {
        ListsSnoc(provider, names[..i], alias, k);
      }
      if alias != "" && Key(provider, alias) !in models {
        index := index[Key(provider, alias) := canonical];
      }
    }
    assert names[..|names|] == names;
  }

  method IndexSpellings(provider: string, names: seq<string>, canonical: string, before: map<string, string>)
    returns (index: map<string, string>)
    ensures forall k :: k in before ==> k in index && index[k] == before[k]
    ensures forall k :: k !in before ==> (k in index <==> Spells(provider, names, k))
    ensures forall k :: k !in before && k in index ==> index[k] == canonical
  {
    hide Spells, NormKey;
    index := before;
    assert forall k :: !Spells(provider, [], k) by { NothingListed(provider); }
    for i := 0 to |names|
      invariant forall k :: k in before ==> k in index && index[k] == before[k]
      invariant forall k :: k !in before ==> (k in index <==> Spells(provider, names[..i], k))
      invariant forall k :: k !in before && k in index ==> index[k] == canonical
    {
      var name := names[i];
      assert names[..i + 1] == names[..i] + [name];
      forall k ensures Spells(provider, names[..i + 1], k) <==>
                       Spells(provider, names[..i], k) || (name != "" && NormKey(provider, name) == k) {
        SpellsSnoc(provider, names[..i], name, k);
      }
      if name == "" { continue; }
      if NormKey(provider, name) !in index {
        index := index[NormKey(provider, name) := canonical];
      }
    }
    assert names[..|names|] == names;
  }

  lemma NothingListed(provider: string)
    ensures forall k :: !Lists(provider, [], k) && !Spells(provider, [], k)
  {
  }

  // ------------------------------------------------------------- id to send

  /** The id to send for a name, told from the calls of `set` alone. */
  function Sent(log: seq<Registration>, provider: string, model: string): string {
    var k, nk := Key(provider, model), NormKey(provider, model);
    if LatestSlug(log, k).Some? then Or(LatestSlug(log, k).value.providerModelName, model)
    else if LatestLister(log, k).Some? || EarliestSpeller(log, nk).None? then model
    else
      var found := LatestSlug(log, EarliestSpeller(log, nk).value);
      if found.Some? then Or(found.value.providerModelName, found.value.model) else model
  }

  /** What is sent, exactly: the name as written when nothing is found under it, or when the
      provider accepts it as written and it is no slug of ours; and otherwise, for a slug and for a
      mere spelling, the provider's own name for the entry the lookup finds, or its slug. */
  lemma SentNamesTheEntryFound(log: seq<Registration>, provider: string, model: string)
    requires forall i :: 0 <= i < |log| ==> Apart(log[i].provider, provider)
    ensures var found, sent := Lookup(log, provider, model), Sent(log, provider, model);
            var slug := exists i :: 0 <= i < |log| && log[i].provider == provider && log[i].info.model == model;
            && (slug ==> found.Some? && found.value.model == model)
            && (found.None? || (!slug && Accepted(log, provider, model)) ==> sent == model)
            && (found.Some? && (slug || !Accepted(log, provider, model)) ==>
                  if found.value.providerModelName.Some? then Some(sent) == found.value.providerModelName
                  else sent == found.value.model)
  {
    hide LatestLister, EarliestSpeller, Key, NormKey, LatestSlug, Accepted;
    var k, nk := Key(provider, model), NormKey(provider, model);
    SlugIsOwn(log, provider, model);
    ListerIsOwn(log, provider, model);
    TargetsExist(log, k);
    TargetsExist(log, nk);
  }
}
