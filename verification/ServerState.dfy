// Continuing a conversation the provider keeps: the decision of
// src/llm/server-state.ts, the stamp of src/llm/client-internal.ts, and what the
// server then makes of the request, over whole conversations.

module ServerState {
  import opened Catalog

  datatype Role = User | Assistant | Tool

  /** `serverStateId` is "" when the turn carries none. */
  datatype Origin = Origin(provider: string, model: string, serverStateId: string)

  datatype Message = Message(role: Role, body: string, createdAt: Option<real>, origin: Option<Origin>)

  // --------------------------------------------------------------- catalog

  datatype ProviderState = ProviderState(supports: bool, retention: Option<real>, modelBound: bool)

  const DAY_MS := 86400000.0
  const HOUR_MS := 3600000.0

  function ProviderDefault(provider: string): ProviderState {
    if provider == "openai" || provider == "xai" then ProviderState(true, Some(30.0 * DAY_MS), true)
    else if provider == "google" then ProviderState(true, Some(72.0 * HOUR_MS), false)
    else ProviderState(false, None, true)
  }

  predicate Supports(found: Option<Info>, provider: string) {
    if found.Some? && !found.value.state.statefulApi then false
    else if found.Some? && found.value.state.supports.Some? then found.value.state.supports.value
    else ProviderDefault(provider).supports
  }

  function Retention(found: Option<Info>, provider: string): Option<real> {
    if found.Some? && found.value.state.retention.Some? then found.value.state.retention.value
    else ProviderDefault(provider).retention
  }

  predicate ModelBound(found: Option<Info>, provider: string) {
    if found.Some? && found.value.state.modelBound.Some? then found.value.state.modelBound.value
    else ProviderDefault(provider).modelBound
  }

  /** What a catalog entry says goes; one on no stateful API rules continuing out. */
  lemma EntryWins(i: Info, provider: string)
    ensures Supports(Some(i), provider) <==>
              i.state.statefulApi && i.state.supports != Some(false) && (i.state.supports == Some(true) || Supports(None, provider))
    ensures i.state.retention.Some? ==> Some(Retention(Some(i), provider)) == i.state.retention
    ensures i.state.modelBound.Some? ==> Some(ModelBound(Some(i), provider)) == i.state.modelBound
    ensures i.state.retention.None? ==> Retention(Some(i), provider) == Retention(None, provider)
    ensures i.state.modelBound.None? ==> ModelBound(Some(i), provider) == ModelBound(None, provider)
  {
    hide ProviderDefault;
  }

  // -------------------------------------------------------------- decision

  /** Who is asked: a provider's model, and the entry its catalog lookup finds. */
  datatype Target = Target(provider: string, model: string, found: Option<Info>)

  datatype Decision = Decision(previous: Option<string>, messages: seq<Message>)

  predicate Stamped(m: Message) { m.role == Assistant && m.origin.Some? && m.origin.value.serverStateId != "" }

  /** The position of the last stamped turn, or -1. */
  function LastStamped(messages: seq<Message>): (i: int)
    ensures -1 <= i < |messages|
    ensures i >= 0 ==> Stamped(messages[i])
    ensures forall k :: i < k < |messages| ==> !Stamped(messages[k])
  {
    if messages == [] then -1
    else if Stamped(messages[|messages| - 1]) then |messages| - 1
    else LastStamped(messages[..|messages| - 1])
  }

  /** The server still has the turn, as far as the catalog can tell. */
  predicate Reusable(m: Message, t: Target, now: real)
    requires Stamped(m)
  {
    var o := m.origin.value;
    var ttl := Retention(t.found, t.provider);
    && o.provider == t.provider
    && Supports(t.found, t.provider)
    && (ttl.Some? && m.createdAt.Some? ==> now - m.createdAt.value <= ttl.value)
    && (ModelBound(t.found, t.provider) ==> o.model == "" || o.model == t.model)
  }

  function Decide(messages: seq<Message>, t: Target, stateful: bool, now: real): Decision {
    var i := LastStamped(messages);
    if stateful && 0 <= i < |messages| - 1 && Reusable(messages[i], t, now)
    then Decision(Some(messages[i].origin.value.serverStateId), messages[i + 1..])
    else Decision(None, messages)
  }

  /** For a model the catalog does not list, an id is sent instead of the history exactly when the
      caller has not opted out, something follows the last stamped turn, and that turn is the same
      provider's, one of the three that keep conversations, no older than it keeps them (thirty
      days; google three), and, but for google, the same model's. */
  lemma UnlistedReuseIff(messages: seq<Message>, t: Target, stateful: bool, now: real, i: nat)
    requires t.found == None
    requires i < |messages| && Stamped(messages[i]) && forall k :: i < k < |messages| ==> !Stamped(messages[k])
    ensures var o, born := messages[i].origin.value, messages[i].createdAt;
            var d := Decide(messages, t, stateful, now);
            d.previous.Some? <==>
              && stateful && i < |messages| - 1 && o.provider == t.provider
              && t.provider in {"openai", "xai", "google"}
              && (born.Some? ==> now - born.value <= (if t.provider == "google" then 259200000.0 else 2592000000.0))
              && (t.provider == "google" || o.model == "" || o.model == t.model)
    ensures var d := Decide(messages, t, stateful, now);
            d.messages == (if d.previous.Some? then messages[i + 1..] else messages)
            && (d.previous.Some? ==> d.previous == Some(messages[i].origin.value.serverStateId))
  {
    LastStampedIs(messages, i);
  }

  method ResolveServerState(messages: seq<Message>, t: Target, stateful: bool, now: real) returns (d: Decision)
    ensures d == Decide(messages, t, stateful, now)
  {
    if !stateful { return Decision(None, messages); }
    var idx := -1;
    var i := |messages| - 1;
    while i >= 0
      invariant -1 <= i < |messages| && idx == -1
      invariant forall k :: i < k < |messages| ==> !Stamped(messages[k])
    {
      if Stamped(messages[i]) {
        idx := i;
        break;
      }
      i := i - 1;
    }
    LastStampedIs(messages, idx);
    if idx == -1 { return Decision(None, messages); }
    var origin := messages[idx].origin.value;
    if origin.provider != t.provider { return Decision(None, messages); }
    if !Supports(t.found, t.provider) { return Decision(None, messages); }
    var ttl, createdAt := Retention(t.found, t.provider), messages[idx].createdAt;
    if ttl.Some? && createdAt.Some? && now - createdAt.value > ttl.value { return Decision(None, messages); }
    if ModelBound(t.found, t.provider) && origin.model != "" && origin.model != t.model {
      return Decision(None, messages);
    }
    var trimmed := messages[idx + 1..];
    if |trimmed| == 0 { return Decision(None, messages); }
    return Decision(Some(origin.serverStateId), trimmed);
  }

  lemma LastStampedIs(messages: seq<Message>, i: int)
    requires -1 <= i < |messages| && (i >= 0 ==> Stamped(messages[i]))
    requires forall k :: i < k < |messages| ==> !Stamped(messages[k])
    ensures LastStamped(messages) == i
  {
  }

  // ---------------------------------------------------------------- server

  /** What the server reads of a message. */
  datatype Turn = Turn(role: Role, body: string)

  function Read(messages: seq<Message>): (turns: seq<Turn>)
    ensures |turns| == |messages|
    ensures forall k :: 0 <= k < |turns| ==> turns[k] == Turn(messages[k].role, messages[k].body)
  {
    seq(|messages|, (k: int) requires 0 <= k < |messages| => Turn(messages[k].role, messages[k].body))
  }

  /** A stored interaction: the transcript up to and including its reply. */
  datatype Entry = Entry(turns: seq<Turn>, model: string, at: real)

  /** How long a provider keeps what it stored, and whether it does so for one model only. */
  datatype Keeping = Keeping(keeps: real, bound: bool)

  type Servers = string -> Keeping

  type Store = map<(string, string), Entry>

  /** The transcript a request stands for, or nothing when the server refuses the id. Only the
      stateful APIs carry the id; on any other the messages are all the model is shown. */
  function Seen(srv: Servers, store: Store, t: Target, statefulApi: bool, d: Decision): Option<seq<Turn>> {
    if d.previous.None? || !statefulApi then Some(Read(d.messages))
    else
      var k := (t.provider, d.previous.value);
      if k in store && (srv(t.provider).bound ==> store[k].model == t.model)
      then Some(store[k].turns + Read(d.messages))
      else None
  }

  // ------------------------------------------------------------------- run

  /** `local` holds the ids minted on this side for streamed turns. */
  datatype World = World(history: seq<Message>, store: Store, minted: set<(string, string)>, now: real)

  /** A message from outside; a turn of a model; or the server dropping an interaction. A turn
      names the server's id for the reply and, when streamed, the id minted for it instead. */
  datatype Event =
    | Input(m: Message)
    | Ask(t: Target, stateful: bool, statefulApi: bool, reply: string, id: string, minted: Option<string>, now: real)
    | Forget(provider: string, id: string, now: real)

  /** The assistant message a response becomes. */
  function Stamp(t: Target, statefulApi: bool, reply: string, id: string, now: real): Message {
    Message(Assistant, reply, Some(now), Some(Origin(t.provider, t.model, if statefulApi then id else "")))
  }

  function Step(srv: Servers, w: World, e: Event): World {
    match e
    case Input(m) => w.(history := w.history + [m])
    case Forget(provider, id, now) => w.(store := w.store - {(provider, id)}, now := now)
    case Ask(t, stateful, statefulApi, reply, id, minted, now) =>
      var seen := Seen(srv, w.store, t, statefulApi, Decide(w.history, t, stateful, now));
      if seen.None? then w.(now := now)
      else
        World(w.history + [Stamp(t, statefulApi, reply, if minted.Some? then minted.value else id, now)],
              if statefulApi && id != ""
              then w.store[(t.provider, id) := Entry(seen.value + [Turn(Assistant, reply)], t.model, now)]
              else w.store,
              if statefulApi && minted.Some? then w.minted + {(t.provider, minted.value)} else w.minted,
              now)
  }

  /** Time does not run back; the server's ids are new, and minted ids are new and are never
      the server's. */
  ghost predicate Allowed(srv: Servers, w: World, e: Event) {
    match e
    case Input(m) => !Stamped(m)
    case Forget(provider, id, now) =>
      w.now <= now && (provider, id) in w.store && now - w.store[(provider, id)].at > srv(provider).keeps
    case Ask(t, stateful, statefulApi, reply, id, minted, now) =>
      && w.now <= now && t.model != ""
      && (t.provider, id) !in w.minted && Unused(w, t.provider, id)
      && (minted.Some? ==> minted.value != "" && minted.value != id
                           && (t.provider, minted.value) !in w.store && Unused(w, t.provider, minted.value))
  }

  ghost predicate Unused(w: World, provider: string, id: string) {
    forall k :: 0 <= k < |w.history| && Stamped(w.history[k]) && w.history[k].origin.value.provider == provider ==>
      w.history[k].origin.value.serverStateId != id
  }

  function Start(): World { World([], map[], {}, 0.0) }

  function Run(srv: Servers, events: seq<Event>): World {
    if events == [] then Start() else Step(srv, Run(srv, events[..|events| - 1]), events[|events| - 1])
  }

  ghost predicate Possible(srv: Servers, events: seq<Event>) {
    events != [] ==>
      && Possible(srv, events[..|events| - 1])
      && Allowed(srv, Run(srv, events[..|events| - 1]), events[|events| - 1])
  }

  // ------------------------------------------------------------- invariant

  function KeyOf(m: Message): (string, string)
    requires Stamped(m)
  {
    (m.origin.value.provider, m.origin.value.serverStateId)
  }

  /** A turn stamped with the server's own id is stored with the whole conversation up to it,
      unless the server's keeping time has run out; a minted id is stored nowhere. */
  ghost predicate Known(srv: Servers, w: World, i: nat)
    requires i < |w.history| && Stamped(w.history[i])
  {
    var m := w.history[i];
    var o := m.origin.value;
    && m.createdAt.Some? && m.createdAt.value <= w.now && o.model != ""
    && if KeyOf(m) in w.minted then KeyOf(m) !in w.store
       else if KeyOf(m) in w.store then w.store[KeyOf(m)] == Entry(Read(w.history[..i + 1]), o.model, m.createdAt.value)
       else w.now - m.createdAt.value > srv(o.provider).keeps
  }

  ghost predicate Inv(srv: Servers, w: World) {
    forall i: nat :: i < |w.history| && Stamped(w.history[i]) ==> Known(srv, w, i)
  }

  lemma ReadSplit(messages: seq<Message>, i: nat)
    requires i <= |messages|
    ensures Read(messages[..i]) + Read(messages[i..]) == Read(messages)
  {
  }

  /** A request whose messages were trimmed to follow an id, on an API that drops the id. */
  predicate LosesContext(e: Event, d: Decision)
    requires e.Ask?
  {
    d.previous.Some? && !e.statefulApi
  }

  /** A request that carries an id to the server. */
  predicate Carries(e: Event, d: Decision)
    requires e.Ask?
  {
    d.previous.Some? && e.statefulApi
  }

  /** The id was never issued by the server. */
  predicate FollowsMinted(w: World, e: Event, d: Decision)
    requires e.Ask?
  {
    Carries(e, d) && (e.t.provider, d.previous.value) in w.minted
  }

  /** The server issued the id and has dropped what it stood for. */
  predicate FollowsForgotten(w: World, e: Event, d: Decision)
    requires e.Ask?
  {
    Carries(e, d) && (e.t.provider, d.previous.value) !in w.minted && (e.t.provider, d.previous.value) !in w.store
  }

  /** The server keeps a conversation for one model, and the turn followed is another's. */
  predicate FollowsOtherModel(srv: Servers, w: World, e: Event, d: Decision)
    requires e.Ask?
  {
    Carries(e, d) && srv(e.t.provider).bound
    && LastStamped(w.history) >= 0 && w.history[LastStamped(w.history)].origin.value.model != e.t.model
  }

  predicate IsRefused(srv: Servers, w: World, e: Event, d: Decision)
    requires e.Ask?
  {
    FollowsMinted(w, e, d) || FollowsForgotten(w, e, d) || FollowsOtherModel(srv, w, e, d)
  }

  /** Where the catalog says a turn can be reused, it states a retention, no longer than the
      server keeps things, and knows of a server that is bound to one model. */
  ghost predicate Promised(srv: Servers, t: Target) {
    Supports(t.found, t.provider) ==>
      && Retention(t.found, t.provider).Some? && Retention(t.found, t.provider).value <= srv(t.provider).keeps
      && (srv(t.provider).bound ==> ModelBound(t.found, t.provider))
  }

  /** What a request shows the server, in any world that keeps the invariant. */
  lemma SeenIsHistory(srv: Servers, w: World, e: Event)
    requires Inv(srv, w) && e.Ask? && Allowed(srv, w, e)
    ensures var d := Decide(w.history, e.t, e.stateful, e.now);
            Seen(srv, w.store, e.t, e.statefulApi, d) ==
            if IsRefused(srv, w, e, d) then None
            else if LosesContext(e, d) then Some(Read(w.history[LastStamped(w.history) + 1..]))
            else Some(Read(w.history))
  {
    hide Read, Supports, Retention, ModelBound;
    var d := Decide(w.history, e.t, e.stateful, e.now);
    if d.previous.Some? {
      var i := LastStamped(w.history);
      assert Known(srv, w, i);
      ReadSplit(w.history, i + 1);
    }
  }

  /** With a catalog that promises no more than the server keeps, only a minted id is refused. */
  lemma PromiseKept(srv: Servers, w: World, e: Event)
    requires Inv(srv, w) && e.Ask? && Allowed(srv, w, e) && Promised(srv, e.t)
    ensures var d := Decide(w.history, e.t, e.stateful, e.now); IsRefused(srv, w, e, d) <==> FollowsMinted(w, e, d)
  {
    hide Read, Supports, Retention, ModelBound;
    var d := Decide(w.history, e.t, e.stateful, e.now);
    if d.previous.Some? { assert Known(srv, w, LastStamped(w.history)); }
  }

  lemma StepKeepsInv(srv: Servers, w: World, e: Event)
    requires Inv(srv, w) && Allowed(srv, w, e)
    ensures Inv(srv, Step(srv, w, e))
  {
    hide Decide, Read;
    var v := Step(srv, w, e);
    if e.Ask? { SeenIsHistory(srv, w, e); }
    forall i: nat | i < |v.history| && Stamped(v.history[i]) ensures Known(srv, v, i) {
      if i < |w.history| {
        assert v.history[i] == w.history[i];
        assert v.history[..i + 1] == w.history[..i + 1];
        assert Known(srv, w, i);
      } else {
        NewTurnKnown(srv, w, e);
      }
    }
  }

  lemma NewTurnKnown(srv: Servers, w: World, e: Event)
    requires Inv(srv, w) && Allowed(srv, w, e)
    requires |Step(srv, w, e).history| > |w.history| && Stamped(Step(srv, w, e).history[|w.history|])
    ensures Known(srv, Step(srv, w, e), |w.history|)
  {
    hide Decide;
    SeenIsHistory(srv, w, e);
    var v := Step(srv, w, e);
    assert v.history[..|w.history| + 1] == v.history;
    assert Read(v.history) == Read(w.history) + [Turn(Assistant, e.reply)];
  }

  lemma {:induction false} RunKeepsInv(srv: Servers, events: seq<Event>)
    requires Possible(srv, events)
    ensures Inv(srv, Run(srv, events))
  {
    hide Inv, Step, Allowed;
    if events == [] {
      assert Inv(srv, Start()) by { StartInv(srv); }
    } else {
      RunKeepsInv(srv, events[..|events| - 1]);
      StepKeepsInv(srv, Run(srv, events[..|events| - 1]), events[|events| - 1]);
    }
  }

  lemma StartInv(srv: Servers)
    ensures Inv(srv, Start())
  {
  }

  /** At every turn of every conversation, whichever providers, models and APIs it mixes, the
      model is shown the whole history, sent in full or continued from an id, if and only if the
      request is not refused and does not follow an id on an API that does not carry it. It is
      refused for an id minted here for a streamed turn, one the server has dropped, or one of
      another model where that matters; and for the first of these alone as long as the catalog
      promises no more than the server keeps. */
  lemma WholeHistoryIff(srv: Servers, events: seq<Event>, e: Event)
    requires Possible(srv, events + [e]) && e.Ask?
    ensures var w := Run(srv, events);
            var d := Decide(w.history, e.t, e.stateful, e.now);
            var seen := Seen(srv, w.store, e.t, e.statefulApi, d);
            && (seen == Some(Read(w.history)) <==> !IsRefused(srv, w, e, d) && !LosesContext(e, d))
            && (seen.None? <==> IsRefused(srv, w, e, d))
            && (Promised(srv, e.t) ==> (IsRefused(srv, w, e, d) <==> FollowsMinted(w, e, d)))
            && (LosesContext(e, d) ==> |seen.value| < |w.history| && seen.value == Read(d.messages))
  {
    hide IsRefused, FollowsMinted, Promised, Allowed, Inv;
    assert (events + [e])[..|events|] == events;
    var w := Run(srv, events);
    RunKeepsInv(srv, events);
    SeenIsHistory(srv, w, e);
    assert !LosesContext(e, Decide(w.history, e.t, e.stateful, e.now)) || !IsRefused(srv, w, e, Decide(w.history, e.t, e.stateful, e.now))
      by { NotBoth(srv, w, e); }
    if Promised(srv, e.t) { PromiseKept(srv, w, e); }
  }

  lemma NotBoth(srv: Servers, w: World, e: Event)
    requires e.Ask?
    ensures var d := Decide(w.history, e.t, e.stateful, e.now); !(LosesContext(e, d) && IsRefused(srv, w, e, d))
  {
    hide Decide;
  }

  /** A stamped reply, then a question to the same model over an API without server state. */
  function MixedApis(t: Target, first: Message, second: Message): seq<Event> {
    [Input(first), Ask(t, true, true, "reply", "resp_1", None, 0.0), Input(second)]
  }

  function StatelessAsk(t: Target): Event { Ask(t, true, false, "reply", "", None, 0.0) }

  /** The catalog and the provider's keeping allow following an id at once. */
  ghost predicate Follows(srv: Servers, t: Target) {
    && t.model != "" && Supports(t.found, t.provider)
    && Retention(t.found, t.provider).Some? && 0.0 <= Retention(t.found, t.provider).value <= srv(t.provider).keeps
    && (srv(t.provider).bound ==> ModelBound(t.found, t.provider))
  }

  lemma StatefulTurn(srv: Servers, t: Target, first: Message)
    requires !Stamped(first) && Follows(srv, t)
    ensures var w, e := World([first], map[], {}, 0.0), Ask(t, true, true, "reply", "resp_1", None, 0.0);
            && Allowed(srv, w, e)
            && Step(srv, w, e).history == [first, Stamp(t, true, "reply", "resp_1", 0.0)]
            && Step(srv, w, e).now == 0.0 && Step(srv, w, e).minted == {}
  {
    hide Supports, Retention, ModelBound;
    LastStampedIs([first], -1);
  }

  lemma TrimmedTurn(srv: Servers, t: Target, w: World, first: Message, second: Message)
    requires !Stamped(first) && !Stamped(second) && Follows(srv, t)
    requires w.history == [first, Stamp(t, true, "reply", "resp_1", 0.0), second] && w.now == 0.0 && w.minted == {}
    ensures Allowed(srv, w, StatelessAsk(t))
    ensures Seen(srv, w.store, t, false, Decide(w.history, t, true, 0.0)) == Some(Read([second]))
  {
    hide Supports, Retention, ModelBound, Read;
    LastStampedIs(w.history, 1);
    assert w.history[2..] == [second];
  }

  /** Such a conversation is possible, and there the model sees the last message alone. */
  lemma StatelessApiLosesContext(srv: Servers, t: Target, first: Message, second: Message)
    returns (events: seq<Event>, e: Event)
    requires !Stamped(first) && !Stamped(second) && Follows(srv, t)
    ensures e.Ask? && e.t == t && e.stateful && !e.statefulApi && Possible(srv, events + [e])
    ensures var w := Run(srv, events);
            && |w.history| == 3 && w.history[0] == first && w.history[2] == second
            && Seen(srv, w.store, t, e.statefulApi, Decide(w.history, t, e.stateful, e.now)) == Some(Read([second]))
  {
    hide Run, Possible, Allowed, Follows, Seen, Decide, Read, Stamp, Step;
    events, e := MixedApis(t, first, second), StatelessAsk(t);
    var e1, e2, e3 := events[0], events[1], events[2];
    Beginning(srv);
    InputTurn(srv, Start(), first);
    OneMore(srv, [], e1);
    assert [] + [first] == [first] && [] + [e1] == [e1];
    StatefulTurn(srv, t, first);
    OneMore(srv, [e1], e2);
    assert [e1] + [e2] == [e1, e2];
    var w2 := Run(srv, [e1, e2]);
    InputTurn(srv, w2, second);
    OneMore(srv, [e1, e2], e3);
    assert [e1, e2] + [e3] == events;
    assert [first, Stamp(t, true, "reply", "resp_1", 0.0)] + [second] == [first, Stamp(t, true, "reply", "resp_1", 0.0), second];
    TrimmedTurn(srv, t, Run(srv, events), first, second);
    OneMore(srv, events, e);
  }

  lemma Beginning(srv: Servers)
    ensures Possible(srv, []) && Run(srv, []) == Start()
  {
  }

  lemma InputTurn(srv: Servers, w: World, m: Message)
    requires !Stamped(m)
    ensures Allowed(srv, w, Input(m)) && Step(srv, w, Input(m)) == w.(history := w.history + [m])
  {
  }

  lemma OneMore(srv: Servers, events: seq<Event>, e: Event)
    requires Possible(srv, events) && Allowed(srv, Run(srv, events), e)
    ensures Possible(srv, events + [e]) && Run(srv, events + [e]) == Step(srv, Run(srv, events), e)
  {
    assert (events + [e])[..|events|] == events;
  }

  lemma {:induction false} NothingMinted(srv: Servers, events: seq<Event>)
    requires forall k :: 0 <= k < |events| && events[k].Ask? ==> events[k].minted.None?
    ensures Run(srv, events).minted == {}
  {
    if events != [] {
      var front := events[..|events| - 1];
      assert forall k :: 0 <= k < |front| ==> front[k] == events[k];
      NothingMinted(srv, front);
      assert events[|events| - 1].Ask? ==> events[|events| - 1].minted.None?;
    }
  }

  /** So where the turns so far were all buffered, a request on a stateful API for which the
      catalog does not promise too much is never refused and shows the whole history. */
  lemma BufferedNeverRefused(srv: Servers, events: seq<Event>, e: Event)
    requires Possible(srv, events + [e]) && e.Ask? && e.statefulApi && Promised(srv, e.t)
    requires forall k :: 0 <= k < |events| && events[k].Ask? ==> events[k].minted.None?
    ensures var w := Run(srv, events);
            Seen(srv, w.store, e.t, true, Decide(w.history, e.t, e.stateful, e.now)) == Some(Read(w.history))
  {
    NothingMinted(srv, events);
    WholeHistoryIff(srv, events, e);
  }

  /** And after a streamed turn on a stateful API the next one there is refused whenever the
      decision would have reused the turn: same provider and model, supported, and in time. */
  lemma AfterStreamedTurn(srv: Servers, w: World, streamed: Event, input: Event, e: Event)
    requires Inv(srv, w) && streamed.Ask? && Allowed(srv, w, streamed)
    requires streamed.statefulApi && streamed.minted.Some?
    requires Seen(srv, w.store, streamed.t, true, Decide(w.history, streamed.t, streamed.stateful, streamed.now)).Some?
    requires input.Input? && !Stamped(input.m)
    requires e.Ask? && e.stateful && e.statefulApi && e.t == streamed.t && Supports(e.t.found, e.t.provider)
    requires streamed.now <= e.now
    requires var ttl := Retention(e.t.found, e.t.provider); ttl.Some? ==> e.now <= streamed.now + ttl.value
    requires Allowed(srv, Step(srv, Step(srv, w, streamed), input), e)
    ensures var v := Step(srv, Step(srv, w, streamed), input);
            Seen(srv, v.store, e.t, true, Decide(v.history, e.t, e.stateful, e.now)) == None
  {
    var w1 := Step(srv, w, streamed);
    var v := Step(srv, w1, input);
    StepKeepsInv(srv, w, streamed);
    StepKeepsInv(srv, w1, input);
    var i := |w.history|;
    assert v.history[i] == Stamp(streamed.t, true, streamed.reply, streamed.minted.value, streamed.now);
    LastStampedIs(v.history, i);
    SeenIsHistory(srv, v, e);
  }
}
