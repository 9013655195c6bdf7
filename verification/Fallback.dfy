// Backup models for one step of a run, after src/agent/fallback.ts: the chain of
// clients, the buffered call and the streamed call over it.

module Fallback {
  import opened Retry

  type Client = nat

  /** What a client throws: an error carrying a kind, or anything else. */
  datatype Failure = Foreign | Classified(kind: Kind)

  const DEFAULT_KINDS: set<Kind> :=
    {RateLimit, ServerError, ModelNotFound, Timeout, Network, QuotaExceeded, Unsupported}

  /** What another model cannot fix is none of them: the key, the request, its length, its content. */
  lemma BackupsCannotHelp(k: Kind)
    ensures k in DEFAULT_KINDS <==> k !in {Auth, InvalidRequest, ContextOverflow, ContentFilter}
  {
  }

  predicate Survivable(f: Failure, kinds: set<Kind>) { f.Classified? && f.kind in kinds }

  // ----------------------------------------------------------------- chain

  method ClientChain(primary: Client, backups: seq<Client>) returns (chain: seq<Client>)
    ensures chain == Chain(primary, backups)
  {
    chain := [primary];
    for i := 0 to |backups|
      invariant chain == Chain(primary, backups[..i])
    {
      assert backups[..i + 1][..i] == backups[..i];
      if backups[i] !in chain { chain := chain + [backups[i]]; }
    }
    assert backups[..|backups|] == backups;
  }

  function Chain(primary: Client, backups: seq<Client>): (chain: seq<Client>)
    ensures chain != []
  {
    if backups == [] then [primary]
    else
      var front, c := Chain(primary, backups[..|backups| - 1]), backups[|backups| - 1];
      if c in front then front else front + [c]
  }

  predicate Distinct(chain: seq<Client>) { forall i, j :: 0 <= i < j < |chain| ==> chain[i] != chain[j] }

  lemma {:induction false} ChainHasNoDuplicates(primary: Client, backups: seq<Client>)
    ensures var chain := Chain(primary, backups);
            && chain[0] == primary && Distinct(chain)
            && forall c :: c in chain <==> c == primary || c in backups
  {
    if backups != [] {
      var front, last := backups[..|backups| - 1], backups[|backups| - 1];
      ChainHasNoDuplicates(primary, front);
      assert backups == front + [last];
    }
  }

  // ---------------------------------------------------------------- who serves

  /** The position a call stops at: the first client whose failure does not move it on,
      and the last client in any case. */
  function Stop(chain: seq<Client>, movesOn: Client -> bool): (i: nat)
    requires chain != []
    ensures i < |chain|
    ensures forall j :: 0 <= j < i ==> movesOn(chain[j])
    ensures i < |chain| - 1 ==> !movesOn(chain[i])
  {
    if |chain| == 1 || !movesOn(chain[0]) then 0 else 1 + Stop(chain[1..], movesOn)
  }

  lemma {:induction false} StopIsUnique(chain: seq<Client>, movesOn: Client -> bool, i: nat)
    requires i < |chain|
    requires forall j :: 0 <= j < i ==> movesOn(chain[j])
    requires i < |chain| - 1 ==> !movesOn(chain[i])
    ensures Stop(chain, movesOn) == i
  {
    if i > 0 {
      assert movesOn(chain[0]);
      StopIsUnique(chain[1..], movesOn, i - 1);
    }
  }

  lemma {:induction false} MovingOnMoreStopsLater(chain: seq<Client>, less: Client -> bool, more: Client -> bool)
    requires chain != [] && forall c :: less(c) ==> more(c)
    ensures Stop(chain, less) <= Stop(chain, more)
  {
    if |chain| > 1 { MovingOnMoreStopsLater(chain[1..], less, more); }
  }

  /** The first client of a list, duplicates and all, that a call would stop at. */
  function FirstStop(list: seq<Client>, movesOn: Client -> bool): Option<Client> {
    if list == [] then None else if !movesOn(list[0]) then Some(list[0]) else FirstStop(list[1..], movesOn)
  }

  lemma {:induction false} FirstStopSnoc(list: seq<Client>, c: Client, movesOn: Client -> bool)
    ensures FirstStop(list + [c], movesOn) ==
            if FirstStop(list, movesOn).Some? then FirstStop(list, movesOn)
            else if movesOn(c) then None else Some(c)
  {
    if list != [] {
      FirstStopSnoc(list[1..], c, movesOn);
      assert (list + [c])[1..] == list[1..] + [c];
    }
  }

  lemma {:induction false} FirstStopMeans(list: seq<Client>, c: Client, movesOn: Client -> bool)
    ensures FirstStop(list, movesOn).None? && c in list ==> movesOn(c)
    ensures FirstStop(list, movesOn).Some? ==> FirstStop(list, movesOn).value in list
    ensures FirstStop(list, movesOn).Some? ==> !movesOn(FirstStop(list, movesOn).value)
  {
    if list != [] { FirstStopMeans(list[1..], c, movesOn); }
  }

  /** Dropping the duplicates from the configured list never changes who decides. */
  lemma {:induction false} DuplicatesDecideNothing(primary: Client, backups: seq<Client>, movesOn: Client -> bool)
    ensures FirstStop(Chain(primary, backups), movesOn) == FirstStop([primary] + backups, movesOn)
  {
    hide FirstStop;
    if backups == [] {
      assert [primary] + backups == [primary];
    } else {
      var front, c := backups[..|backups| - 1], backups[|backups| - 1];
      DuplicatesDecideNothing(primary, front, movesOn);
      assert [primary] + backups == ([primary] + front) + [c];
      FirstStopSnoc([primary] + front, c, movesOn);
      FirstStopSnoc(Chain(primary, front), c, movesOn);
      FirstStopMeans(Chain(primary, front), c, movesOn);
    }
  }

  lemma {:induction false} StopIsFirstStop(chain: seq<Client>, movesOn: Client -> bool)
    requires chain != []
    ensures FirstStop(chain, movesOn).Some? ==> chain[Stop(chain, movesOn)] == FirstStop(chain, movesOn).value
    ensures FirstStop(chain, movesOn).None? ==> Stop(chain, movesOn) == |chain| - 1
  {
    if |chain| > 1 { StopIsFirstStop(chain[1..], movesOn); }
  }

  // ------------------------------------------------------------- buffered

  datatype Reply<+R> = Answered(response: R) | Failed(error: Failure)

  datatype Verdict<+R> = Served(client: Client, response: R) | Threw(client: Client, error: Failure)

  function VerdictOf<R>(c: Client, r: Reply<R>): Verdict<R> {
    match r case Answered(response) => Served(c, response) case Failed(error) => Threw(c, error)
  }

  predicate ReplyMovesOn<R>(r: Reply<R>, kinds: set<Kind>) { r.Failed? && Survivable(r.error, kinds) }

  /** `asked` lists the clients in the order they were called. */
  method CompleteWithFallback<R>(chain: seq<Client>, kinds: Option<set<Kind>>, reply: Client -> Reply<R>)
    returns (verdict: Verdict<R>, asked: seq<Client>)
    requires chain != []
    ensures var on := (c: Client) => ReplyMovesOn(reply(c), Or(kinds, DEFAULT_KINDS));
            var i := Stop(chain, on);
            asked == chain[..i + 1] && verdict == VerdictOf(chain[i], reply(chain[i]))
  {
    var set_ := Or(kinds, DEFAULT_KINDS);
    ghost var on := (c: Client) => ReplyMovesOn(reply(c), set_);
    var last := |chain| - 1;
    var i: nat := 0;
    asked := [];
    while true
      invariant i <= last && asked == chain[..i]
      invariant forall j :: 0 <= j < i ==> on(chain[j])
      decreases last - i
    {
      var client := chain[i];
      asked := asked + [client];
      match reply(client)
      case Answered(response) =>
        StopIsUnique(chain, on, i);
        return Served(client, response), asked;
      case Failed(error) =>
        if i == last || !Survivable(error, set_) {
          StopIsUnique(chain, on, i);
          return Threw(client, error), asked;
        }
      i := i + 1;
    }
  }

  /** A call over the configured clients: every client is asked at most once; the answer is
      that of the first listed client that does not fail survivably, and when all of them do,
      the caller gets the last client's own error. */
  lemma WhoServes<R>(primary: Client, backups: seq<Client>, kinds: set<Kind>, reply: Client -> Reply<R>)
    ensures var on := (c: Client) => ReplyMovesOn(reply(c), kinds);
            var chain := Chain(primary, backups);
            var i := Stop(chain, on);
            var first := FirstStop([primary] + backups, on);
            && Distinct(chain[..i + 1])
            && (first.Some? ==> chain[i] == first.value)
            && (first.None? ==> i == |chain| - 1)
            && (first.None? ==> forall c :: c in [primary] + backups ==> ReplyMovesOn(reply(c), kinds))
            && (VerdictOf(chain[i], reply(chain[i])).Served? <==> first.Some? && reply(first.value).Answered?)
  {
    hide Stop, FirstStop, Chain;
    var on := (c: Client) => ReplyMovesOn(reply(c), kinds);
    var chain := Chain(primary, backups);
    var i := Stop(chain, on);
    ChainHasNoDuplicates(primary, backups);
    DuplicatesDecideNothing(primary, backups, on);
    StopIsFirstStop(chain, on);
    forall c ensures FirstStop([primary] + backups, on).None? && c in [primary] + backups ==> on(c) {
      FirstStopMeans([primary] + backups, c, on);
    }
    assert chain[i] in chain;
    FirstStopMeans([primary] + backups, chain[i], on);
  }

  // -------------------------------------------------------------- streamed

  /** What a client's stream would deliver, and how it would then end. */
  datatype Script<+E> = Script(events: seq<E>, failure: Option<Failure>)

  datatype Ending = Finished | Broke(error: Failure) | Left

  predicate ScriptMovesOn<E>(s: Script<E>, kinds: set<Kind>) {
    s.events == [] && s.failure.Some? && Survivable(s.failure.value, kinds)
  }

  function Tagged<E>(c: Client, events: seq<E>): (out: seq<(Client, E)>)
    ensures |out| == |events|
    ensures forall k :: 0 <= k < |out| ==> out[k] == (c, events[k])
  {
    seq(|events|, (k: int) requires 0 <= k < |events| => (c, events[k]))
  }

  /** The consumer takes events until the stream ends, or walks away holding event number
      `patience`. Each event is tagged with the client that produced it. */
  method StreamWithFallback<E>(chain: seq<Client>, kinds: Option<set<Kind>>, script: Client -> Script<E>,
                               patience: Option<nat>)
    returns (out: seq<(Client, E)>, servedBy: Client, ending: Ending, asked: seq<Client>)
    requires chain != []
    requires (patience.Some? ==> patience.value > 0)
    ensures var on := (c: Client) => ScriptMovesOn(script(c), Or(kinds, DEFAULT_KINDS));
            var i := Stop(chain, on);
            var s := script(chain[i]);
            && asked == chain[..i + 1] && servedBy == chain[i]
            && (if patience.Some? && patience.value <= |s.events|
                then ending == Left && out == Tagged(servedBy, s.events[..patience.value])
                else ending == (if s.failure.Some? then Broke(s.failure.value) else Finished)
                     && out == Tagged(servedBy, s.events))
  {
    var set_ := Or(kinds, DEFAULT_KINDS);
    ghost var on := (c: Client) => ScriptMovesOn(script(c), set_);
    var last := |chain| - 1;
    var i: nat := 0;
    out, asked := [], [];
    while true
      invariant i <= last && asked == chain[..i] && out == []
      invariant forall j :: 0 <= j < i ==> on(chain[j])
      decreases last - i
    {
      var client := chain[i];
      servedBy := client;
      asked := asked + [client];
      var events, failure := script(client).events, script(client).failure;
      var emitted := false;
      for k := 0 to |events|
        invariant emitted == (k > 0)
        invariant out == Tagged(client, events[..k])
        invariant patience.Some? ==> k < patience.value
      {
        emitted := true;
        out := out + [(client, events[k])];
        assert out == Tagged(client, events[..k + 1]);
        if patience == Some(k + 1) {
          StopIsUnique(chain, on, i);
          return out, servedBy, Left, asked;
        }
      }
      assert events[..|events|] == events;
      if failure.None? {
        StopIsUnique(chain, on, i);
        return out, servedBy, Finished, asked;
      }
      if emitted || i == last || !Survivable(failure.value, set_) {
        StopIsUnique(chain, on, i);
        return out, servedBy, Broke(failure.value), asked;
      }
      i := i + 1;
    }
  }

  /** The same client seen by the buffered call. */
  function Buffered<E>(s: Script<E>): Reply<seq<E>> {
    if s.failure.None? then Answered(s.events) else Failed(s.failure.value)
  }

  /** A streamed step is served by the client that would have served it buffered, unless that
      stream had already shown output when it failed survivably with a backup still left: then
      the stream is not continued by another model, and the buffered call would have been. */
  lemma StreamedVersusBuffered<E>(chain: seq<Client>, kinds: set<Kind>, script: Client -> Script<E>)
    requires chain != []
    ensures var i := Stop(chain, (c: Client) => ScriptMovesOn(script(c), kinds));
            var k := Stop(chain, (c: Client) => ReplyMovesOn(Buffered(script(c)), kinds));
            var s := script(chain[i]);
            && i <= k
            && (i < k <==> i < |chain| - 1 && s.events != [] && s.failure.Some? && Survivable(s.failure.value, kinds))
  {
    var streamed := (c: Client) => ScriptMovesOn(script(c), kinds);
    var buffered := (c: Client) => ReplyMovesOn(Buffered(script(c)), kinds);
    var i := Stop(chain, streamed);
    forall c ensures streamed(c) ==> buffered(c) {
      assert script(c).failure.Some? ==> Buffered(script(c)) == Failed(script(c).failure.value);
    }
    MovingOnMoreStopsLater(chain, streamed, buffered);
    if i == |chain| - 1 || !buffered(chain[i]) {
      StopIsUnique(chain, buffered, i);
    }
  }
}
