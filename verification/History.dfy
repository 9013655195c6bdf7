// The conversation history of src/agent/history.ts: appending, truncating
// without orphaning a tool result, replacing a range, and the token anchor.

module History {

  datatype Option<+T> = None | Some(value: T)

  datatype Part = Text | ToolCall(id: string) | ToolResult(id: string)
  datatype Content = Plain | Parts(parts: seq<Part>)
  datatype Role = System | User | Assistant | Tool

  /** `cost` is the estimate of the message's tokens. */
  datatype Message = Message(role: Role, content: Content, cost: nat)
  datatype Entry = Entry(index: int, message: Message, tokens: Option<nat>)
  datatype Usage = Usage(input: nat, output: nat)

  // ------------------------------------------------------ calls and results

  function CallsOf(m: Message): set<string> {
    if m.content.Plain? then {} else set p | p in m.content.parts && p.ToolCall? :: p.id
  }

  function ResultsOf(m: Message): set<string> {
    if m.content.Plain? then {} else set p | p in m.content.parts && p.ToolResult? :: p.id
  }

  /** The ids called by the entries from `i` on. */
  function CallsFrom(es: seq<Entry>, i: nat): set<string>
    requires i <= |es|
    decreases |es| - i
  {
    if i == |es| then {} else CallsOf(es[i].message) + CallsFrom(es, i + 1)
  }

  predicate Called(es: seq<Entry>, j: int, id: string) { 0 <= j < |es| && id in CallsOf(es[j].message) }

  lemma {:induction false} CalledFrom(es: seq<Entry>, i: nat, id: string)
    requires i <= |es|
    ensures id in CallsFrom(es, i) <==> exists k :: i <= k && Called(es, k, id)
    decreases |es| - i
  {
    hide CallsOf;
    if i < |es| {
      CalledFrom(es, i + 1, id);
      assert Called(es, i, id) <==> id in CallsOf(es[i].message);
    }
  }

  /** Entry `c` answers an id that is called neither there nor later: the guard that makes a
      truncation drop it when it would come first. */
  predicate Orphaned(es: seq<Entry>, c: nat)
    requires c < |es|
  {
    !(ResultsOf(es[c].message) <= CallsFrom(es, c))
  }

  /** Where the scan that starts at `cut` stops. */
  function FirstCut(es: seq<Entry>, cut: nat): (c: nat)
    requires cut <= |es|
    ensures cut <= c <= |es|
    ensures forall k :: cut <= k < c ==> Orphaned(es, k)
    ensures c < |es| ==> !Orphaned(es, c)
    decreases |es| - cut
  {
    if cut < |es| && Orphaned(es, cut) then FirstCut(es, cut + 1) else cut
  }

  /** Where a truncation to `keepLast` entries cuts. */
  function Cut(es: seq<Entry>, keepLast: nat): (c: nat)
    requires keepLast <= |es|
    ensures |es| - keepLast <= c <= |es|
  {
    FirstCut(es, |es| - keepLast)
  }

  // ----------------------------------------------------------------- class

  function Reindexed(es: seq<Entry>): seq<Entry> {
    seq(|es|, i requires 0 <= i < |es| => es[i].(index := i))
  }

  function Messages(es: seq<Entry>): seq<Message> {
    seq(|es|, i requires 0 <= i < |es| => es[i].message)
  }

  function CostOf(e: Entry): nat { if e.tokens.Some? then e.tokens.value else e.message.cost }

  function Sum(es: seq<Entry>, from: nat): nat
    requires from <= |es|
  {
    if from == |es| then 0 else Sum(es[..|es| - 1], from) + CostOf(es[|es| - 1])
  }

  /** A sum of costs is made up of its parts: every entry counts once, by what it was given when
      appended, or else by its message's own estimate. */
  lemma {:induction false} SumSplits(a: seq<Entry>, b: seq<Entry>, from: nat)
    requires from <= |a|
    ensures Sum(a + b, from) == Sum(a, from) + Sum(b, 0)
    ensures b != [] && b[0].tokens.None? ==> Sum(b, 0) == b[0].message.cost + Sum(b[1..], 0)
    ensures b != [] && b[0].tokens.Some? ==> Sum(b, 0) == b[0].tokens.value + Sum(b[1..], 0)
    decreases |b|
  {
    if b == [] {
      assert a + b == a;
    } else {
      var front, e := b[..|b| - 1], b[|b| - 1];
      assert (a + b)[..|a + b| - 1] == a + front && (a + b)[|a + b| - 1] == e;
      SumSplits(a, front, from);
      if |b| > 1 {
        assert b[1..][..|b| - 2] == front[1..] && b[1..][|b| - 2] == e && front[0] == b[0];
      } else {
        assert b[1..] == [] && front == [];
      }
    }
  }

  class ConversationHistory {
    var entries: seq<Entry>
    var lastActualTotal: nat
    var lastActualEntryIndex: int
    /** The messages the provider's last exact count was for. */
    ghost var counted: seq<Message>

    ghost predicate Valid()
      reads this
    {
      forall i :: 0 <= i < |entries| ==> entries[i].index == i
    }

    /** The exact count still describes the entries up to its index. */
    ghost predicate Anchored()
      reads this
    {
      -1 <= lastActualEntryIndex < |entries| && counted == Messages(entries)[..lastActualEntryIndex + 1]
    }

    constructor ()
      ensures Valid() && Anchored() && entries == []
    {
      entries, lastActualTotal, lastActualEntryIndex, counted := [], 0, -1, [];
    }

    method RecordActualUsage(inputTokens: nat)
      requires Valid()
      modifies this
      ensures Valid() && Anchored() && entries == old(entries)
      ensures lastActualTotal == inputTokens && counted == Messages(entries)
    {
      lastActualTotal := inputTokens;
      lastActualEntryIndex := |entries| - 1;
      counted := Messages(entries);
    }

    /** An assistant turn with a reported input count anchors everything before it. */
    method Append(message: Message, usage: Option<Usage>) returns (entry: Entry)
      requires Valid()
      modifies this
      ensures Valid() && (old(Anchored()) ==> Anchored())
      ensures entries == old(entries) + [entry] && entry.message == message
      ensures if message.role.Assistant? && usage.Some? && usage.value.input > 0
              then lastActualTotal == usage.value.input && counted == Messages(old(entries))
              else lastActualTotal == old(lastActualTotal) && counted == old(counted)
                   && lastActualEntryIndex == old(lastActualEntryIndex)
      ensures CostOf(entry) == if message.role.Assistant? && usage.Some? && usage.value.output > 0
                               then usage.value.output else message.cost
    {
      if message.role.Assistant? && usage.Some? && usage.value.input > 0 {
        lastActualTotal := usage.value.input;
        lastActualEntryIndex := |entries| - 1;
        counted := Messages(entries);
      }
      var estimate := message.cost;
      if message.role.Assistant? && usage.Some? && usage.value.output > 0 {
        estimate := usage.value.output;
      }
      entry := Entry(|entries|, message, Some(estimate));
      entries := entries + [entry];
      assert Messages(entries)[..|entries| - 1] == Messages(old(entries));
    }

    method IsOrphanedResult(i: nat) returns (orphan: bool)
      requires i < |entries|
      ensures orphan == Orphaned(entries, i)
    {
      var results := ResultsOf(entries[i].message);
      if results == {} { return false; }
      var kept: set<string> := {};
      var k := |entries|;
      while k > i
        invariant i <= k <= |entries| && kept == CallsFrom(entries, k)
      {
        k := k - 1;
        kept := CallsOf(entries[k].message) + kept;
      }
      orphan := exists id :: id in results && id !in kept;
    }

    /** Drops a prefix: at least all but the last `keepLast`, and on past orphaned results. */
    method Truncate(keepLast: int) returns (removed: seq<Entry>)
      requires Valid()
      modifies this`entries
      ensures Valid()
      ensures keepLast >= |old(entries)| ==> removed == [] && entries == old(entries)
      ensures keepLast < 0 ==> removed == old(entries) && entries == []
      ensures 0 <= keepLast < |old(entries)| ==>
                var c := Cut(old(entries), keepLast);
                removed == old(entries)[..c] && entries == Reindexed(old(entries)[c..])
    {
      removed := [];
      if keepLast >= |entries| { return; }
      var cut := |entries| - keepLast;
      var start := if cut <= |entries| then cut else |entries|;
      while cut < |entries|
        invariant start <= cut && entries == old(entries)
        invariant keepLast >= 0 ==> cut <= |entries| && FirstCut(entries, cut) == FirstCut(entries, start)
        invariant keepLast < 0 ==> cut > |entries|
        decreases |entries| - cut
      {
        var orphan := IsOrphanedResult(cut);
        if !orphan { break; }
        cut := cut + 1;
      }
      if cut > |entries| { cut := |entries|; }
      removed := entries[..cut];
      entries := Reindexed(entries[cut..]);
    }

    /** Replaces a range by one message; an exact count that covered it is forgotten. */
    method SpliceRange(from: int, to: int, replacement: Message) returns (removed: seq<Entry>)
      requires Valid()
      modifies this
      ensures Valid() && (old(Anchored()) ==> Anchored())
      ensures from < 0 || to > |old(entries)| || from >= to ==>
                removed == [] && entries == old(entries) && lastActualTotal == old(lastActualTotal)
      ensures 0 <= from < to <= |old(entries)| ==>
                && removed == old(entries)[from..to]
                && Messages(entries) == Messages(old(entries))[..from] + [replacement] + Messages(old(entries))[to..]
                && (if old(lastActualEntryIndex) >= from then lastActualEntryIndex == -1 && lastActualTotal == 0
                    else lastActualEntryIndex == old(lastActualEntryIndex) && lastActualTotal == old(lastActualTotal))
    {
      if from < 0 || to > |entries| || from >= to { return []; }
      removed := entries[from..to];
      entries := Reindexed(entries[..from] + [Entry(from, replacement, None)] + entries[to..]);
      if lastActualEntryIndex >= from {
        lastActualTotal := 0;
        lastActualEntryIndex := -1;
        counted := [];
      }
    }

    /** Exact up to the anchor, estimated after it; all estimated when there is none. */
    method EstimatedTokens(systemCost: nat) returns (total: nat)
      ensures total == if 0 <= lastActualEntryIndex < |entries|
                       then lastActualTotal + Sum(entries, lastActualEntryIndex + 1)
                       else systemCost + Sum(entries, 0)
    {
      var from := 0;
      total := systemCost;
      if 0 <= lastActualEntryIndex < |entries| {
        from := lastActualEntryIndex + 1;
        total := lastActualTotal;
      }
      ghost var base := total;
      for i := from to |entries|
        invariant total == base + Sum(entries[..i], from)
      {
        assert entries[..i + 1][..i] == entries[..i];
        total := total + CostOf(entries[i]);
      }
      assert entries[..|entries|] == entries;
    }
  }

  // ------------------------------------------------------------ truncation

  /** No entry from `c` to `p` calls the id. */
  ghost predicate Uncalled(es: seq<Entry>, c: int, p: int, id: string) {
    forall j :: c <= j <= p ==> !Called(es, j, id)
  }

  predicate Answers(es: seq<Entry>, p: int, id: string) { 0 <= p < |es| && id in ResultsOf(es[p].message) }

  /** With the entries before `c` gone, every result still stands after a call of its id, or
      beside one in the same entry. */
  ghost predicate CleanFrom(es: seq<Entry>, c: int) {
    forall p, id :: c <= p && Answers(es, p, id) ==> !Uncalled(es, c, p, id)
  }

  /** No result without its call, in a history taken as it is. */
  ghost predicate NoOrphan(es: seq<Entry>) { CleanFrom(es, 0) }

  lemma UncalledInSuffix(es: seq<Entry>, c: nat, p: nat, id: string)
    requires c <= p < |es|
    ensures Uncalled(Reindexed(es[c..]), 0, p - c, id) <==> Uncalled(es, c, p, id)
  {
    hide CallsOf;
    var t := Reindexed(es[c..]);
    forall j ensures c <= j <= p ==> (Called(t, j - c, id) <==> Called(es, j, id)) {}
    if Uncalled(t, 0, p - c, id) {
      forall j | c <= j <= p ensures !Called(es, j, id) { assert !Called(t, j - c, id); }
    }
    if Uncalled(es, c, p, id) {
      forall j | 0 <= j <= p - c ensures !Called(t, j, id) { assert !Called(es, c + j, id); }
    }
  }

  lemma SuffixClean(es: seq<Entry>, c: nat)
    requires c <= |es|
    ensures NoOrphan(Reindexed(es[c..])) <==> CleanFrom(es, c)
  {
    hide ResultsOf, Uncalled;
    var t := Reindexed(es[c..]);
    if CleanFrom(es, c) {
      forall p, id | 0 <= p && Answers(t, p, id) ensures !Uncalled(t, 0, p, id) {
        assert Answers(es, c + p, id);
        UncalledInSuffix(es, c, c + p, id);
      }
    }
    if NoOrphan(t) {
      forall p, id | c <= p && Answers(es, p, id) ensures !Uncalled(es, c, p, id) {
        assert Answers(t, p - c, id);
        UncalledInSuffix(es, c, p, id);
      }
    }
  }

  /** What a truncation to `keepLast` entries leaves. */
  function Kept(es: seq<Entry>, keepLast: nat): seq<Entry>
    requires keepLast <= |es|
  {
    Reindexed(es[Cut(es, keepLast)..])
  }

  /** From the entry after a result's call up to the result itself, every entry answers some id
      that is called neither there nor later. */
  ghost predicate ResultsFollow(es: seq<Entry>) {
    forall c, p, id :: 1 <= c <= p < |es| && Answers(es, p, id) && Uncalled(es, c, p, id) ==> Orphaned(es, c)
  }

  /** Truncation never leaves a result without its call, for any number of entries to keep, if
      and only if results follow their calls in that sense. */
  lemma TruncateCleanIff(es: seq<Entry>)
    ensures (forall keepLast: nat :: keepLast < |es| ==> NoOrphan(Kept(es, keepLast))) <==> ResultsFollow(es)
  {
    hide Orphaned, NoOrphan, Reindexed, Uncalled, Answers;
    if ResultsFollow(es) {
      forall keepLast: nat | keepLast < |es| ensures NoOrphan(Kept(es, keepLast)) {
        SuffixClean(es, Cut(es, keepLast));
        FollowsClean(es, Cut(es, keepLast));
      }
    }
    if forall keepLast: nat :: keepLast < |es| ==> NoOrphan(Kept(es, keepLast)) {
      forall c, p, id | 1 <= c <= p < |es| && Answers(es, p, id) && Uncalled(es, c, p, id) ensures Orphaned(es, c) {
        if !Orphaned(es, c) {
          var keepLast: nat := |es| - c;
          assert Cut(es, keepLast) == c && NoOrphan(Kept(es, keepLast));
          SuffixClean(es, c);
        }
      }
    }
  }

  lemma FollowsClean(es: seq<Entry>, c: nat)
    requires ResultsFollow(es) && 1 <= c <= |es| && (c < |es| ==> !Orphaned(es, c))
    ensures CleanFrom(es, c)
  {
    hide Orphaned, Uncalled;
    assert forall p, id :: Answers(es, p, id) ==> p < |es|;
  }

  /** What providers write: call ids are not reused, and the results of one assistant
      turn follow it with nothing else in between. */
  ghost predicate WellPaired(es: seq<Entry>) {
    && (forall j, k, id :: Called(es, j, id) && Called(es, k, id) ==> j == k)
    && (forall p, id :: Answers(es, p, id) ==> exists j :: Follows(es, j, p, id))
  }

  /** Entry `p` comes after the call of entry `j`, and every entry in between answers it too. */
  ghost predicate Follows(es: seq<Entry>, j: int, p: int, id: string) {
    && j < p && Called(es, j, id)
    && forall q :: j < q < p ==> AnswersSome(es, j, q)
  }

  ghost predicate AnswersSome(es: seq<Entry>, j: int, q: int) { exists id :: Called(es, j, id) && Answers(es, q, id) }

  lemma OnlyCall(es: seq<Entry>, j: int, c: nat, id: string)
    requires WellPaired(es) && Called(es, j, id) && j < c < |es| && Answers(es, c, id)
    ensures Orphaned(es, c)
  {
    CalledFrom(es, c, id);
    hide CallsOf, ResultsOf, CallsFrom, Called;
    assert forall k :: Called(es, k, id) ==> k == j;
  }

  lemma WellPairedFollows(es: seq<Entry>)
    requires WellPaired(es)
    ensures ResultsFollow(es)
  {
    hide CallsOf, ResultsOf, CallsFrom, Called, Answers, Orphaned;
    forall c, p, id | 1 <= c <= p < |es| && Answers(es, p, id) && Uncalled(es, c, p, id) ensures Orphaned(es, c) {
      var j :| Follows(es, j, p, id);
      assert j < c;
      if c == p {
        OnlyCall(es, j, c, id);
      } else {
        assert AnswersSome(es, j, c);
        var other :| Called(es, j, other) && Answers(es, c, other);
        OnlyCall(es, j, c, other);
      }
    }
  }

  lemma OrphanIsUnclean(es: seq<Entry>, d: nat)
    requires d < |es| && Orphaned(es, d)
    ensures !CleanFrom(es, d)
  {
    hide CallsOf, ResultsOf;
    var id :| id in ResultsOf(es[d].message) && id !in CallsFrom(es, d);
    CalledFrom(es, d, id);
    assert Answers(es, d, id) && Uncalled(es, d, d, id);
  }

  /** Then truncation leaves the longest suffix of at most `keepLast` entries that holds no
      result without its call. */
  lemma TruncateKeepsLongest(es: seq<Entry>, keepLast: nat)
    requires ResultsFollow(es) && keepLast < |es|
    ensures NoOrphan(Kept(es, keepLast))
    ensures forall d :: |es| - keepLast <= d < Cut(es, keepLast) ==> !NoOrphan(Reindexed(es[d..]))
  {
    hide NoOrphan, Reindexed, ResultsFollow, Orphaned;
    TruncateCleanIff(es);
    forall d | |es| - keepLast <= d < Cut(es, keepLast) ensures !NoOrphan(Reindexed(es[d..])) {
      SuffixClean(es, d);
      OrphanIsUnclean(es, d);
    }
  }

  /** Otherwise a result can outlive its call: here a user turn stands between two results. */
  lemma OrphanLeftBehind(es: seq<Entry>)
    requires |es| == 4
    requires es[0].message.content == Parts([ToolCall("a"), ToolCall("b")])
    requires es[1].message.content == Parts([ToolResult("a")])
    requires es[2].message.content == Plain
    requires es[3].message.content == Parts([ToolResult("b")])
    ensures !NoOrphan(Kept(es, 2))
  {
    assert ResultsOf(es[2].message) == {};
    assert ToolResult("b") in es[3].message.content.parts;
    assert Answers(es, 3, "b") && Uncalled(es, 2, 3, "b");
    SuffixClean(es, 2);
  }

  /** And so it can when an id is called again: the later call hides that the first was cut. */
  lemma ReusedIdLeftBehind(es: seq<Entry>)
    requires |es| == 5
    requires es[0].message.content == Parts([ToolCall("a")]) && es[1].message.content == Parts([ToolResult("a")])
    requires es[2].message.content == Plain
    requires es[3].message.content == Parts([ToolCall("a")]) && es[4].message.content == Parts([ToolResult("a")])
    ensures !NoOrphan(Kept(es, 4))
  {
    assert ToolResult("a") in es[1].message.content.parts && ToolCall("a") in es[3].message.content.parts;
    assert Called(es, 3, "a");
    CalledFrom(es, 1, "a");
    assert ResultsOf(es[1].message) == {"a"};
    assert Answers(es, 1, "a") && Uncalled(es, 1, 1, "a");
    SuffixClean(es, 1);
  }
}
