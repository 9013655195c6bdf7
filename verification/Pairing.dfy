// Tool calls and their results in a conversation of src/agent/loop.ts: which calls are answered,
// the repair of those left open, and what a run starts from.

module Pairing {
  import H = History

  type Part = H.Part

  datatype Message = Message(role: H.Role, parts: seq<Part>)

  // ------------------------------------------------------ calls and results

  function PartCalls(parts: seq<Part>): seq<string> {
    if parts == [] then []
    else
      var p := parts[|parts| - 1];
      PartCalls(parts[..|parts| - 1]) + (if p.ToolCall? then [p.id] else [])
  }

  function MessageCalls(m: Message): seq<string> { if m.role.Assistant? then PartCalls(m.parts) else [] }

  /** The ids an assistant message calls, in order, repeated ids repeated. */
  function CallList(h: seq<Message>): seq<string> {
    if h == [] then [] else CallList(h[..|h| - 1]) + MessageCalls(h[|h| - 1])
  }

  function ResultIds(parts: seq<Part>): set<string> { set p | p in parts && p.ToolResult? :: p.id }

  function Answered(h: seq<Message>): set<string> {
    if h == [] then {} else Answered(h[..|h| - 1]) + ResultIds(h[|h| - 1].parts)
  }

  /** How often an id is answered. */
  function PartResults(parts: seq<Part>, id: string): nat {
    if parts == [] then 0
    else PartResults(parts[..|parts| - 1], id) + (if parts[|parts| - 1] == H.ToolResult(id) then 1 else 0)
  }

  function ResultCount(h: seq<Message>, id: string): nat {
    if h == [] then 0 else ResultCount(h[..|h| - 1], id) + PartResults(h[|h| - 1].parts, id)
  }

  /** Every tool call in the history has a result with its id. */
  ghost predicate Paired(h: seq<Message>) { forall id :: id in CallList(h) ==> id in Answered(h) }

  lemma CallsSnoc(h: seq<Message>, m: Message)
    ensures CallList(h + [m]) == CallList(h) + MessageCalls(m)
    ensures Answered(h + [m]) == Answered(h) + ResultIds(m.parts)
  {
    assert (h + [m])[..|h|] == h;
  }

  lemma CountSnoc(h: seq<Message>, m: Message, id: string)
    ensures ResultCount(h + [m], id) == ResultCount(h, id) + PartResults(m.parts, id)
  {
    assert (h + [m])[..|h|] == h;
  }

  lemma {:induction false} CallsConcat(a: seq<Message>, b: seq<Message>)
    ensures CallList(a + b) == CallList(a) + CallList(b)
    ensures Answered(a + b) == Answered(a) + Answered(b)
  {
    hide CallList, Answered, MessageCalls;
    if b == [] {
      assert a + b == a;
      assert CallList([]) == [] && Answered([]) == {} by { NothingCalled(); }
    } else {
      var front, m := b[..|b| - 1], b[|b| - 1];
      CallsConcat(a, front);
      assert a + b == (a + front) + [m];
      assert b == front + [m];
      CallsSnoc(a + front, m);
      CallsSnoc(front, m);
      assert CallList(a) + (CallList(front) + MessageCalls(m)) == CallList(a) + CallList(front) + MessageCalls(m);
    }
  }

  lemma NothingCalled()
    ensures CallList([]) == [] && Answered([]) == {}
  {
  }

  lemma {:induction false} CountConcat(a: seq<Message>, b: seq<Message>, id: string)
    ensures ResultCount(a + b, id) == ResultCount(a, id) + ResultCount(b, id)
  {
    if b == [] {
      assert a + b == a;
    } else {
      var front, m := b[..|b| - 1], b[|b| - 1];
      CountConcat(a, front, id);
      assert a + b == (a + front) + [m];
      assert b == front + [m];
      CountSnoc(a + front, m, id);
      CountSnoc(front, m, id);
    }
  }

  lemma {:induction false} CountMeans(parts: seq<Part>, id: string)
    ensures PartResults(parts, id) > 0 <==> id in ResultIds(parts)
  {
    if parts != [] {
      var front, p := parts[..|parts| - 1], parts[|parts| - 1];
      CountMeans(front, id);
      assert parts == front + [p];
      assert id in ResultIds(parts) <==> H.ToolResult(id) in parts;
      assert id in ResultIds(front) <==> H.ToolResult(id) in front;
    }
  }

  // ---------------------------------------------------------------- repair

  /** The ids not answered, each once, in the order first seen. */
  function FirstNew(ids: seq<string>, answered: set<string>): seq<string> {
    if ids == [] then []
    else
      var front, id := FirstNew(ids[..|ids| - 1], answered), ids[|ids| - 1];
      if id in answered || id in front then front else front + [id]
  }

  function Unanswered(h: seq<Message>): seq<string> { FirstNew(CallList(h), Answered(h)) }

  function Results(ids: seq<string>): (parts: seq<Part>)
    ensures |parts| == |ids| && forall i :: 0 <= i < |ids| ==> parts[i] == H.ToolResult(ids[i])
  {
    seq(|ids|, (i: int) requires 0 <= i < |ids| => H.ToolResult(ids[i]))
  }

  function ToolMessage(ids: seq<string>): Message { Message(H.Tool, Results(ids)) }

  function Repaired(h: seq<Message>): seq<Message> {
    if Unanswered(h) == [] then h else h + [ToolMessage(Unanswered(h))]
  }

  predicate Distinct(ids: seq<string>) { forall i, j :: 0 <= i < j < |ids| ==> ids[i] != ids[j] }

  lemma {:induction false} FirstNewMeans(ids: seq<string>, answered: set<string>, id: string)
    ensures id in FirstNew(ids, answered) <==> id in ids && id !in answered
    ensures Distinct(FirstNew(ids, answered))
  {
    if ids != [] {
      var front, last := ids[..|ids| - 1], ids[|ids| - 1];
      FirstNewMeans(front, answered, id);
      FirstNewMeans(front, answered, last);
      assert ids == front + [last];
    }
  }

  lemma {:induction false} CountResults(ids: seq<string>, id: string)
    requires Distinct(ids)
    ensures PartResults(Results(ids), id) == if id in ids then 1 else 0
    ensures id in ResultIds(Results(ids)) <==> id in ids
  {
    hide ResultIds;
    CountMeans(Results(ids), id);
    if ids != [] {
      var front := ids[..|ids| - 1];
      CountResults(front, id);
      assert Results(ids)[..|ids| - 1] == Results(front);
      assert ids == front + [ids[|ids| - 1]];
    }
  }

  /** Repair answers every open call once more and no other id; the calls stay as they were. */
  lemma RepairAnswersOpenCalls(h: seq<Message>, id: string)
    ensures Paired(Repaired(h)) && CallList(Repaired(h)) == CallList(h)
    ensures Answered(Repaired(h)) == Answered(h) + set x | x in CallList(h)
    ensures ResultCount(Repaired(h), id) ==
            ResultCount(h, id) + (if id in CallList(h) && id !in Answered(h) then 1 else 0)
    ensures Repaired(h) == h <==> Paired(h)
  {
    hide FirstNew, CallList, Answered, ResultIds, PartResults, ResultCount;
    var open := Unanswered(h);
    forall x ensures x in open <==> x in CallList(h) && x !in Answered(h) {
      FirstNewMeans(CallList(h), Answered(h), x);
    }
    FirstNewMeans(CallList(h), Answered(h), id);
    if open == [] {
      forall x | x in CallList(h) ensures x in Answered(h) { assert x !in open; }
    } else {
      var m := ToolMessage(open);
      CallsSnoc(h, m);
      CountSnoc(h, m, id);
      forall x ensures x in ResultIds(m.parts) <==> x in open { CountResults(open, x); }
      CountResults(open, id);
      assert open[0] in open;
    }
  }

  /** What a run starts from. */
  function Begun(h: seq<Message>, input: seq<Message>, pending: seq<Message>): seq<Message> {
    Repaired(h) + input + pending
  }

  lemma BegunCalls(h: seq<Message>, input: seq<Message>, pending: seq<Message>)
    ensures var b := Begun(h, input, pending);
            && CallList(b) == CallList(h) + CallList(input + pending)
            && Answered(b) == Answered(h) + (set x | x in CallList(h)) + Answered(input + pending)
  {
    hide CallList, Answered, Repaired;
    RepairAnswersOpenCalls(h, "");
    CallsConcat(Repaired(h), input + pending);
    assert Begun(h, input, pending) == Repaired(h) + (input + pending);
  }

  /** A run starts with every call answered exactly when the new input answers, or finds
      answered or called before, each id it calls itself; whatever the history held. */
  lemma BegunPaired(h: seq<Message>, input: seq<Message>, pending: seq<Message>)
    ensures Paired(Begun(h, input, pending)) <==>
            forall id :: id in CallList(input + pending) ==>
              id in Answered(h) || id in CallList(h) || id in Answered(input + pending)
  {
    hide CallList, Answered, Begun;
    BegunCalls(h, input, pending);
    var b := Begun(h, input, pending);
    forall id | id in CallList(input + pending) && Paired(b) ensures id in Answered(b) {
      assert id in CallList(b);
    }
  }

  /** A caller who answers an interrupted call in the next run's own input leaves it answered
      twice, since the repair came first. */
  lemma AnsweredTwice(h: seq<Message>, input: seq<Message>, pending: seq<Message>, id: string)
    ensures ResultCount(Begun(h, input, pending), id) ==
            ResultCount(h, id) + ResultCount(input + pending, id)
            + (if id in CallList(h) && id !in Answered(h) then 1 else 0)
  {
    hide CallList, Answered, Repaired, ResultCount;
    RepairAnswersOpenCalls(h, id);
    CountConcat(Repaired(h), input + pending, id);
    assert Begun(h, input, pending) == Repaired(h) + (input + pending);
  }

  lemma PairedTogether(a: seq<Message>, b: seq<Message>)
    requires Paired(a) && Paired(b)
    ensures Paired(a + b)
  {
    hide CallList, Answered;
    CallsConcat(a, b);
  }

  // ------------------------------------------------------- calls, then results

  predicate OpenAt(h: seq<Message>, i: nat, id: string) {
    i < |h| && id in MessageCalls(h[i]) && forall j :: i < j < |h| ==> id !in ResultIds(h[j].parts)
  }

  /** Every tool call has its result in a later message. */
  ghost predicate Followed(h: seq<Message>) { forall i, id :: !OpenAt(h, i, id) }

  lemma {:induction false} AnsweredWhere(h: seq<Message>, id: string)
    ensures id in Answered(h) <==> exists j :: 0 <= j < |h| && id in ResultIds(h[j].parts)
  {
    hide ResultIds;
    if h != [] {
      AnsweredWhere(h[..|h| - 1], id);
      assert forall j :: 0 <= j < |h| - 1 ==> h[..|h| - 1][j] == h[j];
    }
  }

  lemma {:induction false} CalledWhere(h: seq<Message>, id: string)
    ensures id in CallList(h) <==> exists j :: 0 <= j < |h| && id in MessageCalls(h[j])
  {
    hide MessageCalls;
    if h != [] {
      CalledWhere(h[..|h| - 1], id);
      assert forall j :: 0 <= j < |h| - 1 ==> h[..|h| - 1][j] == h[j];
    }
  }

  lemma OpenInside(h: seq<Message>, i: nat, id: string)
    ensures OpenAt(h, i, id) ==> i < |h|
  {
  }

  lemma OpenInEnd(a: seq<Message>, b: seq<Message>, i: nat, id: string)
    ensures OpenAt(a + b, |a| + i, id) <==> OpenAt(b, i, id)
  {
    hide MessageCalls, ResultIds;
    var h := a + b;
    assert forall j :: 0 <= j < |b| ==> h[|a| + j] == b[j];
    if OpenAt(b, i, id) {
      forall j | |a| + i < j < |h| ensures id !in ResultIds(h[j].parts) { assert h[j] == b[j - |a|]; }
    }
    if OpenAt(h, |a| + i, id) {
      forall j | i < j < |b| ensures id !in ResultIds(b[j].parts) { assert b[j] == h[|a| + j]; }
    }
  }

  lemma OpenInBeginning(a: seq<Message>, b: seq<Message>, i: nat, id: string)
    requires i < |a|
    ensures OpenAt(a + b, i, id) <==> OpenAt(a, i, id) && id !in Answered(b)
  {
    hide MessageCalls, ResultIds, Answered;
    var h := a + b;
    AnsweredWhere(b, id);
    assert forall j :: 0 <= j < |a| ==> h[j] == a[j];
    assert forall j :: 0 <= j < |b| ==> h[|a| + j] == b[j];
    if OpenAt(h, i, id) {
      forall j | 0 <= j < |b| ensures id !in ResultIds(b[j].parts) { assert b[j] == h[|a| + j]; }
      forall j | i < j < |a| ensures id !in ResultIds(a[j].parts) { assert a[j] == h[j]; }
    }
    if OpenAt(a, i, id) && id !in Answered(b) {
      forall j | i < j < |h| ensures id !in ResultIds(h[j].parts) {
        if j >= |a| { assert h[j] == b[j - |a|]; } else { assert h[j] == a[j]; }
      }
    }
  }

  /** What stays open of a history that goes on: the open calls of its end, and those of its
      beginning the end does not answer. */
  lemma OpenInConcat(a: seq<Message>, b: seq<Message>)
    ensures Followed(a + b) <==> Followed(b) && forall i, id :: OpenAt(a, i, id) ==> id in Answered(b)
  {
    hide OpenAt, Answered;
    var h := a + b;
    forall i: nat, id ensures OpenAt(h, |a| + i, id) <==> OpenAt(b, i, id) { OpenInEnd(a, b, i, id); }
    forall i: nat, id | i < |a| ensures OpenAt(h, i, id) <==> OpenAt(a, i, id) && id !in Answered(b) {
      OpenInBeginning(a, b, i, id);
    }
    forall i: nat, id ensures OpenAt(a, i, id) ==> i < |a| { OpenInside(a, i, id); }
    if Followed(b) && forall i, id :: OpenAt(a, i, id) ==> id in Answered(b) {
      forall i: nat, id ensures !OpenAt(h, i, id) {
        if i >= |a| { OpenInEnd(a, b, i - |a|, id); }
      }
    }
  }

  /** A run starts with every call followed by its result exactly when the new input's calls are,
      and the history's open calls carry ids it has not answered before, or the input answers
      them: the repair goes by ids, so the answer to an earlier use of an id hides an open call. */
  lemma BegunFollowed(h: seq<Message>, input: seq<Message>, pending: seq<Message>)
    ensures Followed(Begun(h, input, pending)) <==>
            && Followed(input + pending)
            && forall i, id :: OpenAt(h, i, id) ==> id !in Answered(h) || id in Answered(input + pending)
  {
    hide CallList, Answered, Begun, MessageCalls, OpenAt, Followed;
    var open, more := Unanswered(h), input + pending;
    assert Begun(h, input, pending) == Repaired(h) + more by { Regrouped(h, input, pending); }
    OpenInConcat(Repaired(h), more);
    forall i: nat, id ensures OpenAt(Repaired(h), i, id) <==> OpenAt(h, i, id) && id in Answered(h) {
      OpenAfterRepair(h, i, id);
    }
  }

  lemma Regrouped(h: seq<Message>, input: seq<Message>, pending: seq<Message>)
    ensures Begun(h, input, pending) == Repaired(h) + (input + pending)
  {
    hide Repaired;
  }

  lemma OpenAfterRepair(h: seq<Message>, i: nat, id: string)
    ensures OpenAt(Repaired(h), i, id) <==> OpenAt(h, i, id) && id in Answered(h)
  {
    hide CallList, Answered, PartCalls, FirstNew, ResultIds;
    var open := Unanswered(h);
    FirstNewMeans(CallList(h), Answered(h), id);
    CalledWhere(h, id);
    if open != [] {
      var m := ToolMessage(open);
      var t := h + [m];
      CountResults(open, id);
      assert forall j :: 0 <= j < |h| ==> t[j] == h[j];
      assert t[|h|] == m && id !in MessageCalls(m);
    }
  }

  /** A reused id: the second call is open, and the repair takes it for answered. */
  lemma ReusedIdStaysOpen(id: string)
    ensures var h := [Message(H.Assistant, [H.ToolCall(id)]), Message(H.Tool, [H.ToolResult(id)]),
                      Message(H.Assistant, [H.ToolCall(id)])];
            Paired(h) && Repaired(h) == h && OpenAt(h, 2, id)
  {
    hide CallList, Answered, PartCalls, Repaired, Paired;
    var call, answer := Message(H.Assistant, [H.ToolCall(id)]), Message(H.Tool, [H.ToolResult(id)]);
    var h := [call, answer, call];
    assert MessageCalls(call) == [id] by { OneCall(id); }
    CalledWhere(h, id);
    AnsweredWhere(h, id);
    assert h[1] == answer && H.ToolResult(id) in answer.parts;
    forall x ensures x in CallList(h) ==> x == id { CalledWhere(h, x); }
    assert Paired(h) by { PairedIfOnly(h, id); }
    RepairAnswersOpenCalls(h, id);
  }

  lemma OneCall(id: string)
    ensures PartCalls([H.ToolCall(id)]) == [id]
  {
    assert [H.ToolCall(id)][..0] == [];
  }

  lemma PairedIfOnly(h: seq<Message>, id: string)
    requires id in Answered(h) && forall x :: x in CallList(h) ==> x == id
    ensures Paired(h)
  {
    hide CallList, Answered;
  }

  lemma ResultListed(ids: seq<string>, id: string)
    requires id in ids
    ensures id in ResultIds(Results(ids))
  {
    var i :| 0 <= i < |ids| && ids[i] == id;
    assert Results(ids)[i] == H.ToolResult(id);
  }

  // ------------------------------------------------------------------- loops

  method CollectAnswered(h: seq<Message>) returns (answered: set<string>)
    ensures answered == Answered(h)
  {
    hide Answered;
    answered := {};
    assert Answered([]) == {} by { NothingCalled(); }
    for i := 0 to |h|
      invariant answered == Answered(h[..i])
    {
      var parts := h[i].parts;
      ghost var before := answered;
      for j := 0 to |parts|
        invariant answered == before + ResultIds(parts[..j])
      {
        assert parts[..j + 1] == parts[..j] + [parts[j]];
        ResultsGrow(parts[..j], parts[j]);
        if parts[j].ToolResult? { answered := answered + {parts[j].id}; }
      }
      assert parts[..|parts|] == parts;
      assert h[..i + 1] == h[..i] + [h[i]];
      CallsSnoc(h[..i], h[i]);
    }
    assert h[..|h|] == h;
  }

  lemma ResultsGrow(parts: seq<Part>, p: Part)
    ensures ResultIds(parts + [p]) == ResultIds(parts) + if p.ToolResult? then {p.id} else {}
  {
    forall id ensures id in ResultIds(parts + [p]) <==> id in ResultIds(parts) + if p.ToolResult? then {p.id} else {} {
      assert id in ResultIds(parts + [p]) <==> H.ToolResult(id) in parts + [p];
      assert id in ResultIds(parts) <==> H.ToolResult(id) in parts;
    }
  }

  lemma PartsSnoc(parts: seq<Part>, p: Part)
    ensures PartCalls(parts + [p]) == PartCalls(parts) + (if p.ToolCall? then [p.id] else [])
  {
    assert (parts + [p])[..|parts|] == parts;
  }

  lemma FirstNewSnoc(ids: seq<string>, id: string, answered: set<string>)
    ensures FirstNew(ids + [id], answered) ==
            var front := FirstNew(ids, answered);
            if id in answered || id in front then front else front + [id]
  {
    assert (ids + [id])[..|ids|] == ids;
  }

  method CollectOpen(h: seq<Message>, answered: set<string>) returns (orphans: seq<string>)
    ensures orphans == FirstNew(CallList(h), answered)
  {
    hide CallList, PartCalls, FirstNew;
    orphans := [];
    var seen: set<string> := {};
    assert CallList([]) == [] && FirstNew([], answered) == [] by { NothingOpen(answered); }
    for i := 0 to |h|
      invariant orphans == FirstNew(CallList(h[..i]), answered)
      invariant forall id :: id in seen <==> id in orphans
    {
      assert h[..i + 1] == h[..i] + [h[i]];
      CallsSnoc(h[..i], h[i]);
      if h[i].role.Assistant? {
        var parts := h[i].parts;
        ghost var sofar := CallList(h[..i]);
        assert PartCalls(parts[..0]) == [] by { NothingOpen(answered); }
        assert sofar + [] == sofar;
        for j := 0 to |parts|
          invariant orphans == FirstNew(sofar + PartCalls(parts[..j]), answered)
          invariant forall id :: id in seen <==> id in orphans
        {
          var part := parts[j];
          assert parts[..j + 1] == parts[..j] + [part];
          PartsSnoc(parts[..j], part);
          ghost var before := sofar + PartCalls(parts[..j]);
          assert sofar + PartCalls(parts[..j + 1]) == if part.ToolCall? then before + [part.id] else before;
          if part.ToolCall? { FirstNewSnoc(before, part.id, answered); }
          if !part.ToolCall? || part.id in answered || part.id in seen { continue; }
          seen := seen + {part.id};
          orphans := orphans + [part.id];
        }
        assert parts[..|parts|] == parts;
      } else {
        assert CallList(h[..i]) + [] == CallList(h[..i]);
      }
    }
    assert h[..|h|] == h;
  }

  lemma NothingOpen(answered: set<string>)
    ensures CallList([]) == [] && PartCalls([]) == [] && FirstNew([], answered) == []
  {
  }
}
