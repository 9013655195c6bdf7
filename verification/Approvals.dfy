// Human approval of tool calls across a restart: the pending records, the decisions fed
// back and the check that ties a decision to the call it was about, after
// `runApprovalGate`, `resumeWithApproval` and `resolveApproval` of src/agent/loop.ts.
//
// A gate suspends between opening and looking into the store, and again while the approver
// is awaited; other gates and decisions fed back come in between.

module Approvals {

  datatype Option<+T> = None | Some(value: T)

  datatype Decision = Approve(override: Option<string>) | Deny | Skip

  /** A call as the approver is shown it. */
  datatype Call = Call(id: string, tool: string, digest: string)

  datatype Fed = Fed(decision: Decision, tool: string, digest: string)

  /** `asking` lists the calls whose gates are awaiting the approver. */
  datatype State = State(pending: seq<Call>, fed: map<string, Fed>, asking: seq<Call>)

  /** What looking into the store comes to: a decision, from the store or a denial for want of an
      approver; a refusal to use a decision made about another call; a request hook or checkpoint
      write that failed before; or the approver being asked. */
  datatype Verdict =
    | FromStore(decision: Decision) | DeniedUnasked | ToolMismatch | ArgumentsMismatch | SetupFailed | Asked

  predicate Decided(v: Verdict) { v.FromStore? || v.DeniedUnasked? }

  /** A gate opens; a decision is fed back; a gate looks into the store; the approver of a gate
      answers, or fails with None. */
  datatype Event =
    | Open(c: Call)
    | Resume(id: string, decision: Decision)
    | Check(c: Call, setupFails: bool, hasApprover: bool)
    | Answer(c: Call, reply: Option<Decision>)

  function First(pending: seq<Call>, id: string): (i: nat)
    ensures i <= |pending| && (i < |pending| ==> pending[i].id == id)
    ensures forall k :: 0 <= k < i ==> pending[k].id != id
  {
    if pending == [] || pending[0].id == id then 0 else 1 + First(pending[1..], id)
  }

  function Without(pending: seq<Call>, id: string): (rest: seq<Call>)
    ensures forall c :: c in rest <==> c in pending && c.id != id
  {
    if pending == [] then []
    else (if pending[0].id == id then [] else [pending[0]]) + Without(pending[1..], id)
  }

  /** One gate of this call less. */
  function Answered(asking: seq<Call>, c: Call): seq<Call> {
    if asking == [] then [] else if asking[0] == c then asking[1..] else [asking[0]] + Answered(asking[1..], c)
  }

  function VerdictOn(s: State, c: Call, setupFails: bool, hasApprover: bool): Verdict {
    if setupFails then SetupFailed
    else if c.id in s.fed then
      var f := s.fed[c.id];
      if f.tool != c.tool then ToolMismatch
      else if f.digest != c.digest then ArgumentsMismatch
      else FromStore(f.decision)
    else if hasApprover then Asked
    else DeniedUnasked
  }

  function After(s: State, e: Event): State {
    match e
    case Open(c) => s.(pending := s.pending + [c])
    case Resume(id, decision) =>
      var i := First(s.pending, id);
      if i == |s.pending| then s
      else s.(pending := s.pending[..i] + s.pending[i + 1..],
              fed := s.fed[id := Fed(decision, s.pending[i].tool, s.pending[i].digest)])
    case Check(c, setupFails, hasApprover) =>
      var v := VerdictOn(s, c, setupFails, hasApprover);
      State(if Decided(v) then Without(s.pending, c.id) else s.pending,
            if v.SetupFailed? then s.fed else s.fed - {c.id},
            if v.Asked? then s.asking + [c] else s.asking)
    case Answer(c, reply) =>
      if c !in s.asking then s
      else State(if reply.Some? then Without(s.pending, c.id) else s.pending, s.fed, Answered(s.asking, c))
  }

  function Run(events: seq<Event>): State {
    if events == [] then State([], map[], []) else After(Run(events[..|events| - 1]), events[|events| - 1])
  }

  class ApprovalStore {
    var pending: seq<Call>
    var fed: map<string, Fed>
    ghost var asking: seq<Call>

    ghost function Value(): State
      reads this
    {
      State(pending, fed, asking)
    }

    constructor ()
      ensures Value() == Run([])
    {
      pending, fed, asking := [], map[], [];
    }

    method OpenGate(c: Call)
      modifies this
      ensures Value() == After(old(Value()), Open(c))
    {
      pending := pending + [c];
    }

    method ResumeWithApproval(id: string, decision: Decision) returns (found: bool)
      modifies this
      ensures Value() == After(old(Value()), Resume(id, decision))
      ensures found == exists k :: 0 <= k < |old(pending)| && old(pending)[k].id == id
    {
      var idx := 0;
      while idx < |pending| && pending[idx].id != id
        invariant idx <= |pending| && forall k :: 0 <= k < idx ==> pending[k].id != id
      {
        idx := idx + 1;
      }
      if idx == |pending| { return false; }
      var record := pending[idx];
      pending := pending[..idx] + pending[idx + 1..];
      fed := fed[id := Fed(decision, record.tool, record.digest)];
      return true;
    }

    method CheckGate(c: Call, setupFails: bool, hasApprover: bool) returns (v: Verdict)
      modifies this
      ensures v == VerdictOn(old(Value()), c, setupFails, hasApprover)
      ensures Value() == After(old(Value()), Check(c, setupFails, hasApprover))
    {
      if setupFails { return SetupFailed; }
      if c.id in fed {
        var f := fed[c.id];
        fed := fed - {c.id};
        if f.tool != c.tool { return ToolMismatch; }
        if f.digest != c.digest { return ArgumentsMismatch; }
        pending := Without(pending, c.id);
        return FromStore(f.decision);
      }
      assert fed - {c.id} == fed;
      if hasApprover {
        asking := asking + [c];
        return Asked;
      }
      pending := Without(pending, c.id);
      return DeniedUnasked;
    }

    /** The gate goes on when its approver has answered, whatever the store holds by then. */
    method AnswerGate(c: Call, reply: Option<Decision>) returns (decision: Option<Decision>)
      requires c in asking
      modifies this
      ensures decision == reply && Value() == After(old(Value()), Answer(c, reply))
    {
      asking := Answered(asking, c);
      if reply.None? { return None; }
      pending := Without(pending, c.id);
      return reply;
    }
  }

  lemma RunSnoc(events: seq<Event>, e: Event)
    ensures Run(events + [e]) == After(Run(events), e)
  {
    assert (events + [e])[..|events|] == events;
  }

  /** The gate a pending record comes from was opened for exactly that call. */
  ghost predicate Opened(events: seq<Event>, n: nat, c: Call) { exists i :: 0 <= i < n <= |events| && events[i] == Open(c) }

  lemma {:induction false} PendingWasOpened(events: seq<Event>, c: Call)
    requires c in Run(events).pending
    ensures Opened(events, |events|, c)
  {
    var front, e := events[..|events| - 1], events[|events| - 1];
    var s := Run(front);
    if c in s.pending {
      PendingWasOpened(front, c);
      var i :| 0 <= i < |front| && front[i] == Open(c);
      assert events[i] == Open(c);
    } else {
      assert e == Open(c);
    }
  }

  /** A decision in the store was fed back at some moment, about a record opened for the very
      call it is filed under, and no gate of that id has looked into the store since. */
  ghost predicate FedAt(events: seq<Event>, j: nat, c: Call, d: Decision) {
    && j < |events| && events[j] == Resume(c.id, d) && Opened(events, j, c)
    && forall k :: j < k < |events| && events[k].Check? && !events[k].setupFails ==> events[k].c.id != c.id
  }

  lemma OpenedEarlier(front: seq<Event>, e: Event, n: nat, c: Call)
    requires n <= |front|
    ensures Opened(front, n, c) ==> Opened(front + [e], n, c)
  {
    if Opened(front, n, c) {
      var i :| 0 <= i < n <= |front| && front[i] == Open(c);
      assert (front + [e])[i] == Open(c);
    }
  }

  lemma {:induction false} StoredWasFed(events: seq<Event>, c: Call, d: Decision)
    requires c.id in Run(events).fed && Run(events).fed[c.id] == Fed(d, c.tool, c.digest)
    ensures exists j :: FedAt(events, j, c, d)
  {
    hide Opened;
    var front, e := events[..|events| - 1], events[|events| - 1];
    var s := Run(front);
    assert events == front + [e];
    if e.Resume? && e.id == c.id && First(s.pending, c.id) < |s.pending| {
      var i := First(s.pending, c.id);
      assert s.pending[i] == c;
      PendingWasOpened(front, c);
      OpenedEarlier(front, e, |front|, c);
      assert FedAt(events, |front|, c, d);
    } else {
      assert s.fed[c.id] == Fed(d, c.tool, c.digest);
      StoredWasFed(front, c, d);
      var j :| FedAt(front, j, c, d);
      OpenedEarlier(front, e, j, c);
      assert FedAt(events, j, c, d);
    }
  }

  /** Consent is only ever spent on the call it was given for: a decision taken from the store
      at a gate was fed back earlier, for an approval opened for the same id, tool and
      arguments, and no gate of that id looked into the store in between, so it is spent once. */
  lemma ConsentIsBound(events: seq<Event>, c: Call, setupFails: bool, hasApprover: bool)
    requires VerdictOn(Run(events), c, setupFails, hasApprover).FromStore?
    ensures exists j :: FedAt(events, j, c, VerdictOn(Run(events), c, setupFails, hasApprover).decision)
    ensures c.id !in Run(events + [Check(c, setupFails, hasApprover)]).fed
  {
    StoredWasFed(events, c, VerdictOn(Run(events), c, setupFails, hasApprover).decision);
    RunSnoc(events, Check(c, setupFails, hasApprover));
  }

  /** Exactly when looking into the store settles a gate, and exactly when it asks instead. */
  lemma DecidedIff(s: State, c: Call, setupFails: bool, hasApprover: bool)
    ensures var v := VerdictOn(s, c, setupFails, hasApprover);
            && (Decided(v) <==> !setupFails && if c.id in s.fed then s.fed[c.id].tool == c.tool && s.fed[c.id].digest == c.digest
                                               else !hasApprover)
            && (v.Asked? <==> !setupFails && c.id !in s.fed && hasApprover)
  {
  }

  /** A gate's record goes exactly when the gate reaches a decision. On its other endings, a
      mismatch, a failing setup or a failing approver, it stays listed as pending although no
      gate waits for it. Of the stored decision, looking into the store leaves it only when the
      setup failed, and an approver's answer always leaves it. */
  lemma RecordStaysIff(events: seq<Event>, e: Event)
    requires (e.Check? || (e.Answer? && e.c in Run(events).asking)) && e.c in Run(events).pending
    ensures var before, after := Run(events), Run(events + [e]);
            && (e.Check? ==> (e.c in after.pending <==> !Decided(VerdictOn(before, e.c, e.setupFails, e.hasApprover))))
            && (e.Check? ==> (e.c.id in after.fed <==> e.setupFails && e.c.id in before.fed))
            && (e.Answer? ==> (e.c in after.pending <==> e.reply.None?) && after.fed == before.fed)
  {
    RunSnoc(events, e);
  }

  /** How many gates are awaiting the approver is what the checks and the answers say. */
  lemma {:induction false} AskingCounts(asking: seq<Call>, c: Call, d: Call)
    requires c in asking
    ensures multiset(asking)[d] == multiset(Answered(asking, c))[d] + (if c == d then 1 else 0)
  {
    assert asking == [asking[0]] + asking[1..];
    assert multiset(asking) == multiset{asking[0]} + multiset(asking[1..]);
    if asking[0] != c { AskingCounts(asking[1..], c, d); }
  }

  /** A decision fed back while the approver is being awaited settles nothing: the gate goes by
      the approver's answer, and the decision outlives it in the store, for the next gate of that
      id; even when the approver fails and the gate with it. */
  lemma FedWhileAsking(events: seq<Event>, c: Call, d: Decision, reply: Option<Decision>)
    requires c.id !in Run(events).fed && First(Run(events).pending, c.id) < |Run(events).pending|
    requires Run(events).pending[First(Run(events).pending, c.id)] == c
    ensures var late := events + [Check(c, false, true)] + [Resume(c.id, d)];
            && VerdictOn(Run(events), c, false, true) == Asked && c in Run(late).asking
            && VerdictOn(Run(late + [Answer(c, reply)]), c, false, true) == FromStore(d)
  {
    var asked := events + [Check(c, false, true)];
    var late := asked + [Resume(c.id, d)];
    RunSnoc(events, Check(c, false, true));
    RunSnoc(asked, Resume(c.id, d));
    RunSnoc(late, Answer(c, reply));
    assert Run(asked).pending == Run(events).pending;
  }
}
