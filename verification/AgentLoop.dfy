// The agent run of src/agent/loop.ts: the buffered and the streamed loop, the execution of a
// step's calls, and the retry policy of src/agent/reflect-retry.ts. What a model, a tool, a
// guardrail or a consumer does is input to a run.

module AgentLoop {
  import H = History
  import opened Pairing

  datatype Option<+T> = None | Some(value: T)

  // -------------------------------------------------------------- one call

  datatype Gate = Passes | Trips | Throws
  datatype Hook = Proceeds | SkipsCall | Overrides | HookThrows

  /** A decision of the approver, or none because its setup, the check of a stored decision or
      the approver itself threw. */
  datatype Approval = Approved | ApprovedWith | SkipIt | DenyIt | SetupThrows | Mismatched | ApproverThrows

  datatype Permission = Allowed | Refused | PolicyThrows | AskFirst(answer: Approval, announceThrows: bool)

  /** The tool ran; it failed and the error hook let the run go on; or that hook ended it. */
  datatype Execution = Succeeds | FailsSoftly | FailsHard

  /** What happens to one call on its way through the gates. `reportThrows` is a subscriber
      throwing while a missing tool or invalid arguments are reported. */
  datatype ToolRun = ToolRun(malformed: bool, hook: Hook, found: bool, guardrail: Gate, argumentsValid: bool,
                             reportThrows: bool, permission: Permission, execution: Execution)

  predicate NoDecision(a: Approval) { a.SetupThrows? || a.Mismatched? || a.ApproverThrows? }

  predicate GateEscapes(p: Permission, x: Execution) {
    match p
    case Refused => false
    case PolicyThrows => true
    case Allowed => x.FailsHard?
    case AskFirst(a, announceThrows) => NoDecision(a) || announceThrows || (a.Approved? && x.FailsHard?)
  }

  /** The only ways a call ends the run instead of being answered: something on its way threw,
      other than the tool itself with the error hook letting the run go on. */
  predicate Escapes(t: ToolRun) {
    !t.malformed &&
      (t.hook.HookThrows? ||
       (t.hook.Proceeds? &&
        if !t.found then t.reportThrows
        else t.guardrail.Throws? ||
             (t.guardrail.Passes? &&
              if !t.argumentsValid then t.reportThrows else GateEscapes(t.permission, t.execution))))
  }

  /** Every gate answers the call with one result of its id and files one report, or throws
      and files none; and the tool itself is run exactly when every gate lets the call through. */
  method ExecuteSingleTool(id: string, t: ToolRun, reports: seq<string>)
    returns (result: Option<Part>, filed: seq<string>, ran: bool)
    ensures result == if Escapes(t) then None else Some(H.ToolResult(id))
    ensures filed == if Escapes(t) then reports else reports + [id]
    ensures ran <==> !t.malformed && t.hook.Proceeds? && t.found && t.guardrail.Passes? && t.argumentsValid
                     && (t.permission.Allowed? || t.permission == AskFirst(Approved, false))
    ensures ran ==> (result.None? <==> t.execution.FailsHard?)
    ensures result.None? <==>
              || (!t.malformed && t.hook.HookThrows?)
              || (!t.malformed && t.hook.Proceeds? && !t.found && t.reportThrows)
              || (!t.malformed && t.hook.Proceeds? && t.found && t.guardrail.Throws?)
              || (!t.malformed && t.hook.Proceeds? && t.found && t.guardrail.Passes? && !t.argumentsValid && t.reportThrows)
              || (!t.malformed && t.hook.Proceeds? && t.found && t.guardrail.Passes? && t.argumentsValid
                  && t.permission.PolicyThrows?)
              || (!t.malformed && t.hook.Proceeds? && t.found && t.guardrail.Passes? && t.argumentsValid
                  && t.permission.AskFirst? && (t.permission.announceThrows || NoDecision(t.permission.answer)))
              || (ran && t.execution.FailsHard?)
  {
    filed := reports;
    ran := false;
    if t.malformed { return Some(H.ToolResult(id)), filed + [id], ran; }
    match t.hook {
      case HookThrows => return None, filed, ran;
      case SkipsCall => return Some(H.ToolResult(id)), filed + [id], ran;
      case Overrides => return Some(H.ToolResult(id)), filed + [id], ran;
      case Proceeds =>
    }
    if !t.found {
      if t.reportThrows { return None, filed, ran; }
      return Some(H.ToolResult(id)), filed + [id], ran;
    }
    if t.guardrail.Throws? { return None, filed, ran; }
    if t.guardrail.Trips? { return Some(H.ToolResult(id)), filed + [id], ran; }
    if !t.argumentsValid {
      if t.reportThrows { return None, filed, ran; }
      return Some(H.ToolResult(id)), filed + [id], ran;
    }
    match t.permission {
      case PolicyThrows => return None, filed, ran;
      case Refused => return Some(H.ToolResult(id)), filed + [id], ran;
      case AskFirst(answer, announceThrows) =>
        if answer.SetupThrows? || answer.Mismatched? || answer.ApproverThrows? { return None, filed, ran; }
        if announceThrows { return None, filed, ran; }
        if answer.ApprovedWith? || answer.SkipIt? || answer.DenyIt? { return Some(H.ToolResult(id)), filed + [id], ran; }
      case Allowed =>
    }
    ran := true;
    if t.execution.FailsHard? { return None, filed, ran; }
    return Some(H.ToolResult(id)), filed + [id], ran;
  }

  predicate SomeEscapes(tool: nat -> ToolRun, n: nat) { exists i: nat :: i < n && Escapes(tool(i)) }

  /** A step's calls are answered in order, one report each, or the step throws. */
  method ExecuteToolCalls(calls: seq<string>, tool: nat -> ToolRun)
    returns (results: Option<seq<Part>>, reports: seq<string>)
    ensures results == if SomeEscapes(tool, |calls|) then None else Some(Results(calls))
    ensures results.Some? ==> reports == calls
  {
    var parts: seq<Part> := [];
    reports := [];
    for i := 0 to |calls|
      invariant parts == Results(calls[..i]) && reports == calls[..i]
      invariant !SomeEscapes(tool, i)
    {
      var result, ran;
      result, reports, ran := ExecuteSingleTool(calls[i], tool(i), reports);
      if result.None? { return None, reports; }
      parts := parts + [result.value];
    }
    assert calls[..|calls|] == calls;
    return Some(parts), reports;
  }

  // --------------------------------------------------------------- one run

  datatype Usage = Usage(input: int, output: int, total: int, cached: int, cacheWrite: int, reasoning: int)

  const NO_USAGE := Usage(0, 0, 0, 0, 0, 0)

  function AddUsage(a: Usage, b: Usage): Usage {
    Usage(a.input + b.input, a.output + b.output, a.total + b.total,
          a.cached + b.cached, a.cacheWrite + b.cacheWrite, a.reasoning + b.reasoning)
  }

  datatype Finish = Stop | ToolUse | Length | ContentFilter | Error | Pending | MalformedToolCall | Unlisted(name: string)

  datatype Response = Response(parts: seq<Part>, calls: seq<string>, finish: Finish, usage: Usage)

  datatype Model = Fails | Replies(response: Response)

  /** Where the consumer of a stream walks away. */
  datatype Leave = Never | AtStart | DuringStream | AfterReply | AtToolEnds

  /** One pass of the loop: a stop request, the checks before the model, the model, the checks
      after it, the tools, and the consumer of a stream. */
  datatype Pass = Pass(stop: bool, before: Gate, model: Model, after: Gate, tool: nat -> ToolRun, leave: Leave)

  datatype Ending = Done | Stopped | Errored | Guardrail | OutOfSteps | Aborted(at: Leave)

  datatype StepReport = StepReport(index: nat, usage: Usage, tools: seq<string>)

  datatype Reflect = Reflect(maxRetries: nat, reasons: set<Finish>, throwIfExceeded: bool)

  datatype Config = Config(maxSteps: nat, reflect: Option<Reflect>)

  /** `streak` is the policy's count of failures in a row; `replies` and `sent` record the
      responses received and the histories the model was called with. */
  datatype RunState = RunState(history: seq<Message>, streak: nat, toolCalls: nat, usage: Usage,
                               steps: seq<StepReport>, replies: seq<Response>, sent: seq<seq<Message>>,
                               end: Option<Ending>)

  const GUIDANCE := Message(H.User, [H.Text])

  function Reply(r: Response): Message { Message(H.Assistant, r.parts) }

  function Ended(s: RunState, e: Ending): RunState { s.(end := Some(e)) }

  /** The step is over: its report, and whether there is another. */
  function StepDone(cfg: Config, s: RunState, r: Response, acts: bool): RunState {
    var t := s.(steps := s.steps + [StepReport(|s.steps|, r.usage, if acts then r.calls else [])]);
    if !acts then Ended(t, Done) else if |t.steps| >= cfg.maxSteps then Ended(t, OutOfSteps) else t
  }

  /** From the reply on: it joins the history, then its calls are executed. */
  function AfterReplied(cfg: Config, streamed: bool, s: RunState, p: Pass, r: Response, acts: bool): RunState {
    var t := s.(history := s.history + [Reply(r)]);
    if p.after.Trips? then Ended(t, Guardrail)
    else if p.after.Throws? then Ended(t, Errored)
    else if streamed && p.leave.AfterReply? then Ended(t, Aborted(AfterReply))
    else if !acts then StepDone(cfg, t, r, acts)
    else if SomeEscapes(p.tool, |r.calls|) then Ended(t, Errored)
    else
      var u := t.(toolCalls := t.toolCalls + |r.calls|);
      if streamed && p.leave.AtToolEnds? then Ended(u, Aborted(AtToolEnds))
      else StepDone(cfg, u.(history := u.history + [ToolMessage(r.calls)]), r, acts)
  }

  /** One pass of the buffered loop. */
  function Buffered(cfg: Config, s: RunState, p: Pass): RunState {
    if p.stop then Ended(s, Stopped)
    else if p.before.Trips? then Ended(s, Guardrail)
    else if p.before.Throws? then Ended(s, Errored)
    else
      var t := s.(sent := s.sent + [s.history]);
      if p.model.Fails? then Ended(t, Errored)
      else
        var r := p.model.response;
        var u := t.(usage := AddUsage(t.usage, r.usage), replies := t.replies + [r]);
        var acts := r.finish.ToolUse? && r.calls != [];
        if cfg.reflect.Some? && r.finish in cfg.reflect.value.reasons then
          var v := u.(streak := u.streak + 1);
          if v.streak <= cfg.reflect.value.maxRetries then v.(history := v.history + [GUIDANCE])
          else if cfg.reflect.value.throwIfExceeded then Ended(v, Errored)
          else AfterReplied(cfg, false, v, p, r, acts)
        else AfterReplied(cfg, false, if cfg.reflect.Some? then u.(streak := 0) else u, p, r, acts)
  }

  /** One pass of the streamed loop, which never consults the retry policy. */
  function Streamed(cfg: Config, s: RunState, p: Pass): RunState {
    if p.stop then Ended(s, Stopped)
    else if p.leave.AtStart? then Ended(s, Aborted(AtStart))
    else if p.before.Trips? then Ended(s, Guardrail)
    else if p.before.Throws? then Ended(s, Errored)
    else
      var t := s.(sent := s.sent + [s.history]);
      if p.leave.DuringStream? then Ended(t, Aborted(DuringStream))
      else if p.model.Fails? then Ended(t, Errored)
      else
        var r := p.model.response;
        var u := t.(usage := AddUsage(t.usage, r.usage), replies := t.replies + [r]);
        AfterReplied(cfg, true, u, p, r, r.calls != [])
  }

  function Iterate(cfg: Config, streamed: bool, s: RunState, p: Pass): RunState {
    if streamed then Streamed(cfg, s, p) else Buffered(cfg, s, p)
  }

  /** The model is called in this pass. */
  predicate CallsModel(streamed: bool, p: Pass) {
    !p.stop && !(streamed && p.leave.AtStart?) && p.before.Passes?
  }

  predicate GetsReply(streamed: bool, p: Pass) {
    CallsModel(streamed, p) && !(streamed && p.leave.DuringStream?) && p.model.Replies?
  }

  /** The reply is thrown away, for another try or because the tries are used up. */
  predicate Discards(cfg: Config, streamed: bool, s: RunState, p: Pass) {
    GetsReply(streamed, p) && !streamed && cfg.reflect.Some? && p.model.response.finish in cfg.reflect.value.reasons
    && (s.streak < cfg.reflect.value.maxRetries || cfg.reflect.value.throwIfExceeded)
  }

  /** The reply joins the history and passes the checks after it. */
  predicate Accepts(cfg: Config, streamed: bool, s: RunState, p: Pass) {
    GetsReply(streamed, p) && !Discards(cfg, streamed, s, p) && p.after.Passes? && !(streamed && p.leave.AfterReply?)
  }

  /** The reply asks for tools: buffered runs go by its finish as well. */
  predicate Acts(streamed: bool, p: Pass)
    requires p.model.Replies?
  {
    p.model.response.calls != [] && (streamed || p.model.response.finish.ToolUse?)
  }

  /** What one pass leaves in the history, its reply and then the results of the reply's calls, and
      what it reports of them. */
  lemma PassHistory(cfg: Config, streamed: bool, s: RunState, p: Pass)
    requires s.end.None?
    ensures var t, accepts := Iterate(cfg, streamed, s, p), Accepts(cfg, streamed, s, p);
            var answers := accepts && Acts(streamed, p) && !SomeEscapes(p.tool, |p.model.response.calls|);
            && t.history == s.history
                 + (if !GetsReply(streamed, p) then []
                    else if Discards(cfg, streamed, s, p) then (if t.end.None? then [GUIDANCE] else [])
                    else if answers && !(streamed && p.leave.AtToolEnds?)
                    then [Reply(p.model.response), ToolMessage(p.model.response.calls)]
                    else [Reply(p.model.response)])
            && t.steps == s.steps
                 + (if accepts && (!Acts(streamed, p) || (answers && !(streamed && p.leave.AtToolEnds?)))
                    then [StepReport(|s.steps|, p.model.response.usage, if answers then p.model.response.calls else [])]
                    else [])
  {
    hide SomeEscapes, ToolMessage, AddUsage, Reply;
  }

  /** What one pass counts and records. */
  lemma PassRecords(cfg: Config, streamed: bool, s: RunState, p: Pass)
    requires s.end.None?
    ensures var t, replied := Iterate(cfg, streamed, s, p), GetsReply(streamed, p);
            && t.sent == s.sent + (if CallsModel(streamed, p) then [s.history] else [])
            && t.replies == s.replies + (if replied then [p.model.response] else [])
            && t.streak == (if replied && !streamed && cfg.reflect.Some?
                            then (if p.model.response.finish in cfg.reflect.value.reasons then s.streak + 1 else 0)
                            else s.streak)
            && t.toolCalls == s.toolCalls
                 + (if Accepts(cfg, streamed, s, p) && Acts(streamed, p)
                       && !SomeEscapes(p.tool, |p.model.response.calls|)
                    then |p.model.response.calls| else 0)
  {
    hide SomeEscapes, ToolMessage, AddUsage, Reply;
  }

  /** When a run ends, and how. */
  lemma PassEnds(cfg: Config, streamed: bool, s: RunState, p: Pass)
    requires s.end.None?
    ensures var t, accepts := Iterate(cfg, streamed, s, p), Accepts(cfg, streamed, s, p);
            var answers := accepts && Acts(streamed, p) && !SomeEscapes(p.tool, |p.model.response.calls|);
            && (t.end == Some(Stopped) <==> p.stop)
            && (t.end == Some(Guardrail) <==>
                  || (!p.stop && !(streamed && p.leave.AtStart?) && p.before.Trips?)
                  || (GetsReply(streamed, p) && !Discards(cfg, streamed, s, p) && p.after.Trips?))
            && (t.end == Some(Done) <==> accepts && !Acts(streamed, p))
            && (t.end == Some(OutOfSteps) <==>
                  answers && !(streamed && p.leave.AtToolEnds?) && |s.steps| + 1 >= cfg.maxSteps)
            && (t.end == None <==>
                  || (answers && !(streamed && p.leave.AtToolEnds?) && |s.steps| + 1 < cfg.maxSteps)
                  || (Discards(cfg, streamed, s, p) && s.streak < cfg.reflect.value.maxRetries))
            && (t.end == Some(Aborted(AtStart)) <==> streamed && !p.stop && p.leave.AtStart?)
            && (t.end == Some(Aborted(DuringStream)) <==> streamed && CallsModel(streamed, p) && p.leave.DuringStream?)
            && (t.end == Some(Aborted(AfterReply)) <==>
                  streamed && GetsReply(streamed, p) && p.after.Passes? && p.leave.AfterReply?)
            && (t.end == Some(Aborted(AtToolEnds)) <==> streamed && answers && p.leave.AtToolEnds?)
  {
    hide SomeEscapes, ToolMessage, AddUsage;
  }

  /** The run as far as the script reaches. */
  function RunFrom(cfg: Config, streamed: bool, s: RunState, script: seq<Pass>): RunState
    decreases |script|
  {
    if s.end.Some? || script == [] then s
    else RunFrom(cfg, streamed, Iterate(cfg, streamed, s, script[0]), script[1..])
  }

  function Start(h: seq<Message>, streak: nat): RunState {
    RunState(h, streak, 0, NO_USAGE, [], [], [], None)
  }

  // ----------------------------------------------------------- termination

  function Retries(cfg: Config, streamed: bool): nat {
    if streamed || cfg.reflect.None? then 0 else cfg.reflect.value.maxRetries
  }

  function Times(a: nat, b: nat): (r: nat) { if a == 0 then 0 else Times(a - 1, b) + b }

  lemma {:induction false} TimesIsProduct(a: nat, b: nat)
    ensures Times(a, b) == a * b
  {
    if a > 0 { TimesIsProduct(a - 1, b); }
  }

  /** How many model calls a run can still make: those of the steps to come, each with its full
      budget of retries, and of this step with what its streak leaves. */
  function Left(cfg: Config, streamed: bool, s: RunState): nat {
    var retries := Retries(cfg, streamed);
    if s.end.Some? || |s.steps| >= cfg.maxSteps then 0
    else Times(cfg.maxSteps - |s.steps| - 1, retries + 1) + (if s.streak < retries then retries - s.streak else 0) + 1
  }

  /** A run under way has steps left. */
  predicate UnderWay(cfg: Config, s: RunState) { s.end.None? ==> |s.steps| < cfg.maxSteps }

  /** What one pass can do: end the run, retry the step, or go on to the next. */
  lemma PassShape(cfg: Config, streamed: bool, s: RunState, p: Pass)
    requires s.end.None?
    ensures var t := Iterate(cfg, streamed, s, p);
            || t.end.Some?
            || (t.steps == s.steps && t.streak == s.streak + 1 <= Retries(cfg, streamed))
            || |s.steps| + 1 == |t.steps| < cfg.maxSteps
    ensures |Iterate(cfg, streamed, s, p).sent| <= |s.sent| + 1
  {
    hide AfterReplied, AddUsage;
    if p.model.Replies? {
      var r := p.model.response;
      forall u: RunState, acts: bool | u.end.None?
        ensures var t := AfterReplied(cfg, streamed, u, p, r, acts);
                t.sent == u.sent && (t.end.Some? || |u.steps| + 1 == |t.steps| < cfg.maxSteps) {
        ReplyEndsOrGoesOn(cfg, streamed, u, p, r, acts);
      }
    }
  }

  lemma ReplyEndsOrGoesOn(cfg: Config, streamed: bool, s: RunState, p: Pass, r: Response, acts: bool)
    requires s.end.None?
    ensures var t := AfterReplied(cfg, streamed, s, p, r, acts);
            t.sent == s.sent && (t.end.Some? || |s.steps| + 1 == |t.steps| < cfg.maxSteps)
  {
    hide SomeEscapes, ToolMessage;
  }

  lemma PassSpendsOne(cfg: Config, streamed: bool, s: RunState, p: Pass)
    requires s.end.None? && UnderWay(cfg, s)
    ensures var t := Iterate(cfg, streamed, s, p);
            UnderWay(cfg, t) && Left(cfg, streamed, t) < Left(cfg, streamed, s) && |t.sent| <= |s.sent| + 1
  {
    var retries, rest := Retries(cfg, streamed), cfg.maxSteps - |s.steps| - 1;
    if rest > 0 { assert Times(rest, retries + 1) == Times(rest - 1, retries + 1) + retries + 1; }
    hide Times, Iterate;
    PassShape(cfg, streamed, s, p);
  }

  /** However the run goes, the model is called at most as often as was left; and once the
      script is that long, the run has ended. */
  lemma {:induction false} RunIsBounded(cfg: Config, streamed: bool, s: RunState, script: seq<Pass>)
    requires UnderWay(cfg, s)
    ensures var t := RunFrom(cfg, streamed, s, script);
            |t.sent| <= |s.sent| + Left(cfg, streamed, s)
            && (|script| >= Left(cfg, streamed, s) ==> t.end.Some?)
    decreases |script|
  {
    hide Left, Iterate;
    if s.end.None? && script != [] {
      PassSpendsOne(cfg, streamed, s, script[0]);
      RunIsBounded(cfg, streamed, Iterate(cfg, streamed, s, script[0]), script[1..]);
    } else if s.end.None? {
      PositiveWhileUnderWay(cfg, streamed, s);
    }
  }

  lemma PositiveWhileUnderWay(cfg: Config, streamed: bool, s: RunState)
    requires UnderWay(cfg, s) && s.end.None?
    ensures Left(cfg, streamed, s) > 0
  {
  }

  /** A buffered run makes at most maxSteps * (maxRetries + 1) model steps, less what earlier
      failures have used up; a run without reflection, or a streamed one, at most maxSteps. A
      step counts once however many backup models are asked for it. */
  lemma ModelStepsBounded(cfg: Config, streamed: bool, h: seq<Message>, streak: nat, script: seq<Pass>)
    requires cfg.maxSteps > 0
    ensures streamed || cfg.reflect.None? ==> |RunFrom(cfg, streamed, Start(h, streak), script).sent| <= cfg.maxSteps
    ensures cfg.reflect.Some? ==>
              var retries := cfg.reflect.value.maxRetries;
              |RunFrom(cfg, false, Start(h, streak), script).sent|
                <= cfg.maxSteps * (retries + 1) - (if streak < retries then streak else retries)
  {
    hide RunFrom;
    StepsWithRetries(cfg, streamed, h, streak, script);
    if cfg.reflect.Some? { StepsWithRetries(cfg, false, h, streak, script); }
  }

  lemma StepsWithRetries(cfg: Config, streamed: bool, h: seq<Message>, streak: nat, script: seq<Pass>)
    requires cfg.maxSteps > 0
    ensures var retries := Retries(cfg, streamed);
            |RunFrom(cfg, streamed, Start(h, streak), script).sent|
              <= cfg.maxSteps * (retries + 1) - (if streak < retries then streak else retries)
  {
    hide RunFrom;
    var retries := Retries(cfg, streamed);
    RunIsBounded(cfg, streamed, Start(h, streak), script);
    TimesIsProduct(cfg.maxSteps - 1, retries + 1);
    assert cfg.maxSteps * (retries + 1) == (cfg.maxSteps - 1) * (retries + 1) + retries + 1;
  }

  function Answering(r: Response): Pass {
    Pass(false, Passes, Replies(r), Passes,
         i => ToolRun(true, Proceeds, true, Passes, true, false, Allowed, Succeeds), Never)
  }

  function Failing(reason: Finish): Pass { Answering(Response([], [], reason, NO_USAGE)) }

  function Calling(): Pass { Answering(Response([H.ToolCall("a")], ["a"], ToolUse, NO_USAGE)) }

  /** And that many can be made: a model that fails until the budget of each step is spent. */
  lemma {:induction false} BoundIsReached(cfg: Config, s: RunState) returns (script: seq<Pass>)
    requires cfg.reflect.Some? && cfg.reflect.value.reasons != {} && ToolUse !in cfg.reflect.value.reasons
    requires s.end.None? && UnderWay(cfg, s)
    ensures |RunFrom(cfg, false, s, script).sent| == |s.sent| + Left(cfg, false, s)
    decreases Left(cfg, false, s)
  {
    var retries := cfg.reflect.value.maxRetries;
    var reason :| reason in cfg.reflect.value.reasons;
    var p := if s.streak < retries then Failing(reason) else Calling();
    var t := Buffered(cfg, s, p);
    PassSpendsOne(cfg, false, s, p);
    OnePassOne(cfg, s, reason);
    if t.end.None? {
      var rest := BoundIsReached(cfg, t);
      script := [p] + rest;
    } else {
      script := [p];
    }
  }

  lemma OnePassOne(cfg: Config, s: RunState, reason: Finish)
    requires cfg.reflect.Some? && reason in cfg.reflect.value.reasons && ToolUse !in cfg.reflect.value.reasons
    requires s.end.None? && UnderWay(cfg, s)
    ensures var p := if s.streak < cfg.reflect.value.maxRetries then Failing(reason) else Calling();
            var t := Buffered(cfg, s, p);
            |t.sent| == |s.sent| + 1 && Left(cfg, false, t) == Left(cfg, false, s) - 1
  {
    var retries, rest := cfg.reflect.value.maxRetries, cfg.maxSteps - |s.steps| - 1;
    if rest > 0 { assert Times(rest, retries + 1) == Times(rest - 1, retries + 1) + retries + 1; }
    else { assert Times(0, retries + 1) == 0; }
    if s.streak >= retries { assert !SomeEscapes(Calling().tool, 1); }
    hide Times, SomeEscapes;
  }

  /** The failures of one run spend the budget of the next: nothing resets the streak between
      runs, so the full number of model calls is open to a run exactly when it starts with no
      failure behind it. */
  lemma FullBudgetOnlyWithoutStreak(cfg: Config, h: seq<Message>, streak: nat)
    requires cfg.maxSteps > 0 && cfg.reflect.Some? && cfg.reflect.value.maxRetries > 0
    requires cfg.reflect.value.reasons != {} && ToolUse !in cfg.reflect.value.reasons
    ensures (exists script :: |RunFrom(cfg, false, Start(h, streak), script).sent|
                              == cfg.maxSteps * (cfg.reflect.value.maxRetries + 1))
            <==> streak == 0
  {
    hide RunFrom;
    var retries := cfg.reflect.value.maxRetries;
    var full := cfg.maxSteps * (retries + 1);
    forall script ensures |RunFrom(cfg, false, Start(h, streak), script).sent|
                          <= full - (if streak < retries then streak else retries) {
      ModelStepsBounded(cfg, false, h, streak, script);
    }
    if streak == 0 {
      var script := BoundIsReached(cfg, Start(h, 0));
      TimesIsProduct(cfg.maxSteps - 1, retries + 1);
      assert full == (cfg.maxSteps - 1) * (retries + 1) + retries + 1;
      assert |RunFrom(cfg, false, Start(h, streak), script).sent| == full;
    }
  }

  // ---------------------------------------------------------------- pairing

  /** The adapter's list of calls holds every call of the content. */
  ghost predicate Lists(p: Pass) {
    p.model.Replies? ==> forall id :: id in PartCalls(p.model.response.parts) ==> id in p.model.response.calls
  }

  lemma RepliedPaired(h: seq<Message>, r: Response)
    requires Paired(h) && forall id :: id in PartCalls(r.parts) ==> id in r.calls
    ensures Paired((h + [Reply(r)]) + [ToolMessage(r.calls)])
  {
    hide CallList, Answered, PartCalls;
    CallsSnoc(h, Reply(r));
    CallsSnoc(h + [Reply(r)], ToolMessage(r.calls));
    forall id | id in r.calls ensures id in ResultIds(Results(r.calls)) { ResultListed(r.calls, id); }
  }

  lemma PassKeepsPaired(cfg: Config, streamed: bool, s: RunState, p: Pass)
    requires Paired(s.history) && Lists(p)
    ensures var t := Iterate(cfg, streamed, s, p); t.end.None? ==> Paired(t.history)
    ensures var t := Iterate(cfg, streamed, s, p); t.sent == s.sent || t.sent == s.sent + [s.history]
  {
    hide CallList, Answered, PartCalls, Paired, SomeEscapes;
    if p.model.Replies? { RepliedPaired(s.history, p.model.response); }
    assert Paired(s.history + [GUIDANCE]) by { GuidancePaired(s.history); }
  }

  lemma GuidancePaired(h: seq<Message>)
    requires Paired(h)
    ensures Paired(h + [GUIDANCE])
  {
    CallsSnoc(h, GUIDANCE);
  }

  ghost predicate AllPaired(sent: seq<seq<Message>>) { forall k :: 0 <= k < |sent| ==> Paired(sent[k]) }

  lemma {:induction false} RunKeepsPaired(cfg: Config, streamed: bool, s: RunState, script: seq<Pass>)
    requires Paired(s.history) && AllPaired(s.sent) && forall k :: 0 <= k < |script| ==> Lists(script[k])
    ensures AllPaired(RunFrom(cfg, streamed, s, script).sent)
    decreases |script|
  {
    hide Iterate, Lists, Paired;
    if s.end.None? && script != [] {
      var t := Iterate(cfg, streamed, s, script[0]);
      PassKeepsPaired(cfg, streamed, s, script[0]);
      if t.end.None? {
        RunKeepsPaired(cfg, streamed, t, script[1..]);
      } else {
        assert RunFrom(cfg, streamed, t, script[1..]) == t;
      }
    }
  }

  lemma {:induction false} SentGrows(cfg: Config, streamed: bool, s: RunState, script: seq<Pass>)
    ensures s.sent <= RunFrom(cfg, streamed, s, script).sent
    ensures s.end.None? && |RunFrom(cfg, streamed, s, script).sent| > |s.sent| ==>
              RunFrom(cfg, streamed, s, script).sent[|s.sent|] == s.history
    decreases |script|
  {
    hide Iterate;
    if s.end.None? && script != [] {
      var t := Iterate(cfg, streamed, s, script[0]);
      PassSent(cfg, streamed, s, script[0]);
      SentGrows(cfg, streamed, t, script[1..]);
    }
  }

  lemma PassSent(cfg: Config, streamed: bool, s: RunState, p: Pass)
    ensures var t := Iterate(cfg, streamed, s, p);
            || t.sent == s.sent + [s.history]
            || (t.sent == s.sent && t.end.Some?)
  {
    hide SomeEscapes;
  }

  /** Whatever the history and however the run goes, the model is only ever called with every
      tool call answered, if and only if the new input leaves none open. */
  lemma PairedAtEveryCall(cfg: Config, streamed: bool, h: seq<Message>, input: seq<Message>,
                          pending: seq<Message>, streak: nat, script: seq<Pass>)
    requires forall k :: 0 <= k < |script| ==> Lists(script[k])
    ensures var b := Begun(h, input, pending);
            var sent := RunFrom(cfg, streamed, Start(b, streak), script).sent;
            AllPaired(sent) <==>
              sent == [] || forall id :: id in CallList(input + pending) ==>
                id in Answered(h) || id in CallList(h) || id in Answered(input + pending)
  {
    hide RunFrom, CallList, Answered, Begun, Paired;
    var b := Begun(h, input, pending);
    var s := Start(b, streak);
    BegunPaired(h, input, pending);
    SentGrows(cfg, streamed, s, script);
    if Paired(b) { RunKeepsPaired(cfg, streamed, s, script); }
  }

  // ------------------------------------------------------- calls, then results

  lemma StepFollowed(h: seq<Message>, r: Response)
    requires Followed(h) && forall id :: id in PartCalls(r.parts) ==> id in r.calls
    ensures Followed((h + [Reply(r)]) + [ToolMessage(r.calls)])
  {
    hide PartCalls, Answered, ResultIds;
    var step := [Reply(r)] + [ToolMessage(r.calls)];
    assert (h + [Reply(r)]) + [ToolMessage(r.calls)] == h + step;
    assert step[0] == Reply(r) && step[1] == ToolMessage(r.calls);
    forall i: nat, id ensures !OpenAt(step, i, id) {
      if i == 0 && id in PartCalls(r.parts) { ResultListed(r.calls, id); }
    }
    OpenInConcat(h, step);
  }

  lemma PassKeepsFollowed(cfg: Config, streamed: bool, s: RunState, p: Pass)
    requires Followed(s.history) && Lists(p)
    ensures var t := Iterate(cfg, streamed, s, p); t.end.None? ==> Followed(t.history)
    ensures var t := Iterate(cfg, streamed, s, p); t.sent == s.sent || t.sent == s.sent + [s.history]
  {
    assert Followed(s.history + [GUIDANCE]) by { hide Answered; OpenInConcat(s.history, [GUIDANCE]); }
    hide CallList, Answered, PartCalls, Followed, SomeEscapes;
    if p.model.Replies? { StepFollowed(s.history, p.model.response); }
  }

  ghost predicate AllFollowed(sent: seq<seq<Message>>) { forall k :: 0 <= k < |sent| ==> Followed(sent[k]) }

  lemma {:induction false} RunKeepsFollowed(cfg: Config, streamed: bool, s: RunState, script: seq<Pass>)
    requires Followed(s.history) && AllFollowed(s.sent) && forall k :: 0 <= k < |script| ==> Lists(script[k])
    ensures AllFollowed(RunFrom(cfg, streamed, s, script).sent)
    decreases |script|
  {
    hide Iterate, Lists, Followed;
    if s.end.None? && script != [] {
      var t := Iterate(cfg, streamed, s, script[0]);
      PassKeepsFollowed(cfg, streamed, s, script[0]);
      if t.end.None? {
        RunKeepsFollowed(cfg, streamed, t, script[1..]);
      } else {
        assert RunFrom(cfg, streamed, t, script[1..]) == t;
      }
    }
  }

  /** Whenever a model is called, every tool call is followed by its result, whatever the history
      and however the run goes, if and only if that holds of what the run starts from. */
  lemma FollowedAtEveryCall(cfg: Config, streamed: bool, h: seq<Message>, input: seq<Message>,
                            pending: seq<Message>, streak: nat, script: seq<Pass>)
    requires forall k :: 0 <= k < |script| ==> Lists(script[k])
    ensures var sent := RunFrom(cfg, streamed, Start(Begun(h, input, pending), streak), script).sent;
            AllFollowed(sent) <==>
              || sent == []
              || (&& Followed(input + pending)
                  && forall i, id :: OpenAt(h, i, id) ==> id !in Answered(h) || id in Answered(input + pending))
  {
    hide RunFrom, Answered, Begun, Followed, OpenAt;
    var b := Begun(h, input, pending);
    var s := Start(b, streak);
    BegunFollowed(h, input, pending);
    SentGrows(cfg, streamed, s, script);
    if Followed(b) { RunKeepsFollowed(cfg, streamed, s, script); }
  }

  // -------------------------------------------------------------- accounts

  function SumUsage(rs: seq<Response>): Usage {
    if rs == [] then NO_USAGE else AddUsage(SumUsage(rs[..|rs| - 1]), rs[|rs| - 1].usage)
  }

  /** One figure of the usage, over all responses. */
  function Total(rs: seq<Response>, figure: Usage -> int): int {
    if rs == [] then 0 else Total(rs[..|rs| - 1], figure) + figure(rs[|rs| - 1].usage)
  }

  const INPUT := (u: Usage) => u.input
  const OUTPUT := (u: Usage) => u.output
  const TOTAL := (u: Usage) => u.total
  const CACHED := (u: Usage) => u.cached
  const CACHE_WRITE := (u: Usage) => u.cacheWrite
  const REASONING := (u: Usage) => u.reasoning

  /** Each figure of a sum of usages is the sum of that figure. */
  lemma {:induction false} SumOfFigures(rs: seq<Response>)
    ensures var u := SumUsage(rs);
            && u.input == Total(rs, INPUT) && u.output == Total(rs, OUTPUT) && u.total == Total(rs, TOTAL)
            && u.cached == Total(rs, CACHED) && u.cacheWrite == Total(rs, CACHE_WRITE)
            && u.reasoning == Total(rs, REASONING)
  {
    if rs != [] { SumOfFigures(rs[..|rs| - 1]); }
  }

  function SumTools(steps: seq<StepReport>): nat {
    if steps == [] then 0 else SumTools(steps[..|steps| - 1]) + |steps[|steps| - 1].tools|
  }

  lemma SumsSnoc(rs: seq<Response>, r: Response, steps: seq<StepReport>, x: StepReport)
    ensures SumUsage(rs + [r]) == AddUsage(SumUsage(rs), r.usage)
    ensures SumTools(steps + [x]) == SumTools(steps) + |x.tools|
  {
    assert (rs + [r])[..|rs|] == rs && (steps + [x])[..|steps|] == steps;
  }

  /** The books balance: usage covers every response received, and the calls counted are those
      reported, except for a consumer who left while the ends of the calls were announced. */
  ghost predicate Balanced(s: RunState) {
    && s.usage == SumUsage(s.replies)
    && (s.end != Some(Aborted(AtToolEnds)) ==> s.toolCalls == SumTools(s.steps))
    && (s.end == Some(Aborted(AtToolEnds)) ==> s.toolCalls > SumTools(s.steps))
    && forall k :: 0 <= k < |s.steps| ==> s.steps[k].index == k
  }

  lemma PassBalances(cfg: Config, streamed: bool, s: RunState, p: Pass)
    requires s.end.None? && Balanced(s)
    ensures Balanced(Iterate(cfg, streamed, s, p))
  {
    hide SumUsage, SumTools, AfterReplied, AddUsage;
    if p.model.Replies? {
      var r := p.model.response;
      SumsSnoc(s.replies, r, s.steps, StepReport(|s.steps|, r.usage, []));
      forall u: RunState, acts: bool | u.end.None? && Balanced(u) && (streamed ==> acts == (r.calls != []))
        ensures Balanced(AfterReplied(cfg, streamed, u, p, r, acts)) {
        AfterRepliedBalances(cfg, streamed, u, p, r, acts);
      }
    }
  }

  lemma AfterRepliedBalances(cfg: Config, streamed: bool, s: RunState, p: Pass, r: Response, acts: bool)
    requires s.end.None? && Balanced(s) && (streamed ==> acts == (r.calls != []))
    ensures Balanced(AfterReplied(cfg, streamed, s, p, r, acts))
  {
    hide SumUsage, SumTools, SomeEscapes, AddUsage, ToolMessage;
    SumsSnoc([], r, s.steps, StepReport(|s.steps|, r.usage, []));
    SumsSnoc([], r, s.steps, StepReport(|s.steps|, r.usage, r.calls));
  }

  lemma {:induction false} RunBalances(cfg: Config, streamed: bool, s: RunState, script: seq<Pass>)
    requires Balanced(s)
    ensures Balanced(RunFrom(cfg, streamed, s, script))
    decreases |script|
  {
    hide Iterate, Balanced;
    if s.end.None? && script != [] {
      PassBalances(cfg, streamed, s, script[0]);
      RunBalances(cfg, streamed, Iterate(cfg, streamed, s, script[0]), script[1..]);
    }
  }

  /** The accounts of a run: each figure of the usage is the sum over every response received,
      discarded turns included, and the tool calls counted equal the calls reported unless, and only
      unless, the consumer left at a tool_call_end. */
  lemma Accounts(cfg: Config, streamed: bool, h: seq<Message>, streak: nat, script: seq<Pass>)
    ensures var t := RunFrom(cfg, streamed, Start(h, streak), script);
            && t.usage.input == Total(t.replies, INPUT) && t.usage.output == Total(t.replies, OUTPUT)
            && t.usage.total == Total(t.replies, TOTAL) && t.usage.cached == Total(t.replies, CACHED)
            && t.usage.cacheWrite == Total(t.replies, CACHE_WRITE) && t.usage.reasoning == Total(t.replies, REASONING)
            && (t.toolCalls == SumTools(t.steps) <==> t.end != Some(Aborted(AtToolEnds)))
  {
    hide RunFrom, SumUsage, Total;
    var t := RunFrom(cfg, streamed, Start(h, streak), script);
    assert Balanced(Start(h, streak)) by { SumOfFigures([]); NoUsage(); }
    RunBalances(cfg, streamed, Start(h, streak), script);
    SumOfFigures(t.replies);
  }

  lemma NoUsage()
    ensures SumUsage([]) == NO_USAGE
  {
  }

  // ----------------------------------------------------------- many runs

  datatype Agent = Agent(history: seq<Message>, pending: seq<Message>, streak: nat, running: bool)

  /** Input staged beforehand, then a run, whose setup may throw. */
  datatype Run = Run(staged: seq<Message>, input: seq<Message>, streamed: bool, setupThrows: bool, script: seq<Pass>)

  function Staged(a: Agent, r: Run): Agent { if a.running then a else a.(pending := a.pending + r.staged) }

  /** The agent after a run, and the histories the model was called with. */
  function RunOnce(cfg: Config, a: Agent, r: Run): (Agent, seq<seq<Message>>) {
    var b := Staged(a, r);
    if b.running then (b, [])
    else if r.setupThrows then (b.(running := true), [])
    else
      var t := RunFrom(cfg, r.streamed, Start(Begun(b.history, r.input, b.pending), b.streak), r.script);
      (Agent(t.history, [], t.streak, t.end.None?), t.sent)
  }

  function Session(cfg: Config, a: Agent, runs: seq<Run>): seq<seq<Message>>
    decreases |runs|
  {
    if runs == [] then [] else RunOnce(cfg, a, runs[0]).1 + Session(cfg, RunOnce(cfg, a, runs[0]).0, runs[1..])
  }

  /** Its messages leave no call open, and its adapters list every call of a reply. */
  ghost predicate Orderly(r: Run) {
    && Paired(r.staged) && Paired(r.input)
    && forall k :: 0 <= k < |r.script| ==> Lists(r.script[k])
  }

  /** Over any sequence of runs, each ended in any way, from any history at all: as long as what
      the caller adds leaves no call of its own open, whenever a model is called, every tool call
      in the history has its result. */
  lemma {:induction false} SessionPaired(cfg: Config, a: Agent, runs: seq<Run>)
    requires Paired(a.pending) && forall k :: 0 <= k < |runs| ==> Orderly(runs[k])
    ensures AllPaired(Session(cfg, a, runs))
    decreases |runs|
  {
    hide CallList, Answered, RunFrom, Begun, Lists;
    if runs != [] {
      var r := runs[0];
      var b := Staged(a, r);
      assert Orderly(r);
      NothingCalled();
      PairedTogether(a.pending, r.staged);
      if !b.running && !r.setupThrows {
        PairedTogether(r.input, b.pending);
        PairedAtEveryCall(cfg, r.streamed, b.history, r.input, b.pending, b.streak, r.script);
      }
      assert AllPaired(RunOnce(cfg, a, r).1);
      SessionPaired(cfg, RunOnce(cfg, a, r).0, runs[1..]);
    }
  }

  /** A script no run of this kind can outlast, whatever streak it starts with. */
  predicate LongEnough(cfg: Config, r: Run) { |r.script| >= Left(cfg, r.streamed, Start([], 0)) }

  lemma StreakLeavesLess(cfg: Config, streamed: bool, h: seq<Message>, streak: nat)
    ensures Left(cfg, streamed, Start(h, streak)) <= Left(cfg, streamed, Start([], 0))
  {
  }

  /** A run leaves the agent marked as running exactly when its setup throws or it was so marked
      before: every other ending of a run frees it. */
  lemma StillRunningIff(cfg: Config, a: Agent, r: Run)
    requires cfg.maxSteps > 0 && LongEnough(cfg, r)
    ensures RunOnce(cfg, a, r).0.running <==> a.running || r.setupThrows
  {
    hide Left, RunFrom, Begun;
    var b := Staged(a, r);
    if !b.running && !r.setupThrows {
      var s := Start(Begun(b.history, r.input, b.pending), b.streak);
      StreakLeavesLess(cfg, r.streamed, s.history, b.streak);
      RunIsBounded(cfg, r.streamed, s, r.script);
    }
  }

  /** The first call of a run sees the history it found, repaired, then the input, then what was
      staged before it, in the order staged; and a run under way or failing to set up calls nobody. */
  lemma FirstCallSees(cfg: Config, a: Agent, r: Run)
    ensures var sent := RunOnce(cfg, a, r).1;
            sent != [] ==>
              && !a.running && !r.setupThrows
              && sent[0] == Repaired(a.history) + r.input + a.pending + r.staged
  {
    hide RunFrom, Repaired;
    if !a.running && !r.setupThrows {
      var b := Staged(a, r);
      SentGrows(cfg, r.streamed, Start(Begun(b.history, r.input, b.pending), b.streak), r.script);
    }
  }

  function AfterSession(cfg: Config, a: Agent, runs: seq<Run>): Agent
    decreases |runs|
  {
    if runs == [] then a else AfterSession(cfg, RunOnce(cfg, a, runs[0]).0, runs[1..])
  }

  /** A session is its runs, one after the other, each from the agent the runs before it left. */
  lemma {:induction false} SessionGrows(cfg: Config, a: Agent, runs: seq<Run>, r: Run)
    ensures var b := AfterSession(cfg, a, runs);
            && Session(cfg, a, runs + [r]) == Session(cfg, a, runs) + RunOnce(cfg, b, r).1
            && AfterSession(cfg, a, runs + [r]) == RunOnce(cfg, b, r).0
    decreases |runs|
  {
    hide RunOnce;
    if runs == [] {
      assert [] + [r] == [r] && [r][1..] == [];
      assert Session(cfg, RunOnce(cfg, a, r).0, []) == [];
    } else {
      assert (runs + [r])[1..] == runs[1..] + [r];
      SessionGrows(cfg, RunOnce(cfg, a, runs[0]).0, runs[1..], r);
    }
  }

  /** Over any sequence of runs: the agent ends up stuck exactly when one of the setups threw. */
  lemma {:induction false} StuckAfterSessionIff(cfg: Config, a: Agent, runs: seq<Run>)
    requires cfg.maxSteps > 0 && forall k :: 0 <= k < |runs| ==> LongEnough(cfg, runs[k])
    ensures AfterSession(cfg, a, runs).running <==> a.running || exists k :: 0 <= k < |runs| && runs[k].setupThrows
    decreases |runs|
  {
    hide LongEnough, RunOnce;
    if runs != [] {
      StillRunningIff(cfg, a, runs[0]);
      StuckAfterSessionIff(cfg, RunOnce(cfg, a, runs[0]).0, runs[1..]);
      assert forall k :: 0 < k < |runs| ==> runs[k] == runs[1..][k - 1];
    }
  }

  /** An agent whose setup once threw stays marked as running: no later run reaches a model. */
  lemma {:induction false} SetupThrowIsForever(cfg: Config, a: Agent, runs: seq<Run>)
    requires a.running || (runs != [] && runs[0].setupThrows)
    ensures Session(cfg, a, runs) == []
    decreases |runs|
  {
    if runs != [] {
      SetupThrowIsForever(cfg, RunOnce(cfg, a, runs[0]).0, runs[1..]);
    }
  }

  // --------------------------------------------------------------- classes

  class ReflectAndRetryPolicy {
    const maxRetries: nat
    const throwIfExceeded: bool
    const reasons: set<Finish>
    var consecutive: nat

    constructor (maxRetries: nat, throwIfExceeded: bool, reasons: set<Finish>)
      ensures consecutive == 0 && Rules() == Reflect(maxRetries, reasons, throwIfExceeded)
    {
      this.maxRetries, this.throwIfExceeded, this.reasons, consecutive := maxRetries, throwIfExceeded, reasons, 0;
    }

    function Rules(): Reflect { Reflect(maxRetries, reasons, throwIfExceeded) }

    method RecordSuccess()
      modifies this
      ensures consecutive == 0
    {
      consecutive := 0;
    }

    method RecordFailure() returns (retry: bool, attempt: nat)
      modifies this
      ensures consecutive == attempt == old(consecutive) + 1 && retry == (attempt <= maxRetries)
    {
      consecutive := consecutive + 1;
      return consecutive <= maxRetries, consecutive;
    }
  }

  const DEFAULT_MAX_STEPS: nat := 16

  /** What a run reports. */
  datatype Report = Report(usage: Usage, toolCalls: nat, steps: seq<StepReport>, end: Option<Ending>)

  function ReportOf(s: RunState): Report { Report(s.usage, s.toolCalls, s.steps, s.end) }

  lemma UnfoldRun(cfg: Config, streamed: bool, s: RunState, script: seq<Pass>, k: nat)
    requires k < |script| && s.end.None?
    ensures RunFrom(cfg, streamed, s, script[k..]) ==
            RunFrom(cfg, streamed, Iterate(cfg, streamed, s, script[k]), script[k + 1..])
  {
    assert script[k..][1..] == script[k + 1..];
  }

  class Loop {
    const maxSteps: nat
    const reflect: ReflectAndRetryPolicy?
    var history: seq<Message>
    var pendingInput: seq<Message>
    var running: bool

    ghost function Cfg(): Config { Config(maxSteps, if reflect == null then None else Some(reflect.Rules())) }

    ghost function Streak(): nat
      reads reflect
    {
      if reflect == null then 0 else reflect.consecutive
    }

    ghost function Value(): Agent
      reads this, reflect
    {
      Agent(history, pendingInput, Streak(), running)
    }

    constructor (maxSteps: Option<int>, reflect: ReflectAndRetryPolicy?, history: seq<Message>)
      ensures this.maxSteps == if maxSteps.Some? && maxSteps.value > 0 then maxSteps.value else DEFAULT_MAX_STEPS
      ensures this.maxSteps > 0 && this.reflect == reflect
      ensures this.history == history && pendingInput == [] && !running
    {
      this.maxSteps := if maxSteps.Some? && maxSteps.value > 0 then maxSteps.value else DEFAULT_MAX_STEPS;
      this.reflect, this.history, pendingInput, running := reflect, history, [], false;
    }

    method AddInput(staged: seq<Message>) returns (taken: bool)
      modifies this`pendingInput
      ensures taken == !running
      ensures Value() == Staged(old(Value()), Run(staged, [], false, false, []))
    {
      if running { return false; }
      pendingInput := pendingInput + staged;
      return true;
    }

    method RepairUnansweredToolCalls()
      modifies this`history
      ensures history == Repaired(old(history))
    {
      hide Answered, CallList, FirstNew;
      var answered := CollectAnswered(history);
      var orphans := CollectOpen(history, answered);
      if orphans == [] { return; }
      history := history + [ToolMessage(orphans)];
    }

    method BeginRun(input: seq<Message>, setupThrows: bool) returns (begun: bool)
      modifies this
      ensures begun == (!old(running) && !setupThrows) && running
      ensures history == if begun then Begun(old(history), input, old(pendingInput)) else old(history)
      ensures pendingInput == if begun then [] else old(pendingInput)
    {
      hide Repaired;
      if running { return false; }
      running := true;
      if setupThrows { return false; }
      RepairUnansweredToolCalls();
      history := history + input;
      if |pendingInput| > 0 {
        history := history + pendingInput;
        pendingInput := [];
      }
      return true;
    }

    /** The script is long enough when it covers every pass the run can make. */
    method Complete(input: seq<Message>, setupThrows: bool, script: seq<Pass>)
      returns (report: Option<Report>, sent: seq<seq<Message>>)
      requires maxSteps > 0
      requires |script| >= Left(Cfg(), false, Start([], Streak()))
      modifies this, reflect
      ensures (Value(), sent) == RunOnce(Cfg(), old(Value()), Run([], input, false, setupThrows, script))
      ensures report.Some? <==> !old(running) && !setupThrows
      ensures report.Some? ==>
                report == Some(ReportOf(RunFrom(Cfg(), false, Start(Begun(old(history), input, old(pendingInput)), old(Streak())), script)))
    {
      hide RunFrom, Left, Begun, SomeEscapes;
      sent := [];
      var begun := BeginRun(input, setupThrows);
      assert old(pendingInput) + [] == old(pendingInput);
      if !begun { return None, sent; }
      ghost var start := Start(history, Streak());
      LeftIgnoresHistory(Cfg(), false, history, Streak());
      var usage, steps, end, toolCalls: nat, k: nat := NO_USAGE, [], None, 0, 0;
      ghost var replies := [];
      while end.None?
        invariant running && pendingInput == [] && k <= |script|
        invariant UnderWay(Cfg(), RunState(history, Streak(), toolCalls, usage, steps, replies, sent, end))
        invariant Left(Cfg(), false, RunState(history, Streak(), toolCalls, usage, steps, replies, sent, end)) <= |script| - k
        invariant RunFrom(Cfg(), false, RunState(history, Streak(), toolCalls, usage, steps, replies, sent, end), script[k..])
                  == RunFrom(Cfg(), false, start, script)
        decreases |script| - k
      {
        ghost var before := RunState(history, Streak(), toolCalls, usage, steps, replies, sent, end);
        PositiveWhileUnderWay(Cfg(), false, before);
        var p := script[k];
        UnfoldRun(Cfg(), false, before, script, k);
        PassSpendsOne(Cfg(), false, before, p);
        k := k + 1;
        if p.stop { end := Some(Stopped); }
        else if p.before.Trips? { end := Some(Guardrail); }
        else if p.before.Throws? { end := Some(Errored); }
        else {
          sent := sent + [history];
          if p.model.Fails? { end := Some(Errored); }
          else {
            var response := p.model.response;
            usage := AddUsage(usage, response.usage);
            replies := replies + [response];
            var retry := false;
            if reflect != null {
              if response.finish in reflect.reasons {
                var attempt;
                retry, attempt := reflect.RecordFailure();
                if retry { history := history + [GUIDANCE]; }
                else if reflect.throwIfExceeded { end := Some(Errored); }
              } else {
                reflect.RecordSuccess();
              }
            }
            if !retry && end.None? {
              history := history + [Reply(response)];
              var hasToolCalls := response.finish.ToolUse? && response.calls != [];
              if p.after.Trips? { end := Some(Guardrail); }
              else if p.after.Throws? { end := Some(Errored); }
              else {
                var reports: seq<string> := [];
                if hasToolCalls {
                  var results;
                  results, reports := ExecuteToolCalls(response.calls, p.tool);
                  if results.None? { end := Some(Errored); }
                  else {
                    toolCalls := toolCalls + |response.calls|;
                    history := history + [Message(H.Tool, results.value)];
                  }
                }
                if end.None? {
                  steps := steps + [StepReport(|steps|, response.usage, reports)];
                  if !hasToolCalls { end := Some(Done); }
                  else if |steps| >= maxSteps { end := Some(OutOfSteps); }
                }
              }
            }
          }
        }
        assert RunState(history, Streak(), toolCalls, usage, steps, replies, sent, end) == Buffered(Cfg(), before, p);
      }
      EndedStays(Cfg(), false, RunState(history, Streak(), toolCalls, usage, steps, replies, sent, end), script[k..]);
      running := false;
      return Some(Report(usage, toolCalls, steps, end)), sent;
    }

    method Stream(input: seq<Message>, setupThrows: bool, script: seq<Pass>)
      returns (report: Option<Report>, sent: seq<seq<Message>>)
      requires maxSteps > 0
      requires |script| >= Left(Cfg(), true, Start([], Streak()))
      modifies this
      ensures (Value(), sent) == RunOnce(Cfg(), old(Value()), Run([], input, true, setupThrows, script))
      ensures report.Some? <==> !old(running) && !setupThrows
      ensures report.Some? ==>
                report == Some(ReportOf(RunFrom(Cfg(), true, Start(Begun(old(history), input, old(pendingInput)), old(Streak())), script)))
    {
      hide RunFrom, Left, Begun, SomeEscapes;
      sent := [];
      var begun := BeginRun(input, setupThrows);
      assert old(pendingInput) + [] == old(pendingInput);
      if !begun { return None, sent; }
      ghost var start := Start(history, Streak());
      LeftIgnoresHistory(Cfg(), true, history, Streak());
      var usage, steps, end, toolCalls: nat, k: nat := NO_USAGE, [], None, 0, 0;
      ghost var replies := [];
      while end.None?
        invariant running && pendingInput == [] && k <= |script|
        invariant UnderWay(Cfg(), RunState(history, Streak(), toolCalls, usage, steps, replies, sent, end))
        invariant Left(Cfg(), true, RunState(history, Streak(), toolCalls, usage, steps, replies, sent, end)) <= |script| - k
        invariant RunFrom(Cfg(), true, RunState(history, Streak(), toolCalls, usage, steps, replies, sent, end), script[k..])
                  == RunFrom(Cfg(), true, start, script)
        decreases |script| - k
      {
        ghost var before := RunState(history, Streak(), toolCalls, usage, steps, replies, sent, end);
        PositiveWhileUnderWay(Cfg(), true, before);
        var p := script[k];
        UnfoldRun(Cfg(), true, before, script, k);
        PassSpendsOne(Cfg(), true, before, p);
        k := k + 1;
        if p.stop { end := Some(Stopped); }
        else if p.leave.AtStart? { end := Some(Aborted(AtStart)); }
        else if p.before.Trips? { end := Some(Guardrail); }
        else if p.before.Throws? { end := Some(Errored); }
        else {
          sent := sent + [history];
          if p.leave.DuringStream? { end := Some(Aborted(DuringStream)); }
          else if p.model.Fails? { end := Some(Errored); }
          else {
            var response := p.model.response;
            usage := AddUsage(usage, response.usage);
            replies := replies + [response];
            history := history + [Reply(response)];
            var hasToolCalls := |response.calls| > 0;
            if p.after.Trips? { end := Some(Guardrail); }
            else if p.after.Throws? { end := Some(Errored); }
            else if p.leave.AfterReply? { end := Some(Aborted(AfterReply)); }
            else {
              var reports: seq<string> := [];
              if hasToolCalls {
                var results;
                results, reports := ExecuteToolCalls(response.calls, p.tool);
                if results.None? { end := Some(Errored); }
                else {
                  toolCalls := toolCalls + |response.calls|;
                  if p.leave.AtToolEnds? { end := Some(Aborted(AtToolEnds)); }
                  else { history := history + [Message(H.Tool, results.value)]; }
                }
              }
              if end.None? {
                steps := steps + [StepReport(|steps|, response.usage, reports)];
                if !hasToolCalls { end := Some(Done); }
                else if |steps| >= maxSteps { end := Some(OutOfSteps); }
              }
            }
          }
        }
        assert RunState(history, Streak(), toolCalls, usage, steps, replies, sent, end) == Streamed(Cfg(), before, p);
      }
      EndedStays(Cfg(), true, RunState(history, Streak(), toolCalls, usage, steps, replies, sent, end), script[k..]);
      running := false;
      return Some(Report(usage, toolCalls, steps, end)), sent;
    }
  }

  lemma EndedStays(cfg: Config, streamed: bool, s: RunState, script: seq<Pass>)
    requires s.end.Some?
    ensures RunFrom(cfg, streamed, s, script) == s
  {
  }

  lemma LeftIgnoresHistory(cfg: Config, streamed: bool, h: seq<Message>, streak: nat)
    ensures Left(cfg, streamed, Start(h, streak)) == Left(cfg, streamed, Start([], streak))
  {
  }
}
