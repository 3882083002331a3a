/**
 core/mcp/agent.go, executeAgent with the chat adapter: a depth-bounded loop that executes the tool
 calls it may, in parallel, and asks the model again. The model, the tools, the client lookup, the
 validation of code and the order in which parallel calls complete are foreign; all but the lookup are
 asked with the number of the turn.
 */
module AgentLoop {
  import opened Options
  import opened Sequences
  import opened Usage

  datatype ToolCall = ToolCall(id: Option<string>, name: Option<string>, arguments: string)

  /** A chat message; `calls` is present on assistant messages. */
  datatype Message = Message(role: string, text: string, callId: Option<string>, isError: bool, calls: Option<seq<ToolCall>>)

  datatype Choice = Choice(finish: Option<string>, message: Option<Message>)

  datatype Response = Response(choices: seq<Choice>, usage: Option<Usage>)

  /** How one tool call ended; `Silent` is a reply without a chat message. */
  datatype Executed = Answered(message: Message) | Silent | Broke(error: string) | NeedsAuth(error: string)

  datatype Completion = Completed(response: Response) | Refused(error: string)

  /** What GetClientForTool finds for a tool, and whether that client's config auto-executes it. */
  datatype Lookup = NoClient | Client(autoExecutes: bool)

  datatype Env = Env(
    lookup: (nat, string) -> Lookup,
    codeIsAllowed: (nat, string) -> bool,
    execute: (nat, nat, ToolCall) -> Executed,
    order: (nat, nat) -> seq<nat>,
    model: (nat, seq<Message>) -> Completion,
    summary: (seq<Message>, seq<ToolCall>) -> string)

  datatype Outcome = Final(response: Response) | AuthRequired(error: string) | ModelFailed(error: string)

  ghost predicate EnvOk(env: Env) { forall turn, n :: IsOrder(env.order(turn, n), n) }

  // ----- responses -----

  function CallsOf(c: Choice): seq<ToolCall> {
    if c.message.Some? && c.message.value.calls.Some? then c.message.value.calls.value else []
  }

  /** hasToolCallsForChatResponse */
  predicate HasToolCalls(r: Response) {
    exists i :: 0 <= i < |r.choices| && (r.choices[i].finish == Some("tool_calls") || CallsOf(r.choices[i]) != [])
  }

  function AllCalls(choices: seq<Choice>): seq<ToolCall> {
    if choices == [] then [] else AllCalls(choices[..|choices| - 1]) + CallsOf(choices[|choices| - 1])
  }

  method ExtractToolCalls(r: Response) returns (calls: seq<ToolCall>)
    ensures calls == AllCalls(r.choices)
    ensures calls != [] ==> HasToolCalls(r)
  {
    if !HasToolCalls(r) {
      NoCalls(r.choices);
      return [];
    }
    calls := [];
    for i := 0 to |r.choices|
      invariant calls == AllCalls(r.choices[..i])
    {
      assert r.choices[..i + 1][..i] == r.choices[..i];
      calls := calls + CallsOf(r.choices[i]);
    }
    assert r.choices[..|r.choices|] == r.choices;
  }

  lemma {:induction false} NoCalls(choices: seq<Choice>)
    requires forall i :: 0 <= i < |choices| ==> CallsOf(choices[i]) == []
    ensures AllCalls(choices) == []
  {
    if choices != [] { NoCalls(choices[..|choices| - 1]); }
  }

  function AssistantMessages(choices: seq<Choice>): seq<Message> {
    if choices == [] then []
    else
      var c := choices[|choices| - 1];
      AssistantMessages(choices[..|choices| - 1]) + if c.message.Some? then [c.message.value] else []
  }

  /** addAssistantMessage */
  method AddAssistantMessage(history: seq<Message>, r: Response) returns (extended: seq<Message>)
    ensures extended == history + AssistantMessages(r.choices)
  {
    extended := history;
    for i := 0 to |r.choices|
      invariant extended == history + AssistantMessages(r.choices[..i])
    {
      assert r.choices[..i + 1][..i] == r.choices[..i];
      if r.choices[i].message.Some? {
        extended := extended + [r.choices[i].message.value];
      }
    }
    assert r.choices[..|r.choices|] == r.choices;
  }

  // ----- which calls are executed -----

  const READ_ONLY := {"listToolFiles", "readToolFile", "getToolDocs"}
  const EXECUTE_CODE := "executeToolCode"

  predicate IsAuto(env: Env, turn: nat, call: ToolCall) {
    call.name.Some? &&
    match env.lookup(turn, call.name.value)
    case Client(autoExecutes) => autoExecutes
    case NoClient =>
      call.name.value in READ_ONLY || (call.name.value == EXECUTE_CODE && env.codeIsAllowed(turn, call.arguments))
  }

  function Chosen(env: Env, turn: nat, calls: seq<ToolCall>, auto: bool): seq<ToolCall> {
    if calls == [] then []
    else
      var c := calls[|calls| - 1];
      Chosen(env, turn, calls[..|calls| - 1], auto) + if IsAuto(env, turn, c) == auto then [c] else []
  }

  method Classify(env: Env, turn: nat, calls: seq<ToolCall>) returns (autos: seq<ToolCall>, others: seq<ToolCall>)
    ensures autos == Chosen(env, turn, calls, true) && others == Chosen(env, turn, calls, false)
  {
    autos, others := [], [];
    for i := 0 to |calls|
      invariant autos == Chosen(env, turn, calls[..i], true) && others == Chosen(env, turn, calls[..i], false)
    {
      assert calls[..i + 1][..i] == calls[..i];
      var call := calls[i];
      if call.name.None? {
        others := others + [call];
        continue;
      }
      match env.lookup(turn, call.name.value) {
        case Client(autoExecutes) =>
          if autoExecutes { autos := autos + [call]; } else { others := others + [call]; }
        case NoClient =>
          if call.name.value in READ_ONLY {
            autos := autos + [call];
          } else if call.name.value == EXECUTE_CODE && env.codeIsAllowed(turn, call.arguments) {
            autos := autos + [call];
          } else {
            others := others + [call];
          }
      }
    }
    assert calls[..|calls|] == calls;
  }

  /** The two groups are complementary subsequences: order is kept, nothing is lost, and no executed call lacks permission. */
  lemma {:induction false} SplitIsComplementary(env: Env, turn: nat, calls: seq<ToolCall>)
    ensures IsSubsequence(Chosen(env, turn, calls, true), calls) && IsSubsequence(Chosen(env, turn, calls, false), calls)
    ensures multiset(Chosen(env, turn, calls, true)) + multiset(Chosen(env, turn, calls, false)) == multiset(calls)
    ensures forall c :: c in Chosen(env, turn, calls, true) ==> IsAuto(env, turn, c)
    ensures forall c :: c in Chosen(env, turn, calls, false) ==> !IsAuto(env, turn, c)
  {
    hide IsAuto, IsSubsequence;
    if calls == [] {
      EmptySubsequence(calls);
    } else {
      var n := |calls| - 1;
      var c := calls[n];
      SplitIsComplementary(env, turn, calls[..n]);
      SubsequenceGrows(Chosen(env, turn, calls[..n], true), calls[..n], c);
      SubsequenceGrows(Chosen(env, turn, calls[..n], false), calls[..n], c);
      assert calls == calls[..n] + [c];
      assert Chosen(env, turn, calls[..n], true) + [] == Chosen(env, turn, calls[..n], true);
      assert Chosen(env, turn, calls[..n], false) + [] == Chosen(env, turn, calls[..n], false);
    }
  }

  // ----- executing tools -----

  /** createToolResultMessage */
  function ResultMessage(call: ToolCall, result: string, error: Option<string>): Message {
    var name := if call.name.Some? then call.name.value else "unknown";
    Message("tool", if error.Some? then "Error executing tool " + name + ": " + error.value else result, call.id, error.Some?, None)
  }

  function ResultOf(call: ToolCall, e: Executed): Message {
    match e
    case Answered(message) => message
    case Silent => ResultMessage(call, "", None)
    case Broke(error) => ResultMessage(call, "", Some(error))
    case NeedsAuth(error) => ResultMessage(call, "", Some(error))
  }

  /** The result of each call, in the order of the calls. */
  function EachResult(env: Env, turn: nat, calls: seq<ToolCall>): seq<Message> {
    seq(|calls|, i requires 0 <= i < |calls| => ResultOf(calls[i], env.execute(turn, i, calls[i])))
  }

  /** The same results in the order the parallel calls completed. */
  ghost function Results(env: Env, turn: nat, calls: seq<ToolCall>): seq<Message>
    requires EnvOk(env)
  {
    Arranged(env.order(turn, |calls|), EachResult(env, turn, calls))
  }

  predicate AsksAuth(env: Env, turn: nat, calls: seq<ToolCall>, i: nat) { i < |calls| && env.execute(turn, i, calls[i]).NeedsAuth? }

  /** The first completed call that requires authorization. */
  function FirstAuth(env: Env, turn: nat, calls: seq<ToolCall>, order: seq<nat>): Option<string> {
    if order == [] then None
    else
      var n := |order| - 1;
      var before := FirstAuth(env, turn, calls, order[..n]);
      if before.Some? then before
      else if AsksAuth(env, turn, calls, order[n]) then Some(env.execute(turn, order[n], calls[order[n]]).error)
      else None
  }

  method RunTools(env: Env, turn: nat, calls: seq<ToolCall>) returns (results: seq<Message>, auth: Option<string>)
    requires EnvOk(env)
    ensures results == Results(env, turn, calls)
    ensures auth == FirstAuth(env, turn, calls, env.order(turn, |calls|))
  {
    var order := env.order(turn, |calls|);
    assert IsOrder(order, |calls|);
    results, auth := [], None;
    for j := 0 to |order|
      invariant results == Arranged(order[..j], EachResult(env, turn, calls))
      invariant auth == FirstAuth(env, turn, calls, order[..j])
    {
      assert order[..j + 1][..j] == order[..j];
      var e := env.execute(turn, order[j], calls[order[j]]);
      if e.NeedsAuth? && auth == None {
        auth := Some(e.error);
      }
      results := results + [ResultOf(calls[order[j]], e)];
    }
    assert order[..|order|] == order;
  }

  /** Exactly one result per executed call, whatever the order of completion. */
  lemma OneResultPerCall(env: Env, turn: nat, calls: seq<ToolCall>)
    requires EnvOk(env)
    ensures |Results(env, turn, calls)| == |calls|
    ensures multiset(Results(env, turn, calls)) == multiset(EachResult(env, turn, calls))
  {
    ArrangedIsPermutation(env.order(turn, |calls|), EachResult(env, turn, calls));
  }

  /** A result the loop writes itself names its call and is marked as an error exactly when the call failed. */
  lemma ResultsNameTheirCalls(env: Env, turn: nat, calls: seq<ToolCall>, i: nat)
    requires i < |calls| && !env.execute(turn, i, calls[i]).Answered?
    ensures EachResult(env, turn, calls)[i].callId == calls[i].id && EachResult(env, turn, calls)[i].role == "tool"
    ensures EachResult(env, turn, calls)[i].isError <==> !env.execute(turn, i, calls[i]).Silent?
  {
  }

  lemma {:induction false} AuthAmong(env: Env, turn: nat, calls: seq<ToolCall>, order: seq<nat>)
    ensures FirstAuth(env, turn, calls, order).Some? <==> exists j :: 0 <= j < |order| && AsksAuth(env, turn, calls, order[j])
  {
    if order != [] {
      var n := |order| - 1;
      AuthAmong(env, turn, calls, order[..n]);
      assert forall j :: 0 <= j < n ==> order[..n][j] == order[j];
    }
  }

  /** Authorization is reported exactly when some executed call requires it. */
  lemma AuthIff(env: Env, turn: nat, calls: seq<ToolCall>)
    requires EnvOk(env)
    ensures FirstAuth(env, turn, calls, env.order(turn, |calls|)).Some? <==> exists i :: AsksAuth(env, turn, calls, i)
  {
    var order := env.order(turn, |calls|);
    AuthAmong(env, turn, calls, order);
    forall i | AsksAuth(env, turn, calls, i) ensures exists j :: 0 <= j < |order| && AsksAuth(env, turn, calls, order[j]) {
      OrderIsOnto(order, |calls|, i);
    }
  }

  // ----- the specification of the loop -----

  /** One conversation with an agent: its depth limit, the original messages and the first response. */
  datatype Job = Job(env: Env, maxDepth: nat, input: seq<Message>, initial: Response)

  /** The calls of the response of a turn, and which of them are executed and which are handed back. */
  function Calls(r: Response): seq<ToolCall> { AllCalls(r.choices) }

  function Autos(job: Job, turn: nat, r: Response): seq<ToolCall> { Chosen(job.env, turn, Calls(r), true) }

  function Others(job: Job, turn: nat, r: Response): seq<ToolCall> { Chosen(job.env, turn, Calls(r), false) }

  function Auth(job: Job, turn: nat, r: Response): Option<string> {
    FirstAuth(job.env, turn, Autos(job, turn, r), job.env.order(turn, |Autos(job, turn, r)|))
  }

  /** The conversation once the calls of all `responses` were executed. */
  ghost function History(job: Job, responses: seq<Response>): seq<Message>
    requires EnvOk(job.env)
  {
    if responses == [] then job.input
    else
      var n := |responses| - 1;
      var autos := Autos(job, n, responses[n]);
      History(job, responses[..n])
      + if autos == [] then [] else AssistantMessages(responses[n].choices) + Results(job.env, n, autos)
  }

  function ExecutedCalls(job: Job, responses: seq<Response>): seq<ToolCall> {
    if responses == [] then []
    else
      var n := |responses| - 1;
      ExecutedCalls(job, responses[..n]) + Autos(job, n, responses[n])
  }

  ghost function ExecutedResults(job: Job, responses: seq<Response>): seq<Message>
    requires EnvOk(job.env)
  {
    if responses == [] then []
    else
      var n := |responses| - 1;
      ExecutedResults(job, responses[..n]) + Results(job.env, n, Autos(job, n, responses[n]))
  }

  function TotalUsage(responses: seq<Response>): Option<Usage> {
    if responses == [] then None else Merge(TotalUsage(responses[..|responses| - 1]), responses[|responses| - 1].usage)
  }

  /** After this response the model is asked again. */
  predicate AsksAgain(job: Job, turn: nat, r: Response) {
    turn < job.maxDepth && Calls(r) != [] && Others(job, turn, r) == [] && Auth(job, turn, r) == None
  }

  /** `responses` are the responses so far, each but the first the model's answer to the conversation before it. */
  ghost predicate IsRun(job: Job, responses: seq<Response>)
    requires EnvOk(job.env)
  {
    if |responses| <= 1 then responses == [job.initial]
    else
      var n := |responses| - 1;
      && IsRun(job, responses[..n]) && AsksAgain(job, n - 1, responses[n - 1])
      && job.env.model(n, History(job, responses[..n])) == Completed(responses[n])
  }

  /** createResponseWithExecutedTools */
  function Combined(env: Env, r: Response, results: seq<Message>, calls: seq<ToolCall>, pending: seq<ToolCall>): Response {
    Response([Choice(Some("stop"), Some(Message("assistant", env.summary(results, calls), None, false, Some(pending))))], r.usage)
  }

  ghost predicate EndsWith(job: Job, responses: seq<Response>, outcome: Outcome)
    requires EnvOk(job.env) && responses != []
  {
    var n := |responses| - 1;
    var last := responses[n];
    var autos, others := Autos(job, n, last), Others(job, n, last);
    if n >= job.maxDepth || Calls(last) == [] then outcome == Final(last.(usage := TotalUsage(responses)))
    else if Auth(job, n, last).Some? then outcome == AuthRequired(Auth(job, n, last).value)
    else if others != [] then
      outcome == Final(if n == 0 && autos == [] then last
                       else Combined(job.env, last.(usage := TotalUsage(responses)), ExecutedResults(job, responses),
                                     ExecutedCalls(job, responses), others))
    else
      && job.env.model(n + 1, History(job, responses)).Refused?
      && outcome == ModelFailed(job.env.model(n + 1, History(job, responses)).error)
  }

  lemma RunGrows(job: Job, responses: seq<Response>, r: Response)
    requires EnvOk(job.env) && responses != [] && IsRun(job, responses) && AsksAgain(job, |responses| - 1, responses[|responses| - 1])
    requires job.env.model(|responses|, History(job, responses)) == Completed(r)
    ensures IsRun(job, responses + [r])
  {
    hide AsksAgain, History;
    assert (responses + [r])[..|responses|] == responses;
  }

  /** What one turn adds to the running totals. */
  lemma TurnAdds(job: Job, responses: seq<Response>)
    requires EnvOk(job.env) && responses != []
    ensures var n := |responses| - 1;
            var autos := Autos(job, n, responses[n]);
            && History(job, responses) == History(job, responses[..n])
                 + (if autos == [] then [] else AssistantMessages(responses[n].choices) + Results(job.env, n, autos))
            && ExecutedCalls(job, responses) == ExecutedCalls(job, responses[..n]) + autos
            && ExecutedResults(job, responses) == ExecutedResults(job, responses[..n]) + Results(job.env, n, autos)
            && (autos == [] ==> Results(job.env, n, autos) == [])
  {
    hide Autos;
    OneResultPerCall(job.env, |responses| - 1, Autos(job, |responses| - 1, responses[|responses| - 1]));
  }

  // ----- the loop -----

  method ExecuteAgent(job: Job) returns (outcome: Outcome, responses: seq<Response>)
    requires EnvOk(job.env)
    ensures responses != [] && IsRun(job, responses) && EndsWith(job, responses, outcome)
  {
    hide History, ExecutedCalls, ExecutedResults, Results, FirstAuth, Chosen, AllCalls, AssistantMessages, Merge, EnvOk;
    responses := [job.initial];
    var current := job.initial;
    var history := job.input;
    var allResults: seq<Message>, allCalls: seq<ToolCall> := [], [];
    var usage := job.initial.usage;
    var depth := 0;
    Begins(job);
    while depth < job.maxDepth
      invariant depth <= job.maxDepth && |responses| == depth + 1 && responses[depth] == current && IsRun(job, responses)
      invariant history == History(job, responses[..depth])
      invariant allResults == ExecutedResults(job, responses[..depth]) && allCalls == ExecutedCalls(job, responses[..depth])
      invariant usage == TotalUsage(responses)
    {
      var turn := depth;
      depth := depth + 1;
      var calls := ExtractToolCalls(current);
      if calls == [] {
        break;
      }
      TurnAdds(job, responses);
      var autos, others := Classify(job.env, turn, calls);
      var auth: Option<string> := None;
      var results: seq<Message> := [];
      if autos != [] {
        history := AddAssistantMessage(history, current);
        results, auth := RunTools(job.env, turn, autos);
        OneResultPerCall(job.env, turn, autos);
        if auth.Some? {
          return AuthRequired(auth.value), responses;
        }
        allResults, allCalls := allResults + results, allCalls + autos;
        history := history + results;
      } else {
        NoAuth(job.env, turn);
      }
      assert turn == 0 ==> responses[..turn] == [];
      assert history == History(job, responses) && allResults == ExecutedResults(job, responses);
      assert allCalls == ExecutedCalls(job, responses);
      assert turn == 0 && autos == [] ==> allResults == [];
      if others != [] {
        if depth == 1 && allResults == [] {
          return Final(current), responses;
        }
        return Final(Combined(job.env, current.(usage := usage), allResults, allCalls, others)), responses;
      }
      match job.env.model(depth, history) {
        case Refused(error) => return ModelFailed(error), responses;
        case Completed(r) =>
          RunGrows(job, responses, r);
          UsageGrows(responses, r);
          assert (responses + [r])[..depth] == responses;
          usage := Merge(usage, r.usage);
          responses := responses + [r];
          current := r;
      }
    }
    outcome := Final(current.(usage := usage));
  }

  lemma Begins(job: Job)
    requires EnvOk(job.env)
    ensures IsRun(job, [job.initial]) && TotalUsage([job.initial]) == job.initial.usage
    ensures History(job, []) == job.input && ExecutedResults(job, []) == [] && ExecutedCalls(job, []) == []
  {
    MergeIdentity(job.initial.usage);
  }

  lemma UsageGrows(responses: seq<Response>, r: Response)
    ensures TotalUsage(responses + [r]) == Merge(TotalUsage(responses), r.usage)
  {
    assert (responses + [r])[..|responses|] == responses;
  }

  lemma NoAuth(env: Env, turn: nat)
    requires EnvOk(env)
    ensures FirstAuth(env, turn, [], env.order(turn, 0)) == None
  {
    AuthIff(env, turn, []);
  }

  // ----- what every run satisfies -----

  /** Calls of the model beyond the first response, the last of which may have failed. */
  function ModelCalls(responses: seq<Response>, outcome: Outcome): int {
    |responses| - 1 + if outcome.ModelFailed? then 1 else 0
  }

  lemma {:induction false} RunIsShort(job: Job, responses: seq<Response>)
    requires EnvOk(job.env) && responses != [] && IsRun(job, responses)
    ensures |responses| - 1 <= job.maxDepth
  {
    hide Calls, Others, Auth, History;
    if |responses| > 1 { RunIsShort(job, responses[..|responses| - 1]); }
  }

  /** However the model behaves, it is asked at most `maxDepth` more times. */
  lemma DepthIsBounded(job: Job, responses: seq<Response>, outcome: Outcome)
    requires EnvOk(job.env) && responses != [] && IsRun(job, responses) && EndsWith(job, responses, outcome)
    ensures ModelCalls(responses, outcome) <= job.maxDepth
  {
    hide IsRun, History, Auth, Others, Calls;
    RunIsShort(job, responses);
  }

  lemma {:induction false} TurnBefore(job: Job, responses: seq<Response>, k: nat)
    requires EnvOk(job.env) && IsRun(job, responses) && 0 < k < |responses|
    ensures AsksAgain(job, k - 1, responses[k - 1])
    ensures job.env.model(k, History(job, responses[..k])) == Completed(responses[k])
    decreases |responses|
  {
    hide AsksAgain, History;
    var n := |responses| - 1;
    if k < n {
      TurnBefore(job, responses[..n], k);
      assert responses[..n][..k] == responses[..k];
    }
  }

  /**
   Before the model is asked for response `k`, the conversation has grown by the previous response's
   messages and exactly one result for each of its tool calls, all of which were executable.
   */
  lemma ResultsBeforeNextCall(job: Job, responses: seq<Response>, k: nat)
    requires EnvOk(job.env) && IsRun(job, responses) && 0 < k < |responses|
    ensures var calls := Calls(responses[k - 1]);
            && calls != [] && multiset(Autos(job, k - 1, responses[k - 1])) == multiset(calls)
            && (forall c :: c in calls ==> IsAuto(job.env, k - 1, c))
            && exists results: seq<Message> ::
                 && multiset(results) == multiset(EachResult(job.env, k - 1, Autos(job, k - 1, responses[k - 1])))
                 && |results| == |calls|
                 && job.env.model(k, History(job, responses[..k - 1]) + (AssistantMessages(responses[k - 1].choices) + results))
                    == Completed(responses[k])
  {
    hide IsRun, IsAuto, Results, AllCalls, EnvOk, Chosen, AssistantMessages, EachResult, IsSubsequence, FirstAuth;
    TurnBefore(job, responses, k);
    TurnAdds(job, responses[..k]);
    assert responses[..k][..k - 1] == responses[..k - 1];
    var calls, autos := Calls(responses[k - 1]), Autos(job, k - 1, responses[k - 1]);
    SplitIsComplementary(job.env, k - 1, calls);
    assert multiset(autos) == multiset(calls);
    SameElements(autos, calls);
    OneResultPerCall(job.env, k - 1, autos);
    var results := Results(job.env, k - 1, autos);
    assert multiset(results) == multiset(EachResult(job.env, k - 1, autos)) && |results| == |calls|;
  }

  lemma SameElements(a: seq<ToolCall>, b: seq<ToolCall>)
    requires multiset(a) == multiset(b)
    ensures |a| == |b| && forall c :: c in b ==> c in a
  {
    assert |multiset(a)| == |a| && |multiset(b)| == |b|;
    forall c | c in b ensures c in a { assert c in multiset(b); }
  }

  /** No call is ever executed that may not be. */
  lemma {:induction false} OnlyAutoIsExecuted(job: Job, responses: seq<Response>, c: ToolCall)
    requires c in ExecutedCalls(job, responses)
    ensures exists turn: nat :: turn < |responses| && c in Calls(responses[turn]) && IsAuto(job.env, turn, c)
  {
    hide IsAuto, IsSubsequence, Chosen, AllCalls;
    var n := |responses| - 1;
    if c in Autos(job, n, responses[n]) {
      SplitIsComplementary(job.env, n, Calls(responses[n]));
      assert c in multiset(Autos(job, n, responses[n]));
      assert c in multiset(Calls(responses[n]));
    } else {
      OnlyAutoIsExecuted(job, responses[..n], c);
      var turn: nat :| turn < n && c in Calls(responses[..n][turn]) && IsAuto(job.env, turn, c);
      assert responses[..n][turn] == responses[turn];
    }
  }

  /** Without an error, the usage reported is that of all responses together. */
  lemma UsageIsTotal(job: Job, responses: seq<Response>, outcome: Outcome)
    requires EnvOk(job.env) && responses != [] && IsRun(job, responses) && EndsWith(job, responses, outcome) && outcome.Final?
    ensures outcome.response.usage == TotalUsage(responses)
  {
    hide History, ExecutedResults, ExecutedCalls, Auth, Others, Autos, Calls, Merge;
    if |responses| == 1 { Begins(job); }
  }

  /** Sum of one listed count over all responses. */
  function SumOfCount(responses: seq<Response>, i: nat): int
    requires i < 16
  {
    if responses == [] then 0
    else SumOfCount(responses[..|responses| - 1], i) + Count(responses[|responses| - 1].usage, i)
  }

  function Count(u: Option<Usage>, i: nat): int
    requires i < 16
  {
    Counts(u)[i]
  }

  /** Each listed token count of the total is the sum over the responses. */
  lemma {:induction false} TotalCountsAdd(responses: seq<Response>, i: nat)
    requires i < 16
    ensures Count(TotalUsage(responses), i) == SumOfCount(responses, i)
  {
    hide Counts, Merge;
    if responses == [] {
      NoCounts(i);
    } else {
      var n := |responses| - 1;
      TotalCountsAdd(responses[..n], i);
      MergeAdds(TotalUsage(responses[..n]), responses[n].usage);
    }
  }

  /** Sum of one listed cost over all responses. */
  function SumOfCost(responses: seq<Response>, i: nat): real
    requires i < 7
  {
    if responses == [] then 0.0
    else SumOfCost(responses[..|responses| - 1], i) + CostOf(responses[|responses| - 1].usage, i)
  }

  function CostOf(u: Option<Usage>, i: nat): real
    requires i < 7
  {
    Costs(u)[i]
  }

  /** So is each listed cost. */
  lemma {:induction false} TotalCostsAdd(responses: seq<Response>, i: nat)
    requires i < 7
    ensures CostOf(TotalUsage(responses), i) == SumOfCost(responses, i)
  {
    hide Costs, Merge;
    if responses == [] {
      NoCosts(i);
    } else {
      var n := |responses| - 1;
      TotalCostsAdd(responses[..n], i);
      MergeAdds(TotalUsage(responses[..n]), responses[n].usage);
    }
  }

  lemma NoCosts(i: nat)
    requires i < 7
    ensures CostOf(None, i) == 0.0
  {
  }

  lemma NoCounts(i: nat)
    requires i < 16
    ensures Count(None, i) == 0
  {
  }

  /** A response handed back with calls to make still counts as having tool calls, whatever its finish reason says. */
  lemma CombinedStillHasCalls(env: Env, r: Response, results: seq<Message>, calls: seq<ToolCall>, pending: seq<ToolCall>)
    ensures HasToolCalls(Combined(env, r, results, calls, pending)) <==> pending != []
    ensures Calls(Combined(env, r, results, calls, pending)) == pending
  {
    var c := Combined(env, r, results, calls, pending);
    assert CallsOf(c.choices[0]) == pending;
    assert c.choices[..0] == [] && AllCalls([]) == [] && [] + pending == pending;
  }
}
