/** The pre-fill agent: a tool dispatcher over the CRM and policy data sources and a
    bounded loop that lets an LLM call those tools until it reports its results
    (ai-service/app/services/prefill_agent.py). */
module PrefillAgent {
  import opened Values

  const CrmToolName := "lookup_crm_client"
  const PolicyToolName := "lookup_prior_policies"
  const DocumentToolName := "extract_document_fields"
  const ReportToolName := "report_prefill_results"

  /** The names of PREFILL_TOOLS, in order. */
  const PrefillToolNames: seq<string> := [CrmToolName, PolicyToolName, DocumentToolName, ReportToolName]

  /** `max_iterations` */
  const MaxIterations: nat := 5

  /** The two data sources the dispatcher queries with the tool input. */
  datatype DataSources = DataSources(
    crmQuery: seq<(string, Value)> -> Value,
    policyQuery: seq<(string, Value)> -> Value)

  function ErrorObject(message: string): Value
  {
    Obj([("error", Str(message))])
  }

  /** `_execute_tool`: the JSON document whose serialisation is the tool result.  An
      unknown tool is answered with an error object, and a lookup never answers with
      an empty document. */
  function ExecuteTool(name: string, input: seq<(string, Value)>, ds: DataSources): (r: Value)
    ensures name !in PrefillToolNames ==> r == ErrorObject("Unknown tool: " + name)
    ensures name == CrmToolName || name == PolicyToolName ==> Truthy(r)
    ensures name == CrmToolName && Truthy(ds.crmQuery(input)) ==> r == ds.crmQuery(input)
    ensures name == PolicyToolName && Truthy(ds.policyQuery(input)) ==> r == ds.policyQuery(input)
    ensures name == DocumentToolName ==> r == GetOr(input, "extracted_fields", Obj([]))
    ensures name == ReportToolName ==> r == Obj(input)
  {
    if name == CrmToolName then
      var found := ds.crmQuery(input);
      if !Truthy(found) then ErrorObject("Client not found in CRM.") else found
    else if name == PolicyToolName then
      var found := ds.policyQuery(input);
      if !Truthy(found) then ErrorObject("No prior policy data found for this client.") else found
    else if name == DocumentToolName then
      GetOr(input, "extracted_fields", Obj([]))
    else if name == ReportToolName then
      Obj(input)
    else
      ErrorObject("Unknown tool: " + name)
  }

  // ---------------------------------------------------------------------------
  // The agent loop

  /** An uploaded document: its media type and base64 data. */
  datatype Document = Document(mediaType: string, data: string)

  datatype ToolResult = ToolResult(toolUseId: string, content: string)

  /** The messages of the agent's conversation: the opening user message, an
      assistant turn (reduced to its tool calls) and the user message carrying the
      tool results of that turn. */
  datatype AgentMessage =
    | Opening(text: string, document: Option<Document>)
    | AssistantCalls(calls: seq<ToolCall>)
    | ToolResults(results: seq<ToolResult>)

  /** The dictionary `run_prefill_agent` returns. */
  datatype PrefillResult = PrefillResult(knownData: Value, sourcesUsed: Value, fieldsFound: Value, summary: Value)

  const FallbackSummary := "Pre-fill agent was unable to gather data within the allowed iterations."

  const Fallback := PrefillResult(Obj([]), Arr([]), Num(0.0), Str(FallbackSummary))

  /** The result read from a `report_prefill_results` input, with its defaults. */
  function FromPayload(p: seq<(string, Value)>): PrefillResult
  {
    PrefillResult(GetOr(p, "known_data", Obj([])), GetOr(p, "sources_used", Arr([])),
                  GetOr(p, "fields_found", Num(0.0)), GetOr(p, "summary", Str("")))
  }

  /** The opening message: an image block when a document is given (media type
      "image/png" unless one is named), then the instruction text. */
  function OpeningMessage(clientId: Option<string>, document: Option<string>, mediaType: Option<string>): AgentMessage
  {
    var withClient := if clientId.Some? && clientId.value != [] then ["Client ID: " + clientId.value] else [];
    var hasDocument := document.Some? && document.value != [];
    var withDocument := if hasDocument then ["A document has been uploaded — please extract any relevant fields from it."] else [];
    var text := Join(" ", ["Please gather all available pre-fill data."] + withClient + withDocument);
    var media := if mediaType.Some? && mediaType.value != [] then mediaType.value else "image/png";
    Opening(text, if hasDocument then Some(Document(media, document.value)) else None)
  }

  /** The tool results of one batch, in call order. */
  function Results(calls: seq<ToolCall>, ds: DataSources, prims: Primitives): seq<ToolResult>
  {
    if calls == [] then []
    else
      var c := calls[|calls| - 1];
      Results(calls[..|calls| - 1], ds, prims) + [ToolResult(c.id, prims.dumpJson(ExecuteTool(c.name, c.input, ds)))]
  }

  /** `terminal_result` after a batch: the input of its last report call. */
  function LastReport(calls: seq<ToolCall>): Option<seq<(string, Value)>>
  {
    if calls == [] then None
    else if calls[|calls| - 1].name == ReportToolName then Some(calls[|calls| - 1].input)
    else LastReport(calls[..|calls| - 1])
  }

  datatype RunOutcome = RunOutcome(result: PrefillResult, messages: seq<AgentMessage>, llmCalls: nat)

  /** The tool executor as the loop sees it: the results of a batch of calls. */
  type Executor = seq<ToolCall> -> seq<ToolResult>

  /** `execute_tool` run over a batch, against the data sources. */
  function ToolRunner(ds: DataSources, prims: Primitives): Executor
  {
    (calls: seq<ToolCall>) => Results(calls, ds, prims)
  }

  /** What the loop does from history `msgs` with `remaining` iterations left: ask the
      LLM; stop with the fallback on an empty batch; otherwise record the batch and
      its results, and stop with the report when the batch reported a non-empty
      payload. */
  function Run(msgs: seq<AgentMessage>, remaining: nat, llm: seq<AgentMessage> -> seq<ToolCall>,
               exec: Executor): RunOutcome
    decreases remaining
  {
    if remaining == 0 then RunOutcome(Fallback, msgs, 0)
    else
      var calls := llm(msgs);
      if calls == [] then RunOutcome(Fallback, msgs, 1)
      else
        var next := msgs + [AssistantCalls(calls), ToolResults(exec(calls))];
        var report := LastReport(calls);
        if report.Some? && report.value != [] then RunOutcome(FromPayload(report.value), next, 1)
        else
          var rest := Run(next, remaining - 1, llm, exec);
          rest.(llmCalls := rest.llmCalls + 1)
  }

  /** `run_prefill_agent`, with the LLM as a function of the conversation so far. */
  method RunPrefillAgent(clientId: Option<string>, document: Option<string>, mediaType: Option<string>,
                         llm: seq<AgentMessage> -> seq<ToolCall>, ds: DataSources, prims: Primitives)
    returns (result: PrefillResult, messages: seq<AgentMessage>, llmCalls: nat)
    ensures RunOutcome(result, messages, llmCalls) ==
            Run([OpeningMessage(clientId, document, mediaType)], MaxIterations, llm, ToolRunner(ds, prims))
  {
    result, messages, llmCalls := AgentLoop([OpeningMessage(clientId, document, mediaType)], MaxIterations, llm, ds, prims);
  }

  /** The agent loop from the opening history `start`, with at most `max` iterations. */
  method AgentLoop(start: seq<AgentMessage>, max: nat, llm: seq<AgentMessage> -> seq<ToolCall>,
                   ds: DataSources, prims: Primitives)
    returns (result: PrefillResult, messages: seq<AgentMessage>, llmCalls: nat)
    ensures RunOutcome(result, messages, llmCalls) == Run(start, max, llm, ToolRunner(ds, prims))
  {
    messages := start;
    llmCalls := 0;
    while llmCalls < max
      invariant llmCalls <= max
      invariant Run(start, max, llm, ToolRunner(ds, prims)).result == Run(messages, max - llmCalls, llm, ToolRunner(ds, prims)).result
      invariant Run(start, max, llm, ToolRunner(ds, prims)).messages == Run(messages, max - llmCalls, llm, ToolRunner(ds, prims)).messages
      invariant Run(start, max, llm, ToolRunner(ds, prims)).llmCalls == Run(messages, max - llmCalls, llm, ToolRunner(ds, prims)).llmCalls + llmCalls
    {
      var calls := llm(messages);
      if calls == [] {
        llmCalls := llmCalls + 1;
        result := Fallback;
        return;
      }
      var results, terminal := RunTools(calls, ds, prims);
      var next := messages + [AssistantCalls(calls), ToolResults(results)];
      if terminal.Some? && terminal.value != [] {
        messages, llmCalls := next, llmCalls + 1;
        result := FromPayload(terminal.value);
        return;
      }
      assert results == ToolRunner(ds, prims)(calls);
      RunContinues(messages, max - llmCalls, llm, ToolRunner(ds, prims));
      messages, llmCalls := next, llmCalls + 1;
    }
    result := Fallback;
  }

  /** An iteration that neither ends on an empty batch nor on a report goes on with
      the batch and its results appended and one LLM call counted. */
  lemma RunContinues(msgs: seq<AgentMessage>, remaining: nat, llm: seq<AgentMessage> -> seq<ToolCall>,
                     exec: Executor)
    requires remaining > 0 && llm(msgs) != []
    requires var report := LastReport(llm(msgs)); !(report.Some? && report.value != [])
    ensures var rest := Run(msgs + [AssistantCalls(llm(msgs)), ToolResults(exec(llm(msgs)))],
                            remaining - 1, llm, exec);
      Run(msgs, remaining, llm, exec) == rest.(llmCalls := rest.llmCalls + 1)
  {
  }

  /** One batch: every call executed in order, and the input of the last report call. */
  method RunTools(calls: seq<ToolCall>, ds: DataSources, prims: Primitives)
    returns (results: seq<ToolResult>, terminal: Option<seq<(string, Value)>>)
    ensures results == Results(calls, ds, prims) && terminal == LastReport(calls)
  {
    results := [];
    terminal := None;
    for j := 0 to |calls|
      invariant results == Results(calls[..j], ds, prims) && terminal == LastReport(calls[..j])
    {
      var c := calls[j];
      assert calls[..j + 1][..j] == calls[..j];
      results := results + [ToolResult(c.id, prims.dumpJson(ExecuteTool(c.name, c.input, ds)))];
      if c.name == ReportToolName {
        terminal := Some(c.input);
      }
    }
    assert calls[..|calls|] == calls;
  }

  // ---------------------------------------------------------------------------
  // Properties of the loop

  /** One result per call, in call order, each answering the call with its id. */
  lemma {:induction false} ResultsMatchCalls(calls: seq<ToolCall>, ds: DataSources, prims: Primitives)
    ensures |Results(calls, ds, prims)| == |calls|
    ensures forall k :: 0 <= k < |calls| ==> Results(calls, ds, prims)[k].toolUseId == calls[k].id
  {
    if calls != [] {
      ResultsMatchCalls(calls[..|calls| - 1], ds, prims);
    }
  }

  /** The terminal payload is the input of the last report call of the batch; calls
      after it in the batch are still executed (Results covers them all). */
  lemma LastReportIsLast(calls: seq<ToolCall>)
    ensures LastReport(calls).Some? <==> exists k :: 0 <= k < |calls| && calls[k].name == ReportToolName
    ensures LastReport(calls).Some? ==>
      exists k :: 0 <= k < |calls| && calls[k].name == ReportToolName && calls[k].input == LastReport(calls).value &&
        forall m :: k < m < |calls| ==> calls[m].name != ReportToolName
  {
    LastReportNone(calls);
    LastReportFound(calls);
  }

  lemma {:induction false} LastReportNone(calls: seq<ToolCall>)
    ensures LastReport(calls).None? ==> forall k :: 0 <= k < |calls| ==> calls[k].name != ReportToolName
  {
    if calls != [] {
      var init := calls[..|calls| - 1];
      LastReportNone(init);
      assert forall k :: 0 <= k < |init| ==> calls[k] == init[k];
    }
  }

  lemma {:induction false} LastReportFound(calls: seq<ToolCall>)
    ensures LastReport(calls).Some? ==>
      exists k :: 0 <= k < |calls| && calls[k].name == ReportToolName && calls[k].input == LastReport(calls).value &&
        forall m :: k < m < |calls| ==> calls[m].name != ReportToolName
  {
    if calls != [] && calls[|calls| - 1].name != ReportToolName {
      var init := calls[..|calls| - 1];
      LastReportFound(init);
      if LastReport(init).Some? {
        var k :| 0 <= k < |init| && init[k].name == ReportToolName && init[k].input == LastReport(init).value &&
          forall m :: k < m < |init| ==> init[m].name != ReportToolName;
        assert calls[k] == init[k];
      }
    }
  }

  /** Each iteration appends an assistant turn and then one user message whose tool
      results answer that turn's calls, in order. */
  predicate Paired(tail: seq<AgentMessage>, exec: Executor)
    decreases |tail|
  {
    tail == [] ||
    (|tail| >= 2 && tail[0].AssistantCalls? && tail[0].calls != [] &&
     tail[1] == ToolResults(exec(tail[0].calls)) && Paired(tail[2..], exec))
  }

  /** The loop calls the LLM at most `remaining` times, keeps the history it started
      with, and appends only assistant/tool-result pairs, one per LLM call that
      returned tools. */
  lemma {:induction false} RunShape(msgs: seq<AgentMessage>, remaining: nat, llm: seq<AgentMessage> -> seq<ToolCall>,
                                    exec: Executor)
    ensures var r := Run(msgs, remaining, llm, exec);
      r.llmCalls <= remaining && |msgs| <= |r.messages| <= |msgs| + 2 * r.llmCalls &&
      r.messages[..|msgs|] == msgs && Paired(r.messages[|msgs|..], exec)
    decreases remaining
  {
    if remaining > 0 && llm(msgs) != [] {
      var calls := llm(msgs);
      var pair := [AssistantCalls(calls), ToolResults(exec(calls))];
      var report := LastReport(calls);
      var r := Run(msgs, remaining, llm, exec);
      if report.Some? && report.value != [] {
        RunReports(msgs, remaining, llm, exec);
        assert r.messages == msgs + pair && r.llmCalls == 1;
        assert pair[2..] == [];
        SplitHistory(msgs, pair, msgs + pair);
      } else {
        var rest := Run(msgs + pair, remaining - 1, llm, exec);
        RunContinues(msgs, remaining, llm, exec);
        assert r.messages == rest.messages && r.llmCalls == rest.llmCalls + 1;
        RunShape(msgs + pair, remaining - 1, llm, exec);
        assert |msgs + pair| == |msgs| + 2 && |rest.messages| >= |msgs| + 2;
        SplitHistory(msgs, pair, rest.messages);
      }
    } else {
      assert msgs[..|msgs|] == msgs && msgs[|msgs|..] == [];
    }
  }

  /** A batch with a non-empty report ends the loop after one LLM call. */
  lemma RunReports(msgs: seq<AgentMessage>, remaining: nat, llm: seq<AgentMessage> -> seq<ToolCall>,
                   exec: Executor)
    requires remaining > 0 && llm(msgs) != []
    requires var report := LastReport(llm(msgs)); report.Some? && report.value != []
    ensures Run(msgs, remaining, llm, exec) ==
      RunOutcome(FromPayload(LastReport(llm(msgs)).value),
                 msgs + [AssistantCalls(llm(msgs)), ToolResults(exec(llm(msgs)))], 1)
  {
  }

  /** A history that extends `msgs + pair` splits into `msgs`, `pair` and the rest. */
  lemma SplitHistory<T>(msgs: seq<T>, pair: seq<T>, h: seq<T>)
    requires |pair| == 2 && |h| >= |msgs| + 2 && h[..|msgs| + 2] == msgs + pair
    ensures h[..|msgs|] == msgs
    ensures var tail := h[|msgs|..];
      |tail| >= 2 && tail[0] == pair[0] && tail[1] == pair[1] && tail[2..] == h[|msgs| + 2..]
  {
    assert h[..|msgs|] == h[..|msgs| + 2][..|msgs|];
    assert h[|msgs|] == h[..|msgs| + 2][|msgs|];
    assert h[|msgs| + 1] == h[..|msgs| + 2][|msgs| + 1];
  }

  /** The loop returns either the fallback or a report whose payload was non-empty. */
  lemma {:induction false} RunResult(msgs: seq<AgentMessage>, remaining: nat, llm: seq<AgentMessage> -> seq<ToolCall>,
                                     exec: Executor)
    ensures var r := Run(msgs, remaining, llm, exec);
      r.result == Fallback || exists p :: p != [] && r.result == FromPayload(p)
    decreases remaining
  {
    if remaining > 0 && llm(msgs) != [] {
      var calls := llm(msgs);
      var report := LastReport(calls);
      if !(report.Some? && report.value != []) {
        RunResult(msgs + [AssistantCalls(calls), ToolResults(exec(calls))], remaining - 1, llm, exec);
      }
    }
  }
}
