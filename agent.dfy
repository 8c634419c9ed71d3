/**
  The agent's conversation turns. `ChatWithTools` adds the user message to
  the context, asks the LLM, and while the LLM answers with tool calls (at
  most ten rounds) runs each call in order, feeding the results back. It ends
  with the LLM's text, with the iteration-limit message, or with the text of
  an exception. The LLM and the skill executor are oracles passed in as
  functions; the progress callback is modelled by the list of events it
  receives.
 */
module Agent {
  import opened Values
  import opened Context
  import opened Skills

  const MaxIterations: nat := 10
  const AnalyzingText := "正在分析任务..."
  const ProcessingText := "正在处理结果..."
  const IterationLimitText := "错误：工具调用超过最大迭代次数"
  const ErrorPrefix := "发生错误: "
  const AnalysisHeader := "分析完成，将执行以下操作：\n"

  datatype ToolCall = ToolCall(id: string, name: string, input: Value)

  /**
    What one LLM call gives: text, a `tool_use` dictionary, some other value
    (a dictionary of another type), or an exception with its message.
   */
  datatype LlmReply =
    | TextReply(text: string)
    | ToolUseReply(calls: seq<ToolCall>)
    | OtherReply
    | LlmRaised(error: string)

  /** The LLM, given the index of the call in the turn, the messages and the tool list. */
  type Llm = (nat, seq<ChatMessage>, seq<ToolSpec>) -> LlmReply

  /** What executing one skill gives: its result dictionary, or an exception with its message. */
  datatype ExecOutcome = Returned(result: Dict) | Raised(error: string)

  /** The skill executor, given the index of the step in the turn, the tool name and its arguments. */
  type Executor = (nat, string, Value) -> ExecOutcome

  datatype PlanEntry = PlanEntry(toolName: string, toolArgs: Value)

  datatype StepStatus = Completed | Failed

  datatype ExecutionStep = ExecutionStep(toolName: string, toolArgs: Value, result: Dict, status: StepStatus)

  /** The `progress_info` record of a turn. */
  datatype ProgressRecord = ProgressRecord(
    analysis: string,
    plan: seq<PlanEntry>,
    executionSteps: seq<ExecutionStep>,
    finalResult: string)

  const EmptyProgress := ProgressRecord("", [], [], "")

  /** The dictionaries passed to the progress callback, one constructor per `stage`. */
  datatype ProgressEvent =
    | Analyzing(message: string)
    | AnalysisComplete(analysis: string)
    | Planning(plan: seq<PlanEntry>)
    /** The step being started, whose status is `"running"`. */
    | Executing(toolName: string, toolArgs: Value)
    | StepComplete(step: ExecutionStep)
    | ProcessingResults(message: string)
    | Complete(finalResult: string, progressInfo: Option<ProgressRecord>)
    | Error(error: string, progressInfo: Option<ProgressRecord>)

  predicate IsTerminal(e: ProgressEvent) {
    e.Complete? || e.Error?
  }

  /** A step is completed unless its result has a falsy `success`; a missing `success` counts as completed. */
  function StatusOf(result: Dict): (status: StepStatus)
    ensures status == Completed <==> ("success" !in result || Truthy(result["success"]))
  {
    if Truthy(Get(result, "success", VBool(true))) then Completed else Failed
  }

  function StepOf(call: ToolCall, result: Dict): ExecutionStep {
    ExecutionStep(call.name, call.input, result, StatusOf(result))
  }

  function PlanOf(calls: seq<ToolCall>): (plan: seq<PlanEntry>)
    ensures |plan| == |calls|
    ensures forall i :: 0 <= i < |calls| ==> plan[i] == PlanEntry(calls[i].name, calls[i].input)
  {
    seq(|calls|, i requires 0 <= i < |calls| => PlanEntry(calls[i].name, calls[i].input))
  }

  /** The lines `- 调用工具: <name>` of the analysis text, one per call. */
  function AnalysisLines(calls: seq<ToolCall>): string
    decreases |calls|
  {
    if calls == [] then ""
    else AnalysisLines(calls[..|calls| - 1]) + "- 调用工具: " + calls[|calls| - 1].name + "\n"
  }

  function ToolUseMessage(call: ToolCall): ChatMessage {
    ChatMessage("assistant", Blocks([ToolUseBlock(call.id, call.name, call.input)]))
  }

  function ToolResultMessage(call: ToolCall, result: Dict): ChatMessage {
    ChatMessage("user", Blocks([ToolResultBlock(call.id, result)]))
  }

  /** The messages of the first LLM call: the system prompt, then the context window. */
  function Prompt(systemPrompt: string, log: seq<Message>, maxHistory: nat): seq<ChatMessage> {
    [ChatMessage("system", Plain(systemPrompt))] + ForLlm(Window(log, maxHistory))
  }

  // ---------------------------------------------------------------------------
  // Reference definition of a turn

  /** The state of a turn: the local message list, `progress_info`, the events so far, the LLM calls made. */
  datatype TurnState = TurnState(
    messages: seq<ChatMessage>,
    info: ProgressRecord,
    events: seq<ProgressEvent>,
    llmCalls: nat)

  datatype RoundEnd = Finished(state: TurnState) | Aborted(state: TurnState, error: string)

  datatype TurnEnd = Settled(state: TurnState, response: LlmReply) | Crashed(state: TurnState, error: string)

  /**
    What a turn produces: the returned text, the events, the final record, the
    assistant message added to the context (if any), the LLM calls made and
    the final local message list.
   */
  datatype TurnResult = TurnResult(
    reply: string,
    events: seq<ProgressEvent>,
    info: ProgressRecord,
    assistantMessage: Option<string>,
    llmCalls: nat,
    messages: seq<ChatMessage>)

  /** The state after `executing` is emitted and the `tool_use` message is added for `call`. */
  function Begin(st: TurnState, call: ToolCall): TurnState {
    st.(events := st.events + [Executing(call.name, call.input)], messages := st.messages + [ToolUseMessage(call)])
  }

  /** The state after the step of `call` is recorded, `step_complete` emitted and the `tool_result` message added. */
  function Record(st: TurnState, call: ToolCall, result: Dict): TurnState {
    var step := StepOf(call, result);
    st.(info := st.info.(executionSteps := st.info.executionSteps + [step]),
        events := st.events + [StepComplete(step)],
        messages := st.messages + [ToolResultMessage(call, result)])
  }

  /** The state after `processing_results` is emitted and the LLM is called again. */
  function Ask(st: TurnState): TurnState {
    st.(events := st.events + [ProcessingResults(ProcessingText)], llmCalls := st.llmCalls + 1)
  }

  /** The tool calls of one round, in order, until one of them raises. */
  function RunCalls(st: TurnState, calls: seq<ToolCall>, exec: Executor): (end: RoundEnd)
    ensures var b := |st.info.executionSteps|; var n := |end.state.info.executionSteps|;
      b <= n <= b + |calls| && (end.Finished? <==> n == b + |calls|)
    decreases |calls|
  {
    if calls == [] then Finished(st)
    else
      match exec(|st.info.executionSteps|, calls[0].name, calls[0].input)
      case Raised(e) => Aborted(Begin(st, calls[0]), e)
      case Returned(result) => RunCalls(Record(Begin(st, calls[0]), calls[0], result), calls[1..], exec)
  }

  /** Records the plan and emits `planning` only while no plan has been recorded. */
  function PlanRound(st: TurnState, calls: seq<ToolCall>): TurnState {
    if st.info.plan == [] then
      st.(info := st.info.(plan := PlanOf(calls)), events := st.events + [Planning(PlanOf(calls))])
    else st
  }

  /** The tool-use loop, from round `iteration` on, given the latest LLM reply. */
  function RunRounds(st: TurnState, response: LlmReply, iteration: nat, tools: seq<ToolSpec>, llm: Llm, exec: Executor): TurnEnd
    requires iteration <= MaxIterations
    decreases MaxIterations - iteration
  {
    if response.ToolUseReply? && iteration < MaxIterations then
      match RunCalls(PlanRound(st, response.calls), response.calls, exec)
      case Aborted(s, e) => Crashed(s, e)
      case Finished(s) =>
        var next := llm(iteration + 1, s.messages, tools);
        if next.LlmRaised? then Crashed(Ask(s), next.error)
        else RunRounds(Ask(s), next, iteration + 1, tools, llm, exec)
    else Settled(st, response)
  }

  /** A round whose calls all run ends the loop if the next LLM call raises, and goes on with its reply otherwise. */
  lemma RoundFinished(st: TurnState, response: LlmReply, iteration: nat, tools: seq<ToolSpec>, llm: Llm, exec: Executor, s: TurnState)
    requires response.ToolUseReply? && iteration < MaxIterations
    requires RunCalls(PlanRound(st, response.calls), response.calls, exec) == Finished(s)
    ensures var next := llm(iteration + 1, s.messages, tools);
      RunRounds(st, response, iteration, tools, llm, exec) ==
        if next.LlmRaised? then Crashed(Ask(s), next.error) else RunRounds(Ask(s), next, iteration + 1, tools, llm, exec)
  {
  }

  /** A round in which a call raises ends the loop with that error. */
  lemma RoundAborted(st: TurnState, response: LlmReply, iteration: nat, tools: seq<ToolSpec>, llm: Llm, exec: Executor, s: TurnState, e: string)
    requires response.ToolUseReply? && iteration < MaxIterations
    requires RunCalls(PlanRound(st, response.calls), response.calls, exec) == Aborted(s, e)
    ensures RunRounds(st, response, iteration, tools, llm, exec) == Crashed(s, e)
  {
  }

  /** The exception terminal: the error text is returned and goes to the context. */
  function Fail(st: TurnState, error: string): TurnResult {
    var msg := ErrorPrefix + error;
    var info := st.info.(finalResult := msg);
    TurnResult(msg, st.events + [Error(msg, Some(info))], info, Some(msg), st.llmCalls, st.messages)
  }

  /** The three terminals of a turn. */
  function Conclude(end: TurnEnd): TurnResult {
    match end
    case Crashed(st, e) => Fail(st, e)
    case Settled(st, response) =>
      if response.TextReply? then
        var info := st.info.(finalResult := response.text);
        TurnResult(response.text, st.events + [Complete(response.text, Some(info))], info, Some(response.text), st.llmCalls, st.messages)
      else
        var info := st.info.(finalResult := IterationLimitText);
        TurnResult(IterationLimitText, st.events + [Error(IterationLimitText, Some(info))], info, None, st.llmCalls, st.messages)
  }

  /** The record and events after the first reply has been analysed. */
  function Analyse(st: TurnState, first: LlmReply): TurnState {
    match first
    case TextReply(t) =>
      st.(info := st.info.(analysis := t), events := st.events + [AnalysisComplete(t)])
    case ToolUseReply(calls) =>
      var a := AnalysisHeader + AnalysisLines(calls);
      st.(info := st.info.(analysis := a), events := st.events + [AnalysisComplete(a)])
    case _ => st
  }

  const Started := TurnState([], EmptyProgress, [Analyzing(AnalyzingText)], 1)

  /** A whole turn, from the messages of the first LLM call. */
  function Turn(prompt: seq<ChatMessage>, tools: seq<ToolSpec>, llm: Llm, exec: Executor): TurnResult {
    var st := Started.(messages := prompt);
    var first := llm(0, prompt, tools);
    if first.LlmRaised? then Fail(st, first.error)
    else Conclude(RunRounds(Analyse(st, first), first, 0, tools, llm, exec))
  }

  function AssistantMessages(text: Option<string>): seq<Message> {
    if text.Some? then [Message("assistant", text.value, map[])] else []
  }

  // ---------------------------------------------------------------------------
  // Streaming and non-streaming chat without tools

  /** A provider answer: the chunks delivered, then possibly the exception that ended the call. */
  datatype StreamReply = StreamReply(chunks: seq<string>, failure: Option<string>)

  function Concat(chunks: seq<string>): string
    decreases |chunks|
  {
    if chunks == [] then "" else Concat(chunks[..|chunks| - 1]) + chunks[|chunks| - 1]
  }

  /** What `chat` yields. Without streaming, the provider's text is the concatenation of its chunks. */
  function ChatYields(stream: bool, reply: StreamReply): seq<string> {
    if stream then
      reply.chunks + (if reply.failure.Some? then [ErrorPrefix + reply.failure.value] else [])
    else if reply.failure.Some? then [ErrorPrefix + reply.failure.value]
    else [Concat(reply.chunks)]
  }

  /** The assistant text `chat` adds to the context. */
  function ChatAnswer(reply: StreamReply): string {
    if reply.failure.Some? then ErrorPrefix + reply.failure.value else Concat(reply.chunks)
  }

  class JessitAgent {
    const systemPrompt: string
    const context: ConversationContext
    const skillManager: SkillManager

    ghost predicate Valid()
      reads this, context, skillManager
    {
      context.Valid() && skillManager.Valid()
    }

    constructor (systemPrompt: string, dirExists: bool, found: seq<SkillFile>)
      ensures Valid() && fresh(context) && fresh(skillManager)
      ensures this.systemPrompt == systemPrompt
      ensures context.maxHistory == DefaultMaxHistory && context.appended == []
      ensures skillManager.Current() == LoadFrom(EmptyRegistry, dirExists, found)
    {
      this.systemPrompt := systemPrompt;
      context := new ConversationContext(DefaultMaxHistory);
      skillManager := new SkillManager(dirExists, found);
    }

    /** `chat`, streaming or not: the user message goes in first, then the answer or the error text. */
    method Chat(userMessage: string, stream: bool, llm: seq<ChatMessage> -> StreamReply) returns (yielded: seq<string>, ghost asked: seq<ChatMessage>)
      requires Valid()
      modifies context
      ensures Valid()
      ensures asked == Prompt(systemPrompt, old(context.appended) + [Message("user", userMessage, map[])], context.maxHistory)
      ensures yielded == ChatYields(stream, llm(asked))
      ensures context.appended == old(context.appended) + [Message("user", userMessage, map[]), Message("assistant", ChatAnswer(llm(asked)), map[])]
    {
      context.AddMessage("user", userMessage, None);
      var messages := [ChatMessage("system", Plain(systemPrompt))] + context.GetMessages();
      asked := messages;
      var reply := llm(messages);
      yielded := [];
      var responseContent := "";
      if stream {
        var i := 0;
        while i < |reply.chunks|
          invariant 0 <= i <= |reply.chunks|
          invariant responseContent == Concat(reply.chunks[..i])
          invariant yielded == reply.chunks[..i]
        {
          responseContent := responseContent + reply.chunks[i];
          yielded := yielded + [reply.chunks[i]];
          assert reply.chunks[..i + 1][..i] == reply.chunks[..i];
          i := i + 1;
        }
        assert reply.chunks[..|reply.chunks|] == reply.chunks;
      } else if reply.failure.None? {
        responseContent := Concat(reply.chunks);
        yielded := [responseContent];
      }
      if reply.failure.Some? {
        var errorMessage := ErrorPrefix + reply.failure.value;
        context.AddMessage("assistant", errorMessage, None);
        yielded := yielded + [errorMessage];
      } else {
        context.AddMessage("assistant", responseContent, None);
      }
    }

    /** Builds the analysis text of a first reply that asks for tools. */
    static method DescribeCalls(calls: seq<ToolCall>) returns (text: string)
      ensures text == AnalysisHeader + AnalysisLines(calls)
    {
      text := AnalysisHeader;
      var i := 0;
      while i < |calls|
        invariant 0 <= i <= |calls|
        invariant text == AnalysisHeader + AnalysisLines(calls[..i])
      {
        assert calls[..i + 1][..i] == calls[..i];
        text := text + "- 调用工具: " + calls[i].name + "\n";
        i := i + 1;
      }
      assert calls[..|calls|] == calls;
    }

    /** Builds the plan of one round, one entry per call. */
    static method PlanCalls(calls: seq<ToolCall>) returns (plan: seq<PlanEntry>)
      ensures plan == PlanOf(calls)
    {
      plan := [];
      var i := 0;
      while i < |calls|
        invariant 0 <= i <= |calls|
        invariant plan == PlanOf(calls[..i])
      {
        plan := plan + [PlanEntry(calls[i].name, calls[i].input)];
        i := i + 1;
      }
      assert calls[..|calls|] == calls;
    }

    /** The tool calls of one round, in order; stops at the first call whose execution raises. */
    static method ExecuteCalls(messages0: seq<ChatMessage>, info0: ProgressRecord, events0: seq<ProgressEvent>, ghost llmCalls: nat, toolCalls: seq<ToolCall>, exec: Executor)
      returns (messages: seq<ChatMessage>, progressInfo: ProgressRecord, events: seq<ProgressEvent>, failure: Option<string>)
      ensures RunCalls(TurnState(messages0, info0, events0, llmCalls), toolCalls, exec) ==
        if failure.None? then Finished(TurnState(messages, progressInfo, events, llmCalls))
        else Aborted(TurnState(messages, progressInfo, events, llmCalls), failure.value)
    {
      messages, progressInfo, events, failure := messages0, info0, events0, None;
      var j := 0;
      while j < |toolCalls| && failure.None?
        invariant 0 <= j <= |toolCalls|
        invariant RunCalls(TurnState(messages0, info0, events0, llmCalls), toolCalls, exec) ==
          if failure.None? then RunCalls(TurnState(messages, progressInfo, events, llmCalls), toolCalls[j..], exec)
          else Aborted(TurnState(messages, progressInfo, events, llmCalls), failure.value)
      {
        var toolCall := toolCalls[j];
        var toolName := toolCall.name;
        var toolArgs := toolCall.input;
        assert toolCalls[j..][0] == toolCall && toolCalls[j..][1..] == toolCalls[j + 1..];
        events := events + [Executing(toolName, toolArgs)];
        messages := messages + [ToolUseMessage(toolCall)];
        var outcome := exec(|progressInfo.executionSteps|, toolName, toolArgs);
        if outcome.Raised? {
          failure := Some(outcome.error);
        } else {
          var result := outcome.result;
          var executionStep := ExecutionStep(toolName, toolArgs, result, StatusOf(result));
          progressInfo := progressInfo.(executionSteps := progressInfo.executionSteps + [executionStep]);
          events := events + [StepComplete(executionStep)];
          messages := messages + [ToolResultMessage(toolCall, result)];
        }
        j := j + 1;
      }
    }

    /** One round of the loop: record the plan if none is yet, run the calls, and ask the LLM again unless a call raised. */
    static method ToolRound(messages0: seq<ChatMessage>, info0: ProgressRecord, events0: seq<ProgressEvent>, ghost llmCalls0: nat,
                            toolCalls: seq<ToolCall>, iteration: nat, tools: seq<ToolSpec>, llm: Llm, exec: Executor)
      returns (messages: seq<ChatMessage>, progressInfo: ProgressRecord, events: seq<ProgressEvent>, ghost llmCalls: nat,
               response: LlmReply, failure: Option<string>)
      requires iteration < MaxIterations
      ensures RunRounds(TurnState(messages0, info0, events0, llmCalls0), ToolUseReply(toolCalls), iteration, tools, llm, exec) ==
        if failure.None? then RunRounds(TurnState(messages, progressInfo, events, llmCalls), response, iteration + 1, tools, llm, exec)
        else Crashed(TurnState(messages, progressInfo, events, llmCalls), failure.value)
    {
      ghost var before := TurnState(messages0, info0, events0, llmCalls0);
      messages, progressInfo, events, llmCalls := messages0, info0, events0, llmCalls0;
      var stepPlan := PlanCalls(toolCalls);
      if progressInfo.plan == [] {
        progressInfo := progressInfo.(plan := stepPlan);
        events := events + [Planning(stepPlan)];
      }
      assert TurnState(messages, progressInfo, events, llmCalls) == PlanRound(before, toolCalls);
      messages, progressInfo, events, failure := ExecuteCalls(messages, progressInfo, events, llmCalls, toolCalls, exec);
      response := ToolUseReply(toolCalls);
      if failure.None? {
        RoundFinished(before, response, iteration, tools, llm, exec, TurnState(messages, progressInfo, events, llmCalls));
        events := events + [ProcessingResults(ProcessingText)];
        llmCalls := llmCalls + 1;
        response := llm(iteration + 1, messages, tools);
        if response.LlmRaised? {
          failure := Some(response.error);
        }
      } else {
        RoundAborted(before, response, iteration, tools, llm, exec, TurnState(messages, progressInfo, events, llmCalls), failure.value);
      }
    }

    /** The `while` loop of `chat_with_tools`: rounds of tool calls while the LLM asks for tools, at most ten. */
    static method ToolLoop(messages0: seq<ChatMessage>, info0: ProgressRecord, events0: seq<ProgressEvent>, ghost llmCalls0: nat,
                           response0: LlmReply, tools: seq<ToolSpec>, llm: Llm, exec: Executor)
      returns (messages: seq<ChatMessage>, progressInfo: ProgressRecord, events: seq<ProgressEvent>, ghost llmCalls: nat,
               response: LlmReply, failure: Option<string>)
      ensures RunRounds(TurnState(messages0, info0, events0, llmCalls0), response0, 0, tools, llm, exec) ==
        if failure.None? then Settled(TurnState(messages, progressInfo, events, llmCalls), response)
        else Crashed(TurnState(messages, progressInfo, events, llmCalls), failure.value)
    {
      messages, progressInfo, events, llmCalls, response, failure := messages0, info0, events0, llmCalls0, response0, None;
      var iteration := 0;
      while failure.None? && response.ToolUseReply? && iteration < MaxIterations
        invariant 0 <= iteration <= MaxIterations
        invariant RunRounds(TurnState(messages0, info0, events0, llmCalls0), response0, 0, tools, llm, exec) ==
          if failure.None? then RunRounds(TurnState(messages, progressInfo, events, llmCalls), response, iteration, tools, llm, exec)
          else Crashed(TurnState(messages, progressInfo, events, llmCalls), failure.value)
        decreases MaxIterations - iteration
      {
        assert response == ToolUseReply(response.calls);
        messages, progressInfo, events, llmCalls, response, failure :=
          ToolRound(messages, progressInfo, events, llmCalls, response.calls, iteration, tools, llm, exec);
        iteration := iteration + 1;
      }
    }

    /** `chat_with_tools` */
    method ChatWithTools(userMessage: string, llm: Llm, exec: Executor) returns (reply: string, events: seq<ProgressEvent>)
      requires Valid()
      modifies context
      ensures Valid()
      ensures
        var prompt := Prompt(systemPrompt, old(context.appended) + [Message("user", userMessage, map[])], context.maxHistory);
        var t := Turn(prompt, skillManager.GetSkillsForLlm(), llm, exec);
        && reply == t.reply && events == t.events
        && context.appended == old(context.appended) + [Message("user", userMessage, map[])] + AssistantMessages(t.assistantMessage)
    {
      context.AddMessage("user", userMessage, None);
      var messages := [ChatMessage("system", Plain(systemPrompt))] + context.GetMessages();
      ghost var goal := Turn(messages, skillManager.GetSkillsForLlm(), llm, exec);
      var tools := skillManager.GetSkillsForLlm();
      var progressInfo := EmptyProgress;
      events := [Analyzing(AnalyzingText)];
      ghost var llmCalls := 1;
      var failure: Option<string> := None;

      var response := llm(0, messages, tools);
      if response.LlmRaised? {
        failure := Some(response.error);
      } else {
        if response.TextReply? {
          progressInfo := progressInfo.(analysis := response.text);
          events := events + [AnalysisComplete(response.text)];
        } else if response.ToolUseReply? {
          var analysisText := DescribeCalls(response.calls);
          progressInfo := progressInfo.(analysis := analysisText);
          events := events + [AnalysisComplete(analysisText)];
        }
        assert TurnState(messages, progressInfo, events, llmCalls) == Analyse(Started.(messages := messages), response);
        messages, progressInfo, events, llmCalls, response, failure := ToolLoop(messages, progressInfo, events, llmCalls, response, tools, llm, exec);
      }
      assert goal == Conclude(
        if failure.None? then Settled(TurnState(messages, progressInfo, events, llmCalls), response)
        else Crashed(TurnState(messages, progressInfo, events, llmCalls), failure.value));

      if failure.Some? {
        var errorMessage := ErrorPrefix + failure.value;
        progressInfo := progressInfo.(finalResult := errorMessage);
        events := events + [Error(errorMessage, Some(progressInfo))];
        context.AddMessage("assistant", errorMessage, None);
        reply := errorMessage;
      } else if response.TextReply? {
        progressInfo := progressInfo.(finalResult := response.text);
        events := events + [Complete(response.text, Some(progressInfo))];
        context.AddMessage("assistant", response.text, None);
        reply := response.text;
      } else {
        var errorMsg := IterationLimitText;
        progressInfo := progressInfo.(finalResult := errorMsg);
        events := events + [Error(errorMsg, Some(progressInfo))];
        reply := errorMsg;
      }
    }
  }

  // ---------------------------------------------------------------------------
  // Properties of a turn

  /** The tool calls of a round make no LLM call, leave the plan alone and keep the earlier steps and messages. */
  lemma {:induction false} RunCallsKeeps(st: TurnState, calls: seq<ToolCall>, exec: Executor)
    ensures RunCalls(st, calls, exec).state.llmCalls == st.llmCalls
    ensures RunCalls(st, calls, exec).state.info.plan == st.info.plan
    ensures RunCalls(st, calls, exec).state.info.executionSteps[..|st.info.executionSteps|] == st.info.executionSteps
    decreases |calls|
  {
    if calls != [] {
      match exec(|st.info.executionSteps|, calls[0].name, calls[0].input)
      case Raised(e) =>
      case Returned(result) =>
        var done := Record(Begin(st, calls[0]), calls[0], result);
        RunCallsKeeps(done, calls[1..], exec);
        var steps := RunCalls(st, calls, exec).state.info.executionSteps;
        assert steps[..|st.info.executionSteps|] == (steps[..|done.info.executionSteps|])[..|st.info.executionSteps|];
    }
  }

  /** Each remaining round makes at most one more LLM call. */
  lemma {:induction false} RunRoundsLlmCalls(st: TurnState, response: LlmReply, iteration: nat, tools: seq<ToolSpec>, llm: Llm, exec: Executor)
    requires iteration <= MaxIterations
    ensures var calls := RunRounds(st, response, iteration, tools, llm, exec).state.llmCalls;
      st.llmCalls <= calls <= st.llmCalls + (MaxIterations - iteration)
    decreases MaxIterations - iteration
  {
    if response.ToolUseReply? && iteration < MaxIterations {
      RunCallsKeeps(PlanRound(st, response.calls), response.calls, exec);
      var end := RunCalls(PlanRound(st, response.calls), response.calls, exec);
      if end.Finished? {
        var next := llm(iteration + 1, end.state.messages, tools);
        if !next.LlmRaised? {
          RunRoundsLlmCalls(Ask(end.state), next, iteration + 1, tools, llm, exec);
        }
      }
    }
  }

  /** A turn calls the LLM at least once and at most eleven times: the first call and one per round. */
  lemma TurnLlmCallsBounded(prompt: seq<ChatMessage>, tools: seq<ToolSpec>, llm: Llm, exec: Executor)
    ensures 1 <= Turn(prompt, tools, llm, exec).llmCalls <= MaxIterations + 1
  {
    var first := llm(0, prompt, tools);
    if !first.LlmRaised? {
      RunRoundsLlmCalls(Analyse(Started.(messages := prompt), first), first, 0, tools, llm, exec);
    }
  }

  /** When no execution raises, every call of a round runs. */
  lemma {:induction false} RunCallsNoFailure(st: TurnState, calls: seq<ToolCall>, exec: Executor)
    requires forall k, n, a :: exec(k, n, a).Returned?
    ensures RunCalls(st, calls, exec).Finished?
    decreases |calls|
  {
    if calls != [] {
      var result := exec(|st.info.executionSteps|, calls[0].name, calls[0].input).result;
      RunCallsNoFailure(Record(Begin(st, calls[0]), calls[0], result), calls[1..], exec);
    }
  }

  /** With every later reply asking for tools and no failure, the loop runs out of rounds. */
  lemma {:induction false} EndlessToolUseRunsOut(st: TurnState, response: LlmReply, iteration: nat, tools: seq<ToolSpec>, llm: Llm, exec: Executor)
    requires iteration <= MaxIterations && response.ToolUseReply?
    requires forall i, m, t :: llm(i, m, t).ToolUseReply?
    requires forall k, n, a :: exec(k, n, a).Returned?
    ensures var end := RunRounds(st, response, iteration, tools, llm, exec);
      end.Settled? && end.response.ToolUseReply? && end.state.llmCalls == st.llmCalls + (MaxIterations - iteration)
    decreases MaxIterations - iteration
  {
    if iteration < MaxIterations {
      var planned := PlanRound(st, response.calls);
      RunCallsNoFailure(planned, response.calls, exec);
      RunCallsKeeps(planned, response.calls, exec);
      var s := RunCalls(planned, response.calls, exec).state;
      EndlessToolUseRunsOut(Ask(s), llm(iteration + 1, s.messages, tools), iteration + 1, tools, llm, exec);
    }
  }

  /**
    An LLM that always asks for tools, with skills that never raise, makes
    eleven LLM calls, and the turn returns the iteration-limit message
    without adding anything to the context.
   */
  lemma EndlessToolUseHitsLimit(prompt: seq<ChatMessage>, tools: seq<ToolSpec>, llm: Llm, exec: Executor)
    requires forall i, m, t :: llm(i, m, t).ToolUseReply?
    requires forall k, n, a :: exec(k, n, a).Returned?
    ensures var t := Turn(prompt, tools, llm, exec);
      t.reply == IterationLimitText && t.assistantMessage == None && t.llmCalls == MaxIterations + 1
  {
    var first := llm(0, prompt, tools);
    EndlessToolUseRunsOut(Analyse(Started.(messages := prompt), first), first, 0, tools, llm, exec);
  }

  /**
    The steps of `end` follow `calls` in order after the steps `before`: the
    step of the `i`-th call has its name, its arguments and the result the
    executor gave for it, with the status that result implies; the earlier
    steps are kept, and a round that stops early stops at a call whose
    execution raised.
   */
  ghost predicate StepsFollow(before: seq<ExecutionStep>, calls: seq<ToolCall>, exec: Executor, end: RoundEnd) {
    var steps := end.state.info.executionSteps; var b := |before|;
    && b <= |steps| <= b + |calls| && (end.Aborted? ==> |steps| < b + |calls|)
    && steps[..b] == before
    && (forall i :: b <= i < |steps| ==>
          && exec(i, calls[i - b].name, calls[i - b].input) == Returned(steps[i].result)
          && steps[i] == StepOf(calls[i - b], steps[i].result))
    && (end.Aborted? ==> exec(|steps|, calls[|steps| - b].name, calls[|steps| - b].input) == Raised(end.error))
  }

  /** The steps of a round follow its calls. */
  lemma {:induction false} RunCallsSteps(st: TurnState, calls: seq<ToolCall>, exec: Executor)
    ensures StepsFollow(st.info.executionSteps, calls, exec, RunCalls(st, calls, exec))
    decreases |calls|
  {
    if calls != [] {
      match exec(|st.info.executionSteps|, calls[0].name, calls[0].input)
      case Raised(e) =>
        assert RunCalls(st, calls, exec) == Aborted(Begin(st, calls[0]), e);
      case Returned(result) =>
        var done := Record(Begin(st, calls[0]), calls[0], result);
        RunCallsSteps(done, calls[1..], exec);
        StepsFollowStep(st.info.executionSteps, calls, exec, result, RunCalls(done, calls[1..], exec));
    }
  }

  /** The inductive step of `RunCallsSteps`, with the rest of the round given as `end`. */
  lemma StepsFollowStep(before: seq<ExecutionStep>, calls: seq<ToolCall>, exec: Executor, result: Dict, end: RoundEnd)
    requires calls != [] && exec(|before|, calls[0].name, calls[0].input) == Returned(result)
    requires StepsFollow(before + [StepOf(calls[0], result)], calls[1..], exec, end)
    ensures StepsFollow(before, calls, exec, end)
  {
    var steps := end.state.info.executionSteps;
    var b := |before|;
    assert steps[..b] == steps[..b + 1][..b];
    assert steps[b] == steps[..b + 1][b];
    assert forall k :: 1 <= k < |calls| ==> calls[k] == calls[1..][k - 1];
  }

  /** The messages of recorded calls: each call's `tool_use`, then its `tool_result`. */
  function Exchanges(calls: seq<ToolCall>, steps: seq<ExecutionStep>): seq<ChatMessage>
    requires |steps| == |calls|
    decreases |calls|
  {
    if calls == [] then []
    else [ToolUseMessage(calls[0]), ToolResultMessage(calls[0], steps[0].result)] + Exchanges(calls[1..], steps[1..])
  }

  lemma {:induction false} ExchangesLength(calls: seq<ToolCall>, steps: seq<ExecutionStep>)
    requires |steps| == |calls|
    ensures |Exchanges(calls, steps)| == 2 * |calls|
    decreases |calls|
  {
    if calls != [] {
      ExchangesLength(calls[1..], steps[1..]);
    }
  }

  /** The exchange of the `i`-th call sits at positions `2 * i` and `2 * i + 1`. */
  lemma {:induction false} ExchangesAt(calls: seq<ToolCall>, steps: seq<ExecutionStep>, i: nat)
    requires |steps| == |calls| && i < |calls|
    ensures |Exchanges(calls, steps)| == 2 * |calls|
    ensures Exchanges(calls, steps)[2 * i] == ToolUseMessage(calls[i])
    ensures Exchanges(calls, steps)[2 * i + 1] == ToolResultMessage(calls[i], steps[i].result)
    decreases i
  {
    ExchangesLength(calls, steps);
    if i > 0 {
      ExchangesAt(calls[1..], steps[1..], i - 1);
      assert calls[i] == calls[1..][i - 1] && steps[i] == steps[1..][i - 1];
    }
  }

  /** In the exchanges, the `tool_result` right after each `tool_use` answers the same id. */
  lemma ExchangesPaired(calls: seq<ToolCall>, steps: seq<ExecutionStep>)
    requires |steps| == |calls|
    ensures |Exchanges(calls, steps)| == 2 * |calls|
    ensures forall i :: 0 <= i < |calls| ==>
      && Exchanges(calls, steps)[2 * i] == ChatMessage("assistant", Blocks([ToolUseBlock(calls[i].id, calls[i].name, calls[i].input)]))
      && Exchanges(calls, steps)[2 * i + 1] == ChatMessage("user", Blocks([ToolResultBlock(calls[i].id, steps[i].result)]))
  {
    ExchangesLength(calls, steps);
    forall i | 0 <= i < |calls|
      ensures Exchanges(calls, steps)[2 * i] == ToolUseMessage(calls[i])
      ensures Exchanges(calls, steps)[2 * i + 1] == ToolResultMessage(calls[i], steps[i].result)
    {
      ExchangesAt(calls, steps, i);
    }
  }

  /** The messages of `end` are `before`, then the exchanges of the steps recorded after the first `b`, then the unanswered `tool_use` of a call that raised. */
  ghost predicate MessagesFollow(before: seq<ChatMessage>, b: nat, calls: seq<ToolCall>, end: RoundEnd) {
    var steps := end.state.info.executionSteps; var n := |steps| - b;
    && b <= |steps| <= b + |calls| && (end.Aborted? ==> |steps| < b + |calls|)
    && end.state.messages == before + Exchanges(calls[..n], steps[b..]) + (if end.Aborted? then [ToolUseMessage(calls[n])] else [])
  }

  /**
    The messages a round adds are the exchanges of its recorded steps; a
    round cut short by a raising execution ends with the `tool_use` message
    of that call, unanswered.
   */
  lemma {:induction false} RunCallsMessages(st: TurnState, calls: seq<ToolCall>, exec: Executor)
    ensures MessagesFollow(st.messages, |st.info.executionSteps|, calls, RunCalls(st, calls, exec))
    decreases |calls|
  {
    if calls == [] {
      MessagesNone(st);
    } else {
      match exec(|st.info.executionSteps|, calls[0].name, calls[0].input)
      case Raised(e) =>
        MessagesAborted(st, calls, e);
      case Returned(result) =>
        var done := Record(Begin(st, calls[0]), calls[0], result);
        RunCallsMessages(done, calls[1..], exec);
        RunCallsKeeps(done, calls[1..], exec);
        MessagesStep(st.messages, st.info.executionSteps, calls, result, RunCalls(done, calls[1..], exec));
    }
  }

  /** A round without calls adds no message. */
  lemma MessagesNone(st: TurnState)
    ensures MessagesFollow(st.messages, |st.info.executionSteps|, [], Finished(st))
  {
    assert st.messages + [] + [] == st.messages;
  }

  /** A round whose first call raises adds only that call's `tool_use` message. */
  lemma MessagesAborted(st: TurnState, calls: seq<ToolCall>, e: string)
    requires calls != []
    ensures MessagesFollow(st.messages, |st.info.executionSteps|, calls, Aborted(Begin(st, calls[0]), e))
  {
    assert calls[..0] == [];
  }

  /** The inductive step of `RunCallsMessages`, with the rest of the round given as `end`. */
  lemma MessagesStep(before: seq<ChatMessage>, beforeSteps: seq<ExecutionStep>, calls: seq<ToolCall>, result: Dict, end: RoundEnd)
    requires calls != []
    requires MessagesFollow(before + [ToolUseMessage(calls[0])] + [ToolResultMessage(calls[0], result)], |beforeSteps| + 1, calls[1..], end)
    requires end.state.info.executionSteps[..|beforeSteps| + 1] == beforeSteps + [StepOf(calls[0], result)]
    ensures MessagesFollow(before, |beforeSteps|, calls, end)
  {
    var b := |beforeSteps|;
    var steps := end.state.info.executionSteps;
    var n := |steps| - b;
    assert steps[b] == (steps[..b + 1])[b];
    assert steps[b..][1..] == steps[b + 1..];
    ExchangesUnfold(calls, steps[b..], n);
    assert before + [ToolUseMessage(calls[0])] + [ToolResultMessage(calls[0], result)] == before + [ToolUseMessage(calls[0]), ToolResultMessage(calls[0], result)];
    if end.Aborted? {
      assert calls[n] == calls[1..][n - 1];
    }
  }

  lemma ExchangesUnfold(calls: seq<ToolCall>, steps: seq<ExecutionStep>, n: nat)
    requires 1 <= n <= |calls| && |steps| == n
    ensures Exchanges(calls[..n], steps)
      == [ToolUseMessage(calls[0]), ToolResultMessage(calls[0], steps[0].result)] + Exchanges(calls[1..][..n - 1], steps[1..])
  {
    assert calls[..n][1..] == calls[1..][..n - 1];
  }

  /** The steps recorded by the `step_complete` events, in order. */
  function CompletedSteps(events: seq<ProgressEvent>): seq<ExecutionStep>
    decreases |events|
  {
    if events == [] then []
    else CompletedSteps(events[..|events| - 1]) + (if events[|events| - 1].StepComplete? then [events[|events| - 1].step] else [])
  }

  /** The number of `processing_results` events. */
  function CountProcessing(events: seq<ProgressEvent>): nat
    decreases |events|
  {
    if events == [] then 0
    else CountProcessing(events[..|events| - 1]) + (if events[|events| - 1].ProcessingResults? then 1 else 0)
  }

  lemma ExtendTrace(events: seq<ProgressEvent>, e: ProgressEvent)
    ensures CompletedSteps(events + [e]) == CompletedSteps(events) + (if e.StepComplete? then [e.step] else [])
    ensures CountProcessing(events + [e]) == CountProcessing(events) + (if e.ProcessingResults? then 1 else 0)
  {
    assert (events + [e])[..|events|] == events;
  }

  /**
    The shape of the events of an unfinished turn: it opened with
    `analyzing`, has no terminal event yet, every `step_complete` comes right
    after the `executing` event of the same tool and arguments, the
    `step_complete` events carry exactly the recorded steps, and every LLM
    call after the first follows a `processing_results` event.
   */
  ghost predicate TraceOk(st: TurnState) {
    && st.events != [] && st.events[0] == Analyzing(AnalyzingText)
    && (forall k :: 0 <= k < |st.events| ==> !IsTerminal(st.events[k]))
    && (forall k :: 0 < k < |st.events| && st.events[k].StepComplete? ==>
          st.events[k - 1] == Executing(st.events[k].step.toolName, st.events[k].step.toolArgs))
    && CompletedSteps(st.events) == st.info.executionSteps
    && st.llmCalls == 1 + CountProcessing(st.events)
  }

  /** Appending a non-terminal event other than `step_complete` and `processing_results` keeps the shape. */
  lemma AppendQuiet(st: TurnState, e: ProgressEvent)
    requires TraceOk(st) && !IsTerminal(e) && !e.StepComplete? && !e.ProcessingResults?
    ensures TraceOk(st.(events := st.events + [e]))
  {
    ExtendTrace(st.events, e);
  }

  /** One executed call keeps the shape. */
  lemma StepTrace(st: TurnState, call: ToolCall, result: Dict)
    requires TraceOk(st)
    ensures TraceOk(Begin(st, call)) && TraceOk(Record(Begin(st, call), call, result))
  {
    AppendQuiet(st.(messages := Begin(st, call).messages), Executing(call.name, call.input));
    ExtendTrace(Begin(st, call).events, StepComplete(StepOf(call, result)));
  }

  /** Asking the LLM again keeps the shape. */
  lemma AskTrace(st: TurnState)
    requires TraceOk(st)
    ensures TraceOk(Ask(st))
  {
    ExtendTrace(st.events, ProcessingResults(ProcessingText));
  }

  lemma {:induction false} RunCallsTrace(st: TurnState, calls: seq<ToolCall>, exec: Executor)
    requires TraceOk(st)
    ensures TraceOk(RunCalls(st, calls, exec).state)
    decreases |calls|
  {
    if calls != [] {
      match exec(|st.info.executionSteps|, calls[0].name, calls[0].input)
      case Raised(e) => StepTrace(st, calls[0], map[]);
      case Returned(result) =>
        StepTrace(st, calls[0], result);
        RunCallsTrace(Record(Begin(st, calls[0]), calls[0], result), calls[1..], exec);
    }
  }

  /** Recording the plan of a round keeps the shape. */
  lemma PlanRoundTrace(st: TurnState, calls: seq<ToolCall>)
    requires TraceOk(st)
    ensures TraceOk(PlanRound(st, calls))
  {
    if st.info.plan == [] {
      AppendQuiet(st.(info := st.info.(plan := PlanOf(calls))), Planning(PlanOf(calls)));
    }
  }

  lemma {:induction false} RunRoundsTrace(st: TurnState, response: LlmReply, iteration: nat, tools: seq<ToolSpec>, llm: Llm, exec: Executor)
    requires iteration <= MaxIterations && TraceOk(st)
    ensures TraceOk(RunRounds(st, response, iteration, tools, llm, exec).state)
    decreases MaxIterations - iteration
  {
    if response.ToolUseReply? && iteration < MaxIterations {
      var planned := PlanRound(st, response.calls);
      PlanRoundTrace(st, response.calls);
      RunCallsTrace(planned, response.calls, exec);
      match RunCalls(planned, response.calls, exec)
      case Aborted(s, e) =>
        RoundAborted(st, response, iteration, tools, llm, exec, s, e);
      case Finished(s) =>
        RoundFinished(st, response, iteration, tools, llm, exec, s);
        AskTrace(s);
        var next := llm(iteration + 1, s.messages, tools);
        if !next.LlmRaised? {
          RunRoundsTrace(Ask(s), next, iteration + 1, tools, llm, exec);
        }
    }
  }

  /** The state in which a turn reaches its terminal event keeps the shape. */
  lemma TurnEndsTraceOk(prompt: seq<ChatMessage>, tools: seq<ToolSpec>, llm: Llm, exec: Executor)
    ensures var first := llm(0, prompt, tools); var st := Started.(messages := prompt);
      && TraceOk(st)
      && (!first.LlmRaised? ==> TraceOk(RunRounds(Analyse(st, first), first, 0, tools, llm, exec).state))
  {
    var st := Started.(messages := prompt);
    ExtendTrace([], Analyzing(AnalyzingText));
    assert [] + [Analyzing(AnalyzingText)] == st.events;
    var first := llm(0, prompt, tools);
    if !first.LlmRaised? {
      if first.TextReply? || first.ToolUseReply? {
        AppendQuiet(st.(info := Analyse(st, first).info), Analyse(st, first).events[1]);
        assert Analyse(st, first) == st.(info := Analyse(st, first).info).(events := st.events + [Analyse(st, first).events[1]]);
      }
      RunRoundsTrace(Analyse(st, first), first, 0, tools, llm, exec);
    }
  }

  /** The state a turn ends in, before its terminal event. */
  function FinalState(prompt: seq<ChatMessage>, tools: seq<ToolSpec>, llm: Llm, exec: Executor): TurnState {
    var st := Started.(messages := prompt);
    var first := llm(0, prompt, tools);
    if first.LlmRaised? then st else RunRounds(Analyse(st, first), first, 0, tools, llm, exec).state
  }

  /** A turn's events are those of its final state followed by one terminal event, and the record is that state's. */
  lemma TurnIsFinalStatePlusTerminal(prompt: seq<ChatMessage>, tools: seq<ToolSpec>, llm: Llm, exec: Executor)
    ensures var t := Turn(prompt, tools, llm, exec); var s := FinalState(prompt, tools, llm, exec);
      && |t.events| == |s.events| + 1 && t.events[..|s.events|] == s.events
      && IsTerminal(t.events[|s.events|]) && t.events[|s.events|].progressInfo == Some(t.info)
      && t.info == s.info.(finalResult := t.reply) && t.llmCalls == s.llmCalls
      && (t.assistantMessage.Some? ==> t.assistantMessage.value == t.reply)
      && (t.assistantMessage.None? ==> t.reply == IterationLimitText && t.events[|s.events|].Error?)
  {
  }

  /**
    The events of a whole turn: `analyzing` first, exactly one terminal
    event (`complete` or `error`) and it is last, carrying the final record,
    whose final result is the returned text; every `step_complete` directly
    follows the `executing` event of its tool; the `step_complete` events
    carry the recorded steps; there is one `processing_results` per LLM call
    after the first; and the context receives the returned text, except when
    the iteration limit was hit.
   */
  lemma TurnTrace(prompt: seq<ChatMessage>, tools: seq<ToolSpec>, llm: Llm, exec: Executor)
    ensures var t := Turn(prompt, tools, llm, exec); var n := |t.events|;
      && n >= 2 && t.events[0] == Analyzing(AnalyzingText)
      && IsTerminal(t.events[n - 1]) && t.events[n - 1].progressInfo == Some(t.info)
      && (forall k :: 0 <= k < n - 1 ==> !IsTerminal(t.events[k]))
      && (forall k :: 0 < k < n && t.events[k].StepComplete? ==>
            t.events[k - 1] == Executing(t.events[k].step.toolName, t.events[k].step.toolArgs))
      && CompletedSteps(t.events) == t.info.executionSteps
      && t.llmCalls == 1 + CountProcessing(t.events)
      && t.info.finalResult == t.reply
      && (t.assistantMessage.Some? ==> t.assistantMessage.value == t.reply)
      && (t.assistantMessage.None? ==> t.reply == IterationLimitText && t.events[n - 1].Error?)
  {
    TurnEndsTraceOk(prompt, tools, llm, exec);
    TurnIsFinalStatePlusTerminal(prompt, tools, llm, exec);
    var s := FinalState(prompt, tools, llm, exec);
    var t := Turn(prompt, tools, llm, exec);
    assert TraceOk(s);
    assert t.events == s.events + [t.events[|s.events|]];
    ExtendTrace(s.events, t.events[|s.events|]);
  }

  /** How a turn ends before its terminal event: the first LLM call raises, or the tool loop ends. */
  function EndOfTurn(prompt: seq<ChatMessage>, tools: seq<ToolSpec>, llm: Llm, exec: Executor): TurnEnd {
    var st := Started.(messages := prompt);
    var first := llm(0, prompt, tools);
    if first.LlmRaised? then Crashed(st, first.error)
    else RunRounds(Analyse(st, first), first, 0, tools, llm, exec)
  }

  /** A loop still holding a tool-use reply when it stops has run every remaining round, one LLM call each. */
  lemma {:induction false} ToolUseSettlesAtLimit(st: TurnState, response: LlmReply, iteration: nat, tools: seq<ToolSpec>, llm: Llm, exec: Executor)
    requires iteration <= MaxIterations
    ensures var end := RunRounds(st, response, iteration, tools, llm, exec);
      end.Settled? && end.response.ToolUseReply? ==> end.state.llmCalls == st.llmCalls + (MaxIterations - iteration)
    decreases MaxIterations - iteration
  {
    if response.ToolUseReply? && iteration < MaxIterations {
      var planned := PlanRound(st, response.calls);
      RunCallsKeeps(planned, response.calls, exec);
      var r := RunCalls(planned, response.calls, exec);
      if r.Finished? {
        RoundFinished(st, response, iteration, tools, llm, exec, r.state);
        var next := llm(iteration + 1, r.state.messages, tools);
        if !next.LlmRaised? {
          ToolUseSettlesAtLimit(Ask(r.state), next, iteration + 1, tools, llm, exec);
        }
      }
    }
  }

  /**
    Which terminal ends a turn. A final text reply is returned, announced by
    `complete`, and goes to the context. A loop that stops on any other reply
    returns the iteration-limit text with an `error` event and adds nothing
    to the context; when that reply is still a tool use, all 11 LLM calls were
    made. An exception returns `发生错误: ` and its message, announced by
    `error`, and that text goes to the context.
   */
  lemma TurnTerminals(prompt: seq<ChatMessage>, tools: seq<ToolSpec>, llm: Llm, exec: Executor)
    ensures var t := Turn(prompt, tools, llm, exec); var end := EndOfTurn(prompt, tools, llm, exec); var n := |t.events|;
      && n >= 1 && end.state == FinalState(prompt, tools, llm, exec)
      && (end.Settled? && end.response.TextReply? ==>
            && t.reply == end.response.text
            && t.events[n - 1] == Complete(t.reply, Some(t.info))
            && t.assistantMessage == Some(t.reply))
      && (end.Settled? && !end.response.TextReply? ==>
            && t.reply == IterationLimitText
            && t.events[n - 1] == Error(IterationLimitText, Some(t.info))
            && t.assistantMessage.None?
            && (end.response.ToolUseReply? ==> t.llmCalls == MaxIterations + 1))
      && (end.Crashed? ==>
            && t.reply == ErrorPrefix + end.error
            && t.events[n - 1] == Error(t.reply, Some(t.info))
            && t.assistantMessage == Some(t.reply))
  {
    var st := Started.(messages := prompt);
    var first := llm(0, prompt, tools);
    if !first.LlmRaised? {
      ToolUseSettlesAtLimit(Analyse(st, first), first, 0, tools, llm, exec);
    }
  }

  /** Once a plan is recorded, later rounds leave it as it is. */
  lemma {:induction false} PlanRecordedOnce(st: TurnState, response: LlmReply, iteration: nat, tools: seq<ToolSpec>, llm: Llm, exec: Executor)
    requires iteration <= MaxIterations && st.info.plan != []
    ensures RunRounds(st, response, iteration, tools, llm, exec).state.info.plan == st.info.plan
    decreases MaxIterations - iteration
  {
    if response.ToolUseReply? && iteration < MaxIterations {
      RunCallsKeeps(st, response.calls, exec);
      var end := RunCalls(st, response.calls, exec);
      if end.Finished? {
        var next := llm(iteration + 1, end.state.messages, tools);
        if !next.LlmRaised? {
          PlanRecordedOnce(Ask(end.state), next, iteration + 1, tools, llm, exec);
        }
      }
    }
  }

  /** A first round with calls fixes the plan of the turn to the plan of that round. */
  lemma FirstRoundPlans(st: TurnState, response: LlmReply, tools: seq<ToolSpec>, llm: Llm, exec: Executor)
    requires st.info.plan == [] && response.ToolUseReply? && response.calls != []
    ensures RunRounds(st, response, 0, tools, llm, exec).state.info.plan == PlanOf(response.calls)
  {
    var planned := PlanRound(st, response.calls);
    assert PlanOf(response.calls)[0] == PlanEntry(response.calls[0].name, response.calls[0].input);
    RunCallsKeeps(planned, response.calls, exec);
    var end := RunCalls(planned, response.calls, exec);
    if end.Finished? {
      var next := llm(1, end.state.messages, tools);
      if !next.LlmRaised? {
        PlanRecordedOnce(Ask(end.state), next, 1, tools, llm, exec);
      }
    }
  }
}
