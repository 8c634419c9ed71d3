/**
  The progress record the chat window keeps for its detail panel, and how it
  follows the agent's progress events. The window resets the record when a
  chat starts and then applies each event as it arrives.
 */
module ChatWindow {
  import opened Values
  import opened Context
  import opened Skills
  import opened Agent

  /** The effect of one progress event on the record. */
  function Reduce(r: ProgressRecord, e: ProgressEvent): (next: ProgressRecord)
    ensures e.AnalysisComplete? ==>
      next.analysis == e.analysis && next.plan == r.plan && next.executionSteps == r.executionSteps && next.finalResult == r.finalResult
    ensures e.Planning? ==>
      next.plan == e.plan && next.analysis == r.analysis && next.executionSteps == r.executionSteps && next.finalResult == r.finalResult
    ensures e.StepComplete? ==>
      && |next.executionSteps| == |r.executionSteps| + 1
      && next.executionSteps[..|r.executionSteps|] == r.executionSteps
      && next.executionSteps[|r.executionSteps|] == e.step
      && next.analysis == r.analysis && next.plan == r.plan && next.finalResult == r.finalResult
    ensures IsTerminal(e) && e.progressInfo.Some? ==> next == e.progressInfo.value
    ensures e.Complete? && e.progressInfo.None? ==> next == r.(finalResult := e.finalResult)
    ensures e.Error? && e.progressInfo.None? ==> next == r.(finalResult := e.error)
    ensures e.Analyzing? || e.Executing? || e.ProcessingResults? ==> next == r
  {
    match e
    case AnalysisComplete(a) => r.(analysis := a)
    case Planning(p) => r.(plan := p)
    case StepComplete(step) => r.(executionSteps := r.executionSteps + [step])
    case Complete(f, info) => if info.Some? then info.value else r.(finalResult := f)
    case Error(err, info) => if info.Some? then info.value else r.(finalResult := err)
    case Analyzing(_) => r
    case Executing(_, _) => r
    case ProcessingResults(_) => r
  }

  /** The record after applying `events` in order, starting from `r`. */
  function Fold(r: ProgressRecord, events: seq<ProgressEvent>): ProgressRecord
    decreases |events|
  {
    if events == [] then r else Reduce(Fold(r, events[..|events| - 1]), events[|events| - 1])
  }

  lemma FoldAppend(r: ProgressRecord, events: seq<ProgressEvent>, e: ProgressEvent)
    ensures Fold(r, events + [e]) == Reduce(Fold(r, events), e)
  {
    assert (events + [e])[..|events|] == events;
  }

  /** The window's `current_progress_info`. */
  class ProgressView {
    var current: ProgressRecord

    constructor ()
      ensures current == EmptyProgress
    {
      current := EmptyProgress;
    }

    /** The reset done when a chat starts. */
    method Reset()
      modifies this
      ensures current == EmptyProgress
    {
      current := ProgressRecord("", [], [], "");
    }

    /** `_on_progress_updated` */
    method OnProgressUpdated(event: ProgressEvent)
      modifies this
      ensures current == Reduce(old(current), event)
    {
      match event {
        case AnalysisComplete(analysis) =>
          current := current.(analysis := analysis);
        case Planning(plan) =>
          current := current.(plan := plan);
        case StepComplete(step) =>
          current := current.(executionSteps := current.executionSteps + [step]);
        case Complete(finalResult, progressInfo) =>
          current := current.(finalResult := finalResult);
          if progressInfo.Some? {
            current := progressInfo.value;
          }
        case Error(error, progressInfo) =>
          current := current.(finalResult := error);
          if progressInfo.Some? {
            current := progressInfo.value;
          }
        case Analyzing(_) =>
        case Executing(_, _) =>
        case ProcessingResults(_) =>
      }
    }
  }

  // ---------------------------------------------------------------------------
  // The view follows the agent

  /** During a turn, the view reset before it mirrors the agent's record, whose final result is still empty. */
  ghost predicate Mirrors(st: TurnState) {
    Fold(EmptyProgress, st.events) == st.info && st.info.finalResult == ""
  }

  lemma StepMirrors(st: TurnState, call: ToolCall, result: Dict)
    requires Mirrors(st)
    ensures Mirrors(Begin(st, call)) && Mirrors(Record(Begin(st, call), call, result))
  {
    FoldAppend(EmptyProgress, st.events, Executing(call.name, call.input));
    FoldAppend(EmptyProgress, Begin(st, call).events, StepComplete(StepOf(call, result)));
  }

  lemma {:induction false} RunCallsMirrors(st: TurnState, calls: seq<ToolCall>, exec: Executor)
    requires Mirrors(st)
    ensures Mirrors(RunCalls(st, calls, exec).state)
    decreases |calls|
  {
    if calls != [] {
      match exec(|st.info.executionSteps|, calls[0].name, calls[0].input)
      case Raised(e) => StepMirrors(st, calls[0], map[]);
      case Returned(result) =>
        StepMirrors(st, calls[0], result);
        RunCallsMirrors(Record(Begin(st, calls[0]), calls[0], result), calls[1..], exec);
    }
  }

  lemma {:induction false} RunRoundsMirrors(st: TurnState, response: LlmReply, iteration: nat, tools: seq<ToolSpec>, llm: Llm, exec: Executor)
    requires iteration <= MaxIterations && Mirrors(st)
    ensures Mirrors(RunRounds(st, response, iteration, tools, llm, exec).state)
    decreases MaxIterations - iteration
  {
    if response.ToolUseReply? && iteration < MaxIterations {
      FoldAppend(EmptyProgress, st.events, Planning(PlanOf(response.calls)));
      var planned := PlanRound(st, response.calls);
      RunCallsMirrors(planned, response.calls, exec);
      var end := RunCalls(planned, response.calls, exec);
      if end.Finished? {
        FoldAppend(EmptyProgress, end.state.events, ProcessingResults(ProcessingText));
        var next := llm(iteration + 1, end.state.messages, tools);
        if !next.LlmRaised? {
          RunRoundsMirrors(Ask(end.state), next, iteration + 1, tools, llm, exec);
        }
      }
    }
  }

  lemma FinalStateMirrors(prompt: seq<ChatMessage>, tools: seq<ToolSpec>, llm: Llm, exec: Executor)
    ensures Mirrors(FinalState(prompt, tools, llm, exec))
  {
    var st := Started.(messages := prompt);
    FoldAppend(EmptyProgress, [], Analyzing(AnalyzingText));
    assert [] + [Analyzing(AnalyzingText)] == st.events;
    var first := llm(0, prompt, tools);
    if !first.LlmRaised? {
      var analysed := Analyse(st, first);
      if first.TextReply? || first.ToolUseReply? {
        FoldAppend(EmptyProgress, st.events, analysed.events[1]);
        assert analysed.events == st.events + [analysed.events[1]];
      }
      RunRoundsMirrors(analysed, first, 0, tools, llm, exec);
    }
  }

  /**
    A view reset when the chat starts and fed the turn's events ends with
    exactly the agent's final record; just before the terminal event it
    already shows the agent's record with an empty final result. Since the
    terminal event carries the whole record, the view ends with it even when
    it was not reset.
   */
  lemma ViewFollowsTurn(prompt: seq<ChatMessage>, tools: seq<ToolSpec>, llm: Llm, exec: Executor, stale: ProgressRecord)
    ensures var t := Turn(prompt, tools, llm, exec); var n := |t.events|;
      && n >= 1
      && Fold(EmptyProgress, t.events) == t.info
      && Fold(EmptyProgress, t.events[..n - 1]) == t.info.(finalResult := "")
      && Fold(stale, t.events) == t.info
  {
    FinalStateMirrors(prompt, tools, llm, exec);
    TurnIsFinalStatePlusTerminal(prompt, tools, llm, exec);
    var t := Turn(prompt, tools, llm, exec);
    var s := FinalState(prompt, tools, llm, exec);
    var n := |t.events|;
    assert t.events == s.events + [t.events[n - 1]];
    FoldAppend(EmptyProgress, s.events, t.events[n - 1]);
    FoldAppend(stale, s.events, t.events[n - 1]);
  }
}
