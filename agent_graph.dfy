/** The agent <-> tools loop shared by the three LangGraph workflows of the
    management AI package: an "agent" node that asks the language model for
    the next step, a "tools" node that answers every tool call of the model's
    last message, and a routing decision after each node, with a hard cap of
    ten agent steps.

    The model is a value of the state `{messages, steps}` threaded through
    the graph. Node outputs are merged by the `add_messages` reducer, here
    list append. The language model and the tools themselves are parameters:
    `llm` maps the message list it is sent to the outcome of the call, and
    `invoke` maps a tool name and its arguments to the outcome of running it.
    The three workflows' graphs differ only in the tool registry (the names
    in `tools_by_name`) and the system prompt, so both are parameters too. */
module AgentGraph {
  import opened Optional

  /** Tool-call arguments, each value kept as its JSON text. */
  type Args = map<string, string>

  /** One entry of an AI message's `tool_calls`; `id` is `None` when the
      dictionary has no "id" key. */
  datatype ToolCall = ToolCall(name: string, args: Args, id: Option<string>)

  /** The JSON content of a `ToolMessage`: a tool's serialised result, or
      the object `{"error": error}`. */
  datatype ToolContent = Payload(json: string) | ErrorContent(error: string)

  datatype Message =
    | Human(text: string)
    | System(text: string)
    | Ai(text: string, toolCalls: seq<ToolCall>)
    | Tool(content: ToolContent, toolName: string, toolCallId: string)

  /** The graph state `{messages, steps}`. */
  datatype AgentState = AgentState(messages: seq<Message>, steps: int)

  /** What a node returns: messages to append and the new step count. */
  datatype Update = Update(messages: seq<Message>, steps: int)

  /** The result of `model.invoke`: an AI message, or an exception text. */
  datatype ModelOutcome = Responded(text: string, toolCalls: seq<ToolCall>) | ModelRaised(error: string)

  /** The result of a tool's `invoke` followed by `json.dumps`: the JSON
      text, or the text of the exception raised by either. */
  datatype ToolOutcome = Returned(json: string) | ToolRaised(error: string)

  /** The labels `should_continue` returns. */
  datatype Decision = ContinueToTools | ContinueToAgent | End

  datatype Node = AgentNode | ToolsNode | Finish

  const MaxSteps: int := 10

  /** `str(KeyError('id'))`, raised when a tool call has no "id" key. */
  const MissingIdError: string := "'id'"

  const UnknownCallId: string := "unknown"

  /** Applies a node's output to the state: `add_messages` appends, `steps`
      is overwritten. */
  function Apply(s: AgentState, u: Update): (r: AgentState)
    ensures s.messages <= r.messages && r.messages[|s.messages|..] == u.messages
    ensures r.steps == u.steps
  {
    AgentState(s.messages + u.messages, u.steps)
  }

  function Last(ms: seq<Message>): Message
    requires |ms| > 0
  {
    ms[|ms| - 1]
  }

  /** `hasattr(m, "tool_calls") and m.tool_calls`: only AI messages carry
      tool calls. */
  predicate HasToolCalls(m: Message)
  {
    m.Ai? && |m.toolCalls| > 0
  }

  /** The tool calls the tools node answers. */
  function CallsOf(m: Message): seq<ToolCall>
  {
    if m.Ai? then m.toolCalls else []
  }

  // ----- should_continue and the conditional edges -----

  /** `should_continue`: the step cap comes first, then tool calls on the
      last message, then a last message from a tool. The source reads
      `messages[-1]` only below the cap, which is all it asks of callers. */
  function ShouldContinue(s: AgentState): (d: Decision)
    requires s.steps >= MaxSteps || |s.messages| > 0
    ensures s.steps >= MaxSteps ==> d == End
    ensures s.steps < MaxSteps ==> (d == ContinueToTools <==> HasToolCalls(Last(s.messages)))
    ensures s.steps < MaxSteps ==> (d == ContinueToAgent <==> Last(s.messages).Tool?)
    ensures d == End <==> s.steps >= MaxSteps || (!Last(s.messages).Ai? && !Last(s.messages).Tool?)
                          || (Last(s.messages).Ai? && |Last(s.messages).toolCalls| == 0)
  {
    if s.steps >= MaxSteps then End
    else if HasToolCalls(Last(s.messages)) then ContinueToTools
    else if Last(s.messages).Tool? then ContinueToAgent
    else End
  }

  /** The edge map shared by both conditional edges. */
  function Next(d: Decision): (n: Node)
    ensures n == Finish <==> d == End
    ensures n == ToolsNode <==> d == ContinueToTools
    ensures n == AgentNode <==> d == ContinueToAgent
  {
    match d
    case ContinueToTools => ToolsNode
    case ContinueToAgent => AgentNode
    case End => Finish
  }

  // ----- call_model -----

  /** `any(isinstance(m, SystemMessage) for m in messages)`. */
  predicate HasSystemMessage(ms: seq<Message>)
  {
    exists i :: 0 <= i < |ms| && ms[i].System?
  }

  /** The local copy of the history sent to the model. */
  function ModelInput(s: AgentState, systemPrompt: string): (input: seq<Message>)
    ensures |s.messages| <= |input| <= |s.messages| + 1
    ensures input[|input| - |s.messages|..] == s.messages
  {
    if s.steps == 0 && !HasSystemMessage(s.messages) then [System(systemPrompt)] + s.messages
    else s.messages
  }

  /** The system prompt is put in front only on the first step and only when
      the history holds no system message; the history itself is sent
      unchanged, and on the first step the model always sees a system
      message. */
  lemma ModelInputSpec(s: AgentState, systemPrompt: string)
    ensures var input := ModelInput(s, systemPrompt);
      && |input| - |s.messages| in {0, 1}
      && input[|input| - |s.messages|..] == s.messages
      && (|input| == |s.messages| + 1 <==> s.steps == 0 && !HasSystemMessage(s.messages))
      && (|input| == |s.messages| + 1 ==> input[0] == System(systemPrompt))
      && (s.steps == 0 ==> HasSystemMessage(input))
  {
    var input := ModelInput(s, systemPrompt);
    if s.steps == 0 && !HasSystemMessage(s.messages) {
      assert input[0].System?;
    }
  }

  /** The single message `call_model` returns for a model outcome. */
  function ModelReply(o: ModelOutcome): (m: Message)
    ensures m.Ai? <==> o.Responded?
    ensures o.Responded? ==> m == Ai(o.text, o.toolCalls)
    ensures o.ModelRaised? ==> m == System("Error calling model: " + o.error)
  {
    match o
    case Responded(text, calls) => Ai(text, calls)
    case ModelRaised(e) => System("Error calling model: " + e)
  }

  /** What the agent node returns for state `s`: the model's reply to the
      prepared input, with the step count raised by one. */
  function ModelUpdate(llm: seq<Message> -> ModelOutcome, systemPrompt: string, s: AgentState): Update
  {
    Update([ModelReply(llm(ModelInput(s, systemPrompt)))], s.steps + 1)
  }

  /** `call_model`: copies the history, puts the system prompt in front when
      `ModelInput` says so, calls the model once and returns its reply alone
      with the step count raised by one, on success and on error alike. */
  method CallModel(llm: seq<Message> -> ModelOutcome, systemPrompt: string, s: AgentState)
    returns (u: Update)
    ensures u.steps == s.steps + 1
    ensures u.messages == [ModelReply(llm(ModelInput(s, systemPrompt)))]
    ensures u == ModelUpdate(llm, systemPrompt, s)
  {
    var messages := s.messages;
    var hasSystem := false;
    var i := 0;
    while i < |messages| && !hasSystem
      invariant 0 <= i <= |messages|
      invariant hasSystem <==> exists j :: 0 <= j < i && messages[j].System?
    {
      hasSystem := messages[i].System?;
      i := i + 1;
    }
    if s.steps == 0 && !hasSystem {
      messages := [System(systemPrompt)] + messages;
    }
    var outcome := llm(messages);
    match outcome {
      case Responded(text, calls) =>
        u := Update([Ai(text, calls)], s.steps + 1);
      case ModelRaised(e) =>
        u := Update([System("Error calling model: " + e)], s.steps + 1);
    }
  }

  // ----- call_tools -----

  function NotFoundError(name: string): string
  {
    "Tool '" + name + "' not found"
  }

  /** The one `ToolMessage` the tools node produces for a call. A missing
      "id" key makes the success and not-found paths raise, and the
      exception path then uses the id "unknown". */
  function ToolReply(registry: seq<string>, invoke: (string, Args) -> ToolOutcome, call: ToolCall): (r: Message)
    ensures r.Tool?
    ensures r.toolCallId == (if call.id.Some? then call.id.value else UnknownCallId)
    ensures r.content.Payload? <==> call.name in registry && invoke(call.name, call.args).Returned? && call.id.Some?
    ensures r.content.Payload? ==> r.toolName == call.name && r.content.json == invoke(call.name, call.args).json
    ensures r.content.ErrorContent? ==> r.toolName == "error"
    ensures call.name !in registry && call.id.Some? ==> r.content == ErrorContent(NotFoundError(call.name))
    ensures call.name in registry && invoke(call.name, call.args).ToolRaised? ==>
              r.content == ErrorContent(invoke(call.name, call.args).error)
    ensures call.id.None? && !(call.name in registry && invoke(call.name, call.args).ToolRaised?) ==>
              r.content == ErrorContent(MissingIdError)
  {
    if call.name in registry then
      match invoke(call.name, call.args)
      case ToolRaised(e) =>
        Tool(ErrorContent(e), "error", if call.id.Some? then call.id.value else UnknownCallId)
      case Returned(json) =>
        if call.id.Some? then Tool(Payload(json), call.name, call.id.value)
        else Tool(ErrorContent(MissingIdError), "error", UnknownCallId)
    else if call.id.Some? then Tool(ErrorContent(NotFoundError(call.name)), "error", call.id.value)
    else Tool(ErrorContent(MissingIdError), "error", UnknownCallId)
  }

  /** What the tools node returns for state `s`: the replies to the tool
      calls of the last message, in call order, and the step count kept. */
  function ToolsUpdate(registry: seq<string>, invoke: (string, Args) -> ToolOutcome, s: AgentState): Update
    requires |s.messages| > 0
  {
    var calls := CallsOf(Last(s.messages));
    Update(seq(|calls|, i requires 0 <= i < |calls| => ToolReply(registry, invoke, calls[i])), s.steps)
  }

  /** `call_tools`: one reply per tool call of the last message, in call
      order, and the step count left as it was. With no tool calls on the
      last message it returns no messages. */
  method CallTools(registry: seq<string>, invoke: (string, Args) -> ToolOutcome, s: AgentState)
    returns (u: Update)
    requires |s.messages| > 0
    ensures u.steps == s.steps
    ensures |u.messages| == |CallsOf(Last(s.messages))|
    ensures forall i :: 0 <= i < |u.messages| ==>
              u.messages[i] == ToolReply(registry, invoke, CallsOf(Last(s.messages))[i])
    ensures u == ToolsUpdate(registry, invoke, s)
  {
    var last := s.messages[|s.messages| - 1];
    if !HasToolCalls(last) {
      return Update([], s.steps);
    }
    var calls := last.toolCalls;
    var outputs: seq<Message> := [];
    for k := 0 to |calls|
      invariant |outputs| == k
      invariant forall i :: 0 <= i < k ==> outputs[i] == ToolReply(registry, invoke, calls[i])
    {
      var call := calls[k];
      var reply: Message;
      if call.name in registry {
        var result := invoke(call.name, call.args);
        match result {
          case ToolRaised(e) =>
            reply := Tool(ErrorContent(e), "error", if call.id.Some? then call.id.value else UnknownCallId);
          case Returned(json) =>
            if call.id.Some? {
              reply := Tool(Payload(json), call.name, call.id.value);
            } else {
              reply := Tool(ErrorContent(MissingIdError), "error", UnknownCallId);
            }
        }
      } else if call.id.Some? {
        reply := Tool(ErrorContent(NotFoundError(call.name)), "error", call.id.value);
      } else {
        reply := Tool(ErrorContent(MissingIdError), "error", UnknownCallId);
      }
      outputs := outputs + [reply];
    }
    u := Update(outputs, s.steps);
  }

  // ----- the compiled graph -----

  /** Termination measure of a run: every agent step uses up one of the
      remaining steps below the cap, and a tools step always hands over to
      the agent or ends. */
  function Rank(node: Node, steps: int): nat
  {
    var left := if steps < MaxSteps then MaxSteps - steps else 0;
    match node
    case Finish => 0
    case AgentNode => 2 * left + 1
    case ToolsNode => 2 * left + 2
  }

  /** The most agent steps a run from `steps` can take. */
  function AgentBudget(steps: int): int
  {
    if steps < MaxSteps then MaxSteps - steps else 1
  }

  /** The most agent steps a run entering the tools node at `steps` can
      still take. */
  function StepsLeft(steps: int): int
  {
    if steps < MaxSteps then MaxSteps - steps else 0
  }

  /** The state after one superstep of `node`: its update merged in. */
  function Step(registry: seq<string>, invoke: (string, Args) -> ToolOutcome,
                llm: seq<Message> -> ModelOutcome, systemPrompt: string, node: Node, s: AgentState): (r: AgentState)
    requires node != Finish
    requires node == ToolsNode ==> |s.messages| > 0
    ensures |r.messages| > 0 && s.messages <= r.messages
  {
    if node == AgentNode then Apply(s, ModelUpdate(llm, systemPrompt, s))
    else Apply(s, ToolsUpdate(registry, invoke, s))
  }

  /** What a run returns: the final state and how often each node ran. */
  datatype RunResult = RunResult(final: AgentState, agentCalls: nat, toolsCalls: nat)

  /** The compiled graph as a specification: run `node` on `s`, follow the
      edge `should_continue` picks, and stop at END. The tools node is only
      entered after the model asked for tools. */
  function RunFrom(registry: seq<string>, invoke: (string, Args) -> ToolOutcome,
                   llm: seq<Message> -> ModelOutcome, systemPrompt: string, node: Node, s: AgentState): RunResult
    requires node == ToolsNode ==> |s.messages| > 0 && HasToolCalls(Last(s.messages))
    decreases Rank(node, s.steps)
  {
    if node == Finish then RunResult(s, 0, 0)
    else
      var next := Step(registry, invoke, llm, systemPrompt, node, s);
      assert node == ToolsNode ==> Last(next.messages).Tool?;
      assert node == AgentNode ==> !Last(next.messages).Tool?;
      var rest := RunFrom(registry, invoke, llm, systemPrompt, Next(ShouldContinue(next)), next);
      if node == AgentNode then RunResult(rest.final, rest.agentCalls + 1, rest.toolsCalls)
      else RunResult(rest.final, rest.agentCalls, rest.toolsCalls + 1)
  }

  /** The node that ran decides what the history ends with: the model's
      reply after the agent node, a tool message after the tools node. */
  lemma StepLast(registry: seq<string>, invoke: (string, Args) -> ToolOutcome,
                 llm: seq<Message> -> ModelOutcome, systemPrompt: string, node: Node, s: AgentState)
    requires node != Finish
    requires node == ToolsNode ==> |s.messages| > 0 && HasToolCalls(Last(s.messages))
    ensures var next := Step(registry, invoke, llm, systemPrompt, node, s);
      && (node == AgentNode ==> next.steps == s.steps + 1 && !Last(next.messages).Tool?)
      && (node == ToolsNode ==> next.steps == s.steps && Last(next.messages).Tool?)
  {
    if node == ToolsNode {
      var u := ToolsUpdate(registry, invoke, s);
      assert Last(u.messages).Tool?;
    }
  }

  /** After a superstep the edge leads to a node of lower rank, and to the
      tools node only when the model asked for tools. */
  lemma StepEdge(registry: seq<string>, invoke: (string, Args) -> ToolOutcome,
                 llm: seq<Message> -> ModelOutcome, systemPrompt: string, node: Node, s: AgentState)
    requires node != Finish
    requires node == ToolsNode ==> |s.messages| > 0 && HasToolCalls(Last(s.messages))
    ensures var next := Step(registry, invoke, llm, systemPrompt, node, s);
      && (Next(ShouldContinue(next)) == ToolsNode ==> HasToolCalls(Last(next.messages)))
      && Rank(Next(ShouldContinue(next)), next.steps) < Rank(node, s.steps)
  {
    StepLast(registry, invoke, llm, systemPrompt, node, s);
    var next := Step(registry, invoke, llm, systemPrompt, node, s);
    var d := ShouldContinue(next);
    if node == AgentNode {
      assert d != ContinueToAgent;
    } else {
      assert d != ContinueToTools;
    }
  }

  /** One superstep of `RunFrom`: the run from `node` is the run from the
      node the edge picks, with `node` counted once more. */
  lemma RunFromUnfold(registry: seq<string>, invoke: (string, Args) -> ToolOutcome,
                      llm: seq<Message> -> ModelOutcome, systemPrompt: string, node: Node, s: AgentState)
    requires node != Finish
    requires node == ToolsNode ==> |s.messages| > 0 && HasToolCalls(Last(s.messages))
    ensures var next := Step(registry, invoke, llm, systemPrompt, node, s);
      var rest := RunFrom(registry, invoke, llm, systemPrompt, Next(ShouldContinue(next)), next);
      RunFrom(registry, invoke, llm, systemPrompt, node, s) ==
        RunResult(rest.final, rest.agentCalls + (if node == AgentNode then 1 else 0),
                  rest.toolsCalls + (if node == ToolsNode then 1 else 0))
  {
    StepEdge(registry, invoke, llm, systemPrompt, node, s);
  }

  /** The bookkeeping of `Run`'s loop: the whole run from the entry point
      is the `agentCalls` and `toolsCalls` already made followed by the run
      from `node` on `s`. */
  predicate Accounted(registry: seq<string>, invoke: (string, Args) -> ToolOutcome,
                      llm: seq<Message> -> ModelOutcome, systemPrompt: string, initial: AgentState,
                      node: Node, s: AgentState, agentCalls: nat, toolsCalls: nat)
  {
    && (node == ToolsNode ==> |s.messages| > 0 && HasToolCalls(Last(s.messages)))
    && var rest := RunFrom(registry, invoke, llm, systemPrompt, node, s);
    RunFrom(registry, invoke, llm, systemPrompt, AgentNode, initial) ==
      RunResult(rest.final, agentCalls + rest.agentCalls, toolsCalls + rest.toolsCalls)
  }

  /** One superstep keeps the bookkeeping, counting the node that ran, and
      lowers the rank. */
  lemma RunLoopStep(registry: seq<string>, invoke: (string, Args) -> ToolOutcome,
                    llm: seq<Message> -> ModelOutcome, systemPrompt: string, initial: AgentState,
                    node: Node, prev: AgentState, state: AgentState,
                    agentCalls: nat, toolsCalls: nat, agentCalls': nat, toolsCalls': nat)
    requires node != Finish
    requires Accounted(registry, invoke, llm, systemPrompt, initial, node, prev, agentCalls, toolsCalls)
    requires state == Step(registry, invoke, llm, systemPrompt, node, prev)
    requires agentCalls' == agentCalls + (if node == AgentNode then 1 else 0)
    requires toolsCalls' == toolsCalls + (if node == ToolsNode then 1 else 0)
    ensures Rank(Next(ShouldContinue(state)), state.steps) < Rank(node, prev.steps)
    ensures Accounted(registry, invoke, llm, systemPrompt, initial, Next(ShouldContinue(state)), state,
                      agentCalls', toolsCalls')
  {
    StepEdge(registry, invoke, llm, systemPrompt, node, prev);
    RunFromUnfold(registry, invoke, llm, systemPrompt, node, prev);
  }

  /** What every run promises, whatever the model and the tools answer: it
      ends where `should_continue` says "end", the history only grows, only
      agent steps raise `steps`, every tools step follows an agent step, and
      the agent runs at most as often as the step cap allows — ten times
      from a fresh state, and once when the cap is already reached. */
  lemma {:induction false} RunFromBounds(registry: seq<string>, invoke: (string, Args) -> ToolOutcome,
                                         llm: seq<Message> -> ModelOutcome, systemPrompt: string,
                                         node: Node, s: AgentState)
    requires node == ToolsNode ==> |s.messages| > 0 && HasToolCalls(Last(s.messages))
    requires node == Finish ==> |s.messages| > 0 && ShouldContinue(s) == End
    decreases Rank(node, s.steps)
    ensures var r := RunFrom(registry, invoke, llm, systemPrompt, node, s);
      && |r.final.messages| > 0 && ShouldContinue(r.final) == End
      && s.messages <= r.final.messages
      && r.final.steps == s.steps + r.agentCalls
      && (node == AgentNode ==> 1 <= r.agentCalls <= AgentBudget(s.steps) && r.toolsCalls <= r.agentCalls)
      && (node == ToolsNode ==> r.agentCalls <= StepsLeft(s.steps) && r.toolsCalls <= r.agentCalls + 1)
  {
    if node != Finish {
      StepLast(registry, invoke, llm, systemPrompt, node, s);
      var next := Step(registry, invoke, llm, systemPrompt, node, s);
      RunFromBounds(registry, invoke, llm, systemPrompt, Next(ShouldContinue(next)), next);
    }
  }

  /** When the loop of `Run` reaches END, its state and counts are the
      result of `RunFrom`, and so `RunFromBounds` applies to them. */
  lemma RunResultBounds(registry: seq<string>, invoke: (string, Args) -> ToolOutcome,
                        llm: seq<Message> -> ModelOutcome, systemPrompt: string, initial: AgentState,
                        final: AgentState, agentCalls: nat, toolsCalls: nat)
    requires Accounted(registry, invoke, llm, systemPrompt, initial, Finish, final, agentCalls, toolsCalls)
    ensures RunFrom(registry, invoke, llm, systemPrompt, AgentNode, initial) ==
              RunResult(final, agentCalls, toolsCalls)
    ensures |final.messages| > 0 && ShouldContinue(final) == End
    ensures initial.messages <= final.messages
    ensures final.steps == initial.steps + agentCalls
    ensures 1 <= agentCalls <= AgentBudget(initial.steps)
    ensures toolsCalls <= agentCalls
  {
    assert RunFrom(registry, invoke, llm, systemPrompt, Finish, final) == RunResult(final, 0, 0);
    RunFromBounds(registry, invoke, llm, systemPrompt, AgentNode, initial);
  }

  /** The first message a run adds is the model's reply to the prepared
      history: nothing reaches the history before the agent node ran. */
  lemma RunStartsWithModelReply(registry: seq<string>, invoke: (string, Args) -> ToolOutcome,
                                llm: seq<Message> -> ModelOutcome, systemPrompt: string, s: AgentState)
    ensures var r := RunFrom(registry, invoke, llm, systemPrompt, AgentNode, s);
      |s.messages| < |r.final.messages| &&
      r.final.messages[|s.messages|] == ModelReply(llm(ModelInput(s, systemPrompt)))
  {
    var next := Step(registry, invoke, llm, systemPrompt, AgentNode, s);
    assert !Last(next.messages).Tool?;
    RunFromBounds(registry, invoke, llm, systemPrompt, Next(ShouldContinue(next)), next);
    assert next.messages[|s.messages|] == ModelReply(llm(ModelInput(s, systemPrompt)));
  }

  /** A model that answers without tool calls ends the run at once: one
      agent step, no tools step, and that answer last. */
  lemma DirectAnswerEndsRun(registry: seq<string>, invoke: (string, Args) -> ToolOutcome,
                            llm: seq<Message> -> ModelOutcome, systemPrompt: string, s: AgentState, text: string)
    requires llm(ModelInput(s, systemPrompt)) == Responded(text, [])
    ensures RunFrom(registry, invoke, llm, systemPrompt, AgentNode, s) ==
              RunResult(AgentState(s.messages + [Ai(text, [])], s.steps + 1), 1, 0)
  {
    var next := Step(registry, invoke, llm, systemPrompt, AgentNode, s);
    assert Last(next.messages) == Ai(text, []);
  }

  /** One superstep of the compiled graph: runs `node` and merges its
      output into the state. */
  method Superstep(registry: seq<string>, invoke: (string, Args) -> ToolOutcome,
                   llm: seq<Message> -> ModelOutcome, systemPrompt: string, node: Node, s: AgentState)
    returns (next: AgentState)
    requires node != Finish
    requires node == ToolsNode ==> |s.messages| > 0
    ensures next == Step(registry, invoke, llm, systemPrompt, node, s)
  {
    var u: Update;
    if node == AgentNode {
      u := CallModel(llm, systemPrompt, s);
    } else {
      u := CallTools(registry, invoke, s);
    }
    next := Apply(s, u);
  }

  /** Runs the graph from its entry point "agent" until an edge leads to END,
      one superstep per iteration; the result is the one `RunFrom` gives. */
  method Run(registry: seq<string>, invoke: (string, Args) -> ToolOutcome,
             llm: seq<Message> -> ModelOutcome, systemPrompt: string, initial: AgentState)
    returns (final: AgentState, agentCalls: nat, toolsCalls: nat)
    ensures RunFrom(registry, invoke, llm, systemPrompt, AgentNode, initial) ==
              RunResult(final, agentCalls, toolsCalls)
    ensures |final.messages| > 0 && ShouldContinue(final) == End
    ensures initial.messages <= final.messages
    ensures final.steps == initial.steps + agentCalls
    ensures 1 <= agentCalls <= AgentBudget(initial.steps)
    ensures toolsCalls <= agentCalls
  {
    var state := initial;
    var node := AgentNode;
    agentCalls, toolsCalls := 0, 0;
    while node != Finish
      invariant Accounted(registry, invoke, llm, systemPrompt, initial, node, state, agentCalls, toolsCalls)
      decreases Rank(node, state.steps)
    {
      var prev, agentBefore, toolsBefore := state, agentCalls, toolsCalls;
      state := Superstep(registry, invoke, llm, systemPrompt, node, state);
      if node == AgentNode {
        agentCalls := agentCalls + 1;
      } else {
        toolsCalls := toolsCalls + 1;
      }
      RunLoopStep(registry, invoke, llm, systemPrompt, initial, node, prev, state,
                  agentBefore, toolsBefore, agentCalls, toolsCalls);
      node := Next(ShouldContinue(state));
    }
    final := state;
    RunResultBounds(registry, invoke, llm, systemPrompt, initial, final, agentCalls, toolsCalls);
  }

  // ----- run_agent -----

  /** The state `run_agent` starts from: the query alone, no steps yet. */
  function InitialState(query: string): (s: AgentState)
    ensures AgentBudget(s.steps) == MaxSteps
  {
    AgentState([Human(query)], 0)
  }

  /** `[m for m in messages if m.type == "ai"]`. */
  function AssistantMessages(ms: seq<Message>): (ai: seq<Message>)
    ensures |ai| <= |ms|
    ensures forall i :: 0 <= i < |ai| ==> ai[i].Ai?
  {
    if ms == [] then []
    else AssistantMessages(ms[..|ms| - 1]) + (if Last(ms).Ai? then [Last(ms)] else [])
  }

  /** The answer `run_agent` reports: the last AI message, if any. */
  function FinalAnswer(ms: seq<Message>): (answer: Option<Message>)
    ensures answer.Some? ==> answer.value.Ai?
    ensures |ms| > 0 && Last(ms).Ai? ==> answer == Some(Last(ms))
  {
    var ai := AssistantMessages(ms);
    if ai == [] then None else Some(ai[|ai| - 1])
  }

  /** There is no AI message to report exactly when the history has none. */
  lemma {:induction false} NoAssistantMessages(ms: seq<Message>)
    ensures AssistantMessages(ms) == [] <==> forall i :: 0 <= i < |ms| ==> !ms[i].Ai?
  {
    if ms != [] {
      var init := ms[..|ms| - 1];
      NoAssistantMessages(init);
      assert forall i :: 0 <= i < |init| ==> init[i] == ms[i];
    }
  }

  /** The position of the reported answer: an AI message after which the
      history holds no other. */
  lemma {:induction false} LastAiPosition(ms: seq<Message>) returns (i: int)
    requires AssistantMessages(ms) != []
    ensures 0 <= i < |ms| && ms[i].Ai?
    ensures ms[i] == Last(AssistantMessages(ms))
    ensures forall j :: i < j < |ms| ==> !ms[j].Ai?
  {
    var init := ms[..|ms| - 1];
    if Last(ms).Ai? {
      i := |ms| - 1;
    } else {
      assert AssistantMessages(ms) == AssistantMessages(init);
      i := LastAiPosition(init);
      assert init[i] == ms[i];
    }
  }

  /** The reported answer is the message at the last AI position of the
      history, and there is none exactly when no message is from the AI. */
  lemma FinalAnswerIsLastAi(ms: seq<Message>)
    ensures FinalAnswer(ms).None? <==> forall i :: 0 <= i < |ms| ==> !ms[i].Ai?
    ensures FinalAnswer(ms).Some? ==>
              exists i :: 0 <= i < |ms| && ms[i] == FinalAnswer(ms).value && ms[i].Ai? &&
                          forall j :: i < j < |ms| ==> !ms[j].Ai?
  {
    NoAssistantMessages(ms);
    if FinalAnswer(ms).Some? {
      var i := LastAiPosition(ms);
    }
  }

  /** LangGraph's default `recursion_limit`: a run that takes more
      supersteps than this raises `GraphRecursionError`. */
  const RecursionLimit: int := 25

  /** `run_agent`: runs the graph from the query alone and returns the
      final state with the answer it reports, the last AI message of that
      state. A fresh run calls the model at most ten times and the tools
      node at most as often, so it stays below the recursion limit whatever
      the model and the tools answer. */
  method RunAgent(registry: seq<string>, invoke: (string, Args) -> ToolOutcome,
                  llm: seq<Message> -> ModelOutcome, systemPrompt: string, query: string)
    returns (final: AgentState, answer: Option<Message>, agentCalls: nat, toolsCalls: nat)
    ensures RunFrom(registry, invoke, llm, systemPrompt, AgentNode, InitialState(query)) ==
              RunResult(final, agentCalls, toolsCalls)
    ensures [Human(query)] <= final.messages && ShouldContinue(final) == End
    ensures final.steps == agentCalls
    ensures 1 <= agentCalls <= MaxSteps && toolsCalls <= agentCalls
    ensures agentCalls + toolsCalls < RecursionLimit
    ensures answer == FinalAnswer(final.messages)
    ensures answer.Some? ==> answer.value.Ai?
  {
    final, agentCalls, toolsCalls := Run(registry, invoke, llm, systemPrompt, InitialState(query));
    answer := FinalAnswer(final.messages);
    FinalAnswerIsLastAi(final.messages);
  }
}
