// The per-conversation execution state and the runtime chatbot module: tool lookup, prompt
// assembly, action execution, the LLM step of `run` and the output parser.
module Runtime {
  import opened Wrappers
  import opened Strings
  import opened Values
  import opened Dicts
  import opened Memories
  import opened Events
  import Prompts
  import Common
  import Utils
  import Spec

  // ----- Memory buckets -----

  /** The memory of a conversation: a bucket per module name and memory id. */
  type Buckets = map<string, map<string, Memory>>

  predicate HasBucket(mem: Buckets, name: string, id: string)
  {
    name in mem && id in mem[name]
  }

  /** What a bucket holds; one not created yet reads as empty. */
  function Bucket(mem: Buckets, name: string, id: string): Memory
  {
    if HasBucket(mem, name, id) then mem[name][id] else EmptyMemory
  }

  /** `get_or_create_memory` on the buckets: an empty bucket is created on first touch. */
  function Touch(mem: Buckets, name: string, id: string): (r: Buckets)
    ensures HasBucket(r, name, id)
  {
    var inner := if name in mem then mem[name] else map[];
    if id in inner then mem else mem[name := inner[id := EmptyMemory]]
  }

  /** The buckets with one bucket set. */
  function Store(mem: Buckets, name: string, id: string, m: Memory): (r: Buckets)
    ensures HasBucket(r, name, id)
  {
    var inner := if name in mem then mem[name] else map[];
    mem[name := inner[id := m]]
  }

  /**
   * Touching creates exactly the touched bucket, empty, changes what no bucket holds, and a second
   * touch changes nothing.
   */
  lemma TouchCreatesOnce(mem: Buckets, name: string, id: string, name': string, id': string)
    ensures HasBucket(Touch(mem, name, id), name', id') <==> HasBucket(mem, name', id') || (name' == name && id' == id)
    ensures Bucket(Touch(mem, name, id), name', id') == Bucket(mem, name', id')
    ensures Touch(Touch(mem, name, id), name, id) == Touch(mem, name, id)
  {
  }

  /** Setting a bucket after touching it is setting it. */
  lemma StoreAfterTouch(mem: Buckets, name: string, id: string, m: Memory)
    ensures Store(Touch(mem, name, id), name, id, m) == Store(mem, name, id, m)
  {
    var inner := if name in mem then mem[name] else map[];
    if id !in inner {
      assert inner[id := EmptyMemory][id := m] == inner[id := m];
    }
  }

  /** Setting a bucket changes that bucket only. */
  lemma StoreOnly(mem: Buckets, name: string, id: string, m: Memory, name': string, id': string)
    ensures Bucket(Store(mem, name, id, m), name', id') == if name' == name && id' == id then m else Bucket(mem, name', id')
    ensures HasBucket(Store(mem, name, id, m), name', id') <==> HasBucket(mem, name', id') || (name' == name && id' == id)
  {
  }

  // ----- The event stack -----

  /** Popping `n` events: the popped events, newest first, and the stack that remains. */
  function PopN(stack: seq<Event>, n: nat): (seq<Event>, seq<Event>)
    requires n <= |stack|
  {
    if n == 0 then ([], stack)
    else
      var rest := PopN(stack[..|stack| - 1], n - 1);
      ([stack[|stack| - 1]] + rest.0, rest.1)
  }

  /** The events in reverse order: the last one first. */
  function Reversed(es: seq<Event>): (r: seq<Event>)
    ensures |r| == |es| && forall i :: 0 <= i < |es| ==> r[i] == es[|es| - 1 - i]
  {
    if es == [] then [] else [es[|es| - 1]] + Reversed(es[..|es| - 1])
  }

  /** Last in, first out: events pushed onto a stack are popped back in reverse order. */
  lemma {:induction false} LastInFirstOut(stack: seq<Event>, pushed: seq<Event>)
    ensures PopN(stack + pushed, |pushed|) == (Reversed(pushed), stack)
    decreases |pushed|
  {
    if pushed != [] {
      var s := stack + pushed;
      var front := pushed[..|pushed| - 1];
      assert s[..|s| - 1] == stack + front;
      assert s[|s| - 1] == pushed[|pushed| - 1];
      LastInFirstOut(stack, front);
      calc {
        PopN(s, |pushed|);
        ([s[|s| - 1]] + PopN(s[..|s| - 1], |front|).0, PopN(s[..|s| - 1], |front|).1);
        ([pushed[|pushed| - 1]] + Reversed(front), stack);
        (Reversed(pushed), stack);
      }
    } else {
      assert stack + pushed == stack;
    }
  }

  /**
   * `ExecutionState`. `V` is the vertex type of `current` and `N` what listeners are notified of.
   * Listeners are named by number and a notification is recorded as a (listener, action) pair; the
   * channel is recorded as the list of its outputs. Every runtime module is created with the same
   * default `id` (the `uuid4()` default is evaluated once), so `data` is a single shared slot.
   */
  class ExecutionState<V, N> {
    var current: V
    var eventStack: seq<Event>
    var memory: Buckets
    var data: Option<Dict<Value>>
    var listeners: seq<nat>
    var notified: seq<(nat, N)>
    var outputs: seq<(Value, string)>

    constructor(initial: V)
      ensures current == initial && eventStack == [] && memory == map[] && data.None?
      ensures listeners == [] && notified == [] && outputs == []
    {
      current := initial;
      eventStack := [];
      memory := map[];
      data := None;
      listeners := [];
      notified := [];
      outputs := [];
    }

    method AddActionListener(listener: nat)
      modifies this
      ensures listeners == old(listeners) + [listener]
      ensures current == old(current) && eventStack == old(eventStack) && memory == old(memory)
      ensures data == old(data) && notified == old(notified) && outputs == old(outputs)
    {
      listeners := listeners + [listener];
    }

    /** `notify_action_listeners`: each listener once, in registration order. */
    method NotifyActionListeners(action: N)
      modifies this
      ensures notified == old(notified) + Notifications(listeners, action)
      ensures current == old(current) && eventStack == old(eventStack) && memory == old(memory)
      ensures data == old(data) && listeners == old(listeners) && outputs == old(outputs)
    {
      var i := 0;
      while i < |listeners|
        invariant i <= |listeners|
        invariant notified == old(notified) + Notifications(listeners[..i], action)
        invariant current == old(current) && eventStack == old(eventStack) && memory == old(memory)
        invariant data == old(data) && listeners == old(listeners) && outputs == old(outputs)
      {
        assert listeners[..i + 1][..i] == listeners[..i];
        notified := notified + [(listeners[i], action)];
        i := i + 1;
      }
      assert listeners[..i] == listeners;
    }

    /** `update_memory`: the piece is merged into the bucket with the `add_memory` rule. */
    method UpdateMemory(name: string, piece: Memory, id: string)
      modifies this
      ensures memory == Store(old(memory), name, id, Merge(Bucket(old(memory), name, id), piece))
      ensures current == old(current) && eventStack == old(eventStack) && data == old(data)
      ensures listeners == old(listeners) && notified == old(notified) && outputs == old(outputs)
    {
      var m := GetOrCreateMemory(name, id);
      StoreAfterTouch(old(memory), name, id, Merge(m, piece));
      memory := Store(memory, name, id, Merge(m, piece));
    }

    /** `get_or_create_memory` (and `get_memory`, which is the same). */
    method GetOrCreateMemory(name: string, id: string) returns (m: Memory)
      modifies this
      ensures memory == Touch(old(memory), name, id) && m == Bucket(old(memory), name, id)
      ensures current == old(current) && eventStack == old(eventStack) && data == old(data)
      ensures listeners == old(listeners) && notified == old(notified) && outputs == old(outputs)
    {
      if name !in memory {
        memory := memory[name := map[]];
      }
      if id !in memory[name] {
        memory := memory[name := memory[name][id := EmptyMemory]];
      }
      m := memory[name][id];
    }

    /**
     * `copy_memory(from, to, id, filter)`: the `to` bucket takes the filtered messages of the
     * `from` bucket, both created when missing.
     */
    method CopyMemory(from: string, to: string, id: string, filter: Option<set<MessageKind>>)
      modifies this
      ensures memory == Store(Touch(Touch(old(memory), from, id), to, id), to, id,
                              CopyFrom(Bucket(old(memory), to, id), Bucket(old(memory), from, id), filter))
      ensures current == old(current) && eventStack == old(eventStack) && data == old(data)
      ensures listeners == old(listeners) && notified == old(notified) && outputs == old(outputs)
    {
      var source := GetOrCreateMemory(from, id);
      var target := GetOrCreateMemory(to, id);
      assert target == Bucket(old(memory), to, id);
      memory := Store(memory, to, id, CopyFrom(target, source, filter));
    }

    /** `pop_event`; popping an empty stack is Python's `IndexError`. */
    method PopEvent() returns (r: Result<Event>)
      modifies this
      ensures old(eventStack) == [] ==> r.Err? && eventStack == []
      ensures old(eventStack) != [] ==>
                r == Ok(old(eventStack)[|old(eventStack)| - 1]) && eventStack == old(eventStack)[..|old(eventStack)| - 1]
      ensures current == old(current) && memory == old(memory) && data == old(data)
      ensures listeners == old(listeners) && notified == old(notified) && outputs == old(outputs)
    {
      if eventStack == [] {
        return Err(IndexError("pop from empty list"));
      }
      r := Ok(eventStack[|eventStack| - 1]);
      eventStack := eventStack[..|eventStack| - 1];
    }

    predicate MoreEvents()
      reads this
    {
      |eventStack| > 0
    }

    method PushEvent(e: Event)
      modifies this
      ensures eventStack == old(eventStack) + [e]
      ensures current == old(current) && memory == old(memory) && data == old(data)
      ensures listeners == old(listeners) && notified == old(notified) && outputs == old(outputs)
    {
      eventStack := eventStack + [e];
    }

    /** `set_data`: every module writes the same slot. */
    method SetData(d: Dict<Value>)
      modifies this
      ensures data == Some(d)
      ensures current == old(current) && eventStack == old(eventStack) && memory == old(memory)
      ensures listeners == old(listeners) && notified == old(notified) && outputs == old(outputs)
    {
      data := Some(d);
    }

    /** `channel.output(message, who)`. */
    method Output(message: Value, who: string)
      modifies this
      ensures outputs == old(outputs) + [(message, who)]
      ensures current == old(current) && eventStack == old(eventStack) && memory == old(memory)
      ensures data == old(data) && listeners == old(listeners) && notified == old(notified)
    {
      outputs := outputs + [(message, who)];
    }
  }

  /** The calls `notify_action_listeners` makes: one per listener, in order. */
  function Notifications<N>(listeners: seq<nat>, action: N): (r: seq<(nat, N)>)
    ensures |r| == |listeners|
    ensures forall i :: 0 <= i < |listeners| ==> r[i] == (listeners[i], action)
  {
    if listeners == [] then []
    else Notifications(listeners[..|listeners| - 1], action) + [(listeners[|listeners| - 1], action)]
  }

  // ----- Runtime modules -----

  /** The runtime class the generator picks for a module. */
  datatype RuntimeKind =
    | MenuRuntime | DataGatheringRuntime | QuestionAnsweringRuntime | SequenceRuntime | ActionRuntime | OpenEndedRuntime

  /**
   * `RuntimeChatbotModule`. `tools` is the tool list the generator passes; data-gathering and
   * question-answering modules also add themselves as their last tool (`ToolList`).
   */
  datatype RuntimeModule = RuntimeModule(
    kind: RuntimeKind,
    specModule: Spec.Module,
    presentationPrompt: string,
    taskPrompt: string,
    activationPrompt: Option<string>,
    tools: seq<RuntimeModule>)

  const AIPrefix := "AI"

  function Name(rm: RuntimeModule): string { rm.specModule.name }

  predicate AddsItself(k: RuntimeKind) { k == DataGatheringRuntime || k == QuestionAnsweringRuntime }

  /** `self.tools` after construction. */
  function ToolList(rm: RuntimeModule): (r: seq<RuntimeModule>)
    ensures AddsItself(rm.kind) ==> r == rm.tools + [rm]
    ensures !AddsItself(rm.kind) ==> r == rm.tools
  {
    if AddsItself(rm.kind) then rm.tools + [rm] else rm.tools
  }

  /** The system prompt text a module starts from: its presentation followed by its task. */
  function PromptOf(rm: RuntimeModule): string { rm.presentationPrompt + rm.taskPrompt }

  /** `get_tool_names`. */
  function ToolNames(rm: RuntimeModule): string
  {
    Join(", ", NamesOf(ToolList(rm)))
  }

  /** The tool names list every tool's name; no tools give an empty list, one tool its bare name. */
  lemma ToolNamesListsEach(rm: RuntimeModule)
    ensures ToolList(rm) == [] ==> ToolNames(rm) == ""
    ensures |ToolList(rm)| == 1 ==> ToolNames(rm) == Name(ToolList(rm)[0])
    ensures forall i :: 0 <= i < |ToolList(rm)| ==> Contains(ToolNames(rm), Name(ToolList(rm)[i]))
  {
    forall i | 0 <= i < |ToolList(rm)| ensures Contains(ToolNames(rm), Name(ToolList(rm)[i])) {
      JoinContains(", ", NamesOf(ToolList(rm)), i);
    }
  }

  function NamesOf(ts: seq<RuntimeModule>): (r: seq<string>)
    ensures |r| == |ts| && forall i :: 0 <= i < |ts| ==> r[i] == Name(ts[i])
  {
    if ts == [] then [] else NamesOf(ts[..|ts| - 1]) + [Name(ts[|ts| - 1])]
  }

  /** One entry of the tools prompt. */
  function ActivationLine(t: RuntimeModule): string
    requires t.activationPrompt.Some?
  {
    "> " + Name(t) + ": " + t.activationPrompt.value
  }

  /** The entries of the tools that have an activation prompt, in tool order. */
  function Activations(ts: seq<RuntimeModule>): seq<string>
  {
    if ts == [] then []
    else
      var last := ts[|ts| - 1];
      Activations(ts[..|ts| - 1]) + if last.activationPrompt.Some? then [ActivationLine(last)] else []
  }

  /** `get_tools_prompt`. */
  function ToolsPrompt(rm: RuntimeModule): string
  {
    var entries := Activations(ToolList(rm));
    if entries == [] then "" else "Tools:\n" + Join("\n\n", entries)
  }

  lemma {:induction false} ActivationsEmpty(ts: seq<RuntimeModule>)
    ensures Activations(ts) == [] <==> forall i :: 0 <= i < |ts| ==> ts[i].activationPrompt.None?
  {
    if ts != [] {
      var front := ts[..|ts| - 1];
      ActivationsEmpty(front);
      assert forall i :: 0 <= i < |front| ==> front[i] == ts[i];
    }
  }

  /** A tool with an activation prompt has its entry among the activations. */
  lemma {:induction false} ActivationListed(ts: seq<RuntimeModule>, i: nat) returns (j: nat)
    requires i < |ts| && ts[i].activationPrompt.Some?
    ensures j < |Activations(ts)| && Activations(ts)[j] == ActivationLine(ts[i])
  {
    var front := ts[..|ts| - 1];
    if i == |ts| - 1 {
      j := |Activations(front)|;
    } else {
      assert front[i] == ts[i];
      j := ActivationListed(front, i);
    }
  }

  /** The tools prompt is empty exactly when no tool has an activation prompt. */
  lemma ToolsPromptEmpty(rm: RuntimeModule)
    ensures ToolsPrompt(rm) == "" <==> forall i :: 0 <= i < |ToolList(rm)| ==> ToolList(rm)[i].activationPrompt.None?
  {
    ActivationsEmpty(ToolList(rm));
  }

  /** Otherwise it is `Tools:` followed by a `> name: prompt` entry for every such tool. */
  lemma ToolsPromptEntries(rm: RuntimeModule, i: nat)
    requires i < |ToolList(rm)| && ToolList(rm)[i].activationPrompt.Some?
    ensures StartsWith(ToolsPrompt(rm), "Tools:\n")
    ensures Contains(ToolsPrompt(rm), ActivationLine(ToolList(rm)[i]))
  {
    var j := ActivationListed(ToolList(rm), i);
    var entries := Activations(ToolList(rm));
    JoinInContext("Tools:\n", "\n\n", entries, "", j);
    assert "Tools:\n" + Join("\n\n", entries) + "" == ToolsPrompt(rm);
  }

  /** `find_tool_by_name`: the first tool with that name, else `ValueError`. */
  function FindToolByName(ts: seq<RuntimeModule>, name: string): (r: Result<RuntimeModule>)
    ensures r.Err? ==> r.error == ValueError("Unknown tool " + name)
  {
    if ts == [] then Err(ValueError("Unknown tool " + name))
    else if Name(ts[0]) == name then Ok(ts[0])
    else FindToolByName(ts[1..], name)
  }

  /** The lookup fails iff no tool has the name, and finds the first one that has it. */
  lemma {:induction false} FindToolByNameFirst(ts: seq<RuntimeModule>, name: string)
    ensures FindToolByName(ts, name).Err? <==> forall i :: 0 <= i < |ts| ==> Name(ts[i]) != name
    ensures FindToolByName(ts, name).Ok? ==>
              exists i :: 0 <= i < |ts| && ts[i] == FindToolByName(ts, name).value && Name(ts[i]) == name
                          && forall j :: 0 <= j < i ==> Name(ts[j]) != name
  {
    if ts != [] && Name(ts[0]) != name {
      FindToolByNameFirst(ts[1..], name);
      forall i | 0 <= i < |ts| - 1 ensures ts[1..][i] == ts[i + 1] { }
      if FindToolByName(ts, name).Ok? {
        var i :| 0 <= i < |ts[1..]| && ts[1..][i] == FindToolByName(ts, name).value && Name(ts[1..][i]) == name
                 && forall j :: 0 <= j < i ==> Name(ts[1..][j]) != name;
        assert ts[i + 1] == FindToolByName(ts, name).value;
        forall j | 0 <= j < i + 1 ensures Name(ts[j]) != name {
          if j > 0 { assert ts[j] == ts[1..][j - 1]; }
        }
      }
    }
  }

  // ----- Collaborators outside the model -----

  /** Which format instructions close the system template, with the values they are formatted with. */
  datatype Instructions = ToolFormat(toolNames: string, aiPrefix: string) | NoToolFormat(aiPrefix: string)

  /** The system template of `run`: the module prompt, the tools prompt and the format instructions. */
  datatype SystemTemplate = SystemTemplate(prompt: string, toolsPrompt: string, instructions: Instructions)

  /**
   * What `run` hands the LLM chain: the system template, the human prompt with the sections it
   * disables, the substitutions for both and the stop sequences. `SystemText` and `HumanText` are
   * the two template texts.
   */
  datatype LLMRequest = LLMRequest(
    system: SystemTemplate, human: Prompts.Prompt, disabled: seq<string>, substitutions: Dict<string>, stop: seq<string>)

  /** What the output parser recognises: a tool call or a final answer. */
  datatype AgentOutput = AgentAction(tool: string, toolInput: string, log: string) | AgentFinish(output: string)

  /** The output parser's verdict; a failure carries the text of its `OutputParserException`. */
  datatype ParseOutcome = Parsed(output: AgentOutput) | ParseFailure(message: string)

  /**
   * A question put to a question-answering module's LLM: the module's prompt and the question.
   * The current modules also ask for the `ANSWER_IS:` marker; the first-generation ones do not.
   */
  datatype AnswerRequest = MarkedAnswer(context: string, question: string) | PlainAnswer(context: string, question: string)

  const AnswerInstruction := "If you match the user question with questions in the list, reply ANSWER_IS: followed by the answer.Otherwise, reply exactly 'I do not know', followed by a summary of the questions that you know how to answer, replying in first person\n"
  const QuestionIntro := "Please answer the following question:"

  /** The chat messages of the request, in order: the context, the instructions, the question. */
  function AnswerMessages(r: AnswerRequest): (ms: seq<string>)
    ensures |ms| >= 3 && ms[0] == r.context && ms[|ms| - 1] == r.question && ms[|ms| - 2] == QuestionIntro
    ensures |ms| == (if r.MarkedAnswer? then 4 else 3) && (r.MarkedAnswer? ==> ms[1] == AnswerInstruction)
  {
    match r
    case MarkedAnswer(context, question) => [context, AnswerInstruction, QuestionIntro, question]
    case PlainAnswer(context, question) => [context, QuestionIntro, question]
  }

  /**
   * The calls into code outside the model: the chat LLM, langchain's `ConvoOutputParser.parse`
   * (reached through `super()`), the code evaluator and the rephraser; `json.loads`, the type
   * formatters and the question-answering LLM are used by the tasks.
   */
  datatype Oracles = Oracles(
    llm: LLMRequest -> string,
    convoParse: string -> ParseOutcome,
    evaluate: (Spec.ExecuteElement, Dict<Value>) -> Result<Value>,
    rephrase: string -> string,
    jsonLoads: string -> Option<Value>,
    formatterFor: string -> bool,
    format: (string, Value, Spec.DataProperty) -> Option<Value>,
    fallbackFormat: (Value, Spec.DataProperty) -> Option<Value>,
    answer: AnswerRequest -> string)

  // ----- execute_action -----

  /** `execute_action`: the response and the data dict as the call leaves it. */
  function ExecuteAction(o: Oracles, action: Option<Spec.Action>, data: Dict<Value>, defaultResponse: Option<string>)
    : (r: Result<(Value, Dict<Value>)>)
    ensures action.Some? && action.value.execute.Some? ==>
              (o.evaluate(action.value.execute.value, data).Err? <==> r.Err?)
    ensures action.Some? && action.value.execute.Some? && action.value.response.Some? && r.Ok? ==>
              var result := o.evaluate(action.value.execute.value, data).value;
              var element := Spec.GetResponseElement(action.value).value;
              var filled := Common.ReplaceAll(element.text, Put(data, "result", result));
              r.value == (VStr(if Spec.IsSimpleRephrase(element) then o.rephrase(filled) else filled), Put(data, "result", result))
    ensures action.Some? && action.value.execute.Some? && action.value.response.None? && r.Ok? ==>
              r.value == (o.evaluate(action.value.execute.value, data).value, data)
    ensures !(action.Some? && action.value.execute.Some?) ==>
              r == match defaultResponse case Some(d) => Ok((VStr(d), data)) case None => Err(ValueError("No response available"))
  {
    if action.Some? && action.value.execute.Some? then
      var result :- o.evaluate(action.value.execute.value, data);
      if action.value.response.Some? then
        var data' := Put(data, "result", result);
        var element := Spec.GetResponseElement(action.value).value;
        var response := Common.ReplaceAll(element.text, data');
        Ok((VStr(if Spec.IsSimpleRephrase(element) then o.rephrase(response) else response), data'))
      else Ok((result, data))
    else if defaultResponse.Some? then Ok((VStr(defaultResponse.value), data))
    else Err(ValueError("No response available"))
  }

  /** The default `{{result}}` response says exactly the evaluated result, when that is a string. */
  lemma ResultTemplateSaysResult(o: Oracles, code: Spec.ExecuteElement, s: string)
    requires o.evaluate(code, []) == Ok(VStr(s)) && !Contains(s, Common.Braced("result"))
    ensures ExecuteAction(o, Some(Spec.Action(Some(code), Some(Spec.TextResponse("{{result}}")))), [], None)
            == Ok((VStr(s), [("result", VStr(s))]))
  {
    assert Common.DoubleBraced("result") == "{{result}}";
    Common.FillsDoubleBraced("result", VStr(s));
  }

  // ----- Prompts of run -----

  /** `memory_types` of each runtime class: which message types each memory variable shows. */
  function MemoryTypesOf(k: RuntimeKind): Dict<seq<string>>
  {
    match k
    case MenuRuntime => [("default", ["default"]), ("instruction", ["instruction"])]
    case OpenEndedRuntime => [("default", ["default"]), ("instruction", ["instruction"])]
    case DataGatheringRuntime =>
      [("collected_data", ["data"]), ("history", ["human", "ai_response"]), ("instruction", ["instruction"])]
    case _ => []
  }

  /** `memory_types.get(memory_id) or "default"`. */
  function MemoryTypesFor(table: Dict<seq<string>>, id: string): MemoryTypes
  {
    match Get(table, id)
    case Some(types) => if types == [] then AnyType("default") else OnlyTypes(types)
    case None => AnyType("default")
  }

  /** `get_prompts_disabled(prompt_id)`. */
  function PromptsDisabled(k: RuntimeKind, promptId: string): (r: seq<string>)
    ensures |r| <= 1
    ensures "instruction" in r <==>
              promptId == "input" && (k == MenuRuntime || k == OpenEndedRuntime || k == DataGatheringRuntime)
    ensures "input" in r <==>
              (promptId == "reasoning" && (k == MenuRuntime || k == OpenEndedRuntime))
              || (promptId == "in-caller-rephrasing" && k == DataGatheringRuntime)
  {
    if (k == MenuRuntime || k == OpenEndedRuntime) && promptId == "input" then ["instruction"]
    else if (k == MenuRuntime || k == OpenEndedRuntime) && promptId == "reasoning" then ["input"]
    else if k == DataGatheringRuntime && promptId == "input" then ["instruction"]
    else if k == DataGatheringRuntime && promptId == "in-caller-rephrasing" then ["input"]
    else []
  }

  const HumanMessageTemplate := "Begin!\n\nPrevious conversation history:\n{history}\n\n{input}\n\n{agent_scratchpad}\n"

  /** `get_human_prompt` of each runtime class. */
  function HumanPrompt(k: RuntimeKind): Prompts.Prompt
  {
    match k
    case MenuRuntime =>
      Prompts.Plus(Prompts.ToPrompt(Prompts.Section("default", HumanMessageTemplate)),
                   Prompts.ToPrompt(Prompts.Section("instruction", "{instruction}")))
    case OpenEndedRuntime =>
      Prompts.Plus(Prompts.ToPrompt(Prompts.Section("default", HumanMessageTemplate)),
                   Prompts.ToPrompt(Prompts.Section("instruction", "{instruction}")))
    case DataGatheringRuntime =>
      Prompts.Prompt([Prompts.Section("history", "Previous conversation history:\n{history}"),
                      Prompts.Section("collected-data", "Data already collected: {collected_data}"),
                      Prompts.Section("instruction", "{instruction}"),
                      Prompts.Section("input", "{input}")])
    case _ => Prompts.ToPrompt(Prompts.Section("default", HumanMessageTemplate))
  }

  function InstructionsText(i: Instructions): string
  {
    match i
    case ToolFormat(names, prefix) => Prompts.FormatInstructionsFor(names, prefix)
    case NoToolFormat(prefix) => Prompts.NoToolInstructionsFor(prefix)
  }

  /** The system template text: its three parts and an empty suffix, joined by blank lines. */
  function SystemText(t: SystemTemplate): string
  {
    Join("\n\n", [t.prompt, t.toolsPrompt, InstructionsText(t.instructions), ""])
  }

  /** The system template text is its parts in order, each followed by a blank line but the last. */
  lemma SystemTextParts(t: SystemTemplate)
    ensures SystemText(t) == t.prompt + "\n\n" + t.toolsPrompt + "\n\n" + InstructionsText(t.instructions) + "\n\n"
  {
    JoinFour("\n\n", t.prompt, t.toolsPrompt, InstructionsText(t.instructions));
  }

  lemma JoinFour(sep: string, a: string, b: string, c: string)
    ensures Join(sep, [a, b, c, ""]) == a + sep + b + sep + c + sep
  {
    var parts := [a, b, c, ""];
    assert parts[1..] == [b, c, ""];
    assert parts[1..][1..] == [c, ""];
    assert parts[1..][1..][1..] == [""];
    assert Join(sep, [c, ""]) == c + sep + "";
    assert c + sep + "" == c + sep;
    assert Join(sep, [b, c, ""]) == b + sep + (c + sep);
    assert Join(sep, parts) == a + sep + (b + sep + (c + sep));
  }

  function HumanText(r: LLMRequest): string
  {
    Prompts.ToText(r.human, r.disabled)
  }

  /** The system template `run` builds: without tools it has no tools prompt and no tool format. */
  function SystemTemplateFor(rm: RuntimeModule, allowTools: bool): (t: SystemTemplate)
    ensures t.prompt == PromptOf(rm)
    ensures !allowTools ==> t.toolsPrompt == "" && t.instructions == NoToolFormat(AIPrefix)
    ensures allowTools ==> t.toolsPrompt == ToolsPrompt(rm) && t.instructions == ToolFormat(ToolNames(rm), AIPrefix)
  {
    if allowTools then SystemTemplate(PromptOf(rm), ToolsPrompt(rm), ToolFormat(ToolNames(rm), AIPrefix))
    else SystemTemplate(PromptOf(rm), "", NoToolFormat(AIPrefix))
  }

  /** `prompt_input`: nothing for a missing or blank input, else the input after `New input: `. */
  function PromptInput(input: Option<string>): (r: string)
    ensures input.None? || Strip(input.value) == "" <==> r == ""
  {
    if input.None? || Strip(input.value) == "" then "" else "New input: " + input.value
  }

  /** The substitutions the loop over the human prompt's variables builds, in order. */
  function MemorySubstitutions(table: Dict<seq<string>>, mem: Buckets, name: string, vars: seq<string>): Dict<string>
  {
    if vars == [] then []
    else
      var v := vars[|vars| - 1];
      Put(MemorySubstitutions(table, mem, name, vars[..|vars| - 1]), v, TextOf(Bucket(mem, name, v).messages, MemoryTypesFor(table, v)))
  }

  /** The buckets after the loop has touched every variable's bucket. */
  function TouchAll(mem: Buckets, name: string, vars: seq<string>): Buckets
  {
    if vars == [] then mem else Touch(TouchAll(mem, name, vars[..|vars| - 1]), name, vars[|vars| - 1])
  }

  /** Touching buckets never changes what a bucket holds. */
  lemma {:induction false} TouchAllKeeps(mem: Buckets, name: string, vars: seq<string>, name': string, id': string)
    ensures Bucket(TouchAll(mem, name, vars), name', id') == Bucket(mem, name', id')
  {
    if vars != [] {
      TouchAllKeeps(mem, name, vars[..|vars| - 1], name', id');
      TouchCreatesOnce(TouchAll(mem, name, vars[..|vars| - 1]), name, vars[|vars| - 1], name', id');
    }
  }

  /** The request `run` sends for this human prompt, these buckets and this input. */
  function RequestWith(rm: RuntimeModule, human: Prompts.Prompt, mem: Buckets, input: Option<string>, allowTools: bool,
                       disabled: seq<string>): LLMRequest
  {
    var subs := MemorySubstitutions(MemoryTypesOf(rm.kind), mem, Name(rm), Prompts.VariablesOf(human.sections));
    LLMRequest(SystemTemplateFor(rm, allowTools), human, disabled,
               Put(Put(subs, "input", PromptInput(input)), "agent_scratchpad", ""), ["\nObservation:"])
  }

  /** The request `run` sends with the module's own human prompt. */
  function Request(rm: RuntimeModule, mem: Buckets, input: Option<string>, allowTools: bool, disabled: seq<string>): LLMRequest
  {
    RequestWith(rm, HumanPrompt(rm.kind), mem, input, allowTools, disabled)
  }

  /** The request always carries the shaped input and an empty scratchpad. */
  lemma RequestInput(rm: RuntimeModule, human: Prompts.Prompt, mem: Buckets, input: Option<string>, allowTools: bool,
                     disabled: seq<string>)
    ensures Get(RequestWith(rm, human, mem, input, allowTools, disabled).substitutions, "input") == Some(PromptInput(input))
    ensures Get(RequestWith(rm, human, mem, input, allowTools, disabled).substitutions, "agent_scratchpad") == Some("")
  {
    var subs := MemorySubstitutions(MemoryTypesOf(rm.kind), mem, Name(rm), Prompts.VariablesOf(human.sections));
    GetPut(Put(subs, "input", PromptInput(input)), "agent_scratchpad", "", "input");
    GetPut(subs, "input", PromptInput(input), "input");
    GetPut(Put(subs, "input", PromptInput(input)), "agent_scratchpad", "", "agent_scratchpad");
  }

  // ----- The output parser -----

  const NoToolMarker := "Thought: Do I need to use a tool? No"

  /** `ChatbotOutputParser.parse`. */
  function Parse(o: Oracles, text: string): ParseOutcome
  {
    ParseWith(o, text, AIPrefix + ":", NoToolMarker)
  }

  /** The parser with its two markers as parameters. */
  function ParseWith(o: Oracles, text: string, aiMarker: string, marker: string): ParseOutcome
    requires |marker| > 0
  {
    if Contains(text, aiMarker) then o.convoParse(text)
    else if Contains(text, marker) then
      var pieces := Split(text, marker);
      Parsed(AgentFinish(Strip(pieces[|pieces| - 1])))
    else o.convoParse(text)
  }

  lemma ParseWithAfterLastMarker(o: Oracles, text: string, aiMarker: string, marker: string) returns (after: string)
    requires |marker| > 0 && !Contains(text, aiMarker) && Contains(text, marker)
    ensures ParseWith(o, text, aiMarker, marker) == Parsed(AgentFinish(Strip(after)))
    ensures EndsWith(text, marker + after) && !Contains(after, marker)
  {
    var pieces := Split(text, marker);
    after := pieces[|pieces| - 1];
    Utils.LastPieceFollowsSeparator(text, marker);
  }

  /**
   * Without `AI:`, a text with the marker is a final answer: the stripped text after the last
   * marker, that is, a suffix that follows a marker and holds none.
   */
  lemma ParseAfterLastMarker(o: Oracles, text: string) returns (after: string)
    requires !Contains(text, AIPrefix + ":") && Contains(text, NoToolMarker)
    ensures Parse(o, text) == Parsed(AgentFinish(Strip(after)))
    ensures EndsWith(text, NoToolMarker + after) && !Contains(after, NoToolMarker)
  {
    after := ParseWithAfterLastMarker(o, text, AIPrefix + ":", NoToolMarker);
  }

  /** Any other text, and every text with `AI:`, goes to the conversational parser. */
  lemma ParseDelegates(o: Oracles, text: string)
    requires Contains(text, AIPrefix + ":") || !Contains(text, NoToolMarker)
    ensures Parse(o, text) == o.convoParse(text)
  {
  }

  const ObservationMarker := "Observation: "

  /** `parse_observation`: the text after the first `Observation: ` up to the end of its line. */
  function ParseObservation(text: string): (r: Result<string>)
    ensures r.Err? <==> !Contains(text + "\n", ObservationMarker)
  {
    var t := text + "\n";
    match IndexOf(t, ObservationMarker)
    case None => Err(Raised("Could not parse Observation from LLM output: `" + text + "`"))
    case Some(i) =>
      var rest := t[i + |ObservationMarker|..];
      NewlineEnded(t, ObservationMarker, i);
      var j := IndexOf(rest, "\n").value;
      Ok(rest[..j])
  }

  /**
   * What follows a marker that ends in a space, in a text that ends in a newline, still holds that
   * newline.
   */
  lemma NewlineEnded(t: string, marker: string, i: nat)
    requires |t| > 0 && t[|t| - 1] == '\n' && OccursAt(t, marker, i) && |marker| > 0 && marker[|marker| - 1] == ' '
    ensures Contains(t[i + |marker|..], "\n")
  {
    assert t[i + |marker| - 1] == t[i..i + |marker|][|marker| - 1];
    var rest := t[i + |marker|..];
    assert rest[|rest| - 1..] == "\n";
    assert OccursAt(rest, "\n", |rest| - 1);
  }

  /** A one-character pattern occurs exactly where that character is. */
  lemma OccursCharAt(s: string, c: char, k: nat)
    ensures OccursAt(s, [c], k) <==> k < |s| && s[k] == c
  {
    if k < |s| {
      assert s[k..k + 1] == [s[k]];
    }
  }

  /** The text after a marker up to the first newline, with both, occurs where the marker does. */
  lemma LineAfter(t: string, marker: string, i: nat, j: nat)
    requires OccursAt(t, marker, i) && i + |marker| + j < |t| && t[i + |marker| + j] == '\n'
    ensures OccursAt(t, marker + t[i + |marker|..][..j] + "\n", i)
  {
    var rest := t[i + |marker|..];
    var line := marker + rest[..j] + "\n";
    assert t[i..i + |line|] == t[i..i + |marker|] + rest[..j] + t[i + |marker| + j..i + |marker| + j + 1];
  }

  /** The observation is a single line that follows the first marker. */
  lemma ParseObservationLine(text: string)
    requires Contains(text + "\n", ObservationMarker)
    ensures var r := ParseObservation(text).value;
            '\n' !in r && exists i :: OccursAt(text + "\n", ObservationMarker + r + "\n", i)
  {
    var t := text + "\n";
    var i := IndexOf(t, ObservationMarker).value;
    var rest := t[i + |ObservationMarker|..];
    NewlineEnded(t, ObservationMarker, i);
    var j := IndexOf(rest, "\n").value;
    var r := rest[..j];
    forall k | 0 <= k < |r| ensures r[k] != '\n' {
      OccursCharAt(rest, '\n', k);
    }
    OccursCharAt(rest, '\n', j);
    LineAfter(t, ObservationMarker, i, j);
  }

  // ----- run -----

  /** The events one LLM step pushes, and how the step ends. */
  datatype StepOutcome = StepOutcome(pushed: seq<Event>, result: Result<()>)

  /** The memory piece recorded with a tool call: the human input, then the AI's reasoning. */
  function PreviousAnswer(input: Option<string>, log: string): Result<Memory>
  {
    if input.None? then Err(ValidationError("message"))
    else Ok(Memory([Message(Human, input.value), Message(AIReasoning, log)], None))
  }

  /**
   * What `run` does with a parsed reply, as written: after a parse failure the `TaskFinishEvent` is
   * pushed, and then `parsed_result` is read while unbound.
   */
  function StepAsWritten(rm: RuntimeModule, input: Option<string>, parsed: ParseOutcome): StepOutcome
  {
    match parsed
    case ParseFailure(message) =>
      StepOutcome([Finish(Some(VStr(Utils.GetUnparsedOutput(message))))], Err(UnboundLocalError("parsed_result")))
    case Parsed(output) => StepOfOutput(rm, input, output)
  }

  /** `run` as evidently intended: a parse failure ends the step once its message is pushed. */
  function Step(rm: RuntimeModule, input: Option<string>, parsed: ParseOutcome): StepOutcome
  {
    match parsed
    case ParseFailure(message) => StepOutcome([Finish(Some(VStr(Utils.GetUnparsedOutput(message))))], Ok(()))
    case Parsed(output) => StepOfOutput(rm, input, output)
  }

  /** A tool call activates the named tool (`execute_tool`); a final answer is an AI response. */
  function StepOfOutput(rm: RuntimeModule, input: Option<string>, output: AgentOutput): StepOutcome
  {
    match output
    case AgentFinish(text) => StepOutcome([AIResponseEvent(text)], Ok(()))
    case AgentAction(tool, toolInput, log) =>
      match PreviousAnswer(input, log)
      case Err(e) => StepOutcome([], Err(e))
      case Ok(previous) =>
        match FindToolByName(ToolList(rm), tool)
        case Err(e) => StepOutcome([], Err(e))
        case Ok(t) => StepOutcome([ActivateModule(t.specModule, Some(toolInput), previous)], Ok(()))
  }

  /** As written, every parse failure of the reply ends `run` with `UnboundLocalError`. */
  lemma ParseFailureUnbound(rm: RuntimeModule, input: Option<string>, message: string)
    ensures StepAsWritten(rm, input, ParseFailure(message)).result == Err(UnboundLocalError("parsed_result"))
    ensures Step(rm, input, ParseFailure(message)).result.Ok?
  {
  }

  /**
   * A step pushes at most one event, and as intended a failed parse still reaches the user: the
   * message recovered from the error is never the parser's marker text.
   */
  lemma StepPushesOne(rm: RuntimeModule, input: Option<string>, parsed: ParseOutcome)
    ensures |Step(rm, input, parsed).pushed| <= 1
    ensures Step(rm, input, parsed).result.Ok? <==> |Step(rm, input, parsed).pushed| == 1
    ensures parsed.ParseFailure? ==>
              Step(rm, input, parsed).pushed == [Finish(Some(VStr(Utils.GetUnparsedOutput(parsed.message))))]
              && (Contains(parsed.message, Utils.ParseErrorMarker) ==>
                    !Contains(Utils.GetUnparsedOutput(parsed.message), Utils.ParseErrorMarker))
  {
  }

  /** A tool call always activates one of the module's tools, under the name the LLM gave. */
  lemma ToolCallActivatesTool(rm: RuntimeModule, input: Option<string>, tool: string, toolInput: string, log: string)
    requires input.Some?
    ensures var s := StepOfOutput(rm, input, AgentAction(tool, toolInput, log));
            s.result.Ok? <==> exists i :: 0 <= i < |ToolList(rm)| && Name(ToolList(rm)[i]) == tool
    ensures var s := StepOfOutput(rm, input, AgentAction(tool, toolInput, log));
            s.result.Ok? ==> s.pushed[0].ActivateModule? && s.pushed[0].activated.name == tool
                             && s.pushed[0].input == Some(toolInput)
                             && s.pushed[0].previousAnswer.messages == [Message(Human, input.value), Message(AIReasoning, log)]
  {
    FindToolByNameFirst(ToolList(rm), tool);
  }

  /**
   * The loop of `run` over the human prompt's variables: each variable's bucket is fetched (and
   * created) and rendered with the message types the module's table gives that variable.
   */
  method GatherMemories<V, N>(state: ExecutionState<V, N>, table: Dict<seq<string>>, name: string, vars: seq<string>)
    returns (subs: Dict<string>)
    modifies state
    ensures state.memory == TouchAll(old(state.memory), name, vars)
    ensures subs == MemorySubstitutions(table, old(state.memory), name, vars)
    ensures state.eventStack == old(state.eventStack) && state.current == old(state.current)
    ensures state.data == old(state.data) && state.listeners == old(state.listeners)
    ensures state.notified == old(state.notified) && state.outputs == old(state.outputs)
  {
    subs := [];
    var i := 0;
    while i < |vars|
      invariant i <= |vars|
      invariant state.memory == TouchAll(old(state.memory), name, vars[..i])
      invariant subs == MemorySubstitutions(table, old(state.memory), name, vars[..i])
      invariant state.eventStack == old(state.eventStack) && state.current == old(state.current)
      invariant state.data == old(state.data) && state.listeners == old(state.listeners)
      invariant state.notified == old(state.notified) && state.outputs == old(state.outputs)
    {
      assert vars[..i + 1][..i] == vars[..i];
      var m := state.GetOrCreateMemory(name, vars[i]);
      TouchAllKeeps(old(state.memory), name, vars[..i], name, vars[i]);
      subs := Put(subs, vars[i], TextOf(m.messages, MemoryTypesFor(table, vars[i])));
      i := i + 1;
    }
    assert vars[..i] == vars;
  }

  /**
   * The first half of `run` once `get_human_prompt()` has returned `human`: the request built from
   * the memory, touching a bucket per prompt variable.
   */
  method BuildRequest<V, N>(state: ExecutionState<V, N>, rm: RuntimeModule, human: Prompts.Prompt, input: Option<string>,
                            allowTools: bool, disabled: seq<string>) returns (request: LLMRequest)
    modifies state
    ensures state.memory == TouchAll(old(state.memory), Name(rm), Prompts.VariablesOf(human.sections))
    ensures request == RequestWith(rm, human, old(state.memory), input, allowTools, disabled)
    ensures state.eventStack == old(state.eventStack) && state.current == old(state.current)
    ensures state.data == old(state.data) && state.listeners == old(state.listeners)
    ensures state.notified == old(state.notified) && state.outputs == old(state.outputs)
  {
    var vars := Prompts.Variables(human);
    var subs := GatherMemories(state, MemoryTypesOf(rm.kind), Name(rm), vars);
    request := LLMRequest(SystemTemplateFor(rm, allowTools), human, disabled,
                          Put(Put(subs, "input", PromptInput(input)), "agent_scratchpad", ""), ["\nObservation:"]);
  }

  /**
   * The body of `run` once `get_human_prompt()` has returned `human`: asks the LLM, parses the
   * reply and pushes the resulting event.
   */
  method RunWith<V, N>(state: ExecutionState<V, N>, rm: RuntimeModule, human: Prompts.Prompt, input: Option<string>,
                       allowTools: bool, disabled: seq<string>, o: Oracles) returns (r: Result<()>)
    modifies state
    ensures state.memory == TouchAll(old(state.memory), Name(rm), Prompts.VariablesOf(human.sections))
    ensures var step := Step(rm, input, Parse(o, o.llm(RequestWith(rm, human, old(state.memory), input, allowTools, disabled))));
            state.eventStack == old(state.eventStack) + step.pushed && r == step.result
    ensures var parsed := Parse(o, o.llm(RequestWith(rm, human, old(state.memory), input, allowTools, disabled)));
            var written := StepAsWritten(rm, input, parsed);
            state.eventStack == old(state.eventStack) + written.pushed
            && (parsed.Parsed? ==> r == written.result)
            && (parsed.ParseFailure? ==> r.Ok? && written.result == Err(UnboundLocalError("parsed_result")))
    ensures state.current == old(state.current) && state.data == old(state.data) && state.listeners == old(state.listeners)
    ensures state.notified == old(state.notified) && state.outputs == old(state.outputs)
  {
    var request := BuildRequest(state, rm, human, input, allowTools, disabled);
    var parsed := Parse(o, o.llm(request));
    var step := Step(rm, input, parsed);
    StepPushesOne(rm, input, parsed);
    StepAgainstWritten(rm, input, parsed);
    if step.pushed != [] {
      assert step.pushed == [step.pushed[0]];
      state.PushEvent(step.pushed[0]);
    }
    r := step.result;
  }

  /** The buckets after `run` of the module's own human prompt: one touched per prompt variable. */
  function RunTouched(rm: RuntimeModule, mem: Buckets): Buckets
  {
    TouchAll(mem, Name(rm), Prompts.VariablesOf(HumanPrompt(rm.kind).sections))
  }

  /**
   * As intended and as written, a step pushes the same events; the two ends differ exactly on a
   * reply the parser rejects, which as written raises `UnboundLocalError`.
   */
  lemma StepAgainstWritten(rm: RuntimeModule, input: Option<string>, parsed: ParseOutcome)
    ensures Step(rm, input, parsed).pushed == StepAsWritten(rm, input, parsed).pushed
    ensures parsed.Parsed? ==> Step(rm, input, parsed).result == StepAsWritten(rm, input, parsed).result
    ensures parsed.ParseFailure? ==>
              Step(rm, input, parsed).result.Ok? && StepAsWritten(rm, input, parsed).result == Err(UnboundLocalError("parsed_result"))
  {
  }

  /** `run`, with the module's own human prompt. */
  method Run<V, N>(state: ExecutionState<V, N>, rm: RuntimeModule, input: Option<string>, allowTools: bool,
                   disabled: seq<string>, o: Oracles) returns (r: Result<()>)
    modifies state
    ensures state.memory == RunTouched(rm, old(state.memory))
    ensures var step := Step(rm, input, Parse(o, o.llm(Request(rm, old(state.memory), input, allowTools, disabled))));
            state.eventStack == old(state.eventStack) + step.pushed && r == step.result
    ensures var parsed := Parse(o, o.llm(Request(rm, old(state.memory), input, allowTools, disabled)));
            var written := StepAsWritten(rm, input, parsed);
            state.eventStack == old(state.eventStack) + written.pushed
            && (parsed.Parsed? ==> r == written.result)
            && (parsed.ParseFailure? ==> r.Ok? && written.result == Err(UnboundLocalError("parsed_result")))
    ensures state.current == old(state.current) && state.data == old(state.data) && state.listeners == old(state.listeners)
    ensures state.notified == old(state.notified) && state.outputs == old(state.outputs)
  {
    r := RunWith(state, rm, HumanPrompt(rm.kind), input, allowTools, disabled, o);
  }

  // ----- to_messages -----

  /** A chat message handed to `to_messages`. */
  datatype ChatMessage = HumanChat(content: string) | AIChat(content: string) | OtherChat(content: string)

  function ChatLines(ms: seq<ChatMessage>): (r: Result<seq<string>>)
  {
    if ms == [] then Ok([])
    else
      var front :- ChatLines(ms[..|ms| - 1]);
      match ms[|ms| - 1]
      case HumanChat(c) => Ok(front + ["Human: " + c])
      case AIChat(c) => Ok(front + [c])
      case OtherChat(c) => Err(ValueError("Unknown message type " + c))
  }

  /** `to_messages`: one line per message, human lines prefixed, joined by newlines. */
  function ToMessages(ms: seq<ChatMessage>): (r: Result<string>)
    ensures r.Ok? <==> forall i :: 0 <= i < |ms| ==> !ms[i].OtherChat?
    ensures r.Err? ==> exists i :: 0 <= i < |ms| && ms[i].OtherChat?
    ensures ms == [] ==> r == Ok("")
    ensures |ms| == 1 && ms[0].HumanChat? ==> r == Ok("Human: " + ms[0].content)
  {
    ChatLinesShape(ms);
    var lines :- ChatLines(ms);
    Ok(Join("\n", lines))
  }

  /** The lines fail exactly when some message is neither human nor AI; otherwise one per message. */
  lemma {:induction false} ChatLinesShape(ms: seq<ChatMessage>)
    ensures ChatLines(ms).Ok? <==> forall i :: 0 <= i < |ms| ==> !ms[i].OtherChat?
    ensures ChatLines(ms).Ok? ==>
              |ChatLines(ms).value| == |ms|
              && forall i :: 0 <= i < |ms| ==>
                   ChatLines(ms).value[i] == if ms[i].HumanChat? then "Human: " + ms[i].content else ms[i].content
  {
    if ms != [] {
      var front := ms[..|ms| - 1];
      ChatLinesShape(front);
      assert forall i :: 0 <= i < |front| ==> front[i] == ms[i];
    }
  }
}
