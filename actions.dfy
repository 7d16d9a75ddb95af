// The actions a transition runs (`RunModuleAction`, `ApplyLLM`, `SayAction`, `RunTool`,
// `UpdateMemory`, `PushEvent`, `CompositeAction`) and what running each one does to the execution
// state.
module Actions {
  import opened Wrappers
  import opened Values
  import opened Dicts
  import opened Memories
  import opened Events
  import Spec
  import Runtime
  import Tasks
  import opened StateMachines

  /** An action attached to a trigger. */
  datatype Action =
    | RunModuleAction(rm: Runtime.RuntimeModule, promptsDisabled: seq<string>)
    | ApplyLLM(tool: Runtime.RuntimeModule, allowTools: bool, promptsDisabled: seq<string>)
    | SayAction(message: Option<Value>, consumeEvent: bool)
    | RunTool(tool: Runtime.RuntimeModule)
    | UpdateMemory(target: Spec.Module, copyFrom: Option<Spec.Module>, filter: Option<set<MessageKind>>)
    | PushEvent(event: Event)
    | CompositeAction(actions: seq<Action>)

  type Vtx = Vertex<Runtime.RuntimeModule, Action>

  /** The execution state of the state-machine engine: vertices as current state, actions as notices. */
  type ExecState = Runtime.ExecutionState<Vtx, Action>

  /** The message kinds a full-scope sequence copies from one step into the next ones. */
  const SequenceCopied: set<MessageKind> := {Human, AIResponse, Data}

  // ----- SayAction -----

  /** The `message` attribute a consuming `SayAction` reads off the event. */
  function EventMessage(event: Option<Event>): (r: Result<Option<Value>>)
    ensures r.Ok? <==> event.Some? && (event.value.UserInput? || event.value.AIResponseEvent? || event.value.TaskFinish?)
    ensures r.Ok? && event.value.TaskFinish? ==> r.value == event.value.result
    ensures r.Ok? && !event.value.TaskFinish? ==> r.value == Some(VStr(event.value.message))
  {
    match event
    case Some(UserInput(m)) => Ok(Some(VStr(m)))
    case Some(AIResponseEvent(m)) => Ok(Some(VStr(m)))
    case Some(TaskFinish(result, _, _)) => Ok(result)
    case _ => Err(AttributeError("message"))
  }

  /**
   * `SayAction.execute`: the message (the event's, when consuming) is output under the current
   * state's id; a `None` message outputs nothing. The result is the message the action now holds.
   */
  method ExecuteSay(state: ExecState, message: Option<Value>, consume: bool, event: Option<Event>) returns (r: Result<Option<Value>>)
    modifies state
    ensures var who := StateId(old(state.current));
            var said := if consume then EventMessage(event) else Ok(message);
            if who.Err? then r == Err(who.error) && state.outputs == old(state.outputs)
            else if said.Err? then r == Err(said.error) && state.outputs == old(state.outputs)
            else r == said && state.outputs == old(state.outputs) + (if said.value.Some? then [(said.value.value, who.value)] else [])
    ensures state.current == old(state.current) && state.eventStack == old(state.eventStack)
    ensures state.memory == old(state.memory) && state.data == old(state.data)
    ensures state.listeners == old(state.listeners) && state.notified == old(state.notified)
    ensures Outcome(if r.Ok? then Ok(SayAction(r.value, consume)) else Err(r.error), WorldOf(state))
            == SayEffect(old(state.current), message, consume, event, old(WorldOf(state)))
  {
    var who := StateId(state.current);
    if who.Err? {
      return Err(who.error);
    }
    var said := message;
    if consume {
      var read := EventMessage(event);
      if read.Err? {
        return Err(read.error);
      }
      said := read.value;
    }
    if said.Some? {
      state.Output(said.value, who.value);
    }
    r := Ok(said);
  }

  // ----- RunModuleAction, ApplyLLM, RunTool -----

  /** The step `run` takes for a module, given the memory it reads and its arguments. */
  function RunStep(o: Runtime.Oracles, rm: Runtime.RuntimeModule, mem: Runtime.Buckets, input: Option<string>,
                   allowTools: bool, disabled: seq<string>): Runtime.StepOutcome
  {
    Runtime.Step(rm, input, Runtime.Parse(o, o.llm(Runtime.Request(rm, mem, input, allowTools, disabled))))
  }

  const ExpectedUserInput := "Expected UserInput; no other event type is supported"

  /**
   * `RunModuleAction.execute`: only a user input is accepted; its text is run through the module
   * with tools allowed and the configured prompt sections disabled.
   */
  method ExecuteRunModule(state: ExecState, rm: Runtime.RuntimeModule, disabled: seq<string>, event: Option<Event>,
                          o: Runtime.Oracles) returns (r: Result<()>)
    modifies state
    ensures (event.None? || !event.value.UserInput?) ==>
              r == Err(ValueError(ExpectedUserInput)) && state.eventStack == old(state.eventStack) && state.memory == old(state.memory)
    ensures event.Some? && event.value.UserInput? ==>
              var step := RunStep(o, rm, old(state.memory), Some(event.value.message), true, disabled);
              state.eventStack == old(state.eventStack) + step.pushed && r == step.result
              && state.memory == Runtime.RunTouched(rm, old(state.memory))
    ensures state.current == old(state.current) && state.data == old(state.data) && state.listeners == old(state.listeners)
    ensures state.notified == old(state.notified) && state.outputs == old(state.outputs)
    ensures var a := RunModuleAction(rm, disabled);
            Outcome(if r.Ok? then Ok(a) else Err(r.error), WorldOf(state)) == ModuleEffect(o, rm, disabled, event, a, old(WorldOf(state)))
  {
    if event.None? || !event.value.UserInput? {
      return Err(ValueError(ExpectedUserInput));
    }
    r := Runtime.Run(state, rm, Some(event.value.message), true, disabled, o);
  }

  /** `ApplyLLM.execute`: the module runs without input, with or without its tools. */
  method ExecuteApplyLLM(state: ExecState, tool: Runtime.RuntimeModule, allowTools: bool, disabled: seq<string>,
                         o: Runtime.Oracles) returns (r: Result<()>)
    modifies state
    ensures var step := RunStep(o, tool, old(state.memory), None, allowTools, disabled);
            state.eventStack == old(state.eventStack) + step.pushed && r == step.result
            && state.memory == Runtime.RunTouched(tool, old(state.memory))
    ensures state.current == old(state.current) && state.data == old(state.data) && state.listeners == old(state.listeners)
    ensures state.notified == old(state.notified) && state.outputs == old(state.outputs)
    ensures var a := ApplyLLM(tool, allowTools, disabled);
            Outcome(if r.Ok? then Ok(a) else Err(r.error), WorldOf(state)) == TurnEffect(o, tool, None, allowTools, disabled, a, old(WorldOf(state)))
  {
    r := Runtime.Run(state, tool, None, allowTools, disabled, o);
  }

  /** The tool input `RunTool` passes on: an activation's input, else none. */
  function ToolInput(event: Option<Event>): (r: Option<string>)
    ensures event.Some? && event.value.ActivateModule? ==> r == event.value.input
    ensures event.None? || !event.value.ActivateModule? ==> r.None?
  {
    if event.Some? && event.value.ActivateModule? then event.value.input else None
  }

  /** `RunTool.execute`: the tool runs as a tool, with the activation's input and the event itself. */
  method ExecuteRunTool(state: ExecState, tool: Runtime.RuntimeModule, event: Option<Event>, o: Runtime.Oracles)
    returns (r: Result<()>)
    modifies state
    ensures state.memory == Tasks.ToolMemory(tool, old(state.memory))
    ensures (tool.kind.MenuRuntime? || tool.kind.OpenEndedRuntime?) ==>
              var step := RunStep(o, tool, old(state.memory), ToolInput(event), true, []);
              state.eventStack == old(state.eventStack) + step.pushed && r == step.result && state.data == old(state.data)
    ensures !tool.kind.MenuRuntime? && !tool.kind.OpenEndedRuntime? ==>
              var step := Tasks.TaskStepOf(tool, ToolInput(event), event, old(state.memory), o);
              (step.Err? ==> r == Err(step.error) && state.eventStack == old(state.eventStack) && state.data == old(state.data))
              && (step.Ok? ==> r == Ok(()) && state.eventStack == old(state.eventStack) + [step.value.event])
    ensures state.current == old(state.current) && state.listeners == old(state.listeners)
    ensures state.notified == old(state.notified) && state.outputs == old(state.outputs)
    ensures Outcome(if r.Ok? then Ok(RunTool(tool)) else Err(r.error), WorldOf(state))
            == ToolEffect(o, tool, event, RunTool(tool), old(WorldOf(state)))
  {
    r := Tasks.RunAsTool(state, tool, ToolInput(event), event, o);
  }

  // ----- UpdateMemory -----

  /** `update_memory(name, piece, id)` on the buckets. */
  function Updated(mem: Runtime.Buckets, name: string, id: string, piece: Memory): Runtime.Buckets
  {
    Runtime.Store(mem, name, id, Merge(Runtime.Bucket(mem, name, id), piece))
  }

  /** One `update_memory` per `(id, piece)` of an event's memory, in dict order. */
  function UpdatedAll(mem: Runtime.Buckets, name: string, pieces: Dict<Memory>): Runtime.Buckets
  {
    if pieces == [] then mem
    else
      var last := pieces[|pieces| - 1];
      Updated(UpdatedAll(mem, name, pieces[..|pieces| - 1]), name, last.0, last.1)
  }

  /** `copy_memory(from, to, id, filter)` on the buckets. */
  function CopiedInto(mem: Runtime.Buckets, from: string, to: string, id: string, filter: Option<set<MessageKind>>): Runtime.Buckets
  {
    Runtime.Store(Runtime.Touch(Runtime.Touch(mem, from, id), to, id), to, id,
                  CopyFrom(Runtime.Bucket(mem, to, id), Runtime.Bucket(mem, from, id), filter))
  }

  /**
   * The buckets after `UpdateMemory(target, copy_from, filter).execute(event)`: a copy of history and
   * collected data when copying; otherwise the event's content merged into the target's buckets. An
   * in-progress event whose memory is plain text has no `items`.
   */
  function MemoryAfter(mem: Runtime.Buckets, target: Spec.Module, copyFrom: Option<Spec.Module>,
                       filter: Option<set<MessageKind>>, event: Option<Event>): Result<Runtime.Buckets>
  {
    if copyFrom.Some? then
      Ok(CopiedInto(CopiedInto(mem, copyFrom.value.name, target.name, "history", filter),
                    copyFrom.value.name, target.name, "collected_data", filter))
    else
      match event
      case None => Ok(mem)
      case Some(ActivateModule(_, _, answer)) => Ok(Updated(mem, target.name, "history", answer))
      case Some(UserInput(m)) => Ok(Updated(mem, target.name, "history", Piece(Human, m)))
      case Some(AIResponseEvent(m)) => Ok(Updated(mem, target.name, "history", Piece(AIResponse, m)))
      case Some(TaskInProgress(Pieces(ps))) => Ok(UpdatedAll(mem, target.name, ps))
      case Some(TaskInProgress(RawText(_))) => Err(AttributeError("items"))
      case Some(TaskFinish(_, ps, _)) => Ok(UpdatedAll(mem, target.name, ps))
  }

  /** `UpdateMemory.execute`. */
  method ExecuteUpdateMemory(state: ExecState, target: Spec.Module, copyFrom: Option<Spec.Module>,
                             filter: Option<set<MessageKind>>, event: Option<Event>) returns (r: Result<()>)
    modifies state
    ensures var after := MemoryAfter(old(state.memory), target, copyFrom, filter, event);
            (after.Err? ==> r == Err(after.error) && state.memory == old(state.memory))
            && (after.Ok? ==> r == Ok(()) && state.memory == after.value)
    ensures state.current == old(state.current) && state.eventStack == old(state.eventStack) && state.data == old(state.data)
    ensures state.listeners == old(state.listeners) && state.notified == old(state.notified) && state.outputs == old(state.outputs)
    ensures var a := UpdateMemory(target, copyFrom, filter);
            Outcome(if r.Ok? then Ok(a) else Err(r.error), WorldOf(state)) == UpdateEffect(target, copyFrom, filter, event, a, old(WorldOf(state)))
  {
    if copyFrom.Some? {
      state.CopyMemory(copyFrom.value.name, target.name, "history", filter);
      state.CopyMemory(copyFrom.value.name, target.name, "collected_data", filter);
      return Ok(());
    }
    match event
    case None =>
      r := Ok(());
    case Some(ActivateModule(_, _, answer)) =>
      state.UpdateMemory(target.name, answer, "history");
      r := Ok(());
    case Some(UserInput(m)) =>
      state.UpdateMemory(target.name, Piece(Human, m), "history");
      r := Ok(());
    case Some(AIResponseEvent(m)) =>
      state.UpdateMemory(target.name, Piece(AIResponse, m), "history");
      r := Ok(());
    case Some(TaskInProgress(progress)) =>
      if progress.RawText? {
        return Err(AttributeError("items"));
      }
      UpdatePieces(state, target.name, progress.pieces);
      r := Ok(());
    case Some(TaskFinish(_, ps, _)) =>
      UpdatePieces(state, target.name, ps);
      r := Ok(());
  }

  /** The loop over `event.memory.items()`. */
  method UpdatePieces(state: ExecState, name: string, pieces: Dict<Memory>)
    modifies state
    ensures state.memory == UpdatedAll(old(state.memory), name, pieces)
    ensures state.current == old(state.current) && state.eventStack == old(state.eventStack) && state.data == old(state.data)
    ensures state.listeners == old(state.listeners) && state.notified == old(state.notified) && state.outputs == old(state.outputs)
  {
    var i := 0;
    while i < |pieces|
      invariant i <= |pieces|
      invariant state.memory == UpdatedAll(old(state.memory), name, pieces[..i])
      invariant state.current == old(state.current) && state.eventStack == old(state.eventStack) && state.data == old(state.data)
      invariant state.listeners == old(state.listeners) && state.notified == old(state.notified) && state.outputs == old(state.outputs)
    {
      assert pieces[..i + 1][..i] == pieces[..i];
      state.UpdateMemory(name, pieces[i].1, pieces[i].0);
      i := i + 1;
    }
    assert pieces[..i] == pieces;
  }

  // ----- Properties of UpdateMemory -----

  /** Folding an event's pieces into one module's buckets leaves every other module's buckets alone. */
  lemma {:induction false} UpdatedAllOnlyThatModule(mem: Runtime.Buckets, name: string, pieces: Dict<Memory>, name': string, id': string)
    requires name' != name
    ensures Runtime.Bucket(UpdatedAll(mem, name, pieces), name', id') == Runtime.Bucket(mem, name', id')
  {
    if pieces != [] {
      var front := UpdatedAll(mem, name, pieces[..|pieces| - 1]);
      var last := pieces[|pieces| - 1];
      UpdatedAllOnlyThatModule(mem, name, pieces[..|pieces| - 1], name', id');
      Runtime.StoreOnly(front, name, last.0, Merge(Runtime.Bucket(front, name, last.0), last.1), name', id');
    }
  }

  /** Without a copy source, an update changes only the target module's buckets. */
  lemma UpdateOnlyTouchesTarget(mem: Runtime.Buckets, target: Spec.Module, filter: Option<set<MessageKind>>,
                                event: Option<Event>, name': string, id': string)
    requires name' != target.name && MemoryAfter(mem, target, None, filter, event).Ok?
    ensures Runtime.Bucket(MemoryAfter(mem, target, None, filter, event).value, name', id') == Runtime.Bucket(mem, name', id')
  {
    match event
    case None =>
    case Some(ActivateModule(_, _, answer)) =>
      Runtime.StoreOnly(mem, target.name, "history", Merge(Runtime.Bucket(mem, target.name, "history"), answer), name', id');
    case Some(UserInput(m)) =>
      Runtime.StoreOnly(mem, target.name, "history", Merge(Runtime.Bucket(mem, target.name, "history"), Piece(Human, m)), name', id');
    case Some(AIResponseEvent(m)) =>
      Runtime.StoreOnly(mem, target.name, "history", Merge(Runtime.Bucket(mem, target.name, "history"), Piece(AIResponse, m)), name', id');
    case Some(TaskInProgress(progress)) =>
      UpdatedAllOnlyThatModule(mem, target.name, progress.pieces, name', id');
    case Some(TaskFinish(_, ps, _)) =>
      UpdatedAllOnlyThatModule(mem, target.name, ps, name', id');
  }

  /**
   * A user input or an AI response joins the end of the target's history as one message of its kind,
   * after the messages already there, and keeps the history's data.
   */
  lemma MessageJoinsHistory(mem: Runtime.Buckets, target: Spec.Module, event: Event)
    requires event.UserInput? || event.AIResponseEvent?
    ensures var kind := if event.UserInput? then Human else AIResponse;
            var before := Runtime.Bucket(mem, target.name, "history");
            var after := Runtime.Bucket(MemoryAfter(mem, target, None, None, Some(event)).value, target.name, "history");
            after.messages == before.messages + [Message(kind, event.message)] && after.data == before.data
  {
    var kind := if event.UserInput? then Human else AIResponse;
    var before := Runtime.Bucket(mem, target.name, "history");
    var m := Message(kind, event.message);
    Runtime.StoreOnly(mem, target.name, "history", Merge(before, Piece(kind, event.message)), target.name, "history");
    assert [m][..0] == [];
    assert AddMessages(before.messages, [m]) == AddMessage(before.messages, m) == before.messages + [m];
  }

  /**
   * Copying history from another module appends the source's filtered history to the target's,
   * leaves the source's buckets as they were, and leaves the target's collected data a filtered copy too.
   */
  lemma CopyAppendsFiltered(mem: Runtime.Buckets, from: Spec.Module, target: Spec.Module, filter: Option<set<MessageKind>>)
    requires from.name != target.name
    ensures var after := MemoryAfter(mem, target, Some(from), filter, None).value;
            Runtime.Bucket(after, target.name, "history").messages ==
              Runtime.Bucket(mem, target.name, "history").messages + Copied(Runtime.Bucket(mem, from.name, "history").messages, filter)
            && Runtime.Bucket(after, target.name, "collected_data").messages ==
              Runtime.Bucket(mem, target.name, "collected_data").messages + Copied(Runtime.Bucket(mem, from.name, "collected_data").messages, filter)
            && Runtime.Bucket(after, from.name, "history") == Runtime.Bucket(mem, from.name, "history")
            && Runtime.Bucket(after, from.name, "collected_data") == Runtime.Bucket(mem, from.name, "collected_data")
  {
    CopyOnly(mem, from.name, target.name, "history", filter, target.name, "collected_data");
    CopyOnly(mem, from.name, target.name, "history", filter, from.name, "collected_data");
    CopyOnly(mem, from.name, target.name, "history", filter, from.name, "history");
    CopyOnly(mem, from.name, target.name, "history", filter, target.name, "history");
    var mid := CopiedInto(mem, from.name, target.name, "history", filter);
    CopyOnly(mid, from.name, target.name, "collected_data", filter, target.name, "history");
    CopyOnly(mid, from.name, target.name, "collected_data", filter, from.name, "history");
    CopyOnly(mid, from.name, target.name, "collected_data", filter, from.name, "collected_data");
    CopyOnly(mid, from.name, target.name, "collected_data", filter, target.name, "collected_data");
  }

  /** One copy sets the target bucket and no other bucket's content. */
  lemma CopyOnly(mem: Runtime.Buckets, from: string, to: string, id: string, filter: Option<set<MessageKind>>, name': string, id': string)
    ensures Runtime.Bucket(CopiedInto(mem, from, to, id, filter), name', id') ==
              if name' == to && id' == id then CopyFrom(Runtime.Bucket(mem, to, id), Runtime.Bucket(mem, from, id), filter)
              else Runtime.Bucket(mem, name', id')
  {
    var t1 := Runtime.Touch(mem, from, id);
    var t2 := Runtime.Touch(t1, to, id);
    Runtime.TouchCreatesOnce(mem, from, id, name', id');
    Runtime.TouchCreatesOnce(t1, to, id, name', id');
    Runtime.StoreOnly(t2, to, id, CopyFrom(Runtime.Bucket(mem, to, id), Runtime.Bucket(mem, from, id), filter), name', id');
  }


  // ----- Running an action -----

  /** What running an action leaves as the action itself: a consuming `SayAction` takes a new message. */
  predicate Executed(a: Action, b: Action)
    decreases a
  {
    match a
    case SayAction(_, consume) => b.SayAction? && b.consumeEvent == consume && (!consume ==> b == a)
    case CompositeAction(actions) =>
      b.CompositeAction? && |b.actions| == |actions|
      && forall k :: 0 <= k < |actions| ==> Executed(actions[k], b.actions[k])
    case _ => b == a
  }

  /**
   * The notices running an action makes before its own: for a composite, after each of its actions
   * (and that action's own inner notices), one per listener, in order.
   */
  function NoticesOf(listeners: seq<nat>, a: Action): seq<(nat, Action)>
    decreases a
  {
    if a.CompositeAction? then Notices(listeners, a.actions) else []
  }

  /** The notices of running a list of actions, each followed by its own notification. */
  function Notices(listeners: seq<nat>, actions: seq<Action>): seq<(nat, Action)>
    decreases actions
  {
    if actions == [] then []
    else
      var last := actions[|actions| - 1];
      Notices(listeners, actions[..|actions| - 1]) + NoticesOf(listeners, last) + Runtime.Notifications(listeners, last)
  }

  lemma NoticesSnoc(listeners: seq<nat>, done: seq<Action>, b: Action)
    ensures Notices(listeners, done + [b]) == Notices(listeners, done) + NoticesOf(listeners, b) + Runtime.Notifications(listeners, b)
  {
    assert (done + [b])[..|done|] == done;
  }

  /** The parts of the execution state an action can change; the current vertex and the listeners stay. */
  datatype World = World(eventStack: seq<Event>, memory: Runtime.Buckets, data: Option<Dict<Value>>,
                         notified: seq<(nat, Action)>, outputs: seq<(Value, string)>)

  function WorldOf(state: ExecState): World
    reads state
  {
    World(state.eventStack, state.memory, state.data, state.notified, state.outputs)
  }

  /** The world after the listeners are notified of `b`. */
  function Notified(w: World, listeners: seq<nat>, b: Action): World
  {
    w.(notified := w.notified + Runtime.Notifications(listeners, b))
  }

  /** How running an action ends: the action as it ran, or the error; and the world it leaves. */
  datatype Outcome = Outcome(result: Result<Action>, world: World)

  /** How running a list of actions ends: the actions as they ran, or the first error; and the world. */
  datatype Outcomes = Outcomes(result: Result<seq<Action>>, world: World)

  /** A module's LLM turn: its prompt's buckets are touched and the step's event is pushed. */
  function TurnEffect(o: Runtime.Oracles, rm: Runtime.RuntimeModule, input: Option<string>, allowTools: bool,
                      disabled: seq<string>, a: Action, w: World): Outcome
  {
    var step := RunStep(o, rm, w.memory, input, allowTools, disabled);
    Outcome(if step.result.Ok? then Ok(a) else Err(step.result.error),
            w.(eventStack := w.eventStack + step.pushed, memory := Runtime.RunTouched(rm, w.memory)))
  }

  /** `RunModuleAction`: the LLM turn on a user input's text, with tools; any other event is refused. */
  function ModuleEffect(o: Runtime.Oracles, rm: Runtime.RuntimeModule, disabled: seq<string>, event: Option<Event>,
                        a: Action, w: World): Outcome
  {
    if event.None? || !event.value.UserInput? then Outcome(Err(ValueError(ExpectedUserInput)), w)
    else TurnEffect(o, rm, Some(event.value.message), true, disabled, a, w)
  }

  /** `UpdateMemory`: the buckets become `MemoryAfter`, or nothing changes on its error. */
  function UpdateEffect(target: Spec.Module, copyFrom: Option<Spec.Module>, filter: Option<set<MessageKind>>,
                        event: Option<Event>, a: Action, w: World): Outcome
  {
    var after := MemoryAfter(w.memory, target, copyFrom, filter, event);
    if after.Err? then Outcome(Err(after.error), w) else Outcome(Ok(a), w.(memory := after.value))
  }

  /**
   * `RunTool`: a menu or open-ended tool takes its LLM turn with tools allowed; any other module
   * takes its task step, which pushes its event and stores its data when it succeeds.
   */
  function ToolEffect(o: Runtime.Oracles, tool: Runtime.RuntimeModule, event: Option<Event>, a: Action, w: World): Outcome
  {
    if tool.kind.MenuRuntime? || tool.kind.OpenEndedRuntime? then TurnEffect(o, tool, ToolInput(event), true, [], a, w)
    else
      var touched := w.(memory := Tasks.ToolMemory(tool, w.memory));
      match Tasks.TaskStepOf(tool, ToolInput(event), event, w.memory, o)
      case Err(e) => Outcome(Err(e), touched)
      case Ok(s) =>
        Outcome(Ok(a), touched.(eventStack := w.eventStack + [s.event], data := if s.stored.Some? then s.stored else w.data))
  }

  /** `SayAction`: the message said is output under the current state's id. */
  function SayEffect(current: Vtx, message: Option<Value>, consume: bool, event: Option<Event>, w: World): Outcome
  {
    var who := StateId(current);
    var said := if consume then EventMessage(event) else Ok(message);
    if who.Err? then Outcome(Err(who.error), w)
    else if said.Err? then Outcome(Err(said.error), w)
    else Outcome(Ok(SayAction(said.value, consume)),
                 w.(outputs := w.outputs + if said.value.Some? then [(said.value.value, who.value)] else []))
  }

  /** What running an action other than a composite does, at vertex `current`. */
  function BasicEffect(current: Vtx, a: Action, event: Option<Event>, o: Runtime.Oracles, w: World): Outcome
    requires !a.CompositeAction?
  {
    match a
    case RunModuleAction(rm, disabled) => ModuleEffect(o, rm, disabled, event, a, w)
    case ApplyLLM(tool, allowTools, disabled) => TurnEffect(o, tool, None, allowTools, disabled, a, w)
    case SayAction(message, consume) => SayEffect(current, message, consume, event, w)
    case RunTool(tool) => ToolEffect(o, tool, event, a, w)
    case UpdateMemory(target, copyFrom, filter) => UpdateEffect(target, copyFrom, filter, event, a, w)
    case PushEvent(e) => Outcome(Ok(a), w.(eventStack := w.eventStack + [e]))
  }

  /** What running an action does; a composite runs its actions in turn, notifying after each. */
  function Effect(current: Vtx, listeners: seq<nat>, a: Action, event: Option<Event>, o: Runtime.Oracles, w: World): Outcome
    decreases a
  {
    if a.CompositeAction? then
      var all := EffectAll(current, listeners, a.actions, event, o, w);
      Outcome(if all.result.Ok? then Ok(CompositeAction(all.result.value)) else Err(all.result.error), all.world)
    else BasicEffect(current, a, event, o, w)
  }

  /** Running a list of actions: each in turn, followed by its notification; the first failure stops it. */
  function EffectAll(current: Vtx, listeners: seq<nat>, actions: seq<Action>, event: Option<Event>, o: Runtime.Oracles,
                     w: World): Outcomes
    decreases actions
  {
    if actions == [] then Outcomes(Ok([]), w)
    else
      var front := EffectAll(current, listeners, actions[..|actions| - 1], event, o, w);
      if front.result.Err? then front
      else
        var out := Effect(current, listeners, actions[|actions| - 1], event, o, front.world);
        if out.result.Err? then Outcomes(Err(out.result.error), out.world)
        else Outcomes(Ok(front.result.value + [out.result.value]), Notified(out.world, listeners, out.result.value))
  }

  /** Once a prefix of the actions fails, running the rest changes nothing. */
  lemma {:induction false} EffectAllStops(current: Vtx, listeners: seq<nat>, actions: seq<Action>, event: Option<Event>,
                                          o: Runtime.Oracles, w: World, n: nat)
    requires n <= |actions| && EffectAll(current, listeners, actions[..n], event, o, w).result.Err?
    ensures EffectAll(current, listeners, actions, event, o, w) == EffectAll(current, listeners, actions[..n], event, o, w)
    decreases |actions|
  {
    if n < |actions| {
      var front := actions[..|actions| - 1];
      assert front[..n] == actions[..n];
      EffectAllStops(current, listeners, front, event, o, w, n);
    } else {
      assert actions[..n] == actions;
    }
  }

  /**
   * Running an action only adds notices; when it succeeds, the action as it ran is what `Executed`
   * allows, and the notices are those of its inner actions. An action other than a composite
   * notifies no one.
   */
  lemma {:induction false} EffectNotices(current: Vtx, listeners: seq<nat>, a: Action, event: Option<Event>,
                                         o: Runtime.Oracles, w: World)
    ensures var out := Effect(current, listeners, a, event, o, w);
            w.notified <= out.world.notified
            && (!a.CompositeAction? ==> out.world.notified == w.notified)
            && (out.result.Ok? ==> Executed(a, out.result.value)
                                   && out.world.notified == w.notified + NoticesOf(listeners, out.result.value))
    decreases a, 1
  {
    if a.CompositeAction? {
      EffectAllNotices(current, listeners, a.actions, event, o, w);
    }
  }

  lemma {:induction false} EffectAllNotices(current: Vtx, listeners: seq<nat>, actions: seq<Action>, event: Option<Event>,
                                            o: Runtime.Oracles, w: World)
    ensures var all := EffectAll(current, listeners, actions, event, o, w);
            w.notified <= all.world.notified
            && (all.result.Ok? ==> |all.result.value| == |actions|
                                   && (forall k :: 0 <= k < |actions| ==> Executed(actions[k], all.result.value[k]))
                                   && all.world.notified == w.notified + Notices(listeners, all.result.value))
    decreases actions, 0
  {
    if actions != [] {
      var init := actions[..|actions| - 1];
      var last := actions[|actions| - 1];
      EffectAllNotices(current, listeners, init, event, o, w);
      var front := EffectAll(current, listeners, init, event, o, w);
      if front.result.Ok? {
        EffectNotices(current, listeners, last, event, o, front.world);
        var out := Effect(current, listeners, last, event, o, front.world);
        if out.result.Ok? {
          SnocNotices(listeners, w, front.result.value, front.world, out.result.value, out.world);
          SnocExecuted(init, last, front.result.value, out.result.value);
          assert init + [last] == actions;
        }
      }
    }
  }

  /** One more action run after a prefix: its notices follow the prefix's. */
  lemma SnocNotices(listeners: seq<nat>, w: World, done: seq<Action>, mid: World, b: Action, after: World)
    requires mid.notified == w.notified + Notices(listeners, done)
    requires after.notified == mid.notified + NoticesOf(listeners, b)
    ensures w.notified <= Notified(after, listeners, b).notified
    ensures Notified(after, listeners, b).notified == w.notified + Notices(listeners, done + [b])
  {
    NoticesSnoc(listeners, done, b);
  }

  /** One more executed action after an executed prefix. */
  lemma SnocExecuted(init: seq<Action>, last: Action, done: seq<Action>, b: Action)
    requires |done| == |init| && forall k :: 0 <= k < |init| ==> Executed(init[k], done[k])
    requires Executed(last, b)
    ensures forall k :: 0 <= k < |init| + 1 ==> Executed((init + [last])[k], (done + [b])[k])
  {
  }

  /** A say that does not consume the event, at a state, outputs its own message under the state's name. */
  lemma PlainSayEffect(current: Vtx, listeners: seq<nat>, message: Option<Value>, event: Option<Event>,
                       o: Runtime.Oracles, w: World)
    requires !current.Initial?
    ensures Effect(current, listeners, SayAction(message, false), event, o, w) ==
              Outcome(Ok(SayAction(message, false)),
                      w.(outputs := w.outputs + if message.Some? then [(message.value, current.specModule.name)] else []))
  {
  }

  /**
   * `action.execute(state, event)`: the result and the new state are what `Effect` gives for the
   * state before. The result is the action as it stands after running.
   */
  method Execute(state: ExecState, a: Action, event: Option<Event>, o: Runtime.Oracles) returns (r: Result<Action>)
    modifies state
    decreases a, 1
    ensures Outcome(r, WorldOf(state)) == Effect(old(state.current), old(state.listeners), a, event, o, old(WorldOf(state)))
    ensures state.current == old(state.current) && state.listeners == old(state.listeners)
  {
    if a.CompositeAction? {
      r := ExecuteComposite(state, a, event, o);
    } else {
      r := ExecuteBasic(state, a, event, o);
    }
  }

  /** `execute` of every action but the composite one. */
  method ExecuteBasic(state: ExecState, a: Action, event: Option<Event>, o: Runtime.Oracles) returns (r: Result<Action>)
    requires !a.CompositeAction?
    modifies state
    ensures Outcome(r, WorldOf(state)) == BasicEffect(old(state.current), a, event, o, old(WorldOf(state)))
    ensures state.current == old(state.current) && state.listeners == old(state.listeners)
  {
    match a
    case RunModuleAction(rm, disabled) =>
      var done := ExecuteRunModule(state, rm, disabled, event, o);
      r := if done.Ok? then Ok(a) else Err(done.error);
    case ApplyLLM(tool, allowTools, disabled) =>
      var done := ExecuteApplyLLM(state, tool, allowTools, disabled, o);
      r := if done.Ok? then Ok(a) else Err(done.error);
    case SayAction(message, consume) =>
      var said := ExecuteSay(state, message, consume, event);
      r := if said.Ok? then Ok(SayAction(said.value, consume)) else Err(said.error);
    case RunTool(tool) =>
      var done := ExecuteRunTool(state, tool, event, o);
      r := if done.Ok? then Ok(a) else Err(done.error);
    case UpdateMemory(target, copyFrom, filter) =>
      var done := ExecuteUpdateMemory(state, target, copyFrom, filter, event);
      r := if done.Ok? then Ok(a) else Err(done.error);
    case PushEvent(e) =>
      state.PushEvent(e);
      r := Ok(a);
  }

  /** `CompositeAction.execute`: its actions in order, the listeners notified after each. */
  method ExecuteComposite(state: ExecState, a: Action, event: Option<Event>, o: Runtime.Oracles) returns (r: Result<Action>)
    requires a.CompositeAction?
    modifies state
    decreases a, 0
    ensures Outcome(r, WorldOf(state)) == Effect(old(state.current), old(state.listeners), a, event, o, old(WorldOf(state)))
    ensures state.current == old(state.current) && state.listeners == old(state.listeners)
  {
    var actions := a.actions;
    var current := state.current;
    var listeners := state.listeners;
    ghost var w := WorldOf(state);
    var done: seq<Action> := [];
    var i := 0;
    assert actions[..0] == [];
    while i < |actions|
      invariant i <= |actions|
      invariant state.current == current && state.listeners == listeners
      invariant EffectAll(current, listeners, actions[..i], event, o, w) == Outcomes(Ok(done), WorldOf(state))
    {
      assert actions[..i + 1][..i] == actions[..i];
      var b := Execute(state, actions[i], event, o);
      if b.Err? {
        EffectAllStops(current, listeners, actions, event, o, w, i + 1);
        return Err(b.error);
      }
      state.NotifyActionListeners(b.value);
      done := done + [b.value];
      i := i + 1;
    }
    assert actions[..i] == actions;
    r := Ok(CompositeAction(done));
  }
}
