// The first-generation task modules: data gathering where every property is required, question
// answering without the answer marker, and actions that read their data from the activating event.
module LegacyTasks {
  import opened Wrappers
  import opened Strings
  import opened Values
  import opened Dicts
  import opened Events
  import Common
  import Runtime
  import Spec
  import Tasks

  // ----- Data gathering -----

  /** The loop over the data model: every property whose value can be read is stored. */
  function Collect(props: seq<Spec.DataProperty>, query: Dict<Value>): (r: Dict<Value>)
    ensures |r| <= |props|
  {
    if props == [] then []
    else
      var front := Collect(props[..|props| - 1], query);
      var p := props[|props| - 1];
      match Common.GetPropertyValue(p, query)
      case None => front
      case Some(v) => Put(front, p.name, v)
  }

  /** Only the properties' names are collected. */
  lemma {:induction false} CollectOnlyNames(props: seq<Spec.DataProperty>, query: Dict<Value>, k: string)
    requires forall i :: 0 <= i < |props| ==> props[i].name != k
    ensures !HasKey(Collect(props, query), k)
  {
    if props != [] {
      var front := props[..|props| - 1];
      var p := props[|props| - 1];
      assert forall i :: 0 <= i < |front| ==> front[i] == props[i];
      CollectOnlyNames(front, query, k);
      match Common.GetPropertyValue(p, query)
      case None =>
      case Some(v) => GetPut(Collect(front, query), p.name, v, k);
    }
  }

  method CollectValues(props: seq<Spec.DataProperty>, query: Dict<Value>) returns (data: Dict<Value>)
    ensures data == Collect(props, query)
  {
    data := [];
    var i := 0;
    while i < |props|
      invariant i <= |props|
      invariant data == Collect(props[..i], query)
    {
      assert props[..i + 1][..i] == props[..i];
      var value := Common.GetPropertyValue(props[i], query);
      if value.Some? {
        data := Put(data, props[i].name, value.value);
      }
      i := i + 1;
    }
    assert props[..i] == props;
  }

  /**
   * The completion test `len(data) == len(properties)`: with distinct names it holds iff every
   * property's value can be read, whether or not the property is marked required.
   */
  lemma {:induction false} CompletesIffAllRead(props: seq<Spec.DataProperty>, query: Dict<Value>)
    requires Tasks.DistinctNames(props)
    ensures |Collect(props, query)| == |props| <==> forall i :: 0 <= i < |props| ==> Common.GetPropertyValue(props[i], query).Some?
  {
    if props != [] {
      var front := props[..|props| - 1];
      var p := props[|props| - 1];
      assert forall i :: 0 <= i < |front| ==> front[i] == props[i];
      assert Tasks.DistinctNames(front);
      CompletesIffAllRead(front, query);
      var c := Collect(front, query);
      forall i | 0 <= i < |front| ensures front[i].name != p.name {
        assert props[i].name != props[|props| - 1].name;
      }
      CollectOnlyNames(front, query, p.name);
      match Common.GetPropertyValue(p, query)
      case None => assert Collect(props, query) == c;
      case Some(v) => assert Collect(props, query) == c + [(p.name, v)];
    }
  }

  /** The names of the properties without data, in declaration order. */
  function AbsentNames(props: seq<Spec.DataProperty>, data: Dict<Value>): (r: seq<string>)
    ensures |r| <= |props|
  {
    if props == [] then []
    else
      var p := props[|props| - 1];
      AbsentNames(props[..|props| - 1], data) + if HasKey(data, p.name) then [] else [p.name]
  }

  /** A name is listed iff some property has it and there is no data under it. */
  lemma {:induction false} AbsentNamesExactly(props: seq<Spec.DataProperty>, data: Dict<Value>, n: string)
    ensures n in AbsentNames(props, data) <==> !HasKey(data, n) && exists i :: 0 <= i < |props| && props[i].name == n
  {
    if props != [] {
      var front := props[..|props| - 1];
      AbsentNamesExactly(front, data, n);
      assert forall i :: 0 <= i < |front| ==> front[i] == props[i];
      if n in AbsentNames(props, data) && n !in AbsentNames(front, data) {
        assert props[|props| - 1].name == n;
      }
    }
  }

  const AskHead := "Do not use the "
  const AskMiddle := " tool and ask the user the following:Please provide "

  /** The in-progress instruction: the missing properties, named to the caller. */
  function AskFor(name: string, missing: seq<string>): (r: string)
    ensures StartsWith(r, AskHead + name + AskMiddle) && EndsWith(r, Join(", ", missing))
  {
    var head := AskHead + name + AskMiddle;
    var r := head + Join(", ", missing);
    assert r[..|head|] == head && r[|head|..] == Join(", ", missing);
    r
  }

  /** The in-progress step: nothing stored, and an instruction as the event's memory. */
  function Progress(m: Spec.Module, data: Dict<Value>): (r: Tasks.TaskStep)
    ensures r.event == TaskInProgress(RawText(AskFor(m.name, AbsentNames(m.dataModel, data)))) && r.stored.None?
    requires m.DataGathering?
  {
    Tasks.TaskStep(TaskInProgress(RawText(AskFor(m.name, AbsentNames(m.dataModel, data)))), None)
  }

  /** The completion: the data, as the action left it, is carried by the event and stored. */
  function Completion(m: Spec.Module, data: Dict<Value>, o: Runtime.Oracles): (r: Result<Tasks.TaskStep>)
    requires m.DataGathering?
    ensures r.Ok? ==> r.value.event.TaskFinish? && r.value.event.memory == [] && r.value.stored.Some?
                      && r.value.event.extra == [("data", VDict(r.value.stored.value))]
    ensures m.onSuccess.None? ==>
              r == Ok(Tasks.TaskStep(TaskFinish(Some(VStr("The following data has been collected: " + Tasks.CollectedText(data))), [],
                                                [("data", VDict(data))]), Some(data)))
  {
    var default := "The following data has been collected: " + Tasks.CollectedText(data);
    var (result, data') :- Runtime.ExecuteAction(o, m.onSuccess, data, Some(default));
    Ok(Tasks.TaskStep(TaskFinish(Some(result), [], [("data", VDict(data'))]), Some(data')))
  }

  /**
   * `DataGatheringChatbotModule.run_as_tool`: malformed JSON is the in-progress path with nothing
   * collected; a missing input is not a string and JSON that is not an object has no `get`.
   */
  function DataGatheringStep(m: Spec.Module, toolInput: Option<string>, o: Runtime.Oracles): (r: Result<Tasks.TaskStep>)
    ensures toolInput.None? ==> r.Err?
  {
    if !m.DataGathering? then Err(AttributeError("data_model"))
    else if toolInput.None? then Err(TypeError("the JSON object must be str"))
    else
      match o.jsonLoads(toolInput.value)
      case None => Ok(Progress(m, []))
      case Some(json) =>
        if !json.VDict? && m.dataModel != [] then Err(AttributeError("get"))
        else
          var data := Collect(m.dataModel, if json.VDict? then json.entries else []);
          if |data| == |m.dataModel| then Completion(m, data, o) else Ok(Progress(m, data))
  }

  /** The data-gathering step computed with the collection loop. */
  method GatherData(m: Spec.Module, toolInput: Option<string>, o: Runtime.Oracles) returns (step: Result<Tasks.TaskStep>)
    ensures step == DataGatheringStep(m, toolInput, o)
  {
    step := DataGatheringStep(m, toolInput, o);
    if m.DataGathering? && toolInput.Some? {
      var json := o.jsonLoads(toolInput.value);
      if json.Some? && (json.value.VDict? || m.dataModel == []) {
        var data := CollectValues(m.dataModel, if json.value.VDict? then json.value.entries else []);
        step := if |data| == |m.dataModel| then Completion(m, data, o) else Ok(Progress(m, data));
      }
    }
  }

  // ----- Question answering -----

  /**
   * `get_question`: after a `Question:` prefix, the trimmed text without any `Question:`; otherwise
   * the `question` field of the whole input read as JSON. The error names the input.
   */
  function GetQuestion(toolInput: string, o: Runtime.Oracles): (r: Result<string>)
    ensures StartsWith(toolInput, Tasks.QuestionPrefix) ==> r == Ok(Strip(Replace(toolInput, Tasks.QuestionPrefix, "")))
    ensures !StartsWith(toolInput, Tasks.QuestionPrefix) && o.jsonLoads(toolInput).None? ==> r == Err(Raised("JSONDecodeError"))
    ensures !StartsWith(toolInput, Tasks.QuestionPrefix) && o.jsonLoads(toolInput).Some? ==>
              r == Tasks.QuestionField(o.jsonLoads(toolInput).value, toolInput)
  {
    if StartsWith(toolInput, Tasks.QuestionPrefix) then Ok(Strip(Replace(toolInput, Tasks.QuestionPrefix, "")))
    else
      match o.jsonLoads(toolInput)
      case None => Err(Raised("JSONDecodeError"))
      case Some(json) => Tasks.QuestionField(json, toolInput)
  }

  /** Both generations read a prefixed question alike; for JSON, the current one first cuts after the last `}`. */
  lemma GetQuestionAgrees(toolInput: string, o: Runtime.Oracles)
    ensures StartsWith(toolInput, Tasks.QuestionPrefix) ==> GetQuestion(toolInput, o) == Tasks.GetQuestion(toolInput, o)
    ensures !StartsWith(toolInput, Tasks.QuestionPrefix) && !Contains(toolInput, "}") ==>
              (GetQuestion(toolInput, o).Ok? <==> Tasks.GetQuestion(toolInput, o).Ok?)
              && (GetQuestion(toolInput, o).Ok? ==> GetQuestion(toolInput, o) == Tasks.GetQuestion(toolInput, o))
  {
  }

  /** `QuestionAnsweringRuntimeModule.run_as_tool`: the LLM's reply finishes the task as it is. */
  function QuestionAnsweringStep(rm: Runtime.RuntimeModule, toolInput: Option<string>, o: Runtime.Oracles): (r: Result<Event>)
    ensures toolInput.None? ==> r == Err(AttributeError("startswith"))
    ensures toolInput.Some? && GetQuestion(toolInput.value, o).Ok? ==>
              r == Ok(Finish(Some(VStr(o.answer(Runtime.PlainAnswer(Runtime.PromptOf(rm), GetQuestion(toolInput.value, o).value))))))
    ensures toolInput.Some? && GetQuestion(toolInput.value, o).Err? ==> r == Err(GetQuestion(toolInput.value, o).error)
  {
    if toolInput.None? then Err(AttributeError("startswith"))
    else
      var question :- GetQuestion(toolInput.value, o);
      Ok(Finish(Some(VStr(o.answer(Runtime.PlainAnswer(Runtime.PromptOf(rm), question))))))
  }

  // ----- Sequences and actions -----

  /** `SequenceChatbotModule.run_as_tool`: a finish event leaves the sequence as it came. */
  function SequenceStep(rm: Runtime.RuntimeModule, toolInput: Option<string>, activating: Option<Event>): (r: Result<Event>)
    ensures activating.Some? && activating.value.TaskFinish? ==> r == Ok(activating.value)
    ensures activating.Some? && !activating.value.TaskFinish? ==> r == Tasks.SequenceStep(rm, toolInput, activating)
    ensures activating.None? ==> r == Err(AssertionError)
  {
    if activating.Some? && activating.value.TaskFinish? then Ok(activating.value)
    else Tasks.SequenceStep(rm, toolInput, activating)
  }

  /** The loop copying each declared property out of whatever the event carries as `data`. */
  function ExtractData(props: seq<Spec.DataProperty>, available: Value): Result<Dict<Value>>
  {
    if props == [] then Ok([])
    else
      var front :- ExtractData(props[..|props| - 1], available);
      var p := props[|props| - 1];
      var present :- Tasks.PyIn(p.name, available);
      if !present then Err(ValueError("Data is missing the property " + p.name))
      else
        var v :- Tasks.PySubscript(available, p.name);
        Ok(Put(front, p.name, v))
  }

  /** On a dict, the extraction is the current one. */
  lemma {:induction false} ExtractDataOnDict(props: seq<Spec.DataProperty>, d: Dict<Value>)
    ensures ExtractData(props, VDict(d)) == Tasks.ExtractData(props, d)
  {
    if props != [] {
      ExtractDataOnDict(props[..|props| - 1], d);
    }
  }

  /** The event's `data` attribute: the event must have one, and not `None`. */
  function EventData(activating: Option<Event>): (r: Result<Value>)
    ensures activating.None? ==> r.Err?
    ensures r.Ok? ==> r.value != VNone
  {
    if activating.None? then Err(AttributeError("get_property_value"))
    else
      var a :- GetPropertyValue(activating.value, "data");
      if a.ObjectValue? then Err(TypeError("argument is not iterable")) else Ok(a.value)
  }

  /** `ActionChatbotModule.run_as_tool`, reading its data from the activating event. */
  function ActionStep(m: Spec.Module, activating: Option<Event>, o: Runtime.Oracles): (r: Result<Event>)
    ensures r.Ok? ==> (m.DataGathering? || m.ActionModule?) && m.onSuccess.Some? && m.onSuccess.value.execute.Some?
    ensures r.Ok? ==> r.value.TaskFinish? && r.value.memory == [] && r.value.extra == [] && r.value.result.Some?
  {
    var available :- EventData(activating);
    var props :- Tasks.DataProperties(m);
    var data :- ExtractData(props, available);
    if m.onSuccess.None? then Err(AttributeError("execute"))
    else if m.onSuccess.value.execute.None? then Err(ValueError("Action module should have an on_success.execute"))
    else
      var (result, _) :- Runtime.ExecuteAction(o, m.onSuccess, data, None);
      Ok(Finish(Some(result)))
  }

  /**
   * A finish event of data gathering hands its data on: an action whose properties were all
   * gathered reads exactly the gathered values.
   */
  lemma FinishedDataReachesAction(result: Option<Value>, data: Dict<Value>, props: seq<Spec.DataProperty>)
    ensures EventData(Some(TaskFinish(result, [], [("data", VDict(data))]))) == Ok(VDict(data))
    ensures ExtractData(props, VDict(data)) == Tasks.ExtractData(props, data)
  {
    FinishExtraAttribute(result, [], [("data", VDict(data))], "data");
    ExtractDataOnDict(props, data);
  }

  // ----- Running a module as a tool -----

  /** The step of each first-generation module kind; menus and open-ended modules cannot run as tools. */
  function TaskStepOf(rm: Runtime.RuntimeModule, toolInput: Option<string>, activating: Option<Event>,
                      o: Runtime.Oracles): (r: Result<Tasks.TaskStep>)
    ensures rm.kind.MenuRuntime? || rm.kind.OpenEndedRuntime? ==> r.Err?
    ensures !rm.kind.DataGatheringRuntime? && r.Ok? ==> r.value.stored.None?
  {
    match rm.kind
    case DataGatheringRuntime => DataGatheringStep(rm.specModule, toolInput, o)
    case QuestionAnsweringRuntime =>
      var e :- QuestionAnsweringStep(rm, toolInput, o);
      Ok(Tasks.TaskStep(e, None))
    case SequenceRuntime =>
      var e :- SequenceStep(rm, toolInput, activating);
      Ok(Tasks.TaskStep(e, None))
    case ActionRuntime =>
      var e :- ActionStep(rm.specModule, activating, o);
      Ok(Tasks.TaskStep(e, None))
    case _ => Err(Raised("This module cannot be run as a tool"))
  }

  /** `run_as_tool`: one event pushed, and the data stored on completion. */
  method RunAsTool<V, N>(state: Runtime.ExecutionState<V, N>, rm: Runtime.RuntimeModule, toolInput: Option<string>,
                         activating: Option<Event>, o: Runtime.Oracles) returns (r: Result<()>)
    modifies state
    ensures var step := TaskStepOf(rm, toolInput, activating, o);
            (step.Err? ==> r == Err(step.error) && state.eventStack == old(state.eventStack) && state.data == old(state.data))
            && (step.Ok? ==> r == Ok(()) && state.eventStack == old(state.eventStack) + [step.value.event]
                             && state.data == (if step.value.stored.Some? then step.value.stored else old(state.data)))
    ensures state.current == old(state.current) && state.memory == old(state.memory) && state.listeners == old(state.listeners)
    ensures state.notified == old(state.notified) && state.outputs == old(state.outputs)
  {
    var step: Result<Tasks.TaskStep>;
    if rm.kind.DataGatheringRuntime? {
      step := GatherData(rm.specModule, toolInput, o);
    } else {
      step := TaskStepOf(rm, toolInput, activating, o);
    }
    r := Tasks.Apply(state, step);
  }
}
