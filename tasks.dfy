// What each kind of runtime module does when it is run as a tool: data gathering, question
// answering, sequences and actions (the current runtime modules).
module Tasks {
  import opened Wrappers
  import opened Strings
  import opened Values
  import opened Dicts
  import opened Memories
  import opened Events
  import Common
  import Runtime
  import Spec

  // ----- Python containers -----

  /** `name in container` for the values JSON can produce; other values are not iterable. */
  function PyIn(name: string, container: Value): (r: Result<bool>)
    ensures container.VDict? ==> r == Ok(HasKey(container.entries, name))
  {
    match container
    case VDict(d) => Ok(HasKey(d, name))
    case VList(items) => Ok(VStr(name) in items)
    case VStr(s) => Ok(Contains(s, name))
    case _ => Err(TypeError("argument is not iterable"))
  }

  /** `container[name]`: only a dict can be indexed by a string. */
  function PySubscript(container: Value, name: string): (r: Result<Value>)
    ensures r.Ok? <==> container.VDict? && HasKey(container.entries, name)
    ensures r.Ok? ==> Get(container.entries, name) == Some(r.value)
  {
    match container
    case VDict(d) => (match Get(d, name) case Some(v) => Ok(v) case None => Err(KeyError(name)))
    case _ => Err(TypeError("string indices must be integers"))
  }

  /** `module.data_model.properties`: only data-gathering and action modules have a data model. */
  function DataProperties(m: Spec.Module): (r: Result<seq<Spec.DataProperty>>)
    ensures r.Ok? <==> m.DataGathering? || m.ActionModule?
  {
    if m.DataGathering? || m.ActionModule? then Ok(m.dataModel) else Err(AttributeError("data_model"))
  }

  /** `module.on_success`. */
  function OnSuccess(m: Spec.Module): (r: Result<Option<Spec.Action>>)
    ensures r.Ok? <==> Spec.HasOnSuccess(m)
  {
    if Spec.HasOnSuccess(m) then Ok(m.onSuccess) else Err(AttributeError("on_success"))
  }

  predicate DistinctNames(props: seq<Spec.DataProperty>)
  {
    forall i, j :: 0 <= i < j < |props| ==> props[i].name != props[j].name
  }

  // ----- Collecting the data of a data-gathering module -----

  /** What becomes of one property's value: stored (possibly reformatted), not understood, or dropped. */
  datatype Resolution = Absent | Stored(value: Value) | Unknown(value: Value) | Dropped

  /**
   * One property of `run_as_tool`'s loop: a value with a typed formatter is stored when it formats;
   * otherwise the fallback formatter decides between storing the original and marking it unknown.
   */
  function Resolve(p: Spec.DataProperty, query: Dict<Value>, o: Runtime.Oracles): Resolution
  {
    match Common.GetPropertyValue(p, query)
    case None => Absent
    case Some(v) =>
      if o.formatterFor(p.typ) then
        match o.format(p.typ, v, p) case Some(fv) => Stored(fv) case None => Dropped
      else if o.fallbackFormat(v, p).Some? then Stored(v)
      else Unknown(v)
  }

  /** The collected data and the values that were not understood. */
  datatype Collected = Collected(data: Dict<Value>, unknown: seq<Value>)

  function CollectStep(c: Collected, name: string, r: Resolution): Collected
  {
    match r
    case Stored(v) => Collected(Put(c.data, name, v), c.unknown)
    case Unknown(v) => Collected(c.data, c.unknown + [v])
    case _ => c
  }

  /** The loop over the data model, in declaration order. */
  function Collect(props: seq<Spec.DataProperty>, query: Dict<Value>, o: Runtime.Oracles): Collected
  {
    if props == [] then Collected([], [])
    else
      var p := props[|props| - 1];
      CollectStep(Collect(props[..|props| - 1], query, o), p.name, Resolve(p, query, o))
  }

  method CollectValues(props: seq<Spec.DataProperty>, query: Dict<Value>, o: Runtime.Oracles) returns (c: Collected)
    ensures c == Collect(props, query, o)
  {
    c := Collected([], []);
    var i := 0;
    while i < |props|
      invariant i <= |props|
      invariant c == Collect(props[..i], query, o)
    {
      assert props[..i + 1][..i] == props[..i];
      var p := props[i];
      var value := Common.GetPropertyValue(p, query);
      if value.Some? {
        if o.formatterFor(p.typ) {
          var formatted := o.format(p.typ, value.value, p);
          if formatted.Some? {
            c := Collected(Put(c.data, p.name, formatted.value), c.unknown);
          }
        } else {
          var fallback := o.fallbackFormat(value.value, p);
          if fallback.Some? {
            c := Collected(Put(c.data, p.name, value.value), c.unknown);
          } else {
            c := Collected(c.data, c.unknown + [value.value]);
          }
        }
      }
      i := i + 1;
    }
    assert props[..i] == props;
  }

  /** No property of that name: nothing is collected under it. */
  lemma {:induction false} CollectOther(props: seq<Spec.DataProperty>, query: Dict<Value>, o: Runtime.Oracles, k: string)
    requires forall i :: 0 <= i < |props| ==> props[i].name != k
    ensures Get(Collect(props, query, o).data, k) == None
  {
    if props != [] {
      var front := props[..|props| - 1];
      assert forall i :: 0 <= i < |front| ==> front[i] == props[i];
      CollectOther(front, query, o, k);
      var c := Collect(front, query, o);
      var p := props[|props| - 1];
      match Resolve(p, query, o)
      case Stored(v) => GetPut(c.data, p.name, v, k);
      case _ =>
    }
  }

  /** With distinct names, a property's entry is its stored value, and is missing otherwise. */
  lemma {:induction false} CollectProperty(props: seq<Spec.DataProperty>, query: Dict<Value>, o: Runtime.Oracles, i: nat)
    requires DistinctNames(props) && i < |props|
    ensures Get(Collect(props, query, o).data, props[i].name)
            == match Resolve(props[i], query, o) case Stored(v) => Some(v) case _ => None
  {
    var front := props[..|props| - 1];
    var p := props[|props| - 1];
    var c := Collect(front, query, o);
    assert forall j :: 0 <= j < |front| ==> front[j] == props[j];
    if i == |props| - 1 {
      CollectOther(front, query, o, p.name);
      match Resolve(p, query, o)
      case Stored(v) => GetPut(c.data, p.name, v, p.name);
      case _ =>
    } else {
      CollectProperty(front, query, o, i);
      match Resolve(p, query, o)
      case Stored(v) => GetPut(c.data, p.name, v, props[i].name);
      case _ =>
    }
  }

  /** The values not understood, in declaration order. */
  function UnknownsOf(props: seq<Spec.DataProperty>, query: Dict<Value>, o: Runtime.Oracles): seq<Value>
  {
    if props == [] then []
    else
      var r := Resolve(props[|props| - 1], query, o);
      UnknownsOf(props[..|props| - 1], query, o) + if r.Unknown? then [r.value] else []
  }

  lemma {:induction false} CollectUnknowns(props: seq<Spec.DataProperty>, query: Dict<Value>, o: Runtime.Oracles)
    ensures Collect(props, query, o).unknown == UnknownsOf(props, query, o)
  {
    if props != [] {
      CollectUnknowns(props[..|props| - 1], query, o);
    }
  }

  /** The completion rule: every required property is present. */
  predicate AllMandatory(props: seq<Spec.DataProperty>, data: Dict<Value>)
  {
    forall i :: 0 <= i < |props| && props[i].required ==> HasKey(data, props[i].name)
  }

  /** `all_mandatory_data_provided`. */
  method AllMandatoryDataProvided(props: seq<Spec.DataProperty>, data: Dict<Value>) returns (b: bool)
    ensures b <==> AllMandatory(props, data)
  {
    var i := 0;
    while i < |props|
      invariant i <= |props|
      invariant forall j :: 0 <= j < i && props[j].required ==> HasKey(data, props[j].name)
    {
      if props[i].required && !HasKey(data, props[i].name) {
        return false;
      }
      i := i + 1;
    }
    return true;
  }

  /** Data gathering completes iff every required property resolves to a stored value. */
  lemma CompletesIffRequiredStored(props: seq<Spec.DataProperty>, query: Dict<Value>, o: Runtime.Oracles)
    requires DistinctNames(props)
    ensures AllMandatory(props, Collect(props, query, o).data)
            <==> forall i :: 0 <= i < |props| && props[i].required ==> Resolve(props[i], query, o).Stored?
  {
    forall i | 0 <= i < |props|
      ensures HasKey(Collect(props, query, o).data, props[i].name) <==> Resolve(props[i], query, o).Stored?
    {
      CollectProperty(props, query, o, i);
    }
  }

  // ----- Texts of a data-gathering step -----

  /** The `k = v` entries of the collected data, in order. */
  function Pairs(data: Dict<Value>): (r: seq<string>)
    ensures |r| == |data|
    ensures forall i :: 0 <= i < |data| ==> r[i] == data[i].0 + " = " + PyStr(data[i].1)
  {
    if data == [] then [] else [data[0].0 + " = " + PyStr(data[0].1)] + Pairs(data[1..])
  }

  /** `",".join(f'{k} = {v}' ...)`. */
  function CollectedText(data: Dict<Value>): string
  {
    Join(",", Pairs(data))
  }

  /** Each collected entry appears in the text as `k = v`. */
  lemma CollectedTextLists(data: Dict<Value>, i: nat)
    requires i < |data|
    ensures Contains(CollectedText(data), data[i].0 + " = " + PyStr(data[i].1))
  {
    JoinContains(",", Pairs(data), i);
  }

  /** The property names `get_missing_data_instruction` keeps: absent ones whose `required` is `required`. */
  function MissingNames(props: seq<Spec.DataProperty>, data: Dict<Value>, required: bool): (r: seq<string>)
    ensures |r| <= |props|
  {
    if props == [] then []
    else
      var p := props[|props| - 1];
      MissingNames(props[..|props| - 1], data, required)
      + if !HasKey(data, p.name) && p.required == required then [p.name] else []
  }

  /** A name is listed iff some property of that kind with that name has no data. */
  lemma {:induction false} MissingNamesExactly(props: seq<Spec.DataProperty>, data: Dict<Value>, required: bool, n: string)
    ensures n in MissingNames(props, data, required)
            <==> exists i :: 0 <= i < |props| && props[i].name == n && !HasKey(data, n) && props[i].required == required
  {
    if props != [] {
      var front := props[..|props| - 1];
      MissingNamesExactly(front, data, required, n);
      assert forall i :: 0 <= i < |front| ==> front[i] == props[i];
      if n in MissingNames(props, data, required) && n !in MissingNames(front, data, required) {
        assert props[|props| - 1].name == n;
      }
    }
  }

  /** `get_missing_data_instruction`. */
  function MissingDataInstruction(props: seq<Spec.DataProperty>, data: Dict<Value>, required: bool): string
  {
    Join(", ", MissingNames(props, data, required))
  }

  /** Nothing missing gives the empty text; a missing property with a name never does. */
  lemma MissingDataInstructionEmpty(props: seq<Spec.DataProperty>, data: Dict<Value>, required: bool, i: nat)
    requires i < |props| && !HasKey(data, props[i].name) && props[i].required == required && props[i].name != ""
    ensures MissingDataInstruction(props, data, required) != ""
  {
    var names := MissingNames(props, data, required);
    MissingNamesExactly(props, data, required, props[i].name);
    var k :| 0 <= k < |names| && names[k] == props[i].name;
    JoinContains(", ", names, k);
  }

  const MissingDataHead := "Check in the previous conversation history, and if the data is not present, ask the Human to provide the missing data: "
  const OptionalHead := "\nIf you have not asked for it before, tell the human that the following data is optional: "
  const UnknownHead := "\nIn addition, tell the human that you could not understand: "

  /** The texts of values joined with `str.join`: each must be a string. */
  function StrValues(vs: seq<Value>): (r: Result<seq<string>>)
    ensures r.Ok? <==> forall i :: 0 <= i < |vs| ==> vs[i].VStr?
    ensures r.Ok? ==> |r.value| == |vs| && forall i :: 0 <= i < |vs| ==> r.value[i] == vs[i].s
  {
    if vs == [] then Ok([])
    else if !vs[0].VStr? then Err(TypeError("sequence item: expected str instance"))
    else
      var rest := StrValues(vs[1..]);
      if rest.Err? then rest else Ok([vs[0].s] + rest.value)
  }

  /** The joined unknown values, when there are any. */
  function UnknownText(unknown: seq<Value>): (r: Result<Option<string>>)
    ensures r.Ok? <==> forall i :: 0 <= i < |unknown| ==> unknown[i].VStr?
    ensures r.Ok? ==> (r.value.None? <==> unknown == [])
    ensures r.Ok? && unknown != [] ==> r.value == Some(Join(",", StrValues(unknown).value))
  {
    if unknown == [] then Ok(None)
    else
      var texts :- StrValues(unknown);
      Ok(Some(Join(",", texts)))
  }

  /** A base text followed by an optional line (when its list is not empty) and an optional last line. */
  function WithLines(base: string, optionalHead: string, optional: string, lastHead: string, last: Option<string>): (r: string)
    ensures StartsWith(r, base)
    ensures optional == "" && last.None? ==> r == base
    ensures optional != "" ==> Contains(r, optionalHead + optional)
    ensures last.Some? ==> EndsWith(r, lastHead + last.value)
  {
    var withOptional := if |optional| > 0 then base + optionalHead + optional else base;
    var tail := if last.None? then "" else lastHead + last.value;
    MiddleOccurs(base, optionalHead + optional, tail);
    assert (withOptional + tail)[|withOptional|..] == tail;
    assert (withOptional + tail)[..|base|] == base;
    assert |optional| > 0 ==> withOptional + tail == base + (optionalHead + optional) + tail;
    assert |optional| == 0 && last.None? ==> withOptional + tail == base;
    withOptional + tail
  }

  /** A text contains each of its middle parts. */
  lemma MiddleOccurs(a: string, b: string, c: string)
    ensures Contains(a + b + c, b)
  {
    assert (a + b + c)[|a|..|a| + |b|] == b;
    assert OccursAt(a + b + c, b, |a|);
  }

  /**
   * The in-progress instruction: the missing required data, then the missing optional data and
   * the values not understood, each on a line of its own when there are any.
   */
  function InProgressInstruction(props: seq<Spec.DataProperty>, c: Collected): (r: Result<string>)
    ensures r.Ok? <==> forall i :: 0 <= i < |c.unknown| ==> c.unknown[i].VStr?
    ensures r.Ok? ==> StartsWith(r.value, MissingDataHead + MissingDataInstruction(props, c.data, true))
    ensures r.Ok? && MissingDataInstruction(props, c.data, false) == "" && c.unknown == [] ==>
              r.value == MissingDataHead + MissingDataInstruction(props, c.data, true)
    ensures r.Ok? && MissingDataInstruction(props, c.data, false) != "" ==>
              Contains(r.value, OptionalHead + MissingDataInstruction(props, c.data, false))
    ensures r.Ok? && c.unknown != [] ==> EndsWith(r.value, UnknownHead + Join(",", StrValues(c.unknown).value))
  {
    var unknown :- UnknownText(c.unknown);
    Ok(WithLines(MissingDataHead + MissingDataInstruction(props, c.data, true), OptionalHead,
                 MissingDataInstruction(props, c.data, false), UnknownHead, unknown))
  }

  // ----- Data gathering -----

  /** What one `run_as_tool` leaves behind: the event it pushes and the data it stores, if any. */
  datatype TaskStep = TaskStep(event: Event, stored: Option<Dict<Value>>)

  /** The memory piece holding the collected data: its text and its dict. */
  function DataPiece(text: string, data: Dict<Value>): Memory
  {
    Memory([Message(Data, text)], Some(data))
  }

  /** The completion of a data-gathering step for the collected data. */
  function Completion(m: Spec.Module, data: Dict<Value>, o: Runtime.Oracles): (r: Result<TaskStep>)
    requires m.DataGathering?
    ensures r.Ok? ==>
              r.value.event.TaskFinish? && r.value.stored.Some?
              && r.value.event.extra == [("data", VDict(r.value.stored.value))]
              && Get(r.value.event.memory, "collected_data") == Some(DataPiece(CollectedText(data), r.value.stored.value))
              && r.value.event.result.Some? && r.value.event.result.value.VStr?
              && Get(r.value.event.memory, "instruction")
                 == Some(Piece(Instruction, "Tell the user:" + r.value.event.result.value.s))
  {
    var collected := CollectedText(data);
    match Runtime.ExecuteAction(o, m.onSuccess, data, Some("The following data has been collected: " + collected))
    case Err(e) => Err(e)
    case Ok((result, data')) =>
      if !result.VStr? then Err(TypeError("can only concatenate str"))
      else
        var memory := [("collected_data", DataPiece(collected, data')), ("instruction", Piece(Instruction, "Tell the user:" + result.s))];
        Ok(TaskStep(TaskFinish(Some(result), memory, [("data", VDict(data'))]), Some(data')))
  }

  /** Without an `on_success` action the step finishes with the default summary of the data. */
  lemma CompletionDefault(m: Spec.Module, data: Dict<Value>, o: Runtime.Oracles)
    requires m.DataGathering? && m.onSuccess.None?
    ensures Completion(m, data, o).Ok?
    ensures Completion(m, data, o).value.event.result == Some(VStr("The following data has been collected: " + CollectedText(data)))
    ensures Completion(m, data, o).value.stored == Some(data)
  {
  }

  /** The in-progress step for what has been collected so far. */
  function Progress(props: seq<Spec.DataProperty>, c: Collected): (r: Result<TaskStep>)
    ensures r.Ok? ==> r.value.stored.None? && r.value.event.TaskInProgress? && r.value.event.progress.Pieces?
    ensures r.Ok? <==> InProgressInstruction(props, c).Ok?
    ensures r.Ok? ==>
              r.value.event.progress.pieces
              == [("collected_data", DataPiece(CollectedText(c.data), c.data)),
                  ("instruction", Piece(Instruction, InProgressInstruction(props, c).value))]
  {
    var instruction :- InProgressInstruction(props, c);
    var memory := [("collected_data", DataPiece(CollectedText(c.data), c.data)), ("instruction", Piece(Instruction, instruction))];
    Ok(TaskStep(TaskInProgress(Pieces(memory)), None))
  }

  /** The step after the JSON has been read: complete when every required property is present. */
  function StepForQuery(m: Spec.Module, query: Dict<Value>, o: Runtime.Oracles): Result<TaskStep>
    requires m.DataGathering?
  {
    var c := Collect(m.dataModel, query, o);
    if AllMandatory(m.dataModel, c.data) then Completion(m, c.data, o) else Progress(m.dataModel, c)
  }

  /**
   * `DataGatheringChatbotModule.run_as_tool`. A missing input reads as `{}`, malformed JSON is the
   * in-progress path with nothing collected, and JSON that is not an object has no `get`.
   */
  function DataGatheringStep(m: Spec.Module, toolInput: Option<string>, o: Runtime.Oracles): (r: Result<TaskStep>)
  {
    if !m.DataGathering? then Err(AttributeError("data_model"))
    else
      var input := if toolInput.Some? then toolInput.value else "{}";
      match o.jsonLoads(input)
      case None => Progress(m.dataModel, Collected([], []))
      case Some(VDict(query)) => StepForQuery(m, query, o)
      case Some(_) => if m.dataModel == [] then StepForQuery(m, [], o) else Err(AttributeError("get"))
  }

  /** Malformed JSON asks for every required property and lists every optional one. */
  lemma MalformedJsonAsksForAll(m: Spec.Module, toolInput: Option<string>, o: Runtime.Oracles)
    requires m.DataGathering?
    requires o.jsonLoads(if toolInput.Some? then toolInput.value else "{}").None?
    ensures DataGatheringStep(m, toolInput, o).Ok?
    ensures var r := DataGatheringStep(m, toolInput, o).value;
            r.event.TaskInProgress? && r.stored.None?
            && Get(r.event.progress.pieces, "instruction")
               == Some(Piece(Instruction, InProgressInstruction(m.dataModel, Collected([], [])).value))
  {
  }

  // ----- Question extraction -----

  const QuestionPrefix := "Question:"

  /** `keep_until_last_brace`: the text up to and including its last `}`. */
  function KeepUntilLastBrace(s: string): (r: string)
    ensures StartsWith(s, r)
    ensures !Contains(s, "}") ==> r == s
    ensures Contains(s, "}") ==> EndsWith(r, "}") && !Contains(s[|r|..], "}")
  {
    match LastIndexOf(s, "}")
    case None => s
    case Some(i) =>
      assert s[..i + 1][i..i + 1] == s[i..i + 1];
      NothingAfterLast(s, "}", i);
      s[..i + 1]
  }

  /** Past the last occurrence of a one-character pattern the text holds no other. */
  lemma NothingAfterLast(s: string, p: string, i: nat)
    requires |p| == 1 && i < |s| && forall j :: i < j ==> !OccursAt(s, p, j)
    ensures !Contains(s[i + 1..], p)
  {
    var t := s[i + 1..];
    assert t == s[i + 1..|s|];
    forall j | 0 <= j <= |t| && OccursAt(t, p, j) ensures false {
      OccursInSlice(s, p, i + 1, |s|, j);
    }
  }

  /** The error `get_question` raises, naming the text it last read. */
  function NotAQuestion(text: string): Error
  {
    ValueError("The query should start with \"Question:\" but it was: " + text)
  }

  /** Reading the `question` field of parsed JSON. */
  function QuestionField(json: Value, text: string): (r: Result<string>)
    ensures json.VDict? && Get(json.entries, "question").Some? && Get(json.entries, "question").value.VStr? ==>
              r == Ok(Strip(Get(json.entries, "question").value.s))
    ensures json.VDict? && !HasKey(json.entries, "question") ==> r == Err(NotAQuestion(text))
  {
    var present :- PyIn("question", json);
    if !present then Err(NotAQuestion(text))
    else
      var v :- PySubscript(json, "question");
      if v.VStr? then Ok(Strip(v.s)) else Err(AttributeError("strip"))
  }

  /**
   * `get_question`: after a `Question:` prefix, the trimmed text without any `Question:`; otherwise
   * the `question` field of the JSON that ends at the last `}`.
   */
  function GetQuestion(toolInput: string, o: Runtime.Oracles): (r: Result<string>)
    ensures StartsWith(toolInput, QuestionPrefix) ==> r == Ok(Strip(Replace(toolInput, QuestionPrefix, "")))
    ensures !StartsWith(toolInput, QuestionPrefix) && o.jsonLoads(KeepUntilLastBrace(toolInput)).None? ==>
              r == Err(Raised("JSONDecodeError"))
  {
    if StartsWith(toolInput, QuestionPrefix) then Ok(Strip(Replace(toolInput, QuestionPrefix, "")))
    else
      var text := KeepUntilLastBrace(toolInput);
      match o.jsonLoads(text)
      case None => Err(Raised("JSONDecodeError"))
      case Some(json) => QuestionField(json, text)
  }

  /** A prefixed question without further markers is the trimmed remainder. */
  lemma PrefixedQuestion(o: Runtime.Oracles, question: string)
    requires !Contains(question, QuestionPrefix)
    ensures GetQuestion(QuestionPrefix + question, o) == Ok(Strip(question))
  {
    RemoveLeading(QuestionPrefix, question);
  }

  /** Removing every `p` from `p + q`, where `q` has none, leaves `q`. */
  lemma RemoveLeading(p: string, q: string)
    requires |p| > 0 && !Contains(q, p)
    ensures Replace(p + q, p, "") == q
  {
    var s := p + q;
    assert s[0..|p|] == p;
    assert OccursAt(s, p, 0);
    assert IndexOf(s, p) == Some(0);
    assert s[|p|..] == q;
    assert s[..0] == [];
  }

  const AnswerMarker := "ANSWER_IS:"

  /** `parse_LLM_output`: every `ANSWER_IS:` removed, then trimmed. */
  function ParseLLMOutput(output: string): (r: string)
    ensures !Contains(output, AnswerMarker) ==> r == Strip(output)
  {
    Strip(Replace(output, AnswerMarker, ""))
  }

  /** An answer behind the marker, with no further marker, is the trimmed answer: the marker is gone. */
  lemma MarkedAnswer(answer: string)
    requires !Contains(answer, AnswerMarker)
    ensures ParseLLMOutput(AnswerMarker + answer) == Strip(answer)
  {
    RemoveLeading(AnswerMarker, answer);
  }

  // ----- Question answering -----

  /** The question put to the LLM, after the module's presentation and task prompts. */
  function QuestionRequest(rm: Runtime.RuntimeModule, question: string): Runtime.AnswerRequest
  {
    Runtime.MarkedAnswer(rm.presentationPrompt + "\n" + rm.taskPrompt, question)
  }

  /**
   * `QuestionAnsweringRuntimeModule.run_as_tool`: the cleaned answer, passed through `on_success`
   * with `result` and `question` as data.
   */
  function QuestionAnsweringStep(rm: Runtime.RuntimeModule, toolInput: Option<string>, o: Runtime.Oracles): (r: Result<Event>)
    ensures toolInput.None? ==> r.Err?
    ensures r.Ok? ==> r.value.TaskFinish? && r.value.memory == [] && r.value.extra == []
  {
    if toolInput.None? then Err(AttributeError("startswith"))
    else
      var question :- GetQuestion(toolInput.value, o);
      var response := ParseLLMOutput(o.answer(QuestionRequest(rm, question)));
      var onSuccess :- OnSuccess(rm.specModule);
      var (result, _) :- Runtime.ExecuteAction(o, onSuccess, [("result", VStr(response)), ("question", VStr(question))], Some(response));
      Ok(Finish(Some(result)))
  }

  /** Without `on_success` the answer itself finishes the task. */
  lemma QuestionAnsweringPlain(rm: Runtime.RuntimeModule, toolInput: string, o: Runtime.Oracles)
    requires rm.specModule.QuestionAnswering? && rm.specModule.onSuccess.None? && GetQuestion(toolInput, o).Ok?
    ensures QuestionAnsweringStep(rm, Some(toolInput), o)
            == Ok(Finish(Some(VStr(ParseLLMOutput(o.answer(QuestionRequest(rm, GetQuestion(toolInput, o).value)))))))
  {
  }

  // ----- Sequences and actions -----

  /**
   * `SequenceChatbotModule.run_as_tool`: a finish event leaves the sequence with its memory and no
   * message; any other activation enters the first step with the same input and answer.
   */
  function SequenceStep(rm: Runtime.RuntimeModule, toolInput: Option<string>, activating: Option<Event>): (r: Result<Event>)
    ensures activating.None? ==> r == Err(AssertionError)
    ensures activating.Some? && activating.value.TaskFinish? ==> r == Ok(TaskFinish(None, activating.value.memory, []))
    ensures activating.Some? && activating.value.ActivateModule? && Runtime.ToolList(rm) != [] ==>
              r == Ok(ActivateModule(Runtime.ToolList(rm)[0].specModule, toolInput, activating.value.previousAnswer))
    ensures activating.Some? && !activating.value.TaskFinish? && Runtime.ToolList(rm) == [] ==> r.Err?
  {
    if activating.None? then Err(AssertionError)
    else if activating.value.TaskFinish? then Ok(TaskFinish(None, activating.value.memory, []))
    else if Runtime.ToolList(rm) == [] then Err(IndexError("list index out of range"))
    else if !activating.value.ActivateModule? then Err(AttributeError("previous_answer"))
    else Ok(ActivateModule(Runtime.ToolList(rm)[0].specModule, toolInput, activating.value.previousAnswer))
  }

  /** The data an action takes: one entry per declared property, copied from what is available. */
  function ExtractData(props: seq<Spec.DataProperty>, available: Dict<Value>): Result<Dict<Value>>
  {
    if props == [] then Ok([])
    else
      var front :- ExtractData(props[..|props| - 1], available);
      var p := props[|props| - 1];
      match Get(available, p.name)
      case None => Err(ValueError("Data is missing the property " + p.name))
      case Some(v) => Ok(Put(front, p.name, v))
  }

  /** The extraction succeeds iff every declared property is available. */
  lemma {:induction false} ExtractDataOk(props: seq<Spec.DataProperty>, available: Dict<Value>)
    ensures ExtractData(props, available).Ok? <==> forall i :: 0 <= i < |props| ==> HasKey(available, props[i].name)
  {
    if props != [] {
      var front := props[..|props| - 1];
      var p := props[|props| - 1];
      ExtractDataOk(front, available);
      assert forall i :: 0 <= i < |front| ==> front[i] == props[i];
      assert ExtractData(props, available).Ok? <==> ExtractData(front, available).Ok? && HasKey(available, p.name);
    }
  }

  /** Each declared property gets its available value. */
  lemma {:induction false} ExtractDataGets(props: seq<Spec.DataProperty>, available: Dict<Value>, d: Dict<Value>, i: nat)
    requires ExtractData(props, available) == Ok(d) && i < |props|
    ensures Get(d, props[i].name) == Get(available, props[i].name)
  {
    var front := props[..|props| - 1];
    var p := props[|props| - 1];
    var k := props[i].name;
    assert i < |front| ==> front[i].name == k;
    assert i == |front| ==> p.name == k;
    var rest := ExtractData(front, available);
    var v := Get(available, p.name);
    assert rest.Ok? && v.Some? && d == Put(rest.value, p.name, v.value);
    GetPut(rest.value, p.name, v.value, k);
    if p.name != k {
      ExtractDataGets(front, available, rest.value, i);
    }
  }

  /** Nothing but the declared properties is copied. */
  lemma {:induction false} ExtractDataOnly(props: seq<Spec.DataProperty>, available: Dict<Value>, k: string)
    requires ExtractData(props, available).Ok? && forall i :: 0 <= i < |props| ==> props[i].name != k
    ensures Get(ExtractData(props, available).value, k) == None
  {
    if props != [] {
      var front := props[..|props| - 1];
      var p := props[|props| - 1];
      assert forall i :: 0 <= i < |front| ==> front[i] == props[i];
      ExtractDataOnly(front, available, k);
      GetPut(ExtractData(front, available).value, p.name, Get(available, p.name).value, k);
    }
  }

  /** The loop of the action's `run_as_tool` that copies the declared data. */
  method ExtractProperties(props: seq<Spec.DataProperty>, available: Dict<Value>) returns (r: Result<Dict<Value>>)
    ensures r == ExtractData(props, available)
  {
    var data: Dict<Value> := [];
    var i := 0;
    while i < |props|
      invariant i <= |props|
      invariant ExtractData(props[..i], available) == Ok(data)
    {
      assert props[..i + 1][..i] == props[..i];
      var v := Get(available, props[i].name);
      if v.None? {
        r := Err(ValueError("Data is missing the property " + props[i].name));
        ExtractDataFails(props, available, i + 1);
        return;
      }
      data := Put(data, props[i].name, v.value);
      i := i + 1;
    }
    assert props[..i] == props;
    r := Ok(data);
  }

  /** The first failing prefix decides the error of every longer one. */
  lemma {:induction false} ExtractDataFails(props: seq<Spec.DataProperty>, available: Dict<Value>, n: nat)
    requires 0 < n <= |props| && ExtractData(props[..n - 1], available).Ok? && !HasKey(available, props[n - 1].name)
    ensures ExtractData(props, available) == Err(ValueError("Data is missing the property " + props[n - 1].name))
    decreases |props|
  {
    assert props[..n][..n - 1] == props[..n - 1];
    if n < |props| {
      var front := props[..|props| - 1];
      assert front[..n] == props[..n];
      assert front[..n - 1] == props[..n - 1];
      ExtractDataFails(front, available, n);
    }
  }

  /**
   * `ActionChatbotModule.run_as_tool` on the module's `collected_data` bucket: the declared data
   * is taken from the bucket's dict and the `on_success` code is evaluated on it. A bucket without
   * data fails while building the error message, which reads a `previous_tool` the module no
   * longer has.
   */
  function ActionStep(m: Spec.Module, bucket: Memory, o: Runtime.Oracles): (r: Result<Event>)
    ensures bucket.data.None? ==> r == Err(AttributeError("previous_tool"))
    ensures r.Ok? ==> (m.DataGathering? || m.ActionModule?) && m.onSuccess.Some? && m.onSuccess.value.execute.Some?
    ensures r.Ok? ==> r.value.TaskFinish? && r.value.memory == [] && r.value.extra == [] && r.value.result.Some?
  {
    if bucket.data.None? then Err(AttributeError("previous_tool"))
    else
      var props :- DataProperties(m);
      var data :- ExtractData(props, bucket.data.value);
      if m.onSuccess.None? then Err(AttributeError("execute"))
      else if m.onSuccess.value.execute.None? then Err(ValueError("Action module should have an on_success.execute"))
      else
        var (result, _) :- Runtime.ExecuteAction(o, m.onSuccess, data, None);
        Ok(Finish(Some(result)))
  }

  // ----- Running a module as a tool -----

  /** The bucket an action module reads its data from. */
  const CollectedData := "collected_data"

  /**
   * The step `run_as_tool` takes for the modules that do not ask the LLM to converse: the event
   * it pushes and the data it stores. An action reads its module's `collected_data` memory.
   */
  function TaskStepOf(rm: Runtime.RuntimeModule, toolInput: Option<string>, activating: Option<Event>,
                      mem: Runtime.Buckets, o: Runtime.Oracles): (r: Result<TaskStep>)
    requires !rm.kind.MenuRuntime? && !rm.kind.OpenEndedRuntime?
    ensures !rm.kind.DataGatheringRuntime? && r.Ok? ==> r.value.stored.None?
  {
    match rm.kind
    case DataGatheringRuntime => DataGatheringStep(rm.specModule, toolInput, o)
    case QuestionAnsweringRuntime =>
      var e :- QuestionAnsweringStep(rm, toolInput, o);
      Ok(TaskStep(e, None))
    case SequenceRuntime =>
      var e :- SequenceStep(rm, toolInput, activating);
      Ok(TaskStep(e, None))
    case ActionRuntime =>
      var e :- ActionStep(rm.specModule, Runtime.Bucket(mem, Runtime.Name(rm), CollectedData), o);
      Ok(TaskStep(e, None))
  }

  /** The data-gathering step, computed with the collection and completion loops. */
  method GatherData(m: Spec.Module, toolInput: Option<string>, o: Runtime.Oracles) returns (step: Result<TaskStep>)
    ensures step == DataGatheringStep(m, toolInput, o)
  {
    step := DataGatheringStep(m, toolInput, o);
    if m.DataGathering? {
      var input := if toolInput.Some? then toolInput.value else "{}";
      var json := o.jsonLoads(input);
      if json.Some? && json.value.VDict? {
        var c := CollectValues(m.dataModel, json.value.entries, o);
        var done := AllMandatoryDataProvided(m.dataModel, c.data);
        step := if done then Completion(m, c.data, o) else Progress(m.dataModel, c);
      }
    }
  }

  /** The action step, on the module's `collected_data` memory, which is created if missing. */
  method ActOn<V, N>(state: Runtime.ExecutionState<V, N>, rm: Runtime.RuntimeModule, o: Runtime.Oracles)
    returns (step: Result<Event>)
    modifies state
    ensures step == ActionStep(rm.specModule, Runtime.Bucket(old(state.memory), Runtime.Name(rm), CollectedData), o)
    ensures state.memory == Runtime.Touch(old(state.memory), Runtime.Name(rm), CollectedData)
    ensures state.current == old(state.current) && state.eventStack == old(state.eventStack) && state.data == old(state.data)
    ensures state.listeners == old(state.listeners) && state.notified == old(state.notified) && state.outputs == old(state.outputs)
  {
    var history := state.GetOrCreateMemory(Runtime.Name(rm), CollectedData);
    step := ActionStep(rm.specModule, history, o);
  }

  /** Pushes the event of a task step and stores its data, if any. */
  method Apply<V, N>(state: Runtime.ExecutionState<V, N>, step: Result<TaskStep>) returns (r: Result<()>)
    modifies state
    ensures step.Err? ==> r == Err(step.error) && state.eventStack == old(state.eventStack) && state.data == old(state.data)
    ensures step.Ok? ==> r == Ok(()) && state.eventStack == old(state.eventStack) + [step.value.event]
                         && state.data == (if step.value.stored.Some? then step.value.stored else old(state.data))
    ensures state.current == old(state.current) && state.memory == old(state.memory) && state.listeners == old(state.listeners)
    ensures state.notified == old(state.notified) && state.outputs == old(state.outputs)
  {
    match step {
      case Err(e) =>
        r := Err(e);
      case Ok(s) =>
        state.PushEvent(s.event);
        if s.stored.Some? {
          state.SetData(s.stored.value);
        }
        r := Ok(());
    }
  }

  /** `run_as_tool` of the task modules: one event pushed, and the data stored on completion. */
  method RunTaskAsTool<V, N>(state: Runtime.ExecutionState<V, N>, rm: Runtime.RuntimeModule, toolInput: Option<string>,
                             activating: Option<Event>, o: Runtime.Oracles) returns (r: Result<()>)
    requires !rm.kind.MenuRuntime? && !rm.kind.OpenEndedRuntime?
    modifies state
    ensures var step := TaskStepOf(rm, toolInput, activating, old(state.memory), o);
            (step.Err? ==> r == Err(step.error) && state.eventStack == old(state.eventStack) && state.data == old(state.data))
            && (step.Ok? ==> r == Ok(()) && state.eventStack == old(state.eventStack) + [step.value.event]
                             && state.data == (if step.value.stored.Some? then step.value.stored else old(state.data)))
    ensures state.memory == if rm.kind.ActionRuntime? then Runtime.Touch(old(state.memory), Runtime.Name(rm), CollectedData)
                            else old(state.memory)
    ensures state.current == old(state.current) && state.listeners == old(state.listeners)
    ensures state.notified == old(state.notified) && state.outputs == old(state.outputs)
  {
    ghost var expected := TaskStepOf(rm, toolInput, activating, state.memory, o);
    var step: Result<TaskStep>;
    if rm.kind.ActionRuntime? {
      var e := ActOn(state, rm, o);
      step := if e.Err? then Err(e.error) else Ok(TaskStep(e.value, None));
    } else if rm.kind.DataGatheringRuntime? {
      step := GatherData(rm.specModule, toolInput, o);
    } else {
      step := TaskStepOf(rm, toolInput, activating, state.memory, o);
    }
    assert step == expected;
    r := Apply(state, step);
  }

  /**
   * The buckets after `run_as_tool`: a conversing module touches its prompt's buckets, an action
   * its `collected_data` bucket, and the other modules none.
   */
  function ToolMemory(rm: Runtime.RuntimeModule, mem: Runtime.Buckets): Runtime.Buckets
  {
    if rm.kind.MenuRuntime? || rm.kind.OpenEndedRuntime? then Runtime.RunTouched(rm, mem)
    else if rm.kind.ActionRuntime? then Runtime.Touch(mem, Runtime.Name(rm), CollectedData)
    else mem
  }

  /**
   * `run_as_tool` of every runtime module: menus and open-ended conversations run their LLM turn
   * with the tool input, the other modules take their task step.
   */
  method RunAsTool<V, N>(state: Runtime.ExecutionState<V, N>, rm: Runtime.RuntimeModule, toolInput: Option<string>,
                         activating: Option<Event>, o: Runtime.Oracles) returns (r: Result<()>)
    modifies state
    ensures state.memory == ToolMemory(rm, old(state.memory))
    ensures rm.kind.MenuRuntime? || rm.kind.OpenEndedRuntime? ==>
              var step := Runtime.Step(rm, toolInput, Runtime.Parse(o, o.llm(Runtime.Request(rm, old(state.memory), toolInput, true, []))));
              state.eventStack == old(state.eventStack) + step.pushed && r == step.result && state.data == old(state.data)
    ensures rm.kind.MenuRuntime? || rm.kind.OpenEndedRuntime? ==>
              var parsed := Runtime.Parse(o, o.llm(Runtime.Request(rm, old(state.memory), toolInput, true, [])));
              var written := Runtime.StepAsWritten(rm, toolInput, parsed);
              state.eventStack == old(state.eventStack) + written.pushed
              && (parsed.Parsed? ==> r == written.result)
              && (parsed.ParseFailure? ==> r.Ok? && written.result == Err(UnboundLocalError("parsed_result")))
    ensures !rm.kind.MenuRuntime? && !rm.kind.OpenEndedRuntime? ==>
              var step := TaskStepOf(rm, toolInput, activating, old(state.memory), o);
              (step.Err? ==> r == Err(step.error) && state.eventStack == old(state.eventStack) && state.data == old(state.data))
              && (step.Ok? ==> r == Ok(()) && state.eventStack == old(state.eventStack) + [step.value.event]
                               && state.data == (if step.value.stored.Some? then step.value.stored else old(state.data)))
    ensures state.current == old(state.current) && state.listeners == old(state.listeners)
    ensures state.notified == old(state.notified) && state.outputs == old(state.outputs)
  {
    if rm.kind.MenuRuntime? || rm.kind.OpenEndedRuntime? {
      r := Runtime.Run(state, rm, toolInput, true, [], o);
    } else {
      r := RunTaskAsTool(state, rm, toolInput, activating, o);
    }
  }
}
