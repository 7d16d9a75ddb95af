// The events that drive the conversation state machine, and the triggers that match them.
module Events {
  import opened Wrappers
  import opened Values
  import opened Dicts
  import opened Memories
  import Spec

  /**
   * The memory an in-progress event carries: a dict of memory pieces keyed by memory id, or (in the
   * older data-gathering task) a plain instruction string.
   */
  datatype EventMemory = Pieces(pieces: Dict<Memory>) | RawText(text: string)

  /**
   * `ActivateModuleEvent` refers to the activated runtime module; the model keeps its spec module,
   * which is all that matching and serialising read.
   */
  datatype Event =
    | UserInput(message: string)
    | ActivateModule(activated: Spec.Module, input: Option<string>, previousAnswer: Memory)
    | AIResponseEvent(message: string)
    | TaskInProgress(progress: EventMemory)
    | TaskFinish(result: Option<Value>, memory: Dict<Memory>, extra: Dict<Value>)

  datatype EventClass = UserInputClass | ActivateModuleClass | AIResponseClass | TaskInProgressClass | TaskFinishClass

  function ClassOf(e: Event): EventClass
  {
    match e
    case UserInput(_) => UserInputClass
    case ActivateModule(_, _, _) => ActivateModuleClass
    case AIResponseEvent(_) => AIResponseClass
    case TaskInProgress(_) => TaskInProgressClass
    case TaskFinish(_, _, _) => TaskFinishClass
  }

  function ClassName(c: EventClass): string
  {
    match c
    case UserInputClass => "UserInput"
    case ActivateModuleClass => "ActivateModuleEvent"
    case AIResponseClass => "AIResponseEvent"
    case TaskInProgressClass => "TaskInProgressEvent"
    case TaskFinishClass => "TaskFinishEvent"
  }

  /** `TaskFinishEvent(message)` with the default empty memory and no extra attributes. */
  function Finish(result: Option<Value>): (e: Event)
    ensures e.TaskFinish? && e.result == result && e.memory == [] && e.extra == []
  {
    TaskFinish(result, [], [])
  }

  /** A trigger: match by event class, or `ActivateModuleEventType(module)`. */
  datatype TriggerEvent = MatchByClass(cls: EventClass) | ActivateModuleType(target: Spec.Module)

  /** `is_compatible`; no trigger accepts the absent event. */
  predicate IsCompatible(t: TriggerEvent, e: Option<Event>)
  {
    e.Some? &&
    match t
    case MatchByClass(c) => ClassOf(e.value) == c
    case ActivateModuleType(m) => e.value.ActivateModule? && Spec.SameModule(e.value.activated, m)
  }

  const UserInputEventType := MatchByClass(UserInputClass)
  const AIResponseEventType := MatchByClass(AIResponseClass)
  const TaskInProgressEventType := MatchByClass(TaskInProgressClass)
  const TaskFinishEventEventType := MatchByClass(TaskFinishClass)

  /** Each event is accepted by the class trigger of its own class and by no other. */
  lemma ClassTriggersPartition(e: Event, c: EventClass)
    ensures IsCompatible(MatchByClass(c), Some(e)) <==> c == ClassOf(e)
    ensures !IsCompatible(MatchByClass(c), None)
  {
  }

  /** An activation trigger accepts exactly the activations of a module with the same name. */
  lemma ActivationTriggerExactly(m: Spec.Module, e: Event)
    ensures IsCompatible(ActivateModuleType(m), Some(e)) <==> e.ActivateModule? && e.activated.name == m.name
    ensures IsCompatible(ActivateModuleType(m), Some(e)) ==> IsCompatible(MatchByClass(ActivateModuleClass), Some(e))
  {
  }

  // ----- Attributes -----

  /** The value of an attribute: a plain value, or an object the model does not render. */
  datatype Attribute = PlainValue(value: Value) | ObjectValue

  function Attributes(e: Event): (r: Dict<Attribute>)
  {
    match e
    case UserInput(m) => [("message", PlainValue(VStr(m)))]
    case ActivateModule(_, i, _) =>
      [("module", ObjectValue), ("input", PlainValue(match i case Some(s) => VStr(s) case None => VNone)),
       ("previous_answer", ObjectValue)]
    case AIResponseEvent(m) => [("message", PlainValue(VStr(m)))]
    case TaskInProgress(_) => [("memory", ObjectValue)]
    case TaskFinish(r, _, extra) =>
      Put(Put(AttributesOf(extra), "message", PlainValue(match r case Some(v) => v case None => VNone)),
          "memory", ObjectValue)
  }

  function AttributesOf(d: Dict<Value>): (r: Dict<Attribute>)
    ensures |r| == |d|
  {
    if d == [] then [] else [(d[0].0, PlainValue(d[0].1))] + AttributesOf(d[1..])
  }

  /** `has_property_value`: the event has that attribute. */
  predicate HasPropertyValue(e: Event, name: string)
  {
    HasKey(Attributes(e), name)
  }

  /** `get_property_value`: a missing attribute is a `KeyError`, a `None` value fails the assertion. */
  function GetPropertyValue(e: Event, name: string): (r: Result<Attribute>)
    ensures !HasPropertyValue(e, name) ==> r == Err(KeyError(name))
    ensures HasPropertyValue(e, name) && Get(Attributes(e), name) == Some(PlainValue(VNone)) ==> r == Err(AssertionError)
    ensures r.Ok? ==> Get(Attributes(e), name) == Some(r.value) && r.value != PlainValue(VNone)
  {
    match Get(Attributes(e), name)
    case None => Err(KeyError(name))
    case Some(a) => if a == PlainValue(VNone) then Err(AssertionError) else Ok(a)
  }

  /** A finish event's keyword attributes are readable, and `message`/`memory` shadow them. */
  lemma FinishExtraAttribute(r: Option<Value>, memory: Dict<Memory>, extra: Dict<Value>, name: string)
    requires name != "message" && name != "memory"
    ensures HasPropertyValue(TaskFinish(r, memory, extra), name) <==> HasKey(extra, name)
    ensures Get(Attributes(TaskFinish(r, memory, extra)), name)
            == (match Get(extra, name) case Some(v) => Some(PlainValue(v)) case None => None)
  {
    var msg := PlainValue(match r case Some(v) => v case None => VNone);
    var a := AttributesOf(extra);
    var b := Put(a, "message", msg);
    var all := Attributes(TaskFinish(r, memory, extra));
    assert all == Put(b, "memory", ObjectValue);
    calc {
      Get(all, name);
      { GetPut(b, "memory", ObjectValue, name); }
      Get(b, name);
      { GetPut(a, "message", msg, name); }
      Get(a, name);
      { AttributesOfGet(extra, name); }
      match Get(extra, name) case Some(v) => Some(PlainValue(v)) case None => None;
    }
  }

  lemma {:induction false} AttributesOfGet(d: Dict<Value>, name: string)
    ensures Get(AttributesOf(d), name) == (match Get(d, name) case Some(v) => Some(PlainValue(v)) case None => None)
  {
    if d != [] {
      AttributesOfGet(d[1..], name);
    }
  }

  // ----- Serialisation -----

  function MessageDict(m: Message): Value
  {
    VDict([("message", VStr(m.text))])
  }

  function MessagesList(ms: seq<Message>): (r: seq<Value>)
    ensures |r| == |ms| && forall i :: 0 <= i < |ms| ==> r[i] == MessageDict(ms[i])
  {
    if ms == [] then [] else MessagesList(ms[..|ms| - 1]) + [MessageDict(ms[|ms| - 1])]
  }

  /** A memory piece's `.dict()`. */
  function MemoryDict(m: Memory): Value
  {
    VDict([("messages", VList(MessagesList(m.messages)))])
  }

  function MemoriesDict(d: Dict<Memory>): (r: seq<(string, Value)>)
    ensures Keys(r) == Keys(d)
  {
    if d == [] then [] else MemoriesDict(d[..|d| - 1]) + [(d[|d| - 1].0, MemoryDict(d[|d| - 1].1))]
  }

  function OptionalText(s: Option<string>): Value
  {
    match s case Some(t) => VStr(t) case None => VNone
  }

  /** `to_dict`: `type` first, then the event's own fields. */
  function ToDict(e: Event): (r: Result<Dict<Value>>)
    ensures e.TaskInProgress? && e.progress.RawText? ==> r.Err? && r.error.AttributeError?
    ensures r.Ok? ==> |r.value| >= 1 && r.value[0] == ("type", VStr(ClassName(ClassOf(e))))
    ensures r.Ok? ==> DistinctKeys(r.value)
  {
    var tag := ("type", VStr(ClassName(ClassOf(e))));
    match e
    case UserInput(m) => Ok([tag, ("message", VStr(m))])
    case ActivateModule(mod, i, prev) =>
      Ok([tag, ("module", VStr(mod.name)), ("input", OptionalText(i)), ("previous_answer", MemoryDict(prev))])
    case AIResponseEvent(m) => Ok([tag, ("message", VStr(m))])
    case TaskInProgress(mem) =>
      (match mem
       case Pieces(ps) => Ok([tag, ("memory", VDict(MemoriesDict(ps)))])
       case RawText(_) => Err(AttributeError("items")))
    case TaskFinish(r, mem, _) =>
      Ok([tag, ("message", match r case Some(v) => v case None => VNone), ("memory", VDict(MemoriesDict(mem)))])
  }

  /** Serialising names exactly the event's own fields after its type. */
  lemma ToDictKeys(e: Event)
    requires !(e.TaskInProgress? && e.progress.RawText?)
    ensures ToDict(e).Ok?
    ensures Keys(ToDict(e).value) == ["type"] + match e
      case UserInput(_) => ["message"]
      case ActivateModule(_, _, _) => ["module", "input", "previous_answer"]
      case AIResponseEvent(_) => ["message"]
      case TaskInProgress(_) => ["memory"]
      case TaskFinish(_, _, _) => ["message", "memory"]
  {
  }
}
