// The chatbot specification model: modules, items, data properties and actions.
module Spec {
  import opened Wrappers
  import opened Strings
  import opened Values
  import opened Dicts

  datatype MemoryScope = Full | Individual

  function MemoryScopeName(m: MemoryScope): string
  {
    match m
    case Full => "full"
    case Individual => "individual"
  }

  datatype EnumValue = EnumValue(name: string, examples: seq<string>)

  /** A declared datum. A `required: null` is kept as `false`: every use of the flag reads its truthiness. */
  datatype DataProperty = DataProperty(name: string, typ: string, values: Option<seq<EnumValue>>,
                                       required: bool, examples: seq<string>)

  predicate IsSimpleType(p: DataProperty) { p.typ != "enum" }

  predicate IsOptional(p: DataProperty) { !p.required }

  datatype ExecuteElement = ExecuteElement(language: string, code: string)

  datatype ResponseElement = ResponseElement(text: string, rephrase: Option<string>)

  predicate IsDirectResponse(r: ResponseElement) { r.rephrase.None? || r.rephrase == Some("direct") }

  predicate IsSimpleRephrase(r: ResponseElement) { r.rephrase == Some("simple") }

  predicate IsInCallerRephrase(r: ResponseElement) { r.rephrase == Some("in-caller") || r.rephrase == Some("in_caller") }

  /** The three rephrase modes exclude each other, and each is decided by the rephrase text alone. */
  lemma RephraseModesExclusive(r: ResponseElement)
    ensures !(IsDirectResponse(r) && IsSimpleRephrase(r))
    ensures !(IsDirectResponse(r) && IsInCallerRephrase(r))
    ensures !(IsSimpleRephrase(r) && IsInCallerRephrase(r))
    ensures IsDirectResponse(r) || IsSimpleRephrase(r) || IsInCallerRephrase(r)
            <==> r.rephrase in {None, Some("direct"), Some("simple"), Some("in-caller"), Some("in_caller")}
  {
  }

  /** `Action.response`: a plain text or a response element. */
  datatype Response = TextResponse(text: string) | ElementResponse(element: ResponseElement)

  /** An `on-success` effect. The loader always sets `response`; `None` is admitted so that
      `execute_action`'s guard on it has both branches. */
  datatype Action = Action(execute: Option<ExecuteElement>, response: Option<Response>)

  function GetResponseElement(a: Action): (r: Option<ResponseElement>)
    ensures a.response.None? <==> r.None?
    ensures a.response.Some? && a.response.value.TextResponse? ==>
              r == Some(ResponseElement(a.response.value.text, None)) && IsDirectResponse(r.value)
    ensures a.response.Some? && a.response.value.ElementResponse? ==> r == Some(a.response.value.element)
  {
    match a.response
    case None => None
    case Some(TextResponse(t)) => Some(ResponseElement(t, None))
    case Some(ElementResponse(e)) => Some(e)
  }

  datatype QuestionAnswer = QuestionAnswer(question: string, answer: string)

  datatype Item =
    | AnswerItem(title: string, answer: string)
    | ToolItem(title: string, reference: string)
    | SequenceItem(title: string, memory: MemoryScope, goback: bool, references: seq<string>)

  /** Items compare by title. */
  predicate SameItem(a: Item, b: Item) { a.title == b.title }

  datatype Module =
    | Menu(name: string, presentation: string, fallback: Option<string>, items: seq<Item>)
    | DataGathering(name: string, data: seq<Value>, dataModel: seq<DataProperty>,
                    description: Option<string>, onSuccess: Option<Action>)
    | QuestionAnswering(name: string, questions: seq<QuestionAnswer>, qaDescription: string,
                        onSuccess: Option<Action>)
    | Sequence(name: string, references: seq<string>, memory: MemoryScope, goback: bool,
               description: Option<string>)
    | ActionModule(name: string, data: seq<Value>, dataModel: seq<DataProperty>, onSuccess: Option<Action>)
    | OpenEnded(name: string, items: seq<Item>)

  /** Modules compare by name. */
  predicate SameModule(a: Module, b: Module) { a.name == b.name }

  predicate HasOnSuccess(m: Module) { m.DataGathering? || m.QuestionAnswering? || m.ActionModule? }

  /** The generated name of a sequence module: `sequence-` and the step names joined by `-`. */
  function SequenceModuleName(references: seq<string>): (r: string)
    ensures StartsWith(r, "sequence-")
    ensures references == [] ==> r == "sequence-"
    ensures |references| == 1 ==> r == "sequence-" + references[0]
  {
    "sequence-" + Join("-", references)
  }

  /** `SequenceItem.get_sequence_module` as written: the item's `goback` is not passed on. */
  function GetSequenceModuleAsWritten(item: Item): (r: Module)
    requires item.SequenceItem?
    ensures r.Sequence? && r.goback
  {
    Sequence(SequenceModuleName(item.references), item.references, item.memory, true, Some(item.title))
  }

  /** The item `{goback: false}` still yields a sequence module that allows going back. */
  lemma GoBackIgnoredAsWritten()
    ensures var item := SequenceItem("Order", Individual, false, ["a", "b"]);
            GetSequenceModuleAsWritten(item).goback != item.goback
  {
  }

  /** `SequenceItem.get_sequence_module`, passing the item's `goback` as well. */
  function GetSequenceModule(item: Item): (r: Module)
    requires item.SequenceItem?
    ensures r.Sequence? && r.name == "sequence-" + Join("-", item.references)
    ensures r.references == item.references && r.memory == item.memory && r.goback == item.goback
    ensures r.description == Some(item.title)
  {
    Sequence(SequenceModuleName(item.references), item.references, item.memory, item.goback, Some(item.title))
  }

  // ---------------------------------------------------------------------------------------
  // Parsing the `data` list of a data-gathering or action module.

  /** Python's `for v in x` over a JSON value. */
  function Iterate(x: Value): (r: Result<seq<Value>>)
  {
    match x
    case VList(xs) => Ok(xs)
    case VStr(s) => Ok(seq(|s|, i requires 0 <= i < |s| => VStr([s[i]])))
    case VDict(es) => Ok(seq(|es|, i requires 0 <= i < |es| => VStr(es[i].0)))
    case _ => Err(TypeError("object is not iterable"))
  }

  /** Validation of a `List[str]` field. */
  function AsStringList(x: Value): (r: Result<seq<string>>)
    ensures r.Ok? ==> x.VList? && |r.value| == |x.items|
  {
    if x.VList? && forall i :: 0 <= i < |x.items| ==> x.items[i].VStr? then
      Ok(seq(|x.items|, i requires 0 <= i < |x.items| => x.items[i].s))
    else Err(ValidationError("Input should be a valid list of strings"))
  }

  /** Validation of an `Optional[bool]` field; `None` reads as false. */
  function AsRequiredFlag(x: Value): Result<bool>
  {
    match x
    case VBool(b) => Ok(b)
    case VNone => Ok(false)
    case VInt(i) => if i == 0 || i == 1 then Ok(i == 1) else Err(ValidationError("Input should be a valid boolean"))
    case _ => Err(ValidationError("Input should be a valid boolean"))
  }

  function EnumValueOf(v: Value): Result<EnumValue>
  {
    if v.VStr? then Ok(EnumValue(v.s, []))
    else if !v.VDict? then Err(AttributeError("keys"))
    else if v.entries == [] then Err(StopIteration)
    else
      var examples :- AsStringList(v.entries[0].1);
      Ok(EnumValue(v.entries[0].0, examples))
  }

  function EnumValuesOf(vs: seq<Value>): (r: Result<seq<EnumValue>>)
    ensures r.Ok? ==> |r.value| == |vs|
  {
    if vs == [] then Ok([])
    else
      var first :- EnumValueOf(vs[0]);
      var rest :- EnumValuesOf(vs[1..]);
      Ok([first] + rest)
  }

  /** `parse_type_specification(name, type_dict)`. */
  function ParseTypeSpecification(name: string, typeDict: Dict<Value>): (r: Result<DataProperty>)
    ensures !HasKey(typeDict, "type") ==> r.Err? && r.error.ValueError?
    ensures r.Ok? ==> r.value.name == name
    ensures r.Ok? && !HasKey(typeDict, "required") ==> r.value.required
    ensures r.Ok? && r.value.typ == "enum" ==> r.value.values.Some? && r.value.examples == []
    ensures r.Ok? && r.value.typ != "enum" ==> r.value.values.None?
  {
    match Get(typeDict, "type")
    case None => Err(ValueError("Type specification should contain a type"))
    case Some(t) =>
      var requiredRaw := match Get(typeDict, "required") case Some(v) => v case None => VBool(true);
      var required :- AsRequiredFlag(requiredRaw);
      if t == VStr("enum") then
        match Get(typeDict, "values")
        case None => Err(KeyError("values"))
        case Some(raw) =>
          var items :- Iterate(raw);
          var values :- EnumValuesOf(items);
          Ok(DataProperty(name, "enum", Some(values), required, []))
      else if !t.VStr? then Err(ValidationError("type should be a valid string"))
      else
        var examplesRaw := match Get(typeDict, "examples") case Some(v) => v case None => VList([]);
        var examples :- if examplesRaw == VNone then Ok([]) else AsStringList(examplesRaw);
        Ok(DataProperty(name, t.s, None, required, examples))
  }

  /** A plain string value becomes an enum value without examples; a one-entry dict names the value and its examples. */
  lemma EnumValueShapes(s: string, examples: seq<string>)
    ensures EnumValueOf(VStr(s)) == Ok(EnumValue(s, []))
    ensures EnumValueOf(VDict([(s, VList(seq(|examples|, i requires 0 <= i < |examples| => VStr(examples[i]))))]))
            == Ok(EnumValue(s, examples))
  {
    var raw := VList(seq(|examples|, i requires 0 <= i < |examples| => VStr(examples[i])));
    assert forall i :: 0 <= i < |raw.items| ==> raw.items[i].VStr?;
    var got := seq(|raw.items|, i requires 0 <= i < |raw.items| => raw.items[i].s);
    assert got == examples;
  }

  /** The properties one `{name: type, ...}` entry of `data` declares, in entry order. */
  function EntryProperties(entries: seq<(string, Value)>): (r: Result<seq<DataProperty>>)
  {
    if entries == [] then Ok([])
    else
      var rest :- EntryProperties(entries[..|entries| - 1]);
      var e := entries[|entries| - 1];
      var p :- PropertyOf(e.0, e.1);
      Ok(rest + [p])
  }

  function PropertyOf(name: string, t: Value): Result<DataProperty>
  {
    if t.VDict? then ParseTypeSpecification(name, t.entries)
    else if t.VStr? then Ok(DataProperty(name, t.s, None, true, []))
    else Err(ValidationError("type should be a valid string"))
  }

  /** `parse_data_model`: every entry of every dict of `data`, in declaration order. */
  function DataModelOf(data: seq<Value>): (r: Result<seq<DataProperty>>)
  {
    if data == [] then Ok([])
    else
      var ps :- DataModelOf(data[..|data| - 1]);
      var d := data[|data| - 1];
      if !d.VDict? then Err(AttributeError("items"))
      else
        var qs :- EntryProperties(d.entries);
        Ok(ps + qs)
  }

  method ParseDataModel(data: seq<Value>) returns (r: Result<seq<DataProperty>>)
    ensures r == DataModelOf(data)
  {
    var properties: seq<DataProperty> := [];
    var i := 0;
    while i < |data|
      invariant 0 <= i <= |data|
      invariant DataModelOf(data[..i]) == Ok(properties)
    {
      assert data[..i + 1][..i] == data[..i];
      var d := data[i];
      if !d.VDict? {
        DataModelErrorExtends(data, i + 1);
        return Err(AttributeError("items"));
      }
      var j := 0;
      var own: seq<DataProperty> := [];
      while j < |d.entries|
        invariant 0 <= j <= |d.entries|
        invariant EntryProperties(d.entries[..j]) == Ok(own)
      {
        assert d.entries[..j + 1][..j] == d.entries[..j];
        var p := PropertyOf(d.entries[j].0, d.entries[j].1);
        if p.Err? {
          EntryErrorExtends(d.entries, j + 1);
          DataModelErrorExtends(data, i + 1);
          return Err(p.error);
        }
        own := own + [p.value];
        j := j + 1;
      }
      assert d.entries[..j] == d.entries;
      properties := properties + own;
      i := i + 1;
    }
    assert data[..i] == data;
    return Ok(properties);
  }

  /** A failure on a prefix of `data` is the failure of the whole parse. */
  lemma {:induction false} DataModelErrorExtends(data: seq<Value>, k: nat)
    requires k <= |data| && DataModelOf(data[..k]).Err?
    ensures DataModelOf(data) == DataModelOf(data[..k])
    decreases |data|
  {
    if k < |data| {
      var init := data[..|data| - 1];
      assert init[..k] == data[..k];
      DataModelErrorExtends(init, k);
    } else {
      assert data[..k] == data;
    }
  }

  lemma {:induction false} EntryErrorExtends(entries: seq<(string, Value)>, k: nat)
    requires k <= |entries| && EntryProperties(entries[..k]).Err?
    ensures EntryProperties(entries) == EntryProperties(entries[..k])
    decreases |entries|
  {
    if k < |entries| {
      var init := entries[..|entries| - 1];
      assert init[..k] == entries[..k];
      EntryErrorExtends(init, k);
    } else {
      assert entries[..k] == entries;
    }
  }

  /** A plain `name: type` entry appended to `data` adds one required property, at the end. */
  lemma PlainEntryIsRequired(data: seq<Value>, name: string, t: string)
    requires DataModelOf(data).Ok?
    ensures DataModelOf(data + [VDict([(name, VStr(t))])])
            == Ok(DataModelOf(data).value + [DataProperty(name, t, None, true, [])])
  {
    var d := VDict([(name, VStr(t))]);
    assert (data + [d])[..|data|] == data;
    assert d.entries[..0] == [];
    var p := DataProperty(name, t, None, true, []);
    assert PropertyOf(name, VStr(t)) == Ok(p);
    assert EntryProperties(d.entries[..0]) == Ok([]);
    assert [] + [p] == [p];
    assert EntryProperties(d.entries) == Ok([p]);
  }

  /** Parsing keeps declaration order: the properties of `a + b` are those of `a`, then those of `b`. */
  lemma {:induction false} DataModelConcat(a: seq<Value>, b: seq<Value>)
    requires DataModelOf(a).Ok? && DataModelOf(b).Ok?
    ensures DataModelOf(a + b) == Ok(DataModelOf(a).value + DataModelOf(b).value)
    decreases |b|
  {
    if b == [] {
      assert a + b == a;
      assert DataModelOf(a).value + DataModelOf(b).value == DataModelOf(a).value;
    } else {
      var init := b[..|b| - 1];
      var last := b[|b| - 1];
      assert (a + b)[..|a + b| - 1] == a + init;
      assert (a + b)[|a + b| - 1] == last;
      assert DataModelOf(init).Ok? && last.VDict? && EntryProperties(last.entries).Ok?;
      DataModelConcat(a, init);
      var x, y, z := DataModelOf(a).value, DataModelOf(init).value, EntryProperties(last.entries).value;
      assert DataModelOf(b).value == y + z;
      assert DataModelOf(a + b).value == (x + y) + z;
      assert (x + y) + z == x + (y + z);
    }
  }

  // ---------------------------------------------------------------------------------------
  // Name resolution.

  /** `{m.name: m for m in modules}`: a later module with the same name replaces an earlier one. */
  function Index(ms: seq<Module>): (r: map<string, Module>)
    ensures forall k :: k in r ==> r[k].name == k
  {
    if ms == [] then map[] else Index(ms[..|ms| - 1])[ms[|ms| - 1].name := ms[|ms| - 1]]
  }

  /** The index holds, under each declared name, the last module declared with it. */
  lemma {:induction false} IndexHoldsLastDeclared(ms: seq<Module>, i: nat)
    requires i < |ms|
    requires forall j :: i < j < |ms| ==> ms[j].name != ms[i].name
    ensures ms[i].name in Index(ms) && Index(ms)[ms[i].name] == ms[i]
    decreases |ms|
  {
    if i < |ms| - 1 {
      IndexHoldsLastDeclared(ms[..|ms| - 1], i);
    }
  }

  /** Only declared names are in the index. */
  lemma {:induction false} IndexOnlyDeclared(ms: seq<Module>, k: string)
    requires k in Index(ms)
    ensures exists i :: 0 <= i < |ms| && ms[i] == Index(ms)[k]
    decreases |ms|
  {
    if ms[|ms| - 1].name != k {
      IndexOnlyDeclared(ms[..|ms| - 1], k);
      var i :| 0 <= i < |ms| - 1 && ms[..|ms| - 1][i] == Index(ms[..|ms| - 1])[k];
      assert ms[i] == Index(ms)[k];
    }
  }

  /** `resolve_module`: a dictionary lookup that fails with `KeyError` on an unknown name. */
  function Resolve(ms: seq<Module>, reference: string): (r: Result<Module>)
    ensures r.Ok? <==> reference in Index(ms)
    ensures r.Ok? ==> r.value.name == reference
    ensures r.Err? ==> r.error == KeyError(reference)
  {
    if reference in Index(ms) then Ok(Index(ms)[reference]) else Err(KeyError(reference))
  }

  /** The loaded chatbot: its modules and the lazily built name index. */
  class ChatbotModel {
    const modules: seq<Module>
    var modulesIndex: Option<map<string, Module>>

    ghost predicate Valid()
      reads this
    {
      modulesIndex.Some? ==> modulesIndex.value == Index(modules)
    }

    constructor (ms: seq<Module>)
      ensures modules == ms && modulesIndex.None? && Valid()
    {
      modules := ms;
      modulesIndex := None;
    }

    /** `modules_by_name`: builds the index on first use and keeps it. */
    method ModulesByName() returns (index: map<string, Module>)
      requires Valid()
      modifies this`modulesIndex
      ensures Valid() && index == Index(modules) && modulesIndex == Some(index)
      ensures old(modulesIndex).Some? ==> modulesIndex == old(modulesIndex)
    {
      if modulesIndex.None? {
        var built: map<string, Module> := map[];
        var i := 0;
        while i < |modules|
          invariant 0 <= i <= |modules|
          invariant built == Index(modules[..i])
        {
          assert modules[..i + 1][..i] == modules[..i];
          built := built[modules[i].name := modules[i]];
          i := i + 1;
        }
        assert modules[..i] == modules;
        modulesIndex := Some(built);
      }
      index := modulesIndex.value;
    }

    method ResolveModule(reference: string) returns (r: Result<Module>)
      requires Valid()
      modifies this`modulesIndex
      ensures Valid() && modulesIndex.Some?
      ensures r == Resolve(modules, reference)
    {
      var index := ModulesByName();
      if reference in index {
        r := Ok(index[reference]);
      } else {
        r := Err(KeyError(reference));
      }
    }
  }

  // ---------------------------------------------------------------------------------------
  // `to_graph`: the edges added to the module graph, in the order they are added.

  function ReferenceEdges(ms: seq<Module>, source: string, references: seq<string>): (r: Result<seq<(string, string)>>)
    ensures r.Ok? ==> |r.value| == |references|
    ensures r.Ok? ==> forall i :: 0 <= i < |r.value| ==> r.value[i] == (source, references[i]) && references[i] in Index(ms)
  {
    if references == [] then Ok([])
    else
      var target :- Resolve(ms, references[0]);
      var rest :- ReferenceEdges(ms, source, references[1..]);
      Ok([(source, target.name)] + rest)
  }

  function ItemEdges(ms: seq<Module>, menu: string, items: seq<Item>): (r: Result<seq<(string, string)>>)
    ensures r.Ok? ==> forall e :: e in r.value ==> e.1 in Index(ms) || StartsWith(e.1, "sequence-")
  {
    if items == [] then Ok([])
    else
      var own :- match items[0]
        case AnswerItem(_, _) => Ok([])
        case ToolItem(_, reference) =>
          var target :- Resolve(ms, reference);
          Ok([(menu, target.name)])
        case SequenceItem(_, _, _, _) =>
          var sequence := GetSequenceModule(items[0]);
          var steps :- ReferenceEdges(ms, sequence.name, sequence.references);
          Ok(steps + [(menu, sequence.name)]);
      var rest :- ItemEdges(ms, menu, items[1..]);
      Ok(own + rest)
  }

  /** Every module's edges, in module order; an open-ended module has no `to_graph`. */
  function GraphEdges(ms: seq<Module>, from: nat): (r: Result<seq<(string, string)>>)
    decreases |ms| - from
    ensures r.Ok? ==> forall e :: e in r.value ==> e.1 in Index(ms) || StartsWith(e.1, "sequence-")
  {
    if from >= |ms| then Ok([])
    else
      var own :- match ms[from]
        case Menu(name, _, _, items) => ItemEdges(ms, name, items)
        case Sequence(name, references, _, _, _) => ReferenceEdges(ms, name, references)
        case OpenEnded(_, _) => Err(AttributeError("to_graph"))
        case _ => Ok([]);
      var rest :- GraphEdges(ms, from + 1);
      Ok(own + rest)
  }
}
