// The `to_dict` serialisers the mutator attaches to the specification classes, and what the
// loader makes of their output: each serialised module reads back as the module it came from,
// up to the fields that go unwritten and come back as the class defaults.
module Serialise {
  import opened Wrappers
  import opened Values
  import opened Dicts
  import opened Spec

  // ----- to_dict -----

  /** Truthiness of an optional string field: present and not empty. */
  predicate Filled(s: Option<string>) { s.Some? && s.value != "" }

  function StrList(xs: seq<string>): Value
  {
    VList(seq(|xs|, i requires 0 <= i < |xs| => VStr(xs[i])))
  }

  /** `to_dict_response_element`: the text, and the rephrase only when it is truthy. */
  function ResponseElementDict(r: ResponseElement): Value
  {
    VDict([("text", VStr(r.text))] + (if Filled(r.rephrase) then [("rephrase", VStr(r.rephrase.value))] else []))
  }

  /** `to_dict_execute_element`. */
  function ExecuteElementDict(e: ExecuteElement): Value
  {
    VDict([("language", VStr(e.language)), ("code", VStr(e.code))])
  }

  /** The `response` entry of `to_dict_action`: absent for an empty text. */
  function ResponseEntry(r: Option<Response>): seq<(string, Value)>
  {
    match r
    case None => []
    case Some(TextResponse(t)) => if t == "" then [] else [("response", VStr(t))]
    case Some(ElementResponse(e)) => [("response", ResponseElementDict(e))]
  }

  /** `to_dict_action`: the execute element when there is one, then the response. */
  function ActionDict(a: Action): Value
  {
    VDict((if a.execute.Some? then [("execute", ExecuteElementDict(a.execute.value))] else []) + ResponseEntry(a.response))
  }

  /** `to_dict_question_answer`. */
  function QuestionAnswerDict(q: QuestionAnswer): Value
  {
    VDict([("question", VStr(q.question)), ("answer", VStr(q.answer))])
  }

  function QuestionsList(qs: seq<QuestionAnswer>): seq<Value>
  {
    if qs == [] then [] else [QuestionAnswerDict(qs[0])] + QuestionsList(qs[1..])
  }

  /** `to_dict_answer_item`, `to_dict_tool_item` and `to_dict_sequence_item` (which leaves `goback` out). */
  function ItemDict(it: Item): Value
  {
    match it
    case AnswerItem(title, answer) =>
      VDict([("title", VStr(title)), ("kind", VStr("answer")), ("answer", VStr(answer))])
    case ToolItem(title, reference) =>
      VDict([("title", VStr(title)), ("kind", VStr("module")), ("reference", VStr(reference))])
    case SequenceItem(title, memory, _, references) =>
      VDict([("title", VStr(title)), ("memory", VStr(MemoryScopeName(memory))), ("kind", VStr("sequence")),
             ("references", StrList(references))])
  }

  function ItemsList(items: seq<Item>): seq<Value>
  {
    if items == [] then [] else [ItemDict(items[0])] + ItemsList(items[1..])
  }

  function OptStr(s: Option<string>): Value
  {
    if s.Some? then VStr(s.value) else VNone
  }

  /**
   * The `to_dict` that `persist` dumps for a module. A menu is wrapped as `{'modules': [...]}`
   * and writes its fallback only when truthy; a question-answering module writes `on-success`
   * only when it has one; an action or data-gathering module without `on-success` fails on it;
   * sequence and open-ended modules have no `to_dict` at all.
   */
  /** The dictionary of a menu module, which `persist` wraps in a `modules` list. */
  function MenuEntry(name: string, presentation: string, fallback: Option<string>, items: seq<Item>): Value
  {
    VDict([("name", VStr(name)), ("kind", VStr("menu")), ("presentation", VStr(presentation))]
          + (if Filled(fallback) then [("fallback", VStr(fallback.value))] else [])
          + [("items", VList(ItemsList(items)))])
  }

  function ModuleDict(m: Module): (r: Result<Value>)
    ensures r.Err? <==> m.Sequence? || m.OpenEnded? || ((m.DataGathering? || m.ActionModule?) && m.onSuccess.None?)
    ensures r.Ok? && m.Menu? ==> r.value.VDict? && |r.value.entries| == 1 && r.value.entries[0].0 == "modules"
  {
    match m
    case Menu(name, presentation, fallback, items) =>
      Ok(VDict([("modules", VList([MenuEntry(name, presentation, fallback, items)]))]))
    case DataGathering(name, data, _, description, onSuccess) =>
      if onSuccess.None? then Err(AttributeError("to_dict"))
      else Ok(VDict([("name", VStr(name)), ("kind", VStr("data_gathering")), ("description", OptStr(description)),
                     ("data", VList(data)), ("on-success", ActionDict(onSuccess.value))]))
    case QuestionAnswering(name, questions, description, onSuccess) =>
      Ok(VDict([("name", VStr(name)), ("kind", VStr("question_answering")), ("description", VStr(description)),
                ("questions", VList(QuestionsList(questions)))]
               + (if onSuccess.Some? then [("on-success", ActionDict(onSuccess.value))] else [])))
    case ActionModule(name, data, _, onSuccess) =>
      if onSuccess.None? then Err(AttributeError("to_dict"))
      else Ok(VDict([("name", VStr(name)), ("kind", VStr("action")), ("data", VList(data)),
                     ("on-success", ActionDict(onSuccess.value))]))
    case Sequence(_, _, _, _, _) => Err(AttributeError("to_dict"))
    case OpenEnded(_, _) => Err(AttributeError("to_dict"))
  }

  // ----- Reading a serialised module back -----

  /** The value of the first entry with key `k`. */
  function Lookup(es: seq<(string, Value)>, k: string): Option<Value>
  {
    if es == [] then None else if es[0].0 == k then Some(es[0].1) else Lookup(es[1..], k)
  }

  function Field(v: Value, k: string): Option<Value>
  {
    if v.VDict? then Lookup(v.entries, k) else None
  }

  lemma {:induction false} LookupAt(es: seq<(string, Value)>, i: nat, k: string)
    requires i < |es| && es[i].0 == k
    requires forall j :: 0 <= j < i ==> es[j].0 != k
    ensures Lookup(es, k) == Some(es[i].1)
  {
    if i > 0 {
      LookupAt(es[1..], i - 1, k);
    }
  }

  lemma {:induction false} LookupMissing(es: seq<(string, Value)>, k: string)
    requires forall j :: 0 <= j < |es| ==> es[j].0 != k
    ensures Lookup(es, k) == None
  {
    if es != [] {
      LookupMissing(es[1..], k);
    }
  }

  lemma {:induction false} LookupConcat(a: seq<(string, Value)>, b: seq<(string, Value)>, k: string)
    ensures Lookup(a + b, k) == if Lookup(a, k).Some? then Lookup(a, k) else Lookup(b, k)
  {
    if a == [] {
      assert a + b == b;
    } else {
      assert (a + b)[1..] == a[1..] + b;
      LookupConcat(a[1..], b, k);
    }
  }

  function ReadStr(v: Option<Value>): Option<string>
  {
    if v.Some? && v.value.VStr? then Some(v.value.s) else None
  }

  /** An optional string field: absent or null is none. */
  function ReadOptStr(v: Option<Value>): Option<Option<string>>
  {
    if v.None? || v.value.VNone? then Some(None) else if v.value.VStr? then Some(Some(v.value.s)) else None
  }

  function ReadStrList(vs: seq<Value>): Option<seq<string>>
  {
    if vs == [] then Some([])
    else if !vs[0].VStr? then None
    else
      var rest := ReadStrList(vs[1..]);
      if rest.None? then None else Some([vs[0].s] + rest.value)
  }

  function ReadResponseElement(v: Value): Option<ResponseElement>
  {
    var text := ReadStr(Field(v, "text"));
    var rephrase := ReadOptStr(Field(v, "rephrase"));
    if text.None? || rephrase.None? then None else Some(ResponseElement(text.value, rephrase.value))
  }

  function ReadAction(v: Value): Option<Action>
  {
    var execute := Field(v, "execute");
    var response := Field(v, "response");
    var language := if execute.Some? then ReadStr(Field(execute.value, "language")) else None;
    var code := if execute.Some? then ReadStr(Field(execute.value, "code")) else None;
    if execute.Some? && (language.None? || code.None?) then None
    else
      var e := if execute.Some? then Some(ExecuteElement(language.value, code.value)) else None;
      if response.None? then Some(Action(e, None))
      else if response.value.VStr? then Some(Action(e, Some(TextResponse(response.value.s))))
      else
        var r := ReadResponseElement(response.value);
        if r.None? then None else Some(Action(e, Some(ElementResponse(r.value))))
  }

  function ReadQuestions(vs: seq<Value>): Option<seq<QuestionAnswer>>
  {
    if vs == [] then Some([])
    else
      var q := ReadStr(Field(vs[0], "question"));
      var a := ReadStr(Field(vs[0], "answer"));
      var rest := ReadQuestions(vs[1..]);
      if q.None? || a.None? || rest.None? then None else Some([QuestionAnswer(q.value, a.value)] + rest.value)
  }

  function ReadMemory(v: Option<Value>): Option<MemoryScope>
  {
    if v.None? then Some(Individual)
    else if v.value == VStr("full") then Some(Full)
    else if v.value == VStr("individual") then Some(Individual)
    else None
  }

  /** An item, told apart by its `kind`; a sequence item takes the default `goback`, true. */
  function ReadItem(v: Value): Option<Item>
  {
    var title := ReadStr(Field(v, "title"));
    var kind := ReadStr(Field(v, "kind"));
    if title.None? || kind.None? then None
    else if kind.value == "answer" then
      var answer := ReadStr(Field(v, "answer"));
      if answer.None? then None else Some(AnswerItem(title.value, answer.value))
    else if kind.value == "module" then
      var reference := ReadStr(Field(v, "reference"));
      if reference.None? then None else Some(ToolItem(title.value, reference.value))
    else if kind.value == "sequence" then
      var memory := ReadMemory(Field(v, "memory"));
      var references := Field(v, "references");
      if memory.None? || references.None? || !references.value.VList? then None
      else
        var refs := ReadStrList(references.value.items);
        if refs.None? then None else Some(SequenceItem(title.value, memory.value, true, refs.value))
    else None
  }

  function ReadItems(vs: seq<Value>): Option<seq<Item>>
  {
    if vs == [] then Some([])
    else
      var it := ReadItem(vs[0]);
      var rest := ReadItems(vs[1..]);
      if it.None? || rest.None? then None else Some([it.value] + rest.value)
  }

  /** `on-success`: absent is none. */
  function ReadOnSuccess(v: Option<Value>): Option<Option<Action>>
  {
    if v.None? then Some(None)
    else
      var a := ReadAction(v.value);
      if a.None? then None else Some(Some(a.value))
  }

  /**
   * A module, told apart by its `kind`. The data model is not serialised; the loader derives it
   * from `data` again, and it is left empty here.
   */
  function ReadModule(v: Value): Option<Module>
  {
    var name := ReadStr(Field(v, "name"));
    var kind := ReadStr(Field(v, "kind"));
    if name.None? || kind.None? then None
    else if kind.value == "menu" then ReadMenu(v, name.value)
    else if kind.value == "question_answering" then ReadQuestionAnswering(v, name.value)
    else if kind.value == "data_gathering" || kind.value == "action" then ReadTask(v, name.value, kind.value == "action")
    else None
  }

  function ReadMenu(v: Value, name: string): Option<Module>
  {
    var presentation := ReadStr(Field(v, "presentation"));
    var fallback := ReadOptStr(Field(v, "fallback"));
    var items := Field(v, "items");
    if presentation.None? || fallback.None? || items.None? || !items.value.VList? then None
    else
      var its := ReadItems(items.value.items);
      if its.None? then None else Some(Menu(name, presentation.value, fallback.value, its.value))
  }

  function ReadQuestionAnswering(v: Value, name: string): Option<Module>
  {
    var description := ReadStr(Field(v, "description"));
    var questions := Field(v, "questions");
    var onSuccess := ReadOnSuccess(Field(v, "on-success"));
    if description.None? || questions.None? || !questions.value.VList? || onSuccess.None? then None
    else
      var qs := ReadQuestions(questions.value.items);
      if qs.None? then None else Some(QuestionAnswering(name, qs.value, description.value, onSuccess.value))
  }

  /** A data-gathering or an action module: both carry `data` and `on-success`. */
  function ReadTask(v: Value, name: string, isAction: bool): Option<Module>
  {
    var data := Field(v, "data");
    var onSuccess := ReadOnSuccess(Field(v, "on-success"));
    var description := ReadOptStr(Field(v, "description"));
    if data.None? || !data.value.VList? || onSuccess.None? || description.None? then None
    else if isAction then Some(ActionModule(name, data.value.items, [], onSuccess.value))
    else Some(DataGathering(name, data.value.items, [], description.value, onSuccess.value))
  }

  function ReadModules(vs: seq<Value>): Option<seq<Module>>
  {
    if vs == [] then Some([])
    else
      var m := ReadModule(vs[0]);
      var rest := ReadModules(vs[1..]);
      if m.None? || rest.None? then None else Some([m.value] + rest.value)
  }

  /** `parse_yaml`'s rule: a document with `modules` lists several, any other is one module. */
  function ParseModules(v: Value): Option<seq<Module>>
  {
    var listed := Field(v, "modules");
    if listed.Some? then (if listed.value.VList? then ReadModules(listed.value.items) else None)
    else
      var m := ReadModule(v);
      if m.None? then None else Some([m.value])
  }

  // ----- What survives the round trip -----

  function NormOptStr(s: Option<string>): Option<string>
  {
    if Filled(s) then s else None
  }

  function NormAction(a: Action): Action
  {
    match a.response
    case None => a
    case Some(TextResponse(t)) => if t == "" then a.(response := None) else a
    case Some(ElementResponse(e)) => a.(response := Some(ElementResponse(e.(rephrase := NormOptStr(e.rephrase)))))
  }

  function NormOnSuccess(a: Option<Action>): Option<Action>
  {
    if a.Some? then Some(NormAction(a.value)) else None
  }

  function NormItem(it: Item): Item
  {
    if it.SequenceItem? then it.(goback := true) else it
  }

  function NormItems(items: seq<Item>): seq<Item>
  {
    if items == [] then [] else [NormItem(items[0])] + NormItems(items[1..])
  }

  /**
   * The module as the loader sees it after the round trip: an empty fallback, rephrase or
   * response text is gone, a sequence item's `goback` is the default, and the data model is empty.
   */
  function Norm(m: Module): Module
  {
    match m
    case Menu(name, presentation, fallback, items) => Menu(name, presentation, NormOptStr(fallback), NormItems(items))
    case DataGathering(name, data, _, description, onSuccess) => DataGathering(name, data, [], description, NormOnSuccess(onSuccess))
    case QuestionAnswering(name, questions, description, onSuccess) =>
      QuestionAnswering(name, questions, description, NormOnSuccess(onSuccess))
    case ActionModule(name, data, _, onSuccess) => ActionModule(name, data, [], NormOnSuccess(onSuccess))
    case _ => m
  }

  lemma {:induction false} StrListRoundTrip(xs: seq<string>)
    ensures ReadStrList(StrList(xs).items) == Some(xs)
  {
    if xs != [] {
      assert StrList(xs).items[1..] == StrList(xs[1..]).items;
      StrListRoundTrip(xs[1..]);
      assert [xs[0]] + xs[1..] == xs;
    }
  }

  /** A response element reads back with an empty rephrase dropped. */
  lemma ResponseElementRoundTrip(r: ResponseElement)
    ensures ReadResponseElement(ResponseElementDict(r)) == Some(r.(rephrase := NormOptStr(r.rephrase)))
  {
    var e := ResponseElementDict(r).entries;
    LookupAt(e, 0, "text");
    if Filled(r.rephrase) {
      LookupAt(e, 1, "rephrase");
    } else {
      LookupMissing(e, "rephrase");
    }
  }

  /** An action reads back with an empty response text or rephrase dropped. */
  lemma ActionRoundTrip(a: Action)
    ensures ReadAction(ActionDict(a)) == Some(NormAction(a))
  {
    var ex: seq<(string, Value)> := if a.execute.Some? then [("execute", ExecuteElementDict(a.execute.value))] else [];
    var re := ResponseEntry(a.response);
    LookupConcat(ex, re, "execute");
    LookupConcat(ex, re, "response");
    LookupMissing(re, "execute");
    LookupMissing(ex, "response");
    if a.execute.Some? {
      LookupAt(ex, 0, "execute");
      LookupAt(ExecuteElementDict(a.execute.value).entries, 0, "language");
      LookupAt(ExecuteElementDict(a.execute.value).entries, 1, "code");
    } else {
      LookupMissing(ex, "execute");
    }
    if re != [] {
      LookupAt(re, 0, "response");
    } else {
      LookupMissing(re, "response");
    }
    if a.response.Some? && a.response.value.ElementResponse? {
      ResponseElementRoundTrip(a.response.value.element);
    }
  }

  lemma QuestionRoundTrip(q: QuestionAnswer)
    ensures ReadStr(Field(QuestionAnswerDict(q), "question")) == Some(q.question)
    ensures ReadStr(Field(QuestionAnswerDict(q), "answer")) == Some(q.answer)
  {
    LookupAt(QuestionAnswerDict(q).entries, 0, "question");
    LookupAt(QuestionAnswerDict(q).entries, 1, "answer");
  }

  lemma {:induction false} QuestionsRoundTrip(qs: seq<QuestionAnswer>)
    ensures ReadQuestions(QuestionsList(qs)) == Some(qs)
  {
    if qs != [] {
      QuestionsRoundTrip(qs[1..]);
      QuestionRoundTrip(qs[0]);
      assert QuestionsList(qs)[1..] == QuestionsList(qs[1..]);
      assert [qs[0]] + qs[1..] == qs;
    }
  }

  lemma ItemRoundTrip(it: Item)
    ensures ReadItem(ItemDict(it)) == Some(NormItem(it))
  {
    var e := ItemDict(it).entries;
    LookupAt(e, 0, "title");
    if it.SequenceItem? {
      StrListRoundTrip(it.references);
      LookupAt(e, 1, "memory");
      LookupAt(e, 2, "kind");
      LookupAt(e, 3, "references");
      assert ReadMemory(Some(VStr(MemoryScopeName(it.memory)))) == Some(it.memory);
    } else if it.AnswerItem? {
      LookupAt(e, 1, "kind");
      LookupAt(e, 2, "answer");
    } else {
      LookupAt(e, 1, "kind");
      LookupAt(e, 2, "reference");
    }
  }

  lemma {:induction false} ItemsRoundTrip(items: seq<Item>)
    ensures ReadItems(ItemsList(items)) == Some(NormItems(items))
  {
    if items != [] {
      ItemRoundTrip(items[0]);
      ItemsRoundTrip(items[1..]);
    }
  }

  lemma SingleModule(v: Value, m: Module)
    requires ReadModule(v) == Some(m)
    ensures ReadModules([v]) == Some([m])
  {
    var vs := [v];
    assert vs[0] == v && vs[1..] == [];
    assert ReadModules(vs[1..]) == Some([]);
    assert [m] + [] == [m];
  }

  lemma MenuEntryRoundTrip(m: Module)
    requires m.Menu?
    ensures ReadModule(MenuEntry(m.name, m.presentation, m.fallback, m.items)) == Some(Norm(m))
  {
    ItemsRoundTrip(m.items);
    var v := MenuEntry(m.name, m.presentation, m.fallback, m.items);
    var f := v.entries;
    var head := [("name", VStr(m.name)), ("kind", VStr("menu")), ("presentation", VStr(m.presentation))];
    var tail := [("items", VList(ItemsList(m.items)))];
    LookupAt(f, 0, "name");
    LookupAt(f, 1, "kind");
    LookupAt(f, 2, "presentation");
    if Filled(m.fallback) {
      assert f == head + [("fallback", VStr(m.fallback.value))] + tail;
      LookupAt(f, 3, "fallback");
      LookupAt(f, 4, "items");
    } else {
      assert f == head + tail;
      LookupMissing(f, "fallback");
      LookupAt(f, 3, "items");
    }
    assert ReadMenu(v, m.name) == Some(Norm(m));
  }

  lemma MenuRoundTrip(m: Module)
    requires m.Menu?
    ensures ParseModules(ModuleDict(m).value) == Some([Norm(m)])
  {
    var inner := MenuEntry(m.name, m.presentation, m.fallback, m.items);
    LookupAt(ModuleDict(m).value.entries, 0, "modules");
    MenuEntryRoundTrip(m);
    SingleModule(inner, Norm(m));
  }

  lemma DataGatheringRoundTrip(m: Module)
    requires m.DataGathering? && m.onSuccess.Some?
    ensures ParseModules(ModuleDict(m).value) == Some([Norm(m)])
  {
    var e := [("name", VStr(m.name)), ("kind", VStr("data_gathering")), ("description", OptStr(m.description)),
              ("data", VList(m.data)), ("on-success", ActionDict(m.onSuccess.value))];
    assert ModuleDict(m) == Ok(VDict(e));
    ActionRoundTrip(m.onSuccess.value);
    LookupMissing(e, "modules");
    LookupAt(e, 0, "name");
    LookupAt(e, 1, "kind");
    LookupAt(e, 2, "description");
    LookupAt(e, 3, "data");
    LookupAt(e, 4, "on-success");
  }

  lemma QuestionAnsweringRoundTrip(m: Module)
    requires m.QuestionAnswering?
    ensures ParseModules(ModuleDict(m).value) == Some([Norm(m)])
  {
    if m.onSuccess.Some? {
      AnsweringActionRoundTrip(m);
    } else {
      AnsweringOnlyRoundTrip(m);
    }
  }

  /** A question-answering module with an `on-success` action. */
  lemma AnsweringActionRoundTrip(m: Module)
    requires m.QuestionAnswering? && m.onSuccess.Some?
    ensures ParseModules(ModuleDict(m).value) == Some([Norm(m)])
  {
    var head := [("name", VStr(m.name)), ("kind", VStr("question_answering")), ("description", VStr(m.qaDescription)),
                 ("questions", VList(QuestionsList(m.questions)))];
    var e := head + [("on-success", ActionDict(m.onSuccess.value))];
    assert ModuleDict(m) == Ok(VDict(e));
    QuestionsRoundTrip(m.questions);
    ActionRoundTrip(m.onSuccess.value);
    LookupMissing(e, "modules");
    LookupAt(e, 0, "name");
    LookupAt(e, 1, "kind");
    LookupAt(e, 2, "description");
    LookupAt(e, 3, "questions");
    LookupAt(e, 4, "on-success");
  }

  /** A question-answering module without an `on-success` action. */
  lemma AnsweringOnlyRoundTrip(m: Module)
    requires m.QuestionAnswering? && m.onSuccess.None?
    ensures ParseModules(ModuleDict(m).value) == Some([Norm(m)])
  {
    var e := [("name", VStr(m.name)), ("kind", VStr("question_answering")), ("description", VStr(m.qaDescription)),
              ("questions", VList(QuestionsList(m.questions)))];
    assert ModuleDict(m) == Ok(VDict(e + []));
    assert e + [] == e;
    QuestionsRoundTrip(m.questions);
    LookupMissing(e, "modules");
    LookupAt(e, 0, "name");
    LookupAt(e, 1, "kind");
    LookupAt(e, 2, "description");
    LookupAt(e, 3, "questions");
    LookupMissing(e, "on-success");
  }

  lemma ActionModuleRoundTrip(m: Module)
    requires m.ActionModule? && m.onSuccess.Some?
    ensures ParseModules(ModuleDict(m).value) == Some([Norm(m)])
  {
    var e := [("name", VStr(m.name)), ("kind", VStr("action")), ("data", VList(m.data)),
              ("on-success", ActionDict(m.onSuccess.value))];
    assert ModuleDict(m) == Ok(VDict(e));
    ActionRoundTrip(m.onSuccess.value);
    LookupMissing(e, "modules");
    LookupMissing(e, "description");
    LookupAt(e, 0, "name");
    LookupAt(e, 1, "kind");
    LookupAt(e, 2, "data");
    LookupAt(e, 3, "on-success");
  }

  /**
   * What `persist` writes for a module loads back, by `parse_yaml`'s rule, as that module alone,
   * up to the fields that are not written.
   */
  lemma ModuleRoundTrip(m: Module)
    requires ModuleDict(m).Ok?
    ensures ParseModules(ModuleDict(m).value) == Some([Norm(m)])
  {
    if m.Menu? {
      MenuRoundTrip(m);
    } else if m.DataGathering? {
      DataGatheringRoundTrip(m);
    } else if m.QuestionAnswering? {
      QuestionAnsweringRoundTrip(m);
    } else {
      ActionModuleRoundTrip(m);
    }
  }

  /** Two modules that serialise alike are alike up to the unwritten fields. */
  lemma ModuleDictInjective(a: Module, b: Module)
    requires ModuleDict(a).Ok? && ModuleDict(a) == ModuleDict(b)
    ensures Norm(a) == Norm(b)
  {
    ModuleRoundTrip(a);
    ModuleRoundTrip(b);
  }
}
