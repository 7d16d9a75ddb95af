// The module generator: every specification module becomes a runtime module with its prompts and
// its tools. Generated modules are memoised by name.
module Generator {
  import opened Wrappers
  import opened Strings
  import Spec
  import Prompts
  import Runtime

  // ----- Menu prompts (`MenuModulePromptGenerator`) -----

  /** What a menu's task list says to do for an item. */
  function ItemHandling(item: Spec.Item): string
  {
    match item
    case AnswerItem(_, answer) => "You have to answer \"" + answer + "\""
    case ToolItem(_, reference) => "You have to use the tool \"" + reference + "\""
    case SequenceItem(_, _, _, _) => "You have to use the tool \"" + Spec.GetSequenceModule(item).name + "\""
  }

  /** The task line of the item at index `i`: tasks are numbered from 1. */
  function TaskLine(i: nat, item: Spec.Item): string
  {
    IntToString(i + 1) + ": " + item.title + ". " + ItemHandling(item)
  }

  function TaskLines(items: seq<Spec.Item>): seq<string>
  {
    seq(|items|, i requires 0 <= i < |items| => TaskLine(i, items[i]))
  }

  const TasksHeader := "\nTASKS:\nYou are able to assist ONLY in these tasks:\n"
  const FallbackHeader := "\nFallback:\nFor any request not related exactly to one of the tasks in list above, you MUST answer: "

  function MenuFallbackText(fallback: Option<string>): string
  {
    match fallback
    case None => ""
    case Some(f) => FallbackHeader + f
  }

  /** The task prompt of a menu: the numbered tasks, then the fallback. */
  function MenuTask(items: seq<Spec.Item>, fallback: Option<string>): string
  {
    TasksHeader + Join("\n", TaskLines(items)) + "\n" + MenuFallbackText(fallback)
  }

  /** The task prompt lists every item, numbered from 1, under the tasks header. */
  lemma MenuTaskLists(items: seq<Spec.Item>, fallback: Option<string>, i: nat)
    requires i < |items|
    ensures StartsWith(MenuTask(items, fallback), TasksHeader)
    ensures Contains(MenuTask(items, fallback), IntToString(i + 1) + ": " + items[i].title + ". " + ItemHandling(items[i]))
  {
    var lines := TaskLines(items);
    JoinInContext(TasksHeader, "\n", lines, "\n" + MenuFallbackText(fallback), i);
    assert TasksHeader + Join("\n", lines) + ("\n" + MenuFallbackText(fallback)) == MenuTask(items, fallback);
  }

  /** The fallback block is there only when a fallback is set, and then it closes the task prompt. */
  lemma MenuFallbackOnlyWhenSet(items: seq<Spec.Item>, f: string)
    ensures MenuTask(items, Some(f)) == MenuTask(items, None) + FallbackHeader + f
    ensures EndsWith(MenuTask(items, Some(f)), FallbackHeader + f)
    ensures EndsWith(MenuTask(items, None), "\n")
  {
    var base := TasksHeader + Join("\n", TaskLines(items)) + "\n";
    assert MenuTask(items, None) == base;
    assert MenuTask(items, Some(f)) == base + (FallbackHeader + f);
  }

  /** Python's `lower()` on the ASCII letters. */
  function AsciiLower(s: string): (r: string)
    ensures |r| == |s|
    ensures forall i :: 0 <= i < |s| ==> r[i] == if 'A' <= s[i] <= 'Z' then (s[i] as int + 32) as char else s[i]
  {
    seq(|s|, i requires 0 <= i < |s| => if 'A' <= s[i] <= 'Z' then (s[i] as int + 32) as char else s[i])
  }

  const ManyLanguagesHead := "\nYou are only able to answer the user in the following languages: "
  const OneLanguageHead := "\nYou are only able to answer in "
  const OtherLanguageHead := "\nIf the user uses a language different from "
  const SwitchToSome := ", ask politely to switch to some of these languages: "
  const SwitchTo := ", ask politely to switch to "
  const AnyLanguage := "\nYou can communicate with the user in any language.\n"

  /** The language rules of a menu's presentation, from the configured `languages`. */
  function LanguagesPrompt(languages: string): string
  {
    if |Split(languages, ",")| > 1 then
      ManyLanguagesHead + languages + "\n" + OtherLanguageHead + languages + SwitchToSome + languages
    else if AsciiLower(languages) != "any" then
      OneLanguageHead + languages + "\n" + OtherLanguageHead + languages + SwitchTo + languages
    else AnyLanguage
  }

  /**
   * Several comma-separated languages give the "these languages" rule, a single language other than
   * `any` the "only" rule, and `any` (in any letter case) the any-language rule.
   */
  lemma LanguageRules(languages: string)
    ensures Contains(languages, ",") ==>
              StartsWith(LanguagesPrompt(languages), ManyLanguagesHead + languages + "\n")
              && EndsWith(LanguagesPrompt(languages), SwitchToSome + languages)
    ensures !Contains(languages, ",") && AsciiLower(languages) != "any" ==>
              StartsWith(LanguagesPrompt(languages), OneLanguageHead + languages + "\n")
              && EndsWith(LanguagesPrompt(languages), SwitchTo + languages)
    ensures !Contains(languages, ",") && AsciiLower(languages) == "any" ==> LanguagesPrompt(languages) == AnyLanguage
  {
    assert |Split(languages, ",")| > 1 <==> IndexOf(languages, ",").Some?;
    var many := ManyLanguagesHead + languages + "\n" + OtherLanguageHead + languages;
    var one := OneLanguageHead + languages + "\n" + OtherLanguageHead + languages;
    assert many + SwitchToSome + languages == many + (SwitchToSome + languages);
    assert one + SwitchTo + languages == one + (SwitchTo + languages);
  }

  /** The presentation prompt of a menu: its presentation, then the language rules. */
  function MenuPresentation(presentation: string, languages: string): string
  {
    presentation + "\n" + LanguagesPrompt(languages) + "\n"
  }

  // ----- Question answering -----

  const QuestionsIntro := "\nThe tool is able to answer the following questions:\n"
  const QuestionRequest := "\n\nProvide the question given by the user using the JSON format \"question\": <question>\".\n"

  function QuestionLines(qs: seq<Spec.QuestionAnswer>): seq<string>
  {
    seq(|qs|, i requires 0 <= i < |qs| => "- Question: " + qs[i].question)
  }

  /** The activation prompt of a question-answering module. */
  function QuestionAnsweringActivation(description: string, qs: seq<Spec.QuestionAnswer>): string
  {
    description + QuestionsIntro + Join("\n", QuestionLines(qs)) + QuestionRequest
  }

  /** A joined list framed by a head and a tail: the text starts with the head, ends with the tail
      and holds every part. */
  lemma Framed(a: string, b: string, sep: string, parts: seq<string>, tail: string, i: nat)
    requires i < |parts|
    ensures StartsWith(a + b + Join(sep, parts) + tail, a)
    ensures EndsWith(a + b + Join(sep, parts) + tail, tail)
    ensures Contains(a + b + Join(sep, parts) + tail, parts[i])
  {
    JoinInContext(a + b, sep, parts, tail, i);
    assert a + b + Join(sep, parts) + tail == a + (b + Join(sep, parts) + tail);
  }

  /** The activation prompt starts with the description, lists every question and ends with the request. */
  lemma QuestionAnsweringActivationLists(description: string, qs: seq<Spec.QuestionAnswer>, i: nat)
    requires i < |qs|
    ensures StartsWith(QuestionAnsweringActivation(description, qs), description)
    ensures Contains(QuestionAnsweringActivation(description, qs), "- Question: " + qs[i].question)
    ensures EndsWith(QuestionAnsweringActivation(description, qs), QuestionRequest)
  {
    Framed(description, QuestionsIntro, "\n", QuestionLines(qs), QuestionRequest, i);
  }

  // ----- Data gathering -----

  const OptionalMark := " is optional and"
  const TypeMark := " is of type "
  const ValuesMark := " can be one of the following values: "
  const ValuesEnd := ", do not accept any other value\n"

  function ValueNames(vs: seq<Spec.EnumValue>): seq<string>
  {
    seq(|vs|, i requires 0 <= i < |vs| => vs[i].name)
  }

  function PropertyHead(p: Spec.DataProperty): string
  {
    "- '" + p.name + "' which"
  }

  /**
   * The line of one property in the data shape. A type that is not simple is `enum`, so the
   * unknown-type branch of the source cannot be reached; an enum without values fails to iterate.
   */
  function ShapeLine(p: Spec.DataProperty): (r: Result<string>)
    ensures r.Ok? <==> Spec.IsSimpleType(p) || p.values.Some?
    ensures r.Ok? ==> StartsWith(r.value, PropertyHead(p)) && EndsWith(r.value, "\n")
    ensures r.Ok? && Spec.IsOptional(p) ==> StartsWith(r.value, PropertyHead(p) + OptionalMark)
    ensures r.Ok? && Spec.IsSimpleType(p) ==> EndsWith(r.value, TypeMark + p.typ + "\n")
    ensures r.Ok? && !Spec.IsSimpleType(p) ==>
              EndsWith(r.value, ValuesMark + Join(", ", ValueNames(p.values.value)) + ValuesEnd)
  {
    var head := PropertyHead(p) + if Spec.IsOptional(p) then OptionalMark else "";
    if Spec.IsSimpleType(p) then
      var tail := TypeMark + p.typ + "\n";
      assert head + TypeMark + p.typ + "\n" == head + tail;
      Ok(head + TypeMark + p.typ + "\n")
    else
      match p.values
      case None => Err(TypeError("'NoneType' object is not iterable"))
      case Some(vs) =>
        var tail := ValuesMark + Join(", ", ValueNames(vs)) + ValuesEnd;
        assert head + ValuesMark + Join(", ", ValueNames(vs)) + ValuesEnd == head + tail;
        Ok(head + ValuesMark + Join(", ", ValueNames(vs)) + ValuesEnd)
  }

  /** `data_shape`: the lines of the properties, in declaration order; the first failing line fails it. */
  function Shape(props: seq<Spec.DataProperty>): Result<string>
  {
    if props == [] then Ok("")
    else
      var front :- Shape(props[..|props| - 1]);
      var line :- ShapeLine(props[|props| - 1]);
      Ok(front + line)
  }

  /** Once a prefix of the properties fails, the whole shape fails the same way. */
  lemma {:induction false} ShapeErrorPersists(props: seq<Spec.DataProperty>, k: nat)
    requires k <= |props| && Shape(props[..k]).Err?
    ensures Shape(props) == Shape(props[..k])
    decreases |props| - k
  {
    if k < |props| {
      var init := props[..|props| - 1];
      assert init[..k] == props[..k];
      ShapeErrorPersists(init, k);
    } else {
      assert props[..k] == props;
    }
  }

  function ShapeLines(props: seq<Spec.DataProperty>): seq<string>
    requires forall i :: 0 <= i < |props| ==> ShapeLine(props[i]).Ok?
  {
    seq(|props|, i requires 0 <= i < |props| => ShapeLine(props[i]).value)
  }

  lemma {:induction false} ConcatSnoc(parts: seq<string>, x: string)
    ensures Concat(parts + [x]) == Concat(parts) + x
  {
    if parts != [] {
      assert (parts + [x])[1..] == parts[1..] + [x];
      ConcatSnoc(parts[1..], x);
    } else {
      assert Concat([x]) == x + Concat([]);
    }
  }

  /** The data shape fails exactly when the line of some property fails. */
  lemma {:induction false} ShapeFailsOnlyOnALine(props: seq<Spec.DataProperty>)
    ensures Shape(props).Ok? <==> forall i :: 0 <= i < |props| ==> ShapeLine(props[i]).Ok?
  {
    if props != [] {
      var init := props[..|props| - 1];
      ShapeFailsOnlyOnALine(init);
      assert forall i :: 0 <= i < |init| ==> init[i] == props[i];
    }
  }

  /** The data shape is one line per property, in declaration order. */
  lemma {:induction false} ShapeHasOneLinePerProperty(props: seq<Spec.DataProperty>)
    requires Shape(props).Ok?
    ensures forall i :: 0 <= i < |props| ==> ShapeLine(props[i]).Ok?
    ensures Shape(props).value == Concat(ShapeLines(props))
  {
    ShapeFailsOnlyOnALine(props);
    if props != [] {
      var init := props[..|props| - 1];
      var last := ShapeLine(props[|props| - 1]).value;
      ShapeHasOneLinePerProperty(init);
      assert ShapeLines(props) == ShapeLines(init) + [last];
      ConcatSnoc(ShapeLines(init), last);
    }
  }

  /** The `data_shape` loop. */
  method DataShape(props: seq<Spec.DataProperty>) returns (r: Result<string>)
    ensures r == Shape(props)
  {
    var shape := "";
    var i := 0;
    while i < |props|
      invariant i <= |props|
      invariant Shape(props[..i]) == Ok(shape)
    {
      assert props[..i + 1][..i] == props[..i];
      var line := ShapeLine(props[i]);
      if line.Err? {
        ShapeErrorPersists(props, i + 1);
        return Err(line.error);
      }
      shape := shape + line.value;
      i := i + 1;
    }
    assert props[..i] == props;
    r := Ok(shape);
  }

  function PropertyNames(props: seq<Spec.DataProperty>): string
  {
    Join(", ", seq(|props|, i requires 0 <= i < |props| => props[i].name))
  }

  const NeedsData := "\nThe tool needs the following data:\n"
  const JsonFields := "\nProvide the values as JSON with the following fields: "
  const OnlyGiven := "\nOnly provide the values for "
  const AskAgain := " if given by the user. If no value is given, ask again.\n"
  const CollectTask := "Your task is collecting the following data from the user:\n"
  const CollectTaskEnd := "\nPass this information to the corresponding tool.\nIf there is missing data, ask for it politely.\n\n"

  /** The activation prompt of a data-gathering module. */
  function DataActivation(description: string, names: string, shape: string): string
  {
    description + NeedsData + shape + JsonFields + names + ".\n" + OnlyGiven + names + AskAgain
  }

  /** The task prompt of a data-gathering module. */
  function DataTask(shape: string): string
  {
    CollectTask + shape + CollectTaskEnd
  }

  // ----- Runtime modules -----

  /** `self.initial.presentation`: only a menu has a presentation. */
  function InitialPresentation(initial: Spec.Module): (r: Result<string>)
    ensures r.Ok? <==> initial.Menu?
    ensures r.Ok? ==> r.value == initial.presentation
  {
    if initial.Menu? then Ok(initial.presentation) else Err(AttributeError("presentation"))
  }

  /** `visit_menu_module`, once the tools are generated. */
  function MenuOf(m: Spec.Module, languages: string, tools: seq<Runtime.RuntimeModule>): Runtime.RuntimeModule
    requires m.Menu?
  {
    Runtime.RuntimeModule(Runtime.MenuRuntime, m, MenuPresentation(m.presentation, languages),
                          MenuTask(m.items, m.fallback), None, tools)
  }

  /** `visit_question_answering_module`. */
  function QuestionAnsweringOf(m: Spec.Module, initial: Spec.Module): (r: Result<Runtime.RuntimeModule>)
    requires m.QuestionAnswering?
    ensures r.Ok? <==> initial.Menu?
    ensures r.Ok? ==> r.value.kind == Runtime.QuestionAnsweringRuntime && r.value.specModule == m && r.value.tools == []
    ensures r.Ok? ==> r.value.taskPrompt == Prompts.QuestionAnsweringPrompt(m.questions)
                      && r.value.presentationPrompt == initial.presentation
                      && r.value.activationPrompt == Some(QuestionAnsweringActivation(m.qaDescription, m.questions))
  {
    var activation := QuestionAnsweringActivation(m.qaDescription, m.questions);
    var presentation :- InitialPresentation(initial);
    Ok(Runtime.RuntimeModule(Runtime.QuestionAnsweringRuntime, m, presentation, Prompts.QuestionAnsweringPrompt(m.questions),
                             Some(activation), []))
  }

  /**
   * `visit_data_gathering_module`, with the `allow_go_back_to` of the visit: those modules are the
   * tools. A missing description cannot be concatenated.
   */
  function DataGatheringOf(m: Spec.Module, initial: Spec.Module, goBack: seq<Runtime.RuntimeModule>)
    : (r: Result<Runtime.RuntimeModule>)
    requires m.DataGathering?
    ensures r.Ok? <==> Shape(m.dataModel).Ok? && m.description.Some? && initial.Menu?
    ensures r.Ok? ==> r.value.kind == Runtime.DataGatheringRuntime && r.value.specModule == m && r.value.tools == goBack
    ensures r.Ok? ==> r.value.taskPrompt == DataTask(Shape(m.dataModel).value)
                      && r.value.activationPrompt == Some(DataActivation(m.description.value, PropertyNames(m.dataModel), Shape(m.dataModel).value))
                      && r.value.presentationPrompt == initial.presentation
  {
    var shape :- Shape(m.dataModel);
    if m.description.None? then Err(TypeError("unsupported operand type(s) for +: 'NoneType' and 'str'"))
    else
      var activation := DataActivation(m.description.value, PropertyNames(m.dataModel), shape);
      var presentation :- InitialPresentation(initial);
      Ok(Runtime.RuntimeModule(Runtime.DataGatheringRuntime, m, presentation, DataTask(shape), Some(activation), goBack))
  }

  /** `visit_action_module`: no task, an empty activation prompt and no tools. */
  function ActionOf(m: Spec.Module, initial: Spec.Module): (r: Result<Runtime.RuntimeModule>)
    requires m.ActionModule?
    ensures r.Ok? <==> initial.Menu?
    ensures r.Ok? ==> r.value == Runtime.RuntimeModule(Runtime.ActionRuntime, m, initial.presentation, "", Some(""), [])
  {
    var presentation :- InitialPresentation(initial);
    Ok(Runtime.RuntimeModule(Runtime.ActionRuntime, m, presentation, "", Some(""), []))
  }

  /** `visit_sequence_module`, once the referenced modules are visited. */
  function SequenceOf(m: Spec.Module, initial: Spec.Module, tools: seq<Runtime.RuntimeModule>): (r: Result<Runtime.RuntimeModule>)
    requires m.Sequence?
    ensures r.Ok? <==> initial.Menu?
    ensures r.Ok? ==> r.value == Runtime.RuntimeModule(Runtime.SequenceRuntime, m, initial.presentation, "", m.description, tools)
  {
    var presentation :- InitialPresentation(initial);
    Ok(Runtime.RuntimeModule(Runtime.SequenceRuntime, m, presentation, "", m.description, tools))
  }

  /**
   * The visit of a module that visits nothing else. The generator has no visit for an open-ended
   * module, so Python fails looking the method up.
   */
  function LeafOf(m: Spec.Module, initial: Spec.Module, goBack: seq<Runtime.RuntimeModule>): (r: Result<Runtime.RuntimeModule>)
    requires !m.Menu? && !m.Sequence?
    ensures r.Ok? ==> r.value.specModule == m
  {
    match m
    case QuestionAnswering(_, _, _, _) => QuestionAnsweringOf(m, initial)
    case DataGathering(_, _, _, _, _) => DataGatheringOf(m, initial, goBack)
    case ActionModule(_, _, _, _) => ActionOf(m, initial)
    case OpenEnded(_, _) => Err(AttributeError("visit_open_ended_conversation_module"))
  }

  /** The names a menu's tools are generated under: its tool and sequence items, in item order. */
  function ToolTargets(items: seq<Spec.Item>): seq<string>
  {
    if items == [] then []
    else
      var last := items[|items| - 1];
      ToolTargets(items[..|items| - 1]) +
      match last
      case ToolItem(_, reference) => [reference]
      case SequenceItem(_, _, _, _) => [Spec.GetSequenceModule(last).name]
      case AnswerItem(_, _) => []
  }

  /** Answer items give no tool; each tool or sequence item gives one. */
  lemma {:induction false} ToolTargetsCount(items: seq<Spec.Item>)
    ensures |ToolTargets(items)| <= |items|
    ensures (forall i :: 0 <= i < |items| ==> items[i].AnswerItem?) ==> ToolTargets(items) == []
    ensures (forall i :: 0 <= i < |items| ==> !items[i].AnswerItem?) ==> |ToolTargets(items)| == |items|
  {
    if items != [] {
      var init := items[..|items| - 1];
      assert forall i :: 0 <= i < |init| ==> init[i] == items[i];
      ToolTargetsCount(init);
    }
  }

  /** The cache holds `tools[k]` under the name `names[k]`, for every `k`. */
  predicate CachedAs(tools: seq<Runtime.RuntimeModule>, names: seq<string>, cache: map<string, Runtime.RuntimeModule>)
  {
    |tools| == |names| && forall k :: 0 <= k < |names| ==> names[k] in cache && cache[names[k]] == tools[k]
  }

  /** `b` keeps every entry of `a`. */
  predicate Extends(a: map<string, Runtime.RuntimeModule>, b: map<string, Runtime.RuntimeModule>)
  {
    forall k :: k in a ==> k in b && b[k] == a[k]
  }

  /** `resolve_module` on each reference, failing on the first unknown one. */
  function ResolveAll(modules: seq<Spec.Module>, references: seq<string>): (r: Result<seq<Spec.Module>>)
    ensures r.Ok? ==> |r.value| == |references| && forall k :: 0 <= k < |references| ==> r.value[k].name == references[k]
    ensures r.Ok? <==> forall k :: 0 <= k < |references| ==> references[k] in Spec.Index(modules)
  {
    if references == [] then Ok([])
    else
      var front :- ResolveAll(modules, references[..|references| - 1]);
      var last :- Spec.Resolve(modules, references[|references| - 1]);
      Ok(front + [last])
  }

  /**
   * `ModuleGenerator`. The chatbot model is its module list; of the configuration only `languages`
   * is read. `fuel` bounds the depth of the visit, which Python bounds by its recursion limit.
   */
  class ModuleGenerator {
    const modules: seq<Spec.Module>
    const languages: string
    const initial: Spec.Module
    var generated: map<string, Runtime.RuntimeModule>
    var allowGoBackTo: seq<Runtime.RuntimeModule>

    /** Every cached m is stored under its own name. */
    predicate Valid()
      reads this
    {
      forall k :: k in generated ==> Runtime.Name(generated[k]) == k
    }

    constructor(modules: seq<Spec.Module>, languages: string, initial: Spec.Module)
      ensures this.modules == modules && this.languages == languages && this.initial == initial
      ensures generated == map[] && allowGoBackTo == []
      ensures Valid()
    {
      this.modules := modules;
      this.languages := languages;
      this.initial := initial;
      generated := map[];
      allowGoBackTo := [];
    }

    /**
     * `generate(m, allow_go_back_to)`: a name already generated gives the cached m without
     * visiting again; otherwise the m is visited with `allow_go_back_to` set and the result cached.
     */
    method Generate(m: Spec.Module, goBack: seq<Runtime.RuntimeModule>, fuel: nat) returns (r: Result<Runtime.RuntimeModule>)
      requires Valid()
      modifies this
      decreases fuel, 3
      ensures Valid() && Extends(old(generated), generated)
      ensures m.name in old(generated) ==>
                r == Ok(old(generated)[m.name]) && generated == old(generated) && allowGoBackTo == old(allowGoBackTo)
      ensures r.Ok? ==> m.name in generated && generated[m.name] == r.value && Runtime.Name(r.value) == m.name
      ensures m.name !in old(generated) && r.Ok? ==> r.value.specModule == m
      ensures m.name !in old(generated) && m.DataGathering? ==> r == DataGatheringOf(m, initial, goBack)
      ensures m.name !in old(generated) && !m.Menu? && !m.Sequence? ==> r == LeafOf(m, initial, goBack)
      ensures m.name !in old(generated) && m.Menu? && r.Ok? ==> r.value == MenuOf(m, languages, r.value.tools)
      ensures m.name !in old(generated) && m.Sequence? && r.Ok? ==> Ok(r.value) == SequenceOf(m, initial, r.value.tools)
    {
      if m.name in generated {
        return Ok(generated[m.name]);
      }
      allowGoBackTo := goBack;
      r := Visit(m, fuel);
      if r.Ok? {
        generated := generated[m.name := r.value];
      }
    }

    /** `m.accept(self)`, for callers that need only what every visit promises. */
    method Accept(m: Spec.Module, fuel: nat) returns (r: Result<Runtime.RuntimeModule>)
      requires Valid()
      modifies this
      decreases fuel, 2
      ensures Valid() && Extends(old(generated), generated)
      ensures r.Ok? ==> r.value.specModule == m
      ensures !m.Menu? && !m.Sequence? ==>
                r == LeafOf(m, initial, old(allowGoBackTo)) && generated == old(generated) && allowGoBackTo == old(allowGoBackTo)
    {
      r := Visit(m, fuel);
    }

    /** `m.accept(self)`. */
    method Visit(m: Spec.Module, fuel: nat) returns (r: Result<Runtime.RuntimeModule>)
      requires Valid()
      modifies this
      decreases fuel, 1
      ensures Valid() && Extends(old(generated), generated)
      ensures r.Ok? ==> r.value.specModule == m
      ensures !m.Menu? && !m.Sequence? ==> generated == old(generated) && allowGoBackTo == old(allowGoBackTo)
      ensures !m.Menu? && !m.Sequence? ==> r == LeafOf(m, initial, old(allowGoBackTo))
      ensures m.Menu? && r.Ok? ==>
                r.value == MenuOf(m, languages, r.value.tools) && CachedAs(r.value.tools, ToolTargets(m.items), generated)
      ensures m.Sequence? && ResolveAll(modules, m.references).Err? ==> r == Err(ResolveAll(modules, m.references).error)
      ensures m.Sequence? && r.Ok? ==>
                ResolveAll(modules, m.references).Ok?
                && Ok(r.value) == SequenceOf(m, initial, r.value.tools)
                && |r.value.tools| == |m.references|
                && forall k :: 0 <= k < |m.references| ==>
                     r.value.tools[k].specModule == ResolveAll(modules, m.references).value[k]
    {
      match m
      case Menu(_, _, _, items) =>
        if fuel == 0 {
          return Err(RecursionLimit);
        }
        var tools := GenerateTools(items, fuel);
        if tools.Err? {
          return Err(tools.error);
        }
        r := Ok(MenuOf(m, languages, tools.value));
      case DataGathering(_, _, _, _, _) =>
        r := VisitDataGathering(m);
      case Sequence(_, references, _, _, _) =>
        var called := ResolveAll(modules, references);
        if called.Err? {
          return Err(called.error);
        }
        if fuel == 0 {
          return Err(RecursionLimit);
        }
        var tools := VisitAll(called.value, fuel);
        if tools.Err? {
          return Err(tools.error);
        }
        r := SequenceOf(m, initial, tools.value);
      case _ =>
        r := LeafOf(m, initial, allowGoBackTo);
    }

    /** `visit_data_gathering_module`, building the data shape in a loop. */
    method VisitDataGathering(m: Spec.Module) returns (r: Result<Runtime.RuntimeModule>)
      requires m.DataGathering?
      ensures r == DataGatheringOf(m, initial, allowGoBackTo)
    {
      var shape := DataShape(m.dataModel);
      if shape.Err? {
        return Err(shape.error);
      }
      if m.description.None? {
        return Err(TypeError("unsupported operand type(s) for +: 'NoneType' and 'str'"));
      }
      var activation := DataActivation(m.description.value, PropertyNames(m.dataModel), shape.value);
      var presentation := InitialPresentation(initial);
      if presentation.Err? {
        return Err(presentation.error);
      }
      r := Ok(Runtime.RuntimeModule(Runtime.DataGatheringRuntime, m, presentation.value, DataTask(shape.value),
                                    Some(activation), allowGoBackTo));
    }

    /** The tool list of `visit_menu_module`: each tool or sequence item generated, in item order. */
    method GenerateTools(items: seq<Spec.Item>, fuel: nat) returns (r: Result<seq<Runtime.RuntimeModule>>)
      requires Valid() && fuel > 0
      modifies this
      decreases fuel, 0
      ensures Valid() && Extends(old(generated), generated)
      ensures r.Ok? ==> CachedAs(r.value, ToolTargets(items), generated)
    {
      var tools: seq<Runtime.RuntimeModule> := [];
      var i := 0;
      while i < |items|
        invariant i <= |items| && Valid() && Extends(old(generated), generated)
        invariant CachedAs(tools, ToolTargets(items[..i]), generated)
      {
        assert items[..i + 1][..i] == items[..i];
        var item := items[i];
        if item.ToolItem? || item.SequenceItem? {
          var target: Spec.Module;
          if item.ToolItem? {
            var m := Spec.Resolve(modules, item.reference);
            if m.Err? {
              return Err(m.error);
            }
            target := m.value;
          } else {
            target := Spec.GetSequenceModule(item);
          }
          var before := generated;
          var t := Generate(target, [], fuel - 1);
          if t.Err? {
            return Err(t.error);
          }
          assert Extends(before, generated);
          tools := tools + [t.value];
        }
        i := i + 1;
      }
      assert items[..i] == items;
      r := Ok(tools);
    }

    /** The visits of `visit_sequence_module`: each referenced m visited directly, in order. */
    method VisitAll(ms: seq<Spec.Module>, fuel: nat) returns (r: Result<seq<Runtime.RuntimeModule>>)
      requires Valid() && fuel > 0
      modifies this
      decreases fuel, 0
      ensures Valid() && Extends(old(generated), generated)
      ensures r.Ok? ==> |r.value| == |ms| && forall k :: 0 <= k < |ms| ==> r.value[k].specModule == ms[k]
    {
      var tools: seq<Runtime.RuntimeModule> := [];
      var i := 0;
      while i < |ms|
        invariant i <= |ms| && Valid() && Extends(old(generated), generated)
        invariant |tools| == i && forall k :: 0 <= k < i ==> tools[k].specModule == ms[k]
      {
        var t := Accept(ms[i], fuel - 1);
        if t.Err? {
          return Err(t.error);
        }
        tools := tools + [t.value];
        i := i + 1;
      }
      r := Ok(tools);
    }
  }
}
