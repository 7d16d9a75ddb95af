// Prompts made of named sections that can be switched off one by one, with `{name}` placeholders.
module Prompts {
  import opened Wrappers
  import opened Strings
  import Spec

  datatype PromptSection = PromptSection(name: string, content: string)

  /**
   * A prompt: an ordered list of sections. The Python constructor copies the list it is given; a
   * Dafny sequence is a value, so no prompt can alias its caller's list.
   */
  datatype Prompt = Prompt(sections: seq<PromptSection>)

  /** `section(name, content)`. */
  function Section(name: string, content: string): (s: PromptSection)
    ensures s.name == name && s.content == content
  {
    PromptSection(name, content)
  }

  /** `PromptSection.to_prompt`: the one-section prompt. */
  function ToPrompt(s: PromptSection): (p: Prompt)
    ensures p.sections == [s]
  {
    Prompt([s])
  }

  /** `Prompt + Prompt` (and `Prompt + PromptSection`, whose `sections` is itself alone). */
  function Plus(a: Prompt, b: Prompt): (p: Prompt)
    ensures |p.sections| == |a.sections| + |b.sections|
    ensures p.sections[..|a.sections|] == a.sections && p.sections[|a.sections|..] == b.sections
  {
    Prompt(a.sections + b.sections)
  }

  /** `PromptSection + PromptSection`: a two-section prompt. */
  function SectionPlus(a: PromptSection, b: PromptSection): (p: Prompt)
    ensures p.sections == [a, b]
  {
    Prompt([a, b])
  }

  // ----- Placeholders -----

  /**
   * `re.findall(r'\{([^\}]+)\}', s)`: scanning left to right, a `{` followed by one or more
   * characters other than `}` and then a `}` yields the text in between; the scan resumes after the `}`.
   */
  function Placeholders(s: string): (r: seq<string>)
    decreases |s|
  {
    if s == [] then []
    else if s[0] == '{' then
      match IndexOf(s[1..], "}")
      case Some(k) =>
        if k > 0 then [s[1..k + 1]] + Placeholders(s[k + 2..]) else Placeholders(s[1..])
      case None => Placeholders(s[1..])
    else Placeholders(s[1..])
  }

  /** Every placeholder found is non-empty, has no `}`, and occurs braced in the text. */
  lemma {:induction false} PlaceholdersWellFormed(s: string, i: nat)
    requires i < |Placeholders(s)|
    ensures Placeholders(s)[i] != [] && !Contains(Placeholders(s)[i], "}")
    ensures Contains(s, "{" + Placeholders(s)[i] + "}")
    decreases |s|
  {
    var t := s[1..];
    if s[0] == '{' && IndexOf(t, "}").Some? && IndexOf(t, "}").value > 0 {
      var k := IndexOf(t, "}").value;
      var name := s[1..k + 1];
      assert Placeholders(s) == [name] + Placeholders(s[k + 2..]);
      if i == 0 {
        assert t[..k] == name;
        PrefixBeforeFirstHasNoOccurrence(t, "}", k);
        assert s[0..k + 2] == "{" + name + "}";
        assert OccursAt(s, "{" + name + "}", 0);
      } else {
        assert Placeholders(s)[i] == Placeholders(s[k + 2..])[i - 1];
        PlaceholdersWellFormed(s[k + 2..], i - 1);
        ContainsInSuffix(s, k + 2, "{" + Placeholders(s)[i] + "}");
      }
    } else {
      PlaceholdersWellFormed(t, i);
      ContainsInSuffix(s, 1, "{" + Placeholders(s)[i] + "}");
    }
  }

  lemma ContainsInSuffix(s: string, n: nat, p: string)
    requires n <= |s| && Contains(s[n..], p)
    ensures Contains(s, p)
  {
    var j :| 0 <= j <= |s[n..]| && OccursAt(s[n..], p, j);
    OccursInContext(s[..n], s[n..], [], p, j);
    assert s[..n] + s[n..] + [] == s;
  }

  /** Text without `{` has no placeholders. */
  lemma {:induction false} NoBraceNoPlaceholders(s: string)
    requires '{' !in s
    ensures Placeholders(s) == []
    decreases |s|
  {
    if s != [] {
      NoBraceNoPlaceholders(s[1..]);
    }
  }

  /** A braced name followed by more text contributes that name first. */
  lemma BracedName(name: string, rest: string)
    requires name != [] && '}' !in name
    ensures Placeholders("{" + name + "}" + rest) == [name] + Placeholders(rest)
  {
    var s := "{" + name + "}" + rest;
    var t := s[1..];
    assert t == name + ("}" + rest);
    assert OccursAt(t, "}", |name|);
    forall j | 0 <= j < |name| ensures !OccursAt(t, "}", j) {
      assert t[j] == name[j];
      assert t[j..j + 1] == [t[j]];
    }
    IndexOfFirst(t, "}", |name|);
    assert s[1..|name| + 1] == name;
    assert s[|name| + 2..] == rest;
  }

  /** The first occurrence, characterised by its position. */
  lemma IndexOfFirst(s: string, p: string, k: nat)
    requires OccursAt(s, p, k) && forall j :: 0 <= j < k ==> !OccursAt(s, p, j)
    ensures IndexOf(s, p) == Some(k)
  {
    assert Contains(s, p);
  }

  /** Plain text without braces, put in front, changes nothing. */
  lemma {:induction false} PlainPrefix(a: string, rest: string)
    requires '{' !in a
    ensures Placeholders(a + rest) == Placeholders(rest)
    decreases |a|
  {
    if a != [] {
      assert (a + rest)[0] == a[0];
      assert (a + rest)[1..] == a[1..] + rest;
      PlainPrefix(a[1..], rest);
    } else {
      assert a + rest == rest;
    }
  }

  /** `PromptSection.variables`. */
  function SectionVariables(s: PromptSection): seq<string>
  {
    Placeholders(s.content)
  }

  /** `Prompt.variables`: each section's placeholders, sections in order. */
  function VariablesOf(sections: seq<PromptSection>): seq<string>
  {
    if sections == [] then []
    else VariablesOf(sections[..|sections| - 1]) + SectionVariables(sections[|sections| - 1])
  }

  /** The loop in `variables`. */
  method Variables(p: Prompt) returns (r: seq<string>)
    ensures r == VariablesOf(p.sections)
  {
    r := [];
    var i := 0;
    while i < |p.sections|
      invariant 0 <= i <= |p.sections|
      invariant r == VariablesOf(p.sections[..i])
    {
      assert p.sections[..i + 1][..i] == p.sections[..i];
      r := r + SectionVariables(p.sections[i]);
      i := i + 1;
    }
    assert p.sections[..i] == p.sections;
  }

  /** The variables of a sum are the left variables followed by the right ones. */
  lemma {:induction false} VariablesOfPlus(a: Prompt, b: Prompt)
    ensures VariablesOf(Plus(a, b).sections) == VariablesOf(a.sections) + VariablesOf(b.sections)
    decreases |b.sections|
  {
    var s := a.sections + b.sections;
    if b.sections == [] {
      assert s == a.sections;
    } else {
      var front := b.sections[..|b.sections| - 1];
      var last := b.sections[|b.sections| - 1];
      assert s[..|s| - 1] == a.sections + front;
      assert s[|s| - 1] == last;
      calc {
        VariablesOf(s);
        VariablesOf(a.sections + front) + SectionVariables(last);
        { VariablesOfPlus(a, Prompt(front)); }
        VariablesOf(a.sections) + VariablesOf(front) + SectionVariables(last);
        VariablesOf(a.sections) + VariablesOf(b.sections);
      }
    }
  }

  // ----- Rendering -----

  /** The contents of the sections whose name is not disabled, in order. */
  function EnabledContents(sections: seq<PromptSection>, disabled: seq<string>): seq<string>
  {
    if sections == [] then []
    else
      var last := sections[|sections| - 1];
      EnabledContents(sections[..|sections| - 1], disabled) + if last.name in disabled then [] else [last.content]
  }

  /** `to_text(prompts_disabled)`. */
  function ToText(p: Prompt, disabled: seq<string>): string
  {
    Join("\n", EnabledContents(p.sections, disabled))
  }

  /**
   * Rendering section by section: a disabled section adds nothing; an enabled one adds its
   * content, on a line of its own after whatever was rendered before it.
   */
  lemma ToTextAppend(p: Prompt, s: PromptSection, disabled: seq<string>)
    ensures s.name in disabled ==> ToText(Prompt(p.sections + [s]), disabled) == ToText(p, disabled)
    ensures s.name !in disabled ==>
              ToText(Prompt(p.sections + [s]), disabled)
              == if EnabledContents(p.sections, disabled) == [] then s.content else ToText(p, disabled) + "\n" + s.content
  {
    var ss := p.sections + [s];
    assert ss[..|ss| - 1] == p.sections;
    assert EnabledContents(ss, disabled) == EnabledContents(p.sections, disabled) + if s.name in disabled then [] else [s.content];
    if s.name in disabled {
      assert EnabledContents(ss, disabled) == EnabledContents(p.sections, disabled);
    } else if EnabledContents(p.sections, disabled) != [] {
      JoinAppend("\n", EnabledContents(p.sections, disabled), [s.content]);
    }
  }

  /** Section `i` carries `c` and is not disabled. */
  predicate RendersAt(sections: seq<PromptSection>, disabled: seq<string>, c: string, i: int)
  {
    0 <= i < |sections| && sections[i].content == c && sections[i].name !in disabled
  }

  /** A content is rendered iff some section carrying it is not disabled. */
  lemma {:induction false} EnabledContentsExactly(sections: seq<PromptSection>, disabled: seq<string>, c: string)
    ensures c in EnabledContents(sections, disabled) <==> exists i :: RendersAt(sections, disabled, c, i)
  {
    if sections != [] {
      var front := sections[..|sections| - 1];
      var last := sections[|sections| - 1];
      var tail := if last.name in disabled then [] else [last.content];
      assert EnabledContents(sections, disabled) == EnabledContents(front, disabled) + tail;
      EnabledContentsExactly(front, disabled, c);
      if c in EnabledContents(front, disabled) {
        var i :| RendersAt(front, disabled, c, i);
        assert RendersAt(sections, disabled, c, i);
      } else if c in tail {
        assert RendersAt(sections, disabled, c, |sections| - 1);
      }
      if i :| RendersAt(sections, disabled, c, i) {
        if i < |front| {
          assert RendersAt(front, disabled, c, i);
        } else {
          assert c in tail;
        }
      }
    }
  }

  /** Nothing disabled: every section is rendered, in order. */
  lemma {:induction false} NothingDisabled(sections: seq<PromptSection>)
    ensures |EnabledContents(sections, [])| == |sections|
    ensures forall i :: 0 <= i < |sections| ==> EnabledContents(sections, [])[i] == sections[i].content
  {
    if sections != [] {
      NothingDisabled(sections[..|sections| - 1]);
    }
  }

  /** Disabling distributes over a sum of prompts. */
  lemma {:induction false} EnabledContentsPlus(a: seq<PromptSection>, b: seq<PromptSection>, disabled: seq<string>)
    ensures EnabledContents(a + b, disabled) == EnabledContents(a, disabled) + EnabledContents(b, disabled)
    decreases |b|
  {
    if b == [] {
      assert a + b == a;
    } else {
      var s := a + b;
      assert s[..|s| - 1] == a + b[..|b| - 1];
      assert s[|s| - 1] == b[|b| - 1];
      EnabledContentsPlus(a, b[..|b| - 1], disabled);
    }
  }

  // ----- Fixed prompts -----

  /** One option line of `menu_prompt`. */
  function OptionLine(i: nat, item: Spec.Item): string
  {
    IntToString(i) + ": " + item.title
  }

  /** The option lines of `menu_prompt`, numbered from `from`. */
  function OptionLines(items: seq<Spec.Item>, from: nat): (r: seq<string>)
    decreases |items|
  {
    if items == [] then [] else [OptionLine(from, items[0])] + OptionLines(items[1..], from + 1)
  }

  /** Item `i` gets line number `from + i`. */
  lemma {:induction false} OptionLinesNumbered(items: seq<Spec.Item>, from: nat, i: nat)
    requires i < |items|
    ensures |OptionLines(items, from)| == |items|
    ensures OptionLines(items, from)[i] == OptionLine(from + i, items[i])
    decreases |items|
  {
    if i > 0 {
      OptionLinesNumbered(items[1..], from + 1, i - 1);
      assert items[1..][i - 1] == items[i];
    } else if |items| > 1 {
      OptionLinesNumbered(items[1..], from + 1, 0);
    }
  }

  function MenuFallback(fallback: Option<string>): (r: string)
    ensures fallback.None? <==> r == ""
  {
    match fallback
    case None => ""
    case Some(f) => "\nFallback:\n" + "For any question not related to these aspects you have to answer:" + f
  }

  function MenuLanguages(languages: string): string
  {
    "\nYou are only able to answer  the user in the following languages: " + languages + "\n"
    + "\nIf the user uses a language different from " + languages + ", ask politely to switch to " + languages
  }

  const OptionsHeader := "\nYou are able to assist only in these tasks:\n"

  /** What precedes the option lines. */
  function MenuHead(presentation: string, languages: string): string
  {
    presentation + "\n" + MenuBody(languages)
  }

  /** The language rules and the options header. */
  function MenuBody(languages: string): string
  {
    MenuLanguages(languages) + "\n" + OptionsHeader
  }

  /** What follows the option lines. */
  function MenuTail(handling: string, fallback: Option<string>): string
  {
    "\n" + handling + "\n" + MenuFallback(fallback)
  }

  /**
   * `menu_prompt`, with the item handling text already computed: the presentation, the language
   * rules, the numbered options, the handling text and the fallback block, separated by newlines.
   */
  function MenuPrompt(presentation: string, items: seq<Spec.Item>, fallback: Option<string>, handling: string,
                      languages: string): string
  {
    MenuHead(presentation, languages) + Join("\n", OptionLines(items, 0)) + MenuTail(handling, fallback)
  }

  lemma MenuPromptStart(presentation: string, items: seq<Spec.Item>, fallback: Option<string>, handling: string,
                        languages: string)
    ensures StartsWith(MenuPrompt(presentation, items, fallback, handling, languages), presentation + "\n")
  {
    StartsWithFront(presentation + "\n", MenuBody(languages), Join("\n", OptionLines(items, 0)),
                    MenuTail(handling, fallback));
  }

  lemma StartsWithFront(p: string, b: string, j: string, t: string)
    ensures StartsWith(p + b + j + t, p)
  {
    assert p + b + j + t == p + (b + j + t);
  }

  /** The fallback block closes the prompt, and is empty exactly when there is no fallback. */
  lemma MenuPromptEnd(presentation: string, items: seq<Spec.Item>, fallback: Option<string>, handling: string,
                      languages: string)
    ensures EndsWith(MenuPrompt(presentation, items, fallback, handling, languages), "\n" + handling + "\n" + MenuFallback(fallback))
  {
    var r := MenuPrompt(presentation, items, fallback, handling, languages);
    var tail := MenuTail(handling, fallback);
    assert r[|r| - |tail|..] == tail;
  }

  /** Item `i` is listed as `i: title` (`OptionLine(i, items[i])`), counting from 0. */
  lemma MenuPromptOption(presentation: string, items: seq<Spec.Item>, fallback: Option<string>, handling: string,
                         languages: string, i: nat)
    requires i < |items|
    ensures Contains(MenuPrompt(presentation, items, fallback, handling, languages), OptionLine(i, items[i]))
  {
    OptionListed(MenuHead(presentation, languages), MenuTail(handling, fallback), items, i);
  }

  lemma OptionListed(head: string, tail: string, items: seq<Spec.Item>, i: nat)
    requires i < |items|
    ensures Contains(head + Join("\n", OptionLines(items, 0)) + tail, OptionLine(i, items[i]))
  {
    OptionLinesNumbered(items, 0, i);
    JoinInContext(head, "\n", OptionLines(items, 0), tail, i);
  }

  function QABlock(q: Spec.QuestionAnswer): string
  {
    "- Question: " + q.question + "\n  Answer: " + q.answer + "\n"
  }

  /** One `Question/Answer` block per pair, in order. */
  function QABlocks(qs: seq<Spec.QuestionAnswer>): (r: seq<string>)
    ensures |r| == |qs|
    ensures forall i :: 0 <= i < |qs| ==> r[i] == QABlock(qs[i])
  {
    if qs == [] then [] else [QABlock(qs[0])] + QABlocks(qs[1..])
  }

  const QAHeader := "The following is the list of question/answer pairs that you are allowed to answer:\n"
  const QAFooter := "\nOnly provide an answer if the question is in the list.\n"

  /** `question_answering_prompt`. */
  function QuestionAnsweringPrompt(qs: seq<Spec.QuestionAnswer>): string
  {
    Join("\n", [QAHeader] + QABlocks(qs) + [QAFooter]) + "\n"
  }

  /** The prompt opens with the header and ends with the footer. */
  lemma QuestionAnsweringPromptFrame(qs: seq<Spec.QuestionAnswer>)
    ensures StartsWith(QuestionAnsweringPrompt(qs), QAHeader)
    ensures EndsWith(QuestionAnsweringPrompt(qs), QAFooter + "\n")
  {
    JoinFramed("\n", QAHeader, QABlocks(qs), QAFooter, "\n");
  }

  /** The prompt holds the block of each pair. */
  lemma QuestionAnsweringPromptBlock(qs: seq<Spec.QuestionAnswer>, i: nat)
    requires i < |qs|
    ensures Contains(QuestionAnsweringPrompt(qs), QABlock(qs[i]))
  {
    var parts := [QAHeader] + QABlocks(qs) + [QAFooter];
    assert parts[i + 1] == QABlock(qs[i]);
    JoinInContext([], "\n", parts, "\n", i + 1);
    assert [] + Join("\n", parts) + "\n" == QuestionAnsweringPrompt(qs);
  }

  /** A join starts with its first part and ends with its last. */
  lemma JoinFramed(sep: string, first: string, mid: seq<string>, last: string, tail: string)
    ensures StartsWith(Join(sep, [first] + mid + [last]) + tail, first)
    ensures EndsWith(Join(sep, [first] + mid + [last]) + tail, last + tail)
  {
    var parts := [first] + mid + [last];
    var joined := Join(sep, parts);
    JoinStartsWithFirst(sep, parts);
    JoinEndsWithLast(sep, parts);
    var r := joined + tail;
    assert r[..|first|] == joined[..|first|];
    assert r[|r| - |last + tail|..] == joined[|joined| - |last|..] + tail;
  }

  lemma {:induction false} JoinStartsWithFirst(sep: string, parts: seq<string>)
    requires |parts| > 0
    ensures StartsWith(Join(sep, parts), parts[0])
  {
  }

  lemma {:induction false} JoinEndsWithLast(sep: string, parts: seq<string>)
    requires |parts| > 0
    ensures EndsWith(Join(sep, parts), parts[|parts| - 1])
    decreases |parts|
  {
    if |parts| > 1 {
      JoinEndsWithLast(sep, parts[1..]);
      var rest := Join(sep, parts[1..]);
      var whole := parts[0] + sep + rest;
      assert whole[|whole| - |rest|..] == rest;
      assert whole[|whole| - |parts[|parts| - 1]|..] == rest[|rest| - |parts[|parts| - 1]|..];
    }
  }

  /** The text of `FORMAT_INSTRUCTIONS` around its `{tool_names}` and `{ai_prefix}` slots. */
  const FormatInstructionsHead := "You have tools to help you achieve some of your tasks. To use a tool, please use the following format:\n```\nThought: Do I need to use a tool? Yes\nAction: the action to take, should be one of ["
  const FormatInstructionsMiddle := "]\nAction Input: the input to the action\nObservation: the result of the action\n```\n\nWhen you have a response to say to the Human, or if you do not need to use a tool, you MUST use the format:\n\n```\nThought: Do I need to use a tool? No\n"
  const InstructionsTail := ": [your response here]\n```"

  /** The text of `NO_TOOL_INSTRUCTIONS` before its `{ai_prefix}` slot. */
  const NoToolInstructionsHead := "To respond to the Human you MUST use the format:\n\n```\nThought: Do I need to use a tool? No\n"

  /** `FORMAT_INSTRUCTIONS.format(tool_names=..., ai_prefix=...)`. */
  function FormatInstructionsFor(toolNames: string, aiPrefix: string): string
  {
    FormatInstructionsHead + toolNames + FormatInstructionsMiddle + aiPrefix + InstructionsTail
  }

  /** `NO_TOOL_INSTRUCTIONS.format(ai_prefix=...)`. */
  function NoToolInstructionsFor(aiPrefix: string): string
  {
    NoToolInstructionsHead + aiPrefix + InstructionsTail
  }
}
