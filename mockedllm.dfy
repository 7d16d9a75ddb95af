// The deterministic language model of the test suite: canned replies in the agent's
// `Thought:` / `Action:` text grammar, looked up by the text after a registered prefix.
module MockedLlm {
  import opened Wrappers
  import opened Strings
  import Runtime

  /** A canned reply: a final answer, or the activation of a module with a query. */
  datatype Answer = AIAnswer(message: string) | ModuleActivation(moduleName: string, query: string)

  const AnswerHead := "Thought: Do I need to use a tool? No\nAI: "
  const ActivationHead := "Thought: Do I need to use a tool? Yes\nAction: "
  const InputHead := "\nAction Input: "

  /** `to_message`: the reply's text. */
  function ToMessage(a: Answer): string
  {
    match a
    case AIAnswer(message) => AnswerHead + message
    case ModuleActivation(moduleName, query) => ActivationHead + moduleName + InputHead + query
  }

  /** Reads a reply back from its text: the two heads tell the kinds apart, and the module name ends at the first newline. */
  function ReadMessage(text: string): Option<Answer>
  {
    if StartsWith(text, AnswerHead) then Some(AIAnswer(text[|AnswerHead|..]))
    else if StartsWith(text, ActivationHead) then
      var rest := text[|ActivationHead|..];
      match IndexOf(rest, "\n")
      case None => None
      case Some(j) =>
        if StartsWith(rest[j..], InputHead) then Some(ModuleActivation(rest[..j], rest[j + |InputHead|..])) else None
    else None
  }

  lemma NoNewlineIndex(name: string, tail: string)
    requires forall k :: 0 <= k < |name| ==> name[k] != '\n'
    requires StartsWith(tail, "\n")
    ensures IndexOf(name + tail, "\n") == Some(|name|)
  {
    var s := name + tail;
    assert OccursAt(s, "\n", |name|) by {
      assert s[|name|..|name| + 1] == tail[..1];
    }
    forall k | 0 <= k < |name|
      ensures !OccursAt(s, "\n", k)
    {
      assert s[k..k + 1] == [name[k]];
    }
  }

  /** A reply is read back from its text, as long as a module name holds no newline. */
  lemma ReadToMessage(a: Answer)
    requires a.ModuleActivation? ==> forall k :: 0 <= k < |a.moduleName| ==> a.moduleName[k] != '\n'
    ensures ReadMessage(ToMessage(a)) == Some(a)
  {
    var text := ToMessage(a);
    match a
    case AIAnswer(message) =>
      assert text[..|AnswerHead|] == AnswerHead;
      assert text[|AnswerHead|..] == message;
    case ModuleActivation(moduleName, query) =>
      assert text[..|AnswerHead|] != AnswerHead by {
        assert text[34] == 'Y' && AnswerHead[34] == 'N';
      }
      assert text == ActivationHead + (moduleName + InputHead + query);
      var rest := text[|ActivationHead|..];
      assert rest == moduleName + (InputHead + query);
      NoNewlineIndex(moduleName, InputHead + query);
      assert rest[|moduleName|..] == InputHead + query;
      assert rest[|moduleName| + |InputHead|..] == query;
  }

  /** Different replies have different texts, as long as module names hold no newline. */
  lemma ToMessageInjective(a: Answer, b: Answer)
    requires a.ModuleActivation? ==> forall k :: 0 <= k < |a.moduleName| ==> a.moduleName[k] != '\n'
    requires b.ModuleActivation? ==> forall k :: 0 <= k < |b.moduleName| ==> b.moduleName[k] != '\n'
    ensures ToMessage(a) == ToMessage(b) ==> a == b
  {
    ReadToMessage(a);
    ReadToMessage(b);
  }

  /** A canned final answer holds `AI:`, so the agent's output parser hands it to the conversational parser. */
  lemma AnswerGoesToConversationParser(o: Runtime.Oracles, message: string)
    ensures Runtime.Parse(o, ToMessage(AIAnswer(message))) == o.convoParse(ToMessage(AIAnswer(message)))
  {
    var text := ToMessage(AIAnswer(message));
    assert text[37..40] == "AI:";
    assert OccursAt(text, Runtime.AIPrefix + ":", 37);
  }

  // ----- Looking the reply up -----

  /** Some registered prefix starts the line. */
  predicate Matches(line: string, prefixes: set<string>)
  {
    exists p :: p in prefixes && StartsWith(line, p)
  }

  /** The last line that a registered prefix starts. */
  function LastMatch(lines: seq<string>, prefixes: set<string>): (r: Option<nat>)
    ensures r.Some? ==> r.value < |lines| && Matches(lines[r.value], prefixes)
                        && forall j :: r.value < j < |lines| ==> !Matches(lines[j], prefixes)
    ensures r.None? ==> forall j :: 0 <= j < |lines| ==> !Matches(lines[j], prefixes)
    decreases |lines|
  {
    if lines == [] then None
    else if Matches(lines[|lines| - 1], prefixes) then Some(|lines| - 1)
    else LastMatch(lines[..|lines| - 1], prefixes)
  }

  /** `ps` lists the set, each element once. */
  predicate Enumerates(ps: seq<string>, s: set<string>)
  {
    multiset(ps) == multiset(s)
  }

  function NoPrefixMessage(full: string, ps: seq<string>): string
  {
    "Could not find configured prefixes in: `" + full + "`. Prefixes are:\n" + Join("\n", ps)
  }

  /** The exception for a text without a registered prefix; it lists the prefixes in the set's order. */
  ghost predicate NoPrefixRaised(full: string, prefixes: set<string>, r: Result<string>)
  {
    exists ps :: Enumerates(ps, prefixes) && r == Err(Exception(NoPrefixMessage(full, ps)))
  }

  /** The reply registered for the stripped text, or the exception for an unknown one. */
  function Lookup(io: map<string, Answer>, key: string): (r: Result<string>)
  {
    if key in io then Ok(ToMessage(io[key]))
    else Err(Exception("Input `" + key + "` not found in the answers of the test mock"))
  }

  /**
   * The replies `__call__` can give: the last line that a registered prefix starts decides, with
   * whichever of the prefixes starting it the set's order puts last; an empty prefix counts as none.
   */
  ghost predicate Possible(prefixes: set<string>, io: map<string, Answer>, messages: seq<string>, r: Result<string>)
  {
    var full := Concat(messages);
    var lines := Split(full, "\n");
    match LastMatch(lines, prefixes)
    case None => NoPrefixRaised(full, prefixes, r)
    case Some(i) =>
      exists p :: p in prefixes && StartsWith(lines[i], p)
                  && (if p == "" then NoPrefixRaised(full, prefixes, r) else r == Lookup(io, Strip(lines[i][|p|..])))
  }

  /** When one non-empty prefix alone starts the deciding line, the reply is determined. */
  lemma PossibleUnique(prefixes: set<string>, io: map<string, Answer>, messages: seq<string>, r: Result<string>, p: string)
    requires var lines := Split(Concat(messages), "\n");
             LastMatch(lines, prefixes).Some?
             && var line := lines[LastMatch(lines, prefixes).value];
                p in prefixes && p != "" && StartsWith(line, p) && forall q :: q in prefixes && StartsWith(line, q) ==> q == p
    requires Possible(prefixes, io, messages, r)
    ensures var lines := Split(Concat(messages), "\n");
            r == Lookup(io, Strip(lines[LastMatch(lines, prefixes).value][|p|..]))
  {
  }

  /** A text that no registered prefix starts a line of raises. */
  lemma PossibleNoPrefix(prefixes: set<string>, io: map<string, Answer>, messages: seq<string>, r: Result<string>)
    requires forall line :: line in Split(Concat(messages), "\n") ==> !Matches(line, prefixes)
    requires Possible(prefixes, io, messages, r)
    ensures r.Err? && r.error.Exception?
  {
    var lines := Split(Concat(messages), "\n");
    forall j | 0 <= j < |lines|
      ensures !Matches(lines[j], prefixes)
    {
      assert lines[j] in lines;
    }
  }

  lemma MatchesAdd(line: string, s: set<string>, p: string)
    ensures Matches(line, s + {p}) <==> Matches(line, s) || StartsWith(line, p)
  {
    if Matches(line, s + {p}) && !StartsWith(line, p) {
      var q :| q in s + {p} && StartsWith(line, q);
      assert q in s;
    }
  }

  /** What the scan has found in the lines so far: the last matching line and the prefix taken on it. */
  ghost predicate Found(lines: seq<string>, prefixes: set<string>, foundPrefix: Option<string>, foundText: string)
  {
    match LastMatch(lines, prefixes)
    case None => foundPrefix.None?
    case Some(i) =>
      foundPrefix.Some? && foundPrefix.value in prefixes && StartsWith(lines[i], foundPrefix.value)
      && foundText == Strip(lines[i][|foundPrefix.value|..])
  }

  /** The mocked model: the registered prefixes and the reply for each input. */
  class MockedLLM {
    var prefixes: set<string>
    var inputOutput: map<string, Answer>

    constructor ()
      ensures prefixes == {} && inputOutput == map[]
    {
      prefixes := {};
      inputOutput := map[];
    }

    /** `ai_answer`: registers the prefix, and the final answer for the input. */
    method RegisterAnswer(input: string, output: string, prefix: string)
      modifies this
      ensures prefixes == old(prefixes) + {prefix}
      ensures inputOutput == old(inputOutput)[input := AIAnswer(output)]
    {
      prefixes := prefixes + {prefix};
      inputOutput := inputOutput[input := AIAnswer(output)];
    }

    /** `module_activation`: registers the activation for the input, and no prefix. */
    method RegisterActivation(input: string, moduleName: string, query: string)
      modifies this
      ensures prefixes == old(prefixes)
      ensures inputOutput == old(inputOutput)[input := ModuleActivation(moduleName, query)]
    {
      inputOutput := inputOutput[input := ModuleActivation(moduleName, query)];
    }

    /** The registered prefixes, in the order the set gives them. */
    method ListPrefixes() returns (ps: seq<string>)
      ensures Enumerates(ps, prefixes)
    {
      ps := [];
      var rest := prefixes;
      while rest != {}
        invariant rest <= prefixes && multiset(ps) + multiset(rest) == multiset(prefixes)
        decreases rest
      {
        var p :| p in rest;
        assert multiset(rest) == multiset(rest - {p}) + multiset{p};
        ps := ps + [p];
        rest := rest - {p};
      }
    }

    /** `__call__`: scans the joined messages line by line and replies for the text after the last registered prefix. */
    method Call(messages: seq<string>) returns (r: Result<string>)
      ensures Possible(prefixes, inputOutput, messages, r)
    {
      var full := Concat(messages);
      var lines := Split(full, "\n");
      var foundPrefix: Option<string> := None;
      var foundText := "";
      var i := 0;
      while i < |lines|
        invariant 0 <= i <= |lines| && Found(lines[..i], prefixes, foundPrefix, foundText)
      {
        var line := lines[i];
        ghost var prefix0, text0 := foundPrefix, foundText;
        var rest := prefixes;
        while rest != {}
          invariant rest <= prefixes
          invariant Matches(line, prefixes - rest) ==>
                      foundPrefix.Some? && foundPrefix.value in prefixes - rest && StartsWith(line, foundPrefix.value)
                      && foundText == Strip(line[|foundPrefix.value|..])
          invariant !Matches(line, prefixes - rest) ==> foundPrefix == prefix0 && foundText == text0
          decreases rest
        {
          var p :| p in rest;
          MatchesAdd(line, prefixes - rest, p);
          assert prefixes - (rest - {p}) == (prefixes - rest) + {p};
          if StartsWith(line, p) {
            foundPrefix := Some(p);
            foundText := Strip(line[|p|..]);
          }
          rest := rest - {p};
        }
        assert prefixes - rest == prefixes;
        assert lines[..i + 1][..i] == lines[..i];
        i := i + 1;
      }
      assert lines[..i] == lines;
      if foundPrefix.None? || foundPrefix.value == "" {
        var ps := ListPrefixes();
        return Err(Exception(NoPrefixMessage(full, ps)));
      }
      r := Lookup(inputOutput, foundText);
    }
  }
}
