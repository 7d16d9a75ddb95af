# taskyto chatbot engine, modelled in Dafny

taskyto describes a task-oriented chatbot as a set of YAML modules. A menu offers items. Data
gathering asks the user for typed properties. Question answering answers from a fixed list of
questions. A sequence runs several modules one after the other. An action evaluates code on
collected data. An open-ended conversation offers tools. The engine turns these modules into a
conversation that an LLM drives. This project models that engine and proves properties of the
model.

The parts modelled, one Dafny module each:

- **Specification model** (`Spec`). Modules, items, data properties and actions. Also the
  rephrase predicates, the parsing of a data model, sequence naming, name resolution and the
  module graph.
- **Generator** (`Generator`). Each specification module becomes a runtime module with its
  presentation, task and activation prompts and its tools. Results are memoised by name.
- **Prompts, typed values and templates** (`Prompts`, `Common`). Prompt sections that can be
  switched off one by one, `{name}` placeholders, `get_property_value` and `replace_values`.
- **Runtime** (`Runtime`, `Memories`, `Events`). The execution state of one conversation: the
  event stack, memory buckets created on first use, and the listeners. Also the memory merge
  rule, tool lookup, the tools prompt, the request `run` builds, the output parser and the
  events.
- **State-machine compiler** (`Transformer`, `StateMachines`). The module graph becomes a
  machine with one state per module, its self-loops, menu and open-ended wiring, and a
  composite state per sequence. Transition lookup takes the first match, and a composite tries
  its inner machine first.
- **Actions and engine** (`Actions`, `Engine`). Say, run module, apply LLM, run tool, update
  memory, push event and composite actions. The run loop pops the newest event, moves to the
  target and runs the action. The interaction recorder listens to it.
- **Tasks** (`Tasks`, `LegacyTasks`). What data-gathering, question-answering, sequence and
  action modules do when they run as tools, in the current and in the first-generation runtime.
- **Smaller pieces**:
  - the configuration lookups (`Configuration`, `TestConfig`);
  - the recorder's conversion to test records (`Recording`);
  - the parse-error text extractor (`Utils`);
  - the command line's test discovery (`Cli`).
- **Mutator** (`Mutator`, `Serialise`). The eleven mutation operators. Each mutates a module in
  place, persists a numbered mutant up to a maximum, and restores the module. Also the
  `to_dict` serialisers that the persisted files are written with.
- **Mocked LLM** (`MockedLlm`). The deterministic LLM of the test suite and its
  `Thought:`/`Action:` text grammar.

Supporting modules:

- `Wrappers`: `Option`, and `Result` with the Python exception kinds.
- `Strings`: Python's `str` operations on `seq<char>`.
- `Values`: JSON values and Python's `str()` of them.
- `Dicts`: insertion-ordered dictionaries as sequences of entries.
- `Seqs`: sequence facts.

Foreign calls are passed in as function-typed fields of `Runtime.Oracles`:

- the chat LLM and the question-answering LLM;
- langchain's conversational output parser;
- the code evaluator and the rephraser;
- `json.loads` and the type formatters.

Python's object identity becomes explicit numeric vertex ids together with a registry. Python
exceptions become `Err` values that name the exception kind.

Operations that update objects in place are classes with `modifies` clauses:

- `StateMachines.StateMachine`, `Runtime.ExecutionState` and `Memories.ConversationMemory`;
- `Generator.ModuleGenerator` and `Transformer.StateMachineTransformer`;
- `Engine.CustomPromptEngine` and `Recording.RecordedInteraction`;
- `Mutator.MutationOperator` and `MockedLlm.MockedLLM`.

The action methods (`Actions.Execute` and one method per action kind) are proved against
`Actions.Effect`, a function of the old state that gives the result and every field the action
can change. The engine's `Step` and `ExecuteTransition` are proved against
`Engine.CustomPromptEngine.Taken`, which is stated with `Effect`. The memory, runtime,
state-machine, recorder, mocked-LLM and mutator methods give each field they change in terms of
the old one. The compiler and the generator state what they build and that what was built before
is kept. The engine's run loop states what it records. The properties are lemmas about these
functions.

## Model

| member | source | states |
|---|---|---|
| `Utils.GetUnparsedOutput` | src/utils.py:42-46 | without the parse-error marker the message comes back unchanged; with it, the result is the text between the first marker and the next one (or the end), with backticks stripped from both ends, and it never contains the marker |
| `Utils.SplitCount` | src/utils.py:43-44 | `split` yields more than one piece exactly when the separator occurs in the text |
| `Utils.SplitSecondPiece` | src/utils.py:43-45 | the second piece of `split` is the text after the first separator up to the next separator or the end |
| `Utils.LastPieceFollowsSeparator` | src/utils.py:43-45 | around a present separator, the last piece of `split` follows a separator at the end of the text and itself holds no separator |
| `Utils.JoinLast` | src/utils.py:43-45 | the `join` of two or more parts ends with the separator followed by the last part (the inverse view of `split`) |
| `Utils.StrippedKeepsAbsence` | src/utils.py:45 | stripping a character from both ends cannot create an occurrence of a pattern |
| `Recording.RecordedInteraction.Append` | src/recording.py:14-15 | `append` adds exactly one item, with the given type and message, at the end of the interactions |
| `Recording.RecordOf` | src/recording.py:24-30 | a `user` item becomes `{user: message}`, a `chatbot` item `{chatbot: [message]}`, any other type is a `ValueError` |
| `Recording.RecordsOfShape` | src/recording.py:22-30 | the dump succeeds exactly when every item has a known type, and then it keeps the items' order and number, one record per item |
| `Recording.RecordsErrorExtends` | src/recording.py:24-30 | the first unknown item decides the error: an error on a prefix is the error of the whole dump |
| `Recording.DumpTestRecording` | src/recording.py:18-31 | no file gives nothing; otherwise the result is the document `{interaction: [...]}` of the records, or the dump's error |
| `Cli.ConfigurationIsNotTest` | taskyto/main.py:88-92 | a file ending in `configuration.yaml` ends in `.yaml` but is never a test file |
| `Cli.TestFileBySuffix` | taskyto/main.py:88-92 | configurations are recognised by suffix: `reconfiguration.yaml` is no test, `configuration-tests.yaml` is, and a `.yml` file is not |
| `Cli.InitialGreeting` | taskyto/main.py:27-30 | the configured greeting when a `begin` block exists, otherwise `Hello` |
| `Cli.BeginningAndGreeting` | taskyto/main.py:26-35 | without a `begin` block the user does not begin and the greeting is `Hello`; when the user begins, the configured greeting is the one in force |
| `Cli.Basename` | taskyto/main.py:101 | the base name is a suffix of the path holding no `/`, and when shorter than the path it follows a `/` |
| `Cli.JoinPath` | taskyto/main.py:103 | an absolute second component replaces the first; otherwise the joined path starts with the first component and ends with the second |
| `Cli.CollectTests` | taskyto/main.py:97-103 | the folder walk's collected tests are exactly `DiscoveredTests` of the walk |
| `Cli.CollectFolderTests` | taskyto/main.py:100-103 | one folder's inner loop collects exactly `FolderTests` of its files |
| `Cli.FolderTestsExactly` | taskyto/main.py:100-103 | a path is collected from a folder if and only if the folder is named `tests` or `test` and the path joins the folder with one of its test files |
| `Cli.DiscoveredTestsExactly` | taskyto/main.py:97-103 | a path is discovered if and only if some walked folder named `tests` or `test` holds a test file that it joins to |
| `Common.GetPropertyValue` | src/engine/common/__init__.py:37-71 | a missing or `None` value gives `None`; a string property yields a non-empty string; an integer property yields an `int` (or a `bool`, which Python counts as one); any other type yields text that is not blank |
| `Common.StripIdempotent` | src/engine/common/__init__.py:46 | stripping twice is stripping once |
| `Common.IntPropertyParses` | src/engine/common/__init__.py:54-61 | the decimal text of an integer read under an integer property gives back that integer |
| `Common.StringPropertyStripped` | src/engine/common/__init__.py:44-53 | a string value under a string property gives its stripped text, or `None` when that is empty, and the result is already stripped |
| `Common.GetPropertyValueIdempotent` | src/engine/common/__init__.py:37-71 | coercing an already coerced value under the same property gives it unchanged |
| `Common.ReplaceValues` | src/engine/common/__init__.py:74-79 | the loop over the data computes `ReplaceAll`: for each key in order, `{{k}}` then `{k}` replaced by `str(v)` |
| `Common.ReplaceAllUnchanged` | src/engine/common/__init__.py:74-79 | a response in which no key's `{k}` occurs comes back unchanged |
| `Common.NoBracedNoDoubleBraced` | src/engine/common/__init__.py:77-78 | a text without `{k}` contains no `{{k}}` either, so the first replacement is idle too |
| `Common.FillsBraced` | src/engine/common/__init__.py:74-79 | `replace_values("{k}", {k: v})` is `str(v)` |
| `Common.FillsDoubleBraced` | src/engine/common/__init__.py:74-79 | `replace_values("{{k}}", {k: v})` is `str(v)` when `str(v)` contains no `{k}` of its own |
| `Configuration.DefaultConfigurationModel` | src/engine/common/configuration.py:16-19 | a configuration built from a default LLM has languages `any`, no module entries and no `begin` block |
| `Configuration.ToLlmConfig` | src/engine/common/configuration.py:27-32 | a bare model id becomes a configuration with that id at temperature 0.0; a full configuration is kept |
| `Configuration.GetLlmForModuleOrDefault` | src/engine/common/configuration.py:21-25 | the first module entry with the given name decides the LLM; with no such entry the default LLM applies |
| `Configuration.FirstMatchIsFound` | src/engine/common/configuration.py:22-24 | the scan from any position finds the earliest entry with the name there, and nothing when there is none |
| `Configuration.FirstMatchAt` | src/engine/common/configuration.py:22-24 | an entry with the name preceded by none is what the scan returns |
| `Configuration.NoMatchFrom` | src/engine/common/configuration.py:22-25 | with no entry of that name the scan returns nothing |
| `TestConfig.ConfigurationFrom` | src/testing/test_config_model.py:23-27 | scanning from a position, the earliest test entry named `name` or `name.yaml` gives its match strategy; with none, the default configuration |
| `TestConfig.ConfigurationForTest` | src/testing/test_config_model.py:23-27 | the earliest test entry named `name` or `name.yaml` decides; otherwise the default configuration applies |
| `TestConfig.DefaultTestConfiguration` | src/testing/test_config_model.py:30-31 | the default test configuration has no specific tests and the default match strategy (tolerance 0, no LLM) |
| `Events.Finish` | src/engine/custom/events.py:83-86 | a finish event built from a message has the default empty memory and no extra attributes |
| `Events.ClassTriggersPartition` | src/engine/custom/events.py:54-91 | each event is accepted by the class trigger of its own class and by no other; no class trigger accepts the absence of an event |
| `Events.ActivationTriggerExactly` | src/engine/custom/events.py:26-27 | an activation trigger accepts exactly the activation events of a module with the same name, and those are activation-class events |
| `Events.AttributesOf` | src/engine/custom/events.py:8-9 | the keyword arguments become as many attributes as there are keys |
| `Events.AttributesOfGet` | src/engine/custom/events.py:8-9 | each keyword argument is readable as an attribute holding its value, and no other name is |
| `Events.GetPropertyValue` | src/engine/custom/events.py:11-17 | a missing attribute is a `KeyError`, a `None` attribute fails the assertion, any other value is returned |
| `Events.FinishExtraAttribute` | src/engine/custom/events.py:83-86 | a finish event exposes its extra keyword arguments as attributes, except that `message` and `memory` shadow them |
| `Events.MessagesList` | src/engine/custom/events.py:43-44 | the previous answer's messages are serialised one for one, in order |
| `Events.MemoriesDict` | src/engine/custom/events.py:75 | serialising a memory map keeps exactly its keys, in order |
| `Events.ToDict` | src/engine/custom/events.py:19-89 | `to_dict` puts `type` with the event's class name first and repeats no key; a progress event whose memory is raw text fails on `.dict()` |
| `Events.ToDictKeys` | src/engine/custom/events.py:19-89 | for every other event, `to_dict` succeeds and names after `type` exactly that event class's own fields |
| `Spec.RephraseModesExclusive` | src/spec.py:167-174 | the direct, simple and in-caller rephrase modes exclude each other, and some mode applies exactly when the rephrase is unset, `direct`, `simple`, `in-caller` or `in_caller` |
| `Spec.GetResponseElement` | src/spec.py:181-185 | a plain text response becomes a direct response element with that text; an element response is returned as it is |
| `Spec.GetSequenceModuleAsWritten` | src/spec.py:66-70 | the module built from a sequence item is a sequence module that always allows going back, whatever the item says |
| `Spec.GoBackIgnoredAsWritten` | src/spec.py:61-69 | the item `{goback: false}` still yields a sequence module with `goback` true |
| `Spec.GetSequenceModule` | src/spec.py:66-70 | the sequence module is named `sequence-` followed by the references joined with `-`, carries the item's references, memory scope, title as description and (corrected) its `goback` |
| `Spec.SequenceModuleName` | src/spec.py:68 | a sequence module's name starts with `sequence-`; with one reference it is `sequence-` and that reference |
| `Spec.AsStringList` | src/spec.py:209 | a validated `List[str]` field is a list value with one string per element |
| `Spec.EnumValuesOf` | src/spec.py:214-217 | converting the `values` of an enum keeps one enum value per listed value |
| `Spec.EnumValueShapes` | src/spec.py:214-216 | a plain string becomes an enum value without examples; a one-entry mapping names the value and gives its examples |
| `Spec.ParseTypeSpecification` | src/spec.py:203-220 | without `type` the specification is a `ValueError`; otherwise the property has the given name, is required unless `required` says otherwise, and carries enum values exactly when its type is `enum` (then without examples) |
| `Spec.ParseDataModel` | src/spec.py:190-201 | the nested loop over the `data` list and each entry's pairs computes `DataModelOf` |
| `Spec.DataModelErrorExtends` | src/spec.py:190-201 | an invalid entry stops the parse: an error on a prefix of `data` is the error of the whole parse |
| `Spec.EntryErrorExtends` | src/spec.py:194-199 | within one mapping of `data`, an error on a prefix of its pairs is the mapping's error |
| `Spec.PlainEntryIsRequired` | src/spec.py:198-199 | a plain `name: type` entry appended to `data` adds exactly one required property of that type, at the end |
| `Spec.DataModelConcat` | src/spec.py:190-201 | the parse keeps declaration order: the properties of two lists one after the other are those of the first followed by those of the second |
| `Spec.Index` | src/spec.py:289-292 | every module in the name index is stored under its own name |
| `Spec.IndexHoldsLastDeclared` | src/spec.py:291 | a later module with the same name replaces an earlier one: the index holds, under each name, the last module declared with it |
| `Spec.IndexOnlyDeclared` | src/spec.py:291 | every module in the index is one of the declared modules |
| `Spec.Resolve` | src/spec.py:301-305 | resolving succeeds exactly for indexed names and yields a module of that name; an unknown name is a `KeyError` of that name |
| `Spec.ChatbotModel.constructor` | src/spec.py:285-287 | a loaded chatbot holds its modules and no name index yet |
| `Spec.ChatbotModel.ModulesByName` | src/spec.py:289-292 | the index is built once and cached: the result is the name index of the modules, and an index already built is kept |
| `Spec.ChatbotModel.ResolveModule` | src/spec.py:301-305 | resolving through the cached index gives the same result as `Resolve` on the modules, and leaves the index built |
| `Spec.ReferenceEdges` | src/spec.py:126-130 | a sequence module contributes one edge per reference, in order, each to a declared module |
| `Spec.ItemEdges` | src/spec.py:105-114 | every edge a menu contributes leads to a declared module or to a sequence module named `sequence-...` |
| `Spec.GraphEdges` | src/spec.py:294-296 | every edge of the module graph leads to a declared module or to a sequence module |
| `Memories.Copied` | src/engine/common/memory.py:88-90 | without a filter every message is copied; with one, only messages of the listed kinds, never more than there were |
| `Memories.OfKindConcat` | src/engine/common/memory.py:77-85 | the messages of one kind in two lists one after the other are those of the first list followed by those of the second |
| `Memories.OfKindWithout` | src/engine/common/memory.py:79-82 | the list comprehension that drops a kind leaves no message of it and keeps every other kind's messages |
| `Memories.AddMessageByKind` | src/engine/common/memory.py:77-85 | adding an instruction or data message makes it the only one of its kind; any other message joins its kind at the end |
| `Memories.OfKindLastStep` | src/engine/common/memory.py:77-85 | one more message of a piece changes its kind's messages exactly as a single `AddMessage` does |
| `Memories.AddMessagesLatest` | src/engine/common/memory.py:74-85 | after `add_memory`, a bucket holds the piece's newest instruction (or data) message, or keeps its own when the piece brings none |
| `Memories.AddMessagesAccumulate` | src/engine/common/memory.py:74-85 | human and AI messages accumulate: after `add_memory` they are the bucket's followed by the piece's |
| `Memories.AtMostOneLatest` | src/engine/common/memory.py:75-83 | a bucket with at most one instruction (or data) message keeps at most one, and has exactly one once a piece brought one |
| `Memories.OrdinaryConcat` | src/engine/common/memory.py:84-85 | the human and AI messages of two lists one after the other are those of each in turn |
| `Memories.OrdinaryWithout` | src/engine/common/memory.py:79-82 | dropping instructions or data messages leaves the human and AI messages untouched |
| `Memories.OrdinaryOfAddMessage` | src/engine/common/memory.py:77-85 | one step of `add_memory` appends a human or AI message to the conversation and leaves it alone otherwise |
| `Memories.OrdinaryOfLastStep` | src/engine/common/memory.py:77-85 | the last message of a piece adds to the human and AI messages as one step does |
| `Memories.OrdinaryOfAddMessages` | src/engine/common/memory.py:74-85 | `add_memory` keeps the order of the conversation: its human and AI messages are the bucket's then the piece's |
| `Memories.CopiedConcat` | src/engine/common/memory.py:88-92 | copying two lists one after the other copies each in turn, in order |
| `Memories.OfKindSingle` | src/engine/common/memory.py:90 | a single message is of a kind or contributes nothing to it |
| `Memories.CopiedByKind` | src/engine/common/memory.py:88-92 | a filtered copy holds every message of each listed kind, in order, and none of the others |
| `Memories.TextOfConcat` | src/engine/common/memory.py:114-125 | the text of two lists one after the other is the text of each in turn |
| `Memories.TextOfFiltered` | src/engine/common/memory.py:118-119 | rendering with a list of memory types is rendering, unfiltered, the messages of those types alone |
| `Memories.ConversationMemory.constructor` | src/engine/common/memory.py:69-72 | a new memory holds no messages |
| `Memories.ConversationMemory.AddMemory` | src/engine/common/memory.py:74-85 | the loop over the piece's messages leaves the memory equal to `Merge` of the old one and the piece |
| `Memories.ConversationMemory.CopyMemoryFrom` | src/engine/common/memory.py:87-92 | the memory becomes `CopyFrom` of its old contents and the other memory's filtered messages; the other memory is unchanged |
| `Memories.ConversationMemory.AddDataMessage` | src/engine/common/memory.py:94-96 | appends one data message with the text and returns the memory itself |
| `Memories.ConversationMemory.AddInstructionMessage` | src/engine/common/memory.py:98-100 | appends one instruction message with the text and returns the memory itself |
| `Memories.ConversationMemory.AddHumanMessage` | src/engine/common/memory.py:102-104 | appends one human message with the text and returns the memory itself |
| `Memories.ConversationMemory.AddAIReasoningMessage` | src/engine/common/memory.py:106-108 | appends one AI reasoning message with the text and returns the memory itself |
| `Memories.ConversationMemory.AddAIResponse` | src/engine/common/memory.py:110-112 | appends one AI response with the text and returns the memory itself |
| `Memories.ConversationMemory.ToTextMessages` | src/engine/common/memory.py:114-125 | the loop renders `TextOf` the messages: prefix, text and a newline for each message shown by the memory types |
| `Memories.Piece` | src/engine/common/memory.py:128-129 | a one-message memory piece holds just that message |
| `Prompts.Section` | src/engine/common/prompts.py:25-46 | a section keeps the name and content it was built with |
| `Prompts.ToPrompt` | src/engine/common/prompts.py:30-35 | a section as a prompt is the one-section prompt |
| `Prompts.Plus` | src/engine/common/prompts.py:13-14 | adding prompts concatenates their sections: the first prompt's come first, the second's after, nothing else |
| `Prompts.SectionPlus` | src/engine/common/prompts.py:37-38 | adding two sections gives the prompt of those two, in order |
| `Prompts.PlaceholdersWellFormed` | src/engine/common/prompts.py:40-42 | every variable found is non-empty, holds no closing brace and occurs braced in the content |
| `Prompts.NoBraceNoPlaceholders` | src/engine/common/prompts.py:40-42 | content without an opening brace has no variables |
| `Prompts.BracedName` | src/engine/common/prompts.py:40-42 | a braced name at the start is the first variable, followed by the variables of the rest |
| `Prompts.PlainPrefix` | src/engine/common/prompts.py:40-42 | text without an opening brace in front of content adds no variables |
| `Prompts.Variables` | src/engine/common/prompts.py:16-20 | the loop collects the variables of every section, in section order |
| `Prompts.VariablesOfPlus` | src/engine/common/prompts.py:13-20 | the variables of a sum of prompts are those of the first followed by those of the second |
| `Prompts.EnabledContentsExactly` | src/engine/common/prompts.py:22-23 | a content is rendered exactly when some section has it and its name is not disabled |
| `Prompts.ToTextAppend` | src/engine/common/prompts.py:22-23 | `to_text` renders section by section: a disabled section adds nothing, an enabled one adds its content on a new line after what came before, or alone when nothing came before |
| `Prompts.NothingDisabled` | src/engine/common/prompts.py:22-23 | with nothing disabled every section's content is rendered, in order |
| `Prompts.EnabledContentsPlus` | src/engine/common/prompts.py:13-23 | rendering a sum of prompts renders the first prompt's sections then the second's |
| `Prompts.OptionLinesNumbered` | src/engine/common/prompts.py:52 | option line i is the item's position followed by its title, one line per item |
| `Prompts.MenuFallback` | src/engine/common/prompts.py:58-61 | the fallback text is empty exactly when the menu has no fallback |
| `Prompts.MenuPromptStart` | src/engine/common/prompts.py:66 | the menu prompt starts with the presentation and a newline |
| `Prompts.MenuPromptEnd` | src/engine/common/prompts.py:66 | the menu prompt ends with the item handling and then the fallback |
| `Prompts.MenuPromptOption` | src/engine/common/prompts.py:51-66 | every menu item's numbered line appears in the menu prompt |
| `Prompts.QABlocks` | src/engine/common/prompts.py:73 | one question and answer block per pair, in order |
| `Prompts.QuestionAnsweringPromptFrame` | src/engine/common/prompts.py:72-75 | the prompt starts with the list header and ends with the restriction and a newline |
| `Prompts.QuestionAnsweringPromptBlock` | src/engine/common/prompts.py:73-75 | every question and answer appears in the questions prompt |
| `Runtime.Touch` | src/engine/custom/runtime.py:58-65 | after `get_or_create_memory` the module has a memory under the id |
| `Runtime.Store` | src/engine/custom/runtime.py:47-49 | after storing, the module has a memory under the id |
| `Runtime.TouchCreatesOnce` | src/engine/custom/runtime.py:58-65 | creating a memory adds exactly that one bucket, leaves every bucket's contents as they were, and creating it again changes nothing |
| `Runtime.StoreAfterTouch` | src/engine/custom/runtime.py:47-65 | storing into a bucket just created is the same as storing directly |
| `Runtime.StoreOnly` | src/engine/custom/runtime.py:47-49 | storing changes that one bucket and no other |
| `Runtime.Reversed` | src/engine/custom/runtime.py:67-68 | the events come back in reverse order: position i holds the i-th event from the end |
| `Runtime.LastInFirstOut` | src/engine/custom/runtime.py:67-74 | popping as many events as were pushed returns them in reverse order and leaves the stack as it was before the pushes |
| `Runtime.ExecutionState.constructor` | src/engine/custom/runtime.py:30-38 | a new state is in the initial module, with no events, no memories, no data, no listeners and no output |
| `Runtime.ExecutionState.AddActionListener` | src/engine/custom/runtime.py:40-41 | appends the listener and changes nothing else |
| `Runtime.ExecutionState.NotifyActionListeners` | src/engine/custom/runtime.py:43-45 | every listener, in registration order, receives the action; nothing else changes |
| `Runtime.ExecutionState.UpdateMemory` | src/engine/custom/runtime.py:47-49 | the module's bucket for the id becomes its old contents merged with the piece (a fresh memory if there was none); nothing else changes |
| `Runtime.ExecutionState.GetOrCreateMemory` | src/engine/custom/runtime.py:51-65 | returns the bucket's contents, creating an empty bucket when there was none; nothing else changes |
| `Runtime.ExecutionState.CopyMemory` | taskyto/engine/custom/engine.py:126-128 | both buckets exist afterwards (created on first use); the target one gains the source's messages of the listed kinds, as `copy_memory_from` adds them; no other bucket changes |
| `Runtime.ExecutionState.PopEvent` | src/engine/custom/runtime.py:67-68 | pops and returns the last pushed event; on an empty stack it is an error and the stack stays empty |
| `Runtime.ExecutionState.PushEvent` | src/engine/custom/runtime.py:73-74 | the event goes on top of the stack; nothing else changes |
| `Runtime.ExecutionState.SetData` | src/engine/custom/runtime.py:156-160 | the data slot holds the dictionary; nothing else changes |
| `Runtime.ExecutionState.Output` | src/engine/custom/runtime.py:94-95 | the message and its speaker are appended to the output; nothing else changes |
| `Runtime.Notifications` | src/engine/custom/runtime.py:43-45 | one notification per listener, in order, each carrying the action |
| `Runtime.ToolList` | src/engine/custom/tasks.py:10-46 | data-gathering and question-answering modules are their own last tool; other modules keep the tools they were given |
| `Runtime.NamesOf` | src/engine/custom/runtime.py:171-172 | the tool names, one per tool, in order |
| `Runtime.ActivationsEmpty` | src/engine/custom/runtime.py:175-178 | there are no activation entries exactly when no tool has an activation prompt |
| `Runtime.ActivationListed` | src/engine/custom/runtime.py:175-176 | every tool with an activation prompt has its entry in the list |
| `Runtime.ToolsPromptEmpty` | src/engine/custom/runtime.py:174-180 | the tools prompt is empty exactly when no tool has an activation prompt |
| `Runtime.ToolsPromptEntries` | src/engine/custom/runtime.py:174-180 | a nonempty tools prompt starts with the Tools header and names every tool that has an activation prompt |
| `Runtime.FindToolByName` | src/engine/custom/runtime.py:186-190 | a missing tool is the ValueError naming it |
| `Runtime.FindToolByNameFirst` | src/engine/custom/runtime.py:186-190 | the lookup fails exactly when no tool has the name, and otherwise returns the first tool that has it |
| `Runtime.AnswerMessages` | taskyto/engine/custom/tasks.py:238-243 | the question-answering chat is the module prompt, the answer instruction (current modules only), the question intro and the question |
| `Runtime.ExecuteAction` | src/engine/custom/runtime.py:197-214 | with code, an evaluation error is the result's error; a response is filled with the result under `result` and rephrased when asked; without a response the result itself; without code the default response or a ValueError |
| `Runtime.ResultTemplateSaysResult` | src/engine/custom/runtime.py:202-208 | a `{{result}}` response over empty data says exactly what the code returned |
| `Runtime.SystemTextParts` | src/engine/custom/runtime.py:227-230 | the system template is the prompt, the tools prompt and the format instructions, each followed by a blank line |
| `Runtime.SystemTemplateFor` | src/engine/custom/runtime.py:218-225 | without tools the system template has no tools prompt and the no-tool instructions; with tools, the tools prompt and the tool instructions with the tool names |
| `Runtime.ToolNamesListsEach` | src/engine/custom/runtime.py:171-172 | `get_tool_names` lists the name of every tool; no tools give an empty text and one tool its bare name |
| `Runtime.PromptsDisabled` | taskyto/engine/custom/tasks.py:24-29 | at most one section is switched off: `instruction` exactly for the input prompt of a menu, open-ended or data-gathering module, `input` exactly for the reasoning prompt of a menu or open-ended module and the in-caller rephrasing prompt of a data-gathering module |
| `Runtime.PromptInput` | src/engine/custom/runtime.py:258-261 | the input line is empty exactly when there is no input or it is blank |
| `Runtime.TouchAllKeeps` | src/engine/custom/runtime.py:243-246 | gathering memories creates buckets but changes none of their contents |
| `Runtime.RequestInput` | src/engine/custom/runtime.py:258-264 | the substitutions give `input` the input line and `agent_scratchpad` the empty text |
| `Runtime.ParseWithAfterLastMarker` | src/engine/custom/runtime.py:101-109 | without the AI prefix, a text with the no-tool marker is a final answer: the stripped part after the last marker |
| `Runtime.ParseAfterLastMarker` | src/engine/custom/runtime.py:101-109 | the same, for the `AI` prefix and the no-tool marker of the format instructions |
| `Runtime.ParseDelegates` | src/engine/custom/runtime.py:102-110 | with the AI prefix present or the no-tool marker absent, parsing is langchain's conversational parser |
| `Runtime.ParseObservation` | src/engine/custom/runtime.py:112-118 | it fails exactly when the text with a final newline has no `Observation: ` |
| `Runtime.ParseObservationLine` | src/engine/custom/runtime.py:113-118 | the observation found holds no newline and appears after the marker, up to a newline |
| `Runtime.ParseFailureUnbound` | src/engine/custom/runtime.py:273-288 | as written, a parse failure reaches the later use of `parsed_result` unbound; the corrected step succeeds |
| `Runtime.StepPushesOne` | src/engine/custom/runtime.py:273-288 | a step pushes at most one event and succeeds exactly when it pushes one; a parse failure finishes the task with the unparsed output, stripped of the exception marker |
| `Runtime.ToolCallActivatesTool` | src/engine/custom/runtime.py:186-195 | a tool call succeeds exactly when the tool exists, and then pushes its activation with the tool input and the turn so far (human input then reasoning) |
| `Runtime.GatherMemories` | src/engine/custom/runtime.py:243-246 | the loop creates each variable's bucket and renders it with the module's memory types; nothing else changes |
| `Runtime.BuildRequest` | src/engine/custom/runtime.py:216-266 | the request is the system template, the human prompt with its disabled sections and the substitutions; only the gathered buckets change |
| `Runtime.RunWith` | src/engine/custom/runtime.py:216-288 | the buckets the prompt names exist afterwards; the events pushed are those the step as written pushes on the parsed LLM answer; when the answer parses, the result is the as-written one; on a parse failure the source raises an UnboundLocalError where the model returns the corrected step's success; nothing but the buckets and the stack changes |
| `Runtime.Run` | src/engine/custom/runtime.py:216-288 | `run` with the module's own human prompt: the buckets become `RunTouched` of the old ones, and the stack and result are those of the step as written, with the corrected result after a parse failure |
| `Runtime.StepAgainstWritten` | src/engine/custom/runtime.py:273-288 | the corrected step pushes the same events as the step as written; the two agree on the result whenever the answer parses, and differ only after a parse failure, where the written one raises an UnboundLocalError |
| `Runtime.ChatLinesShape` | src/engine/custom/runtime.py:290-302 | the conversion fails exactly on a message that is neither human nor AI; each human line is prefixed `Human: `, each AI line kept as is |
| `Runtime.ToMessages` | src/engine/custom/runtime.py:290-302 | `to_messages` fails exactly when some message is neither human nor AI; no messages give an empty text, one human message its `Human: ` line |
| `StateMachines.TriggerFor` | src/engine/custom/statemachine.py:84-88 | a trigger carries the event and action given; with neither it is the empty trigger |
| `StateMachines.StateId` | src/engine/custom/statemachine.py:7-23 | a state's id is its module's name; the initial vertex has none (`state_id` is missing on it) |
| `StateMachines.InitialOfFirst` | src/engine/custom/statemachine.py:95-96 | the initial state is the first initial vertex, and looking it up fails exactly when there is none |
| `StateMachines.OwnTransitionsLast` | src/engine/custom/statemachine.py:98-104 | a machine's own transitions come last among all its transitions |
| `StateMachines.NestedMember` | src/engine/custom/statemachine.py:99-102 | every transition of a composite vertex's machine is among the nested transitions |
| `StateMachines.NestedOrigin` | src/engine/custom/statemachine.py:99-102 | every nested transition comes from some composite vertex's machine |
| `StateMachines.AllTransitionsMembers` | src/engine/custom/statemachine.py:98-104 | a transition is in `get_all_transitions` exactly when it is the machine's own or belongs, at any depth, to one of its composite states |
| `StateMachines.ScanFirstDecision` | src/engine/custom/statemachine.py:113-118 | the first transition out of the state that decides the event is the answer: it is taken when it accepts the event, and an empty trigger facing an event is the AttributeError of calling `is_compatible` on None |
| `StateMachines.ScanNoDecision` | src/engine/custom/statemachine.py:113-120 | when no transition leaves the state for the event, there is no transition |
| `StateMachines.ScanFound` | src/engine/custom/statemachine.py:113-118 | a transition found is one of those scanned, leaves the state and accepts the event |
| `StateMachines.TransitionForFound` | src/engine/custom/statemachine.py:106-120 | a transition found either leaves the current state and accepts the event, or, in a composite state, leaves its initial state inside it |
| `StateMachines.OuterScanWhenInnerSilent` | src/engine/custom/statemachine.py:107-113 | when the composite state's own machine has nothing for the event, the outer machine's transitions are scanned |
| `StateMachines.InnerWins` | src/engine/custom/statemachine.py:107-111 | a transition inside a composite state takes precedence over the outer machine's |
| `StateMachines.StateMachine.constructor` | src/engine/custom/statemachine.py:80-82 | a new machine has no vertices and no transitions |
| `StateMachines.StateMachine.AddTransition` | src/engine/custom/statemachine.py:84-90 | appends one transition with the trigger for the event and action; the vertices are unchanged |
| `StateMachines.StateMachine.AddState` | src/engine/custom/statemachine.py:92-93 | appends the vertex; the transitions are unchanged |
| `StateMachines.StateMachine.InitialState` | src/engine/custom/statemachine.py:95-96 | the loop finds the first initial vertex, or fails on none |
| `StateMachines.StateMachine.GetAllTransitions` | src/engine/custom/statemachine.py:98-104 | the loop gathers the composite states' transitions, then the machine's own |
| `StateMachines.StateMachine.TransitionFor` | src/engine/custom/statemachine.py:106-120 | the method computes the transition the pure definition selects |
| `StateMachines.ScanTransitions` | src/engine/custom/statemachine.py:113-120 | the loop over all transitions returns the first one that decides the event |
| `StateMachines.EscapeRemovesBrackets` | src/engine/custom/statemachine.py:182-183 | escaping leaves no angle bracket, and text without brackets is unchanged |
| `StateMachines.ToNodeIdOfState` | src/engine/custom/statemachine.py:25-26 | a state's node id is its name, prefixed by the parent's id and an underscore inside a composite state |
| `StateMachines.ToNodeIdHasNoBrackets` | src/engine/custom/statemachine.py:133-139 | node ids hold no angle bracket |
| `Generator.MenuTaskLists` | src/engine/custom/generator.py:144-178 | the task prompt starts with the tasks header and lists every item numbered from 1 with what to do for it |
| `Generator.MenuFallbackOnlyWhenSet` | src/engine/custom/generator.py:148-166 | a fallback adds its header and text at the end of the task prompt; without one the prompt ends with the task list's newline |
| `Generator.AsciiLower` | src/engine/custom/generator.py:159-162 | lower-casing keeps the length and maps each ASCII capital to its small letter, leaving other characters alone |
| `Generator.LanguageRules` | src/engine/custom/generator.py:153-163 | several comma-separated languages give the "these languages" rule, one language other than any the "only" rule, and any (in any letter case) the any-language rule |
| `Generator.QuestionAnsweringActivationLists` | src/engine/custom/generator.py:46-52 | the activation prompt starts with the module description, lists every question and ends with the JSON request |
| `Generator.ShapeLine` | src/engine/custom/generator.py:67-74 | a property's line exists exactly for a simple type or an enum with values; it names the property, says whether it is optional, and then its type or its allowed values |
| `Generator.ShapeErrorPersists` | src/engine/custom/generator.py:67-74 | once a property raises, the whole data shape is that error |
| `Generator.ShapeFailsOnlyOnALine` | src/engine/custom/generator.py:66-74 | the data shape fails exactly when one property's line does |
| `Generator.ShapeHasOneLinePerProperty` | src/engine/custom/generator.py:66-74 | a data shape is the lines of the properties, one after the other, in order |
| `Generator.DataShape` | src/engine/custom/generator.py:66-74 | the loop builds the data shape the pure definition describes, failing on the first bad property |
| `Generator.InitialPresentation` | src/engine/custom/generator.py:54 | the initial module's presentation is available exactly when it is a menu |
| `Generator.QuestionAnsweringOf` | src/engine/custom/generator.py:45-61 | a question-answering runtime module, with no tools, the questions prompt as its task and the listing activation prompt; it needs a menu as initial module |
| `Generator.DataGatheringOf` | src/engine/custom/generator.py:63-96 | a data-gathering runtime module with the go-back modules as tools, the shape in its task and activation prompts; it fails on a bad shape, a missing description or a non-menu initial module |
| `Generator.ActionOf` | src/engine/custom/generator.py:111-118 | an action runtime module with empty task and activation prompts and no tools |
| `Generator.SequenceOf` | src/engine/custom/generator.py:98-109 | a sequence runtime module with the description as activation prompt and the called modules as tools |
| `Generator.LeafOf` | src/engine/custom/generator.py:45-118 | the runtime module of a module that is neither menu nor sequence is built from that module |
| `Generator.ToolTargetsCount` | src/engine/custom/generator.py:37-38 | answer items give no tool, every tool or sequence item gives one |
| `Generator.ResolveAll` | src/engine/custom/generator.py:102 | every reference resolves to the module of that name, in order, or resolution fails exactly when some reference is unknown |
| `Generator.ModuleGenerator.constructor` | src/engine/custom/generator.py:16-23 | a new generator has the model, languages and initial module, an empty cache and no go-back modules |
| `Generator.ModuleGenerator.Generate` | src/engine/custom/generator.py:25-33 | a module generated before is returned from the cache unchanged; otherwise the new runtime module is built from that module and cached under its name; the cache only grows |
| `Generator.ModuleGenerator.Accept` | src/engine/custom/generator.py:31 | dispatches on the module kind; modules without children are built directly, with the go-back modules in force |
| `Generator.ModuleGenerator.Visit` | src/engine/custom/generator.py:35-43 | a menu gets its prompts and the cached runtime modules of its tool and sequence items; a sequence gets one tool per reference, each built from the referenced module, and fails on an unknown reference |
| `Generator.ModuleGenerator.VisitDataGathering` | src/engine/custom/generator.py:63-96 | builds the data-gathering runtime module from the go-back modules currently in force |
| `Generator.ModuleGenerator.GenerateTools` | src/engine/custom/generator.py:37-38 | every tool and sequence item is generated and the results are those cached under the item targets |
| `Generator.ModuleGenerator.VisitAll` | src/engine/custom/generator.py:102-103 | one runtime module per called module, in order |
| `Tasks.PyIn` | taskyto/engine/custom/tasks.py:165 | on a dict, membership is having the key |
| `Tasks.PySubscript` | taskyto/engine/custom/tasks.py:166 | indexing succeeds exactly on a dict that has the key, and gives that key's value |
| `Tasks.DataProperties` | taskyto/engine/custom/tasks.py:88 | only data-gathering and action modules have a data model |
| `Tasks.OnSuccess` | taskyto/engine/custom/tasks.py:107 | only modules that declare an on-success action have one to read |
| `Tasks.CollectValues` | taskyto/engine/custom/tasks.py:83-102 | the loop over the data model collects what the pure definition describes: stored values and the values not understood |
| `Tasks.CollectOther` | taskyto/engine/custom/tasks.py:88-100 | only properties of the data model are ever stored |
| `Tasks.CollectProperty` | taskyto/engine/custom/tasks.py:88-100 | with distinct names, each property holds the value its formatter accepted (the formatted one for a typed property, the raw one otherwise) or nothing |
| `Tasks.CollectUnknowns` | taskyto/engine/custom/tasks.py:97-102 | the values not understood are the raw values the fallback formatter rejected, in property order |
| `Tasks.AllMandatoryDataProvided` | taskyto/engine/custom/tasks.py:141-145 | true exactly when every required property has a value |
| `Tasks.CompletesIffRequiredStored` | taskyto/engine/custom/tasks.py:88-145 | the task completes exactly when every required property's value was accepted |
| `Tasks.Pairs` | taskyto/engine/custom/tasks.py:106-127 | one `k = v` entry per collected value, in insertion order |
| `Tasks.CollectedTextLists` | taskyto/engine/custom/tasks.py:106-127 | the collected text mentions every collected value |
| `Tasks.MissingNames` | taskyto/engine/custom/tasks.py:150-151 | never more missing names than properties |
| `Tasks.MissingNamesExactly` | taskyto/engine/custom/tasks.py:148-152 | a name is listed as missing exactly when a property of the wanted kind has it and has no value |
| `Tasks.MissingDataInstructionEmpty` | taskyto/engine/custom/tasks.py:148-152 | the missing-data text is not empty as long as a property of the wanted kind lacks a value |
| `Tasks.StrValues` | taskyto/engine/custom/tasks.py:134 | the unknown values can be joined exactly when all are strings, and then they are their texts |
| `Tasks.UnknownText` | taskyto/engine/custom/tasks.py:133-134 | the not-understood line is there exactly when some value was not understood, and joins them with commas |
| `Tasks.WithLines` | taskyto/engine/custom/tasks.py:128-134 | the instruction starts with the missing-data request, adds the optional line only when some optional property is missing and ends with the unknown values when there are any |
| `Tasks.InProgressInstruction` | taskyto/engine/custom/tasks.py:127-134 | the instruction asks for the missing required data, mentions missing optionals and not-understood values when there are any, and nothing else |
| `Tasks.Completion` | taskyto/engine/custom/tasks.py:105-119 | a completed task finishes with the result, carries the collected data in its event and its data memory, tells the user the result and stores the data |
| `Tasks.CompletionDefault` | taskyto/engine/custom/tasks.py:106-108 | without an on-success action the result is the collected-data message and the data is stored |
| `Tasks.Progress` | taskyto/engine/custom/tasks.py:127-139 | an incomplete task reports progress with the collected data and the instruction, and stores nothing |
| `Tasks.MalformedJsonAsksForAll` | taskyto/engine/custom/tasks.py:84-139 | unparsable tool input collects nothing and asks for all the data |
| `Tasks.KeepUntilLastBrace` | taskyto/engine/custom/tasks.py:171-177 | the result is a prefix of the input that ends at its last closing brace, or the whole input without one |
| `Tasks.QuestionField` | taskyto/engine/custom/tasks.py:165-168 | a dict with a string question gives that question stripped; a dict without one is the not-a-question ValueError |
| `Tasks.GetQuestion` | taskyto/engine/custom/tasks.py:155-168 | a `Question:` input gives the rest stripped; otherwise the text up to the last brace must be JSON |
| `Tasks.PrefixedQuestion` | taskyto/engine/custom/tasks.py:159-160 | `Question:` followed by a question gives that question, stripped |
| `Tasks.ParseLLMOutput` | taskyto/engine/custom/tasks.py:256-257 | an answer without the marker is only stripped |
| `Tasks.MarkedAnswer` | taskyto/engine/custom/tasks.py:256-257 | the marker in front of an answer that holds no further marker is removed, and the rest is stripped |
| `Tasks.QuestionAnsweringStep` | taskyto/engine/custom/tasks.py:233-254 | a question needs a tool input; the step finishes the task with no memory and no data |
| `Tasks.QuestionAnsweringPlain` | taskyto/engine/custom/tasks.py:248-254 | without an on-success action the task finishes with the LLM answer, marker removed and stripped |
| `Tasks.SequenceStep` | taskyto/engine/custom/tasks.py:261-273 | a sequence needs an activating event; a finish leaves it with the event's memory and no result; any other event enters the first tool with the input and the previous answer |
| `Tasks.ExtractDataOk` | taskyto/engine/custom/tasks.py:289-294 | extraction succeeds exactly when the available data has every property |
| `Tasks.ExtractDataGets` | taskyto/engine/custom/tasks.py:294 | each extracted property has its available value |
| `Tasks.ExtractDataOnly` | taskyto/engine/custom/tasks.py:289-294 | nothing but the data model's properties is extracted |
| `Tasks.ExtractProperties` | taskyto/engine/custom/tasks.py:289-294 | the loop extracts what the pure definition describes, failing on the first missing property |
| `Tasks.ExtractDataFails` | taskyto/engine/custom/tasks.py:291-292 | the first missing property is the one the ValueError names |
| `Tasks.ActionStep` | taskyto/engine/custom/tasks.py:280-300 | without collected data the step fails; a step that succeeds needs an on-success action with code and finishes the task with its result |
| `Tasks.TaskStepOf` | taskyto/engine/custom/tasks.py:77-300 | only data gathering stores data |
| `Tasks.GatherData` | taskyto/engine/custom/tasks.py:77-139 | the data-gathering step the pure definition describes |
| `Tasks.ActOn` | taskyto/engine/custom/tasks.py:280-300 | reads the collected-data bucket (creating it if missing) and computes the action step; nothing else changes |
| `Tasks.Apply` | taskyto/engine/custom/tasks.py:112-139 | on success pushes the step's event and stores its data when it carries any; on error nothing is pushed |
| `Tasks.RunTaskAsTool` | taskyto/engine/custom/tasks.py:77-300 | running a task module as a tool pushes its step's event, or pushes nothing and fails |
| `Tasks.RunAsTool` | taskyto/engine/custom/tasks.py:36-39 | menus and open-ended modules run their LLM turn with tools: the stack and result of the step as written, with the corrected result after a parse failure; other modules run their task step, pushing its event and storing its data, or pushing nothing on an error; the buckets become `ToolMemory` of the old ones |
| `LegacyTasks.Collect` | src/engine/custom/tasks.py:19-22 | never more collected values than properties |
| `LegacyTasks.CollectOnlyNames` | src/engine/custom/tasks.py:19-22 | only properties of the data model are collected |
| `LegacyTasks.CollectValues` | src/engine/custom/tasks.py:16-22 | the loop collects what the pure definition describes |
| `LegacyTasks.CompletesIffAllRead` | src/engine/custom/tasks.py:19-24 | with distinct names, the task completes exactly when every property has a value in the query |
| `LegacyTasks.AbsentNames` | src/engine/custom/tasks.py:37 | never more missing names than properties |
| `LegacyTasks.AbsentNamesExactly` | src/engine/custom/tasks.py:37 | a name is missing exactly when some property has it and no value was collected for it |
| `LegacyTasks.AskFor` | src/engine/custom/tasks.py:38-39 | the instruction names the module, asks not to use it, and ends with the missing names |
| `LegacyTasks.Progress` | src/engine/custom/tasks.py:37-40 | an incomplete task reports the request for the missing names and stores nothing |
| `LegacyTasks.Completion` | src/engine/custom/tasks.py:24-33 | a completed task finishes with the data in its event, no memory, and stores the data; without an on-success action the result is the collected-data message |
| `LegacyTasks.DataGatheringStep` | src/engine/custom/tasks.py:14-18 | a missing tool input is an error (`json.loads(None)`) |
| `LegacyTasks.GatherData` | src/engine/custom/tasks.py:14-40 | the data-gathering step the pure definition describes |
| `LegacyTasks.GetQuestion` | src/engine/custom/tasks.py:59-68 | a `Question:` input gives the rest stripped; otherwise the whole input must be JSON with a question field |
| `LegacyTasks.GetQuestionAgrees` | src/engine/custom/tasks.py:59-68 | on `Question:` inputs and on inputs without a brace the legacy and current question extraction agree |
| `LegacyTasks.QuestionAnsweringStep` | src/engine/custom/tasks.py:48-57 | finishes with the LLM's plain answer to the module prompt and the question; a missing input is the AttributeError of `startswith` |
| `LegacyTasks.SequenceStep` | src/engine/custom/tasks.py:72-80 | a finish event is passed on as is; any other event enters the first tool as the current modules do; a missing event fails the assertion |
| `LegacyTasks.ExtractDataOnDict` | src/engine/custom/tasks.py:95-100 | on a dict, extraction agrees with the current modules' extraction |
| `LegacyTasks.EventData` | src/engine/custom/tasks.py:88-92 | data is read from the activating event; there is none without an event, and a read value is never None |
| `LegacyTasks.ActionStep` | src/engine/custom/tasks.py:87-106 | a step that succeeds needs an on-success action with code and finishes the task with its result |
| `LegacyTasks.FinishedDataReachesAction` | src/engine/custom/tasks.py:32 | the data a finished data-gathering task carries is what the action reads and extracts |
| `LegacyTasks.TaskStepOf` | src/engine/custom/tasks.py:14-106 | menus and open-ended modules cannot be run as tools here; only data gathering stores data |
| `LegacyTasks.RunAsTool` | src/engine/custom/tasks.py:14-106 | pushes the step's event and stores its data, or pushes nothing and fails |
| `Actions.EventMessage` | taskyto/engine/custom/engine.py:70-71 | a consuming say reads the message of a user input or AI response, or the result of a finish; any other event, or none, has no message |
| `Actions.ExecuteSay` | taskyto/engine/custom/engine.py:68-77 | outputs the message (the event's, when consuming) under the current state's id, and nothing when the message is None; fails in the initial state or on an event without a message; the result and the new world are `SayEffect` of the old world |
| `Actions.ExecuteRunModule` | taskyto/engine/custom/engine.py:26-32 | only a user input is accepted (a ValueError otherwise, with nothing pushed); the module runs on the input's message with its disabled prompts, through `Runtime.RunStep`, which is the corrected step (see Left out); the result and the new world are `ModuleEffect` of the old world |
| `Actions.ExecuteApplyLLM` | taskyto/engine/custom/engine.py:48-51 | the tool runs without input, with the action's tool permission and disabled prompts, through the corrected step; the result and the new world are `TurnEffect` of the old world |
| `Actions.ToolInput` | taskyto/engine/custom/engine.py:88 | the tool input is the activation event's input, and None for any other event |
| `Actions.ExecuteRunTool` | taskyto/engine/custom/engine.py:87-90 | the tool runs as a tool on the event's input with the event as activating event, a menu or open-ended tool through the corrected step; the result and the new world are `ToolEffect` of the old world |
| `Actions.ExecuteUpdateMemory` | taskyto/engine/custom/engine.py:125-142 | the buckets become `MemoryAfter` of the old buckets (the definition of the update), or stay as they were on an error; the result and the new world are `UpdateEffect` of the old world |
| `Actions.UpdatePieces` | taskyto/engine/custom/engine.py:141-142 | each memory piece of the event is merged into the target's bucket of that id, in order |
| `Actions.UpdatedAllOnlyThatModule` | taskyto/engine/custom/engine.py:141-142 | the pieces of an event reach only the target module's buckets |
| `Actions.UpdateOnlyTouchesTarget` | taskyto/engine/custom/engine.py:131-142 | without copying, only the target module's buckets change |
| `Actions.MessageJoinsHistory` | taskyto/engine/custom/engine.py:134-139 | a user input joins the target's history as a human message, an AI response as an AI message |
| `Actions.CopyAppendsFiltered` | taskyto/engine/custom/engine.py:126-129 | copying appends the source's filtered history and collected data to the target's and leaves the source's as they were |
| `Actions.CopyOnly` | taskyto/engine/custom/engine.py:127-128 | a copy changes the target bucket and no other |
| `Actions.NoticesSnoc` | taskyto/engine/custom/engine.py:103-105 | one more action of a composite adds the notices of its inner actions and then its own |
| `Actions.Execute` | taskyto/engine/custom/engine.py:20-163 | the result and the new world (event stack, memory buckets, data slot, notifications, outputs) are `Effect` of the action on the old state; the current state and the listeners are kept |
| `Actions.ExecuteBasic` | taskyto/engine/custom/engine.py:20-96 | the result and the new world are `BasicEffect` of the old state: the action of its own kind runs, and no listener is notified |
| `Actions.ExecuteComposite` | taskyto/engine/custom/engine.py:102-105 | the result and the new world are `Effect` of the composite on the old state: the actions run in order, each followed by one notification per listener, and the first failure stops the run |
| `Actions.EffectAllStops` | taskyto/engine/custom/engine.py:102-105 | once some prefix of a composite's actions fails, the later actions never run: the whole run has the outcome of that prefix |
| `Actions.EffectNotices` | taskyto/engine/custom/engine.py:20-105 | running an action only adds notifications; a non-composite action adds none; a successful run is a run of that action and adds exactly the notices of its inner actions |
| `Actions.EffectAllNotices` | taskyto/engine/custom/engine.py:102-105 | a successful run of a composite's actions returns one executed action per action, in order, and adds exactly their notices |
| `Actions.PlainSayEffect` | taskyto/engine/custom/engine.py:68-77 | a non-consuming say outside the initial state succeeds and only appends its message, when it has one, to the outputs under the state's module |
| `Transformer.Activation` | taskyto/engine/custom/engine.py:234-235 | an activation edge waits for the activation of exactly the target's module and runs the target as a tool, then records into its memory |
| `Transformer.SelfLoops` | taskyto/engine/custom/engine.py:179-190 | every state gets two self-loops: a user input runs the module with its input prompts disabled and records it; an AI response is recorded and said |
| `Transformer.DataLoops` | taskyto/engine/custom/engine.py:298-308 | a data-gathering state also loops on progress (record, then ask the LLM without tools) and on its own activation |
| `Transformer.SelfLoopsReact` | taskyto/engine/custom/engine.py:185-188 | among the self-loops, a user input selects the first, an AI response the second, and any other event neither |
| `Transformer.DataLoopsReact` | taskyto/engine/custom/engine.py:301-306 | among the data loops, progress selects the first, the state's own activation the second, and any other event neither |
| `Transformer.ResponseOf` | taskyto/engine/custom/engine.py:220-225 | a module with an on-success action answers with that action's response element (and fails without one); any other module says the result |
| `Transformer.MenuEdges` | taskyto/engine/custom/engine.py:232-254 | a direct or simply rephrased response wires activation and a finish back that says the answer unless the item is a menu and passes the finish up below the top; an in-caller rephrase records, runs the tool and lets the caller's LLM speak; any other response is a ValueError |
| `Transformer.OpenEdges` | taskyto/engine/custom/engine.py:270-275 | an open-ended item is activated like a tool and its finish returns to the caller's LLM without tools |
| `Transformer.Copies` | taskyto/engine/custom/engine.py:356-358 | one copy into each remaining step's memory, inserted at the front so the last module comes first |
| `Transformer.StepActions` | taskyto/engine/custom/engine.py:346-361 | a step's forward edge records the previous step, copies into the remaining steps under full memory scope, then says the answer and runs the next step |
| `Transformer.BackEdges` | taskyto/engine/custom/engine.py:364-369 | with go-back, a step can activate each step so far |
| `Transformer.RuntimesOf` | taskyto/engine/custom/engine.py:339 | the go-back modules are the runtime modules of the steps so far, in order |
| `Transformer.StepsWiredSnoc` | taskyto/engine/custom/engine.py:338-376 | wiring one more step keeps the earlier steps wired and wires the new one |
| `Transformer.StepsFollowSnoc` | taskyto/engine/custom/engine.py:336-344 | the steps are the resolved modules, in order |
| `Transformer.GrownTrans` | src/engine/custom/statemachine.py:84-93 | a machine that only grows by appending keeps growing |
| `Transformer.GrownAppend` | src/engine/custom/statemachine.py:84-93 | appending states and transitions grows the machine |
| `Transformer.NoInitialGrown` | taskyto/engine/custom/engine.py:195-196 | growing a machine with no initial vertex adds none |
| `Transformer.StepsWiredPrefix` | taskyto/engine/custom/engine.py:338-376 | wired steps stay wired when more transitions are added |
| `Transformer.EventfulAddEdge` | taskyto/engine/custom/engine.py:185-373 | an edge with an event from a known vertex keeps every transition waiting for an event |
| `Transformer.EventfulAddVertex` | taskyto/engine/custom/engine.py:323-384 | adding a vertex whose inner machine waits for events keeps the machine waiting for events |
| `Transformer.InitialOfLast` | taskyto/engine/custom/engine.py:195-196 | the initial vertex added after all the module states is the machine's initial state |
| `Transformer.StateMachineTransformer.constructor` | taskyto/engine/custom/engine.py:167-177 | a new transformer has an empty machine, no stacked machines, no go-back modules and a fresh generator on the same model |
| `Transformer.StateMachineTransformer.NewState` | taskyto/engine/custom/engine.py:179-190 | the new state holds the module and its generated (cached) runtime module and its two self-loops are added |
| `Transformer.StateMachineTransformer.AddNewState` | taskyto/engine/custom/engine.py:181-190 | a fresh state for the runtime module with its two self-loops added |
| `Transformer.StateMachineTransformer.VisitDataGathering` | taskyto/engine/custom/engine.py:298-308 | the state of a data-gathering module gets its self-loops then its two data loops |
| `Transformer.StateMachineTransformer.AddDataLoops` | taskyto/engine/custom/engine.py:301-306 | adds exactly the two data loops |
| `Transformer.StateMachineTransformer.Accept` | taskyto/engine/custom/engine.py:205-308 | visiting a module gives a fresh state for it and only grows the machine; question-answering and sequence modules have no visit method |
| `Transformer.StateMachineTransformer.MenuWiredSnoc` | taskyto/engine/custom/engine.py:209-254 | wiring one more menu item keeps the earlier items wired |
| `Transformer.StateMachineTransformer.OpenWiredSnoc` | taskyto/engine/custom/engine.py:262-275 | wiring one more open-ended item keeps the earlier items wired |
| `Transformer.StateMachineTransformer.VisitMenu` | taskyto/engine/custom/engine.py:205-256 | the menu's state comes first, with its self-loops, and every tool or sequence item's child is wired to it by its menu edges |
| `Transformer.StateMachineTransformer.WireMenuItems` | taskyto/engine/custom/engine.py:209-254 | all the items are wired, in order |
| `Transformer.StateMachineTransformer.WireMenuItem` | taskyto/engine/custom/engine.py:210-254 | an answer item adds nothing; any other item's child is added and its two menu edges come last, or the response type is rejected |
| `Transformer.StateMachineTransformer.ConnectMenuChild` | taskyto/engine/custom/engine.py:214-254 | the child joins the machine and its menu edges are added when its response is supported |
| `Transformer.StateMachineTransformer.AddMenuEdges` | taskyto/engine/custom/engine.py:232-254 | adds the menu edges exactly when the response type is supported |
| `Transformer.StateMachineTransformer.VisitOpenEnded` | taskyto/engine/custom/engine.py:258-276 | the open-ended module's state comes first and every item's child is wired to it |
| `Transformer.StateMachineTransformer.WireOpenEndedItems` | taskyto/engine/custom/engine.py:262-275 | all the items are wired, in order |
| `Transformer.StateMachineTransformer.WireOpenEndedItem` | taskyto/engine/custom/engine.py:263-275 | an answer item adds nothing; a sequence child is a ValueError; any other child's two edges come last |
| `Transformer.StateMachineTransformer.ConnectOpenChild` | taskyto/engine/custom/engine.py:270-275 | adds exactly the two open-ended edges |
| `Transformer.StateMachineTransformer.VisitItem` | taskyto/engine/custom/engine.py:279-319 | an answer item gives no state; a tool item the state of the module it refers to; a sequence item a composite state for its sequence module |
| `Transformer.StateMachineTransformer.VisitToolItem` | taskyto/engine/custom/engine.py:285-296 | an unknown reference is a KeyError; otherwise the state is for the referenced module |
| `Transformer.StateMachineTransformer.VisitSequenceItem` | taskyto/engine/custom/engine.py:319-384 | a sequence item becomes a fresh composite state for the corrected `Spec.GetSequenceModule` of the item (its `goback` honoured); its references resolve, the inner machine starts at an initial vertex, one step state per referenced module in order, wired by the item's go-back and memory settings, and ends in the edge back to the composite; the outer machine and the visitor's stacks are left as they were |
| `Transformer.StateMachineTransformer.BuildSequence` | taskyto/engine/custom/engine.py:321-384 | the composite holds the sequence's runtime module and its inner machine is built as the sequence promises |
| `Transformer.StateMachineTransformer.OpenSequence` | taskyto/engine/custom/engine.py:323-330 | the outer machine is pushed and a fresh machine with only its initial vertex becomes current |
| `Transformer.StateMachineTransformer.BuildSteps` | taskyto/engine/custom/engine.py:338-376 | one step per resolved module, in order, all wired, ending at the last step |
| `Transformer.StateMachineTransformer.CloseSequence` | taskyto/engine/custom/engine.py:379-384 | the exit edge is added, the composite is made of the inner machine and the outer machine is current again |
| `Transformer.StateMachineTransformer.SequenceStep` | taskyto/engine/custom/engine.py:339-373 | the step's state is for its module, built with the earlier steps to go back to, and its edges come last |
| `Transformer.StateMachineTransformer.ConnectStep` | taskyto/engine/custom/engine.py:344-373 | the step joins the machine with exactly its step edges |
| `Transformer.StateMachineTransformer.AddBackEdges` | taskyto/engine/custom/engine.py:364-369 | adds exactly the go-back edges |
| `Transformer.StateMachineTransformer.StepActionsOf` | taskyto/engine/custom/engine.py:346-361 | the loop that inserts at the front builds the step actions of the definition |
| `Transformer.StateMachineTransformer.VisitChatbotModel` | taskyto/engine/custom/engine.py:192-203 | the machine starts at an initial vertex whose only edge, and the only edge without event, enters the initial module's state with the greeting unless the user begins |
| `Transformer.StateMachineTransformer.AddEntry` | taskyto/engine/custom/engine.py:195-201 | the initial vertex and its edge to the entry state are added with the greeting action |
| `Engine.ItemOf` | taskyto/engine/custom/engine.py:414-416 | the recording listener records a chatbot item exactly for a say action with a message, and nothing else |
| `Engine.ChatbotItemsAppend` | taskyto/engine/custom/engine.py:414-416 | recording two runs of notices one after the other records each in turn |
| `Engine.ChatbotItemsKind` | taskyto/engine/custom/engine.py:414-416 | every item the listener records is a chatbot item, at most one per notice |
| `Engine.RecordedExtend` | taskyto/engine/custom/engine.py:414-462 | what two stretches of notices record adds up to what their union records |
| `Engine.UserMessagesAppend` | taskyto/engine/custom/engine.py:449 | the user messages of two recordings one after the other are those of each in turn |
| `Engine.NoUserMessages` | taskyto/engine/custom/engine.py:414-416 | the listener never records a user message |
| `Engine.ScanOnly` | src/engine/custom/statemachine.py:113-118 | when one accepting transition is the only one out of a state, it is the one selected |
| `Engine.StartLookup` | taskyto/engine/custom/engine.py:195-201 | from the initial vertex, with no event, the compiled machine's entry edge with the greeting is selected |
| `Engine.EntryQuiet` | taskyto/engine/custom/engine.py:423-439 | in the entry state, with no event, there is no transition, so the run stops |
| `Engine.Top` | src/engine/custom/runtime.py:67-71 | there is a next event exactly when the stack is not empty, and it is the last pushed |
| `Engine.CustomPromptEngine.constructor` | taskyto/engine/custom/engine.py:394-401 | a new engine has the compiled machine, an empty recording and no execution state yet |
| `Engine.CustomPromptEngine.Start` | taskyto/engine/custom/engine.py:418-421 | a fresh execution state with the recording listener; with enough fuel the engine ends up in the entry state with no events, having said and recorded exactly the greeting (nothing when the user begins) |
| `Engine.CustomPromptEngine.Execute` | taskyto/engine/custom/engine.py:423-444 | records every say the run notifies; a run that ends stopped has no transition for its last event; from the initial vertex it greets and stops |
| `Engine.CustomPromptEngine.Round` | taskyto/engine/custom/engine.py:424-444 | one round of the loop records its says; the greeting round greets, the round in the entry state with no events stops at once |
| `Engine.CustomPromptEngine.GreetingStep` | taskyto/engine/custom/engine.py:195-201 | the notices of the greeting edge record exactly the greeting |
| `Engine.CustomPromptEngine.GreetingTaken` | taskyto/engine/custom/engine.py:195-201 | taking the greeting edge from the initial vertex succeeds, enters the entry state, and outputs and notifies the greeting unless the user begins, in which case the world is unchanged |
| `Engine.CustomPromptEngine.Step` | taskyto/engine/custom/engine.py:425-444 | the top event is popped and traced and the transition for it is looked up; a failed lookup or none found leaves the current state and the world with only the pop; one found is taken (`Taken`) from the popped world |
| `Engine.CustomPromptEngine.ExecuteTransition` | taskyto/engine/custom/engine.py:458-462 | `Taken`: an unregistered target fails with a KeyError and changes nothing; otherwise the current state becomes the target, no action leaves the world as it was, and an action gives the world of its `Effect` followed by the recorder's notification |
| `Engine.CustomPromptEngine.Record` | taskyto/engine/custom/engine.py:414-416 | the loop records one chatbot item per notified say with a message, in order |
| `Engine.CustomPromptEngine.ExecuteWithInput` | taskyto/engine/custom/engine.py:446-456 | the input is recorded as a user item before the chatbot's answers, which follow it |
| `Engine.CustomPromptEngine.RunAll` | taskyto/engine/custom/engine.py:406-412 | a run over the inputs records exactly those inputs as user messages, in order |
| `Engine.CustomPromptEngine.Feed` | taskyto/engine/custom/engine.py:408-412 | the input loop records each input as a user message, in order |
| `Engine.ComputeStatemachine` | taskyto/engine/custom/engine.py:387-389 | the compiled machine starts at its initial vertex and enters the initial module's state with the greeting |
| `Engine.NewEngine` | taskyto/engine/custom/engine.py:394-401 | the engine holds a compiled machine whose entry is the initial module |
| `Serialise.ModuleDict` | taskyto/mutator.py:48-119 | serialising fails exactly for sequence and open-ended modules (no to_dict) and for action or data-gathering modules without on-success; a menu is wrapped as a single modules entry |
| `Serialise.LookupAt` | taskyto/mutator.py:21-119 | reading a key from a written dictionary yields the value of its first occurrence |
| `Serialise.LookupMissing` | taskyto/mutator.py:21-119 | a key the serialiser did not write reads back as absent |
| `Serialise.LookupConcat` | taskyto/mutator.py:21-119 | a key is looked up in the earlier entries first and only then in the later ones |
| `Serialise.StrListRoundTrip` | taskyto/mutator.py:91 | a list of references written as strings reads back as the same list |
| `Serialise.ResponseElementRoundTrip` | taskyto/mutator.py:21-26 | a response element reads back with its text, and with its rephrase kept only when truthy |
| `Serialise.ActionRoundTrip` | taskyto/mutator.py:29-45 | an action reads back with its execute element and its response, an empty plain response becoming none |
| `Serialise.QuestionRoundTrip` | taskyto/mutator.py:67-71 | a question-answer pair reads back its question and its answer |
| `Serialise.QuestionsRoundTrip` | taskyto/mutator.py:79 | a list of questions reads back as the same list in the same order |
| `Serialise.ItemRoundTrip` | taskyto/mutator.py:85-108 | an answer, tool or sequence item reads back as itself, a sequence item losing only its goback flag |
| `Serialise.ItemsRoundTrip` | taskyto/mutator.py:118 | a menu's item list reads back item by item in order |
| `Serialise.SingleModule` | taskyto/mutator.py:111-119 | a document holding one readable module reads as that one module |
| `Serialise.MenuEntryRoundTrip` | taskyto/mutator.py:111-118 | a menu's dictionary reads back as the menu, fallback kept only when truthy |
| `Serialise.MenuRoundTrip` | taskyto/mutator.py:111-119 | a serialised menu document loads back as exactly that menu |
| `Serialise.DataGatheringRoundTrip` | taskyto/mutator.py:57-64 | a data-gathering module with on-success loads back as itself |
| `Serialise.QuestionAnsweringRoundTrip` | taskyto/mutator.py:74-82 | a question-answering module loads back as itself, with or without on-success |
| `Serialise.AnsweringActionRoundTrip` | taskyto/mutator.py:74-82 | a question-answering module with on-success loads back with that action |
| `Serialise.AnsweringOnlyRoundTrip` | taskyto/mutator.py:74-80 | a question-answering module without on-success loads back without one |
| `Serialise.ActionModuleRoundTrip` | taskyto/mutator.py:48-54 | an action module with on-success loads back as itself |
| `Serialise.ModuleRoundTrip` | taskyto/mutator.py:48-119 | every module that serialises loads back as itself up to the truthiness normalisation |
| `Serialise.ModuleDictInjective` | taskyto/mutator.py:48-119 | two modules with the same serialised form agree up to that normalisation, so persisting loses nothing else |
| `Mutator.Without` | taskyto/mutator.py:179 | dropping position i leaves one element fewer, and putting that element back at i gives the original list |
| `Mutator.Deletions` | taskyto/mutator.py:207-260 | one variant per position, each the list without that position's element and described by it |
| `Mutator.PairsShape` | taskyto/mutator.py:222-223 | the nested index loops visit exactly the pairs i before j below n, in lexicographic order, n(n-1)/2 of them |
| `Mutator.Swap` | taskyto/mutator.py:224-227 | positions i and j are exchanged, every other position is kept, and the result is a permutation |
| `Mutator.SwapTwice` | taskyto/mutator.py:232-233 | swapping the same pair again restores the list |
| `Mutator.Lift` | taskyto/mutator.py:268-277 | mutating each element of a list in turn leaves a list of the same length |
| `Mutator.LiftVariant` | taskyto/mutator.py:268-277 | each variant of the list replaces exactly one element by one of that element's variants, the elements before it as already left and those after it untouched |
| `Mutator.LiftRestores` | taskyto/mutator.py:277 | when every element is restored after its variants, the list is restored |
| `Mutator.LiftRestoredVariant` | taskyto/mutator.py:268-300 | with restoring elements, each list variant is the original list with one element replaced by one of its variants |
| `Mutator.LiftFails` | taskyto/mutator.py:172-193 | mutating a list fails exactly when mutating one of its elements fails |
| `Mutator.EnumDeletionsShape` | taskyto/mutator.py:175-184 | an enum whose `values` are missing or neither a list, a string nor an empty dict raises; otherwise it yields one variant per value (a list item, or a character of a string), each its values without that one, and the datum is left as it was |
| `Mutator.RequiredFlip` | taskyto/mutator.py:193-199 | flipping the required flag of a datum never raises |
| `Mutator.RequiredFlipShape` | taskyto/mutator.py:193-199 | a datum with required yields one variant whose flag is the negated truthiness and whose other keys are unchanged; the datum is left as it was exactly when its flag was a boolean |
| `Mutator.RequiredNotRestored` | taskyto/mutator.py:194-199 | a non-boolean required flag comes out of the operator as a boolean, so that module is not left as it was |
| `Mutator.SwapAnswers` | taskyto/mutator.py:224-227 | every question keeps its text while the answers of questions i and j are exchanged |
| `Mutator.SetText` | taskyto/mutator.py:328-332 | the response text is replaced when there is a response, and the execute element and whether there is a response are kept |
| `Mutator.SetTextRestores` | taskyto/mutator.py:310-326 | setting back the text read from an action gives that action again |
| `Mutator.FirstMatch` | taskyto/mutator.py:311 | a match found by the split pattern starts with an opening brace and ends with a closing one |
| `Mutator.Fragments` | taskyto/mutator.py:311 | splitting keeps the matches between the plain text, so there is an odd number of fragments and each odd position is a braced expression |
| `Mutator.FragmentsJoin` | taskyto/mutator.py:311 | joining the fragments gives back the text |
| `Mutator.RemovalsShape` | taskyto/mutator.py:312-318 | each removal variant is the join of the fragments without one braced expression, described by that expression |
| `Mutator.ExpressionRemovalVariant` | taskyto/mutator.py:303-319 | each DeleteDataFromResponse mutant is the module whose on-success text lost exactly one braced expression, the rest of the text kept around it |
| `Mutator.OnCallerMutantRefused` | taskyto/mutator.py:355-360 | the on-caller mutant of a direct response names no rephrase mode, and compiling a menu edge with it fails |
| `Mutator.RephraseVariantsShape` | taskyto/mutator.py:342-361 | each rephrase mutant keeps the text and names a mode the compiler accepts other than the current one; each mode is produced once exactly when the element does not already have it |
| `Mutator.RephrasingsShape` | taskyto/mutator.py:335-361 | a module whose action responds with an element gets one variant per corrected rephrase variant of that element, differing from the module only in that element, and is left as it was; any other module gets none |
| `Mutator.EnumStringDeletions` | taskyto/mutator.py:175-183 | an enum whose values are a string yields one variant per character, slicing that character out and naming it as the deleted value |
| `Mutator.EnumEmptyDictDeletions` | taskyto/mutator.py:175-184 | an enum whose values are an empty dict makes no variant and is left unchanged |
| `Mutator.EnumDatumRestores` | taskyto/mutator.py:184 | deleting enum values leaves each datum as it was found |
| `Mutator.RequiredDatumRestores` | taskyto/mutator.py:199 | flipping required twice leaves a datum with boolean flags as it was found |
| `Mutator.OperatorRestores` | taskyto/mutator.py:170-385 | every operator leaves the module as it found it, for ChangeRequiredData when its flags are booleans |
| `Mutator.QuestionDeletionsShape` | taskyto/mutator.py:202-213 | DeleteQuestionAnswer yields one mutant per question, the module without that question |
| `Mutator.ItemDeletionsShape` | taskyto/mutator.py:250-261 | DeleteItemTopModule yields one mutant per menu item, the menu without that item, described by its title |
| `Mutator.AnswerSwapsShape` | taskyto/mutator.py:216-234 | SwapQuestionAnswer yields one mutant per pair of questions, n(n-1)/2 in all, each keeping the questions and exchanging those two answers |
| `Mutator.FallbackDeletionShape` | taskyto/mutator.py:237-247 | DeleteFallback yields the menu without its fallback exactly when the fallback is truthy, and nothing otherwise |
| `Mutator.StepDeletionVariant` | taskyto/mutator.py:264-277 | each DeleteSequenceStep mutant is the menu with one sequence item missing one of its steps |
| `Mutator.StepSwapVariant` | taskyto/mutator.py:280-300 | each SwapSequenceStep mutant is the menu with two steps of one sequence item exchanged |
| `Mutator.MemorySwitchVariant` | taskyto/mutator.py:364-383 | each ChangeMemoryScope mutant is the menu with one sequence item switched to the other memory scope |
| `Mutator.MemorySwitch` | taskyto/mutator.py:364-377 | a sequence item gets exactly one variant, the item with the other memory scope, described by old scope, new scope and title; other items get none; the item is left as it was |
| `Mutator.VariantsFailures` | taskyto/mutator.py:170-385 | which operators raise: memory scope on a sequence module, required and enum deletion on a datum that is not a dictionary or an enum whose `values` are missing or neither a list, a string nor an empty dict, and no other |
| `Mutator.EnumDatumVariant` | taskyto/mutator.py:175-183 | each enum mutant of a datum removes one value (a list item or a character) from the values of one of its enum entries |
| `Mutator.EnumDeletionVariant` | taskyto/mutator.py:170-184 | each DeleteEnumDataValue mutant is the module with one value removed from one enum of one datum |
| `Mutator.RequiredDatumVariant` | taskyto/mutator.py:192-198 | each required mutant of a datum negates the boolean flag of one of its entries |
| `Mutator.RequiredFlipVariant` | taskyto/mutator.py:187-199 | each ChangeRequiredData mutant is the module with the required flag of one entry of one datum negated, described by the new value |
| `Mutator.FileRequests` | taskyto/mutator.py:180-212 | one persist request per variant of a module, in order, each naming the module file |
| `Mutator.RequestsRestore` | taskyto/mutator.py:172 | after an operator has gone through all modules, the modules are as before |
| `Mutator.RequestsFail` | taskyto/mutator.py:172 | an operator fails exactly when it fails on one of the modules |
| `Mutator.Requests` | taskyto/mutator.py:148-184 | the table left behind has one entry per module, under the same file names, in order |
| `Mutator.BasenameShape` | taskyto/mutator.py:160 | the base name is the part of the path after its last slash and holds no slash |
| `Mutator.Cap` | taskyto/mutator.py:153-155 | the number of mutants written is the number of requests, cut at max |
| `Mutator.Written` | taskyto/mutator.py:151-167 | the k-th written mutant goes to folder name_k+1 under the mutants folder, with the base name and the serialised module of the k-th request, up to max; writing fails exactly when a kept request does not serialise |
| `Mutator.WrittenRoundTrip` | taskyto/mutator.py:162 | each written mutant file loads back as the mutated module |
| `Mutator.MutationOperator.constructor` | taskyto/mutator.py:139-145 | a new operator starts at counter 1 with no mutant counted |
| `Mutator.MutationOperator.ValidWritten` | taskyto/mutator.py:151-167 | what the operator has written is exactly what its persist requests so far write |
| `Mutator.MutationOperator.Persist` | taskyto/mutator.py:151-167 | every request is counted; past max nothing is written; otherwise the next folder gets the serialised module and the counter advances, and a failing serialisation is the error |
| `Mutator.MutationOperator.PersistVariants` | taskyto/mutator.py:178-184 | persisting the variants of one module adds its requests in order and touches no other module entry |
| `Mutator.MutationOperator.PersistVariant` | taskyto/mutator.py:179-183 | one variant is put in the module table and persisted, other entries unchanged |
| `Mutator.MutationOperator.MutateFile` | taskyto/mutator.py:172-184 | mutating one module adds that module's requests and leaves the module as the operator leaves it |
| `Mutator.MutationOperator.Generate` | taskyto/mutator.py:171-184 | generate_mutants issues the requests of every module in table order, fails when a module fails, and leaves the table as the operator leaves it |
| `Mutator.LastModulesGet` | taskyto/mutator.py:399-404 | each yaml path maps to the last module parsed from it |
| `Mutator.LastModulesDistinct` | taskyto/mutator.py:399-404 | each yaml path appears once in the module table |
| `Mutator.RunOperatorBound` | taskyto/mutator.py:153-155 | one operator writes at most max mutants |
| `Mutator.RunAllBound` | taskyto/mutator.py:407-421 | all operators together write at most max mutants each |
| `Mutator.RunAllRestores` | taskyto/mutator.py:420-421 | every operator finds the modules as parsed when its flags are booleans |
| `Mutator.BuildTable` | taskyto/mutator.py:399-404 | the table built from the parsed files keeps the last module of each path |
| `Mutator.GenerateMutants` | taskyto/mutator.py:390-421 | the mutants written are those of all eleven operators run one after another over the module table, with the corrected rephrase modes (see Left out) |
| `MockedLlm.ReadToMessage` | tests/test_utils/__init__.py:18-33 | a mocked answer or module activation can be read back from the message it produces |
| `MockedLlm.ToMessageInjective` | tests/test_utils/__init__.py:18-33 | two different mocked answers produce different messages |
| `MockedLlm.AnswerGoesToConversationParser` | tests/test_utils/__init__.py:18-20 | a plain mocked answer says no tool is needed, so the runtime hands it to the conversation parser |
| `MockedLlm.LastMatch` | tests/test_utils/__init__.py:53-57 | the selected line is the last line that starts with a registered prefix |
| `MockedLlm.PossibleUnique` | tests/test_utils/__init__.py:49-66 | when one prefix fits the last matching line, the answer is the one registered for the stripped rest of that line, or the not-found exception |
| `MockedLlm.PossibleNoPrefix` | tests/test_utils/__init__.py:59-60 | with no line starting with a prefix the mock raises |
| `MockedLlm.MockedLLM.constructor` | tests/test_utils/__init__.py:38-40 | a new mock has no prefixes and no answers |
| `MockedLlm.MockedLLM.RegisterAnswer` | tests/test_utils/__init__.py:68-70 | ai_answer adds the prefix and maps the input to that plain answer |
| `MockedLlm.MockedLLM.RegisterActivation` | tests/test_utils/__init__.py:72-73 | module_activation maps the input to that activation and keeps the prefixes |
| `MockedLlm.MockedLLM.ListPrefixes` | tests/test_utils/__init__.py:54 | the prefixes are listed once each |
| `MockedLlm.MockedLLM.Call` | tests/test_utils/__init__.py:42-66 | calling the mock gives one of the answers its matching rule allows for the joined messages, or its exceptions |

Definitions with no contract of their own are stated by the lemmas and methods in the rows above:

- `Cli.IsTestFile`, `Cli.IsTestConfiguration`, `Cli.InTestFolder`: `Cli.ConfigurationIsNotTest`, `Cli.TestFileBySuffix`, `Cli.FolderTestsExactly`.
- `Cli.IsUserBeginning`: `Cli.BeginningAndGreeting`.
- `StateMachines.Escape`, `StateMachines.ToNodeId`: `StateMachines.EscapeRemovesBrackets`, `StateMachines.ToNodeIdOfState`, `StateMachines.ToNodeIdHasNoBrackets`.
- `StateMachines.TransitionForIn`, `StateMachines.Scan`: `StateMachines.TransitionForFound`, `StateMachines.InnerWins`, `StateMachines.OuterScanWhenInnerSilent`, `StateMachines.ScanFound`, `StateMachines.ScanFirstDecision`, `StateMachines.ScanNoDecision`.
- `StateMachines.InitialOf`, `StateMachines.AllTransitions`: `StateMachines.InitialOfFirst`, `StateMachines.AllTransitionsMembers`, `StateMachines.OwnTransitionsLast`, `StateMachines.NestedOrigin`.
- `Events.IsCompatible`: `Events.ClassTriggersPartition`, `Events.ActivationTriggerExactly`.
- `Events.HasPropertyValue`: `Events.GetPropertyValue`, `Events.FinishExtraAttribute`.
- `Prompts.MenuPrompt`: `Prompts.MenuPromptStart`, `Prompts.MenuPromptEnd`, `Prompts.MenuPromptOption`.
- `Prompts.QuestionAnsweringPrompt`: `Prompts.QuestionAnsweringPromptFrame`, `Prompts.QuestionAnsweringPromptBlock`.
- `Prompts.ToText`: `Prompts.ToTextAppend`, `Prompts.EnabledContentsExactly`.
- `Prompts.Placeholders`: `Prompts.PlaceholdersWellFormed`, `Prompts.NoBraceNoPlaceholders`, `Prompts.BracedName`.
- `Memories.Merge`: `Memories.ConversationMemory.AddMemory`, `Runtime.ExecutionState.UpdateMemory`.
- `Memories.CopyFrom`: `Memories.ConversationMemory.CopyMemoryFrom`, `Actions.CopyOnly`.
- `Memories.TextOf`: `Memories.TextOfConcat`, `Memories.TextOfFiltered`.
- `Memories.AddMessage`: `Memories.AddMessageByKind`, `Memories.OrdinaryOfAddMessage`.
- `Runtime.Step`, `Runtime.StepAsWritten`: `Runtime.StepPushesOne`, `Runtime.ParseFailureUnbound`, `Runtime.StepAgainstWritten`.
- `Runtime.Parse`: `Runtime.ParseDelegates`, `Runtime.ParseAfterLastMarker`.
- `Runtime.ToolsPrompt`, `Runtime.ToolNames`: `Runtime.ToolsPromptEmpty`, `Runtime.ToolsPromptEntries`, `Runtime.ToolNamesListsEach`.
- `Tasks.ExtractData`: `Tasks.ExtractDataOk`, `Tasks.ExtractDataOnly`, `Tasks.ExtractDataFails`.
- `Tasks.Resolve`: `Tasks.CollectProperty`, `Tasks.CompletesIffRequiredStored`.
- `Tasks.DataGatheringStep`: `Tasks.GatherData`, `Tasks.MalformedJsonAsksForAll`.
- `Tasks.AllMandatory`: `Tasks.AllMandatoryDataProvided`, `Tasks.CompletesIffRequiredStored`.
- `Tasks.MissingDataInstruction`: `Tasks.MissingDataInstructionEmpty`, `Tasks.InProgressInstruction`.
- `Mutator.Variants`: `Mutator.VariantsFailures`, `Mutator.OperatorRestores` and the per-operator shape and variant lemmas.
- `Mutator.EnumDeletions`: `Mutator.EnumDeletionsShape`, `Mutator.EnumStringDeletions`, `Mutator.EnumEmptyDictDeletions`.
- `Mutator.RephraseVariants`, `Mutator.Rephrasings`: `Mutator.RephraseVariantsShape`, `Mutator.RephrasingsShape`.
- `Mutator.RephraseVariantsAsWritten`: `Mutator.OnCallerMutantRefused`.
- `Mutator.RunOperator`, `Mutator.RunAll`: `Mutator.RunOperatorBound`, `Mutator.RunAllBound`, `Mutator.RunAllRestores`, `Mutator.GenerateMutants`.
- `Serialise.ReadModule`, `Serialise.ParseModules`, `Serialise.Norm`: `Serialise.MenuEntryRoundTrip`, `Serialise.MenuRoundTrip`, `Serialise.DataGatheringRoundTrip`, `Serialise.QuestionAnsweringRoundTrip`, `Mutator.WrittenRoundTrip`.
- `Spec.DataModelOf`: `Spec.ParseDataModel`, `Spec.DataModelConcat`, `Spec.PlainEntryIsRequired`.
- `Spec.IsDirectResponse`, `Spec.IsSimpleRephrase`, `Spec.IsInCallerRephrase`: `Spec.GetResponseElement`, `Transformer.MenuEdges`, `Mutator.RephraseVariantsShape`.
- `Actions.RunStep`, `Actions.MemoryAfter`: `Actions.ExecuteRunModule`, `Actions.ExecuteApplyLLM`, `Actions.ExecuteRunTool`, `Actions.ExecuteUpdateMemory`, `Actions.UpdateOnlyTouchesTarget`, `Actions.CopyAppendsFiltered`.
- `Actions.Effect` and its per-action parts: `Actions.Execute`, `Actions.EffectNotices`, `Actions.EffectAllNotices`, `Actions.EffectAllStops`, `Actions.PlainSayEffect`.
- `Generator.MenuTask`: `Generator.MenuTaskLists`, `Generator.MenuFallbackOnlyWhenSet`.
- `Generator.LanguagesPrompt`: `Generator.LanguageRules`.
- `Generator.Shape`: `Generator.ShapeHasOneLinePerProperty`, `Generator.ShapeFailsOnlyOnALine`, `Generator.ShapeErrorPersists`.
- `Transformer.Compiled`: `Transformer.StateMachineTransformer.VisitChatbotModel`, `Engine.ComputeStatemachine`.
- `Recording.RecordsOf`: `Recording.RecordsOfShape`, `Recording.RecordsErrorExtends`.

## Left out

Code outside the model:

- LLM calls, langchain parsing and prompt formatting. The chat LLM, the question-answering LLM, the rephraser, `ChatPromptTemplate` formatting and langchain's `ConvoOutputParser.parse` are foreign calls, so they are uninterpreted function fields of `Runtime.Oracles`. `run` hands the LLM a structured request (system template, human prompt, substitutions, stop sequences), not the rendered text.
- Code evaluation and type formatters. They are `Runtime.Oracles` fields too, because they run user code or date libraries.
- Retrieval-augmented modules (`RagRuntimeModule` and the rag loaders). They load PDFs and embeddings over the network.
- The langchain-agent engines, the server, the console channel and the loggers. They are I/O plumbing.
- Graph rendering (`to_visualization`, `fill_graph_`) and the debug prints. They only write files and the console.
- `compute_init_module`. It uses a networkx topological sort, so `Engine.ComputeStatemachine` takes the initial module as a parameter.
- YAML and file I/O: `parse_yaml`, `load_chatbot_model`, reading configurations, and the recorder's `yaml.dump`. `Serialise.ParseModules` models what the loader makes of an already-parsed document. It does not model the YAML text.
- The wall clock. `execute_with_input` measures and records a response time, which the model does not keep.
- Floating point. `LLMConfiguration.temperature` and `MatchStrategy.tolerance` are stored and never computed with, so they stay opaque `real` values.

Source files that are not part of this model:

- The taskyto versions of the state machine, the runtime, the memory, the generator and the prompts. Those parts cite `src/engine/...`. The engine and the tasks cite `taskyto/engine/custom/engine.py` and `taskyto/engine/custom/tasks.py`.
- `taskyto/spec.py`. The specification classes cite `src/spec.py`.

Assumptions about code that is not shown, and representation choices:

- `Runtime.PromptOf`: a runtime module's `prompt` is taken to be its presentation prompt followed by its task prompt. The generator passes those two, and the runtime class reads `prompt`.
- `Memories.Merge`: tasks call `add_data_message(text, data)` and read `.data`, but the memory class shown has no data field.
  - A memory piece therefore carries an optional dict.
  - `add_memory` takes the piece's dict when it has one.
  - `copy_memory_from` carries the source's dict with its messages.
- `Runtime.ExecutionState.SetData`: every runtime module gets the same `uuid4()` default id, because the default is evaluated once. `state.data` is therefore one shared slot, and the model has a single data slot.
- `Generator.AsciiLower`: `lower()` is applied to ASCII letters only. Unicode case mapping is not modelled.
- `Generator.ModuleGenerator.Generate`, `Transformer.StateMachineTransformer.Accept` and `Engine.CustomPromptEngine.Execute` take a `fuel` bound.
  - Python bounds the module visits by its recursion limit and does not bound the run loop.
  - When the fuel runs out, the result is `Err(RecursionLimit)`.
  - The properties proved say nothing about runs that need more fuel.
- `Runtime.ExecutionState.CopyMemory`: the `copy_memory` that `UpdateMemory` calls (taskyto/engine/custom/engine.py:127-128) is not part of this model's files. It is taken to get or create both buckets and then to call `copy_memory_from` (src/engine/common/memory.py:87-92) on the target with the source and the filter.
- `Spec.Module`: the `OpenEnded` case has no class in src/spec.py, whose module union (src/spec.py:279-281) has only menu, data-gathering, question-answering, sequence and action modules. Its fields are those the taskyto compiler reads when it visits an open-ended module (taskyto/engine/custom/engine.py:258-291).
- `Events.ToDict`: the `memory` of a `TaskFinishEvent` is serialised as a dict of each piece's dict (`Events.MemoriesDict`). Python places the memory objects themselves in the result (src/engine/custom/events.py:88-89), which has no counterpart among the model's JSON values.
- `Spec.GetSequenceModule`: `get_sequence_module` caches the module it builds on the item. The model recomputes the same value each time, so identity sharing is not modelled.
- `Actions.Execute`: a consuming `SayAction` overwrites its own `message` field.
  - The model returns the action as it stands after running, and the listeners are notified of that action.
  - The new message is not written back into the transition table. A consuming say overwrites it on every run, so nothing reads the stale value.
- Vertex identity. States are numbered, a transition stores the id of its target, and `Engine.CustomPromptEngine.ExecuteTransition` looks the target up in the compiler's registry.
  - The `KeyError` for an unregistered target cannot happen in Python.
  - `Transformer.Compiled` shows that it does not happen for a compiled machine either.
- `Transformer.StateMachineTransformer.CloseSequence`: the edge that leaves a sequence targets the composite state. Its machine knows that state by its id only, because the composite is not finished yet.
- `Engine.CustomPromptEngine.ExecuteTransition`: the recorder listener's effect is applied after the transition's action.
  - Inside a composite action, Python calls the listener after each inner action.
  - Only the recorder reads those calls, and it only appends. The recorded order is kept.
- `Engine.CustomPromptEngine`: the event trace that Python keeps in the recorder (`append_trace`) is a `trace` field of the engine.
- `Engine.ItemOf`: the recorder stores `str()` of a said message, so a non-string message appears as its Python rendering.
- `LegacyTasks.RunAsTool`: a first-generation menu or open-ended module has no `run_as_tool`. Its `NotImplementedError` is `Err(Raised(..))`.

Where the model uses the corrected halves of the findings below:

- `Runtime.RunWith`: the stack and the result are stated against `Runtime.StepAsWritten`. After a parse failure the model returns the corrected step's success, where the source raises an `UnboundLocalError`.
- `Runtime.Run`: the same as `Runtime.RunWith`, with the module's own human prompt.
- `Tasks.RunAsTool`: a menu or open-ended module runs through `Runtime.Run`, with the same corrected result after a parse failure.
- `Actions.RunStep`, `Actions.ExecuteRunModule`, `Actions.ExecuteApplyLLM`, `Actions.ExecuteRunTool`: they run the corrected `Runtime.Step`, and so do `Actions.Effect` and the engine built on it. A parse failure ends the step successfully instead of raising.
- `Transformer.StateMachineTransformer.VisitSequenceItem`: the composite is built from the corrected `Spec.GetSequenceModule`. A sequence item with `goback: false` therefore gets no back edges (taskyto/engine/custom/engine.py:341-369). In the source the item's flag is lost and the back edges are always wired.
- `Mutator.Rephrasings`: built on the corrected `Mutator.RephraseVariants`, so it produces an `in-caller` mutant where the source produces `on-caller`.
- `Mutator.GenerateMutants`: the `ChangeRephrase` mutants it writes are those of the corrected `Mutator.Rephrasings`.
A contract stated weaker than the source:

- `Tasks.ParseLLMOutput`: marker removal is stated for one leading marker (`Tasks.MarkedAnswer`), and nothing is claimed about a result free of markers. `replace` can join the text around a removed marker into a new one, so such a claim would be false.

Mutator:

- `Mutator.MutationOperator.Persist` abstracts the file operations.
  - It does not copy the chatbot folder (`copytree`).
  - It does not write the `__mutation__.txt` description.
  - The mutation is described by a `Mutation` value instead of its message text.
  - `persist` is always called with a single module, so it takes one.
- `Mutator.GenerateMutants` does not model the exit for a missing chatbot folder or the removal of an old mutants folder. It takes the parsed files in the given order, because `glob` order is unspecified.
- `Mutator.GenerateMutants`: when an operator raises part-way, Python has already written some mutants. The model returns only the error.
- `Mutator.MutationOperator.constructor` takes `max` as a parameter. The default of 10000 belongs to the command line.
- `Mutator.OperatorRestores` is weaker than "every operator restores the module": for `ChangeRequiredData` it requires boolean `required` flags. Python's double `not` turns any other flag into a boolean, as `Mutator.RequiredNotRestored` shows.
- `Mutator.EnumDeletions`: `values` that are a non-empty dict raise a `TypeError`, as slicing a dict does. Newer Pythons, where slices are hashable, raise a `KeyError` instead, and the model keeps the single `TypeError`.
- `Mutator.MemorySwitch`: the `if memory:` guard of `ChangeMemoryScope` always holds, because both memory scopes are non-empty strings. On a sequence module the description reads a `title` the module does not have, which the model returns as an error.

Mocked LLM:

- `MockedLlm.MockedLLM.Call`: the messages are reduced to their `content`, and the `stop` and `callbacks` arguments are ignored.
- `MockedLlm.MockedLLM.Call`: the order in which Python iterates a set is unspecified. The contract therefore allows the reply for any prefix that starts the deciding line, and any order of prefixes in the no-prefix message.
- `MockedLlm`: the `TestConfiguration` wiring the mock into the engine's configuration is not modelled. It is configuration plumbing.

## Findings

| source | as written | input that shows it | evidently intended | confidence | as-written member | corrected member |
|---|---|---|---|---|---|---|
| src/spec.py:66-70 | `get_sequence_module` builds the sequence module without passing the item's `goback`, so it takes the default `True` | a sequence item with `goback: false` | going back between steps is switched off when the item says so | not executed | `Spec.GetSequenceModuleAsWritten`, `Spec.GoBackIgnoredAsWritten` | `Spec.GetSequenceModule` |
| src/engine/custom/runtime.py:273-281 | after a parse failure the `TaskFinishEvent` is pushed and then `parsed_result` is read, which is unbound | an LLM reply that the output parser rejects | the step ends once the recovered message is pushed | not executed | `Runtime.StepAsWritten`, `Runtime.ParseFailureUnbound` | `Runtime.Step`, `Runtime.StepPushesOne` |
| taskyto/mutator.py:355-360 | `ChangeRephrase` produces an `on-caller` mutant, but the specification recognises `in-caller` or `in_caller` | a module whose `on_success` response is direct | the third mode is `in-caller`, so the mutant compiles | not executed | `Mutator.RephraseVariantsAsWritten`, `Mutator.OnCallerMutantRefused` | `Mutator.RephraseVariants`, `Mutator.RephraseVariantsShape` |
