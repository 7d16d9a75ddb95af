// `CustomPromptEngine`: the compiled state machine driven by the event stack. Each round pops the
// newest event (or none), looks up the transition for it at the current vertex, moves to the
// transition's target and runs its action; the first round without a transition ends the run.
module Engine {
  import opened Wrappers
  import opened Values
  import opened Events
  import opened StateMachines
  import opened Actions
  import Spec
  import Runtime
  import Recording
  import Transformer
  import Seqs

  /** The number of `record_output_interaction_`, the one listener the engine registers. */
  const Recorder: nat := 0

  // ----- The interaction recorder as a listener -----

  /** What `record_output_interaction_` records for one notification: a `SayAction` with a message. */
  function ItemOf(n: (nat, Action)): (r: seq<Recording.InteractionItem>)
    ensures |r| <= 1
    ensures r != [] <==> n.0 == Recorder && n.1.SayAction? && n.1.message.Some?
    ensures r != [] ==> r[0] == Recording.InteractionItem("chatbot", PyStr(n.1.message.value))
  {
    if n.0 == Recorder && n.1.SayAction? && n.1.message.Some? then
      [Recording.InteractionItem("chatbot", PyStr(n.1.message.value))]
    else []
  }

  /** The items the recorder listener appends for a run of notifications, in order. */
  function ChatbotItems(ns: seq<(nat, Action)>): seq<Recording.InteractionItem>
  {
    if ns == [] then [] else ChatbotItems(ns[..|ns| - 1]) + ItemOf(ns[|ns| - 1])
  }

  /** Recording two runs of notifications one after the other is recording their concatenation. */
  lemma {:induction false} ChatbotItemsAppend(a: seq<(nat, Action)>, b: seq<(nat, Action)>)
    ensures ChatbotItems(a + b) == ChatbotItems(a) + ChatbotItems(b)
    decreases |b|
  {
    if b == [] {
      assert a + b == a;
    } else {
      assert (a + b)[..|a + b| - 1] == a + b[..|b| - 1];
      ChatbotItemsAppend(a, b[..|b| - 1]);
    }
  }

  /** The recorder keeps only said messages: every item it appends is a chatbot item. */
  lemma {:induction false} ChatbotItemsKind(ns: seq<(nat, Action)>)
    ensures |ChatbotItems(ns)| <= |ns|
    ensures forall i :: 0 <= i < |ChatbotItems(ns)| ==> ChatbotItems(ns)[i].kind == "chatbot"
  {
    if ns != [] {
      ChatbotItemsKind(ns[..|ns| - 1]);
    }
  }

  /** What the recorder heard over two runs of notifications adds up to what it heard over both. */
  lemma RecordedExtend(items0: seq<Recording.InteractionItem>, items1: seq<Recording.InteractionItem>,
                       items2: seq<Recording.InteractionItem>, n0: seq<(nat, Action)>, n1: seq<(nat, Action)>,
                       n2: seq<(nat, Action)>)
    requires n0 <= n1 <= n2
    requires items1 == items0 + ChatbotItems(n1[|n0|..]) && items2 == items1 + ChatbotItems(n2[|n1|..])
    ensures items2 == items0 + ChatbotItems(n2[|n0|..])
  {
    Seqs.SuffixSplit(n0, n1, n2);
    ChatbotItemsAppend(n1[|n0|..], n2[|n1|..]);
    Seqs.Associative(items0, ChatbotItems(n1[|n0|..]), ChatbotItems(n2[|n1|..]));
  }

  /** The user messages of a recording, in order. */
  function UserMessages(items: seq<Recording.InteractionItem>): seq<string>
  {
    if items == [] then []
    else UserMessages(items[..|items| - 1]) + (if items[|items| - 1].kind == "user" then [items[|items| - 1].message] else [])
  }

  lemma {:induction false} UserMessagesAppend(a: seq<Recording.InteractionItem>, b: seq<Recording.InteractionItem>)
    ensures UserMessages(a + b) == UserMessages(a) + UserMessages(b)
    decreases |b|
  {
    if b == [] {
      assert a + b == a;
    } else {
      assert (a + b)[..|a + b| - 1] == a + b[..|b| - 1];
      UserMessagesAppend(a, b[..|b| - 1]);
    }
  }

  /** What the listener records holds no user message. */
  lemma {:induction false} NoUserMessages(ns: seq<(nat, Action)>)
    ensures UserMessages(ChatbotItems(ns)) == []
  {
    if ns != [] {
      NoUserMessages(ns[..|ns| - 1]);
      UserMessagesAppend(ChatbotItems(ns[..|ns| - 1]), ItemOf(ns[|ns| - 1]));
      if ItemOf(ns[|ns| - 1]) != [] {
        assert ItemOf(ns[|ns| - 1])[..0] == [];
      }
    }
  }

  // ----- Lookup facts about a compiled machine -----

  /** With `g` the only transition leaving `id`, and accepting the event, the scan finds it. */
  lemma {:induction false} ScanOnly(ts: seq<Transition<Action>>, id: nat, event: Option<Event>, g: Transition<Action>)
    requires g in ts && Accepts(g, id, event)
    requires forall t :: t in ts && t.source == id ==> t == g
    ensures Scan(ts, id, event) == Ok(Some(g))
  {
    if ts[0] != g {
      assert ts[0].source != id;
      assert forall t :: t in ts[1..] ==> t in ts;
      ScanOnly(ts[1..], id, event, g);
    }
  }

  /** At the start of a compiled machine, with no event, the lookup finds the greeting edge. */
  lemma StartLookup(m: Machine<Runtime.RuntimeModule, Action>, registry: map<nat, Vtx>, entry: Vtx, init: nat, greeting: Option<Action>)
    requires Transformer.Compiled(m, registry, entry, init, greeting)
    ensures TransitionForIn(m, Initial(init), None) == Ok(Some(Transition(init, entry.id, TriggerFor(None, greeting))))
  {
    var g := Transition(init, entry.id, TriggerFor(None, greeting));
    AllTransitionsMembers(m, g);
    ScanOnly(AllTransitions(m), init, None, g);
  }

  /** At the entry state, with no event, nothing happens: the only epsilon edge leaves `init`. */
  lemma EntryQuiet(m: Machine<Runtime.RuntimeModule, Action>, registry: map<nat, Vtx>, entry: Vtx, init: nat, greeting: Option<Action>)
    requires Transformer.Compiled(m, registry, entry, init, greeting)
    ensures TransitionForIn(m, entry, None) == Ok(None)
  {
    var ts := AllTransitions(m);
    forall j | 0 <= j < |ts| ensures !Decides(ts[j], entry.id, None) {
      assert ts[j] in ts;
    }
    ScanNoDecision(ts, entry.id, None);
  }

  // ----- The engine -----

  /** The event `execute` pops from a stack: its newest, or none when it is empty. */
  function Top(stack: seq<Event>): (r: Option<Event>)
    ensures r.Some? <==> stack != []
    ensures r.Some? ==> stack == Popped(stack) + [r.value]
  {
    if stack == [] then None else Some(stack[|stack| - 1])
  }

  /** The stack after that pop. */
  function Popped(stack: seq<Event>): seq<Event>
  {
    if stack == [] then [] else stack[..|stack| - 1]
  }

  /** What the trace gains from a round's event. */
  function Traced(event: Option<Event>): seq<Event>
  {
    if event.Some? then [event.value] else []
  }

  /** The output the greeting edge makes at the entry state: none when the user speaks first. */
  function GreetingOutput(userBegins: bool, greeting: string, entry: Vtx): seq<(Value, string)>
    requires !entry.Initial?
  {
    if userBegins then [] else [(VStr(greeting), entry.specModule.name)]
  }

  /** What the recorder holds after the greeting: the greeting as a chatbot item, unless the user speaks first. */
  function GreetingRecord(userBegins: bool, greeting: string): seq<Recording.InteractionItem>
  {
    if userBegins then [] else [Recording.InteractionItem("chatbot", greeting)]
  }

  /**
   * `CustomPromptEngine`. The compiled machine and its registry of states by id are fixed; `state`
   * is the execution state `start` creates; `trace` is the recorder's event trace.
   */
  class CustomPromptEngine {
    const machine: Machine<Runtime.RuntimeModule, Action>
    const registry: map<nat, Vtx>
    const userBegins: bool
    const greeting: string
    const oracles: Runtime.Oracles
    const recorder: Recording.RecordedInteraction
    ghost const entry: Vtx
    ghost const init: nat
    var state: Runtime.ExecutionState?<Vtx, Action>
    var trace: seq<Event>

    /** The machine is what the transformer promises for this greeting. */
    ghost predicate Valid()
    {
      Transformer.Compiled(machine, registry, entry, init, Transformer.Greeting(userBegins, greeting))
    }

    constructor(machine: Machine<Runtime.RuntimeModule, Action>, registry: map<nat, Vtx>, userBegins: bool, greeting: string,
                oracles: Runtime.Oracles, ghost entry: Vtx, ghost init: nat)
      requires Transformer.Compiled(machine, registry, entry, init, Transformer.Greeting(userBegins, greeting))
      ensures Valid() && fresh(recorder) && recorder.interactions == [] && state == null && trace == []
      ensures this.machine == machine && this.registry == registry && this.entry == entry && this.init == init
      ensures this.userBegins == userBegins && this.greeting == greeting && this.oracles == oracles
    {
      this.machine := machine;
      this.registry := registry;
      this.userBegins := userBegins;
      this.greeting := greeting;
      this.oracles := oracles;
      this.entry := entry;
      this.init := init;
      recorder := new Recording.RecordedInteraction();
      state := null;
      trace := [];
    }

    /**
     * `start`: a new execution state at the machine's `Initial`, with the recorder listening, then
     * `execute`. The first round takes the greeting edge into the entry state and says the greeting
     * (unless the user speaks first); the second finds nothing to do.
     */
    method Start(fuel: nat) returns (r: Result<()>)
      requires Valid()
      modifies this, recorder
      ensures fresh(state) && state.listeners == [Recorder]
      ensures recorder.interactions == old(recorder.interactions) + ChatbotItems(state.notified)
      ensures fuel >= 2 ==> r == Ok(()) && state.current == entry && state.eventStack == []
                            && state.outputs == GreetingOutput(userBegins, greeting, entry)
                            && recorder.interactions == old(recorder.interactions) + GreetingRecord(userBegins, greeting)
                            && trace == old(trace)
    {
      var first := InitialOf(machine.vertices);
      assert first == Ok(Initial(init));
      var s := new Runtime.ExecutionState<Vtx, Action>(first.value);
      s.AddActionListener(Recorder);
      state := s;
      ghost var last;
      r, last := Execute(fuel);
    }

    /** The greeting round's outcome, relative to the state before it. */
    ghost predicate Greeted(outputs: seq<(Value, string)>, items: seq<Recording.InteractionItem>, events: seq<Event>, notified: seq<(nat, Action)>)
      requires !entry.Initial?
      reads this, state, recorder
    {
      state != null && state.current == entry && state.eventStack == [] && state.listeners == [Recorder]
      && state.outputs == outputs + GreetingOutput(userBegins, greeting, entry)
      && recorder.interactions == items + GreetingRecord(userBegins, greeting)
      && trace == events && notified <= state.notified
    }

    /**
     * How a run ends: no transition leaves the current vertex for `last`, the round's event, which
     * is the newest of the trace; without an event, the stack was empty.
     */
    ghost predicate Stopped(last: Option<Event>)
      requires state != null
      reads this, state
    {
      TransitionForIn(machine, state.current, last) == Ok(None)
      && (last.None? ==> state.eventStack == [])
      && (last.Some? ==> |trace| > 0 && trace[|trace| - 1] == last.value)
    }

    /**
     * `execute`: rounds until one finds no transition; `last` is that round's event. `fuel` bounds
     * the number of rounds. Started at the machine's `Initial` with nothing to handle, the run takes
     * the greeting edge and stops at the entry state.
     */
    method Execute(fuel: nat) returns (r: Result<()>, ghost last: Option<Event>)
      requires state != null
      modifies this, state, recorder
      ensures state == old(state) && state.listeners == old(state.listeners)
      ensures old(state.notified) <= state.notified
      ensures recorder.interactions == old(recorder.interactions) + ChatbotItems(state.notified[|old(state.notified)|..])
      ensures r.Ok? ==> Stopped(last)
      ensures Valid() && old(state.current) == Initial(init) && old(state.eventStack) == [] && old(state.listeners) == [Recorder]
              && fuel >= 2 ==>
                r == Ok(()) && Greeted(old(state.outputs), old(recorder.interactions), old(trace), old(state.notified))
    {
      ghost var fromStart := Valid() && state.current == Initial(init) && state.eventStack == [] && state.listeners == [Recorder];
      ghost var taken := 0;
      var left := fuel;
      while true
        invariant state == old(state) && state.listeners == old(state.listeners)
        invariant old(state.notified) <= state.notified
        invariant recorder.interactions == old(recorder.interactions) + ChatbotItems(state.notified[|old(state.notified)|..])
        invariant fromStart ==> taken <= 1 && left + taken == fuel
        invariant fromStart && taken == 0 ==>
                    state.current == Initial(init) && state.eventStack == [] && state.outputs == old(state.outputs)
                    && recorder.interactions == old(recorder.interactions) && trace == old(trace)
        invariant fromStart && taken == 1 ==> Greeted(old(state.outputs), old(recorder.interactions), old(trace), old(state.notified))
        decreases left
      {
        if left == 0 {
          return Err(RecursionLimit), None;
        }
        ghost var before := state.notified;
        ghost var items := recorder.interactions;
        var stepped, event := Round(fromStart && taken == 0, fromStart && taken == 1);
        RecordedExtend(old(recorder.interactions), items, recorder.interactions, old(state.notified), before, state.notified);
        if stepped.Err? {
          return Err(stepped.error), event;
        }
        if !stepped.value {
          return Ok(()), event;
        }
        left := left - 1;
        taken := taken + 1;
      }
    }

    /**
     * One round of `execute` seen through the recorder. From the machine's start, the first round
     * takes the greeting edge to the entry state, and the second finds nothing to do there.
     */
    method Round(ghost greetingRound: bool, ghost entryRound: bool) returns (r: Result<bool>, ghost event: Option<Event>)
      requires state != null
      requires greetingRound ==> Valid() && state.current == Initial(init) && state.eventStack == [] && state.listeners == [Recorder]
      requires entryRound ==> Valid() && state.current == entry && state.eventStack == [] && state.listeners == [Recorder]
      modifies this, state, recorder
      ensures state == old(state) && state.listeners == old(state.listeners)
      ensures old(state.notified) <= state.notified
      ensures recorder.interactions == old(recorder.interactions) + ChatbotItems(state.notified[|old(state.notified)|..])
      ensures r.Ok? && !r.value ==> Stopped(event)
      ensures greetingRound ==> r == Ok(true) && Greeted(old(state.outputs), old(recorder.interactions), old(trace), old(state.notified))
      ensures entryRound ==>
                r == Ok(false) && state.current == old(state.current) && state.eventStack == [] && state.notified == old(state.notified)
                && state.outputs == old(state.outputs) && recorder.interactions == old(recorder.interactions) && trace == old(trace)
    {
      if greetingRound {
        StartLookup(machine, registry, entry, init, Transformer.Greeting(userBegins, greeting));
      }
      if entryRound {
        EntryQuiet(machine, registry, entry, init, Transformer.Greeting(userBegins, greeting));
      }
      ghost var before := state.notified;
      ghost var items := recorder.interactions;
      ghost var world := WorldOf(state);
      ghost var found, done, executed;
      r, event, found, done, executed := Step();
      if greetingRound {
        GreetingTaken(world, done, executed);
        GreetingStep(items, before);
      }
    }

    /** The greeting edge, taken from the machine's start, says the greeting at the entry state. */
    lemma GreetingTaken(w: World, done: Result<()>, executed: Option<Action>)
      requires Valid() && state != null && state.listeners == [Recorder]
      requires Taken(Transition(init, entry.id, TriggerFor(None, Transformer.Greeting(userBegins, greeting))), None,
                     Initial(init), w, done, executed)
      ensures done.Ok? && state.current == entry
      ensures WorldOf(state) ==
                if userBegins then w
                else w.(outputs := w.outputs + [(VStr(greeting), entry.specModule.name)],
                        notified := w.notified + Runtime.Notifications(state.listeners, SayAction(Some(VStr(greeting)), false)))
    {
      if !userBegins {
        PlainSayEffect(entry, state.listeners, Some(VStr(greeting)), None, oracles, w);
      }
    }

    /** The notifications and records of the greeting round. */
    lemma GreetingStep(items: seq<Recording.InteractionItem>, before: seq<(nat, Action)>)
      requires Valid() && state != null && state.listeners == [Recorder]
      requires var a := Transformer.Greeting(userBegins, greeting);
               if a.None? then state.notified == before
               else state.notified == before + NoticesOf(state.listeners, a.value) + Runtime.Notifications(state.listeners, a.value)
      ensures items + ChatbotItems(state.notified[|before|..]) == items + GreetingRecord(userBegins, greeting)
    {
      var a := Transformer.Greeting(userBegins, greeting);
      if a.Some? {
        var ns := Runtime.Notifications(state.listeners, a.value);
        assert state.notified[|before|..] == ns == [(Recorder, a.value)];
        assert ChatbotItems(ns) == ChatbotItems(ns[..0]) + ItemOf(ns[0]);
      } else {
        assert state.notified[|before|..] == [];
      }
    }

    /**
     * One round of `execute`: the newest event is popped (none when the stack is empty) and the
     * transition for it looked up at the current vertex. A lookup error fails; no transition ends
     * the run (`false`); otherwise the event joins the trace and the transition runs (`true`).
     */
    method Step() returns (r: Result<bool>, ghost event: Option<Event>, ghost found: Result<Option<Transition<Action>>>,
                           ghost done: Result<()>, ghost executed: Option<Action>)
      requires state != null
      modifies this, state, recorder
      ensures state == old(state) && state.listeners == old(state.listeners)
      ensures event == Top(old(state.eventStack)) && found == TransitionForIn(machine, old(state.current), event)
      ensures old(state.notified) <= state.notified
      ensures recorder.interactions == old(recorder.interactions) + ChatbotItems(state.notified[|old(state.notified)|..])
      ensures found.Err? ==> r == Err(found.error) && trace == old(trace)
      ensures found.Ok? ==> trace == old(trace) + Traced(event)
      ensures found.Err? || found == Ok(None) ==>
                state.current == old(state.current) && WorldOf(state) == old(WorldOf(state)).(eventStack := Popped(old(state.eventStack)))
      ensures found == Ok(None) ==> r == Ok(false)
      ensures found.Ok? && found.value.Some? ==>
                r == (if done.Ok? then Ok(true) else Err(done.error))
                && Taken(found.value.value, event, old(state.current), old(WorldOf(state)).(eventStack := Popped(old(state.eventStack))),
                         done, executed)
    {
      var popped := state.PopEvent();
      var ev := if popped.Ok? then Some(popped.value) else None;
      event := ev;
      done := Ok(());
      executed := None;
      var lookup := TransitionForIn(machine, state.current, ev);
      found := lookup;
      if lookup.Err? {
        return Err(lookup.error), event, found, done, executed;
      }
      if ev.Some? {
        trace := trace + [ev.value];
      }
      if lookup.value.None? {
        return Ok(false), event, found, done, executed;
      }
      var ran;
      ran, executed := ExecuteTransition(lookup.value.value, ev);
      done := ran;
      r := if ran.Ok? then Ok(true) else Err(ran.error);
    }

    /**
     * What running `t` on `event` did, from the vertex `from` and the world `before`: an
     * unregistered target fails and changes nothing; otherwise the current vertex is the target.
     * Without an action nothing else changes; with one, the state is what `Effect` gives for the
     * action at the target, followed on success by the notification of the action as it ran.
     */
    ghost predicate Taken(t: Transition<Action>, event: Option<Event>, from: Vtx, before: World, r: Result<()>,
                          executed: Option<Action>)
      reads this, state
      requires state != null
    {
      if t.target !in registry then
        r == Err(KeyError("target")) && executed.None? && state.current == from && WorldOf(state) == before
      else
        state.current == registry[t.target]
        && if t.trigger.action.None? then r == Ok(()) && executed.None? && WorldOf(state) == before
           else
             var out := Effect(registry[t.target], state.listeners, t.trigger.action.value, event, oracles, before);
             if out.result.Ok? then
               r == Ok(()) && executed == Some(out.result.value)
               && WorldOf(state) == Notified(out.world, state.listeners, out.result.value)
             else r == Err(out.result.error) && executed.None? && WorldOf(state) == out.world
    }

    /**
     * `execute_transition`: the current vertex becomes the transition's target (looked up by id
     * among the registered states), then its action, if any, runs and the listeners are notified
     * of it; the recorder appends what it heard.
     */
    method ExecuteTransition(t: Transition<Action>, event: Option<Event>) returns (r: Result<()>, ghost executed: Option<Action>)
      requires state != null
      modifies state, recorder
      ensures state.listeners == old(state.listeners)
      ensures old(state.notified) <= state.notified
      ensures recorder.interactions == old(recorder.interactions) + ChatbotItems(state.notified[|old(state.notified)|..])
      ensures Taken(t, event, old(state.current), old(WorldOf(state)), r, executed)
    {
      executed := None;
      if t.target !in registry {
        return Err(KeyError("target")), executed;
      }
      state.current := registry[t.target];
      if t.trigger.action.None? {
        return Ok(()), executed;
      }
      var from := |state.notified|;
      ghost var before := WorldOf(state);
      EffectNotices(state.current, state.listeners, t.trigger.action.value, event, oracles, before);
      var ran := Actions.Execute(state, t.trigger.action.value, event, oracles);
      if ran.Ok? {
        executed := Some(ran.value);
        state.NotifyActionListeners(ran.value);
      }
      Record(from);
      r := if ran.Ok? then Ok(()) else Err(ran.error);
    }

    /** The recorder listener's appends for the notifications from number `from` on, one at a time. */
    method Record(from: nat)
      requires state != null && from <= |state.notified|
      modifies recorder
      ensures recorder.interactions == old(recorder.interactions) + ChatbotItems(state.notified[from..])
    {
      var ns := state.notified[from..];
      var i := 0;
      while i < |ns|
        invariant 0 <= i <= |ns|
        invariant recorder.interactions == old(recorder.interactions) + ChatbotItems(ns[..i])
      {
        var n := ns[i];
        assert ns[..i + 1][..i] == ns[..i];
        assert ChatbotItems(ns[..i + 1]) == ChatbotItems(ns[..i]) + ItemOf(n);
        Seqs.Associative(old(recorder.interactions), ChatbotItems(ns[..i]), ItemOf(n));
        if n.0 == Recorder && n.1.SayAction? && n.1.message.Some? {
          recorder.Append("chatbot", PyStr(n.1.message.value));
        } else {
          assert ItemOf(n) == [];
        }
        i := i + 1;
      }
      assert ns[..i] == ns;
    }

    /**
     * `execute_with_input`: the input is recorded as a user item and pushed as a `UserInput`
     * event, then `execute` runs.
     */
    method ExecuteWithInput(input: string, fuel: nat) returns (r: Result<()>)
      requires state != null
      modifies this, state, recorder
      ensures state == old(state) && state.listeners == old(state.listeners) && old(state.notified) <= state.notified
      ensures recorder.interactions == old(recorder.interactions) + [Recording.InteractionItem("user", input)]
                                       + ChatbotItems(state.notified[|old(state.notified)|..])
      ensures UserMessages(recorder.interactions) == UserMessages(old(recorder.interactions)) + [input]
    {
      recorder.Append("user", input);
      state.PushEvent(UserInput(input));
      ghost var last;
      r, last := Execute(fuel);
      NoUserMessages(state.notified[|old(state.notified)|..]);
      UserMessagesAppend(old(recorder.interactions), [Recording.InteractionItem("user", input)]);
      UserMessagesAppend(old(recorder.interactions) + [Recording.InteractionItem("user", input)], ChatbotItems(state.notified[|old(state.notified)|..]));
      assert UserMessages([Recording.InteractionItem("user", input)]) == [input];
    }

    /**
     * `run_all`: `start`, then each input of the channel in turn (the channel is given as the inputs
     * it yields before `None`). Every input is recorded as a user message, in order.
     */
    method RunAll(inputs: seq<string>, fuel: nat) returns (r: Result<()>)
      requires Valid()
      modifies this, recorder
      ensures r.Ok? ==> UserMessages(recorder.interactions) == UserMessages(old(recorder.interactions)) + inputs
    {
      r := Start(fuel);
      if r.Err? {
        return;
      }
      NoUserMessages(state.notified);
      UserMessagesAppend(old(recorder.interactions), ChatbotItems(state.notified));
      r := Feed(inputs, fuel);
    }

    /** The input loop of `run_all`: each input in turn; the first failing one ends the loop. */
    method Feed(inputs: seq<string>, fuel: nat) returns (r: Result<()>)
      requires state != null
      modifies this, state, recorder
      ensures r.Ok? ==> UserMessages(recorder.interactions) == UserMessages(old(recorder.interactions)) + inputs
    {
      var i := 0;
      while i < |inputs|
        invariant 0 <= i <= |inputs| && state == old(state)
        invariant UserMessages(recorder.interactions) == UserMessages(old(recorder.interactions)) + inputs[..i]
      {
        ghost var pre := UserMessages(recorder.interactions);
        var done := ExecuteWithInput(inputs[i], fuel);
        if done.Err? {
          return done;
        }
        assert UserMessages(recorder.interactions) == pre + [inputs[i]];
        Seqs.Associative(UserMessages(old(recorder.interactions)), inputs[..i], [inputs[i]]);
        assert inputs[..i + 1] == inputs[..i] + [inputs[i]];
        i := i + 1;
      }
      assert inputs[..i] == inputs;
      r := Ok(());
    }
  }

  /**
   * `compute_statemachine`: the transformer's machine for the chatbot model, with the registry of its
   * states; it is compiled for the configuration's greeting and entered at the initial module.
   */
  method ComputeStatemachine(modules: seq<Spec.Module>, languages: string, initial: Spec.Module, greeting: string,
                             userBegins: bool, fuel: nat)
    returns (r: Result<(Machine<Runtime.RuntimeModule, Action>, map<nat, Vtx>)>, ghost entry: Vtx, ghost init: nat)
    ensures r.Ok? ==> Transformer.Compiled(r.value.0, r.value.1, entry, init, Transformer.Greeting(userBegins, greeting))
                      && entry.specModule == initial
  {
    var transformer := new Transformer.StateMachineTransformer(modules, languages, initial, greeting, userBegins);
    var m;
    m, entry, init := transformer.VisitChatbotModel(fuel);
    if m.Err? {
      return Err(m.error), entry, init;
    }
    r := Ok((m.value, transformer.registry));
  }

  /** `CustomPromptEngine(chatbot_model, configuration)`: the machine is compiled first; a compile error fails. */
  method NewEngine(modules: seq<Spec.Module>, languages: string, initial: Spec.Module, greeting: string, userBegins: bool,
                   oracles: Runtime.Oracles, fuel: nat) returns (r: Result<CustomPromptEngine>)
    ensures r.Ok? ==> r.value.Valid() && fresh(r.value) && r.value.state == null && r.value.entry.specModule == initial
                      && r.value.userBegins == userBegins && r.value.greeting == greeting
  {
    var compiled, entry, init := ComputeStatemachine(modules, languages, initial, greeting, userBegins, fuel);
    if compiled.Err? {
      return Err(compiled.error);
    }
    var engine := new CustomPromptEngine(compiled.value.0, compiled.value.1, userBegins, greeting, oracles, entry, init);
    r := Ok(engine);
  }
}
