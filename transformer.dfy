// The compiler from a chatbot's modules to the conversation state machine
// (`StateMachineTransformer`): one state per module with its two self-loops, menu and open-ended
// items wired to their children, and each sequence item folded into a composite state whose steps
// hand over to one another.
module Transformer {
  import opened Wrappers
  import opened Values
  import opened Events
  import opened StateMachines
  import opened Actions
  import Spec
  import Runtime
  import Generator

  type Edges = seq<Transition<Action>>

  type Graph = StateMachine<Runtime.RuntimeModule, Action>

  // ----- Edges -----

  /** An edge on `on` that runs `actions` in order. */
  function Edge(src: Vtx, tgt: Vtx, on: TriggerEvent, actions: seq<Action>): Transition<Action>
  {
    Transition(src.id, tgt.id, Trigger(Some(on), Some(CompositeAction(actions))))
  }

  /** `UpdateMemory(module)`: the event's content goes into the module's memory. */
  function Mem(m: Spec.Module): Action
  {
    UpdateMemory(m, None, None)
  }

  /** The actions a transition runs, when it runs a composite action. */
  function ActionsOf(t: Transition<Action>): seq<Action>
  {
    if t.trigger.action.Some? && t.trigger.action.value.CompositeAction? then t.trigger.action.value.actions else []
  }

  /** The edge that activates `tgt` from `src`: run the target as a tool, then record into its memory. */
  function Activation(src: Vtx, tgt: Vtx): (t: Transition<Action>)
    requires !tgt.Initial?
    ensures t.source == src.id && t.target == tgt.id && t.trigger.event.Some?
    ensures ActionsOf(t) == [RunTool(tgt.runtime), Mem(tgt.specModule)]
    ensures forall e :: IsCompatible(t.trigger.event.value, Some(e)) <==>
                          e.ActivateModule? && e.activated.name == tgt.specModule.name
  {
    Edge(src, tgt, ActivateModuleType(tgt.specModule), [RunTool(tgt.runtime), Mem(tgt.specModule)])
  }

  /**
   * The two self-loops every new state gets: a user input runs the module (with the prompt
   * sections its kind disables for input) and records it; an AI response is recorded and said.
   */
  function SelfLoops(v: Vtx): (r: Edges)
    requires !v.Initial?
    ensures |r| == 2 && r[0].source == r[0].target == r[1].source == r[1].target == v.id
    ensures r[0].trigger.event == Some(UserInputEventType) && r[1].trigger.event == Some(AIResponseEventType)
    ensures ActionsOf(r[0]) == [RunModuleAction(v.runtime, Runtime.PromptsDisabled(v.runtime.kind, "input")), Mem(v.specModule)]
    ensures ActionsOf(r[1]) == [Mem(v.specModule), SayAction(None, true)]
  {
    [Edge(v, v, UserInputEventType, [RunModuleAction(v.runtime, Runtime.PromptsDisabled(v.runtime.kind, "input")), Mem(v.specModule)]),
     Edge(v, v, AIResponseEventType, [Mem(v.specModule), SayAction(None, true)])]
  }

  /**
   * The self-loops a data-gathering state adds: a task in progress is recorded and answered by the
   * module's LLM without tools; its own activation re-runs it as a tool.
   */
  function DataLoops(v: Vtx): (r: Edges)
    requires !v.Initial?
    ensures |r| == 2 && r[0].source == r[0].target == r[1].source == r[1].target == v.id
    ensures r[0].trigger.event == Some(TaskInProgressEventType)
    ensures ActionsOf(r[0]) == [Mem(v.specModule), ApplyLLM(v.runtime, false, [])]
    ensures r[1] == Activation(v, v)
  {
    [Edge(v, v, TaskInProgressEventType, [Mem(v.specModule), ApplyLLM(v.runtime, false, [])]),
     Activation(v, v)]
  }

  /** A user input or an AI response at a state is taken by its self-loops, other events are not. */
  lemma SelfLoopsReact(v: Vtx, e: Event)
    requires !v.Initial?
    ensures Scan(SelfLoops(v), v.id, Some(e)) ==
              if e.UserInput? then Ok(Some(SelfLoops(v)[0]))
              else if e.AIResponseEvent? then Ok(Some(SelfLoops(v)[1]))
              else Ok(None)
  {
    var ts := SelfLoops(v);
    assert ts[1..][0] == ts[1] && ts[1..][1..] == [];
    assert Scan(ts[1..][1..], v.id, Some(e)) == Ok(None);
  }

  /** A data-gathering state's extra loops take a task in progress and its own activation. */
  lemma DataLoopsReact(v: Vtx, e: Event)
    requires !v.Initial?
    ensures Scan(DataLoops(v), v.id, Some(e)) ==
              if e.TaskInProgress? then Ok(Some(DataLoops(v)[0]))
              else if e.ActivateModule? && e.activated.name == v.specModule.name then Ok(Some(DataLoops(v)[1]))
              else Ok(None)
  {
    var ts := DataLoops(v);
    assert ts[1..][0] == ts[1] && ts[1..][1..] == [];
    assert Scan(ts[1..][1..], v.id, Some(e)) == Ok(None);
  }

  // ----- Menus -----

  /** The response a child's result gets back at the menu when the child's module names none. */
  const DefaultResponse := Spec.ResponseElement("{{result}}", None)

  /** The response element of a child module's `on_success` action, or the default one. */
  function ResponseOf(m: Spec.Module): (r: Result<Spec.ResponseElement>)
    ensures !(Spec.HasOnSuccess(m) && m.onSuccess.Some?) ==> r == Ok(DefaultResponse)
    ensures Spec.HasOnSuccess(m) && m.onSuccess.Some? ==>
              (r.Ok? <==> m.onSuccess.value.response.Some?)
              && (r.Ok? ==> Spec.GetResponseElement(m.onSuccess.value) == Some(r.value))
  {
    if Spec.HasOnSuccess(m) && m.onSuccess.Some? then
      match Spec.GetResponseElement(m.onSuccess.value)
      case None => Err(AttributeError("is_direct_response"))
      case Some(e) => Ok(e)
    else Ok(DefaultResponse)
  }

  /** The item refers to a menu module. */
  predicate ChildIsMenu(modules: seq<Spec.Module>, item: Spec.Item)
  {
    item.ToolItem? && Spec.Resolve(modules, item.reference).Ok? && Spec.Resolve(modules, item.reference).value.Menu?
  }

  /**
   * The two edges between a menu state and one child: the child's activation, and its finish back
   * at the menu. A direct or simply rephrased response says the child's result unless the child is
   * itself a menu; an in-caller rephrase records both memories and lets the menu's LLM answer. Below
   * the top menu both edges pass the finish on. Any other rephrase mode is refused.
   */
  function MenuEdges(parent: Vtx, child: Vtx, isTop: bool, childIsMenu: bool, response: Spec.ResponseElement): (r: Result<Edges>)
    requires !parent.Initial? && !child.Initial?
    ensures r.Err? <==>
              !(Spec.IsDirectResponse(response) || Spec.IsSimpleRephrase(response) || Spec.IsInCallerRephrase(response))
    ensures r.Err? ==> r.error.ValueError?
    ensures r.Ok? ==> |r.value| == 2
                      && r.value[0].source == parent.id && r.value[0].target == child.id
                      && r.value[0].trigger.event == Some(ActivateModuleType(child.specModule))
                      && r.value[1].source == child.id && r.value[1].target == parent.id
                      && r.value[1].trigger.event == Some(TaskFinishEventEventType)
    ensures r.Ok? && !Spec.IsInCallerRephrase(response) ==>
              var back := ActionsOf(r.value[1]);
              r.value[0] == Activation(parent, child)
              && (SayAction(None, true) in back <==> !childIsMenu)
              && (PushEvent(Finish(None)) in back <==> !isTop)
              && |back| == (if childIsMenu then 0 else 1) + (if isTop then 0 else 1)
    ensures r.Ok? && Spec.IsInCallerRephrase(response) ==>
              var there := ActionsOf(r.value[0]);
              var back := ActionsOf(r.value[1]);
              |there| == 3 + (if isTop then 0 else 1) && |back| == 2 + (if isTop then 0 else 1)
              && there[..3] == [Mem(parent.specModule), RunTool(child.runtime), Mem(child.specModule)]
              && back[..2] == [Mem(parent.specModule), ApplyLLM(parent.runtime, false, [])]
              && (!isTop ==> there[3] == PushEvent(Finish(None)) && back[2] == PushEvent(Finish(None)))
  {
    var passOn := if isTop then [] else [PushEvent(Finish(None))];
    if Spec.IsDirectResponse(response) || Spec.IsSimpleRephrase(response) then
      // Python writes the condition as (top and not menu) or (not top and not menu).
      var say := if !childIsMenu then [SayAction(None, true)] else [];
      Ok([Activation(parent, child), Edge(child, parent, TaskFinishEventEventType, say + passOn)])
    else if Spec.IsInCallerRephrase(response) then
      Ok([Edge(parent, child, ActivateModuleType(child.specModule),
               [Mem(parent.specModule), RunTool(child.runtime), Mem(child.specModule)] + passOn),
          Edge(child, parent, TaskFinishEventEventType, [Mem(parent.specModule), ApplyLLM(parent.runtime, false, [])] + passOn)])
    else Err(ValueError("Unsupported response type"))
  }

  /** The two edges between an open-ended conversation state and one child. */
  function OpenEdges(parent: Vtx, child: Vtx): (r: Edges)
    requires !parent.Initial? && !child.Initial?
    ensures |r| == 2 && r[0] == Activation(parent, child)
    ensures r[1].source == child.id && r[1].target == parent.id && r[1].trigger.event == Some(TaskFinishEventEventType)
    ensures ActionsOf(r[1]) == [Mem(parent.specModule), ApplyLLM(parent.runtime, false, [])]
  {
    [Activation(parent, child),
     Edge(child, parent, TaskFinishEventEventType, [Mem(parent.specModule), ApplyLLM(parent.runtime, false, [])])]
  }

  // ----- Sequences -----

  /**
   * The copies a full-scope step hands on: one into each module of `ms` from `from`, inserted at the
   * front one after the other, so the last module comes first.
   */
  function Copies(ms: seq<Spec.Module>, from: Spec.Module): (r: seq<Action>)
    ensures |r| == |ms|
    ensures forall k :: 0 <= k < |ms| ==> r[k] == UpdateMemory(ms[|ms| - 1 - k], Some(from), Some(SequenceCopied))
  {
    if ms == [] then []
    else [UpdateMemory(ms[|ms| - 1], Some(from), Some(SequenceCopied))] + Copies(ms[..|ms| - 1], from)
  }

  /**
   * The actions of the edge from step `idx - 1` (`last`, module `lastModule`) to step `idx`
   * (`state`) on the previous step's finish: record the finish into the previous step, copy it
   * into this and every later step when the sequence shares memory, say the result, run the new
   * step as a tool and record into it.
   */
  function StepActions(scope: Spec.MemoryScope, resolved: seq<Spec.Module>, idx: nat, last: Vtx, lastModule: Spec.Module, state: Vtx): (r: seq<Action>)
    requires idx <= |resolved| && !last.Initial? && !state.Initial?
    ensures |r| >= 4 && r[0] == Mem(last.specModule)
    ensures r[|r| - 3..] == [SayAction(None, true), RunTool(state.runtime), Mem(state.specModule)]
    ensures |r| == 4 + (if scope == Spec.Full then |resolved| - idx else 0)
    ensures scope == Spec.Full ==>
              forall k :: idx <= k < |resolved| ==> UpdateMemory(resolved[k], Some(lastModule), Some(SequenceCopied)) in r
    ensures scope != Spec.Full ==> forall a :: a in r && a.UpdateMemory? ==> a.copyFrom.None?
  {
    var copies := if scope == Spec.Full then Copies(resolved[idx..], lastModule) else [];
    assert scope == Spec.Full ==> forall k :: idx <= k < |resolved| ==> copies[|resolved| - 1 - k] == UpdateMemory(resolved[k], Some(lastModule), Some(SequenceCopied));
    [Mem(last.specModule)] + copies + [SayAction(None, true), RunTool(state.runtime), Mem(state.specModule)]
  }

  /** The edge on the finish of step `idx - 1` into step `idx`. */
  function ForwardEdge(scope: Spec.MemoryScope, resolved: seq<Spec.Module>, idx: nat, last: Vtx, state: Vtx): Transition<Action>
    requires 1 <= idx <= |resolved| && !last.Initial? && !state.Initial?
  {
    Edge(last, state, TaskFinishEventEventType, StepActions(scope, resolved, idx, last, resolved[idx - 1], state))
  }

  /** The go-back edges of a step: one activation of each step so far, itself included. */
  function BackEdges(state: Vtx, previous: seq<Vtx>): (r: Edges)
    requires forall k :: 0 <= k < |previous| ==> !previous[k].Initial?
    ensures |r| == |previous| && forall k :: 0 <= k < |previous| ==> r[k] == Activation(state, previous[k])
  {
    seq(|previous|, k requires 0 <= k < |previous| => Activation(state, previous[k]))
  }

  /** The edge that leaves the sequence when its last step finishes: say the result, run the sequence as a tool. */
  function FinalEdge(last: Vtx, composite: nat, rm: Runtime.RuntimeModule): Transition<Action>
  {
    Transition(last.id, composite, Trigger(Some(TaskFinishEventEventType), Some(CompositeAction([SayAction(None, true), RunTool(rm)]))))
  }

  /** The runtime modules of the steps a step may go back to. */
  function RuntimesOf(vs: seq<Vtx>): (r: seq<Runtime.RuntimeModule>)
    requires forall k :: 0 <= k < |vs| ==> !vs[k].Initial?
    ensures |r| == |vs| && forall k :: 0 <= k < |vs| ==> r[k] == vs[k].runtime
  {
    seq(|vs|, k requires 0 <= k < |vs| => vs[k].runtime)
  }

  predicate AllStates(vs: seq<Vtx>)
  {
    forall k :: 0 <= k < |vs| ==> vs[k].State?
  }

  /** The edges step `idx` adds to the sequence's machine. */
  function StepEdges(seqModule: Spec.Module, resolved: seq<Spec.Module>, idx: nat, init: Vtx, last: Vtx,
                     previous: seq<Vtx>, state: Vtx): Edges
    requires seqModule.Sequence? && idx < |resolved| && state.State? && AllStates(previous)
    requires idx > 0 ==> last.State?
  {
    if idx == 0 then [Activation(init, state)]
    else (if seqModule.goback then BackEdges(state, previous + [state]) else [])
         + [ForwardEdge(seqModule.memory, resolved, idx, last, state)]
  }

  function ForwardAt(scope: Spec.MemoryScope, resolved: seq<Spec.Module>, steps: seq<Vtx>, k: nat): Transition<Action>
    requires 1 <= k < |steps| <= |resolved| && AllStates(steps)
  {
    ForwardEdge(scope, resolved, k, steps[k - 1], steps[k])
  }

  function BackAt(steps: seq<Vtx>, k: nat, j: nat): Transition<Action>
    requires j < |steps| && k < |steps| && AllStates(steps)
  {
    Activation(steps[k], steps[j])
  }

  /**
   * The wiring of a sequence's steps so far: the first step is entered on its activation from the
   * sequence's `Initial`; each later step follows its predecessor's finish; with go-back, every later
   * step can activate each step up to itself.
   */
  predicate StepsWired(ts: Edges, goback: bool, scope: Spec.MemoryScope, resolved: seq<Spec.Module>, init: Vtx, steps: seq<Vtx>)
    requires |steps| <= |resolved| && AllStates(steps)
  {
    (|steps| > 0 ==> Activation(init, steps[0]) in ts)
    && (forall k :: 1 <= k < |steps| ==> ForwardAt(scope, resolved, steps, k) in ts)
    && (goback ==> forall k, j :: 1 <= k < |steps| && 0 <= j <= k ==> BackAt(steps, k, j) in ts)
  }

  lemma PrefixMembers(a: Edges, b: Edges)
    requires a <= b
    ensures forall x :: x in a ==> x in b
  {
    forall x | x in a ensures x in b {
      var i :| 0 <= i < |a| && a[i] == x;
      assert b[i] == x;
    }
  }

  lemma SuffixMembers(a: Edges, b: Edges)
    requires |a| <= |b| && b[|b| - |a|..] == a
    ensures forall x :: x in a ==> x in b
  {
    forall x | x in a ensures x in b {
      var i :| 0 <= i < |a| && a[i] == x;
      assert b[|b| - |a| + i] == b[|b| - |a|..][i];
    }
  }

  /** One more step wired by its own edges keeps the earlier steps' wiring. */
  lemma {:induction false} StepsWiredSnoc(ts: Edges, ts': Edges, seqModule: Spec.Module, resolved: seq<Spec.Module>,
                                          init: Vtx, steps: seq<Vtx>, state: Vtx)
    requires seqModule.Sequence? && |steps| < |resolved| && AllStates(steps) && state.State?
    requires StepsWired(ts, seqModule.goback, seqModule.memory, resolved, init, steps)
    requires ts <= ts'
    requires var stepEdges := StepEdges(seqModule, resolved, |steps|, init, if steps == [] then init else steps[|steps| - 1],
                                  if seqModule.goback then steps else [], state);
             |stepEdges| <= |ts'| && ts'[|ts'| - |stepEdges|..] == stepEdges
    ensures StepsWired(ts', seqModule.goback, seqModule.memory, resolved, init, steps + [state])
  {
    var n := |steps|;
    var steps' := steps + [state];
    var last := if steps == [] then init else steps[n - 1];
    var previous := if seqModule.goback then steps else [];
    var stepEdges := StepEdges(seqModule, resolved, n, init, last, previous, state);
    PrefixMembers(ts, ts');
    SuffixMembers(stepEdges, ts');
    assert AllStates(steps');
    if n == 0 {
      assert stepEdges[0] == Activation(init, state);
      assert Activation(init, steps'[0]) in ts';
    } else {
      assert steps'[0] == steps[0];
      forall k | 1 <= k < n + 1 ensures ForwardAt(seqModule.memory, resolved, steps', k) in ts' {
        if k < n {
          assert ForwardAt(seqModule.memory, resolved, steps', k) == ForwardAt(seqModule.memory, resolved, steps, k);
        } else {
          assert stepEdges[|stepEdges| - 1] == ForwardAt(seqModule.memory, resolved, steps', k);
        }
      }
      if seqModule.goback {
        var back := BackEdges(state, previous + [state]);
        assert stepEdges == back + [ForwardEdge(seqModule.memory, resolved, n, last, state)];
        forall k, j | 1 <= k < n + 1 && 0 <= j <= k ensures BackAt(steps', k, j) in ts' {
          if k < n {
            assert BackAt(steps', k, j) == BackAt(steps, k, j);
          } else {
            assert BackAt(steps', k, j) == back[j] == stepEdges[j];
          }
        }
      }
    }
  }

  /** The steps so far are for the first resolved modules, in order. */
  predicate StepsFollow(steps: seq<Vtx>, resolved: seq<Spec.Module>)
  {
    |steps| <= |resolved| && AllStates(steps) && forall k :: 0 <= k < |steps| ==> steps[k].specModule == resolved[k]
  }

  lemma StepsFollowSnoc(steps: seq<Vtx>, resolved: seq<Spec.Module>, state: Vtx)
    requires StepsFollow(steps, resolved) && |steps| < |resolved| && state.State? && state.specModule == resolved[|steps|]
    ensures StepsFollow(steps + [state], resolved)
  {
  }

  /**
   * What a sequence item compiles to: a composite whose inner machine starts at an `Initial`, whose
   * steps are the resolved modules in order and wired as `StepsWired` says, and whose last edge
   * leaves the sequence when the last step (or, for no steps, the `Initial`) finishes.
   */
  predicate SequenceBuilt(v: Vtx, resolved: seq<Spec.Module>, steps: seq<Vtx>)
    requires v.Composite? && v.specModule.Sequence?
  {
    |steps| == |resolved| && StepsFollow(steps, resolved)
    && |v.inner.vertices| > 0 && v.inner.vertices[0].Initial?
    && StepsWired(v.inner.transitions, v.specModule.goback, v.specModule.memory, resolved, v.inner.vertices[0], steps)
    && |v.inner.transitions| > 0
    && v.inner.transitions[|v.inner.transitions| - 1]
       == FinalEdge(if steps == [] then v.inner.vertices[0] else steps[|steps| - 1], v.id, v.runtime)
  }

  // ----- Well-formed machines -----

  /** Every transition, nested ones included, leaves a vertex numbered below `n` and waits for an event. */
  predicate Eventful(m: Machine<Runtime.RuntimeModule, Action>, n: nat)
  {
    forall t :: t in AllTransitions(m) ==> t.source < n && t.trigger.event.Some?
  }

  predicate NoInitial(vs: seq<Vtx>)
  {
    forall k :: 0 <= k < |vs| ==> !vs[k].Initial?
  }

  /** `b` is `a` with vertices and transitions added at the end, and none of the new vertices is an `Initial`. */
  predicate Grown(a: Machine<Runtime.RuntimeModule, Action>, b: Machine<Runtime.RuntimeModule, Action>)
  {
    a.vertices <= b.vertices && a.transitions <= b.transitions && NoInitial(b.vertices[|a.vertices|..])
  }

  lemma GrownTrans(a: Machine<Runtime.RuntimeModule, Action>, b: Machine<Runtime.RuntimeModule, Action>, c: Machine<Runtime.RuntimeModule, Action>)
    requires Grown(a, b) && Grown(b, c)
    ensures Grown(a, c)
  {
    forall k | |a.vertices| <= k < |c.vertices| ensures !c.vertices[k].Initial? {
      if k < |b.vertices| {
        assert c.vertices[k] == b.vertices[k] == b.vertices[|a.vertices|..][k - |a.vertices|];
      } else {
        assert c.vertices[k] == c.vertices[|b.vertices|..][k - |b.vertices|];
      }
    }
  }

  lemma GrownAppend(a: Machine<Runtime.RuntimeModule, Action>, vs: seq<Vtx>, ts: Edges)
    requires NoInitial(vs)
    ensures Grown(a, Machine(a.vertices + vs, a.transitions + ts))
  {
    assert (a.vertices + vs)[|a.vertices|..] == vs;
  }

  /** A machine grown from one without an `Initial` has none either. */
  lemma NoInitialGrown(a: Machine<Runtime.RuntimeModule, Action>, b: Machine<Runtime.RuntimeModule, Action>)
    requires Grown(a, b) && NoInitial(a.vertices)
    ensures NoInitial(b.vertices)
  {
    forall k | 0 <= k < |b.vertices| ensures !b.vertices[k].Initial? {
      if k < |a.vertices| {
        assert b.vertices[k] == a.vertices[k];
      } else {
        assert b.vertices[k] == b.vertices[|a.vertices|..][k - |a.vertices|];
      }
    }
  }

  /** More edges after the wired ones keep the wiring. */
  lemma StepsWiredPrefix(ts: Edges, ts': Edges, goback: bool, scope: Spec.MemoryScope, resolved: seq<Spec.Module>, init: Vtx, steps: seq<Vtx>)
    requires |steps| <= |resolved| && AllStates(steps)
    requires StepsWired(ts, goback, scope, resolved, init, steps) && ts <= ts'
    ensures StepsWired(ts', goback, scope, resolved, init, steps)
  {
    PrefixMembers(ts, ts');
  }

  lemma EventfulEmpty(n: nat)
    ensures Eventful(Machine([], []), n)
  {
    var m: Machine<Runtime.RuntimeModule, Action> := Machine([], []);
    assert AllTransitions(m) == [];
  }

  lemma EventfulGrow(m: Machine<Runtime.RuntimeModule, Action>, n: nat, n': nat)
    requires Eventful(m, n) && n <= n'
    ensures Eventful(m, n')
  {
  }

  lemma EventfulAddEdge(m: Machine<Runtime.RuntimeModule, Action>, t: Transition<Action>, n: nat)
    requires Eventful(m, n) && t.source < n && t.trigger.event.Some?
    ensures Eventful(Machine(m.vertices, m.transitions + [t]), n)
  {
    var m' := Machine(m.vertices, m.transitions + [t]);
    forall x | x in AllTransitions(m') ensures x.source < n && x.trigger.event.Some? {
      AllTransitionsMembers(m', x);
      AllTransitionsMembers(m, x);
    }
  }

  lemma EventfulAddEdges(m: Machine<Runtime.RuntimeModule, Action>, ts: Edges, n: nat)
    requires Eventful(m, n) && forall t :: t in ts ==> t.source < n && t.trigger.event.Some?
    ensures Eventful(Machine(m.vertices, m.transitions + ts), n)
  {
    var m' := Machine(m.vertices, m.transitions + ts);
    forall x | x in AllTransitions(m') ensures x.source < n && x.trigger.event.Some? {
      AllTransitionsMembers(m', x);
      AllTransitionsMembers(m, x);
    }
  }

  lemma EventfulAddVertex(m: Machine<Runtime.RuntimeModule, Action>, v: Vtx, n: nat)
    requires Eventful(m, n) && (v.Composite? ==> Eventful(v.inner, n))
    ensures Eventful(Machine(m.vertices + [v], m.transitions), n)
  {
    var m' := Machine(m.vertices + [v], m.transitions);
    forall x | x in AllTransitions(m') ensures x.source < n && x.trigger.event.Some? {
      AllTransitionsMembers(m', x);
      if x !in m.transitions {
        var k :| 0 <= k < |m'.vertices| && m'.vertices[k].Composite? && x in AllTransitions(m'.vertices[k].inner);
        if k < |m.vertices| {
          assert m'.vertices[k] == m.vertices[k];
          AllTransitionsMembers(m, x);
        }
      }
    }
  }

  /** The greeting action of the first edge: none when the user speaks first. */
  function Greeting(userBegins: bool, greeting: string): Option<Action>
  {
    if userBegins then None else Some(SayAction(Some(VStr(greeting)), false))
  }

  /**
   * What the compiled machine promises the engine: its first `Initial` is `Initial(init)`; the
   * entry state is registered under its id; and the only edge without an event, and the only edge
   * leaving `init`, goes from there to the entry state with the greeting.
   */
  predicate Compiled(m: Machine<Runtime.RuntimeModule, Action>, registry: map<nat, Vtx>, entry: Vtx, init: nat,
                     greeting: Option<Action>)
  {
    InitialOf(m.vertices) == Ok(Initial(init))
    && entry.State? && entry.id in registry && registry[entry.id] == entry && entry.id != init
    && Transition(init, entry.id, TriggerFor(None, greeting)) in m.transitions
    && forall t :: t in AllTransitions(m) && (t.trigger.event.None? || t.source == init) ==>
                     t == Transition(init, entry.id, TriggerFor(None, greeting))
  }

  /** With no `Initial` among `vs`, the first `Initial` of `vs + [v]` is `v`. */
  lemma {:induction false} InitialOfLast(vs: seq<Vtx>, v: Vtx)
    requires NoInitial(vs) && v.Initial?
    ensures InitialOf(vs + [v]) == Ok(v)
  {
    if vs != [] {
      assert (vs + [v])[1..] == vs[1..] + [v];
      InitialOfLast(vs[1..], v);
    }
  }

  // ----- The compiler -----

  /**
   * `StateMachineTransformer`. The chatbot model is its module list, the configuration its
   * languages, greeting and who speaks first; `initial` is the module the conversation starts in.
   * Vertices get fresh ids from `nextId`; `registry` maps each state's id to the state.
   */
  class StateMachineTransformer {
    const modules: seq<Spec.Module>
    const initial: Spec.Module
    const greeting: string
    const userBegins: bool
    const generator: Generator.ModuleGenerator
    var sm: Graph
    var smStack: seq<Graph>
    var allowGoBackTo: seq<Runtime.RuntimeModule>
    var nextId: nat
    var registry: map<nat, Vtx>

    /** The generator works on the same model; every registered id is taken; the current machine is eventful. */
    predicate Valid()
      reads this, generator, sm
    {
      generator.Valid() && generator.modules == modules && generator.initial == initial
      && (forall k :: k in registry ==> k < nextId && registry[k].id == k)
      && Eventful(sm.Snapshot(), nextId)
    }

    /** The current machine, the stack and the go-back list are the given ones. */
    predicate Restored(outer: Graph, stack: seq<Graph>, goBack: seq<Runtime.RuntimeModule>)
      reads this
    {
      sm == outer && smStack == stack && allowGoBackTo == goBack
    }

    /** `v` is a state created since `from` was the next id, and registered under its id. */
    predicate Made(v: Vtx, from: nat)
      reads this
    {
      !v.Initial? && from <= v.id < nextId && v.id in registry && registry[v.id] == v
    }

    /** The ids handed out stay handed out, and registered states stay registered. */
    predicate Keeps(oldNext: nat, oldRegistry: map<nat, Vtx>)
      reads this
    {
      oldNext <= nextId && forall k :: k in oldRegistry ==> k in registry && registry[k] == oldRegistry[k]
    }

    constructor(modules: seq<Spec.Module>, languages: string, initial: Spec.Module, greeting: string, userBegins: bool)
      ensures Valid() && fresh(generator) && fresh(sm)
      ensures this.modules == modules && this.initial == initial && this.greeting == greeting && this.userBegins == userBegins
      ensures generator.languages == languages && generator.generated == map[]
      ensures sm.vertices == [] && sm.transitions == [] && smStack == [] && allowGoBackTo == []
      ensures nextId == 0 && registry == map[]
    {
      this.modules := modules;
      this.initial := initial;
      this.greeting := greeting;
      this.userBegins := userBegins;
      generator := new Generator.ModuleGenerator(modules, languages, initial);
      sm := new StateMachine<Runtime.RuntimeModule, Action>();
      smStack := [];
      allowGoBackTo := [];
      nextId := 0;
      registry := map[];
      new;
      EventfulEmpty(0);
    }

    /**
     * `new_state`: the module's runtime module (generated, or the cached one), a fresh state for
     * it, and the state's two self-loops added to the current machine.
     */
    method NewState(m: Spec.Module, fuel: nat) returns (r: Result<Vtx>)
      requires Valid()
      modifies this, generator, sm
      ensures Valid() && Restored(old(sm), old(smStack), old(allowGoBackTo)) && Keeps(old(nextId), old(registry))
      ensures sm.vertices == old(sm.vertices)
      ensures r.Err? ==> sm.transitions == old(sm.transitions) && nextId == old(nextId) && registry == old(registry)
      ensures r.Ok? ==> r.value.State? && r.value.specModule == m && r.value.id == old(nextId) && Made(r.value, old(nextId))
      ensures r.Ok? ==> m.name in generator.generated && r.value.runtime == generator.generated[m.name]
      ensures r.Ok? ==> sm.transitions == old(sm.transitions) + SelfLoops(r.value)
    {
      var rm := generator.Generate(m, allowGoBackTo, fuel);
      if rm.Err? {
        return Err(rm.error);
      }
      r := AddNewState(m, rm.value);
    }

    /** The second half of `new_state`: a fresh state for the runtime module, with its self-loops. */
    method AddNewState(m: Spec.Module, rm: Runtime.RuntimeModule) returns (r: Result<Vtx>)
      requires Valid()
      modifies this, sm
      ensures Valid() && Restored(old(sm), old(smStack), old(allowGoBackTo)) && Keeps(old(nextId), old(registry))
      ensures sm.vertices == old(sm.vertices)
      ensures r == Ok(State(old(nextId), m, rm)) && Made(r.value, old(nextId))
      ensures sm.transitions == old(sm.transitions) + SelfLoops(r.value)
    {
      var state := State(nextId, m, rm);
      nextId := nextId + 1;
      registry := registry[state.id := state];
      var disabled := Runtime.PromptsDisabled(rm.kind, "input");
      ghost var before := sm.Snapshot();
      sm.AddTransition(state, state, Some(UserInputEventType), Some(CompositeAction([RunModuleAction(rm, disabled), Mem(m)])));
      sm.AddTransition(state, state, Some(AIResponseEventType), Some(CompositeAction([Mem(m), SayAction(None, true)])));
      assert sm.transitions == before.transitions + SelfLoops(state);
      EventfulGrow(before, nextId - 1, nextId);
      EventfulAddEdges(before, SelfLoops(state), nextId);
      r := Ok(state);
    }

    /** `visit_data_gathering_module`: a new state with its task-in-progress and re-activation loops. */
    method VisitDataGathering(m: Spec.Module, fuel: nat) returns (r: Result<Vtx>)
      requires Valid() && m.DataGathering?
      modifies this, generator, sm
      ensures Valid() && Restored(old(sm), old(smStack), old(allowGoBackTo)) && Keeps(old(nextId), old(registry))
      ensures sm.vertices == old(sm.vertices)
      ensures r.Ok? ==> r.value.State? && r.value.specModule == m && Made(r.value, old(nextId))
      ensures r.Ok? ==> sm.transitions == old(sm.transitions) + SelfLoops(r.value) + DataLoops(r.value)
    {
      r := NewState(m, fuel);
      if r.Err? {
        return;
      }
      AddDataLoops(r.value);
    }

    /** The two loops `visit_data_gathering_module` adds to a new state. */
    method AddDataLoops(state: Vtx)
      requires Valid() && !state.Initial? && state.id < nextId
      modifies sm
      ensures Valid() && sm.vertices == old(sm.vertices)
      ensures sm.transitions == old(sm.transitions) + DataLoops(state)
    {
      var m := state.specModule;
      ghost var before := sm.Snapshot();
      sm.AddTransition(state, state, Some(TaskInProgressEventType), Some(CompositeAction([Mem(m), ApplyLLM(state.runtime, false, [])])));
      sm.AddTransition(state, state, Some(ActivateModuleType(m)), Some(CompositeAction([RunTool(state.runtime), Mem(m)])));
      assert sm.transitions == before.transitions + DataLoops(state);
      EventfulAddEdges(before, DataLoops(state), nextId);
    }

    /**
     * `module.accept(transformer)`: menus, data gathering, actions and open-ended conversations
     * compile to a state; the transformer has no visit for question-answering or sequence modules.
     */
    method Accept(m: Spec.Module, fuel: nat) returns (r: Result<Vtx>)
      requires Valid()
      modifies this, generator, sm
      decreases fuel, 7
      ensures Keeps(old(nextId), old(registry))
      ensures r.Ok? ==> Valid() && Restored(old(sm), old(smStack), old(allowGoBackTo)) && Grown(old(sm.Snapshot()), sm.Snapshot())
      ensures r.Ok? ==> r.value.State? && r.value.specModule == m && Made(r.value, old(nextId))
      ensures m.QuestionAnswering? ==> r == Err(AttributeError("visit_question_answering_module"))
      ensures m.Sequence? ==> r == Err(AttributeError("visit_sequence_module"))
    {
      ghost var start := sm.Snapshot();
      match m
      case Menu(_, _, _, _) =>
        ghost var children;
        r, children := VisitMenu(m, fuel);
      case OpenEnded(_, _) =>
        ghost var children;
        r, children := VisitOpenEnded(m, fuel);
      case DataGathering(_, _, _, _, _) =>
        r := VisitDataGathering(m, fuel);
        if r.Ok? {
          GrownAppend(start, [], SelfLoops(r.value) + DataLoops(r.value));
          assert start.vertices + [] == start.vertices;
          assert start.transitions + (SelfLoops(r.value) + DataLoops(r.value)) == sm.transitions;
        }
      case ActionModule(_, _, _, _) =>
        r := NewState(m, fuel);
        if r.Ok? {
          GrownAppend(start, [], SelfLoops(r.value));
          assert start.vertices + [] == start.vertices;
        }
      case QuestionAnswering(_, _, _, _) =>
        r := Err(AttributeError("visit_question_answering_module"));
      case Sequence(_, _, _, _, _) =>
        r := Err(AttributeError("visit_sequence_module"));
    }

    /** The edges a menu state gets for one child, for the child's response. */
    function MenuEdgesFor(parent: Vtx, child: Vtx, item: Spec.Item): Result<Edges>
      requires !parent.Initial? && !child.Initial?
    {
      var response :- ResponseOf(child.specModule);
      MenuEdges(parent, child, Spec.SameModule(initial, parent.specModule), ChildIsMenu(modules, item), response)
    }

    /**
     * The wiring of a menu state's items so far: an answer item has no child, every other item's
     * child is connected to `parent` by the edges `MenuEdgesFor` gives, all among `ts`.
     */
    predicate MenuWired(parent: Vtx, items: seq<Spec.Item>, children: seq<Option<Vtx>>, ts: Edges)
      requires !parent.Initial?
    {
      |children| == |items|
      && (forall k :: 0 <= k < |items| ==> (items[k].AnswerItem? <==> children[k].None?))
      && forall k :: 0 <= k < |items| && children[k].Some? ==>
           !children[k].value.Initial? && MenuEdgesFor(parent, children[k].value, items[k]).Ok?
           && forall e :: e in MenuEdgesFor(parent, children[k].value, items[k]).value ==> e in ts
    }

    /** One more item wired by its own edges keeps the earlier items' wiring. */
    lemma MenuWiredSnoc(parent: Vtx, items: seq<Spec.Item>, children: seq<Option<Vtx>>, ts: Edges, ts': Edges,
                        item: Spec.Item, child: Option<Vtx>)
      requires !parent.Initial? && MenuWired(parent, items, children, ts) && ts <= ts'
      requires item.AnswerItem? <==> child.None?
      requires child.Some? ==> !child.value.Initial? && MenuEdgesFor(parent, child.value, item).Ok?
                               && |ts'| >= 2 && ts'[|ts'| - 2..] == MenuEdgesFor(parent, child.value, item).value
      ensures MenuWired(parent, items + [item], children + [child], ts')
    {
      PrefixMembers(ts, ts');
      if child.Some? {
        SuffixMembers(MenuEdgesFor(parent, child.value, item).value, ts');
      }
      var items', children' := items + [item], children + [child];
      forall k | 0 <= k < |items'| && children'[k].Some?
        ensures !children'[k].value.Initial? && MenuEdgesFor(parent, children'[k].value, items'[k]).Ok?
                && forall e :: e in MenuEdgesFor(parent, children'[k].value, items'[k]).value ==> e in ts'
      {
        if k < |items| {
          assert items'[k] == items[k] && children'[k] == children[k];
        }
      }
    }

    /**
     * The wiring of an open-ended state's items so far: an answer item has no child, every other
     * item's child is not a sequence and is connected to `parent` by `OpenEdges`, among `ts`.
     */
    predicate OpenWired(parent: Vtx, items: seq<Spec.Item>, children: seq<Option<Vtx>>, ts: Edges)
      requires !parent.Initial?
    {
      |children| == |items|
      && (forall k :: 0 <= k < |items| ==> (items[k].AnswerItem? <==> children[k].None?))
      && forall k :: 0 <= k < |items| && children[k].Some? ==>
           !children[k].value.Initial? && children[k].value.runtime.kind != Runtime.SequenceRuntime
           && forall e :: e in OpenEdges(parent, children[k].value) ==> e in ts
    }

    /** One more item connected by its own edges keeps the earlier items' wiring. */
    lemma OpenWiredSnoc(parent: Vtx, items: seq<Spec.Item>, children: seq<Option<Vtx>>, ts: Edges, ts': Edges,
                        item: Spec.Item, child: Option<Vtx>)
      requires !parent.Initial? && OpenWired(parent, items, children, ts) && ts <= ts'
      requires item.AnswerItem? <==> child.None?
      requires child.Some? ==> !child.value.Initial? && child.value.runtime.kind != Runtime.SequenceRuntime
                               && |ts'| >= 2 && ts'[|ts'| - 2..] == OpenEdges(parent, child.value)
      ensures OpenWired(parent, items + [item], children + [child], ts')
    {
      PrefixMembers(ts, ts');
      if child.Some? {
        SuffixMembers(OpenEdges(parent, child.value), ts');
      }
      var items', children' := items + [item], children + [child];
      forall k | 0 <= k < |items'| && children'[k].Some?
        ensures !children'[k].value.Initial? && children'[k].value.runtime.kind != Runtime.SequenceRuntime
                && forall e :: e in OpenEdges(parent, children'[k].value) ==> e in ts'
      {
        if k < |items| {
          assert items'[k] == items[k] && children'[k] == children[k];
        }
      }
    }

    /**
     * `visit_menu_module`: a new state for the menu, added to the machine, then each item wired to
     * it in order (answer items need no state).
     */
    method VisitMenu(m: Spec.Module, fuel: nat) returns (r: Result<Vtx>, ghost children: seq<Option<Vtx>>)
      requires Valid() && m.Menu?
      modifies this, generator, sm
      decreases fuel, 6
      ensures Keeps(old(nextId), old(registry))
      ensures r.Ok? ==> Valid() && Restored(old(sm), old(smStack), old(allowGoBackTo)) && Grown(old(sm.Snapshot()), sm.Snapshot())
      ensures r.Ok? ==> r.value.State? && r.value.specModule == m && Made(r.value, old(nextId))
      ensures r.Ok? ==> |sm.vertices| > |old(sm.vertices)| && sm.vertices[|old(sm.vertices)|] == r.value
      ensures r.Ok? ==> old(sm.transitions) + SelfLoops(r.value) <= sm.transitions
      ensures r.Ok? ==> MenuWired(r.value, m.items, children, sm.transitions)
    {
      children := [];
      ghost var first := sm.Snapshot();
      var current := NewState(m, fuel);
      if current.Err? {
        return current, children;
      }
      var state := current.value;
      ghost var start := sm.Snapshot();
      sm.AddState(state);
      EventfulAddVertex(start, state, nextId);
      ghost var withState := sm.Snapshot();
      var wired;
      wired, children := WireMenuItems(state, m.items, fuel);
      if wired.Err? {
        return Err(wired.error), children;
      }
      GrownAppend(first, [], SelfLoops(state));
      assert first.vertices + [] == first.vertices;
      GrownAppend(start, [state], []);
      assert start.transitions + [] == start.transitions;
      GrownTrans(first, start, withState);
      GrownTrans(first, withState, sm.Snapshot());
      assert sm.vertices[|first.vertices|] == withState.vertices[|first.vertices|];
      r := Ok(state);
    }

    /** The loop of `visit_menu_module`: each item wired to the menu state `parent` in order. */
    method WireMenuItems(parent: Vtx, items: seq<Spec.Item>, fuel: nat) returns (r: Result<()>, ghost children: seq<Option<Vtx>>)
      requires Valid() && parent.State? && parent.id < nextId
      modifies this, generator, sm
      decreases fuel, 5
      ensures Keeps(old(nextId), old(registry))
      ensures r.Ok? ==> Valid() && Restored(old(sm), old(smStack), old(allowGoBackTo)) && Grown(old(sm.Snapshot()), sm.Snapshot())
      ensures r.Ok? ==> MenuWired(parent, items, children, sm.transitions)
    {
      children := [];
      ghost var start := sm.Snapshot();
      var i := 0;
      while i < |items|
        invariant 0 <= i <= |items| && |children| == i
        invariant Valid() && Restored(old(sm), old(smStack), old(allowGoBackTo)) && Keeps(old(nextId), old(registry))
        invariant parent.id < nextId
        invariant Grown(start, sm.Snapshot())
        invariant MenuWired(parent, items[..i], children, sm.transitions)
      {
        ghost var before := sm.Snapshot();
        var wired, child := WireMenuItem(parent, items[i], fuel);
        if wired.Err? {
          return Err(wired.error), children;
        }
        MenuWiredSnoc(parent, items[..i], children, before.transitions, sm.transitions, items[i], child);
        assert items[..i + 1] == items[..i] + [items[i]];
        GrownTrans(start, before, sm.Snapshot());
        children := children + [child];
        i := i + 1;
      }
      assert items[..i] == items;
      r := Ok(());
    }

    /**
     * One iteration of `visit_menu_module`'s loop: the item's child state (none for an answer) is
     * added to the machine and connected to the menu by `MenuEdgesFor`; a response that is missing or
     * of an unknown kind fails.
     */
    method WireMenuItem(parent: Vtx, item: Spec.Item, fuel: nat) returns (r: Result<()>, ghost child: Option<Vtx>)
      requires Valid() && parent.State? && parent.id < nextId
      modifies this, generator, sm
      decreases fuel, 4
      ensures Keeps(old(nextId), old(registry))
      ensures r.Ok? ==> Valid() && Restored(old(sm), old(smStack), old(allowGoBackTo)) && Grown(old(sm.Snapshot()), sm.Snapshot())
      ensures r.Ok? ==> (item.AnswerItem? <==> child.None?)
      ensures item.AnswerItem? ==> r == Ok(()) && sm.Snapshot() == old(sm.Snapshot()) && nextId == old(nextId)
      ensures child.Some? ==> Made(child.value, old(nextId)) && (r.Ok? <==> MenuEdgesFor(parent, child.value, item).Ok?)
      ensures r.Ok? && child.Some? ==>
                child.value in sm.vertices
                && |sm.transitions| >= 2 && sm.transitions[|sm.transitions| - 2..] == MenuEdgesFor(parent, child.value, item).value
    {
      child := None;
      ghost var start := sm.Snapshot();
      var visited := VisitItem(item, fuel);
      if visited.Err? {
        return Err(visited.error), child;
      }
      if visited.value.None? {
        return Ok(()), child;
      }
      var state := visited.value.value;
      child := Some(state);
      ghost var mid := sm.Snapshot();
      r := ConnectMenuChild(parent, state, item);
      if r.Ok? {
        GrownAppend(mid, [state], MenuEdgesFor(parent, state, item).value);
        GrownTrans(start, mid, sm.Snapshot());
        assert sm.vertices[|mid.vertices|] == state;
      }
    }

    /** The rest of one `visit_menu_module` iteration: the child added to the machine, and the edges for its response. */
    method ConnectMenuChild(parent: Vtx, child: Vtx, item: Spec.Item) returns (r: Result<()>)
      requires Valid() && parent.State? && parent.id < nextId
      requires !child.Initial? && child.id < nextId && (child.Composite? ==> Eventful(child.inner, nextId))
      modifies sm
      ensures Valid() && sm.vertices == old(sm.vertices) + [child]
      ensures r.Ok? <==> MenuEdgesFor(parent, child, item).Ok?
      ensures sm.transitions == old(sm.transitions) + (if r.Ok? then MenuEdgesFor(parent, child, item).value else [])
    {
      ghost var start := sm.Snapshot();
      sm.AddState(child);
      EventfulAddVertex(start, child, nextId);
      var isTop := Spec.SameModule(initial, parent.specModule);
      var isItemMenu := ChildIsMenu(modules, item);
      var response := ResponseOf(child.specModule);
      if response.Err? {
        return Err(response.error);
      }
      var e := response.value;
      ghost var grown := sm.Snapshot();
      var added := AddMenuEdges(parent, child, isTop, isItemMenu, e);
      if !added {
        assert sm.Snapshot() == grown;
        return Err(ValueError("Unsupported response type"));
      }
      EventfulAddEdges(grown, MenuEdges(parent, child, isTop, isItemMenu, e).value, nextId);
      r := Ok(());
    }

    /** The two edges of one `visit_menu_module` iteration for the response `e`; `false` for a response kind it does not know. */
    method AddMenuEdges(parent: Vtx, child: Vtx, isTop: bool, isItemMenu: bool, e: Spec.ResponseElement) returns (ok: bool)
      requires !parent.Initial? && !child.Initial?
      modifies sm
      ensures ok <==> MenuEdges(parent, child, isTop, isItemMenu, e).Ok?
      ensures sm.vertices == old(sm.vertices)
      ensures sm.transitions == old(sm.transitions) + (if ok then MenuEdges(parent, child, isTop, isItemMenu, e).value else [])
    {
      if Spec.IsDirectResponse(e) || Spec.IsSimpleRephrase(e) {
        var say := if (isTop && !isItemMenu) || (!isTop && !isItemMenu) then [SayAction(None, true)] else [];
        var passOn := if !isTop then [PushEvent(Finish(None))] else [];
        sm.AddTransition(parent, child, Some(ActivateModuleType(child.specModule)), Some(CompositeAction([RunTool(child.runtime), Mem(child.specModule)])));
        sm.AddTransition(child, parent, Some(TaskFinishEventEventType), Some(CompositeAction(say + passOn)));
        ok := true;
      } else if Spec.IsInCallerRephrase(e) {
        var passOn := if !isTop then [PushEvent(Finish(None))] else [];
        sm.AddTransition(parent, child, Some(ActivateModuleType(child.specModule)),
                         Some(CompositeAction([Mem(parent.specModule), RunTool(child.runtime), Mem(child.specModule)] + passOn)));
        sm.AddTransition(child, parent, Some(TaskFinishEventEventType),
                         Some(CompositeAction([Mem(parent.specModule), ApplyLLM(parent.runtime, false, [])] + passOn)));
        ok := true;
      } else {
        ok := false;
      }
    }

    /**
     * `visit_open_ended_conversation_module`: a new state for the conversation, added to the
     * machine, then each item's child connected to it by `OpenEdges`; a sequence child is refused.
     */
    method VisitOpenEnded(m: Spec.Module, fuel: nat) returns (r: Result<Vtx>, ghost children: seq<Option<Vtx>>)
      requires Valid() && m.OpenEnded?
      modifies this, generator, sm
      decreases fuel, 6
      ensures Keeps(old(nextId), old(registry))
      ensures r.Ok? ==> Valid() && Restored(old(sm), old(smStack), old(allowGoBackTo)) && Grown(old(sm.Snapshot()), sm.Snapshot())
      ensures r.Ok? ==> r.value.State? && r.value.specModule == m && Made(r.value, old(nextId))
      ensures r.Ok? ==> |sm.vertices| > |old(sm.vertices)| && sm.vertices[|old(sm.vertices)|] == r.value
      ensures r.Ok? ==> old(sm.transitions) + SelfLoops(r.value) <= sm.transitions
      ensures r.Ok? ==> OpenWired(r.value, m.items, children, sm.transitions)
    {
      children := [];
      ghost var first := sm.Snapshot();
      var current := NewState(m, fuel);
      if current.Err? {
        return current, children;
      }
      var state := current.value;
      ghost var start := sm.Snapshot();
      sm.AddState(state);
      EventfulAddVertex(start, state, nextId);
      ghost var withState := sm.Snapshot();
      var wired;
      wired, children := WireOpenEndedItems(state, m.items, fuel);
      if wired.Err? {
        return Err(wired.error), children;
      }
      GrownAppend(first, [], SelfLoops(state));
      assert first.vertices + [] == first.vertices;
      GrownAppend(start, [state], []);
      assert start.transitions + [] == start.transitions;
      GrownTrans(first, start, withState);
      GrownTrans(first, withState, sm.Snapshot());
      assert sm.vertices[|first.vertices|] == withState.vertices[|first.vertices|];
      r := Ok(state);
    }

    /** The loop of `visit_open_ended_conversation_module`: each item's child connected to `parent` in order. */
    method WireOpenEndedItems(parent: Vtx, items: seq<Spec.Item>, fuel: nat) returns (r: Result<()>, ghost children: seq<Option<Vtx>>)
      requires Valid() && parent.State? && parent.id < nextId
      modifies this, generator, sm
      decreases fuel, 5
      ensures Keeps(old(nextId), old(registry))
      ensures r.Ok? ==> Valid() && Restored(old(sm), old(smStack), old(allowGoBackTo)) && Grown(old(sm.Snapshot()), sm.Snapshot())
      ensures r.Ok? ==> OpenWired(parent, items, children, sm.transitions)
    {
      children := [];
      ghost var start := sm.Snapshot();
      var i := 0;
      while i < |items|
        invariant 0 <= i <= |items| && |children| == i
        invariant Valid() && Restored(old(sm), old(smStack), old(allowGoBackTo)) && Keeps(old(nextId), old(registry))
        invariant parent.id < nextId
        invariant Grown(start, sm.Snapshot())
        invariant OpenWired(parent, items[..i], children, sm.transitions)
      {
        ghost var before := sm.Snapshot();
        var wired, child := WireOpenEndedItem(parent, items[i], fuel);
        if wired.Err? {
          return Err(wired.error), children;
        }
        OpenWiredSnoc(parent, items[..i], children, before.transitions, sm.transitions, items[i], child);
        assert items[..i + 1] == items[..i] + [items[i]];
        GrownTrans(start, before, sm.Snapshot());
        children := children + [child];
        i := i + 1;
      }
      assert items[..i] == items;
      r := Ok(());
    }

    /**
     * One iteration of `visit_open_ended_conversation_module`'s loop. Unlike a menu it does not add
     * the child state to the machine; a child whose runtime module is a sequence fails.
     */
    method WireOpenEndedItem(parent: Vtx, item: Spec.Item, fuel: nat) returns (r: Result<()>, ghost child: Option<Vtx>)
      requires Valid() && parent.State? && parent.id < nextId
      modifies this, generator, sm
      decreases fuel, 4
      ensures Keeps(old(nextId), old(registry))
      ensures r.Ok? ==> Valid() && Restored(old(sm), old(smStack), old(allowGoBackTo)) && Grown(old(sm.Snapshot()), sm.Snapshot())
      ensures r.Ok? ==> (item.AnswerItem? <==> child.None?)
      ensures item.AnswerItem? ==> r == Ok(()) && sm.Snapshot() == old(sm.Snapshot()) && nextId == old(nextId)
      ensures child.Some? ==> Made(child.value, old(nextId)) && (r.Ok? <==> child.value.runtime.kind != Runtime.SequenceRuntime)
      ensures r.Ok? && child.Some? ==>
                |sm.transitions| >= 2 && sm.transitions[|sm.transitions| - 2..] == OpenEdges(parent, child.value)
    {
      child := None;
      ghost var start := sm.Snapshot();
      var visited := VisitItem(item, fuel);
      if visited.Err? {
        return Err(visited.error), child;
      }
      if visited.value.None? {
        return Ok(()), child;
      }
      var state := visited.value.value;
      child := Some(state);
      if state.runtime.kind == Runtime.SequenceRuntime {
        return Err(ValueError("OpenEndedConversationModule cannot contain a sequence module")), child;
      }
      ghost var mid := sm.Snapshot();
      ConnectOpenChild(parent, state);
      GrownAppend(mid, [], OpenEdges(parent, state));
      assert mid.vertices + [] == mid.vertices;
      GrownTrans(start, mid, sm.Snapshot());
      r := Ok(());
    }

    /** The two edges of one `visit_open_ended_conversation_module` iteration. */
    method ConnectOpenChild(parent: Vtx, child: Vtx)
      requires Valid() && parent.State? && parent.id < nextId && !child.Initial? && child.id < nextId
      modifies sm
      ensures Valid() && sm.vertices == old(sm.vertices)
      ensures sm.transitions == old(sm.transitions) + OpenEdges(parent, child)
    {
      ghost var start := sm.Snapshot();
      EventfulAddEdges(start, OpenEdges(parent, child), nextId);
      sm.AddTransition(parent, child, Some(ActivateModuleType(child.specModule)), Some(CompositeAction([RunTool(child.runtime), Mem(child.specModule)])));
      sm.AddTransition(child, parent, Some(TaskFinishEventEventType),
                       Some(CompositeAction([Mem(parent.specModule), ApplyLLM(parent.runtime, false, [])])));
      assert sm.transitions == start.transitions + OpenEdges(parent, child);
    }

    /**
     * `item.accept(transformer)`: nothing for an answer, the referenced module's state for a tool
     * item, the composite state of a sequence item. Each nested visit takes one unit of `fuel`.
     */
    method VisitItem(item: Spec.Item, fuel: nat) returns (r: Result<Option<Vtx>>)
      requires Valid()
      modifies this, generator, sm
      decreases fuel, 3
      ensures Keeps(old(nextId), old(registry))
      ensures item.AnswerItem? ==> r == Ok(None) && sm.Snapshot() == old(sm.Snapshot()) && nextId == old(nextId)
      ensures r.Ok? ==> Valid() && Restored(old(sm), old(smStack), old(allowGoBackTo)) && Grown(old(sm.Snapshot()), sm.Snapshot())
      ensures r.Ok? ==> (item.AnswerItem? <==> r.value.None?)
      ensures r.Ok? && r.value.Some? ==>
                Made(r.value.value, old(nextId)) && (r.value.value.Composite? ==> Eventful(r.value.value.inner, nextId))
      ensures r.Ok? && item.ToolItem? ==>
                r.value.value.State? && Spec.Resolve(modules, item.reference) == Ok(r.value.value.specModule)
      ensures r.Ok? && item.SequenceItem? ==>
                r.value.value.Composite? && r.value.value.specModule == Spec.GetSequenceModule(item)
    {
      match item
      case AnswerItem(_, _) =>
        r := Ok(None);
      case ToolItem(_, _) =>
        if fuel == 0 {
          return Err(RecursionLimit);
        }
        var s := VisitToolItem(item, fuel - 1);
        r := if s.Ok? then Ok(Some(s.value)) else Err(s.error);
      case SequenceItem(_, _, _, _) =>
        if fuel == 0 {
          return Err(RecursionLimit);
        }
        ghost var start := sm.Snapshot();
        var s, steps := VisitSequenceItem(item, fuel - 1);
        r := if s.Ok? then Ok(Some(s.value)) else Err(s.error);
        if s.Ok? {
          GrownAppend(start, [], []);
          assert start.vertices + [] == start.vertices && start.transitions + [] == start.transitions;
        }
    }

    /**
     * `visit_tool_item`: the referenced module (an unknown name fails); a data-gathering, menu or
     * open-ended module is visited, any other gets a plain new state.
     */
    method VisitToolItem(item: Spec.Item, fuel: nat) returns (r: Result<Vtx>)
      requires Valid() && item.ToolItem?
      modifies this, generator, sm
      decreases fuel, 8
      ensures Keeps(old(nextId), old(registry))
      ensures Spec.Resolve(modules, item.reference).Err? ==> r == Err(KeyError(item.reference))
      ensures r.Ok? ==> Valid() && Restored(old(sm), old(smStack), old(allowGoBackTo)) && Grown(old(sm.Snapshot()), sm.Snapshot())
      ensures r.Ok? ==> r.value.State? && Spec.Resolve(modules, item.reference) == Ok(r.value.specModule) && Made(r.value, old(nextId))
    {
      var resolved := Spec.Resolve(modules, item.reference);
      if resolved.Err? {
        return Err(resolved.error);
      }
      var m := resolved.value;
      if m.DataGathering? || m.Menu? || m.OpenEnded? {
        r := Accept(m, fuel);
      } else {
        ghost var start := sm.Snapshot();
        r := NewState(m, fuel);
        if r.Ok? {
          GrownAppend(start, [], SelfLoops(r.value));
          assert start.vertices + [] == start.vertices;
        }
      }
    }

    /**
     * `visit_sequence_item`: the sequence's runtime module, then a fresh machine pushed as the
     * current one, holding an `Initial` and, step by step, the referenced modules' states wired by
     * `StepEdges`, and finally the edge that leaves the sequence. The outer machine is restored and
     * the finished composite state returned; the outer machine itself is not changed.
     */
    method VisitSequenceItem(item: Spec.Item, fuel: nat) returns (r: Result<Vtx>, ghost steps: seq<Vtx>)
      requires Valid() && item.SequenceItem?
      modifies this, generator, sm
      decreases fuel, 11
      ensures Keeps(old(nextId), old(registry))
      ensures r.Ok? ==> Valid() && Restored(old(sm), old(smStack), old(allowGoBackTo)) && sm.Snapshot() == old(sm.Snapshot())
      ensures r.Ok? ==> r.value.Composite? && r.value.specModule == Spec.GetSequenceModule(item)
                        && Made(r.value, old(nextId)) && Eventful(r.value.inner, nextId)
      ensures r.Ok? ==> Generator.ResolveAll(modules, item.references).Ok?
                        && SequenceBuilt(r.value, Generator.ResolveAll(modules, item.references).value, steps)
    {
      steps := [];
      var seqModule := Spec.GetSequenceModule(item);
      var rm := generator.Generate(seqModule, [], fuel);
      if rm.Err? {
        return Err(rm.error), steps;
      }
      r, steps := BuildSequence(seqModule, rm.value, item.references, fuel);
    }

    /** The rest of `visit_sequence_item`, once the sequence's runtime module `rm` is generated. */
    method BuildSequence(seqModule: Spec.Module, rm: Runtime.RuntimeModule, references: seq<string>, fuel: nat)
      returns (r: Result<Vtx>, ghost steps: seq<Vtx>)
      requires Valid() && seqModule.Sequence?
      modifies this, generator, sm
      decreases fuel, 10
      ensures Keeps(old(nextId), old(registry))
      ensures r.Ok? ==> Valid() && Restored(old(sm), old(smStack), old(allowGoBackTo)) && sm.Snapshot() == old(sm.Snapshot())
      ensures r.Ok? ==> r.value.Composite? && r.value == Composite(old(nextId), seqModule, rm, r.value.inner)
                        && Made(r.value, old(nextId)) && Eventful(r.value.inner, nextId)
      ensures r.Ok? ==> Generator.ResolveAll(modules, references).Ok?
                        && SequenceBuilt(r.value, Generator.ResolveAll(modules, references).value, steps)
    {
      steps := [];
      var compositeId := nextId;
      nextId := nextId + 1;
      ghost var outerSnap := sm.Snapshot();
      var init := OpenSequence();
      var composite := sm;
      var resolved := Generator.ResolveAll(modules, references);
      if resolved.Err? {
        return Err(resolved.error), steps;
      }
      var last;
      last, steps := BuildSteps(seqModule, resolved.value, init, fuel);
      if last.Err? {
        return Err(last.error), steps;
      }
      ghost var built := composite.Snapshot();
      EventfulGrow(outerSnap, compositeId, nextId);
      var v := CloseSequence(compositeId, seqModule, rm, last.value);
      StepsWiredPrefix(built.transitions, v.inner.transitions, seqModule.goback, seqModule.memory, resolved.value, init, steps);
      r := Ok(v);
    }

    /** The start of `visit_sequence_item`: a fresh machine, pushed as the current one, holding a new `Initial`. */
    method OpenSequence() returns (init: Vtx)
      requires Valid()
      modifies this
      ensures fresh(sm) && sm.vertices == [init] && sm.transitions == []
      ensures smStack == old(smStack) + [old(sm)] && allowGoBackTo == old(allowGoBackTo) && registry == old(registry)
      ensures init == Initial(old(nextId)) && nextId == old(nextId) + 1
      ensures Valid()
    {
      var composite := new StateMachine<Runtime.RuntimeModule, Action>();
      smStack := smStack + [sm];
      sm := composite;
      init := Initial(nextId);
      nextId := nextId + 1;
      EventfulEmpty(nextId);
      EventfulAddVertex(composite.Snapshot(), init, nextId);
      composite.AddState(init);
    }

    /**
     * The loop of `visit_sequence_item`: each resolved module becomes a step of the current machine,
     * wired to the previous one; `r` is the last step, or `init` when there is none.
     */
    method BuildSteps(seqModule: Spec.Module, resolved: seq<Spec.Module>, init: Vtx, fuel: nat) returns (r: Result<Vtx>, ghost steps: seq<Vtx>)
      requires Valid() && seqModule.Sequence? && init.Initial? && init.id < nextId
      requires |sm.vertices| > 0 && sm.vertices[0] == init
      modifies this, generator, sm
      decreases fuel, 9
      ensures Keeps(old(nextId), old(registry))
      ensures r.Ok? ==> Valid() && Restored(old(sm), old(smStack), old(allowGoBackTo))
      ensures r.Ok? ==> |sm.vertices| > 0 && sm.vertices[0] == init
      ensures r.Ok? ==> |steps| == |resolved| && AllStates(steps) && StepsFollow(steps, resolved)
      ensures r.Ok? ==> r.value == (if steps == [] then init else steps[|steps| - 1]) && r.value.id < nextId
      ensures r.Ok? ==> StepsWired(sm.transitions, seqModule.goback, seqModule.memory, resolved, init, steps)
    {
      steps := [];
      var last: Vtx := init;
      var previous: seq<Vtx> := [];
      var idx := 0;
      while idx < |resolved|
        invariant 0 <= idx <= |resolved| && |steps| == idx && AllStates(steps)
        invariant Valid() && Restored(old(sm), old(smStack), old(allowGoBackTo)) && Keeps(old(nextId), old(registry))
        invariant init.id < nextId && |sm.vertices| > 0 && sm.vertices[0] == init
        invariant StepsFollow(steps, resolved)
        invariant last == (if idx == 0 then init else steps[idx - 1]) && last.id < nextId
        invariant previous == if seqModule.goback then steps else []
        invariant StepsWired(sm.transitions, seqModule.goback, seqModule.memory, resolved, init, steps)
      {
        ghost var before := sm.Snapshot();
        var state := SequenceStep(seqModule, resolved, idx, init, last, previous, fuel);
        if state.Err? {
          return Err(state.error), steps;
        }
        StepsWiredSnoc(before.transitions, sm.transitions, seqModule, resolved, init, steps, state.value);
        StepsFollowSnoc(steps, resolved, state.value);
        steps := steps + [state.value];
        if seqModule.goback {
          previous := previous + [state.value];
        }
        last := state.value;
        idx := idx + 1;
      }
      r := Ok(last);
    }

    /**
     * The end of `visit_sequence_item`: the edge that leaves the sequence from its last step, then
     * the outer machine popped back as the current one and the composite state registered.
     */
    method CloseSequence(compositeId: nat, seqModule: Spec.Module, rm: Runtime.RuntimeModule, last: Vtx) returns (v: Vtx)
      requires Valid() && |smStack| > 0 && sm != smStack[|smStack| - 1]
      requires Eventful(smStack[|smStack| - 1].Snapshot(), nextId) && last.id < nextId && compositeId < nextId
      modifies this, sm
      ensures v == Composite(compositeId, seqModule, rm, Machine(old(sm.vertices), old(sm.transitions) + [FinalEdge(last, compositeId, rm)]))
      ensures sm == old(smStack)[|old(smStack)| - 1] && smStack == old(smStack)[..|old(smStack)| - 1]
      ensures allowGoBackTo == old(allowGoBackTo) && nextId == old(nextId) && registry == old(registry)[compositeId := v]
      ensures Valid() && Eventful(v.inner, nextId)
    {
      var composite := sm;
      var final := FinalEdge(last, compositeId, rm);
      EventfulAddEdge(composite.Snapshot(), final, nextId);
      // The edge's target is the composite state itself, known to the machine by its id alone.
      composite.AddTransition(last, State(compositeId, seqModule, rm), Some(TaskFinishEventEventType),
                              Some(CompositeAction([SayAction(None, true), RunTool(rm)])));
      sm := smStack[|smStack| - 1];
      smStack := smStack[..|smStack| - 1];
      v := Composite(compositeId, seqModule, rm, composite.Snapshot());
      registry := registry[compositeId := v];
    }

    /**
     * One iteration of `visit_sequence_item`'s loop: the step's module is visited with the go-back
     * list set to the runtime modules of `previous` (and restored afterwards), its state added to
     * the sequence's machine, and `StepEdges` wired.
     */
    method SequenceStep(seqModule: Spec.Module, resolved: seq<Spec.Module>, idx: nat, init: Vtx, last: Vtx,
                        previous: seq<Vtx>, fuel: nat) returns (r: Result<Vtx>)
      requires Valid() && seqModule.Sequence? && idx < |resolved| && init.Initial? && init.id < nextId && AllStates(previous)
      requires idx == 0 ==> last == init
      requires idx > 0 ==> last.State? && last.id < nextId
      modifies this, generator, sm
      decreases fuel, 8
      ensures Keeps(old(nextId), old(registry))
      ensures r.Ok? ==> Valid() && Restored(old(sm), old(smStack), old(allowGoBackTo)) && Grown(old(sm.Snapshot()), sm.Snapshot())
      ensures r.Ok? ==> r.value.State? && r.value.specModule == resolved[idx] && Made(r.value, old(nextId))
      ensures r.Ok? ==> var stepEdges := StepEdges(seqModule, resolved, idx, init, last, previous, r.value);
                        |stepEdges| <= |sm.transitions| && sm.transitions[|sm.transitions| - |stepEdges|..] == stepEdges
    {
      ghost var start := sm.Snapshot();
      var saved := allowGoBackTo;
      allowGoBackTo := RuntimesOf(previous);
      var accepted := Accept(resolved[idx], fuel);
      allowGoBackTo := saved;
      if accepted.Err? {
        return accepted;
      }
      var state := accepted.value;
      ghost var mid := sm.Snapshot();
      ConnectStep(seqModule, resolved, idx, init, last, previous, state);
      ghost var stepEdges := StepEdges(seqModule, resolved, idx, init, last, previous, state);
      GrownAppend(mid, [state], stepEdges);
      GrownTrans(start, mid, sm.Snapshot());
      assert sm.transitions[|sm.transitions| - |stepEdges|..] == stepEdges;
      r := Ok(state);
    }

    /** The rest of one `visit_sequence_item` iteration: the step added to the machine with its edges. */
    method ConnectStep(seqModule: Spec.Module, resolved: seq<Spec.Module>, idx: nat, init: Vtx, last: Vtx,
                       previous: seq<Vtx>, state: Vtx)
      requires Valid() && seqModule.Sequence? && idx < |resolved| && init.Initial? && init.id < nextId && AllStates(previous)
      requires state.State? && state.id < nextId
      requires idx == 0 ==> last == init
      requires idx > 0 ==> last.State? && last.id < nextId
      modifies sm
      ensures Valid() && sm.vertices == old(sm.vertices) + [state]
      ensures sm.transitions == old(sm.transitions) + StepEdges(seqModule, resolved, idx, init, last, previous, state)
    {
      var goBack := if seqModule.goback then previous + [state] else previous;
      ghost var start := sm.Snapshot();
      sm.AddState(state);
      EventfulAddVertex(start, state, nextId);
      ghost var added := sm.Snapshot();
      ghost var stepEdges := StepEdges(seqModule, resolved, idx, init, last, previous, state);
      if last == init {
        sm.AddTransition(last, state, Some(ActivateModuleType(state.specModule)), Some(CompositeAction([RunTool(state.runtime), Mem(state.specModule)])));
      } else {
        var actions := StepActionsOf(seqModule.memory, resolved, idx, last, resolved[idx - 1], state);
        if seqModule.goback {
          AddBackEdges(state, goBack);
        }
        sm.AddTransition(last, state, Some(TaskFinishEventEventType), Some(CompositeAction(actions)));
      }
      assert sm.transitions == added.transitions + stepEdges;
      EventfulAddEdges(added, stepEdges, nextId);
    }

    /** The go-back loop of `visit_sequence_item`: an activation edge from `state` to each of `previous`. */
    method AddBackEdges(state: Vtx, previous: seq<Vtx>)
      requires AllStates(previous)
      modifies sm
      ensures sm.transitions == old(sm.transitions) + BackEdges(state, previous)
      ensures sm.vertices == old(sm.vertices)
    {
      var i := 0;
      while i < |previous|
        invariant 0 <= i <= |previous|
        invariant sm.transitions == old(sm.transitions) + BackEdges(state, previous[..i])
        invariant sm.vertices == old(sm.vertices)
      {
        var p := previous[i];
        sm.AddTransition(state, p, Some(ActivateModuleType(p.specModule)), Some(CompositeAction([RunTool(p.runtime), Mem(p.specModule)])));
        assert BackEdges(state, previous[..i + 1]) == BackEdges(state, previous[..i]) + [Activation(state, p)];
        i := i + 1;
      }
      assert previous[..i] == previous;
    }

    /**
     * The actions of a step's forward edge as `visit_sequence_item` builds them: for a full-scope
     * sequence each copy is inserted at the front in turn, after them come the say, the new step's
     * run and record, and the previous step's record goes at the very front.
     */
    method StepActionsOf(scope: Spec.MemoryScope, resolved: seq<Spec.Module>, idx: nat, last: Vtx, lastModule: Spec.Module, state: Vtx)
      returns (actions: seq<Action>)
      requires idx <= |resolved| && !last.Initial? && !state.Initial?
      ensures actions == StepActions(scope, resolved, idx, last, lastModule, state)
    {
      var copies: seq<Action> := [];
      if scope == Spec.Full {
        var j := idx;
        while j < |resolved|
          invariant idx <= j <= |resolved|
          invariant copies == Copies(resolved[idx..j], lastModule)
        {
          assert resolved[idx..j + 1][..j - idx] == resolved[idx..j];
          copies := [UpdateMemory(resolved[j], Some(lastModule), Some(SequenceCopied))] + copies;
          j := j + 1;
        }
        assert resolved[idx..j] == resolved[idx..];
      }
      actions := [Mem(last.specModule)] + copies + [SayAction(None, true), RunTool(state.runtime), Mem(state.specModule)];
    }

    /**
     * `visit_chatbot_model`: the initial module's state, then a new `Initial` with the one edge,
     * without an event, into it, carrying the greeting unless the user speaks first.
     */
    method VisitChatbotModel(fuel: nat) returns (r: Result<Machine<Runtime.RuntimeModule, Action>>, ghost entry: Vtx, ghost init: nat)
      requires Valid() && NoInitial(sm.vertices)
      modifies this, generator, sm
      ensures r.Ok? ==> r.value == sm.Snapshot() && Compiled(r.value, registry, entry, init, Greeting(userBegins, greeting))
                        && entry.specModule == initial
    {
      entry := Initial(0);
      init := 0;
      ghost var first := sm.Snapshot();
      var accepted := Accept(initial, fuel);
      if accepted.Err? {
        return Err(accepted.error), entry, init;
      }
      var state := accepted.value;
      entry := state;
      NoInitialGrown(first, sm.Snapshot());
      var m := AddEntry(state);
      init := m.vertices[|m.vertices| - 1].id;
      r := Ok(m);
    }

    /** The second half of `visit_chatbot_model`: the new `Initial` and its greeting edge into the entry state. */
    method AddEntry(entry: Vtx) returns (m: Machine<Runtime.RuntimeModule, Action>)
      requires Valid() && NoInitial(sm.vertices) && entry.State? && entry.id in registry && registry[entry.id] == entry
      modifies this, sm
      ensures m == sm.Snapshot() && |m.vertices| > 0 && m.vertices[|m.vertices| - 1] == Initial(old(nextId))
      ensures registry == old(registry)
      ensures Compiled(m, registry, entry, old(nextId), Greeting(userBegins, greeting))
    {
      var start := Initial(nextId);
      var init := nextId;
      nextId := nextId + 1;
      ghost var before := sm.Snapshot();
      sm.AddState(start);
      if userBegins {
        sm.AddTransition(start, entry, None, None);
      } else {
        sm.AddTransition(start, entry, None, Some(SayAction(Some(VStr(greeting)), false)));
      }
      m := sm.Snapshot();
      var g := Transition(init, entry.id, TriggerFor(None, Greeting(userBegins, greeting)));
      assert m.transitions == before.transitions + [g];
      InitialOfLast(before.vertices, start);
      forall t | t in AllTransitions(m) && (t.trigger.event.None? || t.source == init) ensures t == g {
        AllTransitionsMembers(m, t);
        AllTransitionsMembers(before, t);
      }
    }
  }
}
