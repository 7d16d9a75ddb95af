// The conversation state machine: vertices, triggered transitions, nested composite states and the
// first-match transition lookup.
module StateMachines {
  import opened Wrappers
  import opened Strings
  import opened Events
  import Spec

  /**
   * A vertex. Python compares vertices by object identity; the model gives each vertex a unique `id`
   * and transitions refer to their endpoints by id. `R` is the runtime module a state carries.
   * A composite state is a state that is also a machine; the model keeps its finished inner machine.
   */
  datatype Vertex<R, A> =
    | Initial(id: nat)
    | State(id: nat, specModule: Spec.Module, runtime: R)
    | Composite(id: nat, specModule: Spec.Module, runtime: R, inner: Machine<R, A>)

  /** A trigger: the event that fires it (or none, an epsilon edge) and the action it runs. */
  datatype Trigger<A> = Trigger(event: Option<TriggerEvent>, action: Option<A>)

  datatype Transition<A> = Transition(source: nat, target: nat, trigger: Trigger<A>)

  datatype Machine<R, A> = Machine(vertices: seq<Vertex<R, A>>, transitions: seq<Transition<A>>)

  /** `EMPTY_TRIGGER`, shared by every edge with neither an event nor an action. */
  function EmptyTrigger<A>(): Trigger<A> { Trigger(None, None) }

  /** The trigger `add_transition` stores for an optional event and action. */
  function TriggerFor<A>(event: Option<TriggerEvent>, action: Option<A>): (t: Trigger<A>)
    ensures event.None? && action.None? ==> t == EmptyTrigger()
    ensures t.event == event && t.action == action
  {
    if event.None? && action.None? then EmptyTrigger() else Trigger(event, action)
  }

  /** `state_id`: the module's name; an `Initial` vertex has none. */
  function StateId<R, A>(v: Vertex<R, A>): (r: Result<string>)
    ensures v.Initial? <==> r.Err?
    ensures !v.Initial? ==> r == Ok(v.specModule.name)
  {
    if v.Initial? then Err(AttributeError("state_id")) else Ok(v.specModule.name)
  }

  /** `str(v)`. */
  function VertexStr<R, A>(v: Vertex<R, A>): string
  {
    if v.Initial? then "Initial" else "<" + v.specModule.name + ">"
  }

  // ----- Initial vertex -----

  /** The first `Initial` among the vertices, or the `IndexError` of indexing an empty list. */
  function InitialOf<R, A>(vs: seq<Vertex<R, A>>): Result<Vertex<R, A>>
  {
    if vs == [] then Err(IndexError("list index out of range"))
    else if vs[0].Initial? then Ok(vs[0])
    else InitialOf(vs[1..])
  }

  lemma {:induction false} InitialOfFirst<R, A>(vs: seq<Vertex<R, A>>)
    ensures InitialOf(vs).Ok? ==>
              exists i :: 0 <= i < |vs| && vs[i] == InitialOf(vs).value && vs[i].Initial?
                          && forall j :: 0 <= j < i ==> !vs[j].Initial?
    ensures InitialOf(vs).Err? <==> forall i :: 0 <= i < |vs| ==> !vs[i].Initial?
  {
    if vs != [] && !vs[0].Initial? {
      InitialOfFirst(vs[1..]);
      if InitialOf(vs).Ok? {
        var i :| 0 <= i < |vs[1..]| && vs[1..][i] == InitialOf(vs[1..]).value && vs[1..][i].Initial?
                 && forall j :: 0 <= j < i ==> !vs[1..][j].Initial?;
        assert vs[i + 1] == vs[1..][i];
        forall j | 0 <= j < i + 1 ensures !vs[j].Initial? {
          if j > 0 { assert vs[j] == vs[1..][j - 1]; }
        }
      } else {
        forall i | 0 <= i < |vs| ensures !vs[i].Initial? {
          if i > 0 { assert vs[i] == vs[1..][i - 1]; }
        }
      }
    }
  }

  // ----- All transitions -----

  /** `get_all_transitions`: nested composites' transitions first, in vertex order, then the machine's own. */
  function AllTransitions<R, A>(m: Machine<R, A>): seq<Transition<A>>
    decreases m, 1
  {
    NestedTransitions(m, |m.vertices|) + m.transitions
  }

  /** The transitions of the composites among the first `n` vertices of `m`, each one flattened. */
  function NestedTransitions<R, A>(m: Machine<R, A>, n: nat): seq<Transition<A>>
    requires n <= |m.vertices|
    decreases m, 0, n
  {
    if n == 0 then []
    else
      var v := m.vertices[n - 1];
      NestedTransitions(m, n - 1) + if v.Composite? then AllTransitions(v.inner) else []
  }

  /** A machine's own transitions are the tail of its flattened list, in declaration order. */
  lemma OwnTransitionsLast<R, A>(m: Machine<R, A>)
    ensures |AllTransitions(m)| >= |m.transitions|
    ensures AllTransitions(m)[|AllTransitions(m)| - |m.transitions|..] == m.transitions
  {
    var nested := NestedTransitions(m, |m.vertices|);
    assert AllTransitions(m) == nested + m.transitions;
    assert (nested + m.transitions)[|nested|..] == m.transitions;
  }

  /** A transition of a composite among the first `n` vertices is among their flattened transitions. */
  lemma {:induction false} NestedMember<R, A>(m: Machine<R, A>, n: nat, k: nat, t: Transition<A>)
    requires k < n <= |m.vertices| && m.vertices[k].Composite? && t in AllTransitions(m.vertices[k].inner)
    ensures t in NestedTransitions(m, n)
    decreases n
  {
    var v := m.vertices[n - 1];
    var tail := if v.Composite? then AllTransitions(v.inner) else [];
    assert NestedTransitions(m, n) == NestedTransitions(m, n - 1) + tail;
    if k < n - 1 {
      NestedMember(m, n - 1, k, t);
    }
  }

  /** Conversely, every flattened nested transition comes from one of the composites. */
  lemma {:induction false} NestedOrigin<R, A>(m: Machine<R, A>, n: nat, t: Transition<A>)
    requires n <= |m.vertices| && t in NestedTransitions(m, n)
    ensures exists k :: 0 <= k < n && m.vertices[k].Composite? && t in AllTransitions(m.vertices[k].inner)
    decreases n
  {
    var v := m.vertices[n - 1];
    var tail := if v.Composite? then AllTransitions(v.inner) else [];
    assert NestedTransitions(m, n) == NestedTransitions(m, n - 1) + tail;
    if t in NestedTransitions(m, n - 1) {
      NestedOrigin(m, n - 1, t);
    } else {
      assert t in tail;
      assert m.vertices[n - 1].Composite? && t in AllTransitions(m.vertices[n - 1].inner);
    }
  }

  /**
   * The flattened transitions are exactly the machine's own and those of its composites, recursively,
   * and the own ones come last.
   */
  lemma AllTransitionsMembers<R, A>(m: Machine<R, A>, t: Transition<A>)
    ensures t in AllTransitions(m) <==>
              t in m.transitions
              || exists k :: 0 <= k < |m.vertices| && m.vertices[k].Composite? && t in AllTransitions(m.vertices[k].inner)
  {
    var nested := NestedTransitions(m, |m.vertices|);
    assert AllTransitions(m) == nested + m.transitions;
    if t in nested {
      NestedOrigin(m, |m.vertices|, t);
    }
    if k :| 0 <= k < |m.vertices| && m.vertices[k].Composite? && t in AllTransitions(m.vertices[k].inner) {
      NestedMember(m, |m.vertices|, k, t);
    }
  }

  // ----- Transition lookup -----

  /** `t` leaves vertex `id` and accepts `event`: an epsilon edge for no event, else a compatible trigger. */
  predicate Accepts<A>(t: Transition<A>, id: nat, event: Option<Event>)
  {
    t.source == id &&
    ((event.None? && t.trigger.event.None?) || (t.trigger.event.Some? && IsCompatible(t.trigger.event.value, event)))
  }

  /** `t` leaves vertex `id` as an epsilon edge met by an event: Python calls a method on `None`. */
  predicate Breaks<A>(t: Transition<A>, id: nat, event: Option<Event>)
  {
    t.source == id && event.Some? && t.trigger.event.None?
  }

  /** The lookup stops at `t`, with a result or with an error. */
  predicate Decides<A>(t: Transition<A>, id: nat, event: Option<Event>)
  {
    Accepts(t, id, event) || Breaks(t, id, event)
  }

  /** The scan of `transition_for` over a transition list, first decision wins. */
  function Scan<A>(ts: seq<Transition<A>>, id: nat, event: Option<Event>): Result<Option<Transition<A>>>
  {
    if ts == [] then Ok(None)
    else if Accepts(ts[0], id, event) then Ok(Some(ts[0]))
    else if Breaks(ts[0], id, event) then Err(AttributeError("is_compatible"))
    else Scan(ts[1..], id, event)
  }

  /** The first transition that decides fixes the outcome: itself when it accepts, else the error. */
  lemma {:induction false} ScanFirstDecision<A>(ts: seq<Transition<A>>, id: nat, event: Option<Event>, i: nat)
    requires i < |ts| && Decides(ts[i], id, event)
    requires forall j :: 0 <= j < i ==> !Decides(ts[j], id, event)
    ensures Scan(ts, id, event) == if Accepts(ts[i], id, event) then Ok(Some(ts[i])) else Err(AttributeError("is_compatible"))
    decreases i
  {
    if i > 0 {
      assert !Decides(ts[0], id, event);
      forall j | 0 <= j < i - 1 ensures !Decides(ts[1..][j], id, event) {
        assert ts[1..][j] == ts[j + 1];
      }
      ScanFirstDecision(ts[1..], id, event, i - 1);
    }
  }

  /** With no deciding transition the lookup finds nothing. */
  lemma {:induction false} ScanNoDecision<A>(ts: seq<Transition<A>>, id: nat, event: Option<Event>)
    requires forall j :: 0 <= j < |ts| ==> !Decides(ts[j], id, event)
    ensures Scan(ts, id, event) == Ok(None)
  {
    if ts != [] {
      assert !Decides(ts[0], id, event);
      forall j | 0 <= j < |ts| - 1 ensures !Decides(ts[1..][j], id, event) {
        assert ts[1..][j] == ts[j + 1];
      }
      ScanNoDecision(ts[1..], id, event);
    }
  }

  /** A found transition leaves `id`, accepts the event and is one of the scanned transitions. */
  lemma {:induction false} ScanFound<A>(ts: seq<Transition<A>>, id: nat, event: Option<Event>)
    ensures Scan(ts, id, event).Ok? && Scan(ts, id, event).value.Some? ==>
              Scan(ts, id, event).value.value in ts && Accepts(Scan(ts, id, event).value.value, id, event)
  {
    if ts != [] && !Accepts(ts[0], id, event) && !Breaks(ts[0], id, event) {
      ScanFound(ts[1..], id, event);
    }
  }

  /**
   * `transition_for(current, event)` on the machine `m`: for a composite, first the scan of its own
   * flattened transitions from its `Initial`; when that finds nothing, the scan of `m`'s flattened
   * transitions from `current`.
   */
  function TransitionForIn<R, A>(m: Machine<R, A>, current: Vertex<R, A>, event: Option<Event>): (r: Result<Option<Transition<A>>>)
  {
    var outer := Scan(AllTransitions(m), current.id, event);
    if current.Composite? then
      match InitialOf(current.inner.vertices)
      case Err(e) => Err(e)
      case Ok(init) =>
        match Scan(AllTransitions(current.inner), init.id, event)
        case Err(e) => Err(e)
        case Ok(None) => outer
        case Ok(Some(t)) => Ok(Some(t))
    else outer
  }

  /**
   * What the lookup finds leaves the current vertex and accepts the event, or, for a composite, is an
   * inner transition that leaves the composite's `Initial`.
   */
  lemma TransitionForFound<R, A>(m: Machine<R, A>, current: Vertex<R, A>, event: Option<Event>)
    ensures var r := TransitionForIn(m, current, event);
            r.Ok? && r.value.Some? ==>
              (r.value.value in AllTransitions(m) && Accepts(r.value.value, current.id, event))
              || (current.Composite? && InitialOf(current.inner.vertices).Ok?
                  && r.value.value in AllTransitions(current.inner)
                  && Accepts(r.value.value, InitialOf(current.inner.vertices).value.id, event))
  {
    ScanFound(AllTransitions(m), current.id, event);
    if current.Composite? && InitialOf(current.inner.vertices).Ok? {
      ScanFound(AllTransitions(current.inner), InitialOf(current.inner.vertices).value.id, event);
    }
  }

  /** For a plain vertex, or a composite whose inner scan finds nothing, the outer scan decides. */
  lemma OuterScanWhenInnerSilent<R, A>(m: Machine<R, A>, current: Vertex<R, A>, event: Option<Event>)
    requires current.Composite? ==>
               InitialOf(current.inner.vertices).Ok?
               && forall j :: 0 <= j < |AllTransitions(current.inner)| ==>
                    !Decides(AllTransitions(current.inner)[j], InitialOf(current.inner.vertices).value.id, event)
    ensures TransitionForIn(m, current, event) == Scan(AllTransitions(m), current.id, event)
  {
    if current.Composite? {
      ScanNoDecision(AllTransitions(current.inner), InitialOf(current.inner.vertices).value.id, event);
    }
  }

  /** A composite's inner transition, once found, wins over every outer edge. */
  lemma InnerWins<R, A>(m: Machine<R, A>, current: Vertex<R, A>, event: Option<Event>, i: nat)
    requires current.Composite? && InitialOf(current.inner.vertices).Ok?
    requires var ts := AllTransitions(current.inner);
             var init := InitialOf(current.inner.vertices).value.id;
             i < |ts| && Accepts(ts[i], init, event) && forall j :: 0 <= j < i ==> !Decides(ts[j], init, event)
    ensures TransitionForIn(m, current, event) == Ok(Some(AllTransitions(current.inner)[i]))
  {
    ScanFirstDecision(AllTransitions(current.inner), InitialOf(current.inner.vertices).value.id, event, i);
  }

  // ----- The mutable machine -----

  class StateMachine<R, A> {
    var vertices: seq<Vertex<R, A>>
    var transitions: seq<Transition<A>>

    constructor()
      ensures vertices == [] && transitions == []
    {
      vertices := [];
      transitions := [];
    }

    function Snapshot(): Machine<R, A>
      reads this
    {
      Machine(vertices, transitions)
    }

    /** `add_transition`: appended, so transitions keep declaration order. */
    method AddTransition(src: Vertex<R, A>, tgt: Vertex<R, A>, event: Option<TriggerEvent>, action: Option<A>)
      modifies this
      ensures transitions == old(transitions) + [Transition(src.id, tgt.id, TriggerFor(event, action))]
      ensures vertices == old(vertices)
    {
      var trigger := if event.None? && action.None? then EmptyTrigger() else Trigger(event, action);
      transitions := transitions + [Transition(src.id, tgt.id, trigger)];
    }

    /** `add_state`. */
    method AddState(v: Vertex<R, A>)
      modifies this
      ensures vertices == old(vertices) + [v]
      ensures transitions == old(transitions)
    {
      vertices := vertices + [v];
    }

    /** `initial_state`: the first `Initial` vertex. */
    method InitialState() returns (r: Result<Vertex<R, A>>)
      ensures r == InitialOf(vertices)
    {
      var i := 0;
      while i < |vertices|
        invariant 0 <= i <= |vertices|
        invariant InitialOf(vertices[i..]) == InitialOf(vertices)
      {
        if vertices[i].Initial? {
          return Ok(vertices[i]);
        }
        assert vertices[i..][1..] == vertices[i + 1..];
        i := i + 1;
      }
      return Err(IndexError("list index out of range"));
    }

    /** `get_all_transitions`. */
    method GetAllTransitions() returns (r: seq<Transition<A>>)
      ensures r == AllTransitions(Snapshot())
    {
      r := [];
      var i := 0;
      while i < |vertices|
        invariant 0 <= i <= |vertices|
        invariant r == NestedTransitions(Snapshot(), i)
      {
        var v := vertices[i];
        if v.Composite? {
          r := r + AllTransitions(v.inner);
        }
        i := i + 1;
      }
      r := r + transitions;
    }

    /** `transition_for(current, event)`. */
    method TransitionFor(current: Vertex<R, A>, event: Option<Event>) returns (r: Result<Option<Transition<A>>>)
      ensures r == TransitionForIn(Snapshot(), current, event)
    {
      if current.Composite? {
        var init := InitialOf(current.inner.vertices);
        if init.Err? {
          return Err(init.error);
        }
        var inner := ScanTransitions(AllTransitions(current.inner), init.value.id, event);
        if inner.Err? || inner.value.Some? {
          return inner;
        }
      }
      var all := GetAllTransitions();
      r := ScanTransitions(all, current.id, event);
    }
  }

  /** The `for t in ...` loop of `transition_for`. */
  method ScanTransitions<A>(ts: seq<Transition<A>>, id: nat, event: Option<Event>) returns (r: Result<Option<Transition<A>>>)
    ensures r == Scan(ts, id, event)
  {
    var i := 0;
    while i < |ts|
      invariant 0 <= i <= |ts|
      invariant Scan(ts[i..], id, event) == Scan(ts, id, event)
    {
      var t := ts[i];
      if t.source == id {
        if event.None? && t.trigger.event.None? {
          return Ok(Some(t));
        } else if t.trigger.event.None? {
          return Err(AttributeError("is_compatible"));
        } else if IsCompatible(t.trigger.event.value, event) {
          return Ok(Some(t));
        }
      }
      assert ts[i..][1..] == ts[i + 1..];
      i := i + 1;
    }
    return Ok(None);
  }

  // ----- Node names -----

  /** `escape`: `<` and `>` become HTML entities. */
  function Escape(s: string): string
  {
    Replace(Replace(s, "<", "&lt;"), ">", "&gt;")
  }

  /** `to_node_id`: the vertex text without angle brackets, prefixed by `parent_` when there is a parent. */
  function ToNodeId<R, A>(v: Vertex<R, A>, parent: Option<string>): string
  {
    var node := Replace(Replace(VertexStr(v), "<", ""), ">", "");
    match parent
    case None => node
    case Some(p) => p + "_" + node
  }

  /** Escaped text has no angle brackets, and text without them is unchanged. */
  lemma EscapeRemovesBrackets(s: string)
    ensures '<' !in Escape(s) && '>' !in Escape(s)
    ensures '<' !in s && '>' !in s ==> Escape(s) == s
  {
    ReplaceChar(s, '<', "&lt;");
    var s1 := Replace(s, "<", "&lt;");
    ReplaceChar(s1, '>', "&gt;");
    MapCharMembership(s, '<', "&lt;", '<');
    MapCharMembership(s1, '>', "&gt;", '<');
    MapCharMembership(s1, '>', "&gt;", '>');
    if '<' !in s && '>' !in s {
      MapCharAbsent(s, '<', "&lt;");
      MapCharMembership(s, '<', "&lt;", '>');
      MapCharAbsent(s1, '>', "&gt;");
    }
  }

  /** Removing `<` from `<name>` leaves `name>`. */
  lemma DropOpening(name: string)
    requires '<' !in name
    ensures MapChar("<" + name + ">", '<', "") == name + ">"
  {
    assert "<" + name + ">" == ['<'] + (name + ['>']);
    MapCharConcat(['<'], name + ['>'], '<', "");
    MapCharConcat(name, ['>'], '<', "");
    MapCharAbsent(name, '<', "");
    assert MapChar(['>'], '<', "") == ['>'];
    assert MapChar(['<'], '<', "") == [];
  }

  /** Removing `>` from `name>` leaves `name`. */
  lemma DropClosing(name: string)
    requires '>' !in name
    ensures MapChar(name + ">", '>', "") == name
  {
    MapCharConcat(name, ['>'], '>', "");
    MapCharAbsent(name, '>', "");
    assert MapChar(['>'], '>', "") == [];
  }

  /** A state's node id is its module name (prefixed by the parent), when the name has no angle brackets. */
  lemma ToNodeIdOfState<R, A>(v: Vertex<R, A>, parent: Option<string>)
    requires !v.Initial? && '<' !in v.specModule.name && '>' !in v.specModule.name
    ensures ToNodeId(v, parent) == match parent case None => v.specModule.name case Some(p) => p + "_" + v.specModule.name
  {
    var name := v.specModule.name;
    assert VertexStr(v) == "<" + name + ">";
    ReplaceChar("<" + name + ">", '<', "");
    DropOpening(name);
    ReplaceChar(name + ">", '>', "");
    DropClosing(name);
  }

  /** No node id contains an angle bracket unless the parent prefix does. */
  lemma ToNodeIdHasNoBrackets<R, A>(v: Vertex<R, A>, parent: Option<string>)
    requires parent.Some? ==> '<' !in parent.value && '>' !in parent.value
    ensures '<' !in ToNodeId(v, parent) && '>' !in ToNodeId(v, parent)
  {
    var str := VertexStr(v);
    ReplaceChar(str, '<', "");
    var s1 := Replace(str, "<", "");
    ReplaceChar(s1, '>', "");
    MapCharMembership(str, '<', "", '<');
    MapCharMembership(s1, '>', "", '<');
    MapCharMembership(s1, '>', "", '>');
  }
}
