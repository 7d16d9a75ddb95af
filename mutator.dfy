// The mutation operators of the chatbot mutator. Each operator walks the modules of a chatbot,
// changes one element of a module in place, persists the mutated module as a numbered mutant,
// and puts the element back before going on.
module Mutator {
  import opened Wrappers
  import opened Strings
  import opened Values
  import opened Dicts
  import opened Spec
  import Serialise
  import Transformer
  import Actions
  import Seqs

  // ----- What a mutant changed -----

  /** The description `persist` writes beside a mutant, kept structured. */
  datatype Mutation =
    | EnumValueDeleted(data: string, value: Value)
    | RequiredChanged(data: string, now: bool)
    | QuestionDeleted(question: QuestionAnswer)
    | AnswersSwapped(first: QuestionAnswer, second: QuestionAnswer)
    | FallbackDeleted
    | ItemDeleted(title: string)
    | StepDeleted(step: string)
    | StepsSwapped(step: string, other: string)
    | ExpressionRemoved(expression: string)
    | RephraseChanged(rephrase: Option<string>, newRephrase: string)
    | MemoryChanged(scope: MemoryScope, newScope: MemoryScope, title: string)

  /**
   * What an operator does to one value, in the order of its loops: the variants it persists,
   * each with its description, and the value it leaves behind once it has put things back.
   */
  datatype Outcome<A> = Outcome(variants: seq<(A, Mutation)>, left: A)

  // ----- Deleting one element, swapping two -----

  /** `xs[:i] + xs[i+1:]`. */
  function Without<T>(xs: seq<T>, i: nat): (r: seq<T>)
    requires i < |xs|
    ensures |r| == |xs| - 1
    ensures r[..i] + [xs[i]] + r[i..] == xs
  {
    assert (xs[..i] + xs[i + 1..])[..i] == xs[..i];
    assert (xs[..i] + xs[i + 1..])[i..] == xs[i + 1..];
    xs[..i] + xs[i + 1..]
  }

  /** One variant per index, in index order, each with exactly that element removed. */
  function Deletions<T>(xs: seq<T>, describe: T -> Mutation): (r: seq<(seq<T>, Mutation)>)
    ensures |r| == |xs|
    ensures forall i :: 0 <= i < |r| ==>
              |r[i].0| == |xs| - 1 && r[i].0[..i] + [xs[i]] + r[i].0[i..] == xs && r[i].1 == describe(xs[i])
  {
    seq(|xs|, i requires 0 <= i < |xs| => (Without(xs, i), describe(xs[i])))
  }

  /** The pairs `i < j` below `n` in the order of `for i in range(n-1): for j in range(i+1, n)`, from row `i` on. */
  function PairsFrom(i: nat, n: nat): (r: seq<(nat, nat)>)
    ensures forall k :: 0 <= k < |r| ==> i <= r[k].0 < r[k].1 < n
    decreases n - i
  {
    if i + 1 >= n then [] else Row(i, n) + PairsFrom(i + 1, n)
  }

  function Pairs(n: nat): (r: seq<(nat, nat)>)
    ensures forall k :: 0 <= k < |r| ==> r[k].0 < r[k].1 < n
  {
    PairsFrom(0, n)
  }

  /** Pair `p` comes strictly before pair `q` in that loop order. */
  predicate Before(p: (nat, nat), q: (nat, nat)) { p.0 < q.0 || (p.0 == q.0 && p.1 < q.1) }

  function Row(i: nat, n: nat): (r: seq<(nat, nat)>)
    requires i + 1 < n
    ensures |r| == n - i - 1 && forall k :: 0 <= k < |r| ==> r[k] == (i, i + 1 + k)
  {
    seq(n - i - 1, k requires 0 <= k < n - i - 1 => (i, i + 1 + k))
  }

  /** Row `i` onwards holds exactly the pairs `i <= a < b < n`. */
  lemma {:induction false} PairsFromMembers(i: nat, n: nat)
    ensures forall p :: p in PairsFrom(i, n) <==> i <= p.0 < p.1 < n
    decreases n - i
  {
    if i + 1 < n {
      PairsFromMembers(i + 1, n);
      var row := Row(i, n);
      assert PairsFrom(i, n) == row + PairsFrom(i + 1, n);
      forall p: (nat, nat) | p.0 == i && i < p.1 < n ensures p in row {
        assert row[p.1 - i - 1] == p;
      }
    }
  }

  /** Row `i` onwards lists its pairs in loop order, hence each once. */
  lemma {:induction false} PairsFromOrdered(i: nat, n: nat)
    ensures forall a, b :: 0 <= a < b < |PairsFrom(i, n)| ==> Before(PairsFrom(i, n)[a], PairsFrom(i, n)[b])
    decreases n - i
  {
    if i + 1 < n {
      PairsFromOrdered(i + 1, n);
      PairsFromMembers(i + 1, n);
      var row := Row(i, n);
      var rest := PairsFrom(i + 1, n);
      assert PairsFrom(i, n) == row + rest;
      forall a, b | 0 <= a < b < |row + rest| ensures Before((row + rest)[a], (row + rest)[b]) {
        if b >= |row| && a < |row| {
          assert rest[b - |row|] in rest;
        } else if b >= |row| {
          assert (row + rest)[a] == rest[a - |row|] && (row + rest)[b] == rest[b - |row|];
        }
      }
    }
  }

  /** Twice the number of pairs from row `i` on is `m * (m - 1)` for the `m = n - i` indices left. */
  lemma {:induction false} PairsFromCount(i: nat, n: nat)
    ensures 2 * |PairsFrom(i, n)| == if i < n then (n - i) * (n - i - 1) else 0
    decreases n - i
  {
    if i + 1 < n {
      PairsFromCount(i + 1, n);
      var m := n - i;
      assert 2 * |PairsFrom(i, n)| == 2 * (m - 1) + (m - 1) * (m - 2);
      assert 2 * (m - 1) + (m - 1) * (m - 2) == (m - 1) * m;
    }
  }

  /** Every pair `i < j < n` exactly once, in the order the swap operators visit them. */
  lemma PairsShape(n: nat)
    ensures forall p :: p in Pairs(n) <==> p.0 < p.1 < n
    ensures forall a, b :: 0 <= a < b < |Pairs(n)| ==> Before(Pairs(n)[a], Pairs(n)[b])
    ensures 2 * |Pairs(n)| == n * (n - 1)
  {
    PairsFromMembers(0, n);
    PairsFromOrdered(0, n);
    PairsFromCount(0, n);
  }

  /** `xs[i], xs[j] = xs[j], xs[i]`. */
  function Swap<T>(xs: seq<T>, i: nat, j: nat): (r: seq<T>)
    requires i < j < |xs|
    ensures |r| == |xs| && r[i] == xs[j] && r[j] == xs[i]
    ensures forall k :: 0 <= k < |xs| && k != i && k != j ==> r[k] == xs[k]
    ensures multiset(r) == multiset(xs)
  {
    xs[i := xs[j]][j := xs[i]]
  }

  /** Swapping the same two elements again gives the original back. */
  lemma SwapTwice<T>(xs: seq<T>, i: nat, j: nat)
    requires i < j < |xs|
    ensures Swap(Swap(xs, i, j), i, j) == xs
  {
  }

  // ----- Mutating one element of a sequence -----

  /**
   * Applies an operator to each element of `xs` in turn. A variant changes one element; the
   * elements before it are as the operator left them, those after it untouched.
   */
  function Lift<A>(xs: seq<A>, f: A -> Result<Outcome<A>>): (r: Result<Outcome<seq<A>>>)
    ensures r.Ok? ==> |r.value.left| == |xs|
    decreases |xs|
  {
    if xs == [] then Ok(Outcome([], []))
    else
      var h := f(xs[0]);
      if h.Err? then Err(h.error)
      else
        var t := Lift(xs[1..], f);
        if t.Err? then Err(t.error)
        else
          var here := seq(|h.value.variants|, k requires 0 <= k < |h.value.variants| =>
                            ([h.value.variants[k].0] + xs[1..], h.value.variants[k].1));
          var later := seq(|t.value.variants|, k requires 0 <= k < |t.value.variants| =>
                             ([h.value.left] + t.value.variants[k].0, t.value.variants[k].1));
          Ok(Outcome(here + later, [h.value.left] + t.value.left))
  }

  /** A variant of `Lift`: which element it changed, and to which of that element's variants. */
  lemma {:induction false} LiftVariant<A>(xs: seq<A>, f: A -> Result<Outcome<A>>, k: nat) returns (i: nat, l: nat)
    requires Lift(xs, f).Ok? && k < |Lift(xs, f).value.variants|
    ensures i < |xs| && f(xs[i]).Ok? && l < |f(xs[i]).value.variants|
    ensures Lift(xs, f).value.variants[k]
            == (Lift(xs, f).value.left[..i] + [f(xs[i]).value.variants[l].0] + xs[i + 1..], f(xs[i]).value.variants[l].1)
    decreases |xs|
  {
    var h := f(xs[0]).value;
    var t := Lift(xs[1..], f).value;
    var r := Lift(xs, f).value;
    if k < |h.variants| {
      i, l := 0, k;
      assert r.variants[k] == ([h.variants[k].0] + xs[1..], h.variants[k].1);
      assert r.left[..0] + [h.variants[k].0] == [h.variants[k].0];
    } else {
      var i', l' := LiftVariant(xs[1..], f, k - |h.variants|);
      i, l := i' + 1, l';
      assert xs[1..][i'] == xs[i];
      assert xs[1..][i' + 1..] == xs[i + 1..];
      var y := f(xs[i]).value.variants[l].0;
      assert r.variants[k] == ([h.left] + t.variants[k - |h.variants|].0, t.variants[k - |h.variants|].1);
      assert t.variants[k - |h.variants|].0 == t.left[..i'] + [y] + xs[i + 1..];
      assert r.left[..i] == [h.left] + t.left[..i'];
      assert [h.left] + (t.left[..i'] + [y] + xs[i + 1..]) == r.left[..i] + [y] + xs[i + 1..];
    }
  }

  /** When the operator puts every element back as it was, so does `Lift`. */
  lemma {:induction false} LiftRestores<A>(xs: seq<A>, f: A -> Result<Outcome<A>>)
    requires Lift(xs, f).Ok?
    requires forall i :: 0 <= i < |xs| && f(xs[i]).Ok? ==> f(xs[i]).value.left == xs[i]
    ensures Lift(xs, f).value.left == xs
    decreases |xs|
  {
    if xs != [] {
      forall i | 0 <= i < |xs[1..]| && f(xs[1..][i]).Ok? ensures f(xs[1..][i]).value.left == xs[1..][i] {
        assert xs[1..][i] == xs[i + 1];
      }
      LiftRestores(xs[1..], f);
    }
  }

  /** With an operator that puts every element back, a variant of `Lift` changes one element and keeps the rest. */
  lemma LiftRestoredVariant<A>(xs: seq<A>, f: A -> Result<Outcome<A>>, k: nat) returns (i: nat, l: nat)
    requires Lift(xs, f).Ok? && k < |Lift(xs, f).value.variants|
    requires forall i :: 0 <= i < |xs| && f(xs[i]).Ok? ==> f(xs[i]).value.left == xs[i]
    ensures i < |xs| && f(xs[i]).Ok? && l < |f(xs[i]).value.variants|
    ensures Lift(xs, f).value.variants[k] == (xs[i := f(xs[i]).value.variants[l].0], f(xs[i]).value.variants[l].1)
  {
    i, l := LiftVariant(xs, f, k);
    LiftRestores(xs, f);
    var y := f(xs[i]).value.variants[l].0;
    assert xs[..i] + [y] + xs[i + 1..] == xs[i := y];
  }

  /** `Lift` fails exactly when the operator fails on some element. */
  lemma {:induction false} LiftFails<A>(xs: seq<A>, f: A -> Result<Outcome<A>>)
    ensures Lift(xs, f).Err? <==> exists i :: 0 <= i < |xs| && f(xs[i]).Err?
    decreases |xs|
  {
    if xs != [] {
      LiftFails(xs[1..], f);
      if exists i :: 0 <= i < |xs[1..]| && f(xs[1..][i]).Err? {
        var i :| 0 <= i < |xs[1..]| && f(xs[1..][i]).Err?;
        assert xs[1..][i] == xs[i + 1];
      }
      if exists i :: 0 <= i < |xs| && f(xs[i]).Err? {
        var i :| 0 <= i < |xs| && f(xs[i]).Err?;
        if i > 0 {
          assert xs[1..][i - 1] == xs[i];
        }
      }
    }
  }

  /** An outcome seen through the context that holds the mutated part. */
  function Within<A, B>(o: Outcome<A>, put: A -> B): (r: Outcome<B>)
    ensures |r.variants| == |o.variants| && r.left == put(o.left)
    ensures forall k :: 0 <= k < |o.variants| ==> r.variants[k] == (put(o.variants[k].0), o.variants[k].1)
  {
    Outcome(seq(|o.variants|, k requires 0 <= k < |o.variants| => (put(o.variants[k].0), o.variants[k].1)), put(o.left))
  }

  /** An element the operator does not touch. */
  function Untouched<A>(x: A): Outcome<A> { Outcome([], x) }

  // ----- The `data` list of action and data-gathering modules -----

  /** One datum of `data`: `for data_name, data_value in data.items()` needs it to be a dictionary. */
  function EachEntry(d: Value, f: ((string, Value)) -> Result<Outcome<(string, Value)>>): Result<Outcome<Value>>
  {
    if !d.VDict? then Err(AttributeError("items"))
    else
      var o := Lift(d.entries, f);
      if o.Err? then Err(o.error) else Ok(Within(o.value, (es: seq<(string, Value)>) => VDict(es)))
  }

  /** An operator on each datum of an action or data-gathering module; other modules are left alone. */
  function EachDatum(m: Module, g: Value -> Result<Outcome<Value>>): Result<Outcome<Module>>
  {
    if m.ActionModule? || m.DataGathering? then
      var o := Lift(m.data, g);
      if o.Err? then Err(o.error) else Ok(Within(o.value, (ds: seq<Value>) => m.(data := ds)))
    else Ok(Untouched(m))
  }

  /**
   * The `values` the deletion loop can run over: `len` and slicing work on a list and on a string;
   * an empty dict has length 0, so the loop never slices it. Anything else raises `TypeError`.
   */
  predicate Sliceable(v: Value)
  {
    v.VList? || v.VStr? || v == VDict([])
  }

  /** `len(values)`. */
  function Length(v: Value): nat
  {
    match v
    case VList(items) => |items|
    case VStr(chars) => |chars|
    case _ => 0
  }

  /** `values[:i] + values[i+1:]`. */
  function DeletedAt(v: Value, i: nat): (r: Value)
    requires (v.VList? || v.VStr?) && i < Length(v)
    ensures v.VList? ==> r == VList(Without(v.items, i))
    ensures v.VStr? ==> r == VStr(Without(v.s, i))
  {
    if v.VList? then VList(Without(v.items, i)) else VStr(Without(v.s, i))
  }

  /** `values[i]`: an item of a list, a one-character string of a string. */
  function ValueAt(v: Value, i: nat): Value
    requires (v.VList? || v.VStr?) && i < Length(v)
  {
    if v.VList? then v.items[i] else VStr([v.s[i]])
  }

  /**
   * `DeleteEnumDataValue` on one datum: for an `enum` type, one variant per value with that value
   * deleted from `values`, which is then written back.
   */
  function EnumDeletions(e: (string, Value)): (r: Result<Outcome<(string, Value)>>)
  {
    var (name, t) := e;
    if t.VDict? && Get(t.entries, "type") == Some(VStr("enum")) then
      var values := Get(t.entries, "values");
      if values.Some? && Sliceable(values.value) then
        var v := values.value;
        Ok(Outcome(seq(Length(v), i requires 0 <= i < Length(v) =>
                         ((name, VDict(Put(t.entries, "values", DeletedAt(v, i)))), EnumValueDeleted(name, ValueAt(v, i)))),
                   (name, VDict(Put(t.entries, "values", v)))))
      else Err(TypeError("values"))
    else Ok(Untouched(e))
  }

  /**
   * An enum without sliceable values raises; otherwise each enum variant holds the enum's values
   * with exactly the `i`-th one (a list item or a character) gone, and the datum is restored.
   */
  lemma EnumDeletionsShape(e: (string, Value))
    ensures EnumDeletions(e).Err? <==>
              e.1.VDict? && Get(e.1.entries, "type") == Some(VStr("enum"))
              && (Get(e.1.entries, "values").None? || !Sliceable(Get(e.1.entries, "values").value))
    ensures EnumDeletions(e).Ok? ==> EnumDeletions(e).value.left == e
    ensures var o := EnumDeletions(e);
            o.Ok? && e.1.VDict? && Get(e.1.entries, "type") == Some(VStr("enum")) ==>
              var v := Get(e.1.entries, "values").value;
              |o.value.variants| == Length(v)
              && forall i :: 0 <= i < Length(v) ==>
                   o.value.variants[i].0 == (e.0, VDict(Put(e.1.entries, "values", DeletedAt(v, i))))
                   && (v.VList? ==> Without(v.items, i)[..i] + [v.items[i]] + Without(v.items, i)[i..] == v.items)
                   && (v.VStr? ==> Without(v.s, i)[..i] + [v.s[i]] + Without(v.s, i)[i..] == v.s)
  {
    if e.1.VDict? && Get(e.1.entries, "type") == Some(VStr("enum")) && Get(e.1.entries, "values").Some? {
      PutSame(e.1.entries, "values", Get(e.1.entries, "values").value);
    }
  }

  /** A string of values loses one character per variant; an empty dict of values makes no variant. */
  lemma EnumStringDeletions(name: string, entries: Dict<Value>, chars: string)
    requires Get(entries, "type") == Some(VStr("enum")) && Get(entries, "values") == Some(VStr(chars))
    ensures EnumDeletions((name, VDict(entries))).Ok?
    ensures var o := EnumDeletions((name, VDict(entries))).value;
            |o.variants| == |chars|
            && forall i :: 0 <= i < |chars| ==>
                 o.variants[i] == ((name, VDict(Put(entries, "values", VStr(chars[..i] + chars[i + 1..])))),
                                   EnumValueDeleted(name, VStr([chars[i]])))
  {
    var v := VStr(chars);
    assert Sliceable(v) && Length(v) == |chars|;
    var o := EnumDeletions((name, VDict(entries))).value;
    forall i | 0 <= i < |chars|
      ensures o.variants[i] == ((name, VDict(Put(entries, "values", VStr(chars[..i] + chars[i + 1..])))),
                                EnumValueDeleted(name, VStr([chars[i]])))
    {
      assert DeletedAt(v, i) == VStr(chars[..i] + chars[i + 1..]);
      assert ValueAt(v, i) == VStr([chars[i]]);
    }
  }

  /** An empty dict of values has length 0: the enum makes no variant and is left as it was. */
  lemma EnumEmptyDictDeletions(name: string, entries: Dict<Value>)
    requires Get(entries, "type") == Some(VStr("enum")) && Get(entries, "values") == Some(VDict([]))
    ensures EnumDeletions((name, VDict(entries))) == Ok(Outcome([], (name, VDict(entries))))
  {
    PutSame(entries, "values", VDict([]));
    assert Length(VDict([])) == 0;
    assert EnumDeletions((name, VDict(entries))).value.variants == [];
  }

  /**
   * `ChangeRequiredData` on one datum with a `required` entry: one variant with the flag negated,
   * then negated again. Python's `not` yields a bool, so a flag that was not a bool comes back as
   * the bool of its truthiness.
   */
  function RequiredFlip(e: (string, Value)): (r: Result<Outcome<(string, Value)>>)
    ensures r.Ok?
  {
    var (name, t) := e;
    if t.VDict? && HasKey(t.entries, "required") then
      var flag := Get(t.entries, "required").value;
      var flipped := Put(t.entries, "required", VBool(!Truthy(flag)));
      Ok(Outcome([((name, VDict(flipped)), RequiredChanged(name, !Truthy(flag)))],
                 (name, VDict(Put(flipped, "required", VBool(Truthy(flag)))))))
    else Ok(Untouched(e))
  }

  /**
   * A datum with a `required` flag yields one variant, which differs from it in that flag alone,
   * now the negation of its truthiness; the datum is put back exactly when the flag was a bool.
   */
  lemma RequiredFlipShape(e: (string, Value))
    ensures var o := RequiredFlip(e).value;
            if e.1.VDict? && HasKey(e.1.entries, "required") then
              var flag := Get(e.1.entries, "required").value;
              |o.variants| == 1 && o.variants[0].0.0 == e.0 && o.variants[0].0.1.VDict?
              && Get(o.variants[0].0.1.entries, "required") == Some(VBool(!Truthy(flag)))
              && (forall k :: k != "required" ==> Get(o.variants[0].0.1.entries, k) == Get(e.1.entries, k))
              && (o.left == e <==> flag.VBool?)
            else o.variants == [] && o.left == e
  {
    if e.1.VDict? && HasKey(e.1.entries, "required") {
      var d := e.1.entries;
      var flag := Get(d, "required").value;
      var flipped := Put(d, "required", VBool(!Truthy(flag)));
      forall k ensures Get(flipped, k) == if k == "required" then Some(VBool(!Truthy(flag))) else Get(d, k) {
        GetPut(d, "required", VBool(!Truthy(flag)), k);
      }
      GetPut(flipped, "required", VBool(Truthy(flag)), "required");
      if flag.VBool? {
        PutRestores(d, "required", flag, VBool(!Truthy(flag)));
      }
    }
  }

  function EnumDatum(d: Value): Result<Outcome<Value>> { EachEntry(d, EnumDeletions) }

  function RequiredDatum(d: Value): Result<Outcome<Value>> { EachEntry(d, RequiredFlip) }

  // ----- Question-answering modules -----

  function Answers(qs: seq<QuestionAnswer>): seq<string> { seq(|qs|, k requires 0 <= k < |qs| => qs[k].answer) }

  function Questions(qs: seq<QuestionAnswer>): seq<string> { seq(|qs|, k requires 0 <= k < |qs| => qs[k].question) }

  /** Exchanging the answers of questions `i` and `j`, each question keeping its text. */
  function SwapAnswers(qs: seq<QuestionAnswer>, i: nat, j: nat): (r: seq<QuestionAnswer>)
    requires i < j < |qs|
    ensures Questions(r) == Questions(qs) && Answers(r) == Swap(Answers(qs), i, j)
  {
    qs[i := qs[i].(answer := qs[j].answer)][j := qs[j].(answer := qs[i].answer)]
  }

  // ----- Menus and their sequence items -----

  /** `DeleteSequenceStep` on one item: a sequence item with each of its steps deleted in turn. */
  function StepDeletions(it: Item): (r: Result<Outcome<Item>>)
    ensures r.Ok?
  {
    if it.SequenceItem? then
      Ok(Within(Outcome(Deletions(it.references, (r: string) => StepDeleted(r)), it.references), (rs: seq<string>) => it.(references := rs)))
    else Ok(Untouched(it))
  }

  /** `SwapSequenceStep` on one item: a sequence item with each pair of its steps swapped. */
  function StepSwaps(it: Item): (r: Result<Outcome<Item>>)
    ensures r.Ok?
  {
    if it.SequenceItem? then
      var rs := it.references;
      var ps := Pairs(|rs|);
      Ok(Outcome(seq(|ps|, k requires 0 <= k < |ps| =>
                       (it.(references := Swap(rs, ps[k].0, ps[k].1)), StepsSwapped(rs[ps[k].0], rs[ps[k].1]))),
                 it))
    else Ok(Untouched(it))
  }

  function OtherScope(s: MemoryScope): MemoryScope
  {
    if s == Individual then Full else Individual
  }

  /** `ChangeMemoryScope.mutate` on a menu item: a sequence item with its memory scope switched. */
  function MemorySwitch(it: Item): (r: Result<Outcome<Item>>)
    ensures r.Ok? && r.value.left == it
    ensures !it.SequenceItem? ==> r.value.variants == []
    ensures it.SequenceItem? ==>
              |r.value.variants| == 1 && r.value.variants[0].0.SequenceItem?
              && r.value.variants[0].0 == it.(memory := r.value.variants[0].0.memory)
              && r.value.variants[0].0.memory != it.memory
              && r.value.variants[0].1 == MemoryChanged(it.memory, r.value.variants[0].0.memory, it.title)
  {
    if it.SequenceItem? then
      Ok(Outcome([(it.(memory := OtherScope(it.memory)), MemoryChanged(it.memory, OtherScope(it.memory), it.title))], it))
    else Ok(Untouched(it))
  }

  // ----- The response text of `on-success` -----

  /** `get_text`: the text of the response, plain or in an element; empty when there is none. */
  function GetText(a: Action): string
  {
    match a.response
    case Some(ElementResponse(e)) => e.text
    case Some(TextResponse(t)) => t
    case None => ""
  }

  /** `set_text`: replaces the text of the response, if there is one. */
  function SetText(a: Action, t: string): (r: Action)
    ensures a.response.Some? ==> GetText(r) == t
    ensures r.execute == a.execute && (r.response.Some? <==> a.response.Some?)
  {
    match a.response
    case Some(ElementResponse(e)) => a.(response := Some(ElementResponse(e.(text := t))))
    case Some(TextResponse(_)) => a.(response := Some(TextResponse(t)))
    case None => a
  }

  /** Writing back the text that was read leaves the action as it was. */
  lemma SetTextRestores(a: Action)
    ensures SetText(a, GetText(a)) == a
  {
  }

  /** Where the lazy `.*?\}` that starts at `q` stops: the first `}`, unless a line break comes first. */
  function CloseFrom(t: string, q: nat): (r: Option<nat>)
    ensures r.Some? ==> q <= r.value < |t| && t[r.value] == '}'
                        && forall j :: q <= j < r.value ==> t[j] != '}' && t[j] != '\n'
    decreases |t| - q
  {
    if q >= |t| then None
    else if t[q] == '}' then Some(q)
    else if t[q] == '\n' then None
    else CloseFrom(t, q + 1)
  }

  /**
   * The first match of `\{{1,2}.*?\}{1,2}` starting at or after `p`, as its bounds: it starts at a
   * `{` from which a `}` is reached on the same line, and takes a second closing brace when one follows.
   */
  function FirstMatch(t: string, p: nat): (r: Option<(nat, nat)>)
    ensures r.Some? ==> p <= r.value.0 < r.value.1 <= |t| && t[r.value.0] == '{' && t[r.value.1 - 1] == '}'
    decreases |t| - p
  {
    if p >= |t| then None
    else if t[p] == '{' && CloseFrom(t, p + 1).Some? then
      var q := CloseFrom(t, p + 1).value;
      Some((p, if q + 1 < |t| && t[q + 1] == '}' then q + 2 else q + 1))
    else FirstMatch(t, p + 1)
  }

  /** `fragments[i].startswith('{') and fragments[i].endswith('}')`. */
  predicate IsExpression(f: string) { |f| > 0 && f[0] == '{' && f[|f| - 1] == '}' }

  /**
   * `re.split(r'(\{{1,2}.*?\}{1,2})', t)`: the text around the matches, with each match kept
   * between them, so that the odd positions hold the matches.
   */
  function Fragments(t: string): (r: seq<string>)
    ensures |r| % 2 == 1
    ensures forall k :: 0 <= k < |r| && k % 2 == 1 ==> IsExpression(r[k])
    decreases |t|
  {
    match FirstMatch(t, 0)
    case None => [t]
    case Some((s, e)) =>
      var rest := Fragments(t[e..]);
      assert forall k :: 2 <= k < 2 + |rest| ==> ([t[..s], t[s..e]] + rest)[k] == rest[k - 2];
      [t[..s], t[s..e]] + rest
  }

  lemma {:induction false} ConcatAppend(a: seq<string>, b: seq<string>)
    ensures Concat(a + b) == Concat(a) + Concat(b)
  {
    if a != [] {
      assert (a + b)[1..] == a[1..] + b;
      ConcatAppend(a[1..], b);
    } else {
      assert a + b == b;
    }
  }

  /** Joining the fragments gives the text back. */
  lemma {:induction false} FragmentsJoin(t: string)
    ensures Concat(Fragments(t)) == t
    decreases |t|
  {
    match FirstMatch(t, 0)
    case None =>
    case Some((s, e)) =>
      FragmentsJoin(t[e..]);
      assert Fragments(t) == [t[..s]] + ([t[s..e]] + Fragments(t[e..]));
      assert t == t[..s] + (t[s..e] + t[e..]);
  }

  /** One variant per fragment from `i` on that looks like an expression, with that fragment cut out. */
  function Removals(fragments: seq<string>, i: nat): (r: seq<(string, Mutation)>)
    decreases |fragments| - i
  {
    if i >= |fragments| then []
    else (if IsExpression(fragments[i]) then [(Concat(Without(fragments, i)), ExpressionRemoved(fragments[i]))] else [])
         + Removals(fragments, i + 1)
  }

  /** Each removal is the text with one expression cut out of it, at the place that fragment held. */
  lemma {:induction false} RemovalsShape(fragments: seq<string>, i: nat, k: nat) returns (j: nat)
    requires k < |Removals(fragments, i)|
    ensures i <= j < |fragments| && IsExpression(fragments[j])
    ensures Removals(fragments, i)[k] == (Concat(Without(fragments, j)), ExpressionRemoved(fragments[j]))
    ensures Concat(fragments) == Concat(fragments[..j]) + fragments[j] + Concat(fragments[j + 1..])
    ensures Concat(Without(fragments, j)) == Concat(fragments[..j]) + Concat(fragments[j + 1..])
    decreases |fragments| - i
  {
    if IsExpression(fragments[i]) && k == 0 {
      j := i;
    } else {
      j := RemovalsShape(fragments, i + 1, if IsExpression(fragments[i]) then k - 1 else k);
    }
    ConcatAround(fragments, j);
  }

  /** The text of `fragments` is what lies before fragment `j`, that fragment, and what lies after it. */
  lemma ConcatAround(fragments: seq<string>, j: nat)
    requires j < |fragments|
    ensures Concat(fragments) == Concat(fragments[..j]) + fragments[j] + Concat(fragments[j + 1..])
    ensures Concat(fragments[..j] + fragments[j + 1..]) == Concat(fragments[..j]) + Concat(fragments[j + 1..])
  {
    ConcatAt(fragments, j);
    ConcatAppend(fragments[..j], fragments[j + 1..]);
  }

  /** Splitting a text at fragment `j`. */
  lemma {:induction false} ConcatAt(xs: seq<string>, j: nat)
    requires j < |xs|
    ensures Concat(xs) == Concat(xs[..j]) + xs[j] + Concat(xs[j + 1..])
  {
    if j > 0 {
      var tail := xs[1..];
      ConcatAt(tail, j - 1);
      assert tail[..j - 1] == xs[1..j] && tail[j - 1] == xs[j] && tail[j..] == xs[j + 1..];
      assert xs[..j][1..] == xs[1..j];
      Seqs.Associative(xs[0], Concat(xs[1..j]), xs[j]);
      Seqs.Associative(xs[0], Concat(xs[1..j]) + xs[j], Concat(xs[j + 1..]));
    }
  }

  /** `DeleteDataFromResponse` on an `on-success` action: one variant per expression in its text. */
  function ExpressionRemovals(a: Action): Outcome<Action>
  {
    var text := GetText(a);
    var removed := Removals(Fragments(text), 0);
    Outcome(seq(|removed|, k requires 0 <= k < |removed| => (SetText(a, removed[k].0), removed[k].1)), SetText(a, text))
  }

  // ----- Rephrase modes -----

  /** One rephrase variant, unless the element already has that rephrase. */
  function RephraseTo(e: ResponseElement, mode: string, already: bool): seq<(ResponseElement, Mutation)>
  {
    if already then [] else [(e.(rephrase := Some(mode)), RephraseChanged(e.rephrase, mode))]
  }

  /**
   * `ChangeRephrase` as written: `direct`, `simple` and `on-caller`, each unless the rephrase
   * already is it. The specification model knows `in-caller` (or `in_caller`), not `on-caller`.
   */
  function RephraseVariantsAsWritten(e: ResponseElement): seq<(ResponseElement, Mutation)>
  {
    RephraseTo(e, "direct", e.rephrase == Some("direct"))
    + RephraseTo(e, "simple", e.rephrase == Some("simple"))
    + RephraseTo(e, "on-caller", e.rephrase == Some("on-caller") || e.rephrase == Some("on_caller"))
  }

  /**
   * The `on-caller` mutant of a direct response names no rephrase mode at all, so the state-machine
   * compiler refuses the menu edge it would take part in.
   */
  lemma OnCallerMutantRefused(text: string, parent: Actions.Vtx, child: Actions.Vtx, isTop: bool, childIsMenu: bool)
    requires !parent.Initial? && !child.Initial?
    ensures var vs := RephraseVariantsAsWritten(ResponseElement(text, Some("direct")));
            |vs| == 2 && vs[1].0.rephrase == Some("on-caller")
            && !(IsDirectResponse(vs[1].0) || IsSimpleRephrase(vs[1].0) || IsInCallerRephrase(vs[1].0))
            && Transformer.MenuEdges(parent, child, isTop, childIsMenu, vs[1].0).Err?
  {
    var vs := RephraseVariantsAsWritten(ResponseElement(text, Some("direct")));
    assert vs == RephraseTo(ResponseElement(text, Some("direct")), "simple", false)
                 + RephraseTo(ResponseElement(text, Some("direct")), "on-caller", false);
    assert vs[1].0 == ResponseElement(text, Some("on-caller"));
  }

  /** `ChangeRephrase` with the in-caller mode under the name the specification model gives it. */
  function RephraseVariants(e: ResponseElement): (r: seq<(ResponseElement, Mutation)>)
  {
    RephraseTo(e, "direct", e.rephrase == Some("direct"))
    + RephraseTo(e, "simple", e.rephrase == Some("simple"))
    + RephraseTo(e, "in-caller", IsInCallerRephrase(e))
  }

  /**
   * Each rephrase mutant keeps the text, names a mode the compiler accepts and has another rephrase
   * than the element; every mode comes up unless the element already has it, and each at most once.
   */
  lemma RephraseVariantsShape(e: ResponseElement)
    ensures var vs := RephraseVariants(e);
            (forall k :: 0 <= k < |vs| ==>
               vs[k].0.text == e.text && vs[k].0.rephrase != e.rephrase && vs[k].1 == RephraseChanged(e.rephrase, vs[k].1.newRephrase)
               && vs[k].0.rephrase == Some(vs[k].1.newRephrase)
               && (IsDirectResponse(vs[k].0) || IsSimpleRephrase(vs[k].0) || IsInCallerRephrase(vs[k].0)))
            && (forall mode :: mode in {"direct", "simple", "in-caller"} ==>
                  ((exists k :: 0 <= k < |vs| && vs[k].1.newRephrase == mode) <==>
                     !(e.rephrase == Some(mode) || (mode == "in-caller" && e.rephrase == Some("in_caller")))))
            && (forall a, b :: 0 <= a < b < |vs| ==> vs[a].1.newRephrase != vs[b].1.newRephrase)
  {
    var d := RephraseTo(e, "direct", e.rephrase == Some("direct"));
    var s := RephraseTo(e, "simple", e.rephrase == Some("simple"));
    var c := RephraseTo(e, "in-caller", IsInCallerRephrase(e));
    var vs := RephraseVariants(e);
    assert vs == d + s + c;
    forall k | 0 <= k < |vs| ensures vs[k] in d || vs[k] in s || vs[k] in c {
      if k >= |d| + |s| {
        assert vs[k] == c[k - |d| - |s|];
      } else if k >= |d| {
        assert vs[k] == s[k - |d|];
      }
    }
    if !(e.rephrase == Some("direct")) {
      assert vs[0].1.newRephrase == "direct";
    }
    if !(e.rephrase == Some("simple")) {
      assert vs[|d|].1.newRephrase == "simple";
    }
    if !IsInCallerRephrase(e) {
      assert vs[|d| + |s|].1.newRephrase == "in-caller";
    }
  }

  // ----- The operators -----

  datatype Operator =
    | DeleteEnumDataValue
    | ChangeRequiredData
    | DeleteQuestionAnswer
    | SwapQuestionAnswer
    | DeleteFallback
    | DeleteItemTopModule
    | DeleteSequenceStep
    | SwapSequenceStep
    | DeleteDataFromResponse
    | ChangeRephrase
    | ChangeMemoryScope

  /** The operators in the order `generate_mutants` runs them. */
  const Operators: seq<Operator> :=
    [DeleteEnumDataValue, ChangeRequiredData, DeleteQuestionAnswer, SwapQuestionAnswer, DeleteFallback,
     DeleteItemTopModule, DeleteSequenceStep, SwapSequenceStep, DeleteDataFromResponse, ChangeRephrase,
     ChangeMemoryScope]

  /** The class name, which names the mutant folders. */
  function OperatorName(op: Operator): string
  {
    match op
    case DeleteEnumDataValue => "DeleteEnumDataValue"
    case ChangeRequiredData => "ChangeRequiredData"
    case DeleteQuestionAnswer => "DeleteQuestionAnswer"
    case SwapQuestionAnswer => "SwapQuestionAnswer"
    case DeleteFallback => "DeleteFallback"
    case DeleteItemTopModule => "DeleteItemTopModule"
    case DeleteSequenceStep => "DeleteSequenceStep"
    case SwapSequenceStep => "SwapSequenceStep"
    case DeleteDataFromResponse => "DeleteDataFromResponse"
    case ChangeRephrase => "ChangeRephrase"
    case ChangeMemoryScope => "ChangeMemoryScope"
  }

  /** The `on-success` action of a data-gathering, action or question-answering module, if it has one. */
  predicate HasAction(m: Module) { HasOnSuccess(m) && m.onSuccess.Some? }

  /**
   * The mutants an operator's loops persist for one module, in the order they persist them, and
   * the module as the operator leaves it.
   */
  function Variants(op: Operator, m: Module): Result<Outcome<Module>>
  {
    match op
    case DeleteEnumDataValue => EachDatum(m, EnumDatum)
    case ChangeRequiredData => EachDatum(m, RequiredDatum)
    case DeleteQuestionAnswer => Ok(QuestionDeletions(m))
    case SwapQuestionAnswer => Ok(AnswerSwaps(m))
    case DeleteFallback => Ok(FallbackDeletion(m))
    case DeleteItemTopModule => Ok(ItemDeletions(m))
    case DeleteSequenceStep => EachItem(m, StepDeletions)
    case SwapSequenceStep => EachItem(m, StepSwaps)
    case DeleteDataFromResponse => Ok(DataRemovals(m))
    case ChangeRephrase => Ok(Rephrasings(m))
    case ChangeMemoryScope =>
      if m.Menu? then EachItem(m, MemorySwitch)
      // The description names the module's `title`, which a sequence module does not have.
      else if m.Sequence? then Err(AttributeError("title"))
      else Ok(Untouched(m))
  }

  function QuestionDeletions(m: Module): Outcome<Module>
  {
    if m.QuestionAnswering? then
      Within(Outcome(Deletions(m.questions, (q: QuestionAnswer) => QuestionDeleted(q)), m.questions),
             (qs: seq<QuestionAnswer>) => m.(questions := qs))
    else Untouched(m)
  }

  function AnswerSwaps(m: Module): Outcome<Module>
  {
    if m.QuestionAnswering? then
      var qs := m.questions;
      var ps := Pairs(|qs|);
      Outcome(seq(|ps|, k requires 0 <= k < |ps| =>
                    (m.(questions := SwapAnswers(qs, ps[k].0, ps[k].1)), AnswersSwapped(qs[ps[k].0], qs[ps[k].1]))),
              m)
    else Untouched(m)
  }

  function FallbackDeletion(m: Module): Outcome<Module>
  {
    if m.Menu? && Serialise.Filled(m.fallback) then Outcome([(m.(fallback := None), FallbackDeleted)], m)
    else Untouched(m)
  }

  function ItemDeletions(m: Module): Outcome<Module>
  {
    if m.Menu? then
      Within(Outcome(Deletions(m.items, (it: Item) => ItemDeleted(it.title)), m.items), (its: seq<Item>) => m.(items := its))
    else Untouched(m)
  }

  function DataRemovals(m: Module): Outcome<Module>
  {
    if HasAction(m) then Within(ExpressionRemovals(m.onSuccess.value), (a: Action) => m.(onSuccess := Some(a)))
    else Untouched(m)
  }

  function Rephrasings(m: Module): Outcome<Module>
  {
    if HasAction(m) && m.onSuccess.value.response.Some? && m.onSuccess.value.response.value.ElementResponse? then
      var a := m.onSuccess.value;
      var e := a.response.value.element;
      Within(Outcome(RephraseVariants(e), e),
             (e': ResponseElement) => m.(onSuccess := Some(a.(response := Some(ElementResponse(e'))))))
    else Untouched(m)
  }
  /**
   * `ChangeRephrase`: a module whose action responds with an element gets one variant per rephrase
   * mode the element does not have yet, differing only in that element; the module is left as it
   * was. Any other module is untouched.
   */
  lemma RephrasingsShape(m: Module)
    ensures Rephrasings(m).left == m
    ensures !(HasAction(m) && m.onSuccess.value.response.Some? && m.onSuccess.value.response.value.ElementResponse?) ==>
              Rephrasings(m).variants == []
    ensures HasAction(m) && m.onSuccess.value.response.Some? && m.onSuccess.value.response.value.ElementResponse? ==>
              var a := m.onSuccess.value;
              var vs := RephraseVariants(a.response.value.element);
              |Rephrasings(m).variants| == |vs|
              && forall k :: 0 <= k < |vs| ==>
                   Rephrasings(m).variants[k] == (m.(onSuccess := Some(a.(response := Some(ElementResponse(vs[k].0))))), vs[k].1)
  {
  }


  /** An operator on the items of a menu; other modules are left alone. */
  function EachItem(m: Module, f: Item -> Result<Outcome<Item>>): Result<Outcome<Module>>
  {
    if m.Menu? then
      var o := Lift(m.items, f);
      if o.Err? then Err(o.error) else Ok(Within(o.value, (its: seq<Item>) => m.(items := its)))
    else Ok(Untouched(m))
  }

  // ----- What the operators promise -----

  /** The `required` flags of a datum are bools. */
  predicate BoolFlagsOf(d: Value)
    requires d.VDict?
  {
    forall j :: 0 <= j < |d.entries| && d.entries[j].1.VDict? && HasKey(d.entries[j].1.entries, "required") ==>
      Get(d.entries[j].1.entries, "required").value.VBool?
  }

  /** Every `required` flag in the data of an action or data-gathering module is a bool. */
  predicate BoolFlags(m: Module)
  {
    (m.ActionModule? || m.DataGathering?) ==> forall i :: 0 <= i < |m.data| && m.data[i].VDict? ==> BoolFlagsOf(m.data[i])
  }

  lemma EnumDatumRestores(d: Value)
    requires EnumDatum(d).Ok?
    ensures EnumDatum(d).value.left == d
  {
    forall j | 0 <= j < |d.entries| && EnumDeletions(d.entries[j]).Ok?
      ensures EnumDeletions(d.entries[j]).value.left == d.entries[j]
    {
      EnumDeletionsShape(d.entries[j]);
    }
    LiftRestores(d.entries, EnumDeletions);
  }

  lemma RequiredDatumRestores(d: Value)
    requires RequiredDatum(d).Ok? && d.VDict? && BoolFlagsOf(d)
    ensures RequiredDatum(d).value.left == d
  {
    forall j | 0 <= j < |d.entries| && RequiredFlip(d.entries[j]).Ok?
      ensures RequiredFlip(d.entries[j]).value.left == d.entries[j]
    {
      RequiredFlipShape(d.entries[j]);
    }
    LiftRestores(d.entries, RequiredFlip);
  }

  /**
   * Every operator leaves each module as it found it, `ChangeRequiredData` too when every flag it
   * negates twice was a bool.
   */
  lemma OperatorRestores(op: Operator, m: Module)
    requires Variants(op, m).Ok?
    requires op == ChangeRequiredData ==> BoolFlags(m)
    ensures Variants(op, m).value.left == m
  {
    match op
    case DeleteEnumDataValue =>
      if m.ActionModule? || m.DataGathering? {
        forall i | 0 <= i < |m.data| && EnumDatum(m.data[i]).Ok? ensures EnumDatum(m.data[i]).value.left == m.data[i] {
          EnumDatumRestores(m.data[i]);
        }
        LiftRestores(m.data, EnumDatum);
      }
    case ChangeRequiredData =>
      if m.ActionModule? || m.DataGathering? {
        forall i | 0 <= i < |m.data| && RequiredDatum(m.data[i]).Ok?
          ensures RequiredDatum(m.data[i]).value.left == m.data[i]
        {
          RequiredDatumRestores(m.data[i]);
        }
        LiftRestores(m.data, RequiredDatum);
      }
    case DeleteSequenceStep =>
      if m.Menu? {
        LiftRestores(m.items, StepDeletions);
      }
    case SwapSequenceStep =>
      if m.Menu? {
        LiftRestores(m.items, StepSwaps);
      }
    case DeleteDataFromResponse =>
      if HasAction(m) {
        SetTextRestores(m.onSuccess.value);
      }
    case ChangeMemoryScope =>
      if m.Menu? {
        LiftRestores(m.items, MemorySwitch);
      }
    case _ =>
  }

  /** A datum whose `required` flag is not a bool is not put back: `not not "yes"` is `True`. */
  lemma RequiredNotRestored()
    ensures var m := ActionModule("order", [VDict([("size", VDict([("required", VStr("yes"))]))])], [], None);
            Variants(ChangeRequiredData, m).Ok?
            && Variants(ChangeRequiredData, m).value.left
               == m.(data := [VDict([("size", VDict([("required", VBool(true))]))])])
  {
    var t := [("required", VStr("yes"))];
    var e := ("size", VDict(t));
    var back := ("size", VDict([("required", VBool(true))]));
    assert HasKey(t, "required") by { assert t[0].0 == "required"; }
    assert Get(t, "required") == Some(VStr("yes"));
    assert Truthy(VStr("yes"));
    assert Put(t, "required", VBool(false)) == [("required", VBool(false))];
    assert Put([("required", VBool(false))], "required", VBool(true)) == [("required", VBool(true))];
    assert RequiredFlip(e).value.left == back;
    assert [e][1..] == [];
    assert Lift([e][1..], RequiredFlip) == Ok(Outcome([], []));
    assert Lift([e], RequiredFlip).value.left == [back];
    var d := VDict([e]);
    assert RequiredDatum(d).value.left == VDict([back]);
    assert [d][1..] == [];
    assert Lift([d][1..], RequiredDatum) == Ok(Outcome([], []));
    assert Lift([d], RequiredDatum).value.left == [VDict([back])];
  }

  /** `DeleteQuestionAnswer`: one mutant per question, each without exactly that question. */
  lemma QuestionDeletionsShape(m: Module)
    requires m.QuestionAnswering?
    ensures var o := Variants(DeleteQuestionAnswer, m).value;
            |o.variants| == |m.questions|
            && forall i :: 0 <= i < |m.questions| ==>
                 o.variants[i] == (m.(questions := Without(m.questions, i)), QuestionDeleted(m.questions[i]))
                 && Without(m.questions, i)[..i] + [m.questions[i]] + Without(m.questions, i)[i..] == m.questions
  {
  }

  /** `DeleteItemTopModule`: one mutant per menu item, each without exactly that item. */
  lemma ItemDeletionsShape(m: Module)
    requires m.Menu?
    ensures var o := Variants(DeleteItemTopModule, m).value;
            |o.variants| == |m.items|
            && forall i :: 0 <= i < |m.items| ==>
                 o.variants[i] == (m.(items := Without(m.items, i)), ItemDeleted(m.items[i].title))
                 && Without(m.items, i)[..i] + [m.items[i]] + Without(m.items, i)[i..] == m.items
  {
  }

  /**
   * `SwapQuestionAnswer`: one mutant per pair `i < j`, in loop order, in which questions `i` and `j`
   * have exchanged their answers and nothing else has changed.
   */
  lemma AnswerSwapsShape(m: Module)
    requires m.QuestionAnswering?
    ensures var o := Variants(SwapQuestionAnswer, m).value;
            var ps := Pairs(|m.questions|);
            |o.variants| == |ps| && 2 * |ps| == |m.questions| * (|m.questions| - 1)
            && (forall p :: p in ps <==> p.0 < p.1 < |m.questions|)
            && forall k :: 0 <= k < |ps| ==>
                 o.variants[k].0.QuestionAnswering? && o.variants[k].0.name == m.name
                 && Questions(o.variants[k].0.questions) == Questions(m.questions)
                 && Answers(o.variants[k].0.questions) == Swap(Answers(m.questions), ps[k].0, ps[k].1)
  {
    PairsShape(|m.questions|);
  }

  /** `DeleteFallback`: a single mutant without its fallback, for a menu whose fallback is not empty. */
  lemma FallbackDeletionShape(m: Module)
    ensures var o := Variants(DeleteFallback, m).value;
            if m.Menu? && Serialise.Filled(m.fallback) then o.variants == [(m.(fallback := None), FallbackDeleted)]
            else o.variants == []
  {
  }

  /**
   * A `DeleteSequenceStep` mutant: one sequence item of the menu has lost exactly the `l`-th of its
   * steps, and everything else is as it was.
   */
  lemma StepDeletionVariant(m: Module, k: nat) returns (i: nat, l: nat)
    requires m.Menu? && Variants(DeleteSequenceStep, m).Ok? && k < |Variants(DeleteSequenceStep, m).value.variants|
    ensures i < |m.items| && m.items[i].SequenceItem? && l < |m.items[i].references|
    ensures Variants(DeleteSequenceStep, m).value.variants[k]
            == (m.(items := m.items[i := m.items[i].(references := Without(m.items[i].references, l))]),
                StepDeleted(m.items[i].references[l]))
  {
    i, l := LiftRestoredVariant(m.items, StepDeletions, k);
  }

  /** A `SwapSequenceStep` mutant: one sequence item of the menu has exactly two of its steps exchanged. */
  lemma StepSwapVariant(m: Module, k: nat) returns (i: nat, p: (nat, nat))
    requires m.Menu? && Variants(SwapSequenceStep, m).Ok? && k < |Variants(SwapSequenceStep, m).value.variants|
    ensures i < |m.items| && m.items[i].SequenceItem? && p.0 < p.1 < |m.items[i].references|
    ensures p in Pairs(|m.items[i].references|)
    ensures Variants(SwapSequenceStep, m).value.variants[k]
            == (m.(items := m.items[i := m.items[i].(references := Swap(m.items[i].references, p.0, p.1))]),
                StepsSwapped(m.items[i].references[p.0], m.items[i].references[p.1]))
  {
    var l;
    i, l := LiftRestoredVariant(m.items, StepSwaps, k);
    p := Pairs(|m.items[i].references|)[l];
  }

  /** A `ChangeMemoryScope` mutant: one sequence item of the menu has its memory scope switched. */
  lemma MemorySwitchVariant(m: Module, k: nat) returns (i: nat)
    requires m.Menu? && Variants(ChangeMemoryScope, m).Ok? && k < |Variants(ChangeMemoryScope, m).value.variants|
    ensures i < |m.items| && m.items[i].SequenceItem?
    ensures Variants(ChangeMemoryScope, m).value.variants[k]
            == (m.(items := m.items[i := m.items[i].(memory := OtherScope(m.items[i].memory))]),
                MemoryChanged(m.items[i].memory, OtherScope(m.items[i].memory), m.items[i].title))
    ensures OtherScope(m.items[i].memory) != m.items[i].memory
  {
    var l;
    i, l := LiftRestoredVariant(m.items, MemorySwitch, k);
  }

  /**
   * A datum fails `DeleteEnumDataValue` when it is no dictionary or one of its enums has no
   * `values`, or `values` that are neither a list, a string nor an empty dict.
   */
  predicate EnumDatumFails(d: Value)
  {
    !d.VDict? || exists j :: 0 <= j < |d.entries| && EnumDeletions(d.entries[j]).Err?
  }

  /**
   * Where an operator raises: the data operators on a datum that is not a dictionary (and
   * `DeleteEnumDataValue` on an enum whose `values` are missing or not sliceable), `ChangeMemoryScope` on a sequence
   * module; every other operator always succeeds.
   */
  lemma VariantsFailures(op: Operator, m: Module)
    ensures op !in {DeleteEnumDataValue, ChangeRequiredData, ChangeMemoryScope} ==> Variants(op, m).Ok?
    ensures op == ChangeMemoryScope ==> (Variants(op, m).Err? <==> m.Sequence?)
    ensures op == ChangeRequiredData ==>
              (Variants(op, m).Err? <==> (m.ActionModule? || m.DataGathering?) && exists i :: 0 <= i < |m.data| && !m.data[i].VDict?)
    ensures op == DeleteEnumDataValue ==>
              (Variants(op, m).Err? <==> (m.ActionModule? || m.DataGathering?) && exists i :: 0 <= i < |m.data| && EnumDatumFails(m.data[i]))
  {
    if m.Menu? {
      LiftFails(m.items, StepDeletions);
      LiftFails(m.items, StepSwaps);
      LiftFails(m.items, MemorySwitch);
    }
    if m.ActionModule? || m.DataGathering? {
      forall d: Value | d.VDict? ensures RequiredDatum(d).Ok? {
        LiftFails(d.entries, RequiredFlip);
      }
      forall d: Value ensures EnumDatum(d).Err? <==> EnumDatumFails(d) {
        if d.VDict? {
          LiftFails(d.entries, EnumDeletions);
        }
      }
      LiftFails(m.data, RequiredDatum);
      LiftFails(m.data, EnumDatum);
    }
  }

  /** A `DeleteEnumDataValue` variant of one datum: one enum has lost exactly its `l`-th value (or character). */
  lemma EnumDatumVariant(d: Value, k: nat) returns (j: nat, l: nat)
    requires EnumDatum(d).Ok? && k < |EnumDatum(d).value.variants|
    ensures d.VDict? && j < |d.entries|
    ensures var (name, t) := d.entries[j];
            t.VDict? && Get(t.entries, "type") == Some(VStr("enum"))
            && Get(t.entries, "values").Some?
            && var v := Get(t.entries, "values").value;
            (v.VList? || v.VStr?) && l < Length(v)
            && EnumDatum(d).value.variants[k]
               == (VDict(d.entries[j := (name, VDict(Put(t.entries, "values", DeletedAt(v, l))))]), EnumValueDeleted(name, ValueAt(v, l)))
  {
    var es := d.entries;
    forall j' | 0 <= j' < |es| && EnumDeletions(es[j']).Ok? ensures EnumDeletions(es[j']).value.left == es[j'] {
      EnumDeletionsShape(es[j']);
    }
    j, l := LiftRestoredVariant(es, EnumDeletions, k);
    EnumDeletionsShape(es[j]);
  }

  /**
   * A `DeleteEnumDataValue` mutant: in one datum, the `values` of one enum type have lost exactly
   * their `l`-th value, and everything else is as it was.
   */
  lemma EnumDeletionVariant(m: Module, k: nat) returns (i: nat, j: nat, l: nat)
    requires (m.ActionModule? || m.DataGathering?) && Variants(DeleteEnumDataValue, m).Ok?
    requires k < |Variants(DeleteEnumDataValue, m).value.variants|
    ensures i < |m.data| && m.data[i].VDict? && j < |m.data[i].entries|
    ensures var (name, t) := m.data[i].entries[j];
            t.VDict? && Get(t.entries, "type") == Some(VStr("enum"))
            && Get(t.entries, "values").Some?
            && var v := Get(t.entries, "values").value;
            (v.VList? || v.VStr?) && l < Length(v)
            && Variants(DeleteEnumDataValue, m).value.variants[k]
               == (m.(data := m.data[i := VDict(m.data[i].entries[j := (name, VDict(Put(t.entries, "values", DeletedAt(v, l))))])]),
                   EnumValueDeleted(name, ValueAt(v, l)))
  {
    forall i' | 0 <= i' < |m.data| && EnumDatum(m.data[i']).Ok? ensures EnumDatum(m.data[i']).value.left == m.data[i'] {
      EnumDatumRestores(m.data[i']);
    }
    var l1;
    i, l1 := LiftRestoredVariant(m.data, EnumDatum, k);
    j, l := EnumDatumVariant(m.data[i], l1);
  }

  /** A `ChangeRequiredData` variant of one datum whose flags are bools: exactly one flag is negated. */
  lemma RequiredDatumVariant(d: Value, k: nat) returns (j: nat)
    requires RequiredDatum(d).Ok? && k < |RequiredDatum(d).value.variants|
    requires d.VDict? ==> BoolFlagsOf(d)
    ensures d.VDict? && j < |d.entries|
    ensures var (name, t) := d.entries[j];
            t.VDict? && HasKey(t.entries, "required") && Get(t.entries, "required").value.VBool?
            && var b := Get(t.entries, "required").value.b;
            RequiredDatum(d).value.variants[k]
            == (VDict(d.entries[j := (name, VDict(Put(t.entries, "required", VBool(!b))))]), RequiredChanged(name, !b))
  {
    var es := d.entries;
    forall j' | 0 <= j' < |es| && RequiredFlip(es[j']).Ok? ensures RequiredFlip(es[j']).value.left == es[j'] {
      RequiredFlipShape(es[j']);
    }
    var l;
    j, l := LiftRestoredVariant(es, RequiredFlip, k);
    RequiredFlipShape(es[j]);
  }

  /**
   * A `ChangeRequiredData` mutant, when the flags are bools: in one datum exactly one `required`
   * flag is negated, and everything else is as it was.
   */
  lemma RequiredFlipVariant(m: Module, k: nat) returns (i: nat, j: nat)
    requires (m.ActionModule? || m.DataGathering?) && BoolFlags(m) && Variants(ChangeRequiredData, m).Ok?
    requires k < |Variants(ChangeRequiredData, m).value.variants|
    ensures i < |m.data| && m.data[i].VDict? && j < |m.data[i].entries|
    ensures var (name, t) := m.data[i].entries[j];
            t.VDict? && HasKey(t.entries, "required") && Get(t.entries, "required").value.VBool?
            && var b := Get(t.entries, "required").value.b;
            Variants(ChangeRequiredData, m).value.variants[k]
            == (m.(data := m.data[i := VDict(m.data[i].entries[j := (name, VDict(Put(t.entries, "required", VBool(!b))))])]),
                RequiredChanged(name, !b))
  {
    forall i' | 0 <= i' < |m.data| && RequiredDatum(m.data[i']).Ok? ensures RequiredDatum(m.data[i']).value.left == m.data[i'] {
      RequiredDatumRestores(m.data[i']);
    }
    var l1;
    i, l1 := LiftRestoredVariant(m.data, RequiredDatum, k);
    j := RequiredDatumVariant(m.data[i], l1);
  }

  /**
   * A `DeleteDataFromResponse` mutant: the response text with one expression fragment cut out, the
   * text being that fragment with what comes before and after it.
   */
  lemma ExpressionRemovalVariant(m: Module, k: nat) returns (j: nat)
    requires HasAction(m) && k < |Variants(DeleteDataFromResponse, m).value.variants|
    ensures var a := m.onSuccess.value;
            var fs := Fragments(GetText(a));
            j < |fs| && IsExpression(fs[j])
            && GetText(a) == Concat(fs[..j]) + fs[j] + Concat(fs[j + 1..])
            && Variants(DeleteDataFromResponse, m).value.variants[k]
               == (m.(onSuccess := Some(SetText(a, Concat(fs[..j]) + Concat(fs[j + 1..])))), ExpressionRemoved(fs[j]))
  {
    var a := m.onSuccess.value;
    var fs := Fragments(GetText(a));
    j := RemovalsShape(fs, 0, k);
    FragmentsJoin(GetText(a));
  }

  // ----- The operators over a chatbot's files -----

  /** A call of `persist`: the file the mutated module goes to, the module, and the description. */
  datatype Request = Request(file: string, mutated: Module, mutation: Mutation)

  /** The `persist` calls for one module's variants, in order. */
  function FileRequests(file: string, o: Outcome<Module>): (r: seq<Request>)
    ensures |r| == |o.variants|
    ensures forall k :: 0 <= k < |r| ==> r[k] == Request(file, o.variants[k].0, o.variants[k].1)
  {
    seq(|o.variants|, k requires 0 <= k < |o.variants| => Request(file, o.variants[k].0, o.variants[k].1))
  }

  /** An operator's variants as a function of the module. */
  function OperatorStep(op: Operator): Module -> Result<Outcome<Module>>
  {
    m => Variants(op, m)
  }

  /**
   * What an operator, given by its variants `step`, persists over the files of a chatbot, file by
   * file in the table's order, and the table it leaves behind. It fails on the first module the
   * operator fails on.
   */
  function Requests(step: Module -> Result<Outcome<Module>>, entries: Dict<Module>): (r: Result<(seq<Request>, Dict<Module>)>)
    ensures r.Ok? ==> |r.value.1| == |entries| && forall i :: 0 <= i < |entries| ==> r.value.1[i].0 == entries[i].0
    decreases |entries|
  {
    if entries == [] then Ok(([], []))
    else
      var init := Requests(step, entries[..|entries| - 1]);
      var (file, m) := entries[|entries| - 1];
      if init.Err? then Err(init.error)
      else
        var o := step(m);
        if o.Err? then Err(o.error)
        else Ok((init.value.0 + FileRequests(file, o.value), init.value.1 + [(file, o.value.left)]))
  }

  /** One more file: its module's variants follow the earlier files' requests. */
  lemma RequestsStep(step: Module -> Result<Outcome<Module>>, e: Dict<Module>, i: nat)
    requires i < |e| && Requests(step, e[..i]).Ok? && step(e[i].1).Ok?
    ensures Requests(step, e[..i + 1])
            == Ok((Requests(step, e[..i]).value.0 + FileRequests(e[i].0, step(e[i].1).value),
                   Requests(step, e[..i]).value.1 + [(e[i].0, step(e[i].1).value.left)]))
  {
    assert e[..i + 1][..i] == e[..i];
  }

  /** Each module is put back, so the table is as it was, `ChangeRequiredData` included when its flags are bools. */
  lemma {:induction false} RequestsRestore(op: Operator, entries: Dict<Module>)
    requires Requests(OperatorStep(op), entries).Ok?
    requires op == ChangeRequiredData ==> forall i :: 0 <= i < |entries| ==> BoolFlags(entries[i].1)
    ensures Requests(OperatorStep(op), entries).value.1 == entries
    decreases |entries|
  {
    if entries != [] {
      var n := |entries| - 1;
      assert forall i :: 0 <= i < n ==> entries[..n][i] == entries[i];
      RequestsRestore(op, entries[..n]);
      OperatorRestores(op, entries[n].1);
      assert entries == entries[..n] + [entries[n]];
    }
  }

  /** The operator fails on the table exactly when it fails on one of its modules. */
  lemma {:induction false} RequestsFail(step: Module -> Result<Outcome<Module>>, entries: Dict<Module>)
    ensures Requests(step, entries).Err? <==> exists i :: 0 <= i < |entries| && step(entries[i].1).Err?
    decreases |entries|
  {
    if entries != [] {
      var n := |entries| - 1;
      RequestsFail(step, entries[..n]);
      if exists i :: 0 <= i < n && step(entries[..n][i].1).Err? {
        var i :| 0 <= i < n && step(entries[..n][i].1).Err?;
        assert entries[..n][i] == entries[i];
      }
      if exists i :: 0 <= i < |entries| && step(entries[i].1).Err? {
        var i :| 0 <= i < |entries| && step(entries[i].1).Err?;
        if i < n {
          assert entries[..n][i] == entries[i];
        }
      }
    }
  }

  // ----- Mutant folders -----

  /** A written mutant: the folder the chatbot was copied to, the file overwritten in it, its content and the description. */
  datatype Mutant = Mutant(folder: string, file: string, content: Value, mutation: Mutation)

  /** The index of the last `/` in `path`, or -1 when there is none. */
  function LastSlash(path: string): (r: int)
    ensures -1 <= r < |path| && (r >= 0 ==> path[r] == '/')
    ensures forall k :: r < k < |path| ==> path[k] != '/'
  {
    if path == [] then -1
    else if path[|path| - 1] == '/' then |path| - 1
    else LastSlash(path[..|path| - 1])
  }

  /** `os.path.basename`: what follows the last `/`. */
  function Basename(path: string): string
  {
    path[LastSlash(path) + 1..]
  }

  /** The base name is a suffix of the path with no `/` in it, cut just after the last `/` when it is shorter. */
  lemma BasenameShape(path: string)
    ensures var r := Basename(path);
            |r| <= |path| && r == path[|path| - |r|..]
            && (forall k :: 0 <= k < |r| ==> r[k] != '/')
            && (|r| < |path| ==> path[|path| - |r| - 1] == '/')
  {
  }

  /** `f"{mutants_folder}/{name}_{counter}"`. */
  function Folder(mutantsFolder: string, name: string, counter: nat): string
  {
    mutantsFolder + "/" + name + "_" + NatToString(counter)
  }

  /** How many of `n` calls of `persist` write a mutant: those counted while `num_mutants <= max`. */
  function Cap(n: nat, max: int): (r: nat)
    ensures r <= n && (max >= 0 ==> r <= max) && (r < n ==> r == max || (max < 0 && r == 0))
  {
    if max <= 0 then 0 else if n <= max then n else max
  }

  function MutantOf(mutantsFolder: string, name: string, number: nat, r: Request): Mutant
    requires Serialise.ModuleDict(r.mutated).Ok?
  {
    Mutant(Folder(mutantsFolder, name, number), Basename(r.file), Serialise.ModuleDict(r.mutated).value, r.mutation)
  }

  /**
   * The mutants a fresh operator writes for its `persist` calls: the first `max`, numbered from 1.
   * A module that has no `to_dict` among them fails the operator.
   */
  function Written(mutantsFolder: string, name: string, max: int, reqs: seq<Request>): (r: Result<seq<Mutant>>)
    ensures r.Ok? ==> |r.value| == Cap(|reqs|, max)
    ensures r.Ok? ==> forall k :: 0 <= k < |r.value| ==>
                        r.value[k].folder == Folder(mutantsFolder, name, k + 1) && r.value[k].file == Basename(reqs[k].file)
                        && Serialise.ModuleDict(reqs[k].mutated) == Ok(r.value[k].content) && r.value[k].mutation == reqs[k].mutation
    ensures r.Err? <==> exists k :: 0 <= k < Cap(|reqs|, max) && Serialise.ModuleDict(reqs[k].mutated).Err?
  {
    var n := Cap(|reqs|, max);
    if forall k :: 0 <= k < n ==> Serialise.ModuleDict(reqs[k].mutated).Ok? then
      Ok(seq(n, k requires 0 <= k < n => MutantOf(mutantsFolder, name, k + 1, reqs[k])))
    else Err(AttributeError("to_dict"))
  }

  /** Reading a written mutant's file back gives the mutated module, in its normal form. */
  lemma WrittenRoundTrip(mutantsFolder: string, name: string, max: int, reqs: seq<Request>, k: nat)
    requires Written(mutantsFolder, name, max, reqs).Ok? && k < |Written(mutantsFolder, name, max, reqs).value|
    ensures Serialise.ParseModules(Written(mutantsFolder, name, max, reqs).value[k].content) == Some([Serialise.Norm(reqs[k].mutated)])
  {
    Serialise.ModuleRoundTrip(reqs[k].mutated);
  }

  /** The first `max` calls of `persist` each wrote the next folder, numbered from 1. */
  ghost predicate Recorded(mutantsFolder: string, name: string, max: int, ws: seq<Mutant>, reqs: seq<Request>)
  {
    |ws| == Cap(|reqs|, max)
    && forall k :: 0 <= k < |ws| ==>
         Serialise.ModuleDict(reqs[k].mutated).Ok? && ws[k] == MutantOf(mutantsFolder, name, k + 1, reqs[k])
  }

  /** A call past the cap writes nothing. */
  lemma RecordedSkip(mutantsFolder: string, name: string, max: int, ws: seq<Mutant>, reqs: seq<Request>, r: Request)
    requires Recorded(mutantsFolder, name, max, ws, reqs) && |reqs| + 1 > max
    ensures Recorded(mutantsFolder, name, max, ws, reqs + [r])
  {
    assert forall k :: 0 <= k < |ws| ==> (reqs + [r])[k] == reqs[k];
  }

  /** A call within the cap writes the next folder. */
  lemma RecordedAdd(mutantsFolder: string, name: string, max: int, ws: seq<Mutant>, reqs: seq<Request>, r: Request)
    requires Recorded(mutantsFolder, name, max, ws, reqs) && |reqs| + 1 <= max
    requires Serialise.ModuleDict(r.mutated).Ok?
    ensures |ws| == |reqs|
    ensures Recorded(mutantsFolder, name, max, ws + [MutantOf(mutantsFolder, name, |ws| + 1, r)], reqs + [r])
  {
    var ws' := ws + [MutantOf(mutantsFolder, name, |ws| + 1, r)];
    var reqs' := reqs + [r];
    forall k | 0 <= k < |ws'|
      ensures Serialise.ModuleDict(reqs'[k].mutated).Ok? && ws'[k] == MutantOf(mutantsFolder, name, k + 1, reqs'[k])
    {
      if k < |ws| {
        assert reqs'[k] == reqs[k] && ws'[k] == ws[k];
      }
    }
  }

  /** What has been recorded is what `Written` says of the calls. */
  lemma RecordedWritten(mutantsFolder: string, name: string, max: int, ws: seq<Mutant>, reqs: seq<Request>)
    requires Recorded(mutantsFolder, name, max, ws, reqs)
    ensures Written(mutantsFolder, name, max, reqs) == Ok(ws)
  {
    var n := Cap(|reqs|, max);
    assert forall k :: 0 <= k < n ==> Serialise.ModuleDict(reqs[k].mutated).Ok?;
    var w := Written(mutantsFolder, name, max, reqs);
    assert w.Ok? && |w.value| == |ws|;
    forall k | 0 <= k < |ws|
      ensures w.value[k] == ws[k]
    {
      assert ws[k] == MutantOf(mutantsFolder, name, k + 1, reqs[k]);
    }
    assert w.value == ws;
  }

  /** The dictionary of modules an operator works on, changed in place. */
  class ModuleTable {
    var entries: Dict<Module>

    constructor (entries: Dict<Module>)
      ensures this.entries == entries
    {
      this.entries := entries;
    }
  }

  /** One mutation operator with its mutant counters. */
  class MutationOperator {
    const op: Operator
    /** The operator's variants of a module. */
    const step: Module -> Result<Outcome<Module>>
    const name: string
    const chatbotFolder: string
    const mutantsFolder: string
    const max: int
    /** The number of the next mutant folder. */
    var counter: nat
    /** The calls of `persist` so far, written or not. */
    var numMutants: nat
    /** The mutant folders written so far. */
    var written: seq<Mutant>
    ghost var requests: seq<Request>

    /** The counters agree with the calls of `persist`: the first `max` of them each wrote the next folder. */
    ghost predicate Valid()
      reads this
    {
      numMutants == |requests| && counter == |written| + 1 && Recorded(mutantsFolder, name, max, written, requests)
    }

    constructor (op: Operator, chatbotFolder: string, mutantsFolder: string, max: int)
      ensures this.op == op && step == OperatorStep(op) && name == OperatorName(op) && this.chatbotFolder == chatbotFolder
      ensures this.mutantsFolder == mutantsFolder && this.max == max
      ensures counter == 1 && numMutants == 0 && written == [] && requests == []
      ensures Valid()
    {
      this.op := op;
      step := OperatorStep(op);
      name := OperatorName(op);
      this.chatbotFolder := chatbotFolder;
      this.mutantsFolder := mutantsFolder;
      this.max := max;
      counter := 1;
      numMutants := 0;
      written := [];
      requests := [];
    }

    /** A fresh operator has written exactly what `Written` says of its calls. */
    lemma ValidWritten()
      requires Valid()
      ensures Written(mutantsFolder, name, max, requests) == Ok(written)
    {
      RecordedWritten(mutantsFolder, name, max, written, requests);
    }

    /**
     * `persist`: counts the call; within the first `max` calls it copies the chatbot to the next
     * folder, overwrites the module's file with the module's `to_dict`, and moves the counter on.
     */
    method Persist(file: string, mutated: Module, mutation: Mutation) returns (r: Result<()>)
      requires Valid()
      modifies this
      ensures numMutants == old(numMutants) + 1 && requests == old(requests) + [Request(file, mutated, mutation)]
      ensures r.Err? <==> numMutants <= max && Serialise.ModuleDict(mutated).Err?
      ensures r.Err? ==> r.error == Serialise.ModuleDict(mutated).error
      ensures r.Err? || numMutants > max ==> counter == old(counter) && written == old(written)
      ensures r.Ok? && numMutants <= max ==>
                counter == old(counter) + 1
                && written == old(written) + [Mutant(Folder(mutantsFolder, name, old(counter)), Basename(file),
                                                     Serialise.ModuleDict(mutated).value, mutation)]
      ensures r.Ok? ==> Valid()
    {
      ghost var req := Request(file, mutated, mutation);
      if numMutants + 1 > max {
        RecordedSkip(mutantsFolder, name, max, written, requests, req);
        numMutants, requests := numMutants + 1, requests + [req];
        return Ok(());
      }
      var content := Serialise.ModuleDict(mutated);
      if content.Err? {
        numMutants, requests := numMutants + 1, requests + [req];
        return Err(content.error);
      }
      var mutant := Mutant(Folder(mutantsFolder, name, counter), Basename(file), content.value, mutation);
      assert mutant == MutantOf(mutantsFolder, name, |written| + 1, req);
      RecordedAdd(mutantsFolder, name, max, written, requests, req);
      numMutants, requests := numMutants + 1, requests + [req];
      written, counter := written + [mutant], counter + 1;
      r := Ok(());
    }

    /** Persists one module's variants in order, each put in place in the table while it is written. */
    method PersistVariants(table: ModuleTable, i: nat, file: string, o: Outcome<Module>) returns (r: Result<()>)
      requires Valid() && i < |table.entries|
      modifies this, table
      ensures |table.entries| == old(|table.entries|)
      ensures table.entries[..i] == old(table.entries[..i]) && table.entries[i + 1..] == old(table.entries[i + 1..])
      ensures r.Ok? ==> Valid() && requests == old(requests) + FileRequests(file, o)
    {
      ghost var start := requests;
      ghost var before := table.entries;
      var k := 0;
      while k < |o.variants|
        invariant 0 <= k <= |o.variants| && Valid()
        invariant requests == start + FileRequests(file, o)[..k]
        invariant |table.entries| == |before| && table.entries[..i] == before[..i] && table.entries[i + 1..] == before[i + 1..]
      {
        var (v, mutation) := o.variants[k];
        ghost var pre := requests;
        var p := PersistVariant(table, i, file, v, mutation);
        if p.Err? {
          return Err(p.error);
        }
        ghost var done := FileRequests(file, o)[..k];
        Seqs.Associative(start, done, [Request(file, v, mutation)]);
        assert FileRequests(file, o)[..k + 1] == done + [Request(file, v, mutation)];
        k := k + 1;
      }
      assert FileRequests(file, o)[..k] == FileRequests(file, o);
      r := Ok(());
    }

    /** One variant: put in place in the table, then persisted. */
    method PersistVariant(table: ModuleTable, i: nat, file: string, v: Module, mutation: Mutation) returns (r: Result<()>)
      requires Valid() && i < |table.entries|
      modifies this, table
      ensures |table.entries| == old(|table.entries|) && table.entries[i] == (file, v)
      ensures table.entries[..i] == old(table.entries[..i]) && table.entries[i + 1..] == old(table.entries[i + 1..])
      ensures r.Ok? ==> Valid() && requests == old(requests) + [Request(file, v, mutation)]
    {
      Seqs.UpdateKeepsSlices(table.entries, i, (file, v));
      table.entries := table.entries[i := (file, v)];
      r := Persist(file, v, mutation);
    }

    /** One step of `generate_mutants`: the variants of the `i`-th file's module, then that module put back as the operator leaves it. */
    method MutateFile(table: ModuleTable, i: nat) returns (r: Result<()>)
      requires Valid() && i < |table.entries|
      modifies this, table
      ensures step(old(table.entries[i].1)).Err? ==> r.Err?
      ensures r.Ok? ==> step(old(table.entries[i].1)).Ok? && Valid()
                        && requests == old(requests) + FileRequests(old(table.entries[i].0), step(old(table.entries[i].1)).value)
                        && table.entries == old(table.entries)[i := (old(table.entries[i].0), step(old(table.entries[i].1)).value.left)]
    {
      var (file, m) := table.entries[i];
      var o := step(m);
      if o.Err? {
        return Err(o.error);
      }
      ghost var before := table.entries;
      r := PersistVariants(table, i, file, o.value);
      if r.Err? {
        return;
      }
      table.entries := table.entries[i := (file, o.value.left)];
      assert table.entries == before[i := (file, o.value.left)];
    }

    /**
     * `generate_mutants`: for each file in turn, persists the module's variants, then puts the
     * module back as the operator leaves it.
     */
    method Generate(table: ModuleTable) returns (r: Result<()>)
      requires Valid()
      modifies this, table
      ensures Requests(step, old(table.entries)).Err? ==> r.Err?
      ensures r.Ok? ==> Requests(step, old(table.entries)).Ok? && Valid()
                        && requests == old(requests) + Requests(step, old(table.entries)).value.0
                        && table.entries == Requests(step, old(table.entries)).value.1
    {
      ghost var start := requests;
      ghost var e := table.entries;
      ghost var done: seq<Request> := [];
      ghost var left: Dict<Module> := [];
      var i := 0;
      while i < |table.entries|
        invariant 0 <= i <= |e| && |table.entries| == |e|
        invariant Requests(step, e[..i]) == Ok((done, left)) && Valid()
        invariant requests == start + done
        invariant table.entries == left + e[i..]
      {
        assert table.entries[i] == e[i];
        ghost var before := table.entries;
        ghost var pre := requests;
        r := MutateFile(table, i);
        if r.Err? {
          return;
        }
        ghost var o := step(e[i].1).value;
        RequestsStep(step, e, i);
        Seqs.SetAt(before, left, e[i..], (e[i].0, o.left));
        assert e[i..][1..] == e[i + 1..];
        assert requests == pre + FileRequests(e[i].0, o);
        Seqs.Associative(start, done, FileRequests(e[i].0, o));
        done, left := done + FileRequests(e[i].0, o), left + [(e[i].0, o.left)];
        i := i + 1;
      }
      assert e[..i] == e;
      r := Ok(());
    }
  }

  // ----- generate_mutants -----

  /** A file's parsed modules put in the table one after the other under its path. */
  function PutAll(d: Dict<Module>, path: string, ms: seq<Module>): Dict<Module>
    decreases |ms|
  {
    if ms == [] then d else Put(PutAll(d, path, ms[..|ms| - 1]), path, ms[|ms| - 1])
  }

  /** The table `generate_mutants` builds from each file's parsed modules, in file order. */
  function LastModules(parsed: seq<(string, seq<Module>)>): Dict<Module>
    decreases |parsed|
  {
    if parsed == [] then []
    else PutAll(LastModules(parsed[..|parsed| - 1]), parsed[|parsed| - 1].0, parsed[|parsed| - 1].1)
  }

  /** The module a path ends up with: the last module of the last file under that path that has any. */
  function LastModuleAt(parsed: seq<(string, seq<Module>)>, path: string): Option<Module>
    decreases |parsed|
  {
    if parsed == [] then None
    else if parsed[|parsed| - 1].0 == path && parsed[|parsed| - 1].1 != [] then
      Some(parsed[|parsed| - 1].1[|parsed[|parsed| - 1].1| - 1])
    else LastModuleAt(parsed[..|parsed| - 1], path)
  }

  lemma {:induction false} PutAllGet(d: Dict<Module>, path: string, ms: seq<Module>, k: string)
    ensures Get(PutAll(d, path, ms), k) == if k == path && ms != [] then Some(ms[|ms| - 1]) else Get(d, k)
    decreases |ms|
  {
    if ms != [] {
      var n := |ms| - 1;
      PutAllGet(d, path, ms[..n], k);
      GetPut(PutAll(d, path, ms[..n]), path, ms[n], k);
      if n > 0 {
        assert ms[..n][n - 1] == ms[n - 1];
      }
    }
  }

  /** Only the last module of each file is kept, and a file without modules adds nothing. */
  lemma {:induction false} LastModulesGet(parsed: seq<(string, seq<Module>)>, k: string)
    ensures Get(LastModules(parsed), k) == LastModuleAt(parsed, k)
    decreases |parsed|
  {
    if parsed != [] {
      var n := |parsed| - 1;
      LastModulesGet(parsed[..n], k);
      PutAllGet(LastModules(parsed[..n]), parsed[n].0, parsed[n].1, k);
    }
  }

  lemma {:induction false} PutAllDistinct(d: Dict<Module>, path: string, ms: seq<Module>)
    requires DistinctKeys(d)
    ensures DistinctKeys(PutAll(d, path, ms))
    decreases |ms|
  {
    if ms != [] {
      PutAllDistinct(d, path, ms[..|ms| - 1]);
      PutKeepsDistinct(PutAll(d, path, ms[..|ms| - 1]), path, ms[|ms| - 1]);
    }
  }

  /** The table has one entry per path. */
  lemma {:induction false} LastModulesDistinct(parsed: seq<(string, seq<Module>)>)
    ensures DistinctKeys(LastModules(parsed))
    decreases |parsed|
  {
    if parsed != [] {
      var n := |parsed| - 1;
      LastModulesDistinct(parsed[..n]);
      PutAllDistinct(LastModules(parsed[..n]), parsed[n].0, parsed[n].1);
    }
  }

  /** One operator over the table: the mutants it writes, and the table it leaves to the next operator. */
  function RunOperator(op: Operator, mutantsFolder: string, max: int, entries: Dict<Module>): Result<(seq<Mutant>, Dict<Module>)>
  {
    var q := Requests(OperatorStep(op), entries);
    if q.Err? then Err(q.error)
    else
      var w := Written(mutantsFolder, OperatorName(op), max, q.value.0);
      if w.Err? then Err(w.error) else Ok((w.value, q.value.1))
  }

  /** The operators one after the other over the shared table; the first failure stops the run. */
  function RunAll(ops: seq<Operator>, mutantsFolder: string, max: int, entries: Dict<Module>): Result<(seq<Mutant>, Dict<Module>)>
    decreases |ops|
  {
    if ops == [] then Ok(([], entries))
    else
      var init := RunAll(ops[..|ops| - 1], mutantsFolder, max, entries);
      if init.Err? then Err(init.error)
      else
        var run := RunOperator(ops[|ops| - 1], mutantsFolder, max, init.value.1);
        if run.Err? then Err(run.error) else Ok((init.value.0 + run.value.0, run.value.1))
  }

  /** An operator writes at most `max` mutants. */
  lemma RunOperatorBound(op: Operator, mutantsFolder: string, max: int, entries: Dict<Module>)
    requires max >= 0 && RunOperator(op, mutantsFolder, max, entries).Ok?
    ensures |RunOperator(op, mutantsFolder, max, entries).value.0| <= max
  {
  }

  /** The operators after the first `n`: the run goes on from the table they left with the next one. */
  lemma RunAllStep(ops: seq<Operator>, n: nat, mutantsFolder: string, max: int, entries: Dict<Module>,
                   all: seq<Mutant>, table: Dict<Module>, reqs: seq<Request>, left: Dict<Module>, ws: seq<Mutant>)
    requires n < |ops| && RunAll(ops[..n], mutantsFolder, max, entries) == Ok((all, table))
    requires Requests(OperatorStep(ops[n]), table) == Ok((reqs, left))
    requires Written(mutantsFolder, OperatorName(ops[n]), max, reqs) == Ok(ws)
    ensures RunAll(ops[..n + 1], mutantsFolder, max, entries) == Ok((all + ws, left))
  {
    assert ops[..n + 1][..n] == ops[..n];
  }

  /** Each operator writes at most `max` mutants. */
  lemma {:induction false} RunAllBound(ops: seq<Operator>, mutantsFolder: string, max: int, entries: Dict<Module>)
    requires max >= 0 && RunAll(ops, mutantsFolder, max, entries).Ok?
    ensures |RunAll(ops, mutantsFolder, max, entries).value.0| <= |ops| * max
    decreases |ops|
  {
    if ops != [] {
      var n := |ops| - 1;
      RunAllBound(ops[..n], mutantsFolder, max, entries);
      var init := RunAll(ops[..n], mutantsFolder, max, entries);
      var run := RunOperator(ops[n], mutantsFolder, max, init.value.1);
      RunOperatorBound(ops[n], mutantsFolder, max, init.value.1);
      assert RunAll(ops, mutantsFolder, max, entries).value.0 == init.value.0 + run.value.0;
      BoundStep(|init.value.0|, |run.value.0|, n, |ops|, max);
    }
  }

  /** `n` runs of at most `max` each and one more are at most `n + 1` runs of `max`. */
  lemma BoundStep(a: nat, b: nat, n: nat, m: nat, max: int)
    requires a <= n * max && b <= max && m == n + 1
    ensures a + b <= m * max
  {
    assert m * max == n * max + max;
  }

  /** With bool flags throughout, every operator finds the table as parsed and leaves it so. */
  lemma {:induction false} RunAllRestores(ops: seq<Operator>, mutantsFolder: string, max: int, entries: Dict<Module>)
    requires RunAll(ops, mutantsFolder, max, entries).Ok?
    requires forall i :: 0 <= i < |entries| ==> BoolFlags(entries[i].1)
    ensures RunAll(ops, mutantsFolder, max, entries).value.1 == entries
    decreases |ops|
  {
    if ops != [] {
      var n := |ops| - 1;
      RunAllRestores(ops[..n], mutantsFolder, max, entries);
      RequestsRestore(ops[n], entries);
    }
  }

  /** Reads the parsed files into a fresh table: every module under its file's path, so the last one stays. */
  method BuildTable(parsed: seq<(string, seq<Module>)>) returns (table: ModuleTable)
    ensures fresh(table) && table.entries == LastModules(parsed)
  {
    table := new ModuleTable([]);
    var i := 0;
    while i < |parsed|
      invariant 0 <= i <= |parsed| && table.entries == LastModules(parsed[..i])
    {
      var (path, ms) := parsed[i];
      var j := 0;
      while j < |ms|
        invariant 0 <= j <= |ms| && table.entries == PutAll(LastModules(parsed[..i]), path, ms[..j])
      {
        table.entries := Put(table.entries, path, ms[j]);
        assert ms[..j + 1][..j] == ms[..j];
        j := j + 1;
      }
      assert ms[..j] == ms;
      assert parsed[..i + 1][..i] == parsed[..i];
      i := i + 1;
    }
    assert parsed[..i] == parsed;
  }

  /**
   * `generate_mutants`: builds the table of each YAML file's last module, then runs the eleven
   * operators over it in turn, each with fresh counters.
   */
  method GenerateMutants(parsed: seq<(string, seq<Module>)>, chatbotFolder: string, mutantsFolder: string, max: int)
    returns (r: Result<seq<Mutant>>)
    ensures RunAll(Operators, mutantsFolder, max, LastModules(parsed)).Err? ==> r.Err?
    ensures r.Ok? ==> RunAll(Operators, mutantsFolder, max, LastModules(parsed)).Ok?
                      && r.value == RunAll(Operators, mutantsFolder, max, LastModules(parsed)).value.0
  {
    var table := BuildTable(parsed);
    ghost var e := table.entries;
    var all: seq<Mutant> := [];
    var n := 0;
    while n < |Operators|
      invariant 0 <= n <= |Operators|
      invariant RunAll(Operators[..n], mutantsFolder, max, e) == Ok((all, table.entries))
    {
      ghost var before := table.entries;
      var operator := new MutationOperator(Operators[n], chatbotFolder, mutantsFolder, max);
      var res := operator.Generate(table);
      if res.Err? {
        return Err(res.error);
      }
      operator.ValidWritten();
      ghost var q := Requests(operator.step, before).value;
      assert operator.requests == [] + q.0 == q.0;
      assert operator.step == OperatorStep(Operators[n]) && operator.name == OperatorName(Operators[n]);
      RunAllStep(Operators, n, mutantsFolder, max, e, all, before, operator.requests, table.entries, operator.written);
      all := all + operator.written;
      n := n + 1;
    }
    assert Operators[..n] == Operators;
    r := Ok(all);
  }
}
