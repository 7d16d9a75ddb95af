// Typed reading of collected data (`get_property_value`) and template filling (`replace_values`).
module Common {
  import opened Wrappers
  import opened Strings
  import opened Values
  import opened Dicts
  import Spec

  predicate IsIntType(p: Spec.DataProperty) { p.typ == "int" || p.typ == "integer" }

  /**
   * `get_property_value`: the value collected for `p`, coerced to its declared type, or `None` when
   * it is missing, `None`, of the wrong kind, unparsable or blank. A Python `bool` is an `int`, so
   * it passes the integer check unchanged.
   */
  function GetPropertyValue(p: Spec.DataProperty, data: Dict<Value>): (r: Option<Value>)
    ensures Get(data, p.name).None? || Get(data, p.name) == Some(VNone) ==> r.None?
    ensures r.Some? && p.typ == "string" ==> r.value.VStr? && r.value.s != ""
    ensures r.Some? && IsIntType(p) ==> r.value.VInt? || r.value.VBool?
    ensures r.Some? && p.typ != "string" && !IsIntType(p) ==> r.value.VStr? && Strip(r.value.s) != ""
  {
    match Get(data, p.name)
    case None => None
    case Some(v) =>
      if v.VNone? then None
      else if p.typ == "string" then
        var text := match v
          case VStr(s) => Some(Strip(s))
          case VInt(_) => Some(PyStr(v))
          case VFloat(_) => Some(PyStr(v))
          case VBool(_) => Some(PyStr(v))
          case _ => None;
        if text.None? || text.value == "" then None
        else Some(VStr(text.value))
      else if IsIntType(p) then
        match v
        case VInt(_) => Some(v)
        case VBool(_) => Some(v)
        case VStr(s) => (match ParseInt(s) case Some(i) => Some(VInt(i)) case None => None)
        case _ => None
      else
        var text := PyStr(v);
        if Strip(text) == "" then None else Some(VStr(text))
  }

  lemma StripIdempotent(s: string)
    ensures Strip(Strip(s)) == Strip(s)
  {
    var a, b := TrimIsMiddle(s, IsSpace);
    var t := s[a..b];
    if t != [] {
      assert t[0] == s[a] && t[|t| - 1] == s[b - 1];
    }
    TrimKeeps(t, IsSpace);
  }

  /** `str(int(str(i)))`: a decimal string read by an integer property gives that integer. */
  lemma IntPropertyParses(p: Spec.DataProperty, data: Dict<Value>, i: int)
    requires IsIntType(p) && Get(data, p.name) == Some(VStr(IntToString(i)))
    ensures GetPropertyValue(p, data) == Some(VInt(i))
  {
    ParseIntOfIntToString(i);
  }

  /** A string property holds the stripped text of a string value. */
  lemma StringPropertyStripped(p: Spec.DataProperty, data: Dict<Value>, s: string)
    requires p.typ == "string" && Get(data, p.name) == Some(VStr(s))
    ensures GetPropertyValue(p, data) == if Strip(s) == "" then None else Some(VStr(Strip(s)))
    ensures GetPropertyValue(p, data).Some? ==> Strip(GetPropertyValue(p, data).value.s) == GetPropertyValue(p, data).value.s
  {
    StripIdempotent(s);
  }

  /**
   * Reading back a coerced value under the same property gives it unchanged. A float is kept by
   * its representation, which Python never pads with whitespace; the requirement says so.
   */
  lemma GetPropertyValueIdempotent(p: Spec.DataProperty, data: Dict<Value>)
    requires GetPropertyValue(p, data).Some?
    requires Get(data, p.name).value.VFloat? ==> Strip(Get(data, p.name).value.repr) == Get(data, p.name).value.repr
    ensures GetPropertyValue(p, [(p.name, GetPropertyValue(p, data).value)]) == GetPropertyValue(p, data)
  {
    var v := Get(data, p.name).value;
    var w := GetPropertyValue(p, data).value;
    assert Get([(p.name, w)], p.name) == Some(w);
    if p.typ == "string" {
      match v
      case VStr(s) => StripIdempotent(s);
      case VInt(i) => StripOfIntToString(i);
      case VBool(b) => TrimKeeps(w.s, IsSpace);
      case VFloat(f) =>
      case _ =>
    } else if !IsIntType(p) {
      assert PyStr(w) == w.s;
    }
  }

  // ----- Template filling -----

  function DoubleBraced(k: string): string { "{{" + k + "}}" }

  function Braced(k: string): string { "{" + k + "}" }

  /** One iteration of `replace_values`: `{{k}}` first, then `{k}`, each by `str(v)`. */
  function ReplaceKey(response: string, k: string, v: Value): string
  {
    Replace(Replace(response, DoubleBraced(k), PyStr(v)), Braced(k), PyStr(v))
  }

  /** `replace_values`, as a fold over the entries in dict order. */
  function ReplaceAll(response: string, data: Dict<Value>): string
  {
    if data == [] then response
    else
      var last := data[|data| - 1];
      ReplaceKey(ReplaceAll(response, data[..|data| - 1]), last.0, last.1)
  }

  /** `replace_values`. */
  method ReplaceValues(response: string, data: Dict<Value>) returns (r: string)
    ensures r == ReplaceAll(response, data)
  {
    r := response;
    var i := 0;
    while i < |data|
      invariant i <= |data|
      invariant r == ReplaceAll(response, data[..i])
    {
      assert data[..i + 1][..i] == data[..i];
      r := ReplaceKey(r, data[i].0, data[i].1);
      i := i + 1;
    }
    assert data[..i] == data;
  }

  /** An occurrence of `q` inside an occurrence of `p` is an occurrence in `s`. */
  lemma OccursWithin(s: string, p: string, q: string, j: nat, i: nat)
    requires OccursAt(s, p, j) && OccursAt(p, q, i)
    ensures OccursAt(s, q, j + i)
  {
    assert p == s[j..j + |p|];
    OccursInSlice(s, q, j, j + |p|, i);
  }

  /** A text without `{k}` has no `{{k}}` either. */
  lemma NoBracedNoDoubleBraced(s: string, k: string)
    requires !Contains(s, Braced(k))
    ensures !Contains(s, DoubleBraced(k))
  {
    var p := DoubleBraced(k);
    assert OccursAt(p, Braced(k), 1) by {
      assert p[1..1 + |Braced(k)|] == Braced(k);
    }
    forall j | 0 <= j <= |s| && OccursAt(s, p, j) ensures false {
      OccursWithin(s, p, Braced(k), j, 1);
    }
  }

  /** Text in which no key's `{k}` occurs is returned unchanged. */
  lemma {:induction false} ReplaceAllUnchanged(response: string, data: Dict<Value>)
    requires forall i :: 0 <= i < |data| ==> !Contains(response, Braced(data[i].0))
    ensures ReplaceAll(response, data) == response
  {
    if data != [] {
      var front := data[..|data| - 1];
      var last := data[|data| - 1];
      assert forall i :: 0 <= i < |front| ==> front[i] == data[i];
      ReplaceAllUnchanged(response, front);
      NoBracedNoDoubleBraced(response, last.0);
    }
  }

  /** A pattern longer than the text cannot occur in it. */
  lemma LongerAbsent(s: string, p: string)
    requires |p| > |s|
    ensures !Contains(s, p)
  {
  }

  /** Replacing a whole text by itself yields the replacement. */
  lemma ReplaceWhole(p: string, w: string)
    requires |p| > 0
    ensures Replace(p, p, w) == w
  {
    assert OccursAt(p, p, 0) by { assert p[0..|p|] == p; }
    assert IndexOf(p, p) == Some(0);
    assert p[|p|..] == [];
    assert p[..0] == [];
  }

  /** `replace_values("{k}", {k: v})` is `str(v)`. */
  lemma FillsBraced(k: string, v: Value)
    ensures ReplaceAll(Braced(k), [(k, v)]) == PyStr(v)
  {
    var data := [(k, v)];
    assert data[..0] == [];
    LongerAbsent(Braced(k), DoubleBraced(k));
    ReplaceWhole(Braced(k), PyStr(v));
  }

  /** `replace_values("{{k}}", {k: v})` is `str(v)` when `str(v)` has no `{k}` of its own. */
  lemma FillsDoubleBraced(k: string, v: Value)
    requires !Contains(PyStr(v), Braced(k))
    ensures ReplaceAll(DoubleBraced(k), [(k, v)]) == PyStr(v)
  {
    var data := [(k, v)];
    assert data[..0] == [];
    ReplaceWhole(DoubleBraced(k), PyStr(v));
  }
}
