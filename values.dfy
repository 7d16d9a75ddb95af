// The dynamically typed Python values that flow through the engine (JSON values).
module Values {
  import opened Strings

  datatype Value =
    | VNone
    | VBool(b: bool)
    | VInt(i: int)
    | VFloat(repr: string)   // a float is kept by its decimal representation
    | VStr(s: string)
    | VList(items: seq<Value>)
    | VDict(entries: seq<(string, Value)>)

  /** Python truthiness. */
  predicate Truthy(v: Value)
  {
    match v
    case VNone => false
    case VBool(b) => b
    case VInt(i) => i != 0
    case VFloat(r) => r != "0.0" && r != "-0.0"
    case VStr(s) => s != ""
    case VList(xs) => xs != []
    case VDict(es) => es != []
  }

  /**
   * `repr(v)`, with each string put between single quotes as it is: quotes and backslashes inside
   * it are not escaped, and the switch to double quotes Python makes for a string holding a single
   * quote is not modelled either.
   */
  function PyRepr(v: Value): string
    decreases v, 1
  {
    match v
    case VNone => "None"
    case VBool(b) => if b then "True" else "False"
    case VInt(i) => IntToString(i)
    case VFloat(r) => r
    case VStr(s) => "'" + s + "'"
    case VList(xs) => "[" + ReprItems(v, 0) + "]"
    case VDict(es) => "{" + ReprEntries(v, 0) + "}"
  }

  function ReprItems(v: Value, i: nat): string
    requires v.VList?
    decreases v, 0, |v.items| - i
  {
    if i >= |v.items| then ""
    else PyRepr(v.items[i]) + (if i + 1 == |v.items| then "" else ", " + ReprItems(v, i + 1))
  }

  function ReprEntries(v: Value, i: nat): string
    requires v.VDict?
    decreases v, 0, |v.entries| - i
  {
    if i >= |v.entries| then ""
    else
      var e := v.entries[i];
      assert e in v.entries;
      "'" + e.0 + "': " + PyRepr(e.1) + (if i + 1 == |v.entries| then "" else ", " + ReprEntries(v, i + 1))
  }

  /** `str(v)`: a string is itself, anything else its representation. */
  function PyStr(v: Value): string
  {
    if v.VStr? then v.s else PyRepr(v)
  }
}
