// The interaction recorder and its conversion into test records.
module Recording {
  import opened Wrappers
  import opened Values

  datatype InteractionItem = InteractionItem(kind: string, message: string)

  class RecordedInteraction {
    var interactions: seq<InteractionItem>

    constructor()
      ensures interactions == []
    {
      interactions := [];
    }

    /** `append`: exactly one item at the end. */
    method Append(kind: string, message: string)
      modifies this
      ensures interactions == old(interactions) + [InteractionItem(kind, message)]
    {
      interactions := interactions + [InteractionItem(kind, message)];
    }
  }

  /** One record of the dump: `{user: msg}` or `{chatbot: [msg]}`. */
  function RecordOf(item: InteractionItem): (r: Result<Value>)
    ensures item.kind == "user" ==> r == Ok(VDict([("user", VStr(item.message))]))
    ensures item.kind == "chatbot" ==> r == Ok(VDict([("chatbot", VList([VStr(item.message)]))]))
    ensures item.kind != "user" && item.kind != "chatbot" ==> r.Err? && r.error.ValueError?
  {
    if item.kind == "user" then Ok(VDict([("user", VStr(item.message))]))
    else if item.kind == "chatbot" then Ok(VDict([("chatbot", VList([VStr(item.message)]))]))
    else Err(ValueError("Unknown interaction type " + item.kind))
  }

  /** The records of a prefix of the interactions; the first unknown type stops the dump. */
  function RecordsOf(items: seq<InteractionItem>): Result<seq<Value>>
  {
    if items == [] then Ok([])
    else
      var front :- RecordsOf(items[..|items| - 1]);
      var last :- RecordOf(items[|items| - 1]);
      Ok(front + [last])
  }

  /**
   * The dump keeps order and length, and fails exactly when some item has an unknown type.
   */
  lemma {:induction false} RecordsOfShape(items: seq<InteractionItem>)
    ensures RecordsOf(items).Ok? <==> forall i :: 0 <= i < |items| ==> RecordOf(items[i]).Ok?
    ensures RecordsOf(items).Ok? ==>
              |RecordsOf(items).value| == |items|
              && forall i :: 0 <= i < |items| ==> RecordsOf(items).value[i] == RecordOf(items[i]).value
  {
    if items != [] {
      var front := items[..|items| - 1];
      RecordsOfShape(front);
      assert forall i :: 0 <= i < |front| ==> front[i] == items[i];
    }
  }

  /**
   * `dump_test_recording` without the YAML write: `None` for a missing file, otherwise the
   * document `{interaction: [...]}`.
   */
  method DumpTestRecording(recording: seq<InteractionItem>, file: Option<string>) returns (r: Result<Option<Value>>)
    ensures file.None? ==> r == Ok(None)
    ensures file.Some? ==> r == (match RecordsOf(recording)
                                 case Ok(rs) => Ok(Some(VDict([("interaction", VList(rs))])))
                                 case Err(e) => Err(e))
  {
    if file.None? {
      return Ok(None);
    }
    var records: seq<Value> := [];
    var i := 0;
    while i < |recording|
      invariant 0 <= i <= |recording|
      invariant RecordsOf(recording[..i]) == Ok(records)
    {
      assert recording[..i + 1][..i] == recording[..i];
      var item := recording[i];
      if item.kind == "user" {
        records := records + [VDict([("user", VStr(item.message))])];
      } else if item.kind == "chatbot" {
        records := records + [VDict([("chatbot", VList([VStr(item.message)]))])];
      } else {
        RecordsErrorExtends(recording, i + 1);
        return Err(ValueError("Unknown interaction type " + item.kind));
      }
      i := i + 1;
    }
    assert recording[..i] == recording;
    return Ok(Some(VDict([("interaction", VList(records))])));
  }

  /** An error at some prefix is the error of the whole dump. */
  lemma {:induction false} RecordsErrorExtends(items: seq<InteractionItem>, n: nat)
    requires n <= |items| && RecordsOf(items[..n]).Err?
    ensures RecordsOf(items) == RecordsOf(items[..n])
    decreases |items| - n
  {
    if n == |items| {
      assert items[..n] == items;
    } else {
      assert items[..n + 1][..n] == items[..n];
      RecordsErrorExtends(items, n + 1);
    }
  }
}
