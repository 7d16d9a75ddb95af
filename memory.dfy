// Conversation memory: typed messages, the merge rule for memory pieces, and text rendering.
module Memories {
  import opened Wrappers
  import opened Values
  import opened Dicts

  datatype MessageKind = Human | Data | Instruction | AIReasoning | AIResponse

  function Prefix(k: MessageKind): string
  {
    match k
    case Human => "Human: "
    case Data => ""
    case Instruction => "Instruction: "
    case AIReasoning => ""
    case AIResponse => "AI: "
  }

  function MemoryType(k: MessageKind): string
  {
    match k
    case Human => "human"
    case Data => "data"
    case Instruction => "instruction"
    case AIReasoning => "ai_reasoning"
    case AIResponse => "ai_response"
  }

  datatype Message = Message(kind: MessageKind, text: string)

  /**
   * A memory bucket or a memory piece. `data` is the structured payload that the data-gathering
   * task attaches to its data message; `None` until one is attached.
   */
  datatype Memory = Memory(messages: seq<Message>, data: Option<Dict<Value>>)

  const EmptyMemory := Memory([], None)

  /** Kinds of which a memory keeps only the newest message. */
  predicate LatestWins(k: MessageKind) { k == Instruction || k == Data }

  function OfKind(ms: seq<Message>, k: MessageKind): seq<Message>
  {
    if ms == [] then []
    else OfKind(ms[..|ms| - 1], k) + (if ms[|ms| - 1].kind == k then [ms[|ms| - 1]] else [])
  }

  function Without(ms: seq<Message>, k: MessageKind): seq<Message>
  {
    if ms == [] then []
    else Without(ms[..|ms| - 1], k) + (if ms[|ms| - 1].kind != k then [ms[|ms| - 1]] else [])
  }

  /** One step of `add_memory`. */
  function AddMessage(ms: seq<Message>, m: Message): seq<Message>
  {
    if LatestWins(m.kind) then Without(ms, m.kind) + [m] else ms + [m]
  }

  function AddMessages(ms: seq<Message>, piece: seq<Message>): seq<Message>
  {
    if piece == [] then ms else AddMessage(AddMessages(ms, piece[..|piece| - 1]), piece[|piece| - 1])
  }

  /** `add_memory`; the piece's data, when it has some, replaces the bucket's. */
  function Merge(m: Memory, piece: Memory): Memory
  {
    Memory(AddMessages(m.messages, piece.messages), if piece.data.Some? then piece.data else m.data)
  }

  /** The messages `copy_memory_from` takes: those whose kind is in the filter, or all. */
  function Copied(ms: seq<Message>, filter: Option<set<MessageKind>>): (r: seq<Message>)
    ensures filter.None? ==> r == ms
    ensures |r| <= |ms|
    ensures filter.Some? ==> forall i :: 0 <= i < |r| ==> r[i].kind in filter.value
  {
    if ms == [] then []
    else Copied(ms[..|ms| - 1], filter)
         + (if filter.None? || ms[|ms| - 1].kind in filter.value then [ms[|ms| - 1]] else [])
  }

  /** `copy_memory_from`; the source's data travels with its messages. */
  function CopyFrom(m: Memory, other: Memory, filter: Option<set<MessageKind>>): Memory
  {
    Memory(m.messages + Copied(other.messages, filter), if other.data.Some? then other.data else m.data)
  }

  /** The `memory_types` argument of `to_text_messages`: a list filters, a plain string does not. */
  datatype MemoryTypes = AnyType(name: string) | OnlyTypes(types: seq<string>)

  predicate Shown(m: Message, types: MemoryTypes)
  {
    types.AnyType? || MemoryType(m.kind) in types.types
  }

  function Line(m: Message): string { Prefix(m.kind) + m.text + "\n" }

  function TextOf(ms: seq<Message>, types: MemoryTypes): string
  {
    if ms == [] then ""
    else TextOf(ms[..|ms| - 1], types) + Rendered(ms[|ms| - 1], types)
  }

  function Rendered(m: Message, types: MemoryTypes): string
  {
    if Shown(m, types) then Line(m) else ""
  }

  // ----- Properties of the merge rule -----

  lemma {:induction false} OfKindConcat(a: seq<Message>, b: seq<Message>, k: MessageKind)
    ensures OfKind(a + b, k) == OfKind(a, k) + OfKind(b, k)
  {
    if b != [] {
      assert (a + b)[..|a + b| - 1] == a + b[..|b| - 1];
      OfKindConcat(a, b[..|b| - 1], k);
    } else {
      assert a + b == a;
    }
  }

  lemma {:induction false} OfKindWithout(ms: seq<Message>, k: MessageKind, k': MessageKind)
    ensures OfKind(Without(ms, k), k') == if k == k' then [] else OfKind(ms, k')
  {
    if ms != [] {
      var front := ms[..|ms| - 1];
      OfKindWithout(front, k, k');
      OfKindConcat(Without(front, k), if ms[|ms| - 1].kind != k then [ms[|ms| - 1]] else [], k');
    }
  }

  /** One step: a latest-wins kind keeps only the new message, any other kind grows by it. */
  lemma AddMessageByKind(ms: seq<Message>, m: Message, k: MessageKind)
    ensures OfKind(AddMessage(ms, m), k) ==
              if m.kind == k && LatestWins(k) then [m]
              else OfKind(ms, k) + (if m.kind == k then [m] else [])
  {
    if LatestWins(m.kind) {
      OfKindConcat(Without(ms, m.kind), [m], k);
      OfKindWithout(ms, m.kind, k);
      assert OfKind([m], k) == OfKind([], k) + (if m.kind == k then [m] else []);
    } else {
      OfKindConcat(ms, [m], k);
      assert OfKind([m], k) == OfKind([], k) + (if m.kind == k then [m] else []);
    }
  }

  /** The last step of the merge, kind by kind, stated on `AddMessages` itself. */
  lemma OfKindLastStep(ms: seq<Message>, piece: seq<Message>, k: MessageKind)
    requires piece != []
    ensures var m := piece[|piece| - 1];
            OfKind(AddMessages(ms, piece), k) ==
              if m.kind == k && LatestWins(k) then [m]
              else OfKind(AddMessages(ms, piece[..|piece| - 1]), k) + (if m.kind == k then [m] else [])
  {
    AddMessageByKind(AddMessages(ms, piece[..|piece| - 1]), piece[|piece| - 1], k);
  }

  /**
   * `add_memory` for an instruction or data kind: the bucket keeps only the piece's newest
   * message of that kind, or its own when the piece has none.
   */
  lemma {:induction false} AddMessagesLatest(ms: seq<Message>, piece: seq<Message>, k: MessageKind)
    requires LatestWins(k)
    ensures OfKind(AddMessages(ms, piece), k) ==
              if OfKind(piece, k) == [] then OfKind(ms, k) else [OfKind(piece, k)[|OfKind(piece, k)| - 1]]
  {
    if piece != [] {
      OfKindLastStep(ms, piece, k);
      AddMessagesLatest(ms, piece[..|piece| - 1], k);
    }
  }

  /** `add_memory` for every other kind: the piece's messages follow the bucket's. */
  lemma {:induction false} AddMessagesAccumulate(ms: seq<Message>, piece: seq<Message>, k: MessageKind)
    requires !LatestWins(k)
    ensures OfKind(AddMessages(ms, piece), k) == OfKind(ms, k) + OfKind(piece, k)
  {
    if piece != [] {
      OfKindLastStep(ms, piece, k);
      AddMessagesAccumulate(ms, piece[..|piece| - 1], k);
    }
  }

  function CountKind(ms: seq<Message>, k: MessageKind): nat { |OfKind(ms, k)| }

  /** A bucket holding at most one instruction (or data message) keeps holding at most one. */
  lemma AtMostOneLatest(ms: seq<Message>, piece: seq<Message>, k: MessageKind)
    requires LatestWins(k) && CountKind(ms, k) <= 1
    ensures CountKind(AddMessages(ms, piece), k) <= 1
    ensures CountKind(piece, k) > 0 ==> CountKind(AddMessages(ms, piece), k) == 1
  {
    AddMessagesLatest(ms, piece, k);
  }

  /** The messages of the kinds that accumulate. */
  function Ordinary(ms: seq<Message>): seq<Message>
  {
    if ms == [] then []
    else Ordinary(ms[..|ms| - 1]) + (if !LatestWins(ms[|ms| - 1].kind) then [ms[|ms| - 1]] else [])
  }

  lemma {:induction false} OrdinaryConcat(a: seq<Message>, b: seq<Message>)
    ensures Ordinary(a + b) == Ordinary(a) + Ordinary(b)
  {
    if b == [] {
      assert a + b == a;
    } else {
      var front := b[..|b| - 1];
      var last := b[|b| - 1];
      assert (a + b)[..|a + b| - 1] == a + front;
      assert (a + b)[|a + b| - 1] == last;
      OrdinaryConcat(a, front);
    }
  }

  lemma {:induction false} OrdinaryWithout(ms: seq<Message>, k: MessageKind)
    requires LatestWins(k)
    ensures Ordinary(Without(ms, k)) == Ordinary(ms)
  {
    if ms != [] {
      var front := ms[..|ms| - 1];
      var last := ms[|ms| - 1];
      var kept := if last.kind != k then [last] else [];
      assert Without(ms, k) == Without(front, k) + kept;
      OrdinaryConcat(Without(front, k), kept);
      OrdinaryWithout(front, k);
      assert Ordinary(kept) == Ordinary([]) + (if kept != [] && !LatestWins(last.kind) then [last] else []);
    }
  }

  lemma OrdinaryOfAddMessage(ms: seq<Message>, m: Message)
    ensures Ordinary(AddMessage(ms, m)) == Ordinary(ms) + (if LatestWins(m.kind) then [] else [m])
  {
    assert Ordinary([m]) == Ordinary([]) + (if !LatestWins(m.kind) then [m] else []);
    if LatestWins(m.kind) {
      OrdinaryConcat(Without(ms, m.kind), [m]);
      OrdinaryWithout(ms, m.kind);
    } else {
      OrdinaryConcat(ms, [m]);
    }
  }

  /** The last step of the merge, stated on `AddMessages` itself. */
  lemma OrdinaryOfLastStep(ms: seq<Message>, piece: seq<Message>)
    requires piece != []
    ensures Ordinary(AddMessages(ms, piece))
         == Ordinary(AddMessages(ms, piece[..|piece| - 1]))
            + (if LatestWins(piece[|piece| - 1].kind) then [] else [piece[|piece| - 1]])
  {
    OrdinaryOfAddMessage(AddMessages(ms, piece[..|piece| - 1]), piece[|piece| - 1]);
  }

  /** Leaving out instructions and data, the merge is concatenation: order is kept. */
  lemma {:induction false} OrdinaryOfAddMessages(ms: seq<Message>, piece: seq<Message>)
    ensures Ordinary(AddMessages(ms, piece)) == Ordinary(ms) + Ordinary(piece)
  {
    if piece == [] {
      assert Ordinary(piece) == [];
    } else {
      OrdinaryOfLastStep(ms, piece);
      OrdinaryOfAddMessages(ms, piece[..|piece| - 1]);
    }
  }

  // ----- Properties of copying and rendering -----

  lemma {:induction false} CopiedConcat(a: seq<Message>, b: seq<Message>, filter: Option<set<MessageKind>>)
    ensures Copied(a + b, filter) == Copied(a, filter) + Copied(b, filter)
  {
    if b != [] {
      assert (a + b)[..|a + b| - 1] == a + b[..|b| - 1];
      CopiedConcat(a, b[..|b| - 1], filter);
    } else {
      assert a + b == a;
    }
  }

  lemma OfKindSingle(m: Message, k: MessageKind)
    ensures OfKind([m], k) == if m.kind == k then [m] else []
  {
    assert OfKind([m], k) == OfKind([], k) + (if m.kind == k then [m] else []);
  }

  /** A filtered copy takes, kind by kind, exactly the source's messages of the kinds asked for. */
  lemma {:induction false} CopiedByKind(ms: seq<Message>, filter: set<MessageKind>, k: MessageKind)
    ensures OfKind(Copied(ms, Some(filter)), k) == if k in filter then OfKind(ms, k) else []
  {
    if ms != [] {
      var front := ms[..|ms| - 1];
      var last := ms[|ms| - 1];
      var kept := if last.kind in filter then [last] else [];
      assert Copied(ms, Some(filter)) == Copied(front, Some(filter)) + kept;
      assert OfKind(ms, k) == OfKind(front, k) + (if last.kind == k then [last] else []);
      CopiedByKind(front, filter, k);
      OfKindConcat(Copied(front, Some(filter)), kept, k);
      OfKindSingle(last, k);
    }
  }

  lemma {:induction false} TextOfConcat(a: seq<Message>, b: seq<Message>, types: MemoryTypes)
    ensures TextOf(a + b, types) == TextOf(a, types) + TextOf(b, types)
  {
    if b == [] {
      assert a + b == a;
    } else {
      var front := b[..|b| - 1];
      var last := b[|b| - 1];
      assert a + b != [];
      assert (a + b)[..|a + b| - 1] == a + front;
      assert (a + b)[|a + b| - 1] == last;
      calc {
        TextOf(a + b, types);
        TextOf(a + front, types) + Rendered(last, types);
        { TextOfConcat(a, front, types); }
        TextOf(a, types) + TextOf(front, types) + Rendered(last, types);
      }
    }
  }

  function ShownOnly(ms: seq<Message>, types: seq<string>): seq<Message>
  {
    if ms == [] then []
    else ShownOnly(ms[..|ms| - 1], types) + (if MemoryType(ms[|ms| - 1].kind) in types then [ms[|ms| - 1]] else [])
  }

  /** Rendering with a list of types is rendering, unfiltered, the messages of those types. */
  lemma {:induction false} TextOfFiltered(ms: seq<Message>, types: seq<string>, name: string)
    ensures TextOf(ms, OnlyTypes(types)) == TextOf(ShownOnly(ms, types), AnyType(name))
  {
    if ms != [] {
      var front := ms[..|ms| - 1];
      var last := ms[|ms| - 1];
      TextOfFiltered(front, types, name);
      TextOfConcat(ShownOnly(front, types), if MemoryType(last.kind) in types then [last] else [], AnyType(name));
      assert TextOf([last], AnyType(name)) == TextOf([], AnyType(name)) + Rendered(last, AnyType(name));
    }
  }

  // ----- The mutable memory of memory.py -----

  class ConversationMemory {
    var messages: seq<Message>
    var data: Option<Dict<Value>>

    constructor()
      ensures messages == [] && data.None?
    {
      messages := [];
      data := None;
    }

    function Snapshot(): Memory
      reads this
    {
      Memory(messages, data)
    }

    /** `add_memory`: the piece's messages one by one under the latest-wins rule. */
    method AddMemory(piece: Memory)
      modifies this
      ensures Snapshot() == Merge(old(Snapshot()), piece)
    {
      var start := messages;
      var i := 0;
      while i < |piece.messages|
        invariant 0 <= i <= |piece.messages|
        invariant messages == AddMessages(start, piece.messages[..i])
        invariant data == old(data)
      {
        assert piece.messages[..i + 1][..i] == piece.messages[..i];
        var m := piece.messages[i];
        if m.kind == Instruction {
          messages := Without(messages, Instruction) + [m];
        } else if m.kind == Data {
          messages := Without(messages, Data) + [m];
        } else {
          messages := messages + [m];
        }
        i := i + 1;
      }
      assert piece.messages[..i] == piece.messages;
      if piece.data.Some? {
        data := piece.data;
      }
    }

    /** `copy_memory_from`: appends the other memory's messages of the filtered kinds. */
    method CopyMemoryFrom(other: ConversationMemory, filter: Option<set<MessageKind>>)
      modifies this
      ensures Snapshot() == CopyFrom(old(Snapshot()), old(other.Snapshot()), filter)
      ensures other != this ==> other.Snapshot() == old(other.Snapshot())
    {
      var toBeCopied := other.messages;
      if filter.Some? {
        toBeCopied := Copied(toBeCopied, filter);
      }
      if other.data.Some? {
        data := other.data;
      }
      messages := messages + toBeCopied;
    }

    method AddDataMessage(text: string, payload: Option<Dict<Value>>) returns (self: ConversationMemory)
      modifies this
      ensures self == this
      ensures messages == old(messages) + [Message(Data, text)]
      ensures data == if payload.Some? then payload else old(data)
    {
      messages := messages + [Message(Data, text)];
      if payload.Some? {
        data := payload;
      }
      self := this;
    }

    method AddInstructionMessage(text: string) returns (self: ConversationMemory)
      modifies this
      ensures self == this && messages == old(messages) + [Message(Instruction, text)] && data == old(data)
    {
      messages := messages + [Message(Instruction, text)];
      self := this;
    }

    method AddHumanMessage(text: string) returns (self: ConversationMemory)
      modifies this
      ensures self == this && messages == old(messages) + [Message(Human, text)] && data == old(data)
    {
      messages := messages + [Message(Human, text)];
      self := this;
    }

    method AddAIReasoningMessage(text: string) returns (self: ConversationMemory)
      modifies this
      ensures self == this && messages == old(messages) + [Message(AIReasoning, text)] && data == old(data)
    {
      messages := messages + [Message(AIReasoning, text)];
      self := this;
    }

    method AddAIResponse(text: string) returns (self: ConversationMemory)
      modifies this
      ensures self == this && messages == old(messages) + [Message(AIResponse, text)] && data == old(data)
    {
      messages := messages + [Message(AIResponse, text)];
      self := this;
    }

    /** `to_text_messages`: one `prefix + text + "\n"` line per shown message, in order. */
    method ToTextMessages(types: MemoryTypes) returns (text: string)
      ensures text == TextOf(messages, types)
    {
      text := "";
      var i := 0;
      while i < |messages|
        invariant 0 <= i <= |messages|
        invariant text == TextOf(messages[..i], types)
      {
        assert messages[..i + 1][..i] == messages[..i];
        var m := messages[i];
        if types.OnlyTypes? && MemoryType(m.kind) !in types.types {
          i := i + 1;
          continue;
        }
        text := text + Rendered(m, types);
        i := i + 1;
      }
      assert messages[..i] == messages;
    }
  }

  /** The builders on a fresh piece, as values: `MemoryPiece().add_human_message(t)` and so on. */
  function Piece(k: MessageKind, text: string): (m: Memory)
    ensures m.messages == [Message(k, text)] && m.data.None?
  {
    Memory([Message(k, text)], None)
  }
}
