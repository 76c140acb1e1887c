/**
 Message histories as the context governor sees them, and the grouping of tool calls with their results.
 */
module Messages {
  import opened Prelude

  datatype Role = System | Developer | User | Assistant | Tool

  datatype Part = Image(url: string) | Plain(text: string)

  datatype Content = Text(text: string) | Parts(parts: seq<Part>)

  /** An entry of `tool_calls`; one without a usable id is malformed. */
  datatype Call = Call(id: string, body: string) | Malformed

  datatype Message = Message(role: Role, content: Content, calls: seq<Call>, answers: Option<string>)

  type Block = seq<Message>

  datatype Fault = CallsOutsideAssistant | IdsNotUnique

  datatype Normalized = Blocks(blocks: seq<Block>) | Invalid(fault: Fault)

  predicate IsEmpty(c: Content) {
    match c
    case Text(text) => text == ""
    case Parts(parts) => parts == []
  }

  predicate UniqueIds(calls: seq<Call>) {
    && (forall i :: 0 <= i < |calls| ==> calls[i].Call? && calls[i].id != "")
    && (forall i, j :: 0 <= i < j < |calls| ==> !SameId(calls[i], calls[j]))
  }

  predicate SameId(a: Call, b: Call) {
    a.Call? && b.Call? && a.id == b.id
  }

  /** How many messages follow before the next assistant. */
  function Span(ms: seq<Message>): (k: nat)
    ensures k <= |ms|
    ensures forall i :: 0 <= i < k ==> ms[i].role != Assistant
    ensures k < |ms| ==> ms[k].role == Assistant
  {
    if ms == [] || ms[0].role == Assistant then 0 else 1 + Span(ms[1..])
  }

  /** The last tool message that answers `id`. */
  function ResultOf(following: seq<Message>, id: string): Option<Message> {
    if following == [] then None
    else
      var last := following[|following| - 1];
      if last.role == Tool && last.answers == Some(id) then Some(last) else ResultOf(following[..|following| - 1], id)
  }

  predicate Answered(c: Call, following: seq<Message>) {
    c.Call? && ResultOf(following, c.id).Some?
  }

  function Kept(calls: seq<Call>, following: seq<Message>): seq<Call> {
    if calls == [] then []
    else if Answered(calls[0], following) then [calls[0]] + Kept(calls[1..], following)
    else Kept(calls[1..], following)
  }

  function Results(calls: seq<Call>, following: seq<Message>): seq<Message> {
    if calls == [] then []
    else if Answered(calls[0], following)
    then [ResultOf(following, calls[0].id).value] + Results(calls[1..], following)
    else Results(calls[1..], following)
  }

  function Others(following: seq<Message>): seq<Message> {
    if following == [] then []
    else if following[0].role == Tool then Others(following[1..])
    else [following[0]] + Others(following[1..])
  }

  function Singles(ms: seq<Message>): seq<Block> {
    if ms == [] then [] else [[ms[0]]] + Singles(ms[1..])
  }

  /** The blocks made of one calling assistant and the messages up to the next assistant. */
  function Group(m: Message, following: seq<Message>): seq<Block> {
    var kept := Kept(m.calls, following);
    if kept != [] then [[m.(calls := kept)] + Results(m.calls, following) + Others(following)]
    else (if IsEmpty(m.content) then [] else [[m.(calls := [])]]) + Singles(Others(following))
  }

  function Prepend(blocks: seq<Block>, n: Normalized): Normalized {
    if n.Blocks? then Blocks(blocks + n.blocks) else n
  }

  function Normalize(ms: seq<Message>): Normalized
    decreases |ms|
  {
    if ms == [] then Blocks([])
    else
      var m, rest := ms[0], ms[1..];
      if m.role == Tool then Normalize(rest)
      else if m.calls == [] then Prepend([[m]], Normalize(rest))
      else if m.role != Assistant then Invalid(CallsOutsideAssistant)
      else if !UniqueIds(m.calls) then Invalid(IdsNotUnique)
      else Prepend(Group(m, rest[..Span(rest)]), Normalize(rest[Span(rest)..]))
  }

  function Flatten(blocks: seq<Block>): seq<Message> {
    if blocks == [] then [] else blocks[0] + Flatten(blocks[1..])
  }

  // ---- the loop ---------------------------------------------------------------------

  /** The loops over the messages that follow an assistant: its results, its answered calls, everything else. */
  method GroupCalls(m: Message, following: seq<Message>) returns (blocks: seq<Block>)
    ensures blocks == Group(m, following)
  {
    var kept: seq<Call>, results: seq<Message> := [], [];
    var k := |m.calls|;
    while k > 0
      invariant 0 <= k <= |m.calls|
      invariant kept == Kept(m.calls[k..], following) && results == Results(m.calls[k..], following)
    {
      k := k - 1;
      assert m.calls[k..][1..] == m.calls[k + 1..];
      var found := FindResult(m.calls[k], following);
      if found.Some? {
        kept, results := [m.calls[k]] + kept, [found.value] + results;
      }
    }
    assert m.calls[0..] == m.calls;
    var others: seq<Message> := [];
    k := |following|;
    while k > 0
      invariant 0 <= k <= |following| && others == Others(following[k..])
    {
      k := k - 1;
      assert following[k..][1..] == following[k + 1..];
      if following[k].role != Tool { others := [following[k]] + others; }
    }
    assert following[0..] == following;
    if kept != [] { return [[m.(calls := kept)] + results + others]; }
    blocks := Singles(others);
    if !IsEmpty(m.content) { blocks := [[m.(calls := [])]] + blocks; }
  }

  method FindResult(c: Call, following: seq<Message>) returns (r: Option<Message>)
    ensures r == if c.Call? then ResultOf(following, c.id) else None
  {
    if !c.Call? { return None; }
    var k := |following|;
    assert following[..k] == following;
    while k > 0
      invariant 0 <= k <= |following| && ResultOf(following[..k], c.id) == ResultOf(following, c.id)
    {
      var last := following[k - 1];
      assert following[..k][..k - 1] == following[..k - 1];
      if last.role == Tool && last.answers == Some(c.id) { return Some(last); }
      k := k - 1;
    }
    return None;
  }

  /** The inner loop: collects up to the next assistant. */
  method SpanEnd(messages: seq<Message>, start: nat) returns (end: nat)
    requires start <= |messages|
    ensures start <= end <= |messages| && end - start == Span(messages[start..])
  {
    end := start;
    while end < |messages| && messages[end].role != Assistant
      invariant start <= end <= |messages|
      invariant forall i :: start <= i < end ==> messages[i].role != Assistant
    {
      end := end + 1;
    }
    SpanIs(messages[start..], end - start);
  }

  /** What the rest of the history contributes after `blocks`. */
  function Onward(blocks: seq<Block>, ms: seq<Message>, index: nat): Normalized
    requires index <= |ms|
  {
    Prepend(blocks, Normalize(ms[index..]))
  }

  lemma UngroupedStep(blocks: seq<Block>, ms: seq<Message>, i: nat)
    requires i < |ms|
    ensures ms[i].role == Tool ==> Onward(blocks, ms, i) == Onward(blocks, ms, i + 1)
    ensures ms[i].role != Tool && ms[i].calls == [] ==> Onward(blocks, ms, i) == Onward(blocks + [[ms[i]]], ms, i + 1)
  {
    assert ms[i..][1..] == ms[i + 1..];
    Reassociate(blocks, [[ms[i]]], Normalize(ms[i + 1..]));
  }

  lemma GroupedStep(blocks: seq<Block>, ms: seq<Message>, i: nat, end: nat)
    requires i < end <= |ms| && end - (i + 1) == Span(ms[i + 1..])
    requires ms[i].role == Assistant && ms[i].calls != [] && UniqueIds(ms[i].calls)
    ensures Onward(blocks, ms, i) == Onward(blocks + Group(ms[i], ms[i + 1..end]), ms, end)
  {
    var rest := ms[i..][1..];
    assert rest == ms[i + 1..];
    assert rest[..Span(rest)] == ms[i + 1..end] && rest[Span(rest)..] == ms[end..];
    Reassociate(blocks, Group(ms[i], ms[i + 1..end]), Normalize(ms[end..]));
  }

  /** Walks the history once, grouping calls with their results. */
  method NormalizeBlocks(messages: seq<Message>) returns (n: Normalized)
    ensures n == Normalize(messages)
  {
    var blocks: seq<Block> := [];
    var index := 0;
    assert messages[0..] == messages;
    while index < |messages|
      invariant 0 <= index <= |messages|
      invariant Onward(blocks, messages, index) == Normalize(messages)
    {
      var message := messages[index];
      UngroupedStep(blocks, messages, index);
      if message.role == Tool {
        index := index + 1;
        continue;
      }
      if message.calls == [] {
        blocks, index := blocks + [[message]], index + 1;
        continue;
      }
      if message.role != Assistant { return Invalid(CallsOutsideAssistant); }
      if !UniqueIds(message.calls) { return Invalid(IdsNotUnique); }
      var end := SpanEnd(messages, index + 1);
      var group := GroupCalls(message, messages[index + 1..end]);
      GroupedStep(blocks, messages, index, end);
      blocks, index := blocks + group, end;
    }
    assert messages[index..] == [] && blocks + [] == blocks;
    return Blocks(blocks);
  }

  lemma Reassociate(a: seq<Block>, b: seq<Block>, n: Normalized)
    ensures Prepend(a, Prepend(b, n)) == Prepend(a + b, n)
  {
    if n.Blocks? {
      assert a + (b + n.blocks) == (a + b) + n.blocks;
    }
  }

  lemma {:induction false} SpanIs(ms: seq<Message>, k: nat)
    requires k <= |ms|
    requires forall i :: 0 <= i < k ==> ms[i].role != Assistant
    requires k < |ms| ==> ms[k].role == Assistant
    ensures Span(ms) == k
  {
    if k > 0 {
      SpanIs(ms[1..], k - 1);
    }
  }
}
