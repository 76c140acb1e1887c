/** What grouping guarantees: complete pairs, everybody else's messages in order, and stability. */
module MessagePairs {
  import opened Prelude
  import opened Messages

  predicate OnlyAssistantsCall(ms: seq<Message>) {
    forall i :: 0 <= i < |ms| ==> ms[i].calls != [] ==> ms[i].role == Assistant
  }

  predicate Answers(m: Message, c: Call) {
    c.Call? && m.role == Tool && m.answers == Some(c.id)
  }

  /** Carries no result, and is no assistant's request for tools. */
  predicate Ordinary(m: Message) {
    m.role != Tool && (m.role == Assistant ==> m.calls == [])
  }

  predicate Bystander(m: Message) {
    m.role != Tool && m.role != Assistant
  }

  predicate IsSingle(b: Block) {
    |b| == 1 && Ordinary(b[0])
  }

  /** A calling assistant, then one result per call in call order, then other messages. */
  predicate IsPair(b: Block) {
    && |b| > 0 && b[0].role == Assistant && b[0].calls != [] && UniqueIds(b[0].calls)
    && |b| > |b[0].calls|
    && (forall i :: 0 <= i < |b[0].calls| ==> Answers(b[1 + i], b[0].calls[i]))
    && (forall i :: |b[0].calls| < i < |b| ==> Bystander(b[i]))
  }

  /** With `strict`, a complete group in which only assistants call tools. */
  predicate Proper(b: Block, strict: bool) {
    (IsSingle(b) || IsPair(b)) && (strict ==> OnlyAssistantsCall(b))
  }

  predicate AllProper(blocks: seq<Block>, strict: bool) {
    forall i :: 0 <= i < |blocks| ==> Proper(blocks[i], strict)
  }

  // ---- grouping yields proper blocks ------------------------------------------------

  lemma {:induction false} ResultAnswers(following: seq<Message>, c: Call)
    requires Answered(c, following)
    ensures Answers(ResultOf(following, c.id).value, c) && ResultOf(following, c.id).value in following
  {
    var last := following[|following| - 1];
    if !(last.role == Tool && last.answers == Some(c.id)) {
      ResultAnswers(following[..|following| - 1], c);
    }
  }

  lemma {:induction false} KeptAnswered(calls: seq<Call>, following: seq<Message>)
    ensures |Kept(calls, following)| == |Results(calls, following)|
    ensures forall i :: 0 <= i < |Kept(calls, following)| ==>
      && Answers(Results(calls, following)[i], Kept(calls, following)[i]) && Kept(calls, following)[i] in calls
      && Results(calls, following)[i] in following
  {
    if calls != [] {
      KeptAnswered(calls[1..], following);
      if Answered(calls[0], following) {
        ResultAnswers(following, calls[0]);
      }
    }
  }

  lemma {:induction false} KeptUnique(calls: seq<Call>, following: seq<Message>)
    requires UniqueIds(calls)
    ensures UniqueIds(Kept(calls, following))
  {
    if calls != [] {
      KeptUnique(calls[1..], following);
      KeptAnswered(calls[1..], following);
      var rest := Kept(calls[1..], following);
      assert forall i :: 0 <= i < |rest| ==> exists j :: 1 <= j < |calls| && rest[i] == calls[j];
    }
  }

  lemma {:induction false} OthersBystanders(following: seq<Message>)
    requires forall i :: 0 <= i < |following| ==> following[i].role != Assistant
    ensures forall i :: 0 <= i < |Others(following)| ==>
      Bystander(Others(following)[i]) && Others(following)[i] in following
  {
    if following != [] {
      OthersBystanders(following[1..]);
    }
  }

  lemma {:induction false} SinglesProper(ms: seq<Message>, strict: bool)
    requires (forall i :: 0 <= i < |ms| ==> Ordinary(ms[i])) && (strict ==> OnlyAssistantsCall(ms))
    ensures AllProper(Singles(ms), strict)
  {
    if ms != [] {
      SinglesProper(ms[1..], strict);
    }
  }

  lemma {:induction false} GroupIsPair(m: Message, following: seq<Message>)
    requires m.role == Assistant && UniqueIds(m.calls) && Kept(m.calls, following) != []
    requires forall i :: 0 <= i < |following| ==> following[i].role != Assistant
    ensures IsPair(Group(m, following)[0])
  {
    KeptAnswered(m.calls, following);
    KeptUnique(m.calls, following);
    OthersBystanders(following);
    var kept, results, others := Kept(m.calls, following), Results(m.calls, following), Others(following);
    var b := Group(m, following)[0];
    assert b[0].calls == kept && b[1..|kept| + 1] == results && b[|kept| + 1..] == others;
  }

  lemma {:induction false} GroupProper(m: Message, following: seq<Message>, strict: bool)
    requires m.role == Assistant && UniqueIds(m.calls) && (strict ==> OnlyAssistantsCall(following))
    requires forall i :: 0 <= i < |following| ==> following[i].role != Assistant
    ensures AllProper(Group(m, following), strict)
  {
    var kept, results, others := Kept(m.calls, following), Results(m.calls, following), Others(following);
    OthersBystanders(following);
    if kept != [] {
      GroupIsPair(m, following);
      KeptAnswered(m.calls, following);
      if strict { SourcesCall([m.(calls := kept)], results, others, following); }
    } else {
      SinglesProper(others, strict);
      assert IsSingle([m.(calls := [])]);
    }
  }

  lemma SourcesCall(head: seq<Message>, results: seq<Message>, others: seq<Message>, following: seq<Message>)
    requires |head| == 1 && head[0].role == Assistant && OnlyAssistantsCall(following)
    requires forall i :: 0 <= i < |results| ==> results[i] in following
    requires forall i :: 0 <= i < |others| ==> others[i] in following
    ensures OnlyAssistantsCall(head + results + others)
  {
  }

  /**
   Main result. Every group is either one ordinary message or a call block: a calling assistant followed
   directly by exactly one result per kept call, in call order, and then only messages of others.
   */
  lemma {:induction false} PairsComplete(ms: seq<Message>, strict: bool)
    requires Normalize(ms).Blocks? && (strict ==> OnlyAssistantsCall(ms))
    ensures AllProper(Normalize(ms).blocks, strict)
    decreases |ms|
  {
    if ms != [] {
      var m, rest := ms[0], ms[1..];
      if m.role == Tool || m.calls == [] {
        PairsComplete(rest, strict);
      } else {
        PairsComplete(rest[Span(rest)..], strict);
        GroupProper(m, rest[..Span(rest)], strict);
      }
    }
  }

  // ---- assistants and answered calls are kept ---------------------------------------

  /** The group that stands for message `m`: it starts with `m`, whose calls may have been thinned out. */
  predicate StandsFor(b: Block, m: Message) {
    b != [] && b[0] == m.(calls := b[0].calls)
  }

  /** No assistant speaks after position `i` up to position `j`. */
  predicate SameTurn(ms: seq<Message>, i: nat, j: nat)
    requires j < |ms|
  {
    i < j && forall k :: i < k <= j ==> ms[k].role != Assistant
  }

  /** Message `j` is the last one to answer call `c` of message `i` before the next assistant. */
  predicate LastAnswer(ms: seq<Message>, i: nat, c: Call, j: nat)
    requires j < |ms|
  {
    && SameTurn(ms, i, j) && Answers(ms[j], c)
    && forall k :: j < k < |ms| && SameTurn(ms, i, k) ==> !Answers(ms[k], c)
  }

  /** The group that stands for `m` keeps call `c` with result `answer`. */
  predicate KeepsCall(b: Block, m: Message, c: Call, answer: Message) {
    IsPair(b) && StandsFor(b, m) && exists k :: 0 <= k < |b[0].calls| && b[0].calls[k] == c && b[1 + k] == answer
  }

  lemma {:induction false} LastResult(following: seq<Message>, c: Call, j: nat)
    requires j < |following| && Answers(following[j], c)
    requires forall k :: j < k < |following| ==> !Answers(following[k], c)
    ensures ResultOf(following, c.id) == Some(following[j])
  {
    if j < |following| - 1 {
      LastResult(following[..|following| - 1], c, j);
    }
  }

  lemma {:induction false} KeptAt(calls: seq<Call>, following: seq<Message>, c: Call) returns (k: nat)
    requires c in calls && Answered(c, following)
    ensures |Kept(calls, following)| == |Results(calls, following)| && k < |Kept(calls, following)|
    ensures Kept(calls, following)[k] == c && Results(calls, following)[k] == ResultOf(following, c.id).value
  {
    KeptAnswered(calls, following);
    if calls[0] == c {
      k := 0;
    } else {
      k := KeptAt(calls[1..], following, c);
      k := if Answered(calls[0], following) then k + 1 else k;
    }
  }

  lemma {:induction false} GroupKeepsCall(m: Message, following: seq<Message>, c: Call)
    requires m.role == Assistant && UniqueIds(m.calls) && c in m.calls && Answered(c, following)
    requires forall i :: 0 <= i < |following| ==> following[i].role != Assistant
    ensures exists b :: b in Group(m, following) && KeepsCall(b, m, c, ResultOf(following, c.id).value)
  {
    var k := KeptAt(m.calls, following, c);
    KeptAnswered(m.calls, following);
    GroupIsPair(m, following);
    var b := Group(m, following)[0];
    assert b[0].calls[k] == c && b[1 + k] == Results(m.calls, following)[k];
    assert b in Group(m, following);
  }

  /** The first step of the grouping does not reach a later assistant. */
  lemma LaterBlocks(ms: seq<Message>, i: nat) returns (from: nat)
    requires Normalize(ms).Blocks? && 0 < i < |ms| && ms[i].role == Assistant
    ensures 0 < from <= i && Normalize(ms[from..]).Blocks?
    ensures forall b :: b in Normalize(ms[from..]).blocks ==> b in Normalize(ms).blocks
  {
    var m, rest := ms[0], ms[1..];
    if m.role == Tool || m.calls == [] {
      from := 1;
    } else {
      from := 1 + Span(rest);
      assert rest[i - 1].role == Assistant;
      assert ms[from..] == rest[Span(rest)..];
    }
  }

  lemma {:induction false} FirstCallKept(ms: seq<Message>, c: Call, j: nat)
    requires Normalize(ms).Blocks? && 0 < j < |ms|
    requires ms[0].role == Assistant && c in ms[0].calls && LastAnswer(ms, 0, c, j)
    ensures exists b :: b in Normalize(ms).blocks && KeepsCall(b, ms[0], c, ms[j])
  {
    var m, rest := ms[0], ms[1..];
    var n := Span(rest);
    var following := rest[..n];
    assert j - 1 < n;
    forall k | j - 1 < k < n
      ensures !Answers(following[k], c)
    {
      assert SameTurn(ms, 0, k + 1);
    }
    LastResult(following, c, j - 1);
    GroupKeepsCall(m, following, c);
    var b :| b in Group(m, following) && KeepsCall(b, m, c, ms[j]);
    assert b in Normalize(ms).blocks;
  }

  /** Main result. Every call that is answered before the next assistant speaks is kept, with its last answer. */
  lemma {:induction false} AnsweredCallKept(ms: seq<Message>, i: nat, c: Call, j: nat)
    requires Normalize(ms).Blocks? && i < j < |ms|
    requires ms[i].role == Assistant && c in ms[i].calls && LastAnswer(ms, i, c, j)
    ensures exists b :: b in Normalize(ms).blocks && KeepsCall(b, ms[i], c, ms[j])
    decreases |ms|
  {
    if i == 0 {
      FirstCallKept(ms, c, j);
    } else {
      var from := LaterBlocks(ms, i);
      TurnShift(ms, from, i, c, j);
      AnsweredCallKept(ms[from..], i - from, c, j - from);
      var b :| b in Normalize(ms[from..]).blocks && KeepsCall(b, ms[i], c, ms[j]);
      assert b in Normalize(ms).blocks;
    }
  }

  lemma TurnShift(ms: seq<Message>, from: nat, i: nat, c: Call, j: nat)
    requires from <= i < j < |ms| && LastAnswer(ms, i, c, j)
    ensures LastAnswer(ms[from..], i - from, c, j - from)
  {
    forall k | j - from < k < |ms| - from && SameTurn(ms[from..], i - from, k)
      ensures !Answers(ms[from..][k], c)
    {
      assert forall l :: i < l <= k + from ==> ms[l] == ms[from..][l - from];
      assert SameTurn(ms, i, k + from);
    }
  }

  /** Main result. An assistant that said something or asked for nothing is never lost. */
  lemma {:induction false} SpeechKept(ms: seq<Message>, i: nat)
    requires Normalize(ms).Blocks? && i < |ms| && ms[i].role == Assistant
    requires ms[i].content !in {Text(""), Parts([])} || ms[i].calls == []
    ensures exists b :: b in Normalize(ms).blocks && StandsFor(b, ms[i])
    decreases |ms|
  {
    if i > 0 {
      var from := LaterBlocks(ms, i);
      SpeechKept(ms[from..], i - from);
    } else if ms[0].calls == [] {
      assert StandsFor([ms[0]], ms[0]) && [ms[0]] in Normalize(ms).blocks;
    } else {
      var b := Group(ms[0], ms[1..][..Span(ms[1..])])[0];
      assert StandsFor(b, ms[0]) && b in Normalize(ms).blocks;
    }
  }

  lemma {:induction false} SinglesIn(ms: seq<Message>, b: Block)
    requires b in Singles(ms)
    ensures |b| == 1 && b[0] in ms
  {
    if b != [ms[0]] { SinglesIn(ms[1..], b); }
  }

  /** The first block of a group whose calls are all unanswered says something. */
  lemma GroupSilence(m: Message, following: seq<Message>, b: Block)
    requires b in Group(m, following) && m.role == Assistant && UniqueIds(m.calls)
    requires forall i :: 0 <= i < |following| ==> following[i].role != Assistant
    requires b != [] && b[0].role == Assistant && b[0].calls == []
    ensures b[0].content !in {Text(""), Parts([])}
  {
    OthersBystanders(following);
    if Kept(m.calls, following) == [] && (IsEmpty(m.content) || b != [m.(calls := [])]) {
      SinglesIn(Others(following), b);
    }
  }

  /** An assistant that said nothing and none of whose calls was answered is dropped. */
  lemma {:induction false} SilentDropped(ms: seq<Message>, b: Block)
    requires Normalize(ms).Blocks? && b in Normalize(ms).blocks
    requires b != [] && b[0].role == Assistant && b[0].calls == [] && b[0].content in {Text(""), Parts([])}
    ensures b[0] in ms
    decreases |ms|
  {
    var m, rest := ms[0], ms[1..];
    var k := Span(rest);
    if m.role == Tool {
      SilentDropped(rest, b);
    } else if m.calls == [] {
      if b != [m] { SilentDropped(rest, b); }
    } else if b in Group(m, rest[..k]) {
      GroupSilence(m, rest[..k], b);
    } else {
      SilentDropped(rest[k..], b);
    }
  }

  // ---- when a history is refused ----------------------------------------------------

  /** Message `i` belongs to the turn of an earlier assistant that calls. */
  predicate InTurn(ms: seq<Message>, i: nat)
    requires i < |ms|
  {
    ms[i].role != Assistant &&
    exists j :: 0 <= j < i && ms[j].role == Assistant && ms[j].calls != [] &&
      forall l :: j < l < i ==> ms[l].role != Assistant
  }

  /** Calls with missing or repeated ids, or calls of somebody else outside of an assistant's turn. */
  predicate Faulty(ms: seq<Message>, i: nat)
    requires i < |ms|
  {
    ms[i].calls != [] &&
    if ms[i].role == Assistant then !UniqueIds(ms[i].calls) else ms[i].role != Tool && !InTurn(ms, i)
  }

  /** Without a calling assistant in front, the rest of a history is judged by itself. */
  lemma FaultyTail(ms: seq<Message>, from: nat, i: nat)
    requires 0 < from <= i < |ms|
    requires (from < |ms| && ms[from].role == Assistant) ||
      (from == 1 && (ms[0].role != Assistant || ms[0].calls == []))
    ensures Faulty(ms, i) <==> Faulty(ms[from..], i - from)
  {
    var tail := ms[from..];
    if InTurn(ms, i) {
      var j :| 0 <= j < i && ms[j].role == Assistant && ms[j].calls != [] &&
        forall l :: j < l < i ==> ms[l].role != Assistant;
      assert j >= from;
      assert tail[j - from] == ms[j] && forall l :: j - from < l < i - from ==> tail[l] == ms[l + from];
    }
    if InTurn(tail, i - from) {
      var j :| 0 <= j < i - from && tail[j].role == Assistant && tail[j].calls != [] &&
        forall l :: j < l < i - from ==> tail[l].role != Assistant;
      assert forall l :: j + from < l < i ==> ms[l] == tail[l - from];
      assert ms[j + from] == tail[j];
    }
  }

  lemma TurnFaultless(ms: seq<Message>, i: nat)
    requires ms != [] && ms[0].role == Assistant && ms[0].calls != [] && 0 < i <= Span(ms[1..])
    ensures !Faulty(ms, i)
  {
    assert forall l :: 0 < l <= i ==> ms[l] == ms[1..][l - 1];
  }

  /** Main result. A history is refused exactly for its first faulty message, and the error says which fault it is. */
  lemma {:induction false} RefusedExact(ms: seq<Message>) returns (k: nat)
    ensures k <= |ms| && forall i :: 0 <= i < k ==> !Faulty(ms, i)
    ensures Normalize(ms).Blocks? <==> k == |ms|
    ensures k < |ms| ==>
      Faulty(ms, k) && Normalize(ms) == Invalid(if ms[k].role == Assistant then IdsNotUnique else CallsOutsideAssistant)
    decreases |ms|
  {
    if ms == [] || Faulty(ms, 0) { return 0; }
    var calling := ms[0].role == Assistant && ms[0].calls != [];
    var from := if calling then 1 + Span(ms[1..]) else 1;
    assert calling ==> ms[from..] == ms[1..][Span(ms[1..])..];
    assert calling && from < |ms| ==> ms[from] == ms[1..][Span(ms[1..])];
    k := RefusedExact(ms[from..]);
    k := k + from;
    forall i | 0 <= i < |ms|
      ensures i >= from ==> (Faulty(ms, i) <==> Faulty(ms[from..], i - from))
      ensures i < from ==> !Faulty(ms, i)
    {
      if i >= from { FaultyTail(ms, from, i); } else if i > 0 { TurnFaultless(ms, i); }
    }
  }

  // ---- nobody else's message is lost or moved ---------------------------------------

  /** The messages of systems, developers and users. */
  function Voices(ms: seq<Message>): seq<Message> {
    if ms == [] then []
    else if ms[0].role in {Tool, Assistant} then Voices(ms[1..])
    else [ms[0]] + Voices(ms[1..])
  }

  lemma {:induction false} VoicesConcat(a: seq<Message>, b: seq<Message>)
    ensures Voices(a + b) == Voices(a) + Voices(b)
  {
    if a == [] {
      assert a + b == b;
    } else {
      assert (a + b)[1..] == a[1..] + b;
      VoicesConcat(a[1..], b);
    }
  }

  lemma {:induction false} FlattenConcat(a: seq<Block>, b: seq<Block>)
    ensures Flatten(a + b) == Flatten(a) + Flatten(b)
  {
    if a == [] {
      assert a + b == b;
    } else {
      assert (a + b)[1..] == a[1..] + b;
      FlattenConcat(a[1..], b);
    }
  }

  lemma {:induction false} ToolsAreSilent(ms: seq<Message>)
    requires forall i :: 0 <= i < |ms| ==> ms[i].role == Tool
    ensures Voices(ms) == []
  {
    if ms != [] {
      ToolsAreSilent(ms[1..]);
    }
  }

  lemma {:induction false} VoicesOfOthers(following: seq<Message>)
    ensures Voices(Others(following)) == Voices(following)
  {
    if following != [] {
      VoicesOfOthers(following[1..]);
    }
  }

  lemma {:induction false} FlattenSingles(ms: seq<Message>)
    ensures Flatten(Singles(ms)) == ms
  {
    if ms != [] {
      FlattenSingles(ms[1..]);
    }
  }

  lemma GroupVoices(m: Message, following: seq<Message>)
    requires m.role == Assistant
    ensures Voices(Flatten(Group(m, following))) == Voices(following)
  {
    var kept, results, others := Kept(m.calls, following), Results(m.calls, following), Others(following);
    VoicesOfOthers(following);
    if kept != [] {
      KeptAnswered(m.calls, following);
      ToolsAreSilent(results);
      var head := [m.(calls := kept)];
      assert Flatten([head + results + others]) == head + results + others;
      VoicesConcat(head + results, others);
      VoicesConcat(head, results);
      assert head[1..] == [];
    } else {
      FlattenSingles(others);
      var head := if IsEmpty(m.content) then [] else [[m.(calls := [])]];
      FlattenConcat(head, Singles(others));
      VoicesConcat(Flatten(head), others);
    }
  }

  lemma SpokenVoices(m: Message, rest: seq<Message>, tail: seq<Block>)
    requires Voices(Flatten(tail)) == Voices(rest)
    ensures Voices(Flatten([[m]] + tail)) == Voices([m] + rest)
  {
    FlattenConcat([[m]], tail);
    assert Flatten([[m]]) == [m];
    VoicesConcat([m], Flatten(tail));
    VoicesConcat([m], rest);
  }

  lemma TurnVoices(m: Message, rest: seq<Message>, k: nat, tail: seq<Block>)
    requires m.role == Assistant && k <= |rest| && Voices(Flatten(tail)) == Voices(rest[k..])
    ensures Voices(Flatten(Group(m, rest[..k]) + tail)) == Voices(rest)
  {
    GroupVoices(m, rest[..k]);
    FlattenConcat(Group(m, rest[..k]), tail);
    VoicesConcat(Flatten(Group(m, rest[..k])), Flatten(tail));
    VoicesConcat(rest[..k], rest[k..]);
    assert rest[..k] + rest[k..] == rest;
  }

  /** Main result. Every message that is neither an assistant's nor a tool's is kept, and their order with it. */
  lemma {:induction false} VoicesKept(ms: seq<Message>)
    requires Normalize(ms).Blocks?
    ensures Voices(Flatten(Normalize(ms).blocks)) == Voices(ms)
    decreases |ms|
  {
    if ms != [] {
      var m, rest := ms[0], ms[1..];
      if m.role == Tool {
        VoicesKept(rest);
      } else if m.calls == [] {
        VoicesKept(rest);
        SpokenVoices(m, rest, Normalize(rest).blocks);
        assert [m] + rest == ms;
      } else {
        var k := Span(rest);
        VoicesKept(rest[k..]);
        TurnVoices(m, rest, k, Normalize(rest[k..]).blocks);
      }
    }
  }

  // ---- grouping again ---------------------------------------------------------------

  /** How many blocks follow before one that starts with an assistant. */
  function Lead(blocks: seq<Block>): (k: nat)
    ensures k <= |blocks|
  {
    if blocks == [] || blocks[0] == [] || blocks[0][0].role == Assistant then 0 else 1 + Lead(blocks[1..])
  }

  /** Blocks as a second grouping leaves them: a call block swallows the single messages behind it. */
  function Merge(blocks: seq<Block>): seq<Block>
    decreases |blocks|
  {
    if blocks == [] then []
    else if IsPair(blocks[0]) then
      var k := Lead(blocks[1..]);
      [blocks[0] + Flatten(blocks[1..][..k])] + Merge(blocks[1..][k..])
    else [blocks[0]] + Merge(blocks[1..])
  }

  lemma {:induction false} MergeFlattens(blocks: seq<Block>)
    ensures Flatten(Merge(blocks)) == Flatten(blocks)
    decreases |blocks|
  {
    if blocks != [] {
      if IsPair(blocks[0]) {
        var rest := blocks[1..];
        var k := Lead(rest);
        MergeFlattens(rest[k..]);
        assert rest == rest[..k] + rest[k..];
        FlattenConcat(rest[..k], rest[k..]);
      } else {
        MergeFlattens(blocks[1..]);
      }
    }
  }

  lemma {:induction false} LeadIsSpan(blocks: seq<Block>)
    requires AllProper(blocks, false)
    ensures Span(Flatten(blocks)) == Lead(blocks) <= |Flatten(blocks)|
    ensures Flatten(blocks)[..Lead(blocks)] == Flatten(blocks[..Lead(blocks)])
    ensures Flatten(blocks)[Lead(blocks)..] == Flatten(blocks[Lead(blocks)..])
    ensures forall i :: 0 <= i < Lead(blocks) ==> Bystander(Flatten(blocks)[i])
  {
    if Lead(blocks) == 0 {
      assert blocks[..0] == [] && blocks[0..] == blocks;
      if blocks != [] { assert Proper(blocks[0], false); }
    } else {
      assert Proper(blocks[0], false) && IsSingle(blocks[0]);
      var rest := blocks[1..];
      LeadIsSpan(rest);
      var k := Lead(rest);
      assert blocks[..k + 1] == [blocks[0]] + rest[..k] && blocks[k + 1..] == rest[k..];
      assert Flatten(blocks) == blocks[0] + Flatten(rest) && Flatten(blocks)[1..] == Flatten(rest);
    }
  }

  lemma {:induction false} LaterTalk(results: seq<Message>, talk: seq<Message>, id: string)
    requires forall i :: 0 <= i < |talk| ==> talk[i].role != Tool
    ensures ResultOf(results + talk, id) == ResultOf(results, id)
    decreases |talk|
  {
    if talk == [] {
      assert results + talk == results;
    } else {
      var n := |talk| - 1;
      assert (results + talk)[..|results + talk| - 1] == results + talk[..n];
      LaterTalk(results, talk[..n], id);
    }
  }

  predicate Matching(calls: seq<Call>, results: seq<Message>) {
    |calls| == |results| && forall i :: 0 <= i < |calls| ==> Answers(results[i], calls[i])
  }

  lemma {:induction false} OwnResult(calls: seq<Call>, results: seq<Message>, i: nat)
    requires UniqueIds(calls) && Matching(calls, results) && i < |calls|
    ensures ResultOf(results, calls[i].id) == Some(results[i])
    decreases |calls|
  {
    var n := |calls| - 1;
    if i < n {
      assert !SameId(calls[i], calls[n]);
      OwnResult(calls[..n], results[..n], i);
    }
  }

  lemma {:induction false} AllKept(calls: seq<Call>, results: seq<Message>, following: seq<Message>)
    requires Matching(calls, results)
    requires forall i :: 0 <= i < |calls| ==> ResultOf(following, calls[i].id) == Some(results[i])
    ensures Kept(calls, following) == calls && Results(calls, following) == results
  {
    if calls != [] {
      AllKept(calls[1..], results[1..], following);
    }
  }

  lemma {:induction false} OthersAfterTools(results: seq<Message>, talk: seq<Message>)
    requires forall i :: 0 <= i < |results| ==> results[i].role == Tool
    requires forall i :: 0 <= i < |talk| ==> talk[i].role != Tool
    ensures Others(results + talk) == talk
    decreases |results| + |talk|
  {
    if results != [] {
      assert (results + talk)[1..] == results[1..] + talk;
      OthersAfterTools(results[1..], talk);
    } else if talk != [] {
      assert results + talk == talk && [] + talk[1..] == talk[1..];
      OthersAfterTools([], talk[1..]);
    }
  }

  /** The calls of a call block find their own results, whatever talk follows. */
  lemma OwnResults(calls: seq<Call>, results: seq<Message>, tail: seq<Message>)
    requires UniqueIds(calls) && Matching(calls, results)
    requires forall i :: 0 <= i < |tail| ==> tail[i].role != Tool
    ensures Kept(calls, results + tail) == calls && Results(calls, results + tail) == results
  {
    forall i | 0 <= i < |calls|
      ensures ResultOf(results + tail, calls[i].id) == Some(results[i])
    {
      OwnResult(calls, results, i);
      LaterTalk(results, tail, calls[i].id);
    }
    AllKept(calls, results, results + tail);
  }

  predicate AllBystanders(ms: seq<Message>) {
    forall i :: 0 <= i < |ms| ==> Bystander(ms[i])
  }

  lemma PairParts(b: Block)
    requires IsPair(b)
    ensures var n := |b[0].calls|; Matching(b[0].calls, b[1..n + 1]) && AllBystanders(b[n + 1..])
  {
    var n := |b[0].calls|;
    forall i | 0 <= i < n
      ensures Answers(b[1..n + 1][i], b[0].calls[i])
    {
      assert b[1..n + 1][i] == b[1 + i];
    }
  }

  /** A call block and the talk behind it regroup into one block. */
  lemma {:induction false} Regroup(b: Block, talk: seq<Message>)
    requires IsPair(b) && forall i :: 0 <= i < |talk| ==> Bystander(talk[i])
    ensures Group(b[0], b[1..] + talk) == [b + talk]
  {
    var calls := b[0].calls;
    var n := |calls|;
    var results, tail := b[1..n + 1], b[n + 1..] + talk;
    PairParts(b);
    assert b[1..] + talk == results + tail;
    OwnResults(calls, results, tail);
    OthersAfterTools(results, tail);
    assert b[0].(calls := calls) == b[0];
    assert [b[0]] + results + tail == b + talk;
  }

  lemma {:induction false} SpanOver(a: seq<Message>, b: seq<Message>)
    requires forall i :: 0 <= i < |a| ==> a[i].role != Assistant
    ensures Span(a + b) == |a| + Span(b)
  {
    if a == [] {
      assert a + b == b;
    } else {
      assert (a + b)[1..] == a[1..] + b;
      SpanOver(a[1..], b);
    }
  }

  lemma TailTalks(b: Block)
    requires IsPair(b)
    ensures forall i :: 0 <= i < |b[1..]| ==> b[1..][i].role != Assistant
  {
    forall i | 1 <= i < |b|
      ensures b[i].role != Assistant
    {
      if i <= |b[0].calls| {
        assert Answers(b[1 + (i - 1)], b[0].calls[i - 1]);
      } else {
        assert Bystander(b[i]);
      }
    }
  }

  lemma PairTail(b: Block, flat: seq<Message>)
    requires IsPair(b)
    ensures var tail := (b + flat)[1..]; var k := Span(flat);
      Span(tail) == |b| - 1 + k && tail[..Span(tail)] == b[1..] + flat[..k] && tail[Span(tail)..] == flat[k..]
  {
    TailTalks(b);
    SpanOver(b[1..], flat);
    assert (b + flat)[1..] == b[1..] + flat;
  }

  lemma PairFlattened(b: Block, rest: seq<Block>)
    requires IsPair(b) && AllProper(rest, false)
    ensures var k := Lead(rest);
      Normalize(b + Flatten(rest)) == Prepend([b + Flatten(rest[..k])], Normalize(Flatten(rest[k..])))
  {
    LeadIsSpan(rest);
    PairTail(b, Flatten(rest));
    Regroup(b, Flatten(rest)[..Lead(rest)]);
    assert (b + Flatten(rest))[0] == b[0];
  }

  lemma SingleFlattened(b: Block, flat: seq<Message>)
    requires IsSingle(b)
    ensures Normalize(b + flat) ==
      if b[0].calls == [] then Prepend([b], Normalize(flat)) else Invalid(CallsOutsideAssistant)
  {
    assert (b + flat)[1..] == flat && b == [b[0]];
  }

  /** A second grouping comes to a call outside an assistant's message that no call block in front of it swallows. */
  predicate MeetsForeignCall(blocks: seq<Block>)
    decreases |blocks|
  {
    if blocks == [] then false
    else if IsPair(blocks[0]) then MeetsForeignCall(blocks[1..][Lead(blocks[1..])..])
    else IsForeign(blocks[0]) || MeetsForeignCall(blocks[1..])
  }

  lemma {:induction false} NormalizeFlattened(blocks: seq<Block>)
    requires AllProper(blocks, false)
    ensures Normalize(Flatten(blocks)) ==
      if MeetsForeignCall(blocks) then Invalid(CallsOutsideAssistant) else Blocks(Merge(blocks))
    decreases |blocks|
  {
    if blocks != [] {
      var b, rest := blocks[0], blocks[1..];
      assert Proper(b, false) && AllProper(rest, false);
      if IsPair(b) {
        PairFlattened(b, rest);
        NormalizeFlattened(rest[Lead(rest)..]);
      } else {
        SingleFlattened(b, Flatten(rest));
        NormalizeFlattened(rest);
      }
    }
  }

  // ---- when a second grouping is refused --------------------------------------------

  /** A single message that calls tools without being an assistant's. */
  predicate IsForeign(b: Block) {
    IsSingle(b) && b[0].calls != []
  }

  /** Behind every call block in front of block `i` an assistant speaks again before `i`. */
  predicate Exposed(blocks: seq<Block>, i: nat) {
    i < |blocks| && forall j :: 0 <= j < i && IsPair(blocks[j]) ==> SpeaksBetween(blocks, j, i)
  }

  predicate SpeaksBetween(blocks: seq<Block>, j: nat, i: nat)
    requires i < |blocks|
  {
    exists k :: j < k < i && StartsWithAssistant(blocks[k])
  }

  /** Some block with a foreign call is exposed. */
  predicate Refused(blocks: seq<Block>) {
    exists i :: 0 <= i < |blocks| && IsForeign(blocks[i]) && Exposed(blocks, i)
  }

  lemma {:induction false} LeadTalks(blocks: seq<Block>)
    requires AllProper(blocks, false)
    ensures forall i :: 0 <= i < Lead(blocks) ==> !StartsWithAssistant(blocks[i])
    ensures Lead(blocks) < |blocks| ==> StartsWithAssistant(blocks[Lead(blocks)])
  {
    if blocks != [] {
      assert Proper(blocks[0], false);
      if Lead(blocks) > 0 { LeadTalks(blocks[1..]); }
    }
  }

  /** What is exposed behind the first `n` blocks, of which only the first may be a call block. */
  lemma ExposedBehind(blocks: seq<Block>, n: nat, i: nat)
    requires 0 < n <= i < |blocks| && IsForeign(blocks[i])
    requires forall j :: 0 < j < n ==> !IsPair(blocks[j])
    requires IsPair(blocks[0]) ==> StartsWithAssistant(blocks[n])
    ensures Exposed(blocks, i) <==> Exposed(blocks[n..], i - n)
  {
    var tail := blocks[n..];
    assert forall k :: n <= k < |blocks| ==> blocks[k] == tail[k - n];
    if Exposed(blocks, i) {
      forall j | 0 <= j < i - n && IsPair(tail[j])
        ensures SpeaksBetween(tail, j, i - n)
      {
        assert IsPair(blocks[j + n]);
        var k :| j + n < k < i && StartsWithAssistant(blocks[k]);
        assert StartsWithAssistant(tail[k - n]);
      }
    }
    if Exposed(tail, i - n) {
      forall j | 0 <= j < i && IsPair(blocks[j])
        ensures SpeaksBetween(blocks, j, i)
      {
        if j < n {
          assert StartsWithAssistant(blocks[n]);
        } else {
          assert IsPair(tail[j - n]);
          var k :| j - n < k < i - n && StartsWithAssistant(tail[k]);
          assert StartsWithAssistant(blocks[k + n]);
        }
      }
    }
  }

  lemma {:induction false} RefusedIsMet(blocks: seq<Block>)
    requires AllProper(blocks, false)
    ensures MeetsForeignCall(blocks) <==> Refused(blocks)
    decreases |blocks|
  {
    if blocks != [] {
      var n := if IsPair(blocks[0]) then 1 + Lead(blocks[1..]) else 1;
      FirstStepOf(blocks, n);
      var tail := blocks[n..];
      assert tail == if IsPair(blocks[0]) then blocks[1..][Lead(blocks[1..])..] else blocks[1..];
      RefusedIsMet(tail);
      if Refused(blocks) { RefusedBehind(blocks, n); }
      if IsForeign(blocks[0]) || Refused(tail) { RefusedBefore(blocks, n); }
    }
  }

  /** Behind the first of the first `n` blocks no assistant speaks; a call block takes up all that talk. */
  predicate FirstStep(blocks: seq<Block>, n: nat) {
    && 0 < n <= |blocks|
    && (forall j :: 0 < j < n ==> !StartsWithAssistant(blocks[j]))
    && (IsPair(blocks[0]) && n < |blocks| ==> StartsWithAssistant(blocks[n]))
    && (!IsPair(blocks[0]) ==> n == 1)
  }

  lemma FirstStepOf(blocks: seq<Block>, n: nat)
    requires blocks != [] && AllProper(blocks, false)
    requires n == if IsPair(blocks[0]) then 1 + Lead(blocks[1..]) else 1
    ensures FirstStep(blocks, n)
  {
    LeadTalks(blocks[1..]);
    forall j | 0 < j < n
      ensures !StartsWithAssistant(blocks[j])
    {
      assert blocks[j] == blocks[1..][j - 1];
    }
  }

  lemma RefusedBehind(blocks: seq<Block>, n: nat)
    requires FirstStep(blocks, n) && Refused(blocks)
    ensures IsForeign(blocks[0]) || Refused(blocks[n..])
  {
    var i :| 0 <= i < |blocks| && IsForeign(blocks[i]) && Exposed(blocks, i);
    if i > 0 {
      assert n <= i;
      ExposedBehind(blocks, n, i);
      assert IsForeign(blocks[n..][i - n]);
    }
  }

  lemma RefusedBefore(blocks: seq<Block>, n: nat)
    requires FirstStep(blocks, n) && (IsForeign(blocks[0]) || Refused(blocks[n..]))
    ensures Refused(blocks)
  {
    if IsForeign(blocks[0]) {
      assert Exposed(blocks, 0);
    } else {
      var tail := blocks[n..];
      var i :| 0 <= i < |tail| && IsForeign(tail[i]) && Exposed(tail, i);
      assert blocks[i + n] == tail[i];
      ExposedBehind(blocks, n, i + n);
    }
  }

  // ---- when blocks themselves are stable --------------------------------------------

  /** Behind every call block comes an assistant's block, if any. */
  predicate Settled(blocks: seq<Block>) {
    forall i :: 0 <= i < |blocks| - 1 && IsPair(blocks[i]) ==> StartsWithAssistant(blocks[i + 1])
  }

  predicate StartsWithAssistant(b: Block) {
    b != [] && b[0].role == Assistant
  }

  lemma MergeHead(blocks: seq<Block>)
    requires blocks != []
    ensures var k := if IsPair(blocks[0]) then Lead(blocks[1..]) else 0;
      && Merge(blocks) == [blocks[0] + Flatten(blocks[1..][..k])] + Merge(blocks[1..][k..])
      && (k == 0 ==> Merge(blocks) == [blocks[0]] + Merge(blocks[1..]))
  {
    var b, rest := blocks[0], blocks[1..];
    assert rest[0..] == rest && rest[..0] == [] && b + [] == b;
  }

  lemma {:induction false} MergeShortens(blocks: seq<Block>)
    requires AllProper(blocks, false)
    ensures |Merge(blocks)| <= |blocks|
    ensures Settled(blocks) ==> Merge(blocks) == blocks
    ensures !Settled(blocks) ==> |Merge(blocks)| < |blocks|
    decreases |blocks|
  {
    if blocks != [] {
      var rest := blocks[1..];
      var k := if IsPair(blocks[0]) then Lead(rest) else 0;
      MergeHead(blocks);
      LeadTalks(rest);
      MergeShortens(rest[k..]);
      if k == 0 {
        assert rest[0..] == rest;
        SettledTail(blocks);
      } else {
        assert !StartsWithAssistant(rest[0]);
      }
    }
  }

  lemma SettledTail(blocks: seq<Block>)
    requires blocks != []
    ensures Settled(blocks) <==>
      Settled(blocks[1..]) && (|blocks| > 1 && IsPair(blocks[0]) ==> StartsWithAssistant(blocks[1]))
  {
    var rest := blocks[1..];
    if Settled(rest) && (|blocks| > 1 && IsPair(blocks[0]) ==> StartsWithAssistant(blocks[1])) {
      forall i | 0 <= i < |blocks| - 1 && IsPair(blocks[i])
        ensures StartsWithAssistant(blocks[i + 1])
      {
        if i > 0 { assert rest[i - 1] == blocks[i] && rest[i] == blocks[i + 1]; }
      }
    }
  }

  /**
   Main result. Flattening a grouped history and grouping it again is refused exactly when a call outside an
   assistant's message is exposed. Otherwise it changes no message, and no block either exactly when every call
   block is the last or is followed by an assistant's.
   */
  lemma NormalizeTwice(ms: seq<Message>)
    requires Normalize(ms).Blocks?
    ensures var blocks := Normalize(ms).blocks; var again := Normalize(Flatten(blocks));
      if Refused(blocks) then again == Invalid(CallsOutsideAssistant)
      else again.Blocks? && Flatten(again.blocks) == Flatten(blocks) && (again == Normalize(ms) <==> Settled(blocks))
  {
    var blocks := Normalize(ms).blocks;
    PairsComplete(ms, false);
    NormalizeFlattened(blocks);
    RefusedIsMet(blocks);
    MergeFlattens(blocks);
    MergeShortens(blocks);
  }

  /** Histories in which only assistants call are never refused the second time. */
  lemma StrictNeverRefused(blocks: seq<Block>)
    requires AllProper(blocks, true)
    ensures !Refused(blocks)
  {
    forall i | 0 <= i < |blocks|
      ensures !IsForeign(blocks[i])
    {
      assert Proper(blocks[i], true);
    }
  }

  /** Grouping again yields other blocks. */
  predicate Regroups(ms: seq<Message>) {
    Normalize(ms).Blocks? && Normalize(Flatten(Normalize(ms).blocks)) != Normalize(ms)
  }

  /** Blocks can change: an unanswered, empty call disappears, and the request behind it joins the block before. */
  lemma BlocksCanMerge()
    ensures exists ms :: OnlyAssistantsCall(ms) && Regroups(ms)
  {
    var ask := Message(Assistant, Text(""), [Call("a", "")], None);
    var lost := Message(Assistant, Text(""), [Call("b", "")], None);
    var answer := Message(Tool, Text(""), [], Some("a"));
    var user := Message(User, Text("go on"), [], None);
    var ms := [ask, answer, lost, user];
    LostCall(ask, answer, lost, user);
    var blocks := [[ask, answer], [user]];
    assert IsPair(blocks[0]) && !StartsWithAssistant(blocks[1]);
    PairsComplete(ms, true);
    StrictNeverRefused(blocks);
    NormalizeTwice(ms);
    assert Regroups(ms);
  }

  lemma LostCall(ask: Message, answer: Message, lost: Message, user: Message)
    requires ask == Message(Assistant, Text(""), [Call("a", "")], None)
    requires lost == Message(Assistant, Text(""), [Call("b", "")], None)
    requires answer == Message(Tool, Text(""), [], Some("a")) && user == Message(User, Text("go on"), [], None)
    ensures Normalize([ask, answer, lost, user]) == Blocks([[ask, answer], [user]])
  {
    var ms := [ask, answer, lost, user];
    assert ms[1..] == [answer, lost, user] && ms[1..][1..] == [lost, user];
    assert Span([lost, user]) == 0 && Span(ms[1..]) == 1;
    assert ms[1..][..1] == [answer] && ms[1..][1..] == [lost, user];
    Regroup([ask, answer], []);
    assert [ask, answer][1..] + [] == [answer] && [ask, answer] + [] == [ask, answer];
    assert Group(ask, [answer]) == [[ask, answer]];
    UnansweredCall(lost, user);
  }

  lemma UnansweredCall(lost: Message, user: Message)
    requires lost == Message(Assistant, Text(""), [Call("b", "")], None)
    requires user == Message(User, Text("go on"), [], None)
    ensures Normalize([lost, user]) == Blocks([[user]])
  {
    assert [lost, user][1..] == [user] && [user][1..] == [];
    assert Span([user]) == 1 && [user][..1] == [user];
    assert ResultOf([user], "b") == None by { assert [user][..0] == []; }
    assert Kept(lost.calls, [user]) == [] by { assert lost.calls[1..] == []; }
    assert Others([user]) == [user] && Singles([user]) == [[user]];
    assert Group(lost, [user]) == [] + [[user]];
    assert Normalize([]) == Blocks([]);
  }

  /** A call carried by anybody else escapes the check while it follows an assistant, and is refused the next time. */
  lemma ForeignCallRefusedLate()
    ensures exists ms :: Normalize(ms).Blocks? && Refused(Normalize(ms).blocks)
  {
    var lost := Message(Assistant, Text(""), [Call("b", "")], None);
    var user := Message(User, Text(""), [Call("c", "")], None);
    assert [lost, user][1..] == [user] && [user][1..] == [];
    assert Span([user]) == 1 && [user][..1] == [user];
    assert ResultOf([user], "b") == None by { assert [user][..0] == []; }
    assert Kept(lost.calls, [user]) == [] by { assert lost.calls[1..] == []; }
    assert Others([user]) == [user] && Singles([user]) == [[user]];
    assert Group(lost, [user]) == [] + [[user]];
    assert Normalize([lost, user]) == Blocks([[user]]);
    assert IsForeign([[user]][0]) && Exposed([[user]], 0);
  }
}
