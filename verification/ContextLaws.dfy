/** What the governor never drops, what it may drop, and which outputs it may cut. */
module ContextLaws {
  import opened Prelude
  import opened Messages
  import opened MessagePairs
  import opened ContextBudget
  import opened ContextResults

  // ---- what must stay ---------------------------------------------------------------

  predicate Speaks(b: Block, role: Role) {
    exists j :: 0 <= j < |b| && b[j].role == role
  }

  predicate LastToSpeak(blocks: seq<Block>, i: nat, role: Role)
    requires i < |blocks|
  {
    Speaks(blocks[i], role) && forall k :: i < k < |blocks| ==> !Speaks(blocks[k], role)
  }

  /**
   Instructions of the system or a developer, an approval, an anchor of the conversation, the latest request of a user
   and the latest results of tools.
   */
  predicate MustStay(r: Rules, blocks: seq<Block>, i: nat)
    requires i < |blocks|
  {
    || Speaks(blocks[i], System) || Speaks(blocks[i], Developer)
    || r.approval(blocks[i]) || i in r.anchors(blocks)
    || LastToSpeak(blocks, i, User) || LastToSpeak(blocks, i, Tool)
  }

  lemma {:induction false} LastWithIs(blocks: seq<Block>, role: Role, n: nat, i: nat)
    requires i < n <= |blocks|
    ensures i in LastWith(blocks, role, n) <==>
      Speaks(blocks[i], role) && forall k :: i < k < n ==> !Speaks(blocks[k], role)
    decreases n
  {
    RoleMeant(blocks[n - 1], role);
    if HasRole(blocks[n - 1], {role}) {
      if i != n - 1 { assert Speaks(blocks[n - 1], role); }
    } else if i < n - 1 {
      LastWithIs(blocks, role, n - 1, i);
    } else {
      LastWithBelow(blocks, role, n - 1);
    }
  }

  lemma {:induction false} LastWithBelow(blocks: seq<Block>, role: Role, n: nat)
    requires n <= |blocks|
    ensures forall i :: i in LastWith(blocks, role, n) ==> i < n
  {
    if n > 0 && !HasRole(blocks[n - 1], {role}) { LastWithBelow(blocks, role, n - 1); }
  }

  lemma {:induction false} RoleMeant(b: Block, role: Role)
    ensures HasRole(b, {role}) <==> Speaks(b, role)
  {
    if Speaks(b, role) {
      var j :| 0 <= j < |b| && b[j].role == role;
      assert b[j].role in {role};
    }
  }

  lemma {:induction false} InstructionsMeant(b: Block)
    ensures HasRole(b, {System, Developer}) <==> Speaks(b, System) || Speaks(b, Developer)
  {
    if Speaks(b, System) {
      var j :| 0 <= j < |b| && b[j].role == System;
      assert b[j].role in {System, Developer};
    }
    if Speaks(b, Developer) {
      var j :| 0 <= j < |b| && b[j].role == Developer;
      assert b[j].role in {System, Developer};
    }
  }

  /** Exactly these blocks are protected; every other one may be dropped. */
  lemma {:induction false} ProtectedExact(r: Rules, blocks: seq<Block>, i: nat)
    requires i < |blocks|
    ensures i in TaskOf(r, blocks).kept <==> MustStay(r, blocks, i)
  {
    InstructionsMeant(blocks[i]);
    LastWithIs(blocks, User, |blocks|, i);
    LastWithIs(blocks, Tool, |blocks|, i);
  }

  // ---- what the answer is -----------------------------------------------------------

  /** The messages of all blocks from number `k` on, and of those before that must stay, in order. */
  function LeftAfter(r: Rules, blocks: seq<Block>, k: nat, i: nat): seq<Message>
    decreases |blocks| - i
  {
    if i >= |blocks| then []
    else if i >= k || MustStay(r, blocks, i) then blocks[i] + LeftAfter(r, blocks, k, i + 1)
    else LeftAfter(r, blocks, k, i + 1)
  }

  lemma {:induction false} RemainingLeft(r: Rules, blocks: seq<Block>, k: nat, i: nat)
    ensures Select(blocks, Remaining(|blocks|, TaskOf(r, blocks).kept, k), i) == LeftAfter(r, blocks, k, i)
    decreases |blocks| - i
  {
    if i < |blocks| {
      ProtectedExact(r, blocks, i);
      RemainingLeft(r, blocks, k, i + 1);
    }
  }

  lemma {:induction false} CandidateLeft(r: Rules, blocks: seq<Block>, k: nat)
    ensures Candidate(TaskOf(r, blocks), k) == LeftAfter(r, blocks, k, 0) + Constraint(r)
  {
    RemainingLeft(r, blocks, k, 0);
  }

  /** The answer to history `blocks`: the shortest drop that fits, or else the protected rest with outputs cut. */
  ghost predicate Answers(r: Rules, blocks: seq<Block>, room: int, answer: seq<Message>) {
    || (exists k: nat :: k <= |blocks| && DropsTo(r, blocks, room, answer, k))
    || (SameShape(LeftAfter(r, blocks, |blocks|, 0) + Constraint(r), answer)
        && forall j: nat :: j <= |blocks| ==> Tokens(r.p, LeftAfter(r, blocks, j, 0) + Constraint(r)) > room)
  }

  ghost predicate DropsTo(r: Rules, blocks: seq<Block>, room: int, answer: seq<Message>, k: nat) {
    && answer == LeftAfter(r, blocks, k, 0) + Constraint(r) && Tokens(r.p, answer) <= room
    && forall j: nat :: j < k ==> Tokens(r.p, LeftAfter(r, blocks, j, 0) + Constraint(r)) > room
  }

  lemma {:induction false} TaskAnswer(r: Rules, blocks: seq<Block>, room: int)
    requires GovernTask(r.p, r.e, TaskOf(r, blocks), room).Fitted?
    ensures Answers(r, blocks, room, GovernTask(r.p, r.e, TaskOf(r, blocks), room).messages)
  {
    var t := TaskOf(r, blocks);
    var drop := LeastDrop(r.p, t, room, 0);
    forall j: nat | j <= |blocks|
      ensures FitsAfter(r.p, t, room, j) <==> Tokens(r.p, LeftAfter(r, blocks, j, 0) + Constraint(r)) <= room
    {
      CandidateLeft(r, blocks, j);
    }
    if drop.Some? {
      CandidateLeft(r, blocks, drop.value);
      assert DropsTo(r, blocks, room, Candidate(t, drop.value), drop.value);
    } else {
      CandidateLeft(r, blocks, |blocks|);
      CutShape(r, Candidate(t, |blocks|), room);
    }
  }

  lemma {:induction false} CutShape(r: Rules, ms: seq<Message>, room: int)
    requires Shortened(r.p, r.e, ms, room).Some?
    ensures SameShape(ms, Shortened(r.p, r.e, ms, room).value)
  {
  }

  /**
   Main result. Whatever fits is the history without the oldest blocks that need not stay, and without as few of them as
   possible; or, when none of this fits, what must stay with the contents of tool results shortened.
   */
  lemma {:induction false} AnswerExact(r: Rules, ms: seq<Message>, limit: int, tools: seq<Schema>, answer: seq<Message>)
    returns (blocks: seq<Block>)
    requires Govern(r, ms, limit, tools) == Fitted(answer)
    ensures Normalize(ms) == Blocks(blocks) && Answers(r, blocks, limit - SchemaTokens(r.p, tools), answer)
  {
    GovernIsTask(r, ms, limit, tools);
    blocks := AnswerOf(r, Normalize(ms), limit - SchemaTokens(r.p, tools), answer);
  }

  /** What becomes of a grouped history. */
  predicate Governs(r: Rules, n: Normalized, room: int, g: Governed) {
    match n
    case Invalid(fault) => g == Unusable(fault)
    case Blocks(blocks) => g == GovernTask(r.p, r.e, TaskOf(r, blocks), room)
  }

  lemma {:induction false} GovernIsTask(r: Rules, ms: seq<Message>, limit: int, tools: seq<Schema>)
    ensures Governs(r, Normalize(ms), limit - SchemaTokens(r.p, tools), Govern(r, ms, limit, tools))
  {
  }

  lemma {:induction false} AnswerOf(r: Rules, n: Normalized, room: int, answer: seq<Message>)
    returns (blocks: seq<Block>)
    requires Governs(r, n, room, Fitted(answer))
    ensures n == Blocks(blocks) && Answers(r, blocks, room, answer)
  {
    blocks := n.blocks;
    TaskAnswer(r, blocks, room);
  }

  /** From which block on everything is in the answer. */
  lemma {:induction false} AnswerFrom(r: Rules, blocks: seq<Block>, room: int, answer: seq<Message>) returns (k: nat)
    requires Answers(r, blocks, room, answer)
    ensures SameShape(LeftAfter(r, blocks, k, 0) + Constraint(r), answer)
  {
    if SameShape(LeftAfter(r, blocks, |blocks|, 0) + Constraint(r), answer) { return |blocks|; }
    k :| k <= |blocks| && DropsTo(r, blocks, room, answer, k);
  }

  // ---- what is in the answer --------------------------------------------------------

  /** The block appears in the answer as a whole; at most the contents of its tool results are cut. */
  ghost predicate Keeps(answer: seq<Message>, b: Block) {
    exists p: nat :: KeepsAt(answer, b, p)
  }

  predicate KeepsAt(answer: seq<Message>, b: Block, p: nat) {
    p + |b| <= |answer| && SameShape(b, answer[p..p + |b|])
  }

  lemma {:induction false} LeftKeeps(r: Rules, blocks: seq<Block>, k: nat, i: nat, from: nat) returns (p: nat)
    requires from <= i < |blocks| && (i >= k || MustStay(r, blocks, i))
    ensures var left := LeftAfter(r, blocks, k, from);
      p + |blocks[i]| <= |left| && left[p..p + |blocks[i]|] == blocks[i]
    decreases i - from
  {
    var left := LeftAfter(r, blocks, k, from);
    if from == i {
      p := 0;
      assert left[..|blocks[i]|] == blocks[i];
    } else {
      p := LeftKeeps(r, blocks, k, i, from + 1);
      if from >= k || MustStay(r, blocks, from) {
        var q, n := p, |blocks[from]|;
        var rest := LeftAfter(r, blocks, k, from + 1);
        assert left == blocks[from] + rest;
        p := q + n;
        assert left[p..p + |blocks[i]|] == rest[q..q + |blocks[i]|];
      }
    }
  }

  lemma {:induction false} KeepsShape(left: seq<Message>, answer: seq<Message>, b: Block, p: nat)
    requires SameShape(left, answer) && p + |b| <= |left| && left[p..p + |b|] == b
    ensures Keeps(answer, b)
  {
    assert forall j :: 0 <= j < |left| ==> ReworkedResult(left[j], answer[j]);
    forall j | 0 <= j < |b|
      ensures ReworkedResult(b[j], answer[p..p + |b|][j])
    {
      assert b[j] == left[p + j];
    }
    assert KeepsAt(answer, b, p);
  }

  ghost predicate AllStay(r: Rules, blocks: seq<Block>, answer: seq<Message>) {
    forall i :: 0 <= i < |blocks| && MustStay(r, blocks, i) ==> Keeps(answer, blocks[i])
  }

  /** Main result. Every block that must stay is in the answer, whatever the limit. */
  lemma {:induction false} MustStayStays(r: Rules, ms: seq<Message>, limit: int, tools: seq<Schema>,
                                         answer: seq<Message>)
    returns (blocks: seq<Block>)
    requires Govern(r, ms, limit, tools) == Fitted(answer)
    ensures Normalize(ms) == Blocks(blocks) && AllStay(r, blocks, answer)
  {
    blocks := AnswerExact(r, ms, limit, tools, answer);
    BlocksStay(r, blocks, limit - SchemaTokens(r.p, tools), answer);
  }

  lemma {:induction false} BlocksStay(r: Rules, blocks: seq<Block>, room: int, answer: seq<Message>)
    requires Answers(r, blocks, room, answer)
    ensures AllStay(r, blocks, answer)
  {
    forall i | 0 <= i < |blocks| && MustStay(r, blocks, i)
      ensures Keeps(answer, blocks[i])
    {
      BlockStays(r, blocks, room, answer, i);
    }
  }

  lemma {:induction false} BlockStays(r: Rules, blocks: seq<Block>, room: int, answer: seq<Message>, i: nat)
    requires Answers(r, blocks, room, answer) && i < |blocks| && MustStay(r, blocks, i)
    ensures Keeps(answer, blocks[i])
  {
    var k := AnswerFrom(r, blocks, room, answer);
    LeftStays(r, blocks, k, i, answer);
  }

  lemma {:induction false} LeftStays(r: Rules, blocks: seq<Block>, k: nat, i: nat, answer: seq<Message>)
    requires i < |blocks| && MustStay(r, blocks, i) && SameShape(LeftAfter(r, blocks, k, 0) + Constraint(r), answer)
    ensures Keeps(answer, blocks[i])
  {
    var left := LeftAfter(r, blocks, k, 0);
    var p := LeftKeeps(r, blocks, k, i, 0);
    var full := left + Constraint(r);
    assert full[p..p + |blocks[i]|] == left[p..p + |blocks[i]|];
    KeepsShape(full, answer, blocks[i], p);
  }

  // ---- instructions -----------------------------------------------------------------

  /** The messages of the system and of developers. */
  function Instructions(ms: seq<Message>): seq<Message> {
    if ms == [] then []
    else if ms[0].role == System || ms[0].role == Developer then [ms[0]] + Instructions(ms[1..])
    else Instructions(ms[1..])
  }

  lemma {:induction false} InstructionsConcat(a: seq<Message>, b: seq<Message>)
    ensures Instructions(a + b) == Instructions(a) + Instructions(b)
  {
    if a == [] {
      assert a + b == b;
    } else {
      assert (a + b)[1..] == a[1..] + b;
      InstructionsConcat(a[1..], b);
    }
  }

  lemma {:induction false} InstructionsAreVoices(ms: seq<Message>)
    ensures Instructions(Voices(ms)) == Instructions(ms)
  {
    if ms != [] {
      InstructionsAreVoices(ms[1..]);
      if ms[0].role !in {Tool, Assistant} {
        assert Voices(ms)[1..] == Voices(ms[1..]);
      }
    }
  }

  lemma {:induction false} NoInstructions(ms: seq<Message>)
    requires forall j :: 0 <= j < |ms| ==> ms[j].role != System && ms[j].role != Developer
    ensures Instructions(ms) == []
  {
    if ms != [] { NoInstructions(ms[1..]); }
  }

  lemma {:induction false} LeftInstructions(r: Rules, blocks: seq<Block>, k: nat, i: nat)
    requires i <= |blocks|
    ensures Instructions(LeftAfter(r, blocks, k, i)) == Instructions(Flatten(blocks[i..]))
    decreases |blocks| - i
  {
    if i < |blocks| {
      LeftInstructions(r, blocks, k, i + 1);
      assert blocks[i..][1..] == blocks[i + 1..];
      InstructionsConcat(blocks[i], Flatten(blocks[i + 1..]));
      InstructionsConcat(blocks[i], LeftAfter(r, blocks, k, i + 1));
      if !(i >= k || MustStay(r, blocks, i)) {
        assert !Speaks(blocks[i], System) && !Speaks(blocks[i], Developer);
        NoInstructions(blocks[i]);
      }
    }
  }

  lemma {:induction false} ShapeInstructions(a: seq<Message>, b: seq<Message>)
    requires SameShape(a, b)
    ensures Instructions(a) == Instructions(b)
  {
    if a != [] {
      assert ReworkedResult(a[0], b[0]);
      assert forall j :: 0 <= j < |a| ==> ReworkedResult(a[j], b[j]);
      assert SameShape(a[1..], b[1..]);
      ShapeInstructions(a[1..], b[1..]);
    }
  }

  /** Main result. The answer holds every instruction of the history, unchanged and in order. */
  lemma {:induction false} InstructionsStay(r: Rules, ms: seq<Message>, limit: int, tools: seq<Schema>,
                                            answer: seq<Message>)
    requires Govern(r, ms, limit, tools) == Fitted(answer)
    ensures Instructions(answer) == Instructions(ms)
  {
    var blocks := AnswerExact(r, ms, limit, tools, answer);
    AnswersInstructions(r, blocks, limit - SchemaTokens(r.p, tools), answer);
    BlockInstructions(ms, blocks);
  }

  lemma {:induction false} BlockInstructions(ms: seq<Message>, blocks: seq<Block>)
    requires Normalize(ms) == Blocks(blocks)
    ensures Instructions(Flatten(blocks)) == Instructions(ms)
  {
    VoicesKept(ms);
    InstructionsAreVoices(ms);
    InstructionsAreVoices(Flatten(blocks));
  }

  lemma {:induction false} AnswersInstructions(r: Rules, blocks: seq<Block>, room: int, answer: seq<Message>)
    requires Answers(r, blocks, room, answer)
    ensures Instructions(answer) == Instructions(Flatten(blocks))
  {
    var k := AnswerFrom(r, blocks, room, answer);
    AnswerInstructions(r, blocks, k, answer);
  }

  lemma {:induction false} AnswerInstructions(r: Rules, blocks: seq<Block>, k: nat, answer: seq<Message>)
    requires SameShape(LeftAfter(r, blocks, k, 0) + Constraint(r), answer)
    ensures Instructions(answer) == Instructions(Flatten(blocks))
  {
    var left := LeftAfter(r, blocks, k, 0);
    ShapeInstructions(left + Constraint(r), answer);
    InstructionsConcat(left, Constraint(r));
    NoInstructions(Constraint(r));
    LeftInstructions(r, blocks, k, 0);
    assert blocks[0..] == blocks;
  }

  // ---- what is cut ------------------------------------------------------------------

  /** A text cut to `keep` of its characters: three quarters of them from its beginning, the rest from its end. */
  predicate CutTo(text: string, cut: string, keep: nat, head: nat) {
    && head <= keep < |text| && cut == text[..head] + MARKER + text[|text| - (keep - head)..]
    && head as real <= keep as real * 0.75 < head as real + 1.0
  }

  lemma {:induction false} CutMeant(text: string, fraction: real)
    requires 0.0 <= fraction
    ensures var keep := (|text| as real * fraction).Floor;
      if keep >= |text| then Cut(text, fraction) == text
      else 0 <= keep && CutTo(text, Cut(text, fraction), keep, (keep as real * 0.75).Floor)
  {
    var keep := (|text| as real * fraction).Floor;
    assert 0 <= keep;
  }

  /** The last call of the history is behind position `i`, or there is none. */
  predicate BeforeLastCall(ms: seq<Message>, i: nat) {
    (exists j :: i <= j < |ms| && ms[j].role == Assistant && ms[j].calls != []) ||
    (forall j :: 0 <= j < |ms| ==> ms[j].role != Assistant || ms[j].calls == [])
  }

  lemma {:induction false} EvidenceStartIs(ms: seq<Message>)
    ensures var k := EvidenceStart(ms);
      && (k > 0 ==> ms[k - 1].role == Assistant && ms[k - 1].calls != [])
      && forall j :: k <= j < |ms| ==> ms[j].role != Assistant || ms[j].calls == []
  {
    if ms != [] && !(ms[|ms| - 1].role == Assistant && ms[|ms| - 1].calls != []) {
      EvidenceStartIs(ms[..|ms| - 1]);
    }
  }

  /**
   Main result. Shortening touches only the text outputs of tools behind the last call, and none that speaks of an
   approval; every other message is as it was.
   */
  lemma {:induction false} CutsOnlyEvidence(p: Pricing, e: Evidence, ms: seq<Message>, room: int, i: nat)
    requires Shortened(p, e, ms, room).Some? && i < |ms|
    ensures var cut := Shortened(p, e, ms, room).value;
      && |cut| == |ms|
      && (cut[i] != ms[i] ==>
            && ms[i].role == Tool && ms[i].content.Text? && !e.approvalText(ms[i].content.text) &&
              !BeforeLastCall(ms, i)
            && cut[i].content.Text? && cut[i] == ms[i].(content := cut[i].content))
  {
    EvidenceStartIs(ms);
  }

  /** A text output of a tool behind the last call that does not speak of an approval. */
  predicate Cuttable(e: Evidence, ms: seq<Message>, i: nat)
    requires i < |ms|
  {
    ms[i].role == Tool && ms[i].content.Text? && !e.approvalText(ms[i].content.text) && !BeforeLastCall(ms, i)
  }

  /** `cut` is `ms` with every such output cut to `fraction`. */
  predicate CutAlike(e: Evidence, ms: seq<Message>, cut: seq<Message>, fraction: real) {
    && |cut| == |ms|
    && forall i :: 0 <= i < |ms| ==>
         cut[i] == if Cuttable(e, ms, i) then ms[i].(content := Text(Cut(ms[i].content.text, fraction))) else ms[i]
  }

  lemma {:induction false} ResizeAlike(e: Evidence, ms: seq<Message>, fraction: real)
    requires EvidenceStart(ms) > 0
    ensures CutAlike(e, ms, Resize(e, ms, EvidenceStart(ms), fraction), fraction)
  {
    EvidenceStartIs(ms);
    var k := EvidenceStart(ms);
    forall i | 0 <= i < |ms|
      ensures i >= k <==> !BeforeLastCall(ms, i)
    {
    }
  }

  /** Main result. Shortening gives up exactly when nothing can be cut, or when cutting all of it away is not enough. */
  lemma {:induction false} GivesUpExact(p: Pricing, e: Evidence, ms: seq<Message>, room: int, least: seq<Message>)
    requires CutAlike(e, ms, least, 0.0)
    ensures Shortened(p, e, ms, room).None? <==>
      (forall i :: 0 <= i < |ms| ==> !Cuttable(e, ms, i)) || Tokens(p, least) > room
  {
    EvidenceStartIs(ms);
    var k := EvidenceStart(ms);
    if k > 0 {
      ResizeAlike(e, ms, 0.0);
      assert least == Resize(e, ms, k, 0.0);
      assert FitsCut(p, e, ms, room)(0.0) <==> Tokens(p, least) <= room;
      assert forall i :: 0 <= i < |ms| ==> (Cuttable(e, ms, i) <==> i >= k && Eligible(e, ms[i]));
    }
  }

  /**
   Main result. A history is too large exactly when it is so after every drop, and what must stay has no outputs to cut
   or is too large even without them.
   */
  lemma {:induction false} TooLargeExact(r: Rules, blocks: seq<Block>, room: int, least: seq<Message>)
    requires CutAlike(r.e, LeftAfter(r, blocks, |blocks|, 0) + Constraint(r), least, 0.0)
    ensures var rest := LeftAfter(r, blocks, |blocks|, 0) + Constraint(r);
      GovernTask(r.p, r.e, TaskOf(r, blocks), room) == TooLarge <==>
      && (forall k: nat :: k <= |blocks| ==> Tokens(r.p, LeftAfter(r, blocks, k, 0) + Constraint(r)) > room)
      && ((forall i :: 0 <= i < |rest| ==> !Cuttable(r.e, rest, i)) || Tokens(r.p, least) > room)
  {
    DropsNone(r, blocks, room);
    CandidateLeft(r, blocks, |blocks|);
    GivesUpExact(r.p, r.e, Candidate(TaskOf(r, blocks), |blocks|), room, least);
  }

  lemma {:induction false} DropsNone(r: Rules, blocks: seq<Block>, room: int)
    ensures LeastDrop(r.p, TaskOf(r, blocks), room, 0).None? <==>
      forall k: nat :: k <= |blocks| ==> Tokens(r.p, LeftAfter(r, blocks, k, 0) + Constraint(r)) > room
  {
    var t := TaskOf(r, blocks);
    forall j: nat | j <= |blocks|
      ensures FitsAfter(r.p, t, room, j) <==> Tokens(r.p, LeftAfter(r, blocks, j, 0) + Constraint(r)) <= room
    {
      CandidateLeft(r, blocks, j);
    }
    var drop := LeastDrop(r.p, t, room, 0);
    if drop.Some? {
      assert Tokens(r.p, LeftAfter(r, blocks, drop.value, 0) + Constraint(r)) <= room;
    }
  }

  /** The task constraint, if there is one, ends every answer. */
  lemma {:induction false} ConstraintStays(r: Rules, ms: seq<Message>, limit: int, tools: seq<Schema>,
                                           answer: seq<Message>)
    requires Govern(r, ms, limit, tools) == Fitted(answer) && r.constraint.Some?
    ensures answer != [] && answer[|answer| - 1] == Message(User, Text(r.constraint.value), [], None)
  {
    var blocks := AnswerExact(r, ms, limit, tools, answer);
    ConstraintLast(r, blocks, limit - SchemaTokens(r.p, tools), answer);
  }

  lemma {:induction false} ConstraintLast(r: Rules, blocks: seq<Block>, room: int, answer: seq<Message>)
    requires Answers(r, blocks, room, answer) && r.constraint.Some?
    ensures answer != [] && answer[|answer| - 1] == Message(User, Text(r.constraint.value), [], None)
  {
    var k := AnswerFrom(r, blocks, room, answer);
    var left := LeftAfter(r, blocks, k, 0) + Constraint(r);
    assert ReworkedResult(left[|left| - 1], answer[|left| - 1]);
  }

  // ---- what images cost -------------------------------------------------------------

  predicate Picture(part: Part) {
    part.Image? && part.url != ""
  }

  /** The same parts, except for the data of images. */
  predicate SameButPictures(a: seq<Part>, b: seq<Part>) {
    |a| == |b| && forall i :: 0 <= i < |a| ==> a[i] == b[i] || (Picture(a[i]) && Picture(b[i]))
  }

  lemma {:induction false} PicturesMasked(a: seq<Part>, b: seq<Part>)
    requires SameButPictures(a, b)
    ensures MaskedParts(a) == MaskedParts(b) && ImagesIn(a) == ImagesIn(b)
  {
    if a != [] {
      assert a[0] == b[0] || (Picture(a[0]) && Picture(b[0]));
      PicturesMasked(a[1..], b[1..]);
    }
  }

  /** Every image adds one reservation, and nothing else does. */
  lemma {:induction false} PicturesCounted(parts: seq<Part>, part: Part)
    ensures ImagesIn([]) == 0 && ImagesIn(parts + [part]) == ImagesIn(parts) + if Picture(part) then 1 else 0
  {
    if parts == [] {
      assert parts + [part] == [part] && [part][1..] == [];
    } else {
      assert (parts + [part])[1..] == parts[1..] + [part];
      PicturesCounted(parts[1..], part);
    }
  }

  /** A message costs the reservation for each of its images, and nothing for their data. */
  lemma {:induction false} ImagesReserved(p: Pricing, m: Message, n: Message)
    requires m.content.Parts? && n.content.Parts? && n == m.(content := n.content)
    requires SameButPictures(m.content.parts, n.content.parts)
    ensures Price(p, m) == Price(p, n) && Price(p, m) >= ImagesIn(m.content.parts) * p.image
  {
    PicturesMasked(m.content.parts, n.content.parts);
  }

  /** `n` is message `m` with a short stand-in for the data of each image. */
  predicate Standing(m: Message, n: Message) {
    && m.content.Parts? && n.content.Parts? && n == m.(content := n.content)
    && |n.content.parts| == |m.content.parts|
    && forall i :: 0 <= i < |m.content.parts| ==>
         n.content.parts[i] == if Picture(m.content.parts[i]) then Image("<image>") else m.content.parts[i]
  }

  lemma {:induction false} MaskedAt(parts: seq<Part>, i: nat)
    requires i < |parts|
    ensures |MaskedParts(parts)| == |parts|
    ensures MaskedParts(parts)[i] == if Picture(parts[i]) then Image("<image>") else parts[i]
  {
    if |parts| > 1 { MaskedAt(parts[1..], if i == 0 then 0 else i - 1); }
  }

  /** A message costs its text with stand-ins for its images, and their reservations. */
  lemma {:induction false} PriceMeant(p: Pricing, m: Message, n: Message)
    ensures m.content.Text? ==> Price(p, m) == p.message(m)
    ensures Standing(m, n) ==> Price(p, m) == p.message(n) + ImagesIn(m.content.parts) * p.image
  {
    if Standing(m, n) {
      var parts := m.content.parts;
      if parts != [] { MaskedAt(parts, 0); }
      assert n.content.parts == MaskedParts(parts) by {
        forall i | 0 <= i < |parts|
          ensures |MaskedParts(parts)| == |parts| && MaskedParts(parts)[i] == n.content.parts[i]
        {
          MaskedAt(parts, i);
        }
      }
    }
  }

  /** A list costs 130 tokens, the price of each message, and a comma between two. */
  lemma {:induction false} TokensGrow(p: Pricing, ms: seq<Message>, m: Message)
    ensures Tokens(p, []) == 130 && Tokens(p, [m]) == 130 + Price(p, m)
    ensures ms != [] ==> Tokens(p, ms + [m]) == Tokens(p, ms) + 1 + Price(p, m)
  {
    assert [m][1..] == [];
    SumConcat(p, ms, [m]);
  }

  /** The same holds of tool schemas. */
  lemma {:induction false} SchemasGrow(p: Pricing, tools: seq<Schema>, tool: Schema)
    ensures SchemaTokens(p, []) == 130 && SchemaTokens(p, [tool]) == 130 + p.schema(tool)
    ensures tools != [] ==> SchemaTokens(p, tools + [tool]) == SchemaTokens(p, tools) + 1 + p.schema(tool)
  {
    assert [tool][1..] == [];
    SchemaSumConcat(p, tools, [tool]);
  }
}
