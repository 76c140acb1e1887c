/** Fitting a grouped history, and a set of tool schemas, into a token bound. */
module ContextBudget {
  import opened Prelude
  import opened Messages

  type Schema = nat  // a tool schema

  /** The length in bytes of the JSON text of a message or a schema, and the tokens reserved for an image. */
  datatype Pricing = Pricing(message: Message -> nat, schema: Schema -> nat, image: nat)

  // ---- counting ---------------------------------------------------------------------

  function MaskedParts(parts: seq<Part>): seq<Part> {
    if parts == [] then []
    else [if parts[0].Image? && parts[0].url != "" then Image("<image>") else parts[0]] + MaskedParts(parts[1..])
  }

  function ImagesIn(parts: seq<Part>): nat {
    if parts == [] then 0 else (if parts[0].Image? && parts[0].url != "" then 1 else 0) + ImagesIn(parts[1..])
  }

  /** Images are counted by reservation, not by the length of their data. */
  function Price(p: Pricing, m: Message): nat {
    if m.content.Parts?
    then p.message(m.(content := Parts(MaskedParts(m.content.parts)))) + ImagesIn(m.content.parts) * p.image
    else p.message(m)
  }

  function Sum(p: Pricing, ms: seq<Message>): nat {
    if ms == [] then 0 else Price(p, ms[0]) + Sum(p, ms[1..])
  }

  /** Brackets, separating commas and the fixed margin of a JSON list of `n` elements. */
  function Frame(n: nat): nat {
    128 + 2 + if n == 0 then 0 else n - 1
  }

  function Tokens(p: Pricing, ms: seq<Message>): nat {
    Frame(|ms|) + Sum(p, ms)
  }

  function SchemaSum(p: Pricing, tools: seq<Schema>): nat {
    if tools == [] then 0 else p.schema(tools[0]) + SchemaSum(p, tools[1..])
  }

  function SchemaTokens(p: Pricing, tools: seq<Schema>): nat {
    Frame(|tools|) + SchemaSum(p, tools)
  }

  lemma {:induction false} SumConcat(p: Pricing, a: seq<Message>, b: seq<Message>)
    ensures Sum(p, a + b) == Sum(p, a) + Sum(p, b)
  {
    if a == [] {
      assert a + b == b;
    } else {
      assert (a + b)[1..] == a[1..] + b;
      SumConcat(p, a[1..], b);
    }
  }

  lemma {:induction false} SchemaSumConcat(p: Pricing, a: seq<Schema>, b: seq<Schema>)
    ensures SchemaSum(p, a + b) == SchemaSum(p, a) + SchemaSum(p, b)
  {
    if a == [] {
      assert a + b == b;
    } else {
      assert (a + b)[1..] == a[1..] + b;
      SchemaSumConcat(p, a[1..], b);
    }
  }

  // ---- choosing blocks --------------------------------------------------------------

  /** The messages of the chosen blocks from index `i` on. */
  function Select(blocks: seq<Block>, chosen: set<nat>, i: nat): seq<Message>
    decreases |blocks| - i
  {
    if i >= |blocks| then []
    else if i in chosen then blocks[i] + Select(blocks, chosen, i + 1)
    else Select(blocks, chosen, i + 1)
  }

  /** What is left of `n` blocks when the unprotected ones among the first `k` are dropped. */
  function Remaining(n: nat, kept: set<nat>, k: nat): set<nat> {
    set i: nat | 0 <= i < n && (i >= k || i in kept)
  }

  /** The conversation to fit: its blocks, the protected ones, and the task constraint appended at the end. */
  datatype Task = Task(blocks: seq<Block>, kept: set<nat>, constraint: seq<Message>)

  function Candidate(t: Task, k: nat): seq<Message> {
    Select(t.blocks, Remaining(|t.blocks|, t.kept, k), 0) + t.constraint
  }

  predicate FitsAfter(p: Pricing, t: Task, room: int, k: nat) {
    Tokens(p, Candidate(t, k)) <= room
  }

  /** The shortest drop, from `k` on, after which the rest fits. */
  function LeastDrop(p: Pricing, t: Task, room: int, k: nat): (r: Option<nat>)
    requires k <= |t.blocks|
    ensures r.Some? ==> k <= r.value <= |t.blocks| && FitsAfter(p, t, room, r.value)
    ensures r.Some? ==> forall j :: k <= j < r.value ==> !FitsAfter(p, t, room, j)
    ensures r.None? ==> forall j :: k <= j <= |t.blocks| ==> !FitsAfter(p, t, room, j)
    decreases |t.blocks| - k
  {
    if FitsAfter(p, t, room, k) then Some(k)
    else if k == |t.blocks| then None
    else LeastDrop(p, t, room, k + 1)
  }

  // ---- which blocks are protected ---------------------------------------------------

  predicate HasRole(b: Block, roles: set<Role>) {
    exists i :: 0 <= i < |b| && b[i].role in roles
  }

  /** The last of the first `n` blocks with a message of that role. */
  function LastWith(blocks: seq<Block>, role: Role, n: nat): set<nat>
    requires n <= |blocks|
  {
    if n == 0 then {} else if HasRole(blocks[n - 1], {role}) then {n - 1} else LastWith(blocks, role, n - 1)
  }

  /** Instructions, approvals, the latest evidence, the latest request and the anchors of the conversation. */
  function Protected(blocks: seq<Block>, approval: Block -> bool, anchors: seq<Block> -> set<nat>): set<nat> {
    (set i: nat | 0 <= i < |blocks| && (HasRole(blocks[i], {System, Developer}) || approval(blocks[i])))
    + LastWith(blocks, Tool, |blocks|) + LastWith(blocks, User, |blocks|) + anchors(blocks)
  }

  // ---- shortening the latest evidence -----------------------------------------------

  const MARKER := "\n[Tool output truncated for model context; complete evidence remains in task history.]\n"

  /** Outputs that speak of approvals are never cut; the source searches for `rounds` = 18 rounds. */
  datatype Evidence = Evidence(approvalText: string -> bool, rounds: nat)

  /** The position after the last assistant that calls tools, or 0. */
  function EvidenceStart(ms: seq<Message>): (k: nat)
    ensures k <= |ms|
  {
    if ms == [] then 0
    else
      var last := ms[|ms| - 1];
      if last.role == Assistant && last.calls != [] then |ms| else EvidenceStart(ms[..|ms| - 1])
  }

  predicate Eligible(e: Evidence, m: Message) {
    m.role == Tool && m.content.Text? && !e.approvalText(m.content.text)
  }

  function Cut(text: string, fraction: real): string {
    var n := |text|;
    var keep := (n as real * fraction).Floor;
    if keep >= n || keep < 0 then text
    else
      var head := (keep as real * 0.75).Floor;
      if 0 <= head <= keep then text[..head] + MARKER + text[n - (keep - head)..] else text
  }

  function Resize(e: Evidence, ms: seq<Message>, start: nat, fraction: real): (r: seq<Message>)
    ensures |r| == |ms|
    ensures forall i :: 0 <= i < |ms| ==>
      r[i] == if i >= start && Eligible(e, ms[i]) then ms[i].(content := Text(Cut(ms[i].content.text, fraction)))
        else ms[i]
  {
    seq(|ms|, i requires 0 <= i < |ms| =>
      if i >= start && Eligible(e, ms[i]) then ms[i].(content := Text(Cut(ms[i].content.text, fraction))) else ms[i])
  }

  /** Which fractions of the evidence fit. */
  function FitsCut(p: Pricing, e: Evidence, ms: seq<Message>, room: int): real -> bool {
    fraction => Tokens(p, Resize(e, ms, EvidenceStart(ms), fraction)) <= room
  }

  predicate CanShorten(p: Pricing, e: Evidence, ms: seq<Message>, room: int) {
    var start := EvidenceStart(ms);
    && start > 0
    && (exists i :: start <= i < |ms| && Eligible(e, ms[i]))
    && FitsCut(p, e, ms, room)(0.0)
  }

  /** Halves the interval, keeping a fraction that fits at its lower end. */
  function Bisect(fits: real -> bool, low: real, high: real, rounds: nat): real
    decreases rounds
  {
    if rounds == 0 then low
    else
      var middle := (low + high) / 2.0;
      if fits(middle) then Bisect(fits, middle, high, rounds - 1) else Bisect(fits, low, middle, rounds - 1)
  }

  function Shortened(p: Pricing, e: Evidence, ms: seq<Message>, room: int): Option<seq<Message>> {
    if CanShorten(p, e, ms, room)
    then Some(Resize(e, ms, EvidenceStart(ms), Bisect(FitsCut(p, e, ms, room), 0.0, 1.0, e.rounds)))
    else None
  }

  // ---- the governor -----------------------------------------------------------------

  datatype Governed = Fitted(messages: seq<Message>) | Unusable(fault: Fault) | TooLarge

  function GovernTask(p: Pricing, e: Evidence, t: Task, room: int): Governed {
    var drop := LeastDrop(p, t, room, 0);
    if drop.Some? then Fitted(Candidate(t, drop.value))
    else
      var short := Shortened(p, e, Candidate(t, |t.blocks|), room);
      if short.Some? then Fitted(short.value) else TooLarge
  }

  /** Everything the caller configures besides the history. */
  datatype Rules = Rules(
    p: Pricing, e: Evidence, approval: Block -> bool, anchors: seq<Block> -> set<nat>, constraint: Option<string>)

  function Constraint(r: Rules): seq<Message> {
    if r.constraint.Some? then [Message(User, Text(r.constraint.value), [], None)] else []
  }

  function TaskOf(r: Rules, blocks: seq<Block>): Task {
    Task(blocks, Protected(blocks, r.approval, r.anchors), Constraint(r))
  }

  function Govern(r: Rules, ms: seq<Message>, limit: int, tools: seq<Schema>): Governed {
    var n := Normalize(ms);
    if n.Invalid? then Unusable(n.fault)
    else GovernTask(r.p, r.e, TaskOf(r, n.blocks), limit - SchemaTokens(r.p, tools))
  }

  lemma RemainingStep(n: nat, kept: set<nat>, k: nat)
    requires k < n
    ensures Remaining(n, kept, k + 1) == if k in kept then Remaining(n, kept, k) else Remaining(n, kept, k) - {k}
  {
  }

  /** Drops old unprotected groups one at a time, oldest first, until the rest fits. */
  method DropOldest(p: Pricing, t: Task, room: int) returns (fits: bool, messages: seq<Message>)
    ensures fits == LeastDrop(p, t, room, 0).Some?
    ensures messages == Candidate(t, if fits then LeastDrop(p, t, room, 0).value else |t.blocks|)
  {
    var n := |t.blocks|;
    var chosen := Remaining(n, t.kept, 0);
    messages := Select(t.blocks, chosen, 0) + t.constraint;
    if Tokens(p, messages) <= room { return true, messages; }
    var index := 0;
    while index < n
      invariant 0 <= index <= n && chosen == Remaining(n, t.kept, index) && messages == Candidate(t, index)
      invariant !FitsAfter(p, t, room, index)
      invariant LeastDrop(p, t, room, 0) == LeastDrop(p, t, room, index)
    {
      RemainingStep(n, t.kept, index);
      if index !in t.kept {
        chosen := chosen - {index};
        messages := Select(t.blocks, chosen, 0) + t.constraint;
        if Tokens(p, messages) <= room { return true, messages; }
      }
      index := index + 1;
    }
    return false, messages;
  }

  /** Fits a history into `limit` tokens beside the given tool schemas. */
  method GovernMessages(r: Rules, messages: seq<Message>, limit: int, tools: seq<Schema>) returns (g: Governed)
    ensures g == Govern(r, messages, limit, tools)
  {
    var normalized := NormalizeBlocks(messages);
    if normalized.Invalid? { return Unusable(normalized.fault); }
    var room := limit - SchemaTokens(r.p, tools);
    var fits, chosen := DropOldest(r.p, TaskOf(r, normalized.blocks), room);
    if fits { return Fitted(chosen); }
    var fitted := FitLatestEvidence(r.p, r.e, chosen, room);
    return if fitted.Some? then Fitted(fitted.value) else TooLarge;
  }

  method SearchFraction(fits: real -> bool, rounds: nat) returns (low: real)
    ensures low == Bisect(fits, 0.0, 1.0, rounds)
  {
    low := 0.0;
    var high, round := 1.0, 0;
    while round < rounds
      invariant 0 <= round <= rounds
      invariant Bisect(fits, low, high, rounds - round) == Bisect(fits, 0.0, 1.0, rounds)
    {
      var middle := (low + high) / 2.0;
      if fits(middle) { low := middle; } else { high := middle; }
      round := round + 1;
    }
  }

  /** Cuts the outputs of the latest calls to the largest fraction the search finds to fit. */
  method FitLatestEvidence(p: Pricing, e: Evidence, ms: seq<Message>, room: int) returns (r: Option<seq<Message>>)
    ensures r == Shortened(p, e, ms, room)
  {
    var start := EvidenceStart(ms);
    if start == 0 || !exists i :: start <= i < |ms| && Eligible(e, ms[i]) { return None; }
    if !FitsCut(p, e, ms, room)(0.0) { return None; }
    var fraction := SearchFraction(FitsCut(p, e, ms, room), e.rounds);
    return Some(Resize(e, ms, start, fraction));
  }
}
