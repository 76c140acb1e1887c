/** What the governor's answer guarantees, and that the tool selection cannot be extended. */
module ContextResults {
  import opened Prelude
  import opened Messages
  import opened MessagePairs
  import opened ContextBudget

  // ---- the bound --------------------------------------------------------------------

  /** The width of the search interval after `n` halvings. */
  function Gap(width: real, n: nat): real
    decreases n
  {
    if n == 0 then width else Gap(width / 2.0, n - 1)
  }

  /** The fraction found fits, and the end of the last interval does not (or is where the search began). */
  lemma {:induction false} BisectFits(fits: real -> bool, low: real, high: real, rounds: nat)
    requires low < high && fits(low)
    ensures var f := Bisect(fits, low, high, rounds); var h := f + Gap(high - low, rounds);
      low <= f < h <= high && fits(f) && (h == high || !fits(h))
    decreases rounds
  {
    if rounds > 0 {
      var middle := (low + high) / 2.0;
      assert middle - low == (high - low) / 2.0 && high - middle == (high - low) / 2.0;
      if fits(middle) {
        BisectFits(fits, middle, high, rounds - 1);
      } else {
        BisectFits(fits, low, middle, rounds - 1);
      }
    }
  }

  /** Cut evidence fits. */
  lemma ShortenedFits(p: Pricing, e: Evidence, ms: seq<Message>, room: int)
    requires Shortened(p, e, ms, room).Some?
    ensures Tokens(p, Shortened(p, e, ms, room).value) <= room
  {
    var fits := FitsCut(p, e, ms, room);
    var f := Bisect(fits, 0.0, 1.0, e.rounds);
    assert fits(f) by { SearchTight(fits, e.rounds); }
    assert Shortened(p, e, ms, room).value == Resize(e, ms, EvidenceStart(ms), f);
  }

  /** On the whole interval: the answer fits, and `Gap(1.0, rounds)` more does not, unless that is everything. */
  lemma SearchTight(fits: real -> bool, rounds: nat)
    requires fits(0.0)
    ensures var f := Bisect(fits, 0.0, 1.0, rounds); var h := f + Gap(1.0, rounds);
      0.0 <= f < h <= 1.0 && fits(f) && (h == 1.0 || !fits(h))
  {
    assert 1.0 - 0.0 == 1.0;
    BisectFits(fits, 0.0, 1.0, rounds);
  }

  /** Main result. What the governor returns fits the limit together with the tool schemas. */
  lemma WithinBound(r: Rules, ms: seq<Message>, limit: int, tools: seq<Schema>)
    requires Govern(r, ms, limit, tools).Fitted?
    ensures Tokens(r.p, Govern(r, ms, limit, tools).messages) + SchemaTokens(r.p, tools) <= limit
  {
    var t, room := TaskOf(r, Normalize(ms).blocks), limit - SchemaTokens(r.p, tools);
    if LeastDrop(r.p, t, room, 0).None? {
      ShortenedFits(r.p, r.e, Candidate(t, |t.blocks|), room);
    }
  }

  // ---- dropping ---------------------------------------------------------------------

  lemma {:induction false} SelectShrinks(p: Pricing, blocks: seq<Block>, a: set<nat>, b: set<nat>, i: nat)
    requires a <= b
    ensures |Select(blocks, a, i)| <= |Select(blocks, b, i)|
    ensures Sum(p, Select(blocks, a, i)) <= Sum(p, Select(blocks, b, i))
    decreases |blocks| - i
  {
    if i < |blocks| {
      SelectShrinks(p, blocks, a, b, i + 1);
      SumConcat(p, blocks[i], Select(blocks, a, i + 1));
      SumConcat(p, blocks[i], Select(blocks, b, i + 1));
    }
  }

  /** Dropping more never makes it worse, so the first drop that fits is the shortest one. */
  lemma FitsMonotone(p: Pricing, t: Task, room: int, j: nat, k: nat)
    requires j <= k && FitsAfter(p, t, room, j)
    ensures FitsAfter(p, t, room, k)
  {
    var n := |t.blocks|;
    var a, b := Remaining(n, t.kept, k), Remaining(n, t.kept, j);
    SelectShrinks(p, t.blocks, a, b, 0);
    SumConcat(p, Select(t.blocks, a, 0), t.constraint);
    SumConcat(p, Select(t.blocks, b, 0), t.constraint);
  }

  /** The protected blocks and the task constraint alone. */
  function Core(t: Task): seq<Message> {
    Select(t.blocks, t.kept, 0) + t.constraint
  }

  predicate CoreFits(p: Pricing, t: Task, room: int) {
    Tokens(p, Core(t)) <= room
  }

  /** The core fits, if need be with the outputs of the latest calls cut to nothing but the marker. */
  predicate TaskAccepts(p: Pricing, e: Evidence, t: Task, room: int) {
    CoreFits(p, t, room) || CanShorten(p, e, Core(t), room)
  }

  lemma {:induction false} KeptSelected(blocks: seq<Block>, kept: set<nat>, i: nat)
    ensures Select(blocks, Remaining(|blocks|, kept, |blocks|), i) == Select(blocks, kept, i)
    decreases |blocks| - i
  {
    if i < |blocks| {
      KeptSelected(blocks, kept, i + 1);
    }
  }

  /** Dropping every unprotected block leaves the core. */
  lemma CoreIsLeft(p: Pricing, t: Task, room: int)
    ensures Candidate(t, |t.blocks|) == Core(t)
    ensures FitsAfter(p, t, room, |t.blocks|) <==> CoreFits(p, t, room)
  {
    KeptSelected(t.blocks, t.kept, 0);
  }

  /**
   Main result. The governor drops whole unprotected groups, oldest first, and the fewest that make the rest
   fit; it gives up dropping exactly when the protected groups and the task constraint alone do not fit.
   */
  lemma DropsFewest(p: Pricing, e: Evidence, t: Task, room: int)
    ensures CoreFits(p, t, room) <==> LeastDrop(p, t, room, 0).Some?
    ensures LeastDrop(p, t, room, 0).Some? ==> ShortestDrop(p, e, t, room, LeastDrop(p, t, room, 0).value)
    ensures GovernTask(p, e, t, room).Fitted? <==> TaskAccepts(p, e, t, room)
  {
    CoreIsLeft(p, t, room);
    var drop := LeastDrop(p, t, room, 0);
    if drop.Some? {
      FitsMonotone(p, t, room, drop.value, |t.blocks|);
      forall j: nat | j >= drop.value
        ensures FitsAfter(p, t, room, j)
      {
        FitsMonotone(p, t, room, drop.value, j);
      }
    }
  }

  /** The answer keeps everything from group `k` on and every protected group, and no shorter drop fits. */
  ghost predicate ShortestDrop(p: Pricing, e: Evidence, t: Task, room: int, k: nat) {
    && GovernTask(p, e, t, room) == Fitted(Candidate(t, k))
    && k <= |t.blocks|
    && (forall i :: 0 <= i < |t.blocks| && (i >= k || i in t.kept) ==> i in Remaining(|t.blocks|, t.kept, k))
    && (forall i :: i in Remaining(|t.blocks|, t.kept, k) ==> i >= k || i in t.kept)
    && (forall j: nat :: FitsAfter(p, t, room, j) <==> j >= k)
  }

  // ---- pairs stay whole -------------------------------------------------------------

  /** The chosen blocks from index `i` on. */
  function ChosenBlocks(blocks: seq<Block>, chosen: set<nat>, i: nat): seq<Block>
    decreases |blocks| - i
  {
    if i >= |blocks| then []
    else if i in chosen then [blocks[i]] + ChosenBlocks(blocks, chosen, i + 1)
    else ChosenBlocks(blocks, chosen, i + 1)
  }

  lemma {:induction false} SelectIsFlat(blocks: seq<Block>, chosen: set<nat>, i: nat, strict: bool)
    requires AllProper(blocks, strict)
    ensures Select(blocks, chosen, i) == Flatten(ChosenBlocks(blocks, chosen, i)) &&
      AllProper(ChosenBlocks(blocks, chosen, i), strict)
    decreases |blocks| - i
  {
    if i < |blocks| {
      SelectIsFlat(blocks, chosen, i + 1, strict);
    }
  }

  /** Made of complete groups only: it can be cut into ordinary messages and complete call blocks. */
  ghost predicate Whole(ms: seq<Message>, strict: bool) {
    exists blocks :: AllProper(blocks, strict) && Flatten(blocks) == ms
  }

  lemma CandidateWhole(r: Rules, blocks: seq<Block>, k: nat, strict: bool)
    requires AllProper(blocks, strict)
    ensures Whole(Candidate(TaskOf(r, blocks), k), strict)
  {
    var t := TaskOf(r, blocks);
    var chosen := Remaining(|blocks|, t.kept, k);
    SelectIsFlat(blocks, chosen, 0, strict);
    var picked, tail := ChosenBlocks(blocks, chosen, 0), if t.constraint == [] then [] else [t.constraint];
    FlattenConcat(picked, tail);
    assert Flatten(tail) == t.constraint;
    assert AllProper(tail, strict);
    assert AllProper(picked + tail, strict);
  }

  /** `b` differs from `a` at most in the content of tool results. */
  predicate SameShape(a: seq<Message>, b: seq<Message>) {
    |a| == |b| && forall i :: 0 <= i < |a| ==> ReworkedResult(a[i], b[i])
  }

  predicate ReworkedResult(a: Message, b: Message) {
    a == b || (a.role == Tool && b == a.(content := b.content))
  }

  lemma {:induction false} BlockReworked(a: Block, b: Block, strict: bool)
    requires Proper(a, strict) && SameShape(a, b)
    ensures Proper(b, strict)
  {
    assert forall i :: 0 <= i < |a| ==> ReworkedResult(a[i], b[i]);
    assert ReworkedResult(a[0], b[0]);
    if IsPair(a) {
      assert forall i :: 0 <= i < |a[0].calls| ==>
        Answers(a[1 + i], a[0].calls[i]) && ReworkedResult(a[1 + i], b[1 + i]);
      assert forall i :: |a[0].calls| < i < |a| ==> Bystander(a[i]) && ReworkedResult(a[i], b[i]);
      assert IsPair(b);
    } else {
      assert IsSingle(b);
    }
  }

  lemma {:induction false} ReworkedWhole(blocks: seq<Block>, ms: seq<Message>, strict: bool)
    requires AllProper(blocks, strict) && SameShape(Flatten(blocks), ms)
    ensures Whole(ms, strict)
  {
    if blocks == [] {
      assert AllProper([], strict) && Flatten([]) == ms;
    } else {
      var n := |blocks[0]|;
      var a, b := Flatten(blocks), ms[..n];
      assert forall i :: 0 <= i < |a| ==> ReworkedResult(a[i], ms[i]);
      assert a[..n] == blocks[0] && a[n..] == Flatten(blocks[1..]);
      assert Proper(blocks[0], strict);
      BlockReworked(blocks[0], b, strict);
      ReworkedWhole(blocks[1..], ms[n..], strict);
      WholeOn(b, ms[n..], strict);
      assert ms == b + ms[n..];
    }
  }

  /** A proper block in front of a whole list. */
  lemma {:induction false} WholeOn(b: Block, ms: seq<Message>, strict: bool)
    requires Proper(b, strict) && Whole(ms, strict)
    ensures Whole(b + ms, strict)
  {
    var rest :| AllProper(rest, strict) && Flatten(rest) == ms;
    assert ([b] + rest)[1..] == rest;
    assert AllProper([b] + rest, strict) && Flatten([b] + rest) == b + ms;
  }

  lemma ShortenedWhole(p: Pricing, e: Evidence, ms: seq<Message>, room: int, strict: bool)
    requires Whole(ms, strict) && Shortened(p, e, ms, room).Some?
    ensures Whole(Shortened(p, e, ms, room).value, strict)
  {
    var blocks :| AllProper(blocks, strict) && Flatten(blocks) == ms;
    var cut := Shortened(p, e, ms, room).value;
    assert SameShape(ms, cut);
    ReworkedWhole(blocks, cut, strict);
  }

  lemma TaskWhole(r: Rules, blocks: seq<Block>, room: int, strict: bool)
    requires AllProper(blocks, strict) && GovernTask(r.p, r.e, TaskOf(r, blocks), room).Fitted?
    ensures Whole(GovernTask(r.p, r.e, TaskOf(r, blocks), room).messages, strict)
  {
    var t := TaskOf(r, blocks);
    var drop := LeastDrop(r.p, t, room, 0);
    if drop.Some? {
      CandidateWhole(r, blocks, drop.value, strict);
    } else {
      CandidateWhole(r, blocks, |blocks|, strict);
      ShortenedWhole(r.p, r.e, Candidate(t, |blocks|), room, strict);
    }
  }

  /**
   Main result. Whatever is dropped or cut, no call loses its result: the answer consists of complete groups,
   and only assistants call tools in it if only they did before.
   */
  lemma PairsIntact(r: Rules, ms: seq<Message>, limit: int, tools: seq<Schema>)
    requires Govern(r, ms, limit, tools).Fitted?
    ensures Whole(Govern(r, ms, limit, tools).messages, OnlyAssistantsCall(ms))
  {
    PairsComplete(ms, OnlyAssistantsCall(ms));
    TaskWhole(r, Normalize(ms).blocks, limit - SchemaTokens(r.p, tools), OnlyAssistantsCall(ms));
  }

  /**
   A history of complete groups in which only assistants call is what the next round's grouping leaves alone; any
   other one it leaves alone or refuses.
   */
  lemma WholeIsStable(ms: seq<Message>, strict: bool)
    requires Whole(ms, strict)
    ensures if Normalize(ms).Blocks? then Flatten(Normalize(ms).blocks) == ms
            else !strict && Normalize(ms) == Invalid(CallsOutsideAssistant)
  {
    var blocks :| AllProper(blocks, strict) && Flatten(blocks) == ms;
    NormalizeFlattened(blocks);
    RefusedIsMet(blocks);
    if strict { StrictNeverRefused(blocks); }
    MergeFlattens(blocks);
  }

  // ---- choosing tools ---------------------------------------------------------------

  predicate Accepts(r: Rules, ms: seq<Message>, limit: int, tools: seq<Schema>) {
    Govern(r, ms, limit, tools).Fitted?
  }

  lemma FittedIff(p: Pricing, e: Evidence, t: Task, room: int)
    ensures GovernTask(p, e, t, room).Fitted? <==> TaskAccepts(p, e, t, room)
  {
    DropsFewest(p, e, t, room);
  }

  lemma AcceptsIff(r: Rules, ms: seq<Message>, limit: int, tools: seq<Schema>)
    requires Normalize(ms).Blocks?
    ensures Accepts(r, ms, limit, tools) <==>
      TaskAccepts(r.p, r.e, TaskOf(r, Normalize(ms).blocks), limit - SchemaTokens(r.p, tools))
  {
    var t, room := TaskOf(r, Normalize(ms).blocks), limit - SchemaTokens(r.p, tools);
    assert Govern(r, ms, limit, tools) == GovernTask(r.p, r.e, t, room);
    FittedIff(r.p, r.e, t, room);
  }

  lemma RoomHelps(p: Pricing, e: Evidence, t: Task, a: int, b: int)
    requires a <= b && TaskAccepts(p, e, t, a)
    ensures TaskAccepts(p, e, t, b)
  {
  }

  lemma CheaperAccepted(r: Rules, ms: seq<Message>, limit: int, a: seq<Schema>, b: seq<Schema>)
    requires SchemaTokens(r.p, a) <= SchemaTokens(r.p, b) && Accepts(r, ms, limit, b)
    ensures Accepts(r, ms, limit, a)
  {
    AcceptsIff(r, ms, limit, a);
    AcceptsIff(r, ms, limit, b);
    RoomHelps(r.p, r.e, TaskOf(r, Normalize(ms).blocks), limit - SchemaTokens(r.p, b), limit - SchemaTokens(r.p, a));
  }

  /** One pass over the tools in priority order, keeping each that still fits: first the kept, then the omitted. */
  function Greedy(r: Rules, ms: seq<Message>, limit: int, selected: seq<Schema>, rest: seq<Schema>)
    : (seq<Schema>, seq<Schema>)
    decreases |rest|
  {
    if rest == [] then (selected, [])
    else if Accepts(r, ms, limit, selected + [rest[0]]) then Greedy(r, ms, limit, selected + [rest[0]], rest[1..])
    else
      var g := Greedy(r, ms, limit, selected, rest[1..]);
      (g.0, [rest[0]] + g.1)
  }

  /** `None` is the refusal: not even without tools does the history fit. */
  method FitToolSchemas(r: Rules, ms: seq<Message>, limit: int, ordered: seq<Schema>) returns (s: Option<seq<Schema>>)
    ensures s == if ordered == [] then Some([])
                 else if Accepts(r, ms, limit, []) then Some(Greedy(r, ms, limit, [], ordered).0)
                 else None
  {
    if ordered == [] { return Some([]); }
    var bare := GovernMessages(r, ms, limit, []);
    if !bare.Fitted? { return None; }
    var selected, k := [], 0;
    assert ordered[0..] == ordered;
    while k < |ordered|
      invariant 0 <= k <= |ordered|
      invariant Greedy(r, ms, limit, selected, ordered[k..]).0 == Greedy(r, ms, limit, [], ordered).0
    {
      var candidate := selected + [ordered[k]];
      assert ordered[k..][1..] == ordered[k + 1..];
      var g := GovernMessages(r, ms, limit, candidate);
      if g.Fitted? { selected := candidate; }
      k := k + 1;
    }
    return Some(selected);
  }

  lemma {:induction false} GreedyExtends(r: Rules, ms: seq<Message>, limit: int, selected: seq<Schema>,
                                         rest: seq<Schema>)
    requires Accepts(r, ms, limit, selected)
    ensures var g := Greedy(r, ms, limit, selected, rest);
      selected <= g.0 && Accepts(r, ms, limit, g.0)
    decreases |rest|
  {
    if rest != [] {
      if Accepts(r, ms, limit, selected + [rest[0]]) {
        GreedyExtends(r, ms, limit, selected + [rest[0]], rest[1..]);
      } else {
        GreedyExtends(r, ms, limit, selected, rest[1..]);
      }
    }
  }

  lemma AddToBoth(a: seq<Schema>, b: seq<Schema>, c: seq<Schema>, d: seq<Schema>, x: Schema)
    requires multiset(a) + multiset(b) == multiset(c) + multiset(d)
    ensures multiset(a) + multiset([x] + b) == multiset(c) + multiset([x] + d)
  {
    assert multiset([x] + b) == multiset([x]) + multiset(b);
    assert multiset([x] + d) == multiset([x]) + multiset(d);
    var e := multiset([x]);
    assert multiset(a) + (e + multiset(b)) == e + (multiset(a) + multiset(b));
    assert multiset(c) + (e + multiset(d)) == e + (multiset(c) + multiset(d));
  }

  lemma {:induction false} GreedyKeepsAll(r: Rules, ms: seq<Message>, limit: int, selected: seq<Schema>,
                                          rest: seq<Schema>)
    ensures var g := Greedy(r, ms, limit, selected, rest);
      multiset(g.0) + multiset(g.1) == multiset(selected) + multiset(rest)
    decreases |rest|
  {
    if rest != [] {
      var tail := rest[1..];
      assert rest == [rest[0]] + tail;
      assert multiset(rest) == multiset{rest[0]} + multiset(tail);
      if Accepts(r, ms, limit, selected + [rest[0]]) {
        GreedyKeepsAll(r, ms, limit, selected + [rest[0]], tail);
      } else {
        GreedyKeepsAll(r, ms, limit, selected, tail);
        var g := Greedy(r, ms, limit, selected, tail);
        AddToBoth(g.0, g.1, selected, tail, rest[0]);
      }
    }
  }

  lemma LongerCostsMore(p: Pricing, a: seq<Schema>, b: seq<Schema>, tool: Schema)
    requires a <= b
    ensures SchemaTokens(p, a + [tool]) <= SchemaTokens(p, b + [tool])
  {
    var more := b[|a|..];
    assert b == a + more;
    SchemaSumConcat(p, a, more);
    SchemaSumConcat(p, a, [tool]);
    SchemaSumConcat(p, b, [tool]);
  }

  lemma {:induction false} OmittedRefused(r: Rules, ms: seq<Message>, limit: int, selected: seq<Schema>,
                                          rest: seq<Schema>, tool: Schema)
    requires Accepts(r, ms, limit, selected) && tool in Greedy(r, ms, limit, selected, rest).1
    ensures !Accepts(r, ms, limit, Greedy(r, ms, limit, selected, rest).0 + [tool])
    decreases |rest|
  {
    var g := Greedy(r, ms, limit, selected, rest);
    if Accepts(r, ms, limit, selected + [rest[0]]) {
      OmittedRefused(r, ms, limit, selected + [rest[0]], rest[1..], tool);
    } else if tool in Greedy(r, ms, limit, selected, rest[1..]).1 {
      OmittedRefused(r, ms, limit, selected, rest[1..], tool);
    } else {
      assert tool == rest[0];
      GreedyExtends(r, ms, limit, selected, rest);
      LongerCostsMore(r.p, selected, g.0, tool);
      if Accepts(r, ms, limit, g.0 + [tool]) {
        CheaperAccepted(r, ms, limit, selected + [tool], g.0 + [tool]);
      }
    }
  }

  /**
   Main result. The selected tools are accepted, selected and omitted together are the tools offered, and no
   omitted tool can be added: the selection is maximal.
   */
  lemma SelectionMaximal(r: Rules, ms: seq<Message>, limit: int, ordered: seq<Schema>)
    requires Accepts(r, ms, limit, [])
    ensures var g := Greedy(r, ms, limit, [], ordered);
      && Accepts(r, ms, limit, g.0)
      && multiset(g.0) + multiset(g.1) == multiset(ordered)
      && forall tool :: tool in g.1 ==> !Accepts(r, ms, limit, g.0 + [tool])
  {
    var g := Greedy(r, ms, limit, [], ordered);
    GreedyExtends(r, ms, limit, [], ordered);
    GreedyKeepsAll(r, ms, limit, [], ordered);
    forall tool | tool in g.1
      ensures !Accepts(r, ms, limit, g.0 + [tool])
    {
      OmittedRefused(r, ms, limit, [], ordered, tool);
    }
  }
}
