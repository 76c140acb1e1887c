/**
 The budget row of one root task and the rows of its model calls. Every function is one
 transaction. A call is named by its position, since call ids are never issued twice; `reservation`
 and `reservedCost` remember the amounts `reserve` first wrote to the row.
 */
module Ledger {
  import opened Prelude

  /** USD per million tokens; a key missing from the configuration reads as -1. */
  datatype Rates = Rates(input: real, output: real)

  datatype Limits = Limits(
    tokens: nat, requests: nat, children: nat, depth: nat, cost: real, rates: map<string, Rates>)

  datatype Call = Call(
    reservation: nat, reservedCost: real, rates: Option<Rates>, tokens: nat, cost: real, settled: bool)

  datatype Budget = Budget(
    limits: Limits, deadline: Time, requests: nat, tokens: int, cost: real, children: nat, calls: seq<Call>)

  /** What a provider reports; each number may be missing or senseless. */
  datatype Usage = Usage(total: Option<int>, prompt: Option<int>, output: Option<int>)

  function Max(a: int, b: int): int {
    if a > b then a else b
  }

  function MaxCost(a: real, b: real): real {
    if a > b then a else b
  }

  function NewBudget(limits: Limits, deadline: Time): Budget {
    Budget(limits, deadline, 0, 0, 0.0, 0, [])
  }

  predicate OverLimit(b: Budget) {
    b.tokens > b.limits.tokens || (b.limits.cost != 0.0 && b.cost > b.limits.cost)
  }

  // ---- reserve ----------------------------------------------------------------------

  datatype Quote = Quote(cost: real, rates: Option<Rates>) | NoRates | BadRates

  predicate Sensible(r: Rates) {
    r.input >= 0.0 && r.output >= 0.0
  }

  function Price(r: Rates, prompt: nat, output: nat): real {
    (prompt as real * r.input + output as real * r.output) / 1000000.0
  }

  /** Without a cost cap calls are free of charge and need no rates. */
  function QuoteFor(limits: Limits, model: string, prompt: nat, output: nat): Quote {
    if limits.cost == 0.0 then Quote(0.0, None)
    else if model !in limits.rates then NoRates
    else if !Sensible(limits.rates[model]) then BadRates
    else Quote(Price(limits.rates[model], prompt, output), Some(limits.rates[model]))
  }

  predicate CanReserve(b: Budget, model: string, prompt: nat, output: nat, now: Time) {
    var q := QuoteFor(b.limits, model, prompt, output);
    && q.Quote?
    && b.deadline > now
    && b.requests < b.limits.requests
    && b.tokens + prompt + output <= b.limits.tokens
    && (b.limits.cost != 0.0 ==> b.cost + q.cost <= b.limits.cost)
  }

  function ReserveRow(b: Budget, model: string, prompt: nat, output: nat, now: Time): Budget {
    if CanReserve(b, model, prompt, output, now) then
      var q := QuoteFor(b.limits, model, prompt, output);
      b.(requests := b.requests + 1, tokens := b.tokens + prompt + output, cost := b.cost + q.cost,
         calls := b.calls + [Call(prompt + output, q.cost, q.rates, prompt + output, q.cost, false)])
    else b
  }

  // ---- reconcile --------------------------------------------------------------------

  predicate Meaningful(u: Option<Usage>) {
    u.Some? && u.value.total.Some? && u.value.total.value >= 0
  }

  /** What the reported tokens cost at the rates stored with the call, or nothing when they cannot be priced. */
  function ReportedCost(rates: Option<Rates>, u: Usage): Option<real>
    requires u.total.Some?
  {
    if rates.Some? && u.prompt.Some? && u.prompt.value >= 0 then
      var output := if u.output.Some? && u.output.value >= 0 then u.output.value
                    else Max(0, u.total.value - u.prompt.value);
      Some(Price(rates.value, u.prompt.value, output))
    else None
  }

  function ReconciledCall(capped: bool, c: Call, u: Usage, settle: bool): Call
    requires u.total.Some? && u.total.value >= 0
  {
    var tokens := if settle then u.total.value else Max(u.total.value, c.tokens);
    var cost := if capped && ReportedCost(c.rates, u).Some? then MaxCost(c.cost, ReportedCost(c.rates, u).value)
                else c.cost;
    c.(tokens := tokens, cost := cost, settled := settle)
  }

  predicate CanReconcile(b: Budget, key: nat, u: Option<Usage>) {
    Meaningful(u) && key < |b.calls| && !b.calls[key].settled
  }

  function ReconcileRow(b: Budget, key: nat, u: Option<Usage>, settle: bool): Budget {
    if CanReconcile(b, key, u) then
      var before := b.calls[key];
      var c := ReconciledCall(b.limits.cost != 0.0, before, u.value, settle);
      b.(tokens := b.tokens + (c.tokens - before.tokens), cost := b.cost + (c.cost - before.cost),
         calls := b.calls[key := c])
    else b
  }

  // ---- children ---------------------------------------------------------------------

  /** A parent at `parentDepth` may still have a child. */
  predicate CanReserveChild(b: Budget, parentDepth: nat, now: Time) {
    b.deadline > now && b.children < b.limits.children && parentDepth < b.limits.depth
  }

  function AddChild(b: Budget, admitted: bool): Budget {
    if admitted then b.(children := b.children + 1) else b
  }

  // ---- runs -------------------------------------------------------------------------

  datatype Event =
    | Reserve(model: string, prompt: nat, output: nat, now: Time)
    | Report(key: nat, usage: Option<Usage>, settle: bool)
    | ReserveChild(parentDepth: nat, now: Time)

  function Apply(b: Budget, e: Event): Budget {
    match e
    case Reserve(model, prompt, output, now) => ReserveRow(b, model, prompt, output, now)
    case Report(key, usage, settle) => ReconcileRow(b, key, usage, settle)
    case ReserveChild(parentDepth, now) => AddChild(b, CanReserveChild(b, parentDepth, now))
  }

  function Run(b: Budget, es: seq<Event>): Budget
    decreases |es|
  {
    if es == [] then b else Run(Apply(b, es[0]), es[1..])
  }

  // ---- sums over calls --------------------------------------------------------------

  function TokensOf(c: Call): int { c.tokens }

  /** The part of a charge that its own reservation covers. */
  function CoveredOf(c: Call): int { if c.tokens < c.reservation then c.tokens else c.reservation }

  /** How far a charge exceeds its own reservation. */
  function ExcessOf(c: Call): int { Max(0, c.tokens - c.reservation) }

  function CostOf(c: Call): real { c.cost }

  function ReservedCostOf(c: Call): real { c.reservedCost }

  function Sum(calls: seq<Call>, f: Call -> int): int {
    if calls == [] then 0 else Sum(calls[..|calls| - 1], f) + f(calls[|calls| - 1])
  }

  function SumCost(calls: seq<Call>, f: Call -> real): real {
    if calls == [] then 0.0 else SumCost(calls[..|calls| - 1], f) + f(calls[|calls| - 1])
  }

  lemma {:induction false} SumUpdate(calls: seq<Call>, k: nat, c: Call, f: Call -> int)
    requires k < |calls|
    ensures Sum(calls[k := c], f) == Sum(calls, f) + (f(c) - f(calls[k]))
  {
    var n := |calls| - 1;
    if k == n {
      assert calls[k := c][..n] == calls[..n];
    } else {
      assert calls[k := c][..n] == calls[..n][k := c];
      SumUpdate(calls[..n], k, c, f);
    }
  }

  lemma {:induction false} SumCostUpdate(calls: seq<Call>, k: nat, c: Call, f: Call -> real)
    requires k < |calls|
    ensures SumCost(calls[k := c], f) == SumCost(calls, f) + (f(c) - f(calls[k]))
  {
    var n := |calls| - 1;
    if k == n {
      assert calls[k := c][..n] == calls[..n];
    } else {
      assert calls[k := c][..n] == calls[..n][k := c];
      SumCostUpdate(calls[..n], k, c, f);
    }
  }

  lemma SumAppend(calls: seq<Call>, c: Call, f: Call -> int)
    ensures Sum(calls + [c], f) == Sum(calls, f) + f(c)
  {
    assert (calls + [c])[..|calls|] == calls;
  }

  lemma SumCostAppend(calls: seq<Call>, c: Call, f: Call -> real)
    ensures SumCost(calls + [c], f) == SumCost(calls, f) + f(c)
  {
    assert (calls + [c])[..|calls|] == calls;
  }

  lemma {:induction false} TokensSplit(calls: seq<Call>)
    ensures Sum(calls, TokensOf) == Sum(calls, CoveredOf) + Sum(calls, ExcessOf)
  {
    if calls != [] {
      TokensSplit(calls[..|calls| - 1]);
    }
  }

  lemma {:induction false} CoveredAtMostTokens(calls: seq<Call>)
    ensures Sum(calls, CoveredOf) <= Sum(calls, TokensOf)
  {
    if calls != [] {
      CoveredAtMostTokens(calls[..|calls| - 1]);
    }
  }

  lemma {:induction false} ReservedCostAtMostCost(calls: seq<Call>)
    requires forall k :: 0 <= k < |calls| ==> calls[k].reservedCost <= calls[k].cost
    ensures SumCost(calls, ReservedCostOf) <= SumCost(calls, CostOf)
  {
    if calls != [] {
      ReservedCostAtMostCost(calls[..|calls| - 1]);
    }
  }

  // ---- the invariant ----------------------------------------------------------------

  predicate CallOk(c: Call) {
    (!c.settled ==> c.tokens >= c.reservation) && 0.0 <= c.reservedCost <= c.cost
  }

  predicate CallsOk(calls: seq<Call>) {
    forall k :: 0 <= k < |calls| ==> CallOk(calls[k])
  }

  /** The counters are the sums over the call rows. */
  predicate Conserved(b: Budget) {
    && b.requests == |b.calls|
    && b.tokens == Sum(b.calls, TokensOf)
    && b.cost == SumCost(b.calls, CostOf)
  }

  predicate Bounded(b: Budget) {
    && b.requests <= b.limits.requests
    && b.children <= b.limits.children
    && Sum(b.calls, CoveredOf) <= b.limits.tokens
    && (b.limits.cost > 0.0 ==> SumCost(b.calls, ReservedCostOf) <= b.limits.cost)
  }

  predicate Sound(b: Budget) {
    b.limits.cost >= 0.0 && CallsOk(b.calls) && Conserved(b) && Bounded(b)
  }

  lemma PriceNonnegative(r: Rates, prompt: nat, output: nat)
    requires Sensible(r)
    ensures Price(r, prompt, output) >= 0.0
  {
    assert prompt as real * r.input >= 0.0;
    assert output as real * r.output >= 0.0;
  }

  lemma QuoteNonnegative(limits: Limits, model: string, prompt: nat, output: nat)
    requires QuoteFor(limits, model, prompt, output).Quote?
    ensures QuoteFor(limits, model, prompt, output).cost >= 0.0
  {
    if limits.cost != 0.0 {
      PriceNonnegative(limits.rates[model], prompt, output);
    }
  }

  lemma ReserveSound(b: Budget, model: string, prompt: nat, output: nat, now: Time)
    requires Sound(b)
    ensures Sound(ReserveRow(b, model, prompt, output, now))
  {
    if CanReserve(b, model, prompt, output, now) {
      var q := QuoteFor(b.limits, model, prompt, output);
      QuoteNonnegative(b.limits, model, prompt, output);
      var c := Call(prompt + output, q.cost, q.rates, prompt + output, q.cost, false);
      SumAppend(b.calls, c, TokensOf);
      SumAppend(b.calls, c, CoveredOf);
      SumCostAppend(b.calls, c, CostOf);
      SumCostAppend(b.calls, c, ReservedCostOf);
      CoveredAtMostTokens(b.calls);
      ReservedCostAtMostCost(b.calls);
    }
  }

  lemma ReconcileSound(b: Budget, key: nat, u: Option<Usage>, settle: bool)
    requires Sound(b)
    ensures Sound(ReconcileRow(b, key, u, settle))
  {
    if CanReconcile(b, key, u) {
      var before := b.calls[key];
      assert CallOk(before);
      var c := ReconciledCall(b.limits.cost != 0.0, before, u.value, settle);
      SumUpdate(b.calls, key, c, TokensOf);
      SumUpdate(b.calls, key, c, CoveredOf);
      SumCostUpdate(b.calls, key, c, CostOf);
      SumCostUpdate(b.calls, key, c, ReservedCostOf);
    }
  }

  lemma ApplySound(b: Budget, e: Event)
    requires Sound(b)
    ensures Sound(Apply(b, e)) && Apply(b, e).limits == b.limits
  {
    match e
    case Reserve(model, prompt, output, now) => ReserveSound(b, model, prompt, output, now);
    case Report(key, usage, settle) => ReconcileSound(b, key, usage, settle);
    case ReserveChild(_, _) =>
  }

  lemma {:induction false} RunSound(b: Budget, es: seq<Event>)
    requires Sound(b)
    ensures Sound(Run(b, es)) && Run(b, es).limits == b.limits
    decreases |es|
  {
    if es != [] {
      ApplySound(b, es[0]);
      RunSound(Apply(b, es[0]), es[1..]);
    }
  }

  // ---- main results -----------------------------------------------------------------

  /** Main result. In every run the counters equal the sums and the count over the call rows. */
  lemma Conservation(limits: Limits, deadline: Time, es: seq<Event>)
    requires limits.cost >= 0.0
    ensures Conserved(Run(NewBudget(limits, deadline), es))
  {
    RunSound(NewBudget(limits, deadline), es);
  }

  /**
   Main result. Although refunds are reserved again, recorded tokens and cost exceed their limits by no
   more than the calls' charges exceeded their own reservations; requests and children never exceed theirs.
   */
  lemma OverrunBound(limits: Limits, deadline: Time, es: seq<Event>)
    requires limits.cost >= 0.0
    ensures var b := Run(NewBudget(limits, deadline), es);
      && b.tokens <= limits.tokens + Sum(b.calls, ExcessOf)
      && (limits.cost > 0.0 ==>
            b.cost <= limits.cost + (SumCost(b.calls, CostOf) - SumCost(b.calls, ReservedCostOf)))
      && b.requests <= limits.requests
      && b.children <= limits.children
  {
    RunSound(NewBudget(limits, deadline), es);
    TokensSplit(Run(NewBudget(limits, deadline), es).calls);
  }

  // ---- the history of one call ------------------------------------------------------

  /** The reports of a run that concern one call and carry a usable total. */
  function ReportsOf(es: seq<Event>, key: nat): seq<Event> {
    if es == [] then []
    else
      var rest := ReportsOf(es[1..], key);
      if es[0].Report? && es[0].key == key && Meaningful(es[0].usage) then [es[0]] + rest else rest
  }

  /** The reports that count: up to and including the first settling one. */
  function Counted(reports: seq<Event>): seq<Event>
    requires forall i :: 0 <= i < |reports| ==> reports[i].Report?
  {
    if reports == [] then []
    else if reports[0].settle then [reports[0]]
    else [reports[0]] + Counted(reports[1..])
  }

  predicate AllReports(rs: seq<Event>) {
    forall i :: 0 <= i < |rs| ==> rs[i].Report? && Meaningful(rs[i].usage)
  }

  function Highest(start: int, rs: seq<Event>): int
    requires AllReports(rs)
    decreases |rs|
  {
    if rs == [] then start else Highest(Max(rs[0].usage.value.total.value, start), rs[1..])
  }

  /** The independent account of a call's charge: the final total if there was one, else the highest figure seen. */
  function ChargeAfter(start: int, rs: seq<Event>): int
    requires AllReports(rs)
  {
    if rs != [] && rs[|rs| - 1].settle then rs[|rs| - 1].usage.value.total.value else Highest(start, rs)
  }

  lemma {:induction false} ReportsAreReports(es: seq<Event>, key: nat)
    ensures AllReports(ReportsOf(es, key))
  {
    if es != [] {
      ReportsAreReports(es[1..], key);
    }
  }

  lemma {:induction false} CountedAreReports(rs: seq<Event>)
    requires AllReports(rs)
    ensures AllReports(Counted(rs)) && |Counted(rs)| <= |rs|
    ensures rs != [] ==> Counted(rs) != [] && Counted(rs)[0] == rs[0]
  {
    if rs != [] && !rs[0].settle {
      CountedAreReports(rs[1..]);
    }
  }

  lemma CallKept(b: Budget, e: Event, key: nat)
    requires key < |b.calls|
    ensures key < |Apply(b, e).calls| && Apply(b, e).limits == b.limits
    ensures !(e.Report? && e.key == key && CanReconcile(b, key, e.usage)) ==> Apply(b, e).calls[key] == b.calls[key]
  {
  }

  /** Main result. Once settled, a call's row never changes again. */
  lemma {:induction false} SettledFrozen(b: Budget, es: seq<Event>, key: nat)
    requires key < |b.calls| && b.calls[key].settled
    ensures key < |Run(b, es).calls| && Run(b, es).calls[key] == b.calls[key]
    decreases |es|
  {
    if es != [] {
      CallKept(b, es[0], key);
      SettledFrozen(Apply(b, es[0]), es[1..], key);
    }
  }

  lemma CountedStep(r: Event, rs: seq<Event>, start: int)
    requires AllReports([r] + rs) && AllReports(rs)
    ensures AllReports(Counted([r] + rs)) && AllReports(Counted(rs))
    ensures r.settle ==> ChargeAfter(start, Counted([r] + rs)) == r.usage.value.total.value
    ensures !r.settle ==>
      ChargeAfter(start, Counted([r] + rs)) == ChargeAfter(Max(r.usage.value.total.value, start), Counted(rs))
  {
    CountedAreReports([r] + rs);
    CountedAreReports(rs);
    assert ([r] + rs)[1..] == rs;
    if !r.settle {
      var tail := Counted(rs);
      assert Counted([r] + rs) == [r] + tail;
      assert ([r] + tail)[1..] == tail;
    }
  }

  /**
   Main result. Whatever else happens to the budget, an open call ends up charged with the total of its
   first settling report if there is one, and with the highest of its reservation and interim totals otherwise.
   */
  lemma {:induction false} ChargeFollowsReports(b: Budget, es: seq<Event>, key: nat)
    requires key < |b.calls| && !b.calls[key].settled
    ensures key < |Run(b, es).calls|
    ensures AllReports(ReportsOf(es, key)) && AllReports(Counted(ReportsOf(es, key)))
    ensures Run(b, es).calls[key].tokens == ChargeAfter(b.calls[key].tokens, Counted(ReportsOf(es, key)))
    decreases |es|
  {
    ReportsAreReports(es, key);
    CountedAreReports(ReportsOf(es, key));
    if es != [] {
      var e, rest := es[0], ReportsOf(es[1..], key);
      var b' := Apply(b, e);
      CallKept(b, e, key);
      ReportsAreReports(es[1..], key);
      if e.Report? && e.key == key && Meaningful(e.usage) {
        assert ReportsOf(es, key) == [e] + rest;
        CountedStep(e, rest, b.calls[key].tokens);
        if e.settle {
          SettledFrozen(b', es[1..], key);
        } else {
          ChargeFollowsReports(b', es[1..], key);
        }
      } else {
        ChargeFollowsReports(b', es[1..], key);
      }
    }
  }

  lemma ApplyRaises(b: Budget, e: Event, key: nat)
    requires Sound(b) && key < |b.calls|
    ensures key < |Apply(b, e).calls|
    ensures b.cost <= Apply(b, e).cost
    ensures b.calls[key].cost <= Apply(b, e).calls[key].cost
    ensures !Apply(b, e).calls[key].settled ==> b.calls[key].tokens <= Apply(b, e).calls[key].tokens
  {
    if e.Reserve? && CanReserve(b, e.model, e.prompt, e.output, e.now) {
      QuoteNonnegative(b.limits, e.model, e.prompt, e.output);
    }
  }

  /**
   Main result. Neither the task's cost nor any call's cost ever falls, and a charge only rises until it is
   settled.
   */
  lemma {:induction false} CostNeverFalls(b: Budget, es: seq<Event>, key: nat)
    requires Sound(b) && key < |b.calls|
    ensures key < |Run(b, es).calls|
    ensures b.cost <= Run(b, es).cost && b.calls[key].cost <= Run(b, es).calls[key].cost
    ensures !Run(b, es).calls[key].settled ==> b.calls[key].tokens <= Run(b, es).calls[key].tokens
    decreases |es|
  {
    if es != [] {
      ApplyRaises(b, es[0], key);
      ApplySound(b, es[0]);
      var b' := Apply(b, es[0]);
      CostNeverFalls(b', es[1..], key);
      if b'.calls[key].settled {
        SettledFrozen(b', es[1..], key);
      }
    }
  }

  function Total(n: nat): Option<Usage> {
    Some(Usage(Some(n), None, None))
  }

  /** Two calls reserve ten tokens each; the first is refunded in full, the second reports 25. */
  function OverrunRun(): seq<Event> {
    [Reserve("m", 6, 4, 0), Report(0, Total(0), true), Reserve("m", 6, 4, 0), Report(1, Total(25), true)]
  }

  /** The bound is met with equality: a refund is reserved again and the provider then reports 15 tokens too many. */
  lemma OverrunAttained(limits: Limits)
    requires limits.tokens == 10 && limits.requests == 2 && limits.cost == 0.0
    ensures var b := Run(NewBudget(limits, 1), OverrunRun());
      b.tokens == 25 && b.tokens == limits.tokens + Sum(b.calls, ExcessOf)
  {
    var es := OverrunRun();
    var first, second := Call(10, 0.0, None, 0, 0.0, true), Call(10, 0.0, None, 25, 0.0, true);
    var b2 := Budget(limits, 1, 1, 0, 0.0, 0, [first]);
    var b4 := Budget(limits, 1, 2, 25, 0.0, 0, [first, second]);
    RefundStep(limits);
    OverreportStep(limits, first);
    RunSplit(NewBudget(limits, 1), es[..2], es[2..]);
    assert es == es[..2] + es[2..];
    ExcessOfTwo(first, second);
  }

  lemma ExcessOfTwo(first: Call, second: Call)
    requires ExcessOf(first) == 0 && ExcessOf(second) == 15
    ensures Sum([first, second], ExcessOf) == 15
  {
    assert [first, second][..1] == [first] && [first][..0] == [];
    assert Sum([first], ExcessOf) == 0;
  }

  lemma {:induction false} RunSplit(b: Budget, es: seq<Event>, fs: seq<Event>)
    ensures Run(b, es + fs) == Run(Run(b, es), fs)
    decreases |es|
  {
    if es == [] {
      assert es + fs == fs;
    } else {
      assert (es + fs)[1..] == es[1..] + fs;
      RunSplit(Apply(b, es[0]), es[1..], fs);
    }
  }

  lemma RefundStep(limits: Limits)
    requires limits.tokens == 10 && limits.requests == 2 && limits.cost == 0.0
    ensures Run(NewBudget(limits, 1), OverrunRun()[..2])
         == Budget(limits, 1, 1, 0, 0.0, 0, [Call(10, 0.0, None, 0, 0.0, true)])
  {
    var es := OverrunRun()[..2];
    var b1 := Apply(NewBudget(limits, 1), es[0]);
    assert b1 == Budget(limits, 1, 1, 10, 0.0, 0, [Call(10, 0.0, None, 10, 0.0, false)]);
    assert Apply(b1, es[1]) == Budget(limits, 1, 1, 0, 0.0, 0, [Call(10, 0.0, None, 0, 0.0, true)]);
    assert Run(b1, es[1..]) == Apply(b1, es[1]);
  }

  lemma OverreportStep(limits: Limits, first: Call)
    requires limits.tokens == 10 && limits.requests == 2 && limits.cost == 0.0
    ensures Run(Budget(limits, 1, 1, 0, 0.0, 0, [first]), OverrunRun()[2..])
         == Budget(limits, 1, 2, 25, 0.0, 0, [first, Call(10, 0.0, None, 25, 0.0, true)])
  {
    var es := OverrunRun()[2..];
    var b3 := Apply(Budget(limits, 1, 1, 0, 0.0, 0, [first]), es[0]);
    assert b3 == Budget(limits, 1, 2, 10, 0.0, 0, [first, Call(10, 0.0, None, 10, 0.0, false)]);
    assert Apply(b3, es[1]) == Budget(limits, 1, 2, 25, 0.0, 0, [first, Call(10, 0.0, None, 25, 0.0, true)]);
    assert Run(b3, es[1..]) == Apply(b3, es[1]);
  }
}
