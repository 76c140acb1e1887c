/**
 The budget of one root task as an object over its stored row, and the stream wrapper that
 reports a call's usage while the provider is still answering.
 */
module TaskBudgets {
  import opened Prelude
  import opened Ledger

  datatype Reservation = Reserved(key: nat) | Exhausted(reasons: set<Reason>) | InvalidRates

  datatype Reason = DeadlinePassed | RequestsSpent | TokensSpent | CostSpent | RatesMissing

  /** The output tokens of a report; a missing or senseless count is the rest of the total. */
  function OutputOf(u: Usage): int
    requires u.total.Some? && u.prompt.Some?
  {
    if u.output.Some? && u.output.value >= 0 then u.output.value
    else if u.total.value > u.prompt.value then u.total.value - u.prompt.value
    else 0
  }

  /** A million times what the report costs at the rates of its call. */
  function Bill(rate: Rates, u: Usage): real
    requires u.total.Some? && u.prompt.Some?
  {
    u.prompt.value as real * rate.input + OutputOf(u) as real * rate.output
  }

  lemma PriceIsBill(rate: Rates, u: Usage, output: nat)
    requires u.total.Some? && u.prompt.Some? && u.prompt.value >= 0 && output == OutputOf(u)
    ensures Price(rate, u.prompt.value, output) * 1000000.0 == Bill(rate, u)
  {
  }

  class TaskBudget {
    const limits: Limits
    const deadline: Time
    var requests: nat
    var tokens: int
    var cost: real
    var children: nat
    var calls: seq<Call>

    function Row(): Budget
      reads this
    {
      Budget(limits, deadline, requests, tokens, cost, children, calls)
    }

    constructor (limits: Limits, deadline: Time)
      ensures Row() == NewBudget(limits, deadline)
    {
      this.limits, this.deadline := limits, deadline;
      requests, tokens, cost, children, calls := 0, 0, 0.0, 0, [];
    }

    /** Raises (returns false) once the deadline has passed or a limit is exceeded. */
    method Check(now: Time) returns (ok: bool)
      ensures ok == (deadline > now && !OverLimit(Row()))
      ensures ok <==> now < deadline && tokens <= limits.tokens && (limits.cost != 0.0 ==> cost <= limits.cost)
    {
      ok := deadline > now && tokens <= limits.tokens && (limits.cost == 0.0 || cost <= limits.cost);
    }

    /** Charges a call before it is made; a refused reservation charges nothing and says why. */
    method Reserve(model: string, prompt: nat, output: nat, now: Time) returns (r: Reservation)
      modifies this
      ensures Row() == ReserveRow(old(Row()), model, prompt, output, now)
      ensures r.Reserved? == CanReserve(old(Row()), model, prompt, output, now)
      ensures r.Reserved? ==>
        && r.key == |old(calls)| && |calls| == r.key + 1 && !calls[r.key].settled
        && calls[r.key].tokens == prompt + output
        && tokens == old(tokens) + prompt + output && requests == old(requests) + 1
        && cost == old(cost) + calls[r.key].cost
      ensures r.Reserved? ==>
        && deadline > now && requests <= limits.requests && tokens <= limits.tokens
        && (limits.cost != 0.0 ==> cost <= limits.cost)
      ensures r.Reserved? && limits.cost == 0.0 ==> calls[r.key].cost == 0.0
      ensures r.Reserved? && limits.cost != 0.0 ==>
        && model in limits.rates && calls[r.key].rates == Some(limits.rates[model])
        && var rate := limits.rates[model];
           calls[r.key].cost * 1000000.0 == prompt as real * rate.input + output as real * rate.output
      ensures !r.Reserved? ==> Row() == old(Row())
      ensures r.Exhausted? ==> r.reasons != {}
      ensures r.Exhausted? && RatesMissing in r.reasons ==> r.reasons == {RatesMissing}
      ensures r.Exhausted? ==> (RatesMissing in r.reasons <==> limits.cost != 0.0 && model !in limits.rates)
      ensures r.Exhausted? && RatesMissing !in r.reasons ==>
        && (DeadlinePassed in r.reasons <==> deadline <= now)
        && (RequestsSpent in r.reasons <==> old(requests) >= limits.requests)
        && (TokensSpent in r.reasons <==> old(tokens) + prompt + output > limits.tokens)
        && (CostSpent in r.reasons <==>
              && limits.cost != 0.0 && model in limits.rates
              && var rate := limits.rates[model];
                 old(cost) * 1000000.0 + prompt as real * rate.input + output as real * rate.output
                 > limits.cost * 1000000.0)
      ensures r.InvalidRates? == (limits.cost != 0.0 && model in limits.rates &&
        (limits.rates[model].input < 0.0 || limits.rates[model].output < 0.0))
    {
      var price, rates := 0.0, None;
      if limits.cost != 0.0 {
        if model !in limits.rates { return Exhausted({RatesMissing}); }
        var rate := limits.rates[model];
        if rate.input < 0.0 || rate.output < 0.0 { return InvalidRates; }
        price, rates := Price(rate, prompt, output), Some(rate);
      }
      var reasons: set<Reason> := {};
      if deadline <= now { reasons := reasons + {DeadlinePassed}; }
      if requests >= limits.requests { reasons := reasons + {RequestsSpent}; }
      if tokens + prompt + output > limits.tokens { reasons := reasons + {TokensSpent}; }
      if limits.cost != 0.0 && cost + price > limits.cost { reasons := reasons + {CostSpent}; }
      if reasons != {} { return Exhausted(reasons); }
      r := Reserved(|calls|);
      requests, tokens, cost := requests + 1, tokens + prompt + output, cost + price;
      calls := calls + [Call(prompt + output, price, rates, prompt + output, price, false)];
    }

    /** Adjusts a call's charge to reported usage; the adjustment stays even when `over` raises. */
    method Reconcile(key: nat, usage: Option<Usage>, settle: bool) returns (over: bool)
      modifies this
      ensures Row() == ReconcileRow(old(Row()), key, usage, settle)
      ensures over == (CanReconcile(old(Row()), key, usage) && OverLimit(Row()))
      ensures over ==> tokens > limits.tokens || (limits.cost != 0.0 && cost > limits.cost)
      ensures CanReconcile(old(Row()), key, usage) && !over ==>
        tokens <= limits.tokens && (limits.cost != 0.0 ==> cost <= limits.cost)
      ensures CanReconcile(old(Row()), key, usage) ==>
        var u, before, after := usage.value, old(calls)[key], calls[key];
        && (settle ==> after.tokens == u.total.value && after.settled)
        && (!settle ==>
              after.tokens >= u.total.value && after.tokens in {u.total.value, before.tokens} && !after.settled)
        && after.tokens >= (if settle then 0 else before.tokens)
        && tokens == old(tokens) + after.tokens - before.tokens && cost == old(cost) + after.cost - before.cost
      ensures CanReconcile(old(Row()), key, usage) ==>
        var u, before, after := usage.value, old(calls)[key], calls[key];
        if limits.cost != 0.0 && before.rates.Some? && u.prompt.Some? && u.prompt.value >= 0 then
          after.cost * 1000000.0 ==
            if Bill(before.rates.value, u) > before.cost * 1000000.0 then Bill(before.rates.value, u)
            else before.cost * 1000000.0
        else after.cost == before.cost
    {
      if usage.None? || usage.value.total.None? || usage.value.total.value < 0 { return false; }
      if key >= |calls| || calls[key].settled { return false; }
      var u, call := usage.value, calls[key];
      var charged := if settle then u.total.value else Max(u.total.value, call.tokens);
      var actual := call.cost;
      if limits.cost != 0.0 && call.rates.Some? && u.prompt.Some? && u.prompt.value >= 0 {
        var output := if u.output.Some? && u.output.value >= 0 then u.output.value
                      else Max(0, u.total.value - u.prompt.value);
        PriceIsBill(call.rates.value, u, output);
        actual := MaxCost(actual, Price(call.rates.value, u.prompt.value, output));
      }
      tokens, cost := tokens + (charged - call.tokens), cost + (actual - call.cost);
      calls := calls[key := call.(tokens := charged, cost := actual, settled := settle)];
      over := tokens > limits.tokens || (limits.cost != 0.0 && cost > limits.cost);
    }

    /** A child of a task at `parentDepth`. */
    method ReserveChild(parentDepth: nat, now: Time) returns (ok: bool)
      modifies this
      ensures ok == CanReserveChild(old(Row()), parentDepth, now)
      ensures Row() == AddChild(old(Row()), ok)
      ensures ok <==> now < deadline && old(children) < limits.children && parentDepth < limits.depth
      ensures children == old(children) + if ok then 1 else 0
    {
      ok := !(deadline <= now || children >= limits.children || parentDepth >= limits.depth);
      if ok { children := children + 1; }
    }

    /** The coordinator counts a node against the same limits, but compares the node's own depth. */
    method AdmitNode(depth: nat, now: Time) returns (ok: bool)
      requires depth > 0
      modifies this
      ensures ok == CanReserveChild(old(Row()), depth - 1, now)
      ensures Row() == AddChild(old(Row()), ok)
      ensures ok <==> now < deadline && old(children) < limits.children && depth <= limits.depth
      ensures children == old(children) + if ok then 1 else 0
    {
      ok := !(deadline <= now || children >= limits.children || depth > limits.depth);
      if ok { children := children + 1; }
    }
  }

  // ---- a streamed call --------------------------------------------------------------

  /**
   One chunk: the usage it carries, when it is read, and whether the stream was closed or its monitor failed by
   then.
   */
  datatype Chunk = Chunk(usage: Option<Usage>, now: Time, interrupted: bool)

  /** `Broken(true)`: the stream ended and was settled, but the budget is now over its limit or past its deadline. */
  datatype StreamEnd = Finished | Broken(settled: bool)

  /** The usage objects the first `n` chunks carry, in order. */
  function Interim(chunks: seq<Chunk>, n: nat, key: nat): seq<Event>
    requires n <= |chunks|
  {
    if n == 0 then []
    else
      var before := Interim(chunks, n - 1, key);
      if chunks[n - 1].usage.Some? then before + [Report(key, chunks[n - 1].usage, false)] else before
  }

  function LastUsage(chunks: seq<Chunk>, n: nat): Option<Usage>
    requires n <= |chunks|
  {
    if n == 0 then None
    else if chunks[n - 1].usage.Some? then chunks[n - 1].usage
    else LastUsage(chunks, n - 1)
  }

  /** Everything the wrapper reports when it stops after `read` chunks. */
  function Reports(chunks: seq<Chunk>, read: nat, key: nat, end: StreamEnd): seq<Event>
    requires read <= |chunks|
  {
    if end.Finished? || end.settled then Interim(chunks, read, key) + [Report(key, LastUsage(chunks, read), true)]
    else Interim(chunks, read, key)
  }

  /** `u` is the usage of the last of the first `n` chunks that carry one. */
  predicate IsLast(chunks: seq<Chunk>, n: nat, u: Option<Usage>)
    requires n <= |chunks|
  {
    if u.None? then forall i :: 0 <= i < n ==> chunks[i].usage.None?
    else exists i :: 0 <= i < n && chunks[i].usage == u && forall j :: i < j < n ==> chunks[j].usage.None?
  }

  lemma {:induction false} LastUsageExact(chunks: seq<Chunk>, n: nat)
    requires n <= |chunks|
    ensures IsLast(chunks, n, LastUsage(chunks, n))
    decreases n
  {
    if n > 0 {
      LastUsageExact(chunks, n - 1);
      if chunks[n - 1].usage.None? && LastUsage(chunks, n - 1).Some? {
        var u := LastUsage(chunks, n - 1);
        var i :| 0 <= i < n - 1 && chunks[i].usage == u && forall j :: i < j < n - 1 ==> chunks[j].usage.None?;
        assert forall j :: i < j < n ==> chunks[j].usage.None?;
      }
    }
  }

  /** An open call is charged with the highest of its first charge and the totals that the first `n` chunks report. */
  predicate HighestCharged(first: Call, call: Call, chunks: seq<Chunk>, n: nat)
    requires n <= |chunks|
  {
    && !call.settled && call.tokens >= first.tokens
    && (forall i :: 0 <= i < n && Meaningful(chunks[i].usage) ==> call.tokens >= chunks[i].usage.value.total.value)
    && (call.tokens == first.tokens ||
        exists i :: 0 <= i < n && Meaningful(chunks[i].usage) && call.tokens == chunks[i].usage.value.total.value)
  }

  lemma {:induction false} InterimCharges(b: Budget, chunks: seq<Chunk>, n: nat, key: nat)
    requires n <= |chunks| && key < |b.calls| && !b.calls[key].settled
    ensures var t := Run(b, Interim(chunks, n, key));
      key < |t.calls| && HighestCharged(b.calls[key], t.calls[key], chunks, n)
    decreases n
  {
    if n > 0 {
      InterimCharges(b, chunks, n - 1, key);
      if chunks[n - 1].usage.Some? {
        RunAppend(b, Interim(chunks, n - 1, key), Report(key, chunks[n - 1].usage, false));
      }
    }
  }

  lemma RunAppend(b: Budget, es: seq<Event>, e: Event)
    ensures Run(b, es + [e]) == Apply(Run(b, es), e)
  {
    RunSplit(b, es, [e]);
    assert Run(Run(b, es), [e]) == Run(Apply(Run(b, es), e), []);
  }

  /**
   Reads a provider's stream: every usage report raises the charge at once, and only a stream that ends
   normally settles the call, at the last usage it carried. A stream that breaks off leaves the call open
   and charged with the highest figure seen.
   */
  method ReadStream(b: TaskBudget, key: nat, chunks: seq<Chunk>, closedAtEnd: bool, now: Time)
    returns (end: StreamEnd, read: nat)
    requires key < |b.calls| && !b.calls[key].settled
    modifies b
    ensures read <= |chunks|
    ensures (end.Finished? || end.settled) ==> read == |chunks|
    ensures b.Row() == Run(old(b.Row()), Reports(chunks, read, key, end))
    ensures key < |b.calls|
    ensures (end.Finished? || end.settled) && Meaningful(LastUsage(chunks, read)) ==>
      IsLast(chunks, read, LastUsage(chunks, read)) &&
      b.calls[key].settled && b.calls[key].tokens == LastUsage(chunks, read).value.total.value
    ensures end == Broken(false) || !Meaningful(LastUsage(chunks, read)) ==>
      HighestCharged(old(b.calls)[key], b.calls[key], chunks, read)
    ensures end.Finished? ==> !closedAtEnd && forall i :: 0 <= i < |chunks| ==> !chunks[i].interrupted
    ensures end.Finished? ==>
      now < b.deadline && b.tokens <= b.limits.tokens && (b.limits.cost != 0.0 ==> b.cost <= b.limits.cost)
  {
    ghost var start := b.Row();
    assert start.calls == b.calls;
    var usage: Option<Usage> := None;
    read := 0;
    while read < |chunks|
      invariant read <= |chunks| && usage == LastUsage(chunks, read)
      invariant b.Row() == Run(start, Interim(chunks, read, key))
      invariant forall i :: 0 <= i < read ==> !chunks[i].interrupted
    {
      InterimCharges(start, chunks, read, key);
      var chunk := chunks[read];
      var ok := b.Check(chunk.now);
      if !ok || chunk.interrupted { return Broken(false), read; }
      if chunk.usage.Some? {
        usage := chunk.usage;
        RunAppend(start, Interim(chunks, read, key), Report(key, usage, false));
        var over := b.Reconcile(key, usage, false);
        if over {
          InterimCharges(start, chunks, read + 1, key);
          return Broken(false), read + 1;
        }
      }
      read := read + 1;
    }
    InterimCharges(start, chunks, read, key);
    if closedAtEnd { return Broken(false), read; }
    LastUsageExact(chunks, read);
    RunAppend(start, Interim(chunks, read, key), Report(key, usage, true));
    var over := b.Reconcile(key, usage, true);
    var ok := b.Check(now);
    end := if over || !ok then Broken(true) else Finished;
  }
}
