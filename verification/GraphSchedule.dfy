/**
 Scheduling bounds over all runs, without any guard: how many workers run at once, how
 often a node is attempted, and what a claimed node may rely on.
 */
module GraphSchedule {
  import opened Prelude
  import opened GraphTable
  import opened GraphRows
  import opened GraphMachine
  import opened GraphInvariant
  import opened GraphFencing

  // ---- running workers --------------------------------------------------------------

  function LiveRunning(t: Table, now: Time): set<Id> {
    set i | i in t && t[i].state == Running && Live(t[i], now)
  }

  /** No more live running rows than the concurrency some row was submitted with. */
  ghost predicate WithinConcurrency(t: Table, now: Time) {
    LiveRunning(t, now) != {} ==> exists j :: j in t && |LiveRunning(t, now)| <= t[j].spec.concurrency
  }

  lemma SubsetSize(a: set<Id>, b: set<Id>)
    requires a <= b
    ensures |a| <= |b|
  {
    var rest := b - a;
    assert b == a + rest;
  }

  lemma NotMoreRunning(t: Table, t': Table, before: Time, now: Time)
    requires WithinConcurrency(t, before)
    requires LiveRunning(t', now) <= LiveRunning(t, before)
    requires forall i :: i in t ==> i in t' && t'[i].spec == t[i].spec
    ensures WithinConcurrency(t', now)
  {
    SubsetSize(LiveRunning(t', now), LiveRunning(t, before));
    if LiveRunning(t', now) != {} {
      var j :| j in t && |LiveRunning(t, before)| <= t[j].spec.concurrency;
      assert t'[j].spec == t[j].spec;
    }
  }

  lemma ClaimWithin(t: Table, rows: seq<Id>, busy: set<Id>, now: Time, token: Token)
    requires WithinConcurrency(t, now)
    ensures WithinConcurrency(ClaimRows(t, rows, busy, now, token).table, now)
  {
    var c := ClaimRows(t, rows, busy, now, token);
    ClaimEffect(t, rows, busy, now, token);
    if c.claimed.None? {
      NotMoreRunning(t, c.table, now, now);
    } else {
      var i := c.claimed.value;
      assert LiveRunning(c.table, now) <= Occupied(t, now) + {i};
      SubsetSize(LiveRunning(c.table, now), Occupied(t, now) + {i});
      assert |Occupied(t, now) + {i}| <= |Occupied(t, now)| + 1 <= t[i].spec.concurrency == c.table[i].spec.concurrency;
    }
  }

  lemma RunningStays(n: Node, m: Node, now: Time)
    requires RowMove(n, m, now) && KeepsLease(n, m) && m.state == Running && Live(m, now)
    ensures n.state == Running && Live(n, now)
  {
  }

  lemma SpecStep(s: Graph, e: Event, i: Id)
    requires Inv(s) && s.clock == e.now && i in s.t
    ensures i in Apply(s, e).t && Apply(s, e).t[i].spec == s.t[i].spec
  {
    RowStep(s, e, i);
    ResultKept(s.t[i], Apply(s, e).t[i], s.clock);
  }

  lemma WasRunning(s: Graph, e: Event, i: Id)
    requires Inv(s) && s.clock == e.now && !e.ClaimNext? && i in LiveRunning(Apply(s, e).t, s.clock)
    ensures i in LiveRunning(s.t, s.clock)
  {
    var m := Apply(s, e).t[i];
    NewRowsWait(s, e, i);
    RowStep(s, e, i);
    LeaseOrigin(s, e, i);
    if !KeepsLease(s.t[i], m) {
      StartedMerge(s, e, i);
    }
    RunningStays(s.t[i], m, s.clock);
  }

  /** A row that receives the token of a merge is merging, not running. */
  lemma StartedMerge(s: Graph, e: Event, i: Id)
    requires s.clock == e.now && e.MergeStart? && i in s.t && i in Apply(s, e).t
    ensures Apply(s, e).t[i] == s.t[i] || Apply(s, e).t[i].state == Merging
  {
  }

  lemma OtherWithin(s: Graph, e: Event)
    requires Inv(s) && s.clock == e.now && !e.ClaimNext? && WithinConcurrency(s.t, s.clock)
    ensures WithinConcurrency(Apply(s, e).t, s.clock)
  {
    var t' := Apply(s, e).t;
    assert LiveRunning(t', s.clock) <= LiveRunning(s.t, s.clock) by {
      forall i | i in LiveRunning(t', s.clock)
        ensures i in LiveRunning(s.t, s.clock)
      {
        WasRunning(s, e, i);
      }
    }
    forall i | i in s.t
      ensures i in t' && t'[i].spec == s.t[i].spec
    {
      SpecStep(s, e, i);
    }
    NotMoreRunning(s.t, t', s.clock, s.clock);
  }

  /** A row an event inserts is not running. */
  lemma NewRowsWait(s: Graph, e: Event, i: Id)
    requires Inv(s) && s.clock == e.now && i in Apply(s, e).t && Apply(s, e).t[i].state == Running
    ensures i in s.t
  {
    if !e.Submit? && !e.ReviewInsert? && !e.HumanRequeue? { SteadyStep(s, e); }
  }

  lemma WithinApply(s: Graph, e: Event)
    requires Inv(s) && s.clock == e.now && WithinConcurrency(s.t, s.clock)
    ensures WithinConcurrency(Apply(s, e).t, s.clock)
  {
    if e.ClaimNext? {
      ClaimWithin(s.t, e.rows, e.busy, e.now, e.token);
    } else {
      OtherWithin(s, e);
    }
  }

  lemma WithinNext(s: Graph, e: Event)
    requires Inv(s) && WithinConcurrency(s.t, s.clock)
    ensures WithinConcurrency(Next(s, e).t, Next(s, e).clock)
  {
    if s.clock <= e.now {
      TickInv(s, e.now);
      NotMoreRunning(s.t, s.t, s.clock, e.now);
      WithinApply(s.(clock := e.now), e);
      ClockStays(s.(clock := e.now), e);
    }
  }

  lemma ClockStays(s: Graph, e: Event)
    requires s.clock == e.now
    ensures Apply(s, e).clock == s.clock
  {
  }

  lemma {:induction false} WithinRun(s: Graph, es: seq<Event>)
    requires Inv(s) && WithinConcurrency(s.t, s.clock)
    ensures WithinConcurrency(Run(s, es).t, Run(s, es).clock)
    decreases |es|
  {
    if es != [] {
      WithinNext(s, es[0]);
      InvNext(s, es[0]);
      WithinRun(Next(s, es[0]), es[1..]);
    }
  }

  /** Main result. At most as many live workers run as the largest concurrency of any node allows. */
  lemma RunningBounded(s: Graph, limit: nat)
    requires Reachable(s) && forall j :: j in s.t ==> s.t[j].spec.concurrency <= limit
    ensures |LiveRunning(s.t, s.clock)| <= limit
  {
    var es :| Run(INIT, es) == s;
    WithinRun(INIT, es);
  }

  // ---- attempts and dependencies ----------------------------------------------------

  /** A row waits in the queue with an attempt left, and never has more than three besides human requeues. */
  predicate AttemptsOk(n: Node, requeues: nat) {
    n.attempts <= MAX_ATTEMPTS + requeues && (n.state == Queued ==> n.attempts < MAX_ATTEMPTS + requeues)
  }

  ghost predicate AttemptsBounded(s: Graph) {
    forall i :: i in s.t ==> AttemptsOk(s.t[i], RequeueCount(s, i))
  }

  lemma AttemptsMove(n: Node, m: Node, requeues: nat, now: Time)
    requires SteadyMove(n, m, now) && AttemptsOk(n, requeues)
    ensures AttemptsOk(m, requeues)
  {
  }

  lemma RequeuesKept(s: Graph, e: Event)
    requires s.clock == e.now
    ensures e.HumanRequeue? || Apply(s, e).requeues == s.requeues
  {
  }

  lemma AttemptsApply(s: Graph, e: Event)
    requires Inv(s) && s.clock == e.now && AttemptsBounded(s)
    ensures AttemptsBounded(Apply(s, e))
  {
    RequeuesKept(s, e);
    if e.Submit? || e.ReviewInsert? {
      InsertAttempts(s, e);
    } else if e.HumanRequeue? {
      RequeueAttempts(s, e);
    } else {
      SteadyStep(s, e);
      forall i | i in Apply(s, e).t
        ensures AttemptsOk(Apply(s, e).t[i], RequeueCount(s, i))
      {
        AttemptsMove(s.t[i], Apply(s, e).t[i], RequeueCount(s, i), s.clock);
      }
    }
  }

  lemma InsertAttempts(s: Graph, e: Event)
    requires s.clock == e.now && AttemptsBounded(s) && (e.Submit? || e.ReviewInsert?)
    ensures AttemptsBounded(Apply(s, e))
  {
  }

  lemma RequeueAttempts(s: Graph, e: Event)
    requires s.clock == e.now && AttemptsBounded(s) && e.HumanRequeue?
    ensures AttemptsBounded(Apply(s, e))
  {
  }

  /** Whoever was claimed has dependencies with a published result. */
  ghost predicate DependenciesPublished(t: Table) {
    forall i, d :: i in t && t[i].attempts > 0 && d in t[i].spec.deps ==> d in t && t[d].result.Some?
  }

  lemma DependenciesStay(s: Graph, e: Event, i: Id, d: Id)
    requires Inv(s) && s.clock == e.now && DependenciesPublished(s.t)
    requires i in s.t && i in Apply(s, e).t && Apply(s, e).t[i].attempts > 0 && d in Apply(s, e).t[i].spec.deps
    ensures d in Apply(s, e).t && Apply(s, e).t[d].result.Some?
  {
    RowStep(s, e, i);
    ResultKept(s.t[i], Apply(s, e).t[i], s.clock);
    if s.t[i].attempts == 0 {
      OnlyClaimsCount(s, e, i);
      ClaimedDependency(s, e, i, d);
    }
    RowStep(s, e, d);
    ResultKept(s.t[d], Apply(s, e).t[d], s.clock);
  }

  lemma ClaimedDependency(s: Graph, e: Event, i: Id, d: Id)
    requires Inv(s) && s.clock == e.now && e.ClaimNext?
    requires i in s.t && d in s.t[i].spec.deps && i in Apply(s, e).t && Apply(s, e).t[i].attempts != s.t[i].attempts
    ensures d in s.t && s.t[d].result.Some?
  {
    ClaimEffect(s.t, e.rows, e.busy, e.now, e.token);
    assert RowOk(s.t[d], s.clock);
  }

  lemma OnlyClaimsCount(s: Graph, e: Event, i: Id)
    requires Inv(s) && s.clock == e.now && i in s.t && i in Apply(s, e).t
    requires Apply(s, e).t[i].attempts != s.t[i].attempts
    ensures e.ClaimNext?
  {
    RowStep(s, e, i);
    ResultKept(s.t[i], Apply(s, e).t[i], s.clock);
    LeaseOrigin(s, e, i);
    if e.MergeStart? { StartedMerge(s, e, i); }
  }

  lemma DependenciesApply(s: Graph, e: Event)
    requires Inv(s) && s.clock == e.now && DependenciesPublished(s.t)
    ensures DependenciesPublished(Apply(s, e).t)
  {
    var t' := Apply(s, e).t;
    forall i, d | i in t' && t'[i].attempts > 0 && d in t'[i].spec.deps
      ensures d in t' && t'[d].result.Some?
    {
      DependencyStays(s, e, i, d);
    }
  }

  lemma DependencyStays(s: Graph, e: Event, i: Id, d: Id)
    requires Inv(s) && s.clock == e.now && DependenciesPublished(s.t)
    requires i in Apply(s, e).t && Apply(s, e).t[i].attempts > 0 && d in Apply(s, e).t[i].spec.deps
    ensures d in Apply(s, e).t && Apply(s, e).t[d].result.Some?
  {
    if i in s.t { DependenciesStay(s, e, i, d); } else { NewRowsUntried(s, e, i); }
  }

  lemma NewRowsUntried(s: Graph, e: Event, i: Id)
    requires Inv(s) && s.clock == e.now && i in Apply(s, e).t && i !in s.t
    ensures Apply(s, e).t[i].attempts == 0
  {
    if !e.Submit? && !e.ReviewInsert? && !e.HumanRequeue? { SteadyStep(s, e); }
  }

  lemma {:induction false} ScheduleRun(s: Graph, es: seq<Event>)
    requires Inv(s) && AttemptsBounded(s) && DependenciesPublished(s.t)
    ensures AttemptsBounded(Run(s, es)) && DependenciesPublished(Run(s, es).t)
    decreases |es|
  {
    if es != [] {
      if s.clock <= es[0].now {
        TickInv(s, es[0].now);
        AttemptsApply(s.(clock := es[0].now), es[0]);
        DependenciesApply(s.(clock := es[0].now), es[0]);
      }
      InvNext(s, es[0]);
      ScheduleRun(Next(s, es[0]), es[1..]);
    }
  }

  lemma ScheduleReachable(s: Graph)
    requires Reachable(s)
    ensures AttemptsBounded(s) && DependenciesPublished(s.t)
  {
    var es :| Run(INIT, es) == s;
    ScheduleRun(INIT, es);
  }

  /** Main result. A node is attempted at most three times besides its human requeues. */
  lemma AttemptsLimited(s: Graph, i: Id)
    requires Reachable(s) && i in s.t
    ensures s.t[i].attempts <= MAX_ATTEMPTS + RequeueCount(s, i)
  {
    ScheduleReachable(s);
    assert AttemptsOk(s.t[i], RequeueCount(s, i));
  }

  /** Main result. Whoever was ever claimed depends only on nodes that carry a published result. */
  lemma ClaimedDependenciesPublished(s: Graph, i: Id, d: Id)
    requires Reachable(s) && i in s.t && s.t[i].attempts > 0 && d in s.t[i].spec.deps
    ensures d in s.t && s.t[d].result.Some?
  {
    ScheduleReachable(s);
  }
}
