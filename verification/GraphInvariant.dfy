/**
 The invariant of every reachable graph, without any condition on the run: rows are
 well formed, edges point to older rows, and a lease token belongs to one claim or
 merge of exactly the row that holds it.
 */
module GraphInvariant {
  import opened Prelude
  import opened GraphTable
  import opened GraphRows
  import opened GraphMachine

  type Specs = map<Id, Spec>

  function SpecsOf(t: Table): Specs {
    map i | i in t :: t[i].spec
  }

  predicate Older(x: Specs, n: Spec, p: Id) {
    p in x && x[p].rowid < n.rowid && x[p].owner == n.owner
  }

  predicate EdgesOk(x: Specs, n: Spec) {
    && (n.parent.Some? ==> Older(x, n, n.parent.value))
    && (forall d :: d in n.deps ==> Older(x, n, d))
    && (n.reviewOf.Some? ==>
          Older(x, n, n.reviewOf.value) && n.persona == Reviewer && n.deps == [n.reviewOf.value] &&
          x[n.reviewOf.value].persona == Coder)
  }

  ghost predicate EdgesPointBack(x: Specs) {
    forall i :: i in x ==> x[i].rowid < |x| && EdgesOk(x, x[i])
  }

  ghost predicate RowidsUnique(x: Specs) {
    forall i, j :: i in x && j in x && x[i].rowid == x[j].rowid ==> i == j
  }

  ghost predicate ReviewersUnique(x: Specs) {
    forall i, j :: i in x && j in x && x[i].reviewOf.Some? && x[i].reviewOf == x[j].reviewOf ==> i == j
  }

  ghost predicate Shape(x: Specs) {
    EdgesPointBack(x) && RowidsUnique(x) && ReviewersUnique(x)
  }

  ghost predicate RowsOk(t: Table, now: Time) {
    forall i :: i in t ==> RowOk(t[i], now)
  }

  /** A held token was issued once, to a claim or to a merge of this very row. */
  predicate LeaseOk(workers: map<Token, Worker>, merges: map<Token, MergeTicket>, i: Id, n: Node) {
    n.lease.Some? ==>
      var k := n.lease.value.token;
      || (k in workers && workers[k].id == i && workers[k].copy.attempts == n.attempts)
      || (k in merges && merges[k].id == i && n.state != Running)
  }

  ghost predicate LeasesOk(s: Graph) {
    forall i :: i in s.t ==> LeaseOk(s.workers, s.merges, i, s.t[i])
  }

  ghost predicate TokensOk(s: Graph) {
    && s.workers.Keys <= s.issued && s.merges.Keys <= s.issued && s.workers.Keys !! s.merges.Keys
    && (forall k :: k in s.workers ==> s.workers[k].id in s.t && s.workers[k].copy.spec == s.t[s.workers[k].id].spec)
  }

  predicate ReviewReadOk(t: Table, r: ReviewTicket) {
    r.coder in t && r.row.spec == t[r.coder].spec && r.row.spec.persona == Coder
  }

  predicate MergeReadOk(t: Table, r: MergeTicket) {
    r.id in t && t[r.id].spec.persona == Coder && Verified(r.result)
  }

  ghost predicate ReadsOk(s: Graph) {
    && (forall r :: r in s.reviewReads ==> ReviewReadOk(s.t, r))
    && (forall r :: r in s.mergeReads ==> MergeReadOk(s.t, r))
    && (forall k :: k in s.merges ==> MergeReadOk(s.t, s.merges[k]))
  }

  ghost predicate Inv(s: Graph) {
    Shape(SpecsOf(s.t)) && RowsOk(s.t, s.clock) && TokensOk(s) && LeasesOk(s) && ReadsOk(s)
  }

  // ---- pieces that survive ----------------------------------------------------------

  lemma MovedSpecs(t: Table, t': Table, now: Time)
    requires Moved(t, t', now)
    ensures SpecsOf(t') == SpecsOf(t)
  {
    forall i | i in t
      ensures t'[i].spec == t[i].spec
    {
      ResultKept(t[i], t'[i], now);
    }
  }

  lemma MovedRows(t: Table, t': Table, before: Time, now: Time)
    requires RowsOk(t, before) && before <= now && Moved(t, t', now)
    ensures RowsOk(t', now)
  {
    forall i | i in t'
      ensures RowOk(t'[i], now)
    {
      RowStaysOk(t[i], t'[i], before, now);
    }
  }

  /** The row keeps its token and its attempt count (only a running row is extended), or drops the lease. */
  predicate KeepsLease(n: Node, m: Node) {
    m.lease.Some? ==>
      n.lease.Some? && m.lease.value.token == n.lease.value.token && m.attempts == n.attempts &&
      (m.state == Running || m.lease != n.lease ==> n.state == Running)
  }

  ghost predicate Keeps(t: Table, t': Table) {
    t'.Keys == t.Keys && forall i :: i in t ==> KeepsLease(t[i], t'[i])
  }

  ghost predicate SameTokens(s: Graph, s': Graph) {
    && s'.clock == s.clock && s'.issued == s.issued && s'.workers == s.workers && s'.merges == s.merges
    && s'.reviewReads == s.reviewReads && s'.mergeReads == s.mergeReads
  }

  lemma KeptTokens(s: Graph, s': Graph)
    requires TokensOk(s) && LeasesOk(s) && ReadsOk(s) && SameTokens(s, s')
    requires Keeps(s.t, s'.t) && SpecsOf(s'.t) == SpecsOf(s.t)
    ensures TokensOk(s') && LeasesOk(s') && ReadsOk(s')
  {
    assert forall i :: i in s.t ==> SpecsOf(s.t)[i] == s.t[i].spec && SpecsOf(s'.t)[i] == s'.t[i].spec;
  }

  /** A transaction that issues no token and only moves rows keeps the invariant. */
  lemma MovedInv(s: Graph, s': Graph)
    requires Inv(s) && Moved(s.t, s'.t, s.clock) && Keeps(s.t, s'.t) && SameTokens(s, s')
    ensures Inv(s')
  {
    MovedSpecs(s.t, s'.t, s.clock);
    MovedRows(s.t, s'.t, s.clock, s.clock);
    KeptTokens(s, s');
  }

  lemma BaseIsTame(t: Table, t': Table, now: Time)
    requires BaselyMoved(t, t', now)
    ensures TamelyMoved(t, t', now) && Moved(t, t', now) && Keeps(t, t')
  {
    forall i | i in t
      ensures TameMove(t[i], t'[i], now) && KeepsLease(t[i], t'[i])
    {
      assert BaseMove(t[i], t'[i], now);
    }
  }

  lemma TickInv(s: Graph, now: Time)
    requires Inv(s) && s.clock <= now
    ensures Inv(s.(clock := now))
  {
    MovedRows(s.t, s.t, s.clock, now);
  }

  lemma SpecsLookup(t: Table)
    ensures SpecsOf(t).Keys == t.Keys && |SpecsOf(t)| == |t|
    ensures forall i :: i in t ==> SpecsOf(t)[i] == t[i].spec
  {
    assert SpecsOf(t).Keys == t.Keys;
    assert |SpecsOf(t)| == |SpecsOf(t).Keys| && |t| == |t.Keys|;
  }

  lemma WorkerSpec(s: Graph, token: Token)
    requires Inv(s) && token in s.workers
    ensures var w := s.workers[token];
      w.id in s.t && s.t[w.id].spec == w.copy.spec && w.copy.spec.reviewOf != Some(w.id) &&
      (CanFail(s.t, w.id, token) ==> s.t[w.id].attempts == w.copy.attempts)
  {
    var w := s.workers[token];
    assert EdgesOk(SpecsOf(s.t), SpecsOf(s.t)[w.id]);
    assert LeaseOk(s.workers, s.merges, w.id, s.t[w.id]);
  }

  // ---- transactions with base moves only --------------------------------------------

  /** Events whose transaction issues no token, accepts no coder and sends none back from review. */
  predicate BaseEvent(e: Event) {
    e.Recover? || e.Cancel? || e.Renew? || e.Fail? || e.MergeConflict? || e.MergeAbort? || e.HumanAbandon?
  }

  lemma BaseWorker(s: Graph, e: Event)
    requires Inv(s) && s.clock == e.now && (e.Renew? || e.Fail?)
    ensures BaselyMoved(s.t, Apply(s, e).t, s.clock)
  {
    if e.token in s.workers {
      var w := s.workers[e.token];
      WorkerSpec(s, e.token);
      if e.Renew? {
        RenewMoved(s.t, w.id, e.token, e.now);
      } else {
        FailMoved(s.t, w.id, e.token, w.copy, e.stop, e.now);
      }
    }
  }

  lemma BaseSweep(s: Graph, e: Event)
    requires s.clock == e.now && (e.Recover? || e.Cancel?)
    ensures BaselyMoved(s.t, Apply(s, e).t, s.clock)
  {
    if e.Recover? {
      RecoverMoved(s.t, s.children, e.stoppedRoots, e.now);
    } else {
      CancelMoved(s.t, e.owner, e.id, e.now);
    }
  }

  lemma BaseMerge(s: Graph, e: Event)
    requires Inv(s) && s.clock == e.now && (e.MergeConflict? || e.MergeAbort?)
    ensures BaselyMoved(s.t, Apply(s, e).t, s.clock)
  {
    if e.MergeConflict? {
      MergeConflictMoved(s.t, e.read.id, e.now);
    } else if e.token in s.merges {
      assert MergeReadOk(s.t, s.merges[e.token]);
      MergeAbortMoved(s.t, s.merges[e.token].id, e.token, e.now);
    }
  }

  lemma BaseStep(s: Graph, e: Event)
    requires Inv(s) && s.clock == e.now && BaseEvent(e)
    ensures BaselyMoved(s.t, Apply(s, e).t, s.clock)
  {
    if e.Recover? || e.Cancel? {
      BaseSweep(s, e);
    } else if e.Renew? || e.Fail? {
      BaseWorker(s, e);
    } else if e.MergeConflict? || e.MergeAbort? {
      BaseMerge(s, e);
    } else {
      AbandonMoved(s.t, e.id, e.now);
    }
  }

  /** Reads, and steps of a node's task. */
  /** Events that concern tasks and the reads of humans and supervisors, and leave every row alone. */
  predicate TaskEvent(e: Event) {
    e.HumanRead? || e.HumanMark? || e.HumanAct? || e.TaskClaim? || e.TaskCheck? || e.TaskStart? || e.TaskStep? ||
      e.ExitRead?
  }

  predicate QuietEvent(e: Event) {
    e.ReviewRead? || e.MergeRead? || TaskEvent(e)
  }

  lemma ReadsLeaveTable(s: Graph, e: Event)
    requires s.clock == e.now && QuietEvent(e)
    ensures Apply(s, e).t == s.t
  {
  }

  lemma TameIssue(s: Graph, e: Event)
    requires s.clock == e.now && (e.ClaimNext? || e.MergeStart?)
    ensures TamelyMoved(s.t, Apply(s, e).t, s.clock)
  {
    if e.ClaimNext? {
      ClaimMoved(s.t, e.rows, e.busy, e.now, e.token);
    } else {
      MergeStartMoved(s.t, e.read.id, e.token, e.now);
    }
  }

  lemma SteadyEnd(s: Graph, e: Event)
    requires Inv(s) && s.clock == e.now && (e.Publish? || e.MergeFinish? || e.ReviewDemote?)
    ensures SteadilyMoved(s.t, Apply(s, e).t, s.clock)
  {
    if e.ReviewDemote? {
      DemoteMoved(s.t, e.ticket.coder, e.now);
    } else if e.Publish? {
      if Publishes(s, e) {
        var w := s.workers[e.token];
        WorkerSpec(s, e.token);
        PublishMoved(s.t, w.id, e.token, w.copy, e.outcome, e.rootStopped, e.now);
      }
    } else if e.token in s.merges {
      var r := s.merges[e.token];
      assert MergeReadOk(s.t, r);
      MergeFinishMoved(s.t, r.id, e.token, r.result, e.record, e.now);
    }
  }

  /** Every transaction other than an insertion and a human requeue. */
  lemma SteadyStep(s: Graph, e: Event)
    requires Inv(s) && s.clock == e.now && !e.Submit? && !e.ReviewInsert? && !e.HumanRequeue?
    ensures SteadilyMoved(s.t, Apply(s, e).t, s.clock)
  {
    if BaseEvent(e) {
      BaseStep(s, e);
    } else if e.ClaimNext? || e.MergeStart? {
      TameIssue(s, e);
    } else if e.Publish? || e.MergeFinish? || e.ReviewDemote? {
      SteadyEnd(s, e);
    } else {
      ReadsLeaveTable(s, e);
    }
  }

  lemma BaseTokens(s: Graph, e: Event)
    requires s.clock == e.now && BaseEvent(e)
    ensures SameTokens(s, Apply(s, e))
  {
    match e
    case Recover(_, _) =>
    case Cancel(_, _, _) =>
    case Renew(_, _) => RenewTokens(s, e);
    case Fail(_, _, _) => FailTokens(s, e);
    case MergeConflict(_, _) =>
    case MergeAbort(_, _) =>
    case HumanAbandon(_, _) =>
  }

  lemma RenewTokens(s: Graph, e: Event)
    requires s.clock == e.now && e.Renew?
    ensures SameTokens(s, Apply(s, e))
  {
  }

  lemma FailTokens(s: Graph, e: Event)
    requires s.clock == e.now && e.Fail?
    ensures SameTokens(s, Apply(s, e))
  {
  }

  // ---- the other transactions that issue no token -----------------------------------

  lemma PublishInv(s: Graph, e: Event)
    requires Inv(s) && s.clock == e.now && e.Publish?
    ensures Inv(Apply(s, e))
  {
    if Publishes(s, e) {
      var w := s.workers[e.token];
      WorkerSpec(s, e.token);
      PublishMoved(s.t, w.id, e.token, w.copy, e.outcome, e.rootStopped, e.now);
      PublishKeeps(s.t, w.id, e.token, w.copy, e.outcome, e.rootStopped, e.now);
      MovedInv(s, Apply(s, e));
    }
  }

  lemma PublishKeeps(t: Table, id: Id, token: Token, copy: Node, o: Outcome, rootStopped: bool, now: Time)
    ensures Keeps(t, PublishRow(t, id, token, copy, o, rootStopped, now))
  {
  }

  lemma DemoteInv(s: Graph, e: Event)
    requires Inv(s) && s.clock == e.now && e.ReviewDemote?
    ensures Inv(Apply(s, e))
  {
    var t' := DemoteRow(s.t, e.ticket.coder);
    assert Moved(s.t, t', s.clock) by { DemoteMoved(s.t, e.ticket.coder, e.now); }
    assert Keeps(s.t, t');
    MovedInv(s, s.(t := t'));
  }

  lemma RequeueInv(s: Graph, e: Event)
    requires Inv(s) && s.clock == e.now && e.HumanRequeue?
    ensures Inv(Apply(s, e))
  {
    var t' := RequeueRow(s.t, e.id);
    assert Moved(s.t, t', s.clock) by { RequeueMoved(s.t, e.id, e.now); }
    assert Keeps(s.t, t');
    if e.id in s.answered { MovedInv(s, Apply(s, e)); }
  }

  lemma MergeFinishInv(s: Graph, e: Event)
    requires Inv(s) && s.clock == e.now && e.MergeFinish?
    ensures Inv(Apply(s, e))
  {
    if e.token in s.merges {
      var r := s.merges[e.token];
      var t' := MergeFinishRow(s.t, r.id, e.token, r.result, e.record);
      assert MergeReadOk(s.t, r);
      assert Moved(s.t, t', s.clock) by { MergeFinishMoved(s.t, r.id, e.token, r.result, e.record, e.now); }
      assert Keeps(s.t, t');
      MovedInv(s, s.(t := t'));
    }
  }

  lemma ReviewReadInv(s: Graph, e: Event)
    requires Inv(s) && s.clock == e.now && e.ReviewRead?
    ensures Inv(Apply(s, e))
  {
    if CanReadForReview(s, e.coder) {
      assert RowOk(s.t[e.coder], s.clock);
      var r := ReviewTicket(e.coder, s.t[e.coder], s.t[e.coder].result.value.commit);
      assert ReviewReadOk(s.t, r);
      assert Apply(s, e) == s.(reviewReads := s.reviewReads + {r});
    }
  }

  lemma MergeReadInv(s: Graph, e: Event)
    requires Inv(s) && s.clock == e.now && e.MergeRead?
    ensures Inv(Apply(s, e))
  {
    if CanReadForMerge(s, e.id) {
      assert RowOk(s.t[e.id], s.clock);
      var r := MergeTicket(e.id, s.t[e.id].reviewedBy.value, s.t[e.id].result.value);
      assert MergeReadOk(s.t, r);
      assert Apply(s, e) == s.(mergeReads := s.mergeReads + {r});
    }
  }

  // ---- transactions that issue a token ----------------------------------------------

  /** Row `i` receives the fresh `token`; every other row keeps or drops its lease. */
  lemma IssuedLeases(s: Graph, s': Graph, i: Id, token: Token)
    requires TokensOk(s) && LeasesOk(s) && token !in s.issued
    requires s'.t.Keys == s.t.Keys && i in s.t
    requires forall j :: j in s.t && j != i ==> KeepsLease(s.t[j], s'.t[j])
    requires LeaseOk(s'.workers, s'.merges, i, s'.t[i])
    requires forall k :: k in s.workers ==> k in s'.workers && s'.workers[k] == s.workers[k]
    requires forall k :: k in s.merges ==> k in s'.merges && s'.merges[k] == s.merges[k]
    ensures LeasesOk(s')
  {
    forall j | j in s'.t
      ensures LeaseOk(s'.workers, s'.merges, j, s'.t[j])
    {
      assert LeaseOk(s.workers, s.merges, j, s.t[j]);
    }
  }

  lemma IssuedReads(s: Graph, s': Graph)
    requires ReadsOk(s) && SpecsOf(s'.t) == SpecsOf(s.t)
    requires s'.reviewReads == s.reviewReads && s'.mergeReads == s.mergeReads
    requires forall k :: k in s'.merges ==>
      (k in s.merges && s'.merges[k] == s.merges[k]) || s'.merges[k] in s.mergeReads
    ensures ReadsOk(s')
  {
    assert s'.t.Keys == SpecsOf(s'.t).Keys == SpecsOf(s.t).Keys;
    assert forall i :: i in s.t ==> SpecsOf(s.t)[i] == s.t[i].spec && SpecsOf(s'.t)[i] == s'.t[i].spec;
  }

  lemma MergeStartLeases(s: Graph, s': Graph, r: MergeTicket, token: Token)
    requires TokensOk(s) && LeasesOk(s) && token !in s.issued && r.id in s.t && s.t[r.id].state == Reviewed
    requires s'.t == MergeStartRow(s.t, r.id, token, s.clock)
    requires s'.workers == s.workers && s'.merges == s.merges[token := r]
    ensures LeasesOk(s')
  {
    var m := s'.t[r.id];
    assert m.lease == Some(Lease(token, s.clock + LEASE_SECONDS)) && m.state == Merging;
    IssuedLeases(s, s', r.id, token);
  }

  lemma MergeStartInv(s: Graph, r: MergeTicket, token: Token)
    requires Inv(s) && r in s.mergeReads && token !in s.issued && r.id in s.t && s.t[r.id].state == Reviewed
    ensures Inv(s.(t := MergeStartRow(s.t, r.id, token, s.clock), issued := s.issued + {token},
                   merges := s.merges[token := r]))
  {
    var t' := MergeStartRow(s.t, r.id, token, s.clock);
    var s' := s.(t := t', issued := s.issued + {token}, merges := s.merges[token := r]);
    assert Moved(s.t, t', s.clock) by {
      MergeStartMoved(s.t, r.id, token, s.clock);
    }
    MovedSpecs(s.t, t', s.clock);
    MovedRows(s.t, t', s.clock, s.clock);
    IssuedReads(s, s');
    MergeStartLeases(s, s', r, token);
    assert TokensOk(s') by {
      SpecsLookup(s.t);
      SpecsLookup(t');
    }
  }

  lemma ClaimInv(s: Graph, rows: seq<Id>, busy: set<Id>, token: Token)
    requires Inv(s) && token !in s.issued
    ensures var c := ClaimRows(s.t, rows, busy, s.clock, token);
      if c.claimed.None? then Inv(s.(t := c.table))
      else Inv(s.(t := c.table, issued := s.issued + {token},
                  workers := s.workers[token := Worker(c.claimed.value, c.table[c.claimed.value])]))
  {
    var c := ClaimRows(s.t, rows, busy, s.clock, token);
    if c.claimed.None? {
      ClaimEffect(s.t, rows, busy, s.clock, token);
      ClaimMoved(s.t, rows, busy, s.clock, token);
      MovedInv(s, s.(t := c.table));
    } else {
      ClaimedInv(s, rows, busy, token);
    }
  }

  lemma ClaimedInv(s: Graph, rows: seq<Id>, busy: set<Id>, token: Token)
    requires Inv(s) && token !in s.issued && ClaimRows(s.t, rows, busy, s.clock, token).claimed.Some?
    ensures var c := ClaimRows(s.t, rows, busy, s.clock, token);
      Inv(s.(t := c.table, issued := s.issued + {token},
             workers := s.workers[token := Worker(c.claimed.value, c.table[c.claimed.value])]))
  {
    var c := ClaimRows(s.t, rows, busy, s.clock, token);
    ClaimEffect(s.t, rows, busy, s.clock, token);
    ClaimMoved(s.t, rows, busy, s.clock, token);
    var i := c.claimed.value;
    var s' := s.(t := c.table, issued := s.issued + {token}, workers := s.workers[token := Worker(i, c.table[i])]);
    assert Shape(SpecsOf(s'.t)) by { MovedSpecs(s.t, c.table, s.clock); }
    assert RowsOk(s'.t, s.clock) by { MovedRows(s.t, c.table, s.clock, s.clock); }
    MovedSpecs(s.t, c.table, s.clock);
    assert ReadsOk(s') by { IssuedReads(s, s'); }
    assert LeasesOk(s') by { IssuedLeases(s, s', i, token); }
    assert TokensOk(s') by { ClaimedTokens(s, s', i, token); }
  }

  lemma ClaimedTokens(s: Graph, s': Graph, i: Id, token: Token)
    requires TokensOk(s) && SpecsOf(s'.t) == SpecsOf(s.t) && i in s.t && i in s'.t && token !in s.issued
    requires s'.issued == s.issued + {token} && s'.merges == s.merges
    requires s'.workers == s.workers[token := Worker(i, s'.t[i])]
    ensures TokensOk(s')
  {
    assert s'.t.Keys == SpecsOf(s'.t).Keys == SpecsOf(s.t).Keys;
    assert forall j :: j in s.t ==> SpecsOf(s.t)[j] == s.t[j].spec && SpecsOf(s'.t)[j] == s'.t[j].spec;
  }

  // ---- insertions -------------------------------------------------------------------

  lemma InsertEdges(x: Specs, id: Id, n: Spec)
    requires EdgesPointBack(x) && id !in x && n.rowid == |x| && EdgesOk(x, n)
    ensures EdgesPointBack(x[id := n])
  {
    var y := x[id := n];
    assert y.Keys == x.Keys + {id};
    assert |y| == |y.Keys| == |x.Keys| + 1 == |x| + 1;
    forall i | i in y
      ensures y[i].rowid < |y| && EdgesOk(y, y[i])
    {
      var m := if i == id then n else x[i];
      assert y[i] == m && EdgesOk(x, m);
      assert forall p :: Older(x, m, p) ==> Older(y, m, p);
    }
  }

  lemma InsertUnique(x: Specs, id: Id, n: Spec)
    requires Shape(x) && id !in x && n.rowid == |x|
    requires n.reviewOf.Some? ==> forall i :: i in x ==> x[i].reviewOf != n.reviewOf
    ensures RowidsUnique(x[id := n]) && ReviewersUnique(x[id := n])
  {
  }

  /** A fresh queued row without lease keeps the invariant when its edges point to older rows. */
  lemma InsertInv(s: Graph, id: Id, n: Spec)
    requires Inv(s) && id !in s.t && n.rowid == |s.t| && EdgesOk(SpecsOf(s.t), n)
    requires n.reviewOf.Some? ==> !HasReviewer(s.t, n.reviewOf.value)
    ensures Inv(s.(t := s.t[id := NewRow(n)]))
  {
    var t' := s.t[id := NewRow(n)];
    assert Shape(SpecsOf(t')) by {
      SpecsLookup(s.t);
      InsertEdges(SpecsOf(s.t), id, n);
      InsertUnique(SpecsOf(s.t), id, n);
      assert SpecsOf(t') == SpecsOf(s.t)[id := n];
    }
    InsertRows(s, id, n);
    InsertReads(s, id, n);
  }

  lemma InsertRows(s: Graph, id: Id, n: Spec)
    requires RowsOk(s.t, s.clock) && LeasesOk(s) && id !in s.t
    ensures RowsOk(s.t[id := NewRow(n)], s.clock) && LeasesOk(s.(t := s.t[id := NewRow(n)]))
  {
  }

  lemma InsertReads(s: Graph, id: Id, n: Spec)
    requires TokensOk(s) && ReadsOk(s) && id !in s.t
    ensures TokensOk(s.(t := s.t[id := NewRow(n)])) && ReadsOk(s.(t := s.t[id := NewRow(n)]))
  {
  }

  lemma SubmitEdges(s: Graph, e: Event)
    requires Inv(s) && e.Submit? && CanSubmit(s, e)
    ensures EdgesOk(SpecsOf(s.t), SubmittedRow(s, e).spec)
  {
    SpecsLookup(s.t);
    var x := SpecsOf(s.t);
    assert forall i :: i in x ==> x[i].rowid < |x|;
  }

  lemma SubmitInv(s: Graph, e: Event)
    requires Inv(s) && s.clock == e.now && e.Submit?
    ensures Inv(Apply(s, e))
  {
    if CanSubmit(s, e) {
      SubmitEdges(s, e);
      InsertInv(s, e.id, SubmittedRow(s, e).spec);
    }
  }

  lemma ReviewerEdges(x: Specs, c: Id, n: Spec)
    requires Shape(x) && c in x && x[c].persona == Coder && n.rowid == |x|
    requires n.owner == x[c].owner && n.parent == x[c].parent && n.persona == Reviewer
    requires n.deps == [c] && n.reviewOf == Some(c)
    ensures EdgesOk(x, n)
  {
    assert EdgesOk(x, x[c]);
  }

  lemma ReviewInsertInv(s: Graph, e: Event)
    requires Inv(s) && s.clock == e.now && e.ReviewInsert?
    ensures Inv(Apply(s, e))
  {
    if e.ticket in s.reviewReads && e.id !in s.t && !HasReviewer(s.t, e.ticket.coder) {
      var n := ReviewerRow(s, e.ticket, e.deadline).spec;
      SpecsLookup(s.t);
      assert ReviewReadOk(s.t, e.ticket);
      ReviewerEdges(SpecsOf(s.t), e.ticket.coder, n);
      InsertInv(s, e.id, n);
    }
  }

  // ---- every run --------------------------------------------------------------------

  lemma BaseInv(s: Graph, e: Event)
    requires Inv(s) && s.clock == e.now && BaseEvent(e)
    ensures Inv(Apply(s, e))
  {
    BaseStep(s, e);
    BaseTokens(s, e);
    BaseIsTame(s.t, Apply(s, e).t, s.clock);
    MovedInv(s, Apply(s, e));
  }

  lemma QuietInv(s: Graph, e: Event)
    requires Inv(s) && s.clock == e.now && QuietEvent(e)
    ensures Inv(Apply(s, e))
  {
    if e.ReviewRead? {
      ReviewReadInv(s, e);
    } else if e.MergeRead? {
      MergeReadInv(s, e);
    } else {
      ChildInv(s, e);
    }
  }

  /** The invariant does not look at tasks, human reads or exit reads. */
  lemma SameInv(s: Graph, s': Graph)
    requires Inv(s) && s'.t == s.t && SameTokens(s, s')
    ensures Inv(s')
  {
  }

  lemma ChildInv(s: Graph, e: Event)
    requires Inv(s) && s.clock == e.now && TaskEvent(e)
    ensures Inv(Apply(s, e))
  {
    ReadsLeaveTable(s, e);
    TaskTokens(s, e);
    SameInv(s, Apply(s, e));
  }

  lemma TaskTokens(s: Graph, e: Event)
    requires s.clock == e.now && TaskEvent(e)
    ensures SameTokens(s, Apply(s, e))
  {
    if e.HumanRead? || e.HumanMark? || e.HumanAct? { HumanTokens(s, e); } else { WorkTokens(s, e); }
  }

  lemma HumanTokens(s: Graph, e: Event)
    requires s.clock == e.now && (e.HumanRead? || e.HumanMark? || e.HumanAct?)
    ensures SameTokens(s, Apply(s, e))
  {
  }

  lemma WorkTokens(s: Graph, e: Event)
    requires s.clock == e.now && (e.TaskClaim? || e.TaskCheck? || e.TaskStart? || e.TaskStep? || e.ExitRead?)
    ensures SameTokens(s, Apply(s, e))
  {
  }

  lemma IssueInv(s: Graph, e: Event)
    requires Inv(s) && s.clock == e.now && (e.ClaimNext? || e.MergeStart?)
    ensures Inv(Apply(s, e))
  {
    if e.ClaimNext? {
      if e.token !in s.issued { ClaimInv(s, e.rows, e.busy, e.token); }
    } else if e.read in s.mergeReads && e.token !in s.issued && e.read.id in s.t && s.t[e.read.id].state == Reviewed {
      MergeStartInv(s, e.read, e.token);
    }
  }

  lemma InvApply(s: Graph, e: Event)
    requires Inv(s) && s.clock == e.now
    ensures Inv(Apply(s, e))
  {
    if BaseEvent(e) {
      BaseInv(s, e);
    } else if QuietEvent(e) {
      QuietInv(s, e);
    } else if e.Submit? {
      SubmitInv(s, e);
    } else if e.ReviewInsert? {
      ReviewInsertInv(s, e);
    } else if e.ClaimNext? || e.MergeStart? {
      IssueInv(s, e);
    } else if e.Publish? {
      PublishInv(s, e);
    } else if e.ReviewDemote? {
      DemoteInv(s, e);
    } else if e.MergeFinish? {
      MergeFinishInv(s, e);
    } else {
      RequeueInv(s, e);
    }
  }

  lemma InvNext(s: Graph, e: Event)
    requires Inv(s)
    ensures Inv(Next(s, e))
  {
    if s.clock <= e.now {
      TickInv(s, e.now);
      InvApply(s.(clock := e.now), e);
    }
  }

  lemma {:induction false} InvRun(s: Graph, es: seq<Event>)
    requires Inv(s)
    ensures Inv(Run(s, es))
    decreases |es|
  {
    if es != [] {
      InvNext(s, es[0]);
      InvRun(Next(s, es[0]), es[1..]);
    }
  }

  lemma InvReachable(s: Graph)
    requires Reachable(s)
    ensures Inv(s)
  {
    var es :| Run(INIT, es) == s;
    InvRun(INIT, es);
  }
}
