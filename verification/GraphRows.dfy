/**
 How one row may change in one transaction, whatever the transaction: the union of
 all row updates in the coordinator, with the facts a row carries through them.
 */
module GraphRows {
  import opened Prelude
  import opened GraphTable

  predicate ClaimMove(n: Node, m: Node, now: Time) {
    n.state == Queued && m.lease.Some? && m == Claimed(n, now, m.lease.value.token)
  }

  predicate RenewMove(n: Node, m: Node, now: Time) {
    n.state == Running && Live(n, now) &&
    m == n.(lease := Some(Lease(n.lease.value.token, now + LEASE_SECONDS)))
  }

  predicate PublishMove(n: Node, m: Node, now: Time) {
    n.state == Running && Live(n, now) && m.result.Some? &&
    m == n.(state := PublishedState(n.spec.persona, m.result.value), result := m.result, lease := None)
  }

  predicate StopMove(n: Node, m: Node) {
    n.state in {Running, CancelRequested} && n.lease.Some? && m == n.(state := m.state, lease := None) &&
    (m.state in {Cancelled, NeedsResolution, NeedsInput, TimedOut, Failed, Rejected} ||
     (m.state == Queued && n.state == Running && n.attempts < MAX_ATTEMPTS)) &&
    (n.state == CancelRequested ==> m.state == Cancelled)
  }

  predicate SweepMove(n: Node, m: Node, now: Time) {
    m == n.(state := m.state) &&
    if n.state == Merging then !Live(n, now) && m.state == NeedsResolution
    else if n.state in {Queued, Running, CancelRequested} then
      if Live(n, now) then m.state == CancelRequested
      else
        m.state in {TimedOut, Cancelled, NeedsResolution, NeedsInput, Failed} ||
        (m.state == Queued && n.state == Running && n.attempts < MAX_ATTEMPTS)
    else false
  }

  predicate MergeStartMove(n: Node, m: Node, now: Time) {
    n.state == Reviewed && m.lease.Some? &&
    m == n.(state := Merging, lease := Some(Lease(m.lease.value.token, now + LEASE_SECONDS)))
  }

  predicate MergeFinishMove(n: Node, m: Node) {
    n.state == Merging && m.result.Some? && Verified(m.result.value) &&
    m == n.(state := Merged, result := m.result, lease := None)
  }

  predicate RequeueMove(n: Node, m: Node) {
    m == n.(state := Queued, lease := None)
  }

  predicate AbandonMove(n: Node, m: Node, now: Time) {
    n.state == NeedsResolution && !Live(n, now) && m == n.(state := Conflict, lease := None)
  }

  /** Updates that issue no lease token, accept no coder and send no coder back from review. */
  predicate BaseMove(n: Node, m: Node, now: Time) {
    || m == n
    || (n.state == Queued && m == n.(state := Failed))
    || (n.state == ReviewPending && m == n.(state := Rejected, reviewedBy := m.reviewedBy))
    || (n.state == Reviewed && m == n.(state := Conflict))
    || (n.lease.Some? && n.spec.persona == Coder && m == n.(state := NeedsResolution))
    || m == CancelNode(n, now)
    || RenewMove(n, m, now) || PublishMove(n, m, now) || StopMove(n, m) || SweepMove(n, m, now)
    || AbandonMove(n, m, now)
  }

  predicate TameMove(n: Node, m: Node, now: Time) {
    BaseMove(n, m, now) || ClaimMove(n, m, now) || MergeStartMove(n, m, now)
  }

  /** Every row update except the requeue by a human. */
  predicate SteadyMove(n: Node, m: Node, now: Time) {
    || TameMove(n, m, now)
    || (n.state == ReviewPending && m == n.(state := NeedsInput))
    || (n.state == ReviewPending && m == n.(state := Reviewed, reviewedBy := m.reviewedBy))
    || MergeFinishMove(n, m)
  }

  /** Every row update in which a requeue by a human finds the row waiting for one. */
  predicate CalmMove(n: Node, m: Node, now: Time) {
    SteadyMove(n, m, now) || (n.state in {NeedsInput, NeedsResolution} && RequeueMove(n, m))
  }

  predicate RowMove(n: Node, m: Node, now: Time) {
    SteadyMove(n, m, now) || RequeueMove(n, m)
  }

  /** Facts about a single row at clock `now`. */
  predicate RowOk(n: Node, now: Time) {
    && (n.state in {Running, Merging} ==> n.lease.Some?)
    && (n.state == ReviewPending ==> n.lease.None?)
    && (Live(n, now) ==> n.state in {Running, CancelRequested, Merging, NeedsResolution})
    && (n.state in {ReviewPending, Reviewed, Merging, Merged} ==>
          n.spec.persona == Coder && n.result.Some? && Verified(n.result.value))
    && (n.state == Completed ==> n.spec.persona != Coder && n.result.Some?)
    && (n.state == Completed && n.spec.persona == Reviewer ==> Approves(n.result.value))
  }

  lemma RowStaysOk(n: Node, m: Node, before: Time, now: Time)
    requires RowOk(n, before) && before <= now && RowMove(n, m, now)
    ensures RowOk(m, now)
  {
  }

  /** A result, once published, is never dropped. */
  lemma ResultKept(n: Node, m: Node, now: Time)
    requires RowMove(n, m, now)
    ensures m.spec == n.spec
    ensures n.result.Some? ==> m.result.Some?
    ensures m.attempts == n.attempts || ClaimMove(n, m, now)
  {
  }

  ghost predicate Moved(t: Table, t': Table, now: Time) {
    t'.Keys == t.Keys && forall i :: i in t ==> RowMove(t[i], t'[i], now)
  }

  ghost predicate BaselyMoved(t: Table, t': Table, now: Time) {
    t'.Keys == t.Keys && forall i :: i in t ==> BaseMove(t[i], t'[i], now)
  }

  ghost predicate TamelyMoved(t: Table, t': Table, now: Time) {
    t'.Keys == t.Keys && forall i :: i in t ==> TameMove(t[i], t'[i], now)
  }

  ghost predicate SteadilyMoved(t: Table, t': Table, now: Time) {
    t'.Keys == t.Keys && forall i :: i in t ==> SteadyMove(t[i], t'[i], now)
  }

  ghost predicate CalmlyMoved(t: Table, t': Table, now: Time) {
    t'.Keys == t.Keys && forall i :: i in t ==> CalmMove(t[i], t'[i], now)
  }

  // ---- every transaction is made of such moves --------------------------------------

  lemma SweepMoves(n: Node, child: Child, rootStopped: bool, now: Time)
    ensures var m := RecoverNode(n, child, rootStopped, now); m == n || SweepMove(n, m, now)
  {
  }

  lemma RecoveredRow(t: Table, children: map<Id, Child>, stoppedRoots: set<nat>, now: Time, i: Id)
    requires i in t
    ensures var m := RecoverNode(t[i], ChildOf(children, i), t[i].spec.root in stoppedRoots, now);
      var t' := RecoverTable(t, children, stoppedRoots, now);
      i in t' && (t'[i] == m || (m.state == ReviewPending && t'[i] == m.(state := Rejected)))
  {
  }

  lemma RecoverMoved(t: Table, children: map<Id, Child>, stoppedRoots: set<nat>, now: Time)
    ensures BaselyMoved(t, RecoverTable(t, children, stoppedRoots, now), now)
  {
    var t' := RecoverTable(t, children, stoppedRoots, now);
    forall i | i in t
      ensures BaseMove(t[i], t'[i], now)
    {
      SweepMoves(t[i], ChildOf(children, i), t[i].spec.root in stoppedRoots, now);
      RecoveredRow(t, children, stoppedRoots, now, i);
    }
  }

  /** One walk of `claim`: at most one row is claimed, and queued rows with stopped dependencies fail. */
  lemma {:induction false} ClaimEffect(t: Table, rows: seq<Id>, busy: set<Id>, now: Time, token: Token)
    ensures var c := ClaimRows(t, rows, busy, now, token);
      && (forall i :: i in t && c.claimed != Some(i) ==>
            c.table[i] == t[i] || (t[i].state == Queued && c.table[i] == t[i].(state := Failed)))
      && (c.claimed.Some? ==>
            var n := t[c.claimed.value];
            n.state == Queued && c.table[c.claimed.value] == Claimed(n, now, token) &&
            |Occupied(t, now)| < n.spec.concurrency &&
            forall d :: d in n.spec.deps ==> d in t && (Succeeded(t[d].state) || t[d].state == ReviewPending))
    decreases |rows|
  {
    if rows != [] {
      var i := rows[0];
      if i !in t || t[i].state != Queued || i in busy || |Occupied(t, now)| >= t[i].spec.concurrency {
        ClaimEffect(t, rows[1..], busy, now, token);
      } else if DepStopped(t, t[i]) {
        var t' := t[i := t[i].(state := Failed)];
        assert Occupied(t', now) == Occupied(t, now);
        ClaimEffect(t', rows[1..], busy, now, token);
      } else if !DepsReady(t, t[i]) {
        ClaimEffect(t, rows[1..], busy, now, token);
      }
    }
  }

  lemma ClaimMoved(t: Table, rows: seq<Id>, busy: set<Id>, now: Time, token: Token)
    ensures TamelyMoved(t, ClaimRows(t, rows, busy, now, token).table, now)
  {
    ClaimEffect(t, rows, busy, now, token);
    var c := ClaimRows(t, rows, busy, now, token);
    forall i | i in t
      ensures TameMove(t[i], c.table[i], now)
    {
      if c.claimed == Some(i) { assert ClaimMove(t[i], c.table[i], now); }
    }
  }

  lemma PublishMoved(t: Table, id: Id, token: Token, copy: Node, o: Outcome, rootStopped: bool, now: Time)
    requires id in t && t[id].spec == copy.spec && copy.spec.reviewOf != Some(id)
    ensures SteadilyMoved(t, PublishRow(t, id, token, copy, o, rootStopped, now), now)
  {
    if CanPublish(t, id, token, copy, rootStopped, now) {
      var t' := PublishRow(t, id, token, copy, o, rootStopped, now);
      assert PublishMove(t[id], t'[id], now);
    }
  }

  lemma StopStates(copy: Node, stop: Stop)
    ensures var state := StopState(copy, stop);
      state in {Cancelled, NeedsResolution, NeedsInput, TimedOut, Failed, Rejected} ||
      (state == Queued && copy.attempts < MAX_ATTEMPTS)
  {
  }

  lemma FailMoved(t: Table, id: Id, token: Token, copy: Node, stop: Stop, now: Time)
    requires id in t && copy.spec.reviewOf != Some(id)
    requires CanFail(t, id, token) ==> t[id].attempts == copy.attempts
    ensures BaselyMoved(t, FailRow(t, id, token, copy, StopState(copy, stop)), now)
  {
    if CanFail(t, id, token) {
      StopStates(copy, stop);
      var t' := FailRow(t, id, token, copy, StopState(copy, stop));
      assert StopMove(t[id], t'[id]);
    }
  }

  lemma RenewMoved(t: Table, id: Id, token: Token, now: Time)
    ensures BaselyMoved(t, RenewRow(t, id, token, now), now)
  {
  }

  lemma DemoteMoved(t: Table, id: Id, now: Time)
    ensures SteadilyMoved(t, DemoteRow(t, id), now)
  {
  }

  lemma AbandonMoved(t: Table, id: Id, now: Time)
    ensures BaselyMoved(t, AbandonRow(t, id, now), now)
  {
  }

  lemma RequeueMoved(t: Table, id: Id, now: Time)
    ensures Moved(t, RequeueRow(t, id), now)
    ensures id in t && t[id].state in {NeedsInput, NeedsResolution} ==> CalmlyMoved(t, RequeueRow(t, id), now)
  {
  }

  lemma CancelMoved(t: Table, owner: nat, id: Id, now: Time)
    ensures BaselyMoved(t, CancelTable(t, owner, id, now), now)
  {
  }

  lemma MergeConflictMoved(t: Table, id: Id, now: Time)
    ensures BaselyMoved(t, MergeConflictRow(t, id), now)
  {
  }

  lemma MergeStartMoved(t: Table, id: Id, token: Token, now: Time)
    ensures TamelyMoved(t, MergeStartRow(t, id, token, now), now)
  {
  }

  lemma MergeFinishMoved(t: Table, id: Id, token: Token, read: Outcome, record: MergeRecord, now: Time)
    requires Verified(read)
    ensures SteadilyMoved(t, MergeFinishRow(t, id, token, read, record), now)
  {
  }

  lemma MergeAbortMoved(t: Table, id: Id, token: Token, now: Time)
    requires id in t ==> t[id].spec.persona == Coder
    ensures BaselyMoved(t, MergeAbortRow(t, id, token), now)
  {
  }
}
