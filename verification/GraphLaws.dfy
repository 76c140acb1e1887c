/**
 What the single transactions of the coordinator decide, with every state written out: which row a claim takes,
 passes over or fails, where a recovery, a publication and a stopped worker leave a row.
 */
module GraphLaws {
  import opened Prelude
  import opened GraphTable
  import opened GraphRows

  // ---- claim ------------------------------------------------------------------------

  /** Dependency `d` of row `i` has stopped. */
  predicate StoppedDep(t: Table, i: Id, d: Id)
    requires i in t
  {
    && d in t[i].spec.deps && d in t && t[d].spec.owner == t[i].spec.owner
    && t[d].state in {Failed, Rejected, Cancelled, TimedOut, NeedsInput, NeedsResolution, Conflict}
  }

  /** Dependency `d` lets row `i` start: it has succeeded, or it is the coder under review that `i` reviews. */
  predicate ReadyDep(t: Table, i: Id, d: Id)
    requires i in t
  {
    && d in t && t[d].spec.owner == t[i].spec.owner
    && (t[d].state in {Completed, Reviewed, Merged}
        || (t[d].state == ReviewPending && t[i].spec.reviewOf == Some(d)))
  }

  /** Rows that keep a worker busy. */
  function Workers(t: Table, now: Time): set<Id> {
    set j | j in t && t[j].state in {Running, CancelRequested} && t[j].lease.Some? && t[j].lease.value.expires > now
  }

  /** Row `i` waits, its task is not in use, and its configuration allows one more worker. */
  predicate MayStart(t: Table, i: Id, busy: set<Id>, now: Time) {
    i in t && t[i].state == Queued && i !in busy && |Workers(t, now)| < t[i].spec.concurrency
  }

  predicate Blocked(t: Table, i: Id)
    requires i in t
  {
    exists d :: d in t[i].spec.deps && StoppedDep(t, i, d)
  }

  predicate Unready(t: Table, i: Id)
    requires i in t
  {
    exists d :: d in t[i].spec.deps && !ReadyDep(t, i, d)
  }

  /** How a claim passes over a row that may start: a blocked one fails, any other one waits for a dependency. */
  predicate PassedOver(t: Table, t': Table, i: Id) {
    && i in t && i in t'
    && (Blocked(t, i) ==> t'[i].state == Failed)
    && (t'[i].state == Failed ==> Blocked(t', i))
    && (t'[i].state != Failed ==> t'[i] == t[i] && Unready(t', i))
  }

  /** During a walk a waiting row may fail or start to run; nothing else changes. */
  predicate Walked(t: Table, t': Table) {
    && t'.Keys == t.Keys
    && forall i :: i in t ==>
         t'[i] == t[i] || (t[i].state == Queued && t'[i].spec == t[i].spec && t'[i].state in {Failed, Running})
  }

  lemma ClaimWalks(t: Table, rows: seq<Id>, busy: set<Id>, now: Time, token: Token)
    ensures Walked(t, ClaimRows(t, rows, busy, now, token).table)
  {
    ClaimEffect(t, rows, busy, now, token);
  }

  lemma WalkedDeps(t: Table, t': Table, i: Id)
    requires Walked(t, t') && i in t
    ensures Blocked(t, i) ==> Blocked(t', i)
    ensures Unready(t, i) ==> Unready(t', i)
  {
    if Blocked(t, i) {
      var d :| d in t[i].spec.deps && StoppedDep(t, i, d);
      assert StoppedDep(t', i, d);
    }
    if Unready(t, i) {
      var d :| d in t[i].spec.deps && !ReadyDep(t, i, d);
      assert d in t'[i].spec.deps && !ReadyDep(t', i, d);
    }
  }

  lemma DepsMeant(t: Table, i: Id)
    requires i in t
    ensures DepStopped(t, t[i]) <==> Blocked(t, i)
    ensures DepsReady(t, t[i]) <==> !Unready(t, i)
  {
    if DepStopped(t, t[i]) {
      var d :| d in t[i].spec.deps && d in t && t[d].spec.owner == t[i].spec.owner && Stopped(t[d].state);
      assert StoppedDep(t, i, d);
    }
  }

  /** The first row of a walk fails: nothing about the rest of the walk changes. */
  lemma FailedFirst(t: Table, i: Id, j: Id, busy: set<Id>, now: Time)
    requires i in t && t[i].state == Queued && j in t && j != i
    ensures var t1 := t[i := t[i].(state := Failed)];
      && Workers(t1, now) == Workers(t, now)
      && (MayStart(t, j, busy, now) <==> MayStart(t1, j, busy, now))
      && (Blocked(t, j) ==> Blocked(t1, j))
  {
    var t1 := t[i := t[i].(state := Failed)];
    assert Walked(t, t1);
    WalkedDeps(t, t1, j);
    assert Workers(t1, now) == Workers(t, now);
  }

  /** Every row of a walk that may start is passed over, up to the claimed one. */
  predicate Claims(t: Table, c: Claim, rows: seq<Id>, busy: set<Id>, now: Time, p: nat) {
    && p <= |rows|
    && (c.claimed.None? ==> p == |rows|)
    && (c.claimed.Some? ==> p < |rows| && c.claimed.value == rows[p])
    && forall k :: 0 <= k < p && MayStart(t, rows[k], busy, now) ==> PassedOver(t, c.table, rows[k])
  }

  lemma ClaimsFailed(t: Table, rows: seq<Id>, busy: set<Id>, now: Time, c: Claim, p: nat)
    requires rows != [] && MayStart(t, rows[0], busy, now) && Blocked(t, rows[0])
    requires var t1 := t[rows[0] := t[rows[0]].(state := Failed)];
      Walked(t1, c.table) && Claims(t1, c, rows[1..], busy, now, p)
    ensures Claims(t, c, rows, busy, now, p + 1)
  {
    var i := rows[0];
    var t1 := t[i := t[i].(state := Failed)];
    assert Walked(t, t1);
    WalkedDeps(t, t1, i);
    WalkedDeps(t1, c.table, i);
    forall k | 0 <= k < p + 1 && MayStart(t, rows[k], busy, now)
      ensures PassedOver(t, c.table, rows[k])
    {
      if rows[k] != i {
        FailedFirst(t, i, rows[k], busy, now);
        assert rows[1..][k - 1] == rows[k] && PassedOver(t1, c.table, rows[k]);
      }
    }
  }

  /** Whatever a walk fails is blocked, and what it claims may start and is neither blocked nor unready. */
  predicate Decides(t: Table, c: Claim, busy: set<Id>, now: Time) {
    && t.Keys <= c.table.Keys
    && (forall i :: i in t && t[i].state == Queued && c.table[i].state == Failed ==> Blocked(c.table, i))
    && (c.claimed.Some? ==>
          var i := c.claimed.value;
          MayStart(t, i, busy, now) && i in c.table && !Blocked(c.table, i) && !Unready(c.table, i))
  }

  lemma DecidesFailed(t: Table, i: Id, c: Claim, busy: set<Id>, now: Time)
    requires i in t && t[i].state == Queued && Blocked(t, i)
    requires var t1 := t[i := t[i].(state := Failed)]; Walked(t1, c.table) && Decides(t1, c, busy, now)
    ensures Decides(t, c, busy, now)
  {
    var t1 := t[i := t[i].(state := Failed)];
    assert Walked(t, t1);
    WalkedDeps(t, t1, i);
    WalkedDeps(t1, c.table, i);
    if c.claimed.Some? && c.claimed.value != i { FailedFirst(t, i, c.claimed.value, busy, now); }
  }

  /** The claimed row at the end of a walk: its dependencies are still ready. */
  lemma DecidesClaimed(t: Table, i: Id, now: Time, token: Token, busy: set<Id>)
    requires MayStart(t, i, busy, now) && !Blocked(t, i) && !Unready(t, i)
    ensures Decides(t, Claim(t[i := Claimed(t[i], now, token)], Some(i)), busy, now)
  {
    var t' := t[i := Claimed(t[i], now, token)];
    forall d | d in t[i].spec.deps
      ensures ReadyDep(t', i, d) && !StoppedDep(t', i, d)
    {
      assert ReadyDep(t, i, d) && !StoppedDep(t, i, d);
    }
  }

  lemma {:induction false} ClaimDecides(t: Table, rows: seq<Id>, busy: set<Id>, now: Time, token: Token)
    ensures Decides(t, ClaimRows(t, rows, busy, now, token), busy, now)
    decreases |rows|
  {
    if rows != [] {
      var i := rows[0];
      assert Occupied(t, now) == Workers(t, now);
      if !MayStart(t, i, busy, now) {
        ClaimDecides(t, rows[1..], busy, now, token);
      } else {
        DepsMeant(t, i);
        if Blocked(t, i) {
          var t1 := t[i := t[i].(state := Failed)];
          ClaimDecides(t1, rows[1..], busy, now, token);
          ClaimWalks(t1, rows[1..], busy, now, token);
          DecidesFailed(t, i, ClaimRows(t1, rows[1..], busy, now, token), busy, now);
        } else if Unready(t, i) {
          ClaimDecides(t, rows[1..], busy, now, token);
        } else {
          DecidesClaimed(t, i, now, token, busy);
        }
      }
    }
  }

  lemma ClaimsUnready(t: Table, rows: seq<Id>, busy: set<Id>, now: Time, c: Claim, p: nat)
    requires rows != [] && MayStart(t, rows[0], busy, now) && !Blocked(t, rows[0]) && Unready(t, rows[0])
    requires Walked(t, c.table) && Claims(t, c, rows[1..], busy, now, p) && Decides(t, c, busy, now)
    requires forall i :: i in t && i in c.table && c.claimed != Some(i) ==>
      c.table[i].state != Running || c.table[i] == t[i]
    ensures Claims(t, c, rows, busy, now, p + 1)
  {
    WalkedDeps(t, c.table, rows[0]);
    forall k | 0 <= k < p + 1 && MayStart(t, rows[k], busy, now)
      ensures PassedOver(t, c.table, rows[k])
    {
      if k > 0 { assert rows[1..][k - 1] == rows[k]; }
    }
  }

  /** Only the claimed row starts to run: under a fresh lease of 90 seconds, with one attempt more. */
  predicate Taken(t: Table, c: Claim, now: Time, token: Token) {
    && (forall i :: i in t && i in c.table && c.claimed != Some(i) ==>
          c.table[i].state != Running || c.table[i] == t[i])
    && (c.claimed.Some? ==>
          var i := c.claimed.value;
          i in t && i in c.table &&
          c.table[i] == t[i].(state := Running, lease := Some(Lease(token, now + 90)), attempts := t[i].attempts + 1))
  }

  lemma ClaimTakes(t: Table, rows: seq<Id>, busy: set<Id>, now: Time, token: Token)
    ensures Taken(t, ClaimRows(t, rows, busy, now, token), now, token)
  {
    ClaimEffect(t, rows, busy, now, token);
  }

  /**
   Main result. A claim goes through the rows in order. A row that may start and has a stopped dependency fails, and no
   other row does; one with a dependency that is missing, foreign or not yet succeeded stays as it is; and the first row
   with neither is claimed. If nothing is claimed, no row of the list could be.
   */
  lemma {:induction false} ClaimExact(t: Table, rows: seq<Id>, busy: set<Id>, now: Time, token: Token) returns (p: nat)
    ensures var c := ClaimRows(t, rows, busy, now, token); Claims(t, c, rows, busy, now, p) && Decides(t, c, busy, now)
    ensures Taken(t, ClaimRows(t, rows, busy, now, token), now, token)
  {
    ClaimDecides(t, rows, busy, now, token);
    ClaimTakes(t, rows, busy, now, token);
    p := ClaimPasses(t, rows, busy, now, token);
  }

  lemma {:induction false} ClaimPasses(t: Table, rows: seq<Id>, busy: set<Id>, now: Time, token: Token) returns (p: nat)
    ensures Claims(t, ClaimRows(t, rows, busy, now, token), rows, busy, now, p)
    decreases |rows|
  {
    if rows == [] { return 0; }
    var c := ClaimRows(t, rows, busy, now, token);
    var i := rows[0];
    assert Occupied(t, now) == Workers(t, now);
    if !MayStart(t, i, busy, now) {
      p := ClaimPasses(t, rows[1..], busy, now, token);
      ClaimsBeside(t, rows, busy, now, c, p);
      return p + 1;
    }
    DepsMeant(t, i);
    if Blocked(t, i) {
      var t1 := t[i := t[i].(state := Failed)];
      p := ClaimPasses(t1, rows[1..], busy, now, token);
      ClaimWalks(t1, rows[1..], busy, now, token);
      ClaimsFailed(t, rows, busy, now, c, p);
      return p + 1;
    }
    if Unready(t, i) {
      p := ClaimPasses(t, rows[1..], busy, now, token);
      ClaimWalks(t, rows, busy, now, token);
      ClaimDecides(t, rows, busy, now, token);
      ClaimTakes(t, rows, busy, now, token);
      ClaimsUnready(t, rows, busy, now, c, p);
      return p + 1;
    }
    return 0;
  }

  lemma ClaimsBeside(t: Table, rows: seq<Id>, busy: set<Id>, now: Time, c: Claim, p: nat)
    requires rows != [] && !MayStart(t, rows[0], busy, now) && Claims(t, c, rows[1..], busy, now, p)
    ensures Claims(t, c, rows, busy, now, p + 1)
  {
    assert forall k :: 0 < k < p + 1 ==> rows[k] == rows[1..][k - 1];
  }

  // ---- recovery ---------------------------------------------------------------------

  predicate Unexpired(n: Node, now: Time) {
    n.lease.Some? && n.lease.value.expires > now
  }

  /** The root has stopped, the deadline has passed, or somebody asked for the cancellation. */
  predicate Halted(n: Node, stoppedRoots: set<nat>, now: Time) {
    n.spec.root in stoppedRoots || n.spec.deadline <= now || n.state == CancelRequested
  }

  predicate StartedTool(c: Child) {
    (c.Working? || c.Unsure? || c.Dropped?) && c.call.Some?
  }

  /** The worker of a running row is gone and nothing has asked the node to stop. */
  predicate Orphaned(n: Node, stoppedRoots: set<nat>, now: Time) {
    n.state == Running && !Unexpired(n, now) && !Halted(n, stoppedRoots, now)
  }

  /**
   Main result. A recovery requeues exactly the orphaned rows whose task has started no tool, asks nobody, has not ended
   in failure or cancellation, and was attempted less than three times; started tools and questions go to a human, and
   what was asked to stop stops, at once where no worker holds it.
   */
  lemma RecoverExact(t: Table, children: map<Id, Child>, stoppedRoots: set<nat>, now: Time, i: Id)
    requires i in t && t[i].state in {Queued, Running, CancelRequested}
    ensures var n := t[i]; var c := ChildOf(children, i); var t' := RecoverTable(t, children, stoppedRoots, now);
      var orphaned := Orphaned(n, stoppedRoots, now); var halted := Halted(n, stoppedRoots, now);
      var lost := orphaned && !StartedTool(c) && !c.Asking?;
      && i in t' && t'[i] == n.(state := t'[i].state)
      && (t'[i].state == Running <==> n.state == Running && !halted && Unexpired(n, now))
      && (t'[i].state == CancelRequested <==> halted && Unexpired(n, now))
      && (t'[i].state == TimedOut <==> halted && !Unexpired(n, now) && n.spec.deadline <= now)
      && (t'[i].state == NeedsResolution <==> orphaned && StartedTool(c))
      && (t'[i].state == NeedsInput <==> orphaned && c.Asking?)
      && (t'[i].state == Failed <==> lost && (c.Broken? || (!c.Dropped? && n.attempts >= 3)))
      && (t'[i].state == Cancelled <==>
            (halted && !Unexpired(n, now) && n.spec.deadline > now) || (lost && c.Dropped?))
      && (t'[i].state == Queued <==>
            (n.state == Queued && !halted) || (lost && !c.Broken? && !c.Dropped? && n.attempts < 3))
  {
    RecoveredRow(t, children, stoppedRoots, now, i);
    var m := RecoverNode(t[i], ChildOf(children, i), t[i].spec.root in stoppedRoots, now);
    assert m.state != ReviewPending;
  }

  /** Whose reviewer is lost for good after a recovery. */
  predicate LosesReviewer(t: Table, t': Table, i: Id) {
    exists r :: r in t && r in t' && t[r].state != ReviewPending && t[r].spec.reviewOf == Some(i) &&
      t'[r].state in {Failed, Rejected, Cancelled, TimedOut, NeedsInput, NeedsResolution}
  }

  /**
   A recovery stops a merge whose lease has run out, rejects coders whose reviewer is lost, and leaves the rest
   alone.
   */
  lemma RecoverRest(t: Table, children: map<Id, Child>, stoppedRoots: set<nat>, now: Time, i: Id)
    requires i in t && t[i].state !in {Queued, Running, CancelRequested}
    ensures var n := t[i]; var t' := RecoverTable(t, children, stoppedRoots, now);
      && i in t'
      && (n.state == Merging ==> t'[i] == if Unexpired(n, now) then n else n.(state := NeedsResolution))
      && (n.state == ReviewPending ==> t'[i] == if LosesReviewer(t, t', i) then n.(state := Rejected) else n)
      && (n.state !in {Merging, ReviewPending} ==> t'[i] == n)
  {
    var swept := SweepRows(t, children, stoppedRoots, now);
    var t' := RecoverTable(t, children, stoppedRoots, now);
    if t[i].state == ReviewPending {
      SweptReviewers(t, children, stoppedRoots, now, i);
    }
  }

  /** A row that does not wait for review is decided by its own sweep. */
  lemma SweptRow(t: Table, children: map<Id, Child>, stoppedRoots: set<nat>, now: Time, r: Id)
    requires r in t
    ensures var swept, t' := SweepRows(t, children, stoppedRoots, now), RecoverTable(t, children, stoppedRoots, now);
      r in swept && r in t' && SweptTo(t[r], swept[r], t'[r])
  {
    SweptNode(t[r], ChildOf(children, r), t[r].spec.root in stoppedRoots, now);
  }

  lemma SweptNode(n: Node, child: Child, rootStopped: bool, now: Time)
    ensures var m := RecoverNode(n, child, rootStopped, now);
      m.spec == n.spec && (m.state == ReviewPending <==> n.state == ReviewPending)
  {
  }

  /** Row `n` is swept to `s` and ends up as `m`. */
  predicate SweptTo(n: Node, s: Node, m: Node) {
    && s.spec == n.spec
    && if n.state == ReviewPending then s.state == ReviewPending else s.state != ReviewPending && m == s
  }

  lemma SweptReviewers(t: Table, children: map<Id, Child>, stoppedRoots: set<nat>, now: Time, i: Id)
    ensures var t' := RecoverTable(t, children, stoppedRoots, now);
      LostReviewer(SweepRows(t, children, stoppedRoots, now), i) <==> LosesReviewer(t, t', i)
  {
    var swept, t' := SweepRows(t, children, stoppedRoots, now), RecoverTable(t, children, stoppedRoots, now);
    forall r | r in t
      ensures r in swept && r in t' && SweptTo(t[r], swept[r], t'[r])
    {
      SweptRow(t, children, stoppedRoots, now, r);
    }
    LossSame(t, swept, t', i);
  }

  lemma LossSame(t: Table, swept: Table, t': Table, i: Id)
    requires swept.Keys == t.Keys == t'.Keys
    requires forall r :: r in t ==> SweptTo(t[r], swept[r], t'[r])
    ensures LostReviewer(swept, i) <==> LosesReviewer(t, t', i)
  {
    if LostReviewer(swept, i) {
      var r :| r in swept && swept[r].spec.reviewOf == Some(i) && ReviewLost(swept[r].state);
      assert t[r].state != ReviewPending && t'[r].state == swept[r].state;
    }
  }

  /** A recovery takes a running task from its worker exactly when it requeues the row and no tool has started. */
  lemma FencedExact(t: Table, children: map<Id, Child>, stoppedRoots: set<nat>, now: Time, i: Id)
    requires i in t && i in children
    ensures var after := RecoverChildren(t, children, stoppedRoots, now);
      var requeued := t[i].state == Running && RecoverTable(t, children, stoppedRoots, now)[i].state == Queued;
      && i in after
      && after[i] == if requeued && children[i].Working? && children[i].call.None? then Waiting else children[i]
  {
    RecoveredRow(t, children, stoppedRoots, now, i);
  }

  // ---- publication ------------------------------------------------------------------

  /** The review is an approval without findings of a verified success. */
  predicate Approval(o: Outcome) {
    o.verified && o.success && o.review.Some? && o.review.value.approve && o.review.value.findings == []
  }

  /**
   The publication is in time: the row runs under the worker's live lease, before its deadline, and its root works.
   */
  predicate InTime(t: Table, id: Id, token: Token, copy: Node, rootStopped: bool, now: Time) {
    && !rootStopped && copy.spec.deadline > now
    && id in t && t[id].state == Running && Unexpired(t[id], now) && t[id].lease.value.token == token
  }

  /**
   Main result. A publication in time stores the result and frees the row. A planner completes with its success alone, a
   coder waits for review with a verified success, a reviewer completes with an approval; whoever falls short asks for a
   human, or rejects.
   */
  lemma PublishExact(t: Table, id: Id, token: Token, copy: Node, o: Outcome, rootStopped: bool, now: Time)
    requires copy.spec.reviewOf != Some(id)
    ensures var t' := PublishRow(t, id, token, copy, o, rootStopped, now);
      if InTime(t, id, token, copy, rootStopped, now) then
        && id in t' && t'[id] == t[id].(state := t'[id].state, result := Some(o), lease := None)
        && (copy.spec.persona == Planner ==> t'[id].state == if o.success then Completed else NeedsInput)
        && (copy.spec.persona == Coder ==> t'[id].state == if o.verified && o.success then ReviewPending
            else NeedsInput)
        && (copy.spec.persona == Reviewer ==> t'[id].state == if Approval(o) then Completed else Rejected)
      else t' == t
  {
  }

  /** A publication decides the coder its node reviews, if that one waits for review, and nobody else. */
  lemma PublishJudges(t: Table, id: Id, token: Token, copy: Node, o: Outcome, rootStopped: bool, now: Time, i: Id)
    requires InTime(t, id, token, copy, rootStopped, now) && copy.spec.reviewOf != Some(id) && i in t && i != id
    requires copy.spec.reviewOf.Some? ==> copy.spec.persona == Reviewer
    ensures var t' := PublishRow(t, id, token, copy, o, rootStopped, now);
      && i in t'
      && (copy.spec.reviewOf == Some(i) && t[i].state == ReviewPending ==>
            t'[i] == t[i].(state := if Approval(o) then Reviewed else Rejected, reviewedBy := Some(id)))
      && (copy.spec.reviewOf != Some(i) || t[i].state != ReviewPending ==> t'[i] == t[i])
  {
  }

  // ---- a stopped worker -------------------------------------------------------------

  /** The worker holds the row, which runs or is being cancelled. */
  predicate Ends(t: Table, id: Id, token: Token) {
    id in t && t[id].lease.Some? && t[id].lease.value.token == token && t[id].state in {Running, CancelRequested}
  }

  /** A stopped worker frees its row; what had been asked to stop is cancelled, whatever the worker reports. */
  lemma StopFrees(t: Table, id: Id, token: Token, copy: Node, stop: Stop)
    requires copy.spec.reviewOf != Some(id)
    ensures var t' := FailRow(t, id, token, copy, StopState(copy, stop));
      if Ends(t, id, token) then
        id in t' && t'[id] == t[id].(state := t'[id].state, lease := None) &&
        t'[id].state == if t[id].state == CancelRequested then Cancelled else StopState(copy, stop)
      else t' == t
  {
  }

  /** Where the errors of a worker put its node. */
  lemma ErrorStates(copy: Node)
    ensures StopState(copy, RecoveryRequired) == NeedsResolution
    ensures StopState(copy, Suspended) == NeedsInput
    ensures StopState(copy, Interrupted) == Cancelled
    ensures StopState(copy, Raised) == if copy.spec.persona == Reviewer then Rejected else Failed
    ensures StopState(copy, SupervisorError) == Failed
  {
  }

  /**
   Main result. A supervisor requeues exactly a node of a worker that neither ran out of time nor was stopped for good,
   that has attempts left, and whose task has started no tool and asks nobody; exit code 124 is a timeout, 130 and 125
   are requests to stop, which count only while the supervisor itself goes on.
   */
  lemma ExitExact(copy: Node, code: int, child: Child, shuttingDown: bool)
    ensures var state := StopState(copy, Exit(code, child, shuttingDown));
      var free := !StartedTool(child) && !child.Asking?;
      var again := copy.attempts < 3 && ((code != 130 && code != 125) || shuttingDown);
      && (state == NeedsResolution <==> StartedTool(child))
      && (state == NeedsInput <==> child.Asking?)
      && (state == TimedOut <==> free && code == 124)
      && (state == Queued <==> free && code != 124 && again)
      && (state == Cancelled <==> free && code == 130 && !again)
      && (state == Failed <==> free && code != 124 && code != 130 && !again)
  {
  }

  /** A stopped reviewer rejects the coder that waits for it; one that is requeued does not. */
  lemma StopJudges(t: Table, id: Id, token: Token, copy: Node, stop: Stop, i: Id)
    requires Ends(t, id, token) && copy.spec.reviewOf != Some(id) && i in t && i != id
    ensures var t' := FailRow(t, id, token, copy, StopState(copy, stop));
      && i in t'
      && (copy.spec.reviewOf == Some(i) && t[i].state == ReviewPending && t'[id].state != Queued ==>
            t'[i] == t[i].(state := Rejected, reviewedBy := Some(id)))
      && (copy.spec.reviewOf != Some(i) || t[i].state != ReviewPending || t'[id].state == Queued ==> t'[i] == t[i])
  {
    StopStates(copy, stop);
  }

  /**
   A requeued node's task is taken from its worker unless a tool has started; an uncertain one keeps the started
   call.
   */
  lemma StopFences(t: Table, id: Id, state: Status, c: Child)
    ensures id !in t || t[id].state == CancelRequested ==> FailChild(t, id, state, c) == c
    ensures id in t && t[id].state != CancelRequested ==>
      var d := FailChild(t, id, state, c);
      && (state == Queued && c.Working? && c.call.None? ==> d == Waiting)
      && (state == NeedsResolution && c.Working? && c.call.Some? ==> d == Unsure(c.call))
      && (d != c ==> c.Working? && if c.call.None? then state == Queued else state == NeedsResolution)
  {
  }

  // ---- the durable task -------------------------------------------------------------

  /** A worker takes over a task that waits or was left without a started tool; a started tool makes it uncertain. */
  lemma TakenOver(c: Child, token: Token)
    ensures var d := ClaimChild(c, token);
      && (d == Working(token, false, None) && d != c ==> c.Absent? || c.Waiting? || (c.Working? && c.call.None?))
      && (c.Absent? || c.Waiting? || (c.Working? && c.call.None?) ==> d == Working(token, false, None))
      && (c.Working? && c.call.Some? ==> d == Unsure(c.call))
      && (c.Asking? || c.Unsure? || c.Finished? || c.Broken? || c.Dropped? ==> d == c)
  {
  }

  /** A publication never claims more than its task achieved, and a reviewer's verdict is its task's reply. */
  lemma DeliverableMeans(persona: Persona, c: Child, o: Outcome)
    ensures Deliverable(persona, c, o) && (o.success || o.verified || persona == Reviewer) ==> c.Finished?
    ensures Deliverable(persona, c, o) && o.verified ==> c.verified
    ensures Deliverable(persona, c, o) && o.review.Some? ==> persona == Reviewer && c.review == o.review
    ensures var told := if persona == Reviewer then c.Finished? && c.review.Some? && o.review == c.review
      else o.review.None?;
      c.Finished? && (o.verified ==> c.verified) && o.merge.None? && told ==> Deliverable(persona, c, o)
  {
  }

  // ---- humans and leases ------------------------------------------------------------

  /** A renewal prolongs a live lease of the running row, for its own token only. */
  lemma RenewExact(t: Table, id: Id, token: Token, now: Time)
    ensures var t' := RenewRow(t, id, token, now);
      if id in t && t[id].state == Running && Unexpired(t[id], now) && t[id].lease.value.token == token
      then t' == t[id := t[id].(lease := Some(Lease(token, now + 90)))]
      else t' == t
  {
  }

  /**
   A merge takes a reviewed row under a lease, marks it merged only with that lease, and gives it to a human when it
   gives up; a conflict marks a row that is still reviewed; none of the four does anything else.
   */
  lemma MergeRows(t: Table, id: Id, token: Token, read: Outcome, record: MergeRecord, now: Time)
    requires id in t
    ensures var held := t[id].lease.Some? && t[id].lease.value.token == token;
      && MergeStartRow(t, id, token, now) ==
           (if t[id].state == Reviewed then t[id := t[id].(state := Merging, lease := Some(Lease(token, now + 90)))]
            else t)
      && MergeFinishRow(t, id, token, read, record) ==
           (if t[id].state == Merging && held
            then t[id := t[id].(state := Merged, result := Some(read.(merge := Some(record))), lease := None)] else t)
      && MergeConflictRow(t, id) == (if t[id].state == Reviewed then t[id := t[id].(state := Conflict)] else t)
      && MergeAbortRow(t, id, token) == (if held then t[id := t[id].(state := NeedsResolution)] else t)
  {
  }

  /**
   A human sends a row back to the queue whatever its state, and closes an uncertain one only when no worker holds
   it.
   */
  lemma HumanRows(t: Table, id: Id, now: Time)
    requires id in t
    ensures RequeueRow(t, id) == t[id := t[id].(state := Queued, lease := None)]
    ensures AbandonRow(t, id, now) ==
      if t[id].state == NeedsResolution && !Unexpired(t[id], now) then t[id := t[id].(state := Conflict, lease := None)]
      else t
    ensures DemoteRow(t, id) == if t[id].state == ReviewPending then t[id := t[id].(state := NeedsInput)] else t
  {
  }
}
