/**
 Lease fencing over whole runs: a worker's call has an effect only while its token is
 the last one claimed for its node; once fenced, a token stays powerless for ever, and
 each token publishes at most once. No guard on the run is needed.
 */
module GraphFencing {
  import opened Prelude
  import opened GraphTable
  import opened GraphRows
  import opened GraphMachine
  import opened GraphInvariant

  /** `n` no longer obeys `token`: another lease replaced it, or the row left the worker with the lease expired. */
  predicate FencedRow(n: Node, token: Token, now: Time) {
    !Holds(n, token) || (n.state !in {Running, CancelRequested} && !Live(n, now))
  }

  predicate Fenced(s: Graph, token: Token) {
    token in s.workers && s.workers[token].id in s.t && FencedRow(s.t[s.workers[token].id], token, s.clock)
  }

  // ---- where leases come from -------------------------------------------------------

  /** The row kept or dropped its lease, or received the event's fresh token. */
  predicate LeaseFrom(s: Graph, e: Event, n: Node, m: Node) {
    KeepsLease(n, m) ||
    ((e.ClaimNext? || e.MergeStart?) && e.token !in s.issued && Holds(m, e.token))
  }

  lemma BaseLeases(s: Graph, e: Event, i: Id)
    requires Inv(s) && s.clock == e.now && i in s.t && BaseEvent(e)
    ensures i in Apply(s, e).t && KeepsLease(s.t[i], Apply(s, e).t[i])
  {
    BaseStep(s, e);
    BaseIsTame(s.t, Apply(s, e).t, s.clock);
  }

  lemma IssueLeases(s: Graph, e: Event, i: Id)
    requires s.clock == e.now && i in s.t && (e.ClaimNext? || e.MergeStart?)
    ensures i in Apply(s, e).t && LeaseFrom(s, e, s.t[i], Apply(s, e).t[i])
  {
    if e.ClaimNext? { ClaimEffect(s.t, e.rows, e.busy, e.now, e.token); }
  }

  lemma InsertLeases(s: Graph, e: Event, i: Id)
    requires s.clock == e.now && i in s.t && (e.Submit? || e.ReviewInsert?)
    ensures i in Apply(s, e).t && KeepsLease(s.t[i], Apply(s, e).t[i])
  {
  }

  lemma WaitingLeases(s: Graph, e: Event, i: Id)
    requires s.clock == e.now && i in s.t
    requires e.ReviewDemote? || e.HumanRequeue? || e.MergeFinish?
    ensures i in Apply(s, e).t && KeepsLease(s.t[i], Apply(s, e).t[i])
  {
  }

  lemma PublishLeases(s: Graph, e: Event, i: Id)
    requires s.clock == e.now && i in s.t && e.Publish?
    ensures i in Apply(s, e).t && KeepsLease(s.t[i], Apply(s, e).t[i])
  {
    if Publishes(s, e) {
      PublishKeeps(s.t, s.workers[e.token].id, e.token, s.workers[e.token].copy, e.outcome, e.rootStopped, e.now);
    }
  }

  lemma LeaseOrigin(s: Graph, e: Event, i: Id)
    requires Inv(s) && s.clock == e.now && i in s.t
    ensures i in Apply(s, e).t && LeaseFrom(s, e, s.t[i], Apply(s, e).t[i])
  {
    if BaseEvent(e) {
      BaseLeases(s, e, i);
    } else if e.ClaimNext? || e.MergeStart? {
      IssueLeases(s, e, i);
    } else if e.Submit? || e.ReviewInsert? {
      InsertLeases(s, e, i);
    } else if e.Publish? {
      PublishLeases(s, e, i);
    } else if e.ReviewDemote? || e.HumanRequeue? || e.MergeFinish? {
      WaitingLeases(s, e, i);
    } else {
      ReadsLeaveTable(s, e);
    }
  }

  // ---- fenced tokens stay fenced ----------------------------------------------------

  lemma FencedRowStays(n: Node, m: Node, token: Token, before: Time, now: Time)
    requires RowMove(n, m, now) && before <= now && FencedRow(n, token, before)
    requires KeepsLease(n, m) || !Holds(m, token)
    ensures FencedRow(m, token, now)
  {
  }

  lemma FencedApply(s: Graph, e: Event, token: Token)
    requires Inv(s) && s.clock == e.now && Fenced(s, token)
    ensures Fenced(Apply(s, e), token)
  {
    var i := s.workers[token].id;
    LeaseOrigin(s, e, i);
    RowStep(s, e, i);
    WorkersKept(s, e, token);
    FencedRowStays(s.t[i], Apply(s, e).t[i], token, s.clock, s.clock);
  }

  lemma RowStep(s: Graph, e: Event, i: Id)
    requires Inv(s) && s.clock == e.now && i in s.t
    ensures i in Apply(s, e).t && RowMove(s.t[i], Apply(s, e).t[i], s.clock)
  {
    if e.Submit? || e.ReviewInsert? {
      InsertKeepsRow(s, e, i);
    } else if e.HumanRequeue? {
      RequeueMoved(s.t, e.id, e.now);
    } else {
      SteadyStep(s, e);
    }
  }

  lemma InsertKeepsRow(s: Graph, e: Event, i: Id)
    requires s.clock == e.now && i in s.t && (e.Submit? || e.ReviewInsert?)
    ensures i in Apply(s, e).t && Apply(s, e).t[i] == s.t[i]
  {
  }

  lemma WorkersKept(s: Graph, e: Event, token: Token)
    requires s.clock == e.now && token in s.workers && token in s.issued
    ensures token in Apply(s, e).workers && Apply(s, e).workers[token] == s.workers[token]
    ensures Apply(s, e).clock == s.clock
  {
    if TaskEvent(e) { TaskTokens(s, e); } else { WorkersKeptByRows(s, e, token); }
  }

  lemma WorkersKeptByRows(s: Graph, e: Event, token: Token)
    requires s.clock == e.now && token in s.workers && token in s.issued && !TaskEvent(e)
    ensures token in Apply(s, e).workers && Apply(s, e).workers[token] == s.workers[token]
    ensures Apply(s, e).clock == s.clock
  {
  }

  lemma FencedNext(s: Graph, e: Event, token: Token)
    requires Inv(s) && Fenced(s, token)
    ensures Fenced(Next(s, e), token)
  {
    if s.clock <= e.now {
      TickInv(s, e.now);
      FencedApply(s.(clock := e.now), e, token);
    }
  }

  /** The worker calls: everything a process holding `token` may ask for. */
  predicate WorkerCall(e: Event, token: Token) {
    (e.Renew? && e.token == token) || (e.Publish? && e.token == token) || (e.Fail? && e.token == token)
  }

  /** A fenced worker's calls change nothing but the clock. */
  lemma FencedPowerless(s: Graph, e: Event, token: Token)
    requires Fenced(s, token) && WorkerCall(e, token)
    ensures Next(s, e) == s.(clock := if e.now < s.clock then s.clock else e.now)
  {
  }

  /**
   Main result. Once fenced, a token is powerless after any further run: every renew, publish or fail
   it makes leaves the graph as it is.
   */
  lemma {:induction false} FencedForEver(s: Graph, es: seq<Event>, e: Event, token: Token)
    requires Inv(s) && Fenced(s, token) && WorkerCall(e, token)
    ensures Fenced(Run(s, es), token)
    ensures var s' := Run(s, es); Next(s', e) == s'.(clock := if e.now < s'.clock then s'.clock else e.now)
    decreases |es|
  {
    if es == [] {
      FencedPowerless(s, e, token);
    } else {
      InvNext(s, es[0]);
      FencedNext(s, es[0], token);
      FencedForEver(Next(s, es[0]), es[1..], e, token);
    }
  }

  // ---- what fences a token ----------------------------------------------------------

  /** A claim of a node fences every earlier worker of that node. */
  lemma ClaimFences(s: Graph, e: Event, token: Token)
    requires Inv(s) && s.clock == e.now && e.ClaimNext? && token in s.workers
    requires e.token !in s.issued && e.token in Apply(s, e).workers
    requires Apply(s, e).workers[e.token].id == s.workers[token].id
    ensures Fenced(Apply(s, e), token)
  {
    ClaimEffect(s.t, e.rows, e.busy, e.now, e.token);
  }

  /** A recovery that requeues a node fences the worker that held it. */
  lemma RecoveryFences(s: Graph, e: Event, token: Token)
    requires Inv(s) && s.clock == e.now && e.Recover? && token in s.workers
    requires var i := s.workers[token].id; s.t[i].state == Running && Apply(s, e).t[i].state == Queued
    ensures Fenced(Apply(s, e), token)
  {
    var i := s.workers[token].id;
    SweepMoves(s.t[i], ChildOf(s.children, i), s.t[i].spec.root in e.stoppedRoots, e.now);
  }

  lemma PublishFences(s: Graph, e: Event)
    requires Inv(s) && s.clock == e.now && e.Publish? && Publishes(s, e)
    ensures Fenced(Apply(s, e), e.token)
  {
    WorkerSpec(s, e.token);
  }

  lemma FailFences(s: Graph, e: Event)
    requires Inv(s) && s.clock == e.now && e.Fail? && Fails(s, e)
    ensures Fenced(Apply(s, e), e.token)
  {
    WorkerSpec(s, e.token);
  }

  /** A worker that has published, or has stopped its node, is fenced. */
  lemma EndFences(s: Graph, e: Event, token: Token)
    requires Inv(s) && s.clock == e.now && token in s.workers && (e.Publish? || e.Fail?) && e.token == token
    requires if e.Publish? then Publishes(s, e) else Fails(s, e)
    ensures Fenced(Apply(s, e), token)
  {
    if e.Publish? { PublishFences(s, e); } else { FailFences(s, e); }
  }

  /** A requeue by a human, guarded or not, fences the worker of that node. */
  lemma RequeueFences(s: Graph, e: Event, token: Token)
    requires Inv(s) && s.clock == e.now && e.HumanRequeue? && e.id in s.answered
    requires token in s.workers && s.workers[token].id == e.id
    ensures Fenced(Apply(s, e), token)
  {
  }

  // ---- effects come from the last claim ---------------------------------------------

  predicate SameClaim(w: Worker, v: Worker) {
    w.id == v.id && w.copy.attempts == v.copy.attempts
  }

  /** Claims of one node are numbered by its attempts: no claim is ahead of the row, no two share a number. */
  ghost predicate ClaimsNumbered(s: Graph) {
    && (forall k :: k in s.workers ==>
          s.workers[k].id in s.t && s.workers[k].copy.attempts <= s.t[s.workers[k].id].attempts)
    && (forall k, q :: k in s.workers && q in s.workers && SameClaim(s.workers[k], s.workers[q]) ==> k == q)
  }

  /** The claim an event adds, if any: its copy carries the new attempt count of its row. */
  lemma NewClaim(s: Graph, e: Event)
    requires Inv(s) && s.clock == e.now
    ensures var s' := Apply(s, e);
      forall k :: k in s'.workers && !(k in s.workers && s'.workers[k] == s.workers[k]) ==>
        s'.workers[k].id in s.t && s'.workers[k].id in s'.t &&
        s'.workers[k].copy.attempts == s'.t[s'.workers[k].id].attempts == s.t[s'.workers[k].id].attempts + 1
  {
    OneNewClaim(s, e);
    if e.ClaimNext? { NewClaimed(s, e); }
  }

  lemma NewClaimed(s: Graph, e: Event)
    requires s.clock == e.now && e.ClaimNext?
    ensures var s' := Apply(s, e);
      e.token in s'.workers && e.token !in s.workers ==>
        s'.workers[e.token].id in s.t && s'.workers[e.token].id in s'.t &&
        s'.workers[e.token].copy.attempts == s'.t[s'.workers[e.token].id].attempts ==
          s.t[s'.workers[e.token].id].attempts + 1
  {
    ClaimEffect(s.t, e.rows, e.busy, e.now, e.token);
  }

  lemma ClaimsNumberedNext(s: Graph, e: Event)
    requires Inv(s) && s.clock == e.now && ClaimsNumbered(s)
    ensures ClaimsNumbered(Apply(s, e))
  {
    var s' := Apply(s, e);
    NewClaim(s, e);
    OneNewClaim(s, e);
    forall k | k in s'.workers
      ensures s'.workers[k].id in s'.t && s'.workers[k].copy.attempts <= s'.t[s'.workers[k].id].attempts
    {
      RowStepOf(s, e, s'.workers[k].id);
    }
  }

  lemma RowStepOf(s: Graph, e: Event, i: Id)
    requires Inv(s) && s.clock == e.now
    ensures i in s.t ==> i in Apply(s, e).t && Apply(s, e).t[i].attempts >= s.t[i].attempts
  {
    if i in s.t {
      RowStep(s, e, i);
      ResultKept(s.t[i], Apply(s, e).t[i], s.clock);
    }
  }

  lemma OneNewClaim(s: Graph, e: Event)
    requires s.clock == e.now
    ensures var s' := Apply(s, e);
      forall k :: k in s'.workers && !(k in s.workers && s'.workers[k] == s.workers[k]) ==> e.ClaimNext? && k == e.token
  {
  }

  /**
   Main result. A worker call that changes a row was made with the token the node still holds, and that
   token is the last one claimed for the node: every other claim of it has a smaller number.
   */
  lemma EffectOfLastClaim(s: Graph, e: Event, token: Token)
    requires Inv(s) && ClaimsNumbered(s) && s.clock == e.now && WorkerCall(e, token)
    requires Apply(s, e).t != s.t
    ensures token in s.workers
    ensures var i := s.workers[token].id;
      && i in s.t && Holds(s.t[i], token) && !Fenced(s, token)
      && forall q :: q in s.workers && s.workers[q].id == i && q != token ==>
           s.workers[q].copy.attempts < s.workers[token].copy.attempts
  {
    WorkerEffect(s, e, token);
    HolderIsLast(s, token);
  }

  /** The worker whose token is in the row made the last claim of it. */
  lemma HolderIsLast(s: Graph, token: Token)
    requires Inv(s) && ClaimsNumbered(s) && token in s.workers
    requires s.workers[token].id in s.t && Holds(s.t[s.workers[token].id], token)
    ensures forall q :: q in s.workers && s.workers[q].id == s.workers[token].id && q != token ==>
      s.workers[q].copy.attempts < s.workers[token].copy.attempts
  {
    var i := s.workers[token].id;
    assert LeaseOk(s.workers, s.merges, i, s.t[i]);
    forall q | q in s.workers && s.workers[q].id == i && q != token
      ensures s.workers[q].copy.attempts < s.workers[token].copy.attempts
    {
      assert !SameClaim(s.workers[q], s.workers[token]);
    }
  }

  lemma WorkerEffect(s: Graph, e: Event, token: Token)
    requires s.clock == e.now && WorkerCall(e, token) && Apply(s, e).t != s.t
    ensures token in s.workers
    ensures var i := s.workers[token].id; i in s.t && Holds(s.t[i], token) && !FencedRow(s.t[i], token, s.clock)
  {
  }

  // ---- each token publishes at most once --------------------------------------------

  ghost predicate PublishedOnce(s: Graph) {
    forall k :: k in s.published ==> s.published[k] == 1 && Fenced(s, k)
  }

  lemma PublishedBy(s: Graph, e: Event, k: Token)
    requires s.clock == e.now
    ensures var n := Apply(s, e).published[k];
      n == s.published[k] ||
      (e.Publish? && k == e.token && n == s.published[k] + 1 && Publishes(s, e))
  {
  }

  lemma PublishedApply(s: Graph, e: Event)
    requires Inv(s) && s.clock == e.now && PublishedOnce(s)
    ensures PublishedOnce(Apply(s, e))
  {
    var s' := Apply(s, e);
    forall k | k in s'.published
      ensures s'.published[k] == 1 && Fenced(s', k)
    {
      PublishedBy(s, e, k);
      if k in s.published {
        FencedApply(s, e, k);
      } else {
        EndFences(s, e, k);
      }
    }
  }

  ghost predicate FencingOk(s: Graph) {
    ClaimsNumbered(s) && PublishedOnce(s)
  }

  lemma FencingApply(s: Graph, e: Event)
    requires Inv(s) && s.clock == e.now && FencingOk(s)
    ensures FencingOk(Apply(s, e))
  {
    assert ClaimsNumbered(Apply(s, e)) by { ClaimsNumberedNext(s, e); }
    assert PublishedOnce(Apply(s, e)) by { PublishedApply(s, e); }
  }

  lemma FencingTick(s: Graph, now: Time)
    requires FencingOk(s) && s.clock <= now
    ensures FencingOk(s.(clock := now))
  {
  }

  lemma FencingNext(s: Graph, e: Event)
    requires Inv(s) && FencingOk(s)
    ensures FencingOk(Next(s, e))
  {
    if s.clock <= e.now {
      TickInv(s, e.now);
      FencingTick(s, e.now);
      FencingApply(s.(clock := e.now), e);
      assert Next(s, e) == Apply(s.(clock := e.now), e);
    } else {
      assert Next(s, e) == s;
    }
  }

  /** Every run numbers its claims, and each token publishes at most once in it. */
  lemma {:induction false} FencingRun(s: Graph, es: seq<Event>)
    requires Inv(s) && FencingOk(s)
    ensures Inv(Run(s, es)) && FencingOk(Run(s, es))
    decreases |es|
  {
    if es != [] {
      InvNext(s, es[0]);
      FencingNext(s, es[0]);
      FencingRun(Next(s, es[0]), es[1..]);
    }
  }

  lemma Beginning()
    ensures Inv(INIT) && FencingOk(INIT)
  {
  }

  lemma TokenPublishesOnce(s: Graph, token: Token)
    requires Reachable(s)
    ensures s.published[token] <= 1
    ensures ClaimsNumbered(s)
  {
    var es :| Run(INIT, es) == s;
    Beginning();
    FencingRun(INIT, es);
    assert FencingOk(s);
  }
}
