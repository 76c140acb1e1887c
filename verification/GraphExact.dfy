/**
 Review of exactly the delivered commit. When the steps of `ensure_review` are undisturbed and human requeues
 keep coders and reviewers paired, the reviewer of an accepted coder worked on the commit in the coder's
 stored result, whatever re-runs, failures, cancellations and recoveries happened before. Each guard is
 exactly what its step needs, and an atomic `ensure_review` meets its own.
 */
module GraphExact {
  import opened Prelude
  import opened GraphTable
  import opened GraphRows
  import opened GraphMachine
  import opened GraphInvariant
  import opened GraphReview
  import opened GraphResolve

  /** How a coder row and its reviewer row fit together. */
  predicate Exact(coder: Node, reviewer: Node) {
    && (coder.state == ReviewPending && !Closed(reviewer.state) ==>
          coder.result.Some? && reviewer.spec.snapshot == coder.result.value.commit)
    && (Accepted(coder.state) ==>
          Closed(reviewer.state) && coder.result.Some? && reviewer.spec.snapshot == coder.result.value.commit)
    && (coder.state == ReviewPending || Closed(reviewer.state) || Dead(coder))
  }

  ghost predicate ExactTable(t: Table) {
    forall r :: r in t && t[r].spec.reviewOf.Some? ==>
      t[r].spec.reviewOf.value in t && Exact(t[t[r].spec.reviewOf.value], t[r])
  }

  ghost predicate ExactInv(s: Graph) {
    GateInv(s) && ExactTable(s.t)
  }

  // ---- one pair of rows -------------------------------------------------------------

  lemma PairStep(c: Node, r: Node, c': Node, r': Node, before: Time, now: Time)
    requires RowOk(c, before) && RowOk(r, before) && before <= now && r.spec.persona == Reviewer
    requires CalmMove(c, c', now) && CalmMove(r, r', now) && Exact(c, r)
    requires c.state == ReviewPending && c'.state == NeedsInput ==> Closed(r.state)
    requires c.state == ReviewPending && c'.state == Reviewed ==> !Closed(r.state) && Closed(r'.state)
    requires Accepted(c.state) && Accepted(c'.state) ==>
      c'.result.Some? && c.result.Some? && Bare(c'.result.value) == Bare(c.result.value)
    ensures Exact(c', r')
  {
    ResultKept(r, r', now);
    if Closed(r.state) { ClosedStays(r, r', before, now); }
    if Dead(c) { DeadStays(c, c', before, now); }
    if Accepted(c'.state) { AcceptedFrom(c, c', before, now); }
    WaitingFrom(c, c', before, now);
  }

  /** What an event may do to a coder that has a reviewer. */
  ghost predicate Reviewing(t: Table, t': Table, c: Id, r: Id)
    requires c in t && r in t && c in t' && r in t'
  {
    && (t[c].state == ReviewPending && t'[c].state == NeedsInput ==> Closed(t[r].state))
    && (t[c].state == ReviewPending && t'[c].state == Reviewed ==> !Closed(t[r].state) && Closed(t'[r].state))
  }

  lemma ExactKept(t: Table, t': Table, before: Time, now: Time)
    requires ExactTable(t) && RowsOk(t, before) && before <= now && CalmlyMoved(t, t', now) && Frozen(t, t')
    requires EdgesPointBack(SpecsOf(t))
    requires forall r :: r in t && t[r].spec.reviewOf.Some? ==> Reviewing(t, t', t[r].spec.reviewOf.value, r)
    ensures ExactTable(t')
  {
    SpecsLookup(t);
    forall r | r in t' && t'[r].spec.reviewOf.Some?
      ensures t'[r].spec.reviewOf.value in t' && Exact(t'[t'[r].spec.reviewOf.value], t'[r])
    {
      ResultKept(t[r], t'[r], now);
      var c := t[r].spec.reviewOf.value;
      assert EdgesOk(SpecsOf(t), t[r].spec);
      assert Exact(t[c], t[r]) && Reviewing(t, t', c, r);
      PairStep(t[c], t[r], t'[c], t'[r], before, now);
    }
  }

  // ---- one event --------------------------------------------------------------------

  lemma PublishRowReviewing(t: Table, id: Id, token: Token, copy: Node, o: Outcome, rootStopped: bool, now: Time, c: Id,
                            r: Id)
    requires id in t && t[id].spec == copy.spec && copy.spec.reviewOf != Some(id)
    requires copy.spec.reviewOf.Some? ==> copy.spec.persona == Reviewer
    requires c in t && r in t && (copy.spec.reviewOf == Some(c) ==> id == r)
    ensures var t' := PublishRow(t, id, token, copy, o, rootStopped, now);
      t'.Keys == t.Keys && Reviewing(t, t', c, r)
  {
    var t' := PublishRow(t, id, token, copy, o, rootStopped, now);
    if t[c].state == ReviewPending && t'[c].state == Reviewed {
      PublishApproves(t, id, token, copy, o, rootStopped, now, c);
    }
  }

  lemma PublishReviewing(s: Graph, e: Event, r: Id)
    requires GateInv(s) && s.clock == e.now && e.Publish?
    requires r in s.t && s.t[r].spec.reviewOf.Some? && s.t[r].spec.reviewOf.value in s.t
    ensures Apply(s, e).t.Keys == s.t.Keys && Reviewing(s.t, Apply(s, e).t, s.t[r].spec.reviewOf.value, r)
  {
    if e.token in s.workers {
      var w := s.workers[e.token];
      var c := s.t[r].spec.reviewOf.value;
      WorkerSpec(s, e.token);
      WorkerReviews(s, e.token);
      if w.copy.spec.reviewOf == Some(c) { SameReviewer(s, r, w.id); }
      PublishRowReviewing(s.t, w.id, e.token, w.copy, e.outcome, e.rootStopped, e.now, c, r);
    }
  }

  lemma SameReviewer(s: Graph, r: Id, q: Id)
    requires Inv(s) && r in s.t && q in s.t && s.t[r].spec.reviewOf.Some? &&
      s.t[q].spec.reviewOf == s.t[r].spec.reviewOf
    ensures r == q
  {
    SpecsLookup(s.t);
    assert SpecsOf(s.t)[r].reviewOf == SpecsOf(s.t)[q].reviewOf;
  }

  lemma TameReviewing(s: Graph, e: Event, r: Id)
    requires GateInv(s) && s.clock == e.now && TameEvent(e)
    requires r in s.t && s.t[r].spec.reviewOf.Some? && s.t[r].spec.reviewOf.value in s.t
    ensures Apply(s, e).t.Keys == s.t.Keys && Reviewing(s.t, Apply(s, e).t, s.t[r].spec.reviewOf.value, r)
  {
    TameStep(s, e);
    TameIsCalm(s.t, Apply(s, e).t, s.clock);
  }

  lemma FinishRowReviewing(t: Table, id: Id, token: Token, read: Outcome, record: MergeRecord, c: Id, r: Id)
    requires c in t && r in t
    ensures var t' := MergeFinishRow(t, id, token, read, record); t'.Keys == t.Keys && Reviewing(t, t', c, r)
  {
  }

  lemma FinishReviewing(s: Graph, e: Event, r: Id)
    requires GateInv(s) && s.clock == e.now && e.MergeFinish?
    requires r in s.t && s.t[r].spec.reviewOf.Some? && s.t[r].spec.reviewOf.value in s.t
    ensures Apply(s, e).t.Keys == s.t.Keys && Reviewing(s.t, Apply(s, e).t, s.t[r].spec.reviewOf.value, r)
  {
    if e.token in s.merges {
      FinishRowReviewing(s.t, s.merges[e.token].id, e.token, s.merges[e.token].result, e.record,
                         s.t[r].spec.reviewOf.value, r);
    }
  }

  lemma DemoteRowReviewing(t: Table, d: Id, c: Id, r: Id)
    requires c in t && r in t && t[r].spec.reviewOf == Some(c) && Demotable(t, d)
    ensures DemoteRow(t, d).Keys == t.Keys && Reviewing(t, DemoteRow(t, d), c, r)
  {
  }

  lemma ReturnReviewing(s: Graph, e: Event, r: Id)
    requires s.clock == e.now && e.ReviewDemote? && ReviewGuarded(s, e)
    requires r in s.t && s.t[r].spec.reviewOf.Some? && s.t[r].spec.reviewOf.value in s.t
    ensures Apply(s, e).t.Keys == s.t.Keys && Reviewing(s.t, Apply(s, e).t, s.t[r].spec.reviewOf.value, r)
  {
    if e.ticket in s.reviewReads {
      DemoteRowReviewing(s.t, e.ticket.coder, s.t[r].spec.reviewOf.value, r);
    }
  }

  lemma ExactStep(s: Graph, e: Event)
    requires ExactInv(s) && s.clock == e.now && ReviewGuarded(s, e)
    requires !e.Submit? && !e.ReviewInsert? && !e.HumanRequeue?
    ensures ExactTable(Apply(s, e).t)
  {
    var t' := Apply(s, e).t;
    CalmStep(s, e);
    GateStep(s, e);
    forall r | r in s.t && s.t[r].spec.reviewOf.Some?
      ensures Reviewing(s.t, t', s.t[r].spec.reviewOf.value, r)
    {
      if e.Publish? {
        PublishReviewing(s, e, r);
      } else if e.MergeFinish? {
        FinishReviewing(s, e, r);
      } else if e.ReviewDemote? {
        ReturnReviewing(s, e, r);
      } else {
        TameReviewing(s, e, r);
      }
    }
    ExactKept(s.t, t', s.clock, s.clock);
  }

  // ---- a human requeue --------------------------------------------------------------

  lemma RequeuePairs(t: Table, id: Id)
    requires ExactTable(t) && id in t && Reopenable(t, id)
    requires t[id].spec.reviewOf != Some(id)
    ensures ExactTable(RequeueRow(t, id))
  {
    var t' := RequeueRow(t, id);
    forall r | r in t' && t'[r].spec.reviewOf.Some?
      ensures t'[r].spec.reviewOf.value in t' && Exact(t'[t'[r].spec.reviewOf.value], t'[r])
    {
      assert Exact(t[t[r].spec.reviewOf.value], t[r]);
    }
  }

  lemma RequeueUnpairs(t: Table, id: Id)
    requires id in t && !Reopenable(t, id) && t[id].spec.reviewOf != Some(id)
    requires t[id].spec.reviewOf.Some? ==> t[id].spec.reviewOf.value in t
    ensures !ExactTable(RequeueRow(t, id))
  {
    var t' := RequeueRow(t, id);
    if r :| r in t && t[r].spec.reviewOf == Some(id) && !Closed(t[r].state) {
      assert t'[r] == t[r] && !Exact(t'[id], t'[r]);
    } else {
      var c := t[id].spec.reviewOf.value;
      assert t'[c] == t[c] && !Exact(t'[c], t'[id]);
    }
  }

  lemma NobodyReviewsItself(s: Graph, id: Id)
    requires Inv(s) && id in s.t
    ensures s.t[id].spec.reviewOf != Some(id)
    ensures s.t[id].spec.reviewOf.Some? ==> s.t[id].spec.reviewOf.value in s.t
  {
    SpecsLookup(s.t);
    assert EdgesOk(SpecsOf(s.t), s.t[id].spec);
  }

  /**
   The guard is exact: a human requeue keeps coders and reviewers paired if and only if the node may be
   reopened.
   */
  lemma PairGuardExact(s: Graph, e: Event)
    requires ExactInv(s) && s.clock == e.now && e.HumanRequeue?
    ensures ExactTable(Apply(s, e).t) <==> KeepsPairs(s, e)
    ensures ExactInv(Apply(s, e)) <==> SparesApprovals(s, e) && KeepsPairs(s, e)
  {
    if Requeues(s, e) {
      NobodyReviewsItself(s, e.id);
      if Reopenable(s.t, e.id) { RequeuePairs(s.t, e.id); } else { RequeueUnpairs(s.t, e.id); }
    }
    ApprovalGuardExact(s, e);
  }

  /** It is enough that the node still waits for a human. */
  lemma WaitingKeepsPairs(s: Graph, e: Event)
    requires ExactInv(s) && WaitingGuarded(s, e)
    ensures KeepsPairs(s, e)
  {
    if Requeues(s, e) {
      NobodyReviewsItself(s, e.id);
      forall r | r in s.t && s.t[r].spec.reviewOf == Some(e.id)
        ensures Closed(s.t[r].state)
      {
        assert Exact(s.t[e.id], s.t[r]);
      }
    }
  }

  lemma ExactInsertion(s: Graph, e: Event)
    requires ExactInv(s) && s.clock == e.now && ReviewGuarded(s, e) && (e.Submit? || e.ReviewInsert?)
    ensures ExactTable(Apply(s, e).t)
  {
  }

  /**
   The guard is exact: a step of `ensure_review` keeps coders and reviewers paired at the same commit if and
   only if it is guarded.
   */
  lemma ReviewGuardExact(s: Graph, e: Event)
    requires ExactInv(s) && s.clock == e.now && (e.ReviewInsert? || e.ReviewDemote?)
    ensures ExactTable(Apply(s, e).t) <==> ReviewGuarded(s, e)
  {
    if ReviewGuarded(s, e) {
      if e.ReviewInsert? { ExactInsertion(s, e); } else { ExactStep(s, e); }
    } else if e.ReviewInsert? {
      UnguardedInsert(s, e);
    } else {
      UnguardedDemote(s, e);
    }
  }

  lemma UnguardedInsert(s: Graph, e: Event)
    requires ReadsOk(s) && s.clock == e.now && e.ReviewInsert? && !ReviewGuarded(s, e)
    ensures !ExactTable(Apply(s, e).t)
  {
    var t', c := Apply(s, e).t, e.ticket.coder;
    assert ReviewReadOk(s.t, e.ticket);
    assert t' == s.t[e.id := ReviewerRow(s, e.ticket, e.deadline)];
    assert t'[e.id].spec.reviewOf == Some(c) && t'[c] == s.t[c];
    assert !Exact(t'[c], t'[e.id]);
  }

  lemma UnguardedDemoteRow(t: Table, c: Id, r: Id)
    requires c in t && t[c].state == ReviewPending && r in t && r != c
    requires t[r].spec.reviewOf == Some(c) && !Closed(t[r].state)
    ensures !ExactTable(DemoteRow(t, c))
  {
    var t' := DemoteRow(t, c);
    assert t'[r] == t[r] && t'[c].state == NeedsInput;
    assert !Exact(t'[c], t'[r]);
  }

  lemma UnguardedDemote(s: Graph, e: Event)
    requires s.clock == e.now && e.ReviewDemote? && !ReviewGuarded(s, e)
    requires Shape(SpecsOf(s.t))
    ensures !ExactTable(Apply(s, e).t)
  {
    var c := e.ticket.coder;
    var r :| r in s.t && s.t[r].spec.reviewOf == Some(c) && !Closed(s.t[r].state);
    assert r != c by {
      SpecsLookup(s.t);
      assert EdgesOk(SpecsOf(s.t), s.t[r].spec);
    }
    UnguardedDemoteRow(s.t, c, r);
  }

  lemma ExactApply(s: Graph, e: Event)
    requires ExactInv(s) && s.clock == e.now && GuardHolds(s, e, EXACT)
    ensures ExactInv(Apply(s, e))
  {
    GateApply(s, e);
    if e.Submit? || e.ReviewInsert? {
      ExactInsertion(s, e);
    } else if e.HumanRequeue? {
      PairGuardExact(s, e);
    } else {
      ExactStep(s, e);
    }
  }

  /** The guards do not look at the clock. */
  lemma TickGuards(s: Graph, e: Event)
    requires GuardHolds(s, e, EXACT)
    ensures GuardHolds(s.(clock := e.now), e, EXACT)
  {
  }

  lemma ExactNext(s: Graph, e: Event)
    requires ExactInv(s) && GuardHolds(s, e, EXACT)
    ensures ExactInv(Next(s, e))
  {
    if s.clock <= e.now {
      TickGate(s, e.now);
      TickGuards(s, e);
      ExactApply(s.(clock := e.now), e);
      assert Next(s, e) == Apply(s.(clock := e.now), e);
    } else {
      assert Next(s, e) == s;
    }
  }

  lemma {:induction false} ExactRun(s: Graph, es: seq<Event>)
    requires ExactInv(s) && Guarded(s, es, EXACT)
    ensures ExactInv(Run(s, es))
    decreases |es|
  {
    if es != [] {
      ExactNext(s, es[0]);
      ExactRun(Next(s, es[0]), es[1..]);
    }
  }

  lemma {:induction false} GuardedWeaker(s: Graph, es: seq<Event>)
    requires Guarded(s, es, EXACT)
    ensures Guarded(s, es, APPROVALS)
    decreases |es|
  {
    if es != [] { GuardedWeaker(Next(s, es[0]), es[1..]); }
  }

  /** In every run whose human requeues and review steps meet their exact guards, coders are reviewed as delivered. */
  lemma ReviewedWhileSpared(es: seq<Event>, i: Id)
    requires Guarded(INIT, es, EXACT)
    requires var t := Run(INIT, es).t; i in t && Accepted(t[i].state)
    ensures ReviewedAsDelivered(Run(INIT, es).t, i)
  {
    ExactRun(INIT, es);
    GuardedWeaker(INIT, es);
    AcceptedWhileSpared(es, i);
    var t := Run(INIT, es).t;
    assert Exact(t[i], t[t[i].reviewedBy.value]);
  }

  /** The reviewer of `i` approved, and looked at the commit in the stored result of `i`. */
  predicate ReviewedAsDelivered(t: Table, i: Id)
    requires i in t
  {
    && t[i].result.Some? && t[i].reviewedBy.Some?
    && ApprovedBy(t, i, t[i].reviewedBy.value)
    && t[t[i].reviewedBy.value].spec.snapshot == t[i].result.value.commit
  }

  const CURRENT := Guards(false, false, true, true, true)

  /** When nobody starts a named call, the guard of approvals is met all along the run. */
  lemma {:induction false} CurrentExact(s: Graph, es: seq<Event>)
    requires ResolveInv(s) && Guarded(s, es, CURRENT)
    ensures Guarded(s, es, EXACT)
    decreases |es|
  {
    if es != [] {
      UpdateSpares(s, es[0]);
      ResolveNext(s, es[0]);
      CurrentExact(Next(s, es[0]), es[1..]);
    }
  }

  /**
   Main result. In every run in which nobody starts a named call, human updates keep coders and reviewers paired, and
   review steps are undisturbed, an accepted coder was reviewed at exactly the commit in its stored result: its
   reviewer's snapshot is that commit.
   */
  lemma ReviewedAtDeliveredCommit(es: seq<Event>, i: Id)
    requires Guarded(INIT, es, CURRENT)
    requires var t := Run(INIT, es).t; i in t && Accepted(t[i].state)
    ensures ReviewedAsDelivered(Run(INIT, es).t, i)
  {
    ResolveStart();
    CurrentExact(INIT, es);
    ReviewedWhileSpared(es, i);
  }

  // ---- an atomic `ensure_review` ----------------------------------------------------

  /** `e` is an insertion or demotion on the ticket that `ensure_review` reads in state `s`. */
  predicate OwnStep(s: Graph, coder: Id, e: Event) {
    CanReadForReview(s, coder) && (e.ReviewInsert? || e.ReviewDemote?) &&
    e.ticket == ReviewTicket(coder, s.t[coder], s.t[coder].result.value.commit)
  }

  /** Every insertion or demotion of the run follows its own read directly: `ensure_review` is one step. */
  ghost predicate AtomicReview(s: Graph, es: seq<Event>)
    decreases |es|
  {
    es != [] ==>
      if es[0].ReviewRead? && |es| > 1 && (es[1].ReviewInsert? || es[1].ReviewDemote?)
      then OwnStep(s, es[0].coder, es[1]) && AtomicReview(Next(Next(s, es[0]), es[1]), es[2..])
      else !es[0].ReviewInsert? && !es[0].ReviewDemote? && AtomicReview(Next(s, es[0]), es[1..])
  }

  lemma OwnStepGuarded(s: Graph, read: Event, e: Event)
    requires read.ReviewRead? && OwnStep(s, read.coder, e)
    ensures ReviewGuarded(Next(s, read), e)
  {
    assert Next(s, read).t == s.t;
  }

  const PAIRED := Guards(false, false, true, false, true)

  /** An atomic `ensure_review` meets its guard all along the run. */
  lemma {:induction false} AtomicGuarded(s: Graph, es: seq<Event>)
    requires AtomicReview(s, es) && Guarded(s, es, PAIRED)
    ensures Guarded(s, es, CURRENT)
    decreases |es|
  {
    if es != [] {
      var s1 := Next(s, es[0]);
      if es[0].ReviewRead? && |es| > 1 && (es[1].ReviewInsert? || es[1].ReviewDemote?) {
        OwnStepGuarded(s, es[0], es[1]);
        assert es[1..][1..] == es[2..];
        AtomicGuarded(Next(s1, es[1]), es[2..]);
        assert Guarded(s1, es[1..], CURRENT);
      } else {
        AtomicGuarded(s1, es[1..]);
      }
    }
  }

  /**
   Main result. With an atomic `ensure_review`, an accepted coder was reviewed at exactly the commit in its stored
   result, in every run in which nobody starts a named call and human updates keep coders and reviewers paired.
   */
  lemma AtomicReviewExact(es: seq<Event>, i: Id)
    requires AtomicReview(INIT, es) && Guarded(INIT, es, PAIRED)
    requires var t := Run(INIT, es).t; i in t && Accepted(t[i].state)
    ensures ReviewedAsDelivered(Run(INIT, es).t, i)
  {
    AtomicGuarded(INIT, es);
    ReviewedAtDeliveredCommit(es, i);
  }

  lemma {:induction false} WaitingPaired(s: Graph, es: seq<Event>)
    requires ExactInv(s) && Guarded(s, es, Guards(true, false, false, true, false))
    ensures Guarded(s, es, EXACT)
    decreases |es|
  {
    if es != [] {
      WaitingSparesApprovals(s, es[0]);
      WaitingKeepsPairs(s, es[0]);
      ExactNext(s, es[0]);
      WaitingPaired(Next(s, es[0]), es[1..]);
    }
  }
}
