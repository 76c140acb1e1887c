/**
 Independent review. When no human requeue reopens a reviewer whose approval is relied on, a coder is
 delivered only on the approval of its one reviewer, and neither result changes afterwards. `GraphResolve`
 shows when no requeue does.
 */
module GraphReview {
  import opened Prelude
  import opened GraphTable
  import opened GraphRows
  import opened GraphMachine
  import opened GraphInvariant

  /** The result without the record a merge adds. */
  function Bare(o: Outcome): Outcome {
    o.(merge := None)
  }

  // ---- single rows ------------------------------------------------------------------

  lemma ClosedStays(n: Node, m: Node, before: Time, now: Time)
    requires RowOk(n, before) && before <= now && CalmMove(n, m, now)
    requires n.spec.persona == Reviewer && Closed(n.state)
    ensures m.result == n.result && (m.state == n.state || m.state == Cancelled)
  {
  }

  lemma DeadStays(n: Node, m: Node, before: Time, now: Time)
    requires RowOk(n, before) && before <= now && CalmMove(n, m, now) && Dead(n)
    ensures Dead(m)
  {
  }

  /** A coder becomes accepted only from waiting, and then its result and reviewer stay. */
  lemma AcceptedFrom(n: Node, m: Node, before: Time, now: Time)
    requires RowOk(n, before) && before <= now && CalmMove(n, m, now) && Accepted(m.state)
    ensures (n.state == ReviewPending && m.state == Reviewed && m.result == n.result) ||
            (Accepted(n.state) && m.reviewedBy == n.reviewedBy &&
             (m.result == n.result || (n.state == Merging && m.state == Merged)))
  {
  }

  lemma WaitingFrom(n: Node, m: Node, before: Time, now: Time)
    requires RowOk(n, before) && before <= now && CalmMove(n, m, now)
    ensures m.state == ReviewPending ==> n.state == Running || m == n
    ensures n.state == ReviewPending ==> m == n || Dead(m) || m.state == NeedsInput || m.state == Reviewed
  {
  }

  // ---- the gate ---------------------------------------------------------------------

  /** `r` is the reviewer of `i`, finished, with a verified approval. */
  predicate ApprovedBy(t: Table, i: Id, r: Id) {
    r in t && t[r].spec.reviewOf == Some(i) && t[r].state in {Completed, Cancelled} &&
    t[r].result.Some? && Approves(t[r].result.value)
  }

  predicate GateAt(t: Table, i: Id)
    requires i in t
  {
    Accepted(t[i].state) ==> t[i].reviewedBy.Some? && ApprovedBy(t, i, t[i].reviewedBy.value)
  }

  /** What a merge read belongs to an approved coder, and matches its result while the coder is accepted. */
  predicate MergeReadCurrent(t: Table, r: MergeTicket) {
    r.id in t && ApprovedBy(t, r.id, r.reviewer) &&
    (Accepted(t[r.id].state) ==> t[r.id].result.Some? && Bare(t[r.id].result.value) == Bare(r.result))
  }

  ghost predicate Gate(t: Table) {
    forall i :: i in t ==> GateAt(t, i)
  }

  ghost predicate MergesCurrent(s: Graph) {
    && (forall r :: r in s.mergeReads ==> MergeReadCurrent(s.t, r))
    && (forall k :: k in s.merges ==> MergeReadCurrent(s.t, s.merges[k]))
  }

  ghost predicate GateInv(s: Graph) {
    Inv(s) && Gate(s.t) && MergesCurrent(s)
  }

  /** Accepted coders keep their reviewer and, up to the merge record, their result. */
  ghost predicate Frozen(t: Table, t': Table) {
    forall i :: i in t && i in t' && Accepted(t[i].state) && Accepted(t'[i].state) ==>
      t[i].result.Some? && t'[i].result.Some? && Bare(t'[i].result.value) == Bare(t[i].result.value) &&
      t'[i].reviewedBy == t[i].reviewedBy
  }

  lemma ApprovalKept(t: Table, t': Table, i: Id, r: Id, before: Time, now: Time)
    requires RowsOk(t, before) && before <= now && CalmlyMoved(t, t', now) && EdgesPointBack(SpecsOf(t))
    requires ApprovedBy(t, i, r)
    ensures ApprovedBy(t', i, r) && t'[r].result == t[r].result
  {
    SpecsLookup(t);
    assert EdgesOk(SpecsOf(t), t[r].spec);
    ClosedStays(t[r], t'[r], before, now);
    ResultKept(t[r], t'[r], now);
  }

  lemma GateKept(t: Table, t': Table, before: Time, now: Time)
    requires RowsOk(t, before) && before <= now && CalmlyMoved(t, t', now) && EdgesPointBack(SpecsOf(t))
    requires Gate(t) && forall i :: i in t && t'[i].state == Reviewed && t[i].state == ReviewPending ==> GateAt(t', i)
    ensures Gate(t')
  {
    forall i | i in t'
      ensures GateAt(t', i)
    {
      if Accepted(t'[i].state) {
        AcceptedFrom(t[i], t'[i], before, now);
        if Accepted(t[i].state) {
          assert GateAt(t, i);
          ApprovalKept(t, t', i, t[i].reviewedBy.value, before, now);
        }
      }
    }
  }

  lemma TameFreezes(t: Table, t': Table, before: Time, now: Time)
    requires RowsOk(t, before) && before <= now && CalmlyMoved(t, t', now)
    requires forall i :: i in t && t[i].state == Merging ==> t'[i].state != Merged
    ensures Frozen(t, t')
  {
    forall i | i in t && i in t' && Accepted(t[i].state) && Accepted(t'[i].state)
      ensures t[i].result.Some? && t'[i].result == t[i].result && t'[i].reviewedBy == t[i].reviewedBy
    {
      assert RowOk(t[i], before);
      AcceptedFrom(t[i], t'[i], before, now);
    }
  }

  /** A read made for a merge stays current when nothing newly becomes reviewed under it. */
  lemma MergeReadKept(t: Table, t': Table, r: MergeTicket, before: Time, now: Time)
    requires RowsOk(t, before) && before <= now && CalmlyMoved(t, t', now) && EdgesPointBack(SpecsOf(t))
    requires Frozen(t, t') && MergeReadCurrent(t, r)
    requires t'[r.id].state == Reviewed ==> t[r.id].state != ReviewPending
    ensures MergeReadCurrent(t', r)
  {
    ApprovalKept(t, t', r.id, r.reviewer, before, now);
    if Accepted(t'[r.id].state) { AcceptedFrom(t[r.id], t'[r.id], before, now); }
  }

  // ---- tame transactions accept nobody ----------------------------------------------

  lemma TameRow(n: Node, m: Node, now: Time)
    requires TameMove(n, m, now)
    ensures m.state in {Reviewed, Merged} ==> m.state == n.state
    ensures n.state == ReviewPending ==> m.state != NeedsInput
    ensures CalmMove(n, m, now)
  {
  }

  lemma TameIsCalm(t: Table, t': Table, now: Time)
    requires TamelyMoved(t, t', now)
    ensures CalmlyMoved(t, t', now)
    ensures forall i :: i in t && t'[i].state in {Reviewed, Merged} ==> t'[i].state == t[i].state
    ensures forall i :: i in t && t[i].state == ReviewPending ==> t'[i].state != NeedsInput
  {
    forall i | i in t
      ensures CalmMove(t[i], t'[i], now)
      ensures t'[i].state in {Reviewed, Merged} ==> t'[i].state == t[i].state
      ensures t[i].state == ReviewPending ==> t'[i].state != NeedsInput
    {
      TameRow(t[i], t'[i], now);
    }
  }

  predicate TameEvent(e: Event) {
    BaseEvent(e) || e.ClaimNext? || e.MergeStart? || QuietEvent(e)
  }

  lemma TameStep(s: Graph, e: Event)
    requires Inv(s) && s.clock == e.now && TameEvent(e)
    ensures TamelyMoved(s.t, Apply(s, e).t, s.clock)
  {
    if BaseEvent(e) {
      BaseStep(s, e);
      BaseIsTame(s.t, Apply(s, e).t, s.clock);
    } else if e.ClaimNext? || e.MergeStart? {
      TameIssue(s, e);
    } else {
      ReadsLeaveTable(s, e);
    }
  }

  lemma TameGate(s: Graph, e: Event)
    requires GateInv(s) && s.clock == e.now && TameEvent(e)
    ensures Gate(Apply(s, e).t) && Frozen(s.t, Apply(s, e).t)
  {
    TameStep(s, e);
    TameIsCalm(s.t, Apply(s, e).t, s.clock);
    GateKept(s.t, Apply(s, e).t, s.clock, s.clock);
    TameFreezes(s.t, Apply(s, e).t, s.clock, s.clock);
  }

  lemma TameReads(s: Graph, e: Event, r: MergeTicket)
    requires GateInv(s) && s.clock == e.now && TameEvent(e) && MergeReadCurrent(s.t, r)
    ensures MergeReadCurrent(Apply(s, e).t, r)
  {
    TameGate(s, e);
    TameStep(s, e);
    TameIsCalm(s.t, Apply(s, e).t, s.clock);
    MergeReadKept(s.t, Apply(s, e).t, r, s.clock, s.clock);
  }

  /** A coder sent back from review. */
  lemma CalmReturn(s: Graph, e: Event)
    requires s.clock == e.now && e.ReviewDemote?
    ensures CalmlyMoved(s.t, Apply(s, e).t, s.clock)
    ensures var t' := Apply(s, e).t;
      forall i :: i in s.t && t'[i].state in {Reviewed, Merged} ==> t'[i].state == s.t[i].state
  {
    DemoteMoved(s.t, e.ticket.coder, e.now);
  }

  lemma CalmStep(s: Graph, e: Event)
    requires Inv(s) && s.clock == e.now && !e.HumanRequeue? && !e.Submit? && !e.ReviewInsert?
    ensures CalmlyMoved(s.t, Apply(s, e).t, s.clock)
  {
    SteadyStep(s, e);
  }

  // ---- publication is the only way to acceptance ------------------------------------

  /** Whoever becomes reviewed does so in the transaction in which its reviewer publishes an approval. */
  lemma PublishApproves(t: Table, id: Id, token: Token, copy: Node, o: Outcome, rootStopped: bool, now: Time, i: Id)
    requires id in t && t[id].spec == copy.spec && copy.spec.reviewOf != Some(id)
    requires copy.spec.reviewOf.Some? ==> copy.spec.persona == Reviewer
    requires i in t && t[i].state != Reviewed
    requires PublishRow(t, id, token, copy, o, rootStopped, now)[i].state == Reviewed
    ensures var t' := PublishRow(t, id, token, copy, o, rootStopped, now);
      copy.spec.reviewOf == Some(i) && t[i].state == ReviewPending && t[id].state == Running &&
      t'[i].reviewedBy == Some(id) && ApprovedBy(t', i, id)
  {
  }

  lemma PublishQuietMerges(t: Table, id: Id, token: Token, copy: Node, o: Outcome, rootStopped: bool, now: Time)
    ensures var t' := PublishRow(t, id, token, copy, o, rootStopped, now);
      forall i :: i in t && i in t' && t[i].state == Merging ==> t'[i].state != Merged
  {
  }

  lemma WorkerReviews(s: Graph, token: Token)
    requires Inv(s) && token in s.workers
    ensures var w := s.workers[token]; w.copy.spec.reviewOf.Some? ==> w.copy.spec.persona == Reviewer
  {
    var w := s.workers[token];
    SpecsLookup(s.t);
    assert EdgesOk(SpecsOf(s.t), s.t[w.id].spec);
  }

  lemma PublishGate(s: Graph, e: Event)
    requires GateInv(s) && s.clock == e.now && e.Publish?
    ensures Gate(Apply(s, e).t) && Frozen(s.t, Apply(s, e).t)
  {
    var t' := Apply(s, e).t;
    CalmStep(s, e);
    if Publishes(s, e) {
      var w := s.workers[e.token];
      WorkerSpec(s, e.token);
      WorkerReviews(s, e.token);
      PublishQuietMerges(s.t, w.id, e.token, w.copy, e.outcome, e.rootStopped, e.now);
      forall i | i in s.t && t'[i].state == Reviewed && s.t[i].state == ReviewPending
        ensures GateAt(t', i)
      {
        PublishApproves(s.t, w.id, e.token, w.copy, e.outcome, e.rootStopped, e.now, i);
      }
    }
    GateKept(s.t, t', s.clock, s.clock);
    TameFreezes(s.t, t', s.clock, s.clock);
  }

  /** An already approved coder is not approved a second time: its reviewer no longer runs. */
  lemma PublishReads(s: Graph, e: Event, r: MergeTicket)
    requires GateInv(s) && s.clock == e.now && e.Publish? && MergeReadCurrent(s.t, r)
    ensures MergeReadCurrent(Apply(s, e).t, r)
  {
    var t' := Apply(s, e).t;
    CalmStep(s, e);
    PublishGate(s, e);
    if t'[r.id].state == Reviewed && s.t[r.id].state == ReviewPending {
      assert Publishes(s, e);
      var w := s.workers[e.token];
      WorkerSpec(s, e.token);
      WorkerReviews(s, e.token);
      PublishApproves(s.t, w.id, e.token, w.copy, e.outcome, e.rootStopped, e.now, r.id);
      SpecsLookup(s.t);
      assert false;
    }
    MergeReadKept(s.t, t', r, s.clock, s.clock);
  }

  lemma FinishRowFrozen(t: Table, r: MergeTicket, token: Token, record: MergeRecord, now: Time)
    requires RowsOk(t, now) && MergeReadCurrent(t, r)
    ensures Frozen(t, MergeFinishRow(t, r.id, token, r.result, record))
  {
    var t' := MergeFinishRow(t, r.id, token, r.result, record);
    forall i | i in t && Accepted(t[i].state)
      ensures t[i].result.Some? && t'[i].result.Some?
      ensures Bare(t'[i].result.value) == Bare(t[i].result.value) && t'[i].reviewedBy == t[i].reviewedBy
    {
      assert RowOk(t[i], now);
    }
  }

  lemma FrozenUnchanged(t: Table, now: Time)
    requires RowsOk(t, now)
    ensures Frozen(t, t)
  {
    assert forall i :: i in t ==> RowOk(t[i], now);
  }

  lemma FinishReviewsNone(t: Table, id: Id, token: Token, read: Outcome, record: MergeRecord)
    ensures var t' := MergeFinishRow(t, id, token, read, record);
      forall i :: i in t && i in t' && t'[i].state == Reviewed ==> t[i].state == Reviewed
  {
  }

  lemma FinishRowGate(t: Table, r: MergeTicket, token: Token, record: MergeRecord, now: Time)
    requires RowsOk(t, now) && EdgesPointBack(SpecsOf(t)) && Gate(t) && Verified(r.result)
    ensures Gate(MergeFinishRow(t, r.id, token, r.result, record))
  {
    MergeFinishMoved(t, r.id, token, r.result, record, now);
    FinishReviewsNone(t, r.id, token, r.result, record);
    GateKept(t, MergeFinishRow(t, r.id, token, r.result, record), now, now);
  }

  lemma FinishGate(s: Graph, e: Event)
    requires GateInv(s) && s.clock == e.now && e.MergeFinish?
    ensures Gate(Apply(s, e).t) && Frozen(s.t, Apply(s, e).t)
  {
    if e.token in s.merges {
      var r := s.merges[e.token];
      assert MergeReadCurrent(s.t, r) && MergeReadOk(s.t, r);
      FinishRowGate(s.t, r, e.token, e.record, e.now);
      FinishRowFrozen(s.t, r, e.token, e.record, e.now);
    } else {
      FrozenUnchanged(s.t, s.clock);
    }
  }

  lemma FinishReads(s: Graph, e: Event, r: MergeTicket)
    requires GateInv(s) && s.clock == e.now && e.MergeFinish? && MergeReadCurrent(s.t, r)
    ensures MergeReadCurrent(Apply(s, e).t, r)
  {
    if e.token in s.merges {
      var m := s.merges[e.token];
      FinishReviewsNone(s.t, m.id, e.token, m.result, e.record);
      CalmStep(s, e);
      FinishGate(s, e);
      MergeReadKept(s.t, Apply(s, e).t, r, s.clock, s.clock);
    }
  }

  lemma ReturnGate(s: Graph, e: Event)
    requires GateInv(s) && s.clock == e.now && e.ReviewDemote?
    ensures Gate(Apply(s, e).t) && Frozen(s.t, Apply(s, e).t)
  {
    CalmReturn(s, e);
    GateKept(s.t, Apply(s, e).t, s.clock, s.clock);
    TameFreezes(s.t, Apply(s, e).t, s.clock, s.clock);
  }

  lemma ReturnReads(s: Graph, e: Event, r: MergeTicket)
    requires GateInv(s) && s.clock == e.now && e.ReviewDemote? && MergeReadCurrent(s.t, r)
    ensures MergeReadCurrent(Apply(s, e).t, r)
  {
    CalmReturn(s, e);
    ReturnGate(s, e);
    MergeReadKept(s.t, Apply(s, e).t, r, s.clock, s.clock);
  }

  // ---- a human requeue --------------------------------------------------------------

  lemma RequeueRowGate(t: Table, id: Id, now: Time)
    requires RowsOk(t, now) && Gate(t)
    requires forall i :: i in t && Accepted(t[i].state) && i != id ==> t[i].reviewedBy != Some(id)
    ensures Gate(RequeueRow(t, id)) && Frozen(t, RequeueRow(t, id))
  {
    var t' := RequeueRow(t, id);
    forall i | i in t'
      ensures GateAt(t', i)
    {
      assert GateAt(t, i);
    }
    assert forall i :: i in t && Accepted(t[i].state) ==> RowOk(t[i], now);
  }

  lemma RequeueGate(s: Graph, e: Event)
    requires GateInv(s) && s.clock == e.now && e.HumanRequeue? && SparesApprovals(s, e)
    ensures Gate(Apply(s, e).t) && Frozen(s.t, Apply(s, e).t)
  {
    if Requeues(s, e) {
      RequeueRowGate(s.t, e.id, s.clock);
    } else {
      FrozenUnchanged(s.t, s.clock);
    }
  }

  lemma RequeueRead(t: Table, id: Id, r: MergeTicket)
    requires MergeReadCurrent(t, r) && r.reviewer != id
    ensures MergeReadCurrent(RequeueRow(t, id), r)
  {
  }

  lemma RequeueReads(s: Graph, e: Event)
    requires GateInv(s) && s.clock == e.now && e.HumanRequeue? && SparesApprovals(s, e)
    ensures MergesCurrent(Apply(s, e))
  {
    if Requeues(s, e) {
      forall r | r in s.mergeReads
        ensures MergeReadCurrent(RequeueRow(s.t, e.id), r)
      {
        RequeueRead(s.t, e.id, r);
      }
      forall k | k in s.merges
        ensures MergeReadCurrent(RequeueRow(s.t, e.id), s.merges[k])
      {
        RequeueRead(s.t, e.id, s.merges[k]);
      }
    }
  }

  lemma RequeueBreaks(t: Table, i: Id, r: Id)
    ensures !ApprovedBy(RequeueRow(t, r), i, r)
  {
  }

  lemma UnsparedTable(s: Graph, id: Id)
    requires id in s.t && ReliedOn(s, id) && GateInv(s)
    ensures var t' := RequeueRow(s.t, id);
      !Gate(t') || !(forall r :: r in s.mergeReads ==> MergeReadCurrent(t', r))
      || !(forall k :: k in s.merges ==> MergeReadCurrent(t', s.merges[k]))
  {
    var t' := RequeueRow(s.t, id);
    if i :| i in s.t && i != id && Accepted(s.t[i].state) && s.t[i].reviewedBy == Some(id) {
      RequeueBreaks(s.t, i, id);
      assert !GateAt(t', i);
    } else if m :| m in s.mergeReads && m.reviewer == id {
      RequeueBreaks(s.t, m.id, id);
      assert !MergeReadCurrent(t', m);
    } else {
      var k :| k in s.merges && s.merges[k].reviewer == id;
      RequeueBreaks(s.t, s.merges[k].id, id);
      assert !MergeReadCurrent(t', s.merges[k]);
    }
  }

  /**
   The guard is exact, at the moment of the update: a human requeue keeps the review gate if and only if it reopens no
   reviewer whose approval an accepted coder or a merge relies on. Merge reads are never forgotten, so this looks back
   at the whole run; the test that the update itself could make is `WaitingGuarded`.
   */
  lemma ApprovalGuardExact(s: Graph, e: Event)
    requires GateInv(s) && s.clock == e.now && e.HumanRequeue?
    ensures GateInv(Apply(s, e)) <==> SparesApprovals(s, e)
  {
    if SparesApprovals(s, e) {
      InvApply(s, e);
      RequeueGate(s, e);
      RequeueReads(s, e);
    } else {
      UnsparedTable(s, e.id);
    }
  }

  lemma ReliedIsFinished(s: Graph, r: Id)
    requires GateInv(s) && ReliedOn(s, r)
    ensures r in s.t && s.t[r].state in {Completed, Cancelled}
  {
    if i :| i in s.t && i != r && Accepted(s.t[i].state) && s.t[i].reviewedBy == Some(r) {
      assert GateAt(s.t, i);
    } else if m :| m in s.mergeReads && m.reviewer == r {
      assert MergeReadCurrent(s.t, m);
    } else {
      var k :| k in s.merges && s.merges[k].reviewer == r;
      assert MergeReadCurrent(s.t, s.merges[k]);
    }
  }

  /** It is enough that the node still waits for a human. */
  lemma WaitingSparesApprovals(s: Graph, e: Event)
    requires GateInv(s) && WaitingGuarded(s, e)
    ensures SparesApprovals(s, e)
  {
    if e.HumanRequeue? && ReliedOn(s, e.id) { ReliedIsFinished(s, e.id); }
  }

  // ---- every event ------------------------------------------------------------------

  /** One event that is not an insertion: the gate survives, and accepted results are frozen. */
  lemma GateStep(s: Graph, e: Event)
    requires GateInv(s) && s.clock == e.now && SparesApprovals(s, e) && !e.Submit? && !e.ReviewInsert?
    ensures Gate(Apply(s, e).t) && Frozen(s.t, Apply(s, e).t)
  {
    if e.Publish? {
      PublishGate(s, e);
    } else if e.MergeFinish? {
      FinishGate(s, e);
    } else if e.ReviewDemote? {
      ReturnGate(s, e);
    } else if e.HumanRequeue? {
      RequeueGate(s, e);
    } else {
      TameGate(s, e);
    }
  }

  lemma ReadStep(s: Graph, e: Event, r: MergeTicket)
    requires GateInv(s) && s.clock == e.now && !e.HumanRequeue? && !e.Submit? && !e.ReviewInsert?
    requires MergeReadCurrent(s.t, r)
    ensures MergeReadCurrent(Apply(s, e).t, r)
  {
    if e.Publish? {
      PublishReads(s, e, r);
    } else if e.MergeFinish? {
      FinishReads(s, e, r);
    } else if e.ReviewDemote? {
      ReturnReads(s, e, r);
    } else {
      TameReads(s, e, r);
    }
  }

  lemma InsertGate(s: Graph, id: Id, n: Spec)
    requires GateInv(s) && id !in s.t
    ensures var t' := s.t[id := NewRow(n)];
      Gate(t') && Frozen(s.t, t') && MergesCurrent(s.(t := t'))
  {
    var t' := s.t[id := NewRow(n)];
    assert Gate(t') by { InsertGateTable(s, id, n); }
    assert Frozen(s.t, t') by { InsertFrozen(s, id, n); }
    forall r | MergeReadCurrent(s.t, r)
      ensures MergeReadCurrent(t', r)
    {
      InsertRead(s.t, id, n, r);
    }
  }

  lemma InsertGateTable(s: Graph, id: Id, n: Spec)
    requires Gate(s.t) && id !in s.t
    ensures Gate(s.t[id := NewRow(n)])
  {
    var t' := s.t[id := NewRow(n)];
    forall i | i in t'
      ensures GateAt(t', i)
    {
      assert i != id ==> GateAt(s.t, i);
    }
  }

  lemma InsertFrozen(s: Graph, id: Id, n: Spec)
    requires RowsOk(s.t, s.clock) && id !in s.t
    ensures Frozen(s.t, s.t[id := NewRow(n)])
  {
    assert forall i :: i in s.t && Accepted(s.t[i].state) ==> RowOk(s.t[i], s.clock);
  }

  lemma InsertRead(t: Table, id: Id, n: Spec, r: MergeTicket)
    requires id !in t && MergeReadCurrent(t, r)
    ensures MergeReadCurrent(t[id := NewRow(n)], r)
  {
  }

  /** What an event newly remembers for a merge was read just now, or moved from the reads to the merges. */
  lemma MergeMemory(s: Graph, e: Event)
    requires s.clock == e.now
    ensures var s' := Apply(s, e);
      && (forall r :: r in s'.mergeReads && r !in s.mergeReads ==>
            e.MergeRead? && s'.t == s.t && CanReadForMerge(s, e.id) &&
            r == MergeTicket(e.id, s.t[e.id].reviewedBy.value, s.t[e.id].result.value))
      && (forall k :: k in s'.merges && !(k in s.merges && s'.merges[k] == s.merges[k]) ==>
            s'.merges[k] in s.mergeReads)
  {
  }

  lemma MergesStep(s: Graph, e: Event)
    requires GateInv(s) && s.clock == e.now && !e.HumanRequeue? && !e.Submit? && !e.ReviewInsert?
    ensures MergesCurrent(Apply(s, e))
  {
    var s' := Apply(s, e);
    MergeMemory(s, e);
    forall r | r in s'.mergeReads
      ensures MergeReadCurrent(s'.t, r)
    {
      if r in s.mergeReads {
        ReadStep(s, e, r);
      } else {
        assert GateAt(s.t, e.id);
      }
    }
    forall k | k in s'.merges
      ensures MergeReadCurrent(s'.t, s'.merges[k])
    {
      ReadStep(s, e, s'.merges[k]);
    }
  }

  // ---- every guarded run ------------------------------------------------------------

  lemma GateInsertion(s: Graph, e: Event)
    requires GateInv(s) && s.clock == e.now && (e.Submit? || e.ReviewInsert?)
    ensures Gate(Apply(s, e).t) && Frozen(s.t, Apply(s, e).t) && MergesCurrent(Apply(s, e))
  {
    FrozenUnchanged(s.t, s.clock);
    if e.Submit? {
      if CanSubmit(s, e) { InsertGate(s, e.id, SubmittedRow(s, e).spec); }
    } else if e.ticket in s.reviewReads && e.id !in s.t {
      InsertGate(s, e.id, ReviewerRow(s, e.ticket, e.deadline).spec);
    }
  }

  lemma GateApply(s: Graph, e: Event)
    requires GateInv(s) && s.clock == e.now && SparesApprovals(s, e)
    ensures GateInv(Apply(s, e)) && Frozen(s.t, Apply(s, e).t)
  {
    InvApply(s, e);
    if e.Submit? || e.ReviewInsert? {
      GateInsertion(s, e);
    } else {
      GateStep(s, e);
      if e.HumanRequeue? { RequeueReads(s, e); } else { MergesStep(s, e); }
    }
  }

  lemma TickGate(s: Graph, now: Time)
    requires GateInv(s) && s.clock <= now
    ensures GateInv(s.(clock := now))
  {
    TickInv(s, now);
  }

  lemma GateNext(s: Graph, e: Event)
    requires GateInv(s) && SparesApprovals(s, e)
    ensures GateInv(Next(s, e)) && Frozen(s.t, Next(s, e).t)
  {
    if e.now < s.clock {
      FrozenUnchanged(s.t, s.clock);
      assert Next(s, e) == s;
    } else {
      TickGate(s, e.now);
      GateApply(s.(clock := e.now), e);
      assert Next(s, e) == Apply(s.(clock := e.now), e);
    }
  }

  lemma {:induction false} GateRun(s: Graph, es: seq<Event>)
    requires GateInv(s) && Guarded(s, es, APPROVALS)
    ensures GateInv(Run(s, es))
    decreases |es|
  {
    if es != [] {
      GateNext(s, es[0]);
      GateRun(Next(s, es[0]), es[1..]);
    }
  }

  /**
   In every run whose human requeues spare the approvals relied on, an accepted node is a coder with a
   verified successful result, and its `reviewed_by` is the one node that reviews it, finished with
   a verified approval without findings.
   */
  lemma AcceptedWhileSpared(es: seq<Event>, i: Id)
    requires Guarded(INIT, es, APPROVALS)
    requires var t := Run(INIT, es).t; i in t && Accepted(t[i].state)
    ensures var t := Run(INIT, es).t;
      && t[i].spec.persona == Coder && t[i].result.Some? && Verified(t[i].result.value)
      && t[i].reviewedBy.Some? && ApprovedBy(t, i, t[i].reviewedBy.value)
      && forall r :: r in t && t[r].spec.reviewOf == Some(i) ==> r == t[i].reviewedBy.value
  {
    GateRun(INIT, es);
    var s := Run(INIT, es);
    assert RowOk(s.t[i], s.clock) && GateAt(s.t, i);
    SpecsLookup(s.t);
    forall r | r in s.t && s.t[r].spec.reviewOf == Some(i)
      ensures r == s.t[i].reviewedBy.value
    {
      assert SpecsOf(s.t)[r].reviewOf == SpecsOf(s.t)[s.t[i].reviewedBy.value].reviewOf;
    }
  }

  /** Runs whose human requeues find waiting nodes are among them. */
  lemma {:induction false} WaitingRuns(s: Graph, es: seq<Event>)
    requires GateInv(s) && Guarded(s, es, WAITING)
    ensures Guarded(s, es, APPROVALS)
    decreases |es|
  {
    if es != [] {
      WaitingSparesApprovals(s, es[0]);
      GateNext(s, es[0]);
      WaitingRuns(Next(s, es[0]), es[1..]);
    }
  }

  // ---- what was accepted stays ------------------------------------------------------

  lemma RecoveredResult(t: Table, children: map<Id, Child>, stoppedRoots: set<nat>, now: Time, i: Id)
    requires i in t
    ensures var t' := RecoverTable(t, children, stoppedRoots, now); i in t' && t'[i].result == t[i].result
  {
    var m := RecoverNode(t[i], ChildOf(children, i), t[i].spec.root in stoppedRoots, now);
    assert SweepRows(t, children, stoppedRoots, now)[i] == m && m.result == t[i].result;
  }

  lemma CancelledResult(t: Table, owner: nat, id: Id, now: Time, i: Id)
    requires i in t
    ensures var t' := CancelTable(t, owner, id, now); i in t' && t'[i].result == t[i].result
  {
  }

  lemma SweptResults(s: Graph, e: Event, i: Id)
    requires s.clock == e.now && i in s.t && (e.Recover? || e.Cancel?)
    ensures i in Apply(s, e).t && Apply(s, e).t[i].result == s.t[i].result
  {
    if e.Recover? {
      RecoveredResult(s.t, s.children, e.stoppedRoots, e.now, i);
    } else {
      CancelledResult(s.t, e.owner, e.id, e.now, i);
    }
  }

  lemma ClaimedResults(s: Graph, e: Event, i: Id)
    requires s.clock == e.now && i in s.t && e.ClaimNext?
    ensures i in Apply(s, e).t && Apply(s, e).t[i].result == s.t[i].result
  {
    ClaimEffect(s.t, e.rows, e.busy, e.now, e.token);
  }

  lemma StoppedResults(s: Graph, e: Event, i: Id)
    requires s.clock == e.now && i in s.t
    requires e.Renew? || e.Fail? || e.MergeConflict? || e.MergeAbort? || e.HumanAbandon?
    ensures i in Apply(s, e).t && Apply(s, e).t[i].result == s.t[i].result
  {
  }

  lemma OtherResults(s: Graph, e: Event, i: Id)
    requires s.clock == e.now && i in s.t
    requires e.MergeStart? || e.ReviewDemote? || e.HumanRequeue?
    ensures i in Apply(s, e).t && Apply(s, e).t[i].result == s.t[i].result
  {
  }

  /** Only a publication of the node and the end of its merge write a result. */
  lemma ResultStays(s: Graph, e: Event, i: Id)
    requires s.clock == e.now && i in s.t && !e.Publish? && !e.MergeFinish?
    ensures i in Apply(s, e).t && Apply(s, e).t[i].result == s.t[i].result
  {
    if e.Recover? || e.Cancel? {
      SweptResults(s, e, i);
    } else if e.ClaimNext? {
      ClaimedResults(s, e, i);
    } else if e.Renew? || e.Fail? || e.MergeConflict? || e.MergeAbort? || e.HumanAbandon? {
      StoppedResults(s, e, i);
    } else if e.Submit? || e.ReviewInsert? {
      InsertionKeepsRows(s, e, i);
    } else if QuietEvent(e) {
      ReadsLeaveTable(s, e);
    } else {
      OtherResults(s, e, i);
    }
  }

  /** The event publishes a result of node `i`. */
  predicate PublishesNode(s: Graph, e: Event, i: Id) {
    e.Publish? && e.token in s.workers && s.workers[e.token].id == i
  }

  lemma OtherPublished(s: Graph, e: Event, i: Id)
    requires s.clock == e.now && i in s.t && e.Publish? && !PublishesNode(s, e, i)
    ensures i in Apply(s, e).t && Apply(s, e).t[i].result == s.t[i].result
  {
  }

  lemma MergedResult(s: Graph, e: Event, i: Id)
    requires GateInv(s) && s.clock == e.now && i in s.t && s.t[i].result.Some? && e.MergeFinish?
    ensures var t' := Apply(s, e).t;
      i in t' && t'[i].result.Some? && Bare(t'[i].result.value) == Bare(s.t[i].result.value)
  {
    if e.token in s.merges {
      assert MergeReadCurrent(s.t, s.merges[e.token]);
    }
  }

  /** The result of `i` may be rewritten by an ending merge, but only with the record of the merge. */
  lemma BareStaysApply(s: Graph, e: Event, i: Id)
    requires GateInv(s) && s.clock == e.now && i in s.t && s.t[i].result.Some? && !PublishesNode(s, e, i)
    ensures var t' := Apply(s, e).t;
      i in t' && t'[i].result.Some? && Bare(t'[i].result.value) == Bare(s.t[i].result.value)
  {
    if e.MergeFinish? {
      MergedResult(s, e, i);
    } else if e.Publish? {
      OtherPublished(s, e, i);
    } else {
      ResultStays(s, e, i);
    }
  }

  lemma BareStays(s: Graph, e: Event, i: Id)
    requires GateInv(s) && i in s.t && s.t[i].result.Some? && !PublishesNode(s, e, i)
    ensures var t' := Next(s, e).t;
      i in t' && t'[i].result.Some? && Bare(t'[i].result.value) == Bare(s.t[i].result.value)
  {
    if s.clock <= e.now {
      TickGate(s, e.now);
      BareStaysApply(s.(clock := e.now), e, i);
      assert Next(s, e) == Apply(s.(clock := e.now), e);
    }
  }

  /** No event of the run publishes node `i`. */
  ghost predicate Unpublished(s: Graph, es: seq<Event>, i: Id)
    decreases |es|
  {
    es != [] ==> !PublishesNode(s, es[0], i) && Unpublished(Next(s, es[0]), es[1..], i)
  }

  /** No human command of the run writes its update of node `r`. */
  ghost predicate NotReopened(s: Graph, es: seq<Event>, r: Id)
    decreases |es|
  {
    es != [] ==> !(Requeues(s, es[0]) && es[0].id == r) && NotReopened(Next(s, es[0]), es[1..], r)
  }

  lemma ApprovalStaysApply(s: Graph, e: Event, i: Id, r: Id)
    requires Inv(s) && s.clock == e.now && ApprovedBy(s.t, i, r) && !(Requeues(s, e) && e.id == r)
    ensures ApprovedBy(Apply(s, e).t, i, r) && Apply(s, e).t[r].result == s.t[r].result
  {
    if e.Submit? || e.ReviewInsert? {
      InsertionKeepsRows(s, e, r);
    } else if !e.HumanRequeue? {
      CalmStep(s, e);
      ApprovalKept(s.t, Apply(s, e).t, i, r, e.now, e.now);
    }
  }

  lemma ApprovalStays(s: Graph, e: Event, i: Id, r: Id)
    requires Inv(s) && ApprovedBy(s.t, i, r) && !(Requeues(s, e) && e.id == r)
    ensures ApprovedBy(Next(s, e).t, i, r) && Next(s, e).t[r].result == s.t[r].result
  {
    if s.clock <= e.now {
      TickInv(s, e.now);
      ApprovalStaysApply(s.(clock := e.now), e, i, r);
      assert Next(s, e) == Apply(s.(clock := e.now), e);
    }
  }

  lemma InsertionKeepsRows(s: Graph, e: Event, i: Id)
    requires s.clock == e.now && (e.Submit? || e.ReviewInsert?) && i in s.t
    ensures i in Apply(s, e).t && Apply(s, e).t[i] == s.t[i]
  {
  }

  lemma {:induction false} ApprovalForEver(s: Graph, es: seq<Event>, i: Id, r: Id)
    requires Inv(s) && ApprovedBy(s.t, i, r) && NotReopened(s, es, r)
    ensures ApprovedBy(Run(s, es).t, i, r) && Run(s, es).t[r].result == s.t[r].result
    decreases |es|
  {
    if es != [] {
      ApprovalStays(s, es[0], i, r);
      InvNext(s, es[0]);
      ApprovalForEver(Next(s, es[0]), es[1..], i, r);
    }
  }

  lemma {:induction false} BareForEver(s: Graph, es: seq<Event>, i: Id)
    requires GateInv(s) && Guarded(s, es, APPROVALS) && i in s.t && s.t[i].result.Some? && Unpublished(s, es, i)
    ensures var t' := Run(s, es).t;
      i in t' && t'[i].result.Some? && Bare(t'[i].result.value) == Bare(s.t[i].result.value)
    decreases |es|
  {
    if es != [] {
      BareStays(s, es[0], i);
      GateNext(s, es[0]);
      BareForEver(Next(s, es[0]), es[1..], i);
    }
  }

  /**
   After any run and any continuation that spare the approvals relied on: as long as no human
   command reopens its reviewer, an accepted coder's reviewer keeps its result and its approval for ever, also
   after the coder has left acceptance; and the coder keeps its result, up to the merge record, until it is
   published again.
   */
  lemma FrozenWhileSpared(es: seq<Event>, fs: seq<Event>, i: Id)
    requires Guarded(INIT, es, APPROVALS) && Guarded(Run(INIT, es), fs, APPROVALS)
    requires var t := Run(INIT, es).t; i in t && Accepted(t[i].state)
    ensures var s := Run(INIT, es); var t := s.t; var t' := Run(s, fs).t;
      && t[i].result.Some? && t[i].reviewedBy.Some?
      && var r := t[i].reviewedBy.value;
      && (NotReopened(s, fs, r) ==> ApprovedBy(t', i, r) && r in t && t'[r].result == t[r].result)
      && (Unpublished(s, fs, i) ==>
            i in t' && t'[i].result.Some? && Bare(t'[i].result.value) == Bare(t[i].result.value))
  {
    GateRun(INIT, es);
    var s := Run(INIT, es);
    assert RowOk(s.t[i], s.clock) && GateAt(s.t, i);
    var r := s.t[i].reviewedBy.value;
    if NotReopened(s, fs, r) { ApprovalForEver(s, fs, i, r); }
    if Unpublished(s, fs, i) { BareForEver(s, fs, i); }
  }

  /** When human requeues find waiting nodes, no approving reviewer is ever reopened. */
  lemma {:induction false} WaitingNeverReopens(s: Graph, es: seq<Event>, i: Id, r: Id)
    requires Inv(s) && ApprovedBy(s.t, i, r) && Guarded(s, es, WAITING)
    ensures NotReopened(s, es, r)
    decreases |es|
  {
    if es != [] {
      ApprovalStays(s, es[0], i, r);
      InvNext(s, es[0]);
      WaitingNeverReopens(Next(s, es[0]), es[1..], i, r);
    }
  }
}
