/**
 Why a late resolution does not reopen a reviewer. Reviewers cannot ask a human, and a resolution succeeds only on the
 call it names while that call is started. So unless a task starts a call under an id that a human has already named,
 at most one human update of a reviewer is outstanding, its node stands still, and it has not approved anything.
 */
module GraphResolve {
  import opened Prelude
  import opened GraphTable
  import opened GraphRows
  import opened GraphMachine
  import opened GraphInvariant
  import opened GraphReview

  /** A node that only a human update can bring back. */
  predicate Parked(state: Status) {
    state !in {Queued, Running, ReviewPending, Reviewed, Merging, Merged, Completed}
  }

  /** A human that names `call` could record its end, once the task is marked. */
  predicate Resolvable(c: Child, call: CallId) {
    (c.Working? && c.call == Some(call)) || c == Unsure(Some(call))
  }

  /** No call can be resolved, and no worker that holds the task may start one without a new check. */
  predicate Still(c: Child) {
    match c
    case Working(_, checked, call) => !checked && call.None?
    case Unsure(call) => call.None?
    case Asking => false
    case _ => true
  }

  predicate Ended(c: Child) {
    c.Finished? || c.Dropped?
  }

  predicate Approving(n: Node) {
    n.result.Some? && Approves(n.result.value)
  }

  predicate NamesStarted(s: Graph, i: Id) {
    exists h :: h in s.humanReads && h.id == i && h.state == NeedsResolution &&
      Resolvable(ChildOf(s.children, i), h.call)
  }

  predicate ResolveAt(s: Graph, i: Id)
    requires i in s.t
  {
    var c := ChildOf(s.children, i);
    && !c.Asking?
    && s.answered[i] <= 1
    && (s.answered[i] == 1 ==> Parked(s.t[i].state) && Still(c))
    && (NamesStarted(s, i) ==> Parked(s.t[i].state) && s.answered[i] == 0)
    && (Approving(s.t[i]) ==> Ended(c) && s.answered[i] == 0)
  }

  /** A reviewer or a planner. */
  predicate Silent(t: Table, i: Id) {
    i in t && !MayAskHumans(t[i].spec.persona)
  }

  predicate Known(s: Graph) {
    && s.children.Keys <= s.t.Keys
    && (forall i :: i in s.answered ==> i in s.t)
    && (forall h :: h in s.humanReads ==> h.id in s.t)
  }

  ghost predicate ResolveInv(s: Graph) {
    GateInv(s) && Known(s) && forall i :: Silent(s.t, i) ==> ResolveAt(s, i)
  }

  // ---- what an outstanding update means ---------------------------------------------

  /** A human update never meets a node whose approval is relied on. */
  lemma UpdateSpares(s: Graph, e: Event)
    requires ResolveInv(s)
    ensures SparesApprovals(s, e)
  {
    if e.HumanRequeue? && ReliedOn(s, e.id) { ReliedUnanswered(s, e.id); }
  }

  lemma ReliedUnanswered(s: Graph, r: Id)
    requires ResolveInv(s) && ReliedOn(s, r)
    ensures r !in s.answered
  {
    ReliedApproves(s, r);
    assert ResolveAt(s, r);
  }

  lemma ReliedApproves(s: Graph, r: Id)
    requires GateInv(s) && ReliedOn(s, r)
    ensures Silent(s.t, r) && Approving(s.t[r])
  {
    ReliedOnBy(s, r);
    SpecsLookup(s.t);
    assert EdgesOk(SpecsOf(s.t), s.t[r].spec);
  }

  lemma ReliedOnBy(s: Graph, r: Id)
    requires GateInv(s) && ReliedOn(s, r)
    ensures r in s.t && s.t[r].spec.reviewOf.Some? && Approving(s.t[r])
  {
    if i :| i in s.t && i != r && Accepted(s.t[i].state) && s.t[i].reviewedBy == Some(r) {
      assert GateAt(s.t, i);
    } else if m :| m in s.mergeReads && m.reviewer == r {
      assert MergeReadCurrent(s.t, m);
    } else {
      var k :| k in s.merges && s.merges[k].reviewer == r;
      assert MergeReadCurrent(s.t, s.merges[k]);
    }
  }

  // ---- how a task may change --------------------------------------------------------

  /** No call becomes resolvable, and nothing is asked, checked or brought back. */
  ghost predicate Calms(c: Child, d: Child) {
    && !d.Asking?
    && (forall call :: Resolvable(d, call) ==> Resolvable(c, call))
    && (Still(c) ==> Still(d))
    && (Ended(c) ==> Ended(d))
  }

  /** The row, its task and its human commands, compared before and after an event. */
  lemma Carry(s: Graph, s': Graph, i: Id)
    requires i in s.t && i in s'.t && ResolveAt(s, i)
    requires Parked(s.t[i].state) ==> Parked(s'.t[i].state)
    requires s'.answered[i] == s.answered[i] && s'.humanReads == s.humanReads
    requires Calms(ChildOf(s.children, i), ChildOf(s'.children, i))
    requires Approving(s'.t[i]) ==> Approving(s.t[i]) || (Ended(ChildOf(s'.children, i)) && s.answered[i] == 0)
    ensures ResolveAt(s', i)
  {
  }

  lemma ParkedStays(n: Node, m: Node, now: Time)
    requires SteadyMove(n, m, now) && Parked(n.state)
    ensures Parked(m.state)
  {
  }

  // ---- events that leave the tasks alone --------------------------------------------

  predicate RowEvent(e: Event) {
    e.ClaimNext? || e.Renew? || e.ReviewRead? || e.ReviewDemote? || e.Cancel? || e.MergeRead? || e.MergeConflict? ||
    e.MergeStart? || e.MergeFinish? || e.MergeAbort?
  }

  lemma RowTasks(s: Graph, e: Event)
    requires s.clock == e.now && (RowEvent(e) || e.Publish?)
    ensures SameTasks(s, Apply(s, e))
  {
    if e.MergeRead? || e.MergeConflict? || e.MergeStart? || e.MergeFinish? || e.MergeAbort? {
      MergeTasks(s, e);
    } else {
      WorkTasks(s, e);
    }
  }

  predicate SameTasks(s: Graph, s': Graph) {
    s'.children == s.children && s'.answered == s.answered && s'.humanReads == s.humanReads
  }

  lemma MergeTasks(s: Graph, e: Event)
    requires s.clock == e.now && (e.MergeRead? || e.MergeConflict? || e.MergeStart? || e.MergeFinish? || e.MergeAbort?)
    ensures SameTasks(s, Apply(s, e))
  {
  }

  lemma WorkTasks(s: Graph, e: Event)
    requires s.clock == e.now
    requires e.ClaimNext? || e.Renew? || e.ReviewRead? || e.ReviewDemote? || e.Cancel? || e.Publish?
    ensures SameTasks(s, Apply(s, e))
  {
  }

  /** The merge of a coder leaves other rows alone. */
  lemma FinishedElsewhere(s: Graph, e: Event, i: Id)
    requires Inv(s) && s.clock == e.now && e.MergeFinish? && Silent(s.t, i)
    ensures Apply(s, e).t[i] == s.t[i]
  {
    if e.token in s.merges { assert MergeReadOk(s.t, s.merges[e.token]); }
  }

  lemma SteadyRow(s: Graph, e: Event, i: Id)
    requires Inv(s) && s.clock == e.now && !e.Submit? && !e.ReviewInsert? && !e.HumanRequeue? && i in s.t
    ensures i in Apply(s, e).t && Apply(s, e).t[i].spec == s.t[i].spec
    ensures Parked(s.t[i].state) ==> Parked(Apply(s, e).t[i].state)
  {
    SteadyStep(s, e);
    ResultKept(s.t[i], Apply(s, e).t[i], s.clock);
    if Parked(s.t[i].state) { ParkedStays(s.t[i], Apply(s, e).t[i], s.clock); }
  }

  lemma RowResolve(s: Graph, e: Event, i: Id)
    requires ResolveInv(s) && s.clock == e.now && RowEvent(e) && Silent(s.t, i)
    ensures i in Apply(s, e).t && ResolveAt(Apply(s, e), i)
  {
    RowTasks(s, e);
    SteadyRow(s, e, i);
    if e.MergeFinish? { FinishedElsewhere(s, e, i); } else { ResultStays(s, e, i); }
    Carry(s, Apply(s, e), i);
  }

  /** Who publishes an approval has finished its task, and runs. */
  lemma PublishedEnded(s: Graph, e: Event, i: Id)
    requires Inv(s) && s.clock == e.now && e.Publish? && Silent(s.t, i) && Approving(Apply(s, e).t[i])
    ensures Approving(s.t[i]) || (s.t[i].state == Running && Ended(ChildOf(s.children, i)))
  {
    if PublishesNode(s, e, i) {
      WorkerSpec(s, e.token);
    } else {
      OtherPublished(s, e, i);
    }
  }

  lemma PublishResolve(s: Graph, e: Event, i: Id)
    requires ResolveInv(s) && s.clock == e.now && e.Publish? && Silent(s.t, i)
    ensures i in Apply(s, e).t && ResolveAt(Apply(s, e), i)
  {
    RowTasks(s, e);
    SteadyRow(s, e, i);
    assert ResolveAt(s, i);
    if Approving(Apply(s, e).t[i]) { PublishedEnded(s, e, i); }
    Carry(s, Apply(s, e), i);
  }

  // ---- events of rows and tasks -----------------------------------------------------

  predicate BothEvent(e: Event) {
    e.Recover? || e.Fail? || e.HumanAbandon?
  }

  lemma BothTasks(s: Graph, e: Event, i: Id)
    requires s.clock == e.now && BothEvent(e) && !ChildOf(s.children, i).Asking?
    ensures var s' := Apply(s, e); s'.answered == s.answered && s'.humanReads == s.humanReads
    ensures Calms(ChildOf(s.children, i), ChildOf(Apply(s, e).children, i))
  {
    match e
    case Recover(_, _) =>
    case Fail(_, _, _) =>
    case HumanAbandon(_, _) =>
  }

  lemma BothResolve(s: Graph, e: Event, i: Id)
    requires ResolveInv(s) && s.clock == e.now && BothEvent(e) && Silent(s.t, i)
    ensures i in Apply(s, e).t && ResolveAt(Apply(s, e), i)
  {
    assert ResolveAt(s, i);
    BothTasks(s, e, i);
    SteadyRow(s, e, i);
    ResultStays(s, e, i);
    Carry(s, Apply(s, e), i);
  }

  // ---- events of tasks --------------------------------------------------------------

  /** Steps of tasks that neither check nor start anything. */
  predicate CalmTask(e: Event) {
    e.TaskClaim? || e.TaskStep? || e.HumanMark? || e.ExitRead?
  }

  lemma TaskCalms(c: Child, d: Child, token: Token, persona: Persona)
    requires !MayAskHumans(persona) && !c.Asking?
    requires d == ClaimChild(c, token) || d == MarkChild(c) || ChildSteps(c, d, token, persona)
    ensures Calms(c, d)
  {
  }

  lemma CalmTasks(s: Graph, e: Event, i: Id)
    requires Inv(s) && s.clock == e.now && CalmTask(e) && Silent(s.t, i) && !ChildOf(s.children, i).Asking?
    ensures Calms(ChildOf(s.children, i), ChildOf(Apply(s, e).children, i))
  {
    if e.TaskClaim? {
      ClaimCalms(s, e, i);
    } else if e.TaskStep? {
      StepCalms(s, e, i);
    } else if e.HumanMark? {
      MarkCalms(s, e, i);
    }
  }

  lemma ClaimCalms(s: Graph, e: Event, i: Id)
    requires s.clock == e.now && e.TaskClaim? && Silent(s.t, i) && !ChildOf(s.children, i).Asking?
    ensures Calms(ChildOf(s.children, i), ChildOf(Apply(s, e).children, i))
  {
    TaskCalms(ChildOf(s.children, i), ClaimChild(ChildOf(s.children, i), e.token), e.token, s.t[i].spec.persona);
  }

  lemma StepCalms(s: Graph, e: Event, i: Id)
    requires Inv(s) && s.clock == e.now && e.TaskStep? && Silent(s.t, i) && !ChildOf(s.children, i).Asking?
    ensures Calms(ChildOf(s.children, i), ChildOf(Apply(s, e).children, i))
  {
    if e.token in s.workers && s.workers[e.token].id == i {
      WorkerSpec(s, e.token);
      var c := ChildOf(s.children, i);
      if ChildSteps(c, e.child, e.token, s.t[i].spec.persona) { TaskCalms(c, e.child, e.token, s.t[i].spec.persona); }
    }
  }

  lemma MarkCalms(s: Graph, e: Event, i: Id)
    requires s.clock == e.now && e.HumanMark? && Silent(s.t, i) && !ChildOf(s.children, i).Asking?
    ensures Calms(ChildOf(s.children, i), ChildOf(Apply(s, e).children, i))
  {
    TaskCalms(ChildOf(s.children, i), MarkChild(ChildOf(s.children, i)), 0, s.t[i].spec.persona);
  }

  lemma CalmHumans(s: Graph, e: Event)
    requires s.clock == e.now && CalmTask(e)
    ensures var s' := Apply(s, e); s'.answered == s.answered && s'.humanReads == s.humanReads
  {
  }

  lemma CalmResolve(s: Graph, e: Event, i: Id)
    requires ResolveInv(s) && s.clock == e.now && CalmTask(e) && Silent(s.t, i)
    ensures i in Apply(s, e).t && ResolveAt(Apply(s, e), i)
  {
    assert ResolveAt(s, i);
    CalmTasks(s, e, i);
    CalmHumans(s, e);
    ReadsLeaveTable(s, e);
    Carry(s, Apply(s, e), i);
  }

  /** A check meets a running node, which has no outstanding update. */
  lemma CheckResolve(s: Graph, e: Event, i: Id)
    requires ResolveInv(s) && s.clock == e.now && e.TaskCheck? && Silent(s.t, i)
    ensures i in Apply(s, e).t && ResolveAt(Apply(s, e), i)
  {
    assert ResolveAt(s, i);
  }

  /** A call that starts is named by nobody. */
  lemma StartCall(s: Graph, i: Id, token: Token, call: CallId)
    requires i in s.t && ResolveAt(s, i) && ChildOf(s.children, i) == Working(token, true, None) && !Named(s, i, call)
    ensures ResolveAt(s.(children := s.children[i := Working(token, true, Some(call))],
                         started := s.started + {(i, call)}), i)
  {
    assert forall h :: h in s.humanReads && h.id == i && h.state == NeedsResolution && h.call == call ==>
      h == HumanTicket(i, NeedsResolution, call);
  }

  /** A step on another task. */
  lemma OtherTask(s: Graph, i: Id, j: Id, c: Child)
    requires i in s.t && ResolveAt(s, i) && i != j
    ensures ResolveAt(s.(children := s.children[j := c]), i)
  {
    Carry(s, s.(children := s.children[j := c]), i);
  }

  lemma StartResolve(s: Graph, e: Event, i: Id)
    requires ResolveInv(s) && s.clock == e.now && e.TaskStart? && StartsUnnamed(s, e) && Silent(s.t, i)
    ensures i in Apply(s, e).t && ResolveAt(Apply(s, e), i)
  {
    assert ResolveAt(s, i);
    if Starts(s, e) {
      WorkerSpec(s, e.token);
      var j := s.workers[e.token].id;
      if i == j {
        StartCall(s, i, e.token, e.call);
      } else {
        OtherTask(s, i, j, Working(e.token, true, Some(e.call)));
      }
    }
  }

  lemma ReadTickets(s: Graph, h: HumanTicket, i: Id)
    requires i in s.t && ResolveAt(s, i) && h.id in s.t && s.t[h.id].state == h.state
    ensures ResolveAt(s.(humanReads := s.humanReads + {h}), i)
  {
    var s' := s.(humanReads := s.humanReads + {h});
    if NamesStarted(s', i) && !NamesStarted(s, i) {
      assert h.id == i && h.state == NeedsResolution;
    }
  }

  lemma ReadResolve(s: Graph, e: Event, i: Id)
    requires ResolveInv(s) && s.clock == e.now && e.HumanRead? && Silent(s.t, i)
    ensures i in Apply(s, e).t && ResolveAt(Apply(s, e), i)
  {
    assert ResolveAt(s, i);
    if e.id in s.t && s.t[e.id].state in {NeedsInput, NeedsResolution} {
      ReadTickets(s, HumanTicket(e.id, s.t[e.id].state, e.call), i);
    }
  }

  /** A resolution takes the started call away, and leaves the only outstanding update of a node that stands still. */
  lemma ActTickets(s: Graph, h: HumanTicket, i: Id)
    requires i in s.t && ResolveAt(s, i) && h in s.humanReads &&
      HumanApplies(h.state, h.call, ChildOf(s.children, h.id))
    ensures ResolveAt(s.(children := s.children[h.id := Waiting], answered := s.answered + multiset{h.id}), i)
  {
    var s' := s.(children := s.children[h.id := Waiting], answered := s.answered + multiset{h.id});
    if h.id == i {
      assert NamesStarted(s, i);
    } else {
      assert ChildOf(s'.children, i) == ChildOf(s.children, i) && s'.answered[i] == s.answered[i];
    }
  }

  lemma ActResolve(s: Graph, e: Event, i: Id)
    requires ResolveInv(s) && s.clock == e.now && e.HumanAct? && Silent(s.t, i)
    ensures i in Apply(s, e).t && ResolveAt(Apply(s, e), i)
  {
    assert ResolveAt(s, i);
    var h := e.human;
    if h in s.humanReads && HumanApplies(h.state, h.call, ChildOf(s.children, h.id)) { ActTickets(s, h, i); }
  }

  lemma RequeueResolve(s: Graph, e: Event, i: Id)
    requires ResolveInv(s) && s.clock == e.now && e.HumanRequeue? && Silent(s.t, i)
    ensures i in Apply(s, e).t && ResolveAt(Apply(s, e), i)
  {
    assert ResolveAt(s, i);
  }

  lemma InsertTasks(s: Graph, e: Event)
    requires s.clock == e.now && (e.Submit? || e.ReviewInsert?)
    ensures SameTasks(s, Apply(s, e))
    ensures forall i :: i in s.t ==> i in Apply(s, e).t && Apply(s, e).t[i] == s.t[i]
    ensures forall i :: i in Apply(s, e).t && i !in s.t ==> Apply(s, e).t[i].result.None?
  {
  }

  lemma InsertResolve(s: Graph, e: Event, i: Id)
    requires ResolveInv(s) && s.clock == e.now && (e.Submit? || e.ReviewInsert?) && Silent(Apply(s, e).t, i)
    ensures ResolveAt(Apply(s, e), i)
  {
    InsertTasks(s, e);
    if i in s.t {
      assert ResolveAt(s, i);
      Carry(s, Apply(s, e), i);
    } else {
      NewcomerResolve(Apply(s, e), i);
    }
  }

  lemma NewcomerResolve(s: Graph, i: Id)
    requires i in s.t && s.t[i].result.None? && i !in s.children && i !in s.answered
    ensures ResolveAt(s, i)
  {
  }

  // ---- every run --------------------------------------------------------------------

  lemma ResolveApplyAt(s: Graph, e: Event, i: Id)
    requires ResolveInv(s) && s.clock == e.now && StartsUnnamed(s, e) && Silent(s.t, i)
    requires !e.Submit? && !e.ReviewInsert?
    ensures i in Apply(s, e).t && ResolveAt(Apply(s, e), i)
  {
    if RowEvent(e) {
      RowResolve(s, e, i);
    } else if BothEvent(e) {
      BothResolve(s, e, i);
    } else if CalmTask(e) {
      CalmResolve(s, e, i);
    } else {
      match e
      case Publish(_, _, _, _) => PublishResolve(s, e, i);
      case TaskCheck(_, _) => CheckResolve(s, e, i);
      case TaskStart(_, _, _) => StartResolve(s, e, i);
      case HumanRead(_, _, _) => ReadResolve(s, e, i);
      case HumanAct(_, _) => ActResolve(s, e, i);
      case HumanRequeue(_, _) => RequeueResolve(s, e, i);
    }
  }

  lemma SilentBefore(s: Graph, e: Event, i: Id)
    requires Inv(s) && s.clock == e.now && !e.Submit? && !e.ReviewInsert? && Silent(Apply(s, e).t, i)
    ensures Silent(s.t, i)
  {
    if e.HumanRequeue? { return; }
    SteadyStep(s, e);
    ResultKept(s.t[i], Apply(s, e).t[i], s.clock);
  }

  lemma TableKept(s: Graph, e: Event)
    requires Inv(s) && s.clock == e.now
    ensures s.t.Keys <= Apply(s, e).t.Keys
  {
    if e.Submit? || e.ReviewInsert? {
      InsertTasks(s, e);
    } else if !e.HumanRequeue? {
      SteadyStep(s, e);
    }
  }

  lemma KnownStays(s: Graph, e: Event)
    requires Inv(s) && s.clock == e.now && Known(s)
    ensures Known(Apply(s, e))
  {
    TableKept(s, e);
    if e.Submit? || e.ReviewInsert? {
      InsertTasks(s, e);
    } else if RowEvent(e) || e.Publish? {
      RowTasks(s, e);
    } else {
      KnownTasks(s, e);
    }
  }

  lemma KnownTasks(s: Graph, e: Event)
    requires Inv(s) && s.clock == e.now && Known(s) && (BothEvent(e) || TaskEvent(e) || e.HumanRequeue?)
    ensures Known(Apply(s, e).(t := s.t))
  {
    if BothEvent(e) {
      KnownBoth(s, e);
    } else if e.TaskClaim? || e.TaskCheck? || e.TaskStart? || e.TaskStep? || e.ExitRead? {
      KnownWork(s, e);
    } else {
      KnownHumans(s, e);
    }
  }

  lemma KnownBoth(s: Graph, e: Event)
    requires Inv(s) && s.clock == e.now && Known(s) && BothEvent(e)
    ensures Known(Apply(s, e).(t := s.t))
  {
  }

  lemma KnownWork(s: Graph, e: Event)
    requires Inv(s) && s.clock == e.now && Known(s)
    requires e.TaskClaim? || e.TaskCheck? || e.TaskStart? || e.TaskStep? || e.ExitRead?
    ensures Known(Apply(s, e).(t := s.t))
  {
    if e.token in s.workers {
      WorkerSpec(s, e.token);
      WorkOnOwn(s, e);
    }
  }

  lemma WorkOnOwn(s: Graph, e: Event)
    requires s.clock == e.now && (e.TaskClaim? || e.TaskCheck? || e.TaskStart? || e.TaskStep? || e.ExitRead?)
    requires e.token in s.workers
    ensures Apply(s, e).children.Keys <= s.children.Keys + {s.workers[e.token].id}
    ensures var s' := Apply(s, e); s'.answered == s.answered && s'.humanReads == s.humanReads
  {
  }

  lemma KnownHumans(s: Graph, e: Event)
    requires s.clock == e.now && Known(s) && (e.HumanRead? || e.HumanMark? || e.HumanAct? || e.HumanRequeue?)
    ensures Known(Apply(s, e).(t := s.t))
  {
  }

  lemma ResolveApply(s: Graph, e: Event)
    requires ResolveInv(s) && s.clock == e.now && StartsUnnamed(s, e)
    ensures ResolveInv(Apply(s, e))
  {
    UpdateSpares(s, e);
    GateApply(s, e);
    KnownStays(s, e);
    forall i | Silent(Apply(s, e).t, i)
      ensures ResolveAt(Apply(s, e), i)
    {
      if e.Submit? || e.ReviewInsert? {
        InsertResolve(s, e, i);
      } else {
        SilentBefore(s, e, i);
        ResolveApplyAt(s, e, i);
      }
    }
  }

  lemma ResolveNext(s: Graph, e: Event)
    requires ResolveInv(s) && StartsUnnamed(s, e)
    ensures ResolveInv(Next(s, e))
  {
    if s.clock <= e.now {
      TickGate(s, e.now);
      var s1 := s.(clock := e.now);
      assert forall i :: Silent(s1.t, i) ==> ResolveAt(s, i) && ResolveAt(s1, i);
      ResolveApply(s1, e);
      assert Next(s, e) == Apply(s1, e);
    }
  }

  /** Runs in which nobody starts a named call spare every approval. */
  lemma {:induction false} UnnamedSpares(s: Graph, es: seq<Event>)
    requires ResolveInv(s) && Guarded(s, es, UNNAMED)
    ensures Guarded(s, es, APPROVALS) && ResolveInv(Run(s, es))
    decreases |es|
  {
    if es != [] {
      UpdateSpares(s, es[0]);
      ResolveNext(s, es[0]);
      UnnamedSpares(Next(s, es[0]), es[1..]);
    }
  }

  /** An approving reviewer is never reopened in such runs. */
  lemma {:induction false} UnnamedNeverReopens(s: Graph, es: seq<Event>, i: Id, r: Id)
    requires ResolveInv(s) && ApprovedBy(s.t, i, r) && Guarded(s, es, UNNAMED)
    ensures NotReopened(s, es, r)
    decreases |es|
  {
    if es != [] {
      ApproverUnanswered(s, i, r);
      ApprovalStays(s, es[0], i, r);
      ResolveNext(s, es[0]);
      UnnamedNeverReopens(Next(s, es[0]), es[1..], i, r);
    }
  }

  lemma ApproverUnanswered(s: Graph, i: Id, r: Id)
    requires ResolveInv(s) && ApprovedBy(s.t, i, r)
    ensures r !in s.answered
  {
    SpecsLookup(s.t);
    assert EdgesOk(SpecsOf(s.t), s.t[r].spec);
    assert ResolveAt(s, r);
  }

  // ---- ids that never repeat --------------------------------------------------------

  /** A new call has a new id, and a human names a call that the task has started. */
  predicate FreshIds(s: Graph, e: Event) {
    && (e.TaskStart? && Starts(s, e) ==> (s.workers[e.token].id, e.call) !in s.started)
    && (e.HumanRead? && e.id in s.t && s.t[e.id].state == NeedsResolution ==> (e.id, e.call) in s.started)
  }

  ghost predicate FreshRun(s: Graph, es: seq<Event>)
    decreases |es|
  {
    es != [] ==> FreshIds(s, es[0]) && FreshRun(Next(s, es[0]), es[1..])
  }

  predicate NamedStarted(s: Graph) {
    forall h :: h in s.humanReads && h.state == NeedsResolution ==> (h.id, h.call) in s.started
  }

  lemma StartedStays(s: Graph, e: Event)
    requires s.clock == e.now
    ensures s.started <= Apply(s, e).started
    ensures !e.HumanRead? ==> Apply(s, e).humanReads == s.humanReads
  {
    if RowEvent(e) || e.Publish? {
      RowStarted(s, e);
    } else if TaskEvent(e) {
      TaskStarted(s, e);
    }
  }

  lemma RowStarted(s: Graph, e: Event)
    requires s.clock == e.now && (RowEvent(e) || e.Publish?)
    ensures Apply(s, e).started == s.started && Apply(s, e).humanReads == s.humanReads
  {
  }

  lemma TaskStarted(s: Graph, e: Event)
    requires s.clock == e.now && TaskEvent(e)
    ensures s.started <= Apply(s, e).started
    ensures !e.HumanRead? ==> Apply(s, e).humanReads == s.humanReads
  {
  }

  lemma NamedApply(s: Graph, e: Event)
    requires s.clock == e.now && NamedStarted(s) && FreshIds(s, e)
    ensures NamedStarted(Apply(s, e))
  {
    StartedStays(s, e);
  }

  lemma NamedNext(s: Graph, e: Event)
    requires NamedStarted(s) && FreshIds(s, e)
    ensures NamedStarted(Next(s, e))
  {
    if s.clock <= e.now {
      NamedApply(s.(clock := e.now), e);
      assert Next(s, e) == Apply(s.(clock := e.now), e);
    }
  }

  /** If call ids never repeat and humans name calls that exist, nobody starts a named call. */
  lemma {:induction false} FreshRunsUnnamed(s: Graph, es: seq<Event>)
    requires NamedStarted(s) && FreshRun(s, es)
    ensures Guarded(s, es, UNNAMED)
    decreases |es|
  {
    if es != [] {
      NamedNext(s, es[0]);
      FreshRunsUnnamed(Next(s, es[0]), es[1..]);
    }
  }

  // ---- main results -----------------------------------------------------------------

  lemma ResolveStart()
    ensures ResolveInv(INIT)
  {
  }

  /**
   Main result. In every run in which no reviewer or planner starts a call under an id that a human has already
   named, whenever human updates land, an accepted node is a coder with a verified successful result, and its
   `reviewed_by` is the one node that reviews it, finished with a verified approval without findings.
   */
  lemma AcceptedOnlyByReview(es: seq<Event>, i: Id)
    requires Guarded(INIT, es, UNNAMED)
    requires var t := Run(INIT, es).t; i in t && Accepted(t[i].state)
    ensures var t := Run(INIT, es).t;
      && t[i].spec.persona == Coder && t[i].result.Some? && Verified(t[i].result.value)
      && t[i].reviewedBy.Some? && ApprovedBy(t, i, t[i].reviewedBy.value)
      && forall r :: r in t && t[r].spec.reviewOf == Some(i) ==> r == t[i].reviewedBy.value
  {
    ResolveStart();
    UnnamedSpares(INIT, es);
    AcceptedWhileSpared(es, i);
  }

  /**
   Main result. After any such run and in any such continuation, the reviewer of an accepted coder keeps its result
   and its approval for ever, also after the coder has left acceptance; and the coder keeps its result, up to the
   merge record, until it is published again.
   */
  lemma AcceptedResultsFrozen(es: seq<Event>, fs: seq<Event>, i: Id)
    requires Guarded(INIT, es, UNNAMED) && Guarded(Run(INIT, es), fs, UNNAMED)
    requires var t := Run(INIT, es).t; i in t && Accepted(t[i].state)
    ensures var s := Run(INIT, es); var t := s.t; var t' := Run(s, fs).t;
      && t[i].result.Some? && t[i].reviewedBy.Some?
      && var r := t[i].reviewedBy.value;
      && r in t && ApprovedBy(t', i, r) && t'[r].result == t[r].result
      && (Unpublished(s, fs, i) ==>
            i in t' && t'[i].result.Some? && Bare(t'[i].result.value) == Bare(t[i].result.value))
  {
    ResolveStart();
    UnnamedSpares(INIT, es);
    var s := Run(INIT, es);
    UnnamedSpares(s, fs);
    AcceptedWhileSpared(es, i);
    UnnamedNeverReopens(s, fs, i, s.t[i].reviewedBy.value);
    FrozenWhileSpared(es, fs, i);
  }
}
