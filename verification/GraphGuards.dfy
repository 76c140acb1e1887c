/**
 None of the review guards can be dropped: three concrete runs, each of steps the code takes. They share their
 beginning: two humans read a coder that waits for input. The first answers and requeues it. The coder asks again,
 its worker stops before it can say so, and the second human answers that new question. A recovery then requeues
 the coder, it is delivered, and only now the second human's update is due.
 */
module GraphGuards {
  import opened Prelude
  import opened GraphTable
  import opened GraphMachine

  /** Some run that keeps the guards `g` ends in `s`. */
  ghost predicate GuardedReach(s: Graph, g: Guards) {
    exists es :: Guarded(INIT, es, g) && Run(INIT, es) == s
  }

  lemma {:induction false} Append(s: Graph, es: seq<Event>, e: Event, g: Guards)
    requires Guarded(s, es, g) && GuardHolds(Run(s, es), e, g)
    ensures Run(s, es + [e]) == Next(Run(s, es), e)
    ensures Guarded(s, es + [e], g)
    decreases |es|
  {
    if es == [] {
      assert es + [e] == [e];
    } else {
      assert (es + [e])[1..] == es[1..] + [e];
      Append(Next(s, es[0]), es[1..], e, g);
    }
  }

  lemma Extend(s: Graph, e: Event, g: Guards)
    requires GuardedReach(s, g) && GuardHolds(s, e, g)
    ensures GuardedReach(Next(s, e), g)
  {
    var es :| Guarded(INIT, es, g) && Run(INIT, es) == s;
    Append(INIT, es, e, g);
  }

  /** Only a human requeue, the steps of `ensure_review` and the start of a tool have guards. */
  lemma Free(s: Graph, e: Event, g: Guards)
    requires GuardedReach(s, g) && !e.HumanRequeue? && !e.ReviewInsert? && !e.ReviewDemote? && !e.TaskStart?
    ensures GuardedReach(Next(s, e), g)
  {
    Extend(s, e, g);
  }

  const GOOD := Outcome(true, true, 1, None, None)
  const REDONE := Outcome(true, true, 2, None, None)
  const YES := Some(Verdict(true, []))
  const APPROVAL := Outcome(true, true, 1, YES, None)
  const DELIVERED := Finished(true, None)
  const APPROVED := Finished(true, YES)
  const CODER := NewRow(Spec(0, 0, 0, None, Coder, [], 0, 2, None, 600))
  const REVIEWER := NewRow(Spec(1, 0, 0, None, Reviewer, [0], 1, 2, Some(0), 600))

  // ---- single steps -----------------------------------------------------------------

  /** Claiming a ready row while at most one other worker runs. */
  lemma ClaimOne(s: Graph, i: Id, other: Id, token: Token, g: Guards) returns (s': Graph)
    requires GuardedReach(s, g) && token !in s.issued
    requires i in s.t && s.t[i].state == Queued && s.t[i].spec.concurrency == 2
    requires forall j :: j in s.t && s.t[j].state in {Running, CancelRequested} ==> j == other
    requires DepsReady(s.t, s.t[i])
    ensures GuardedReach(s', g)
    ensures var m := Claimed(s.t[i], s.clock, token);
      s' == s.(t := s.t[i := m], issued := s.issued + {token}, workers := s.workers[token := Worker(i, m)])
  {
    var e := ClaimNext(s.clock, [i], {}, token);
    assert Occupied(s.t, s.clock) <= {other};
    assert {other} == Occupied(s.t, s.clock) + ({other} - Occupied(s.t, s.clock));
    assert !DepStopped(s.t, s.t[i]);
    Free(s, e, g);
    s' := Next(s, e);
  }

  /** The worker takes the node's task over. */
  lemma StartOne(s: Graph, token: Token, g: Guards) returns (s': Graph)
    requires GuardedReach(s, g) && token in s.workers && HeldChild(s, token) in {Absent, Waiting}
    ensures GuardedReach(s', g)
    ensures s' == s.(children := s.children[s.workers[token].id := Working(token, false, None)])
  {
    Free(s, TaskClaim(s.clock, token), g);
    s' := Next(s, TaskClaim(s.clock, token));
  }

  /** The worker that has taken the task over brings it to `child`. */
  lemma EndOne(s: Graph, token: Token, child: Child, g: Guards) returns (s': Graph)
    requires GuardedReach(s, g) && token in s.workers && HeldChild(s, token) == Working(token, false, None)
    requires child.Finished? || (child.Asking? && s.workers[token].copy.spec.persona == Coder)
    ensures GuardedReach(s', g)
    ensures s' == s.(children := s.children[s.workers[token].id := child])
  {
    Free(s, TaskStep(s.clock, token, child), g);
    s' := Next(s, TaskStep(s.clock, token, child));
  }

  lemma TaskOne(s: Graph, token: Token, child: Child, g: Guards) returns (s': Graph)
    requires GuardedReach(s, g) && token in s.workers && HeldChild(s, token) in {Absent, Waiting}
    requires child.Finished? || (child.Asking? && s.workers[token].copy.spec.persona == Coder)
    ensures GuardedReach(s', g)
    ensures s' == s.(children := s.children[s.workers[token].id := child])
  {
    var i := s.workers[token].id;
    s' := StartOne(s, token, g);
    s' := EndOne(s', token, child, g);
    assert s.children[i := Working(token, false, None)][i := child] == s.children[i := child];
  }

  /** The worker checks that its node is still its own. */
  lemma CheckOne(s: Graph, i: Id, token: Token, g: Guards) returns (s': Graph)
    requires GuardedReach(s, g) && Works(s, i, token) && ChildOf(s.children, i) == Working(token, false, None)
    ensures GuardedReach(s', g) && s' == s.(children := s.children[i := Working(token, true, None)])
  {
    Free(s, TaskCheck(s.clock, token), g);
    s' := Next(s, TaskCheck(s.clock, token));
  }

  /** It starts the tool call. */
  lemma ToolOne(s: Graph, i: Id, token: Token, call: CallId, g: Guards) returns (s': Graph)
    requires GuardedReach(s, g) && Works(s, i, token) && ChildOf(s.children, i) == Working(token, false, None)
    requires !g.unnamed
    ensures GuardedReach(s', g)
    ensures s' == s.(children := s.children[i := Working(token, true, Some(call))], started := s.started + {(i, call)})
  {
    var s1 := CheckOne(s, i, token, g);
    var e := TaskStart(s.clock, token, call);
    Extend(s1, e, g);
    s' := Next(s1, e);
    assert s.children[i := Working(token, true, None)][i := Working(token, true, Some(call))]
        == s.children[i := Working(token, true, Some(call))];
  }

  /** The worker process dies in the tool; its supervisor reads the task and stops the node. */
  lemma KillOne(s: Graph, i: Id, token: Token, call: CallId, g: Guards) returns (s': Graph)
    requires GuardedReach(s, g) && Works(s, i, token) && ChildOf(s.children, i) == Working(token, true, Some(call))
    requires var c := s.t[i].spec.reviewOf;
      c.Some? ==> c.value in s.t && c.value != i && s.t[c.value].state != ReviewPending
    ensures GuardedReach(s', g)
    ensures s' == s.(t := s.t[i := s.t[i].(state := NeedsResolution, lease := None)],
                     children := s.children[i := Unsure(Some(call))],
                     exitReads := s.exitReads + {ExitTicket(token, Working(token, true, Some(call)))})
  {
    var child := Working(token, true, Some(call));
    Free(s, ExitRead(s.clock, token), g);
    var s1 := Next(s, ExitRead(s.clock, token));
    assert s1 == s.(exitReads := s.exitReads + {ExitTicket(token, child)});
    var e := Fail(s.clock, token, Exit(-9, child, false));
    Free(s1, e, g);
    s' := Next(s1, e);
  }

  /** An error in the tool leaves the task uncertain, and the worker dies before it can stop its node. */
  lemma BreakOne(s: Graph, i: Id, token: Token, call: CallId, g: Guards) returns (s': Graph)
    requires GuardedReach(s, g) && Works(s, i, token) && ChildOf(s.children, i) == Working(token, true, Some(call))
    ensures GuardedReach(s', g) && s' == s.(children := s.children[i := Unsure(Some(call))])
  {
    var e := TaskStep(s.clock, token, Unsure(Some(call)));
    Free(s, e, g);
    s' := Next(s, e);
  }

  /** A human command records what became of the call that it names. */
  lemma ResolveOne(s: Graph, i: Id, call: CallId, g: Guards) returns (s': Graph)
    requires GuardedReach(s, g) && HumanTicket(i, NeedsResolution, call) in s.humanReads
    requires ChildOf(s.children, i) == Unsure(Some(call))
    ensures GuardedReach(s', g)
    ensures s' == s.(children := s.children[i := Waiting], answered := s.answered + multiset{i})
  {
    var e := HumanAct(s.clock, HumanTicket(i, NeedsResolution, call));
    Free(s, e, g);
    s' := Next(s, e);
  }

  /** `ensure_review` inserts the reviewer of the commit it read. */
  lemma OpenReview(s: Graph, ticket: ReviewTicket, g: Guards) returns (s': Graph)
    requires GuardedReach(s, g) && s.t.Keys == {0} && ticket in s.reviewReads
    requires s.t[0].spec == CODER.spec && ticket.coder == 0 && ticket.commit == 1 && ticket.row.spec == CODER.spec
    requires g.review ==> StillCurrent(s.t[0], 1)
    ensures GuardedReach(s', g) && s' == s.(t := s.t[1 := REVIEWER])
  {
    var e := ReviewInsert(s.clock, ticket, 1, 600);
    assert |s.t| == |s.t.Keys| == 1;
    Extend(s, e, g);
    s' := Next(s, e);
  }

  lemma ReadOne(s: Graph, g: Guards) returns (s': Graph, ticket: ReviewTicket)
    requires GuardedReach(s, g) && s.t == map[0 := CODER.(state := ReviewPending, result := Some(GOOD), attempts := 3)]
    ensures GuardedReach(s', g) && ticket == ReviewTicket(0, s.t[0], 1)
    ensures s' == s.(reviewReads := s.reviewReads + {ticket})
  {
    ticket := ReviewTicket(0, s.t[0], 1);
    Free(s, ReviewRead(s.clock, 0), g);
    s' := Next(s, ReviewRead(s.clock, 0));
  }

  predicate Works(s: Graph, i: Id, token: Token) {
    && i in s.t && token in s.workers && s.workers[token] == Worker(i, s.t[i])
    && s.t[i].state == Running && s.t[i].lease == Some(Lease(token, s.clock + LEASE_SECONDS))
    && s.clock < s.t[i].spec.deadline
  }

  /** The worker on the coder delivers its finished task. */
  lemma Deliver(s: Graph, i: Id, token: Token, o: Outcome, g: Guards) returns (s': Graph)
    requires GuardedReach(s, g) && Works(s, i, token) && s.t[i].spec.persona == Coder && s.t[i].spec.reviewOf.None?
    requires ChildOf(s.children, i) == DELIVERED && o in {GOOD, REDONE}
    ensures GuardedReach(s', g)
    ensures var m := s.t[i].(state := ReviewPending, result := Some(o), lease := None);
      s' == s.(t := s.t[i := m], published := s.published + multiset{token})
  {
    var e := Publish(s.clock, token, o, false);
    Free(s, e, g);
    s' := Next(s, e);
  }

  /** The worker on the reviewer of `c` approves. */
  lemma Approve(s: Graph, i: Id, c: Id, token: Token, g: Guards) returns (s': Graph)
    requires GuardedReach(s, g) && Works(s, i, token) && s.t[i].spec.persona == Reviewer &&
      s.t[i].spec.reviewOf == Some(c)
    requires ChildOf(s.children, i) == APPROVED && i != c && c in s.t && s.t[c].state == ReviewPending
    ensures GuardedReach(s', g)
    ensures var m := s.t[i].(state := Completed, result := Some(APPROVAL), lease := None);
      s' == s.(t := s.t[i := m][c := s.t[c].(state := Reviewed, reviewedBy := Some(i))],
               published := s.published + multiset{token})
  {
    var e := Publish(s.clock, token, APPROVAL, false);
    Free(s, e, g);
    s' := Next(s, e);
  }

  /** A suspended worker stops its node while the coder it may review is not waiting. */
  lemma Suspend(s: Graph, i: Id, token: Token, g: Guards) returns (s': Graph)
    requires GuardedReach(s, g) && Works(s, i, token) && ChildOf(s.children, i).Asking? && i in s.children
    requires var c := s.t[i].spec.reviewOf;
      c.Some? ==> c.value in s.t && c.value != i && s.t[c.value].state != ReviewPending
    ensures GuardedReach(s', g)
    ensures s' == s.(t := s.t[i := s.t[i].(state := NeedsInput, lease := None)])
  {
    var e := Fail(s.clock, token, Suspended);
    Free(s, e, g);
    s' := Next(s, e);
    assert s.children[i := s.children[i]] == s.children;
  }

  /** A human command answers the open question of the node it read. */
  lemma AnswerOne(s: Graph, i: Id, g: Guards) returns (s': Graph)
    requires GuardedReach(s, g) && HumanTicket(i, NeedsInput, 0) in s.humanReads && ChildOf(s.children, i).Asking?
    ensures GuardedReach(s', g)
    ensures s' == s.(children := s.children[i := Waiting], answered := s.answered + multiset{i})
  {
    var e := HumanAct(s.clock, HumanTicket(i, NeedsInput, 0));
    Free(s, e, g);
    s' := Next(s, e);
  }

  /** The update of an answering command arrives. */
  lemma RequeueOne(s: Graph, i: Id, g: Guards) returns (s': Graph)
    requires GuardedReach(s, g) && i in s.t && i in s.answered && GuardHolds(s, HumanRequeue(s.clock, i), g)
    ensures GuardedReach(s', g)
    ensures s' == s.(t := s.t[i := s.t[i].(state := Queued, lease := None)], answered := s.answered - multiset{i},
                     requeues := s.requeues[i := RequeueCount(s, i) + 1])
  {
    var e := HumanRequeue(s.clock, i);
    Extend(s, e, g);
    s' := Next(s, e);
  }

  // ---- the common beginning ---------------------------------------------------------

  predicate Idle(s: Graph) {
    s.merges == map[] && s.mergeReads == {}
  }

  /** The coder waits for input, and two humans have read it. */
  lemma Submitted(g: Guards) returns (s: Graph)
    ensures GuardedReach(s, g) && s == INIT.(t := map[0 := CODER])
  {
    assert Guarded(INIT, [], g) && Run(INIT, []) == INIT;
    var e := Submit(0, 0, 0, 0, None, Coder, [], 0, 2, 600);
    Free(INIT, e, g);
    s := Next(INIT, e);
  }

  lemma AskedAndRead(g: Guards) returns (s: Graph)
    ensures GuardedReach(s, g) && s.clock == 0 && s.issued == {0} && Idle(s) && s.reviewReads == {}
    ensures s.t == map[0 := CODER.(state := NeedsInput, attempts := 1)] && s.children == map[0 := Asking]
    ensures s.humanReads == {HumanTicket(0, NeedsInput, 0)} && s.answered == multiset{}
  {
    s := Submitted(g);
    s := ClaimOne(s, 0, 0, 0, g);
    s := TaskOne(s, 0, Asking, g);
    s := Suspend(s, 0, 0, g);
    Free(s, HumanRead(0, 0, 0), g);
    s := Next(s, HumanRead(0, 0, 0));
  }

  /** The first human's answer requeues it; it asks again and its worker stops without a word. */
  lemma AskedAgain(g: Guards) returns (s: Graph)
    ensures GuardedReach(s, g) && s.clock == 0 && s.issued == {0, 1} && Idle(s) && s.reviewReads == {}
    ensures s.t == map[0 := CODER.(state := Running, lease := Some(Lease(1, 90)), attempts := 2)]
    ensures s.children == map[0 := Asking] && s.humanReads == {HumanTicket(0, NeedsInput, 0)} &&
      s.answered == multiset{}
  {
    s := AskedAndRead(g);
    s := AnswerOne(s, 0, g);
    s := RequeueOne(s, 0, g);
    s := ClaimOne(s, 0, 0, 1, g);
    s := TaskOne(s, 1, Asking, g);
  }

  lemma RecoverAt(s: Graph, now: Time, g: Guards) returns (s': Graph)
    requires GuardedReach(s, g) && s.clock <= now
    ensures GuardedReach(s', g)
    ensures s' == s.(clock := now, t := RecoverTable(s.t, s.children, {}, now),
                     children := RecoverChildren(s.t, s.children, {}, now))
  {
    Free(s, Recover(now, {}), g);
    s' := Next(s, Recover(now, {}));
  }

  /** The second human answers the new question; a recovery requeues the node before the second update. */
  lemma AnsweredTwice(g: Guards) returns (s: Graph)
    ensures GuardedReach(s, g) && s.clock == 90 && s.issued == {0, 1} && Idle(s) && s.reviewReads == {}
    ensures s.t == map[0 := CODER.(state := Queued, lease := Some(Lease(1, 90)), attempts := 2)]
    ensures s.children == map[0 := Waiting] && s.humanReads == {HumanTicket(0, NeedsInput, 0)} &&
      s.answered == multiset{0}
  {
    s := AskedAgain(g);
    s := AnswerOne(s, 0, g);
    RecoverOne(s.t, s.children);
    s := RecoverAt(s, 90, g);
  }

  lemma RecoverOne(t: Table, children: map<Id, Child>)
    requires t == map[0 := CODER.(state := Running, lease := Some(Lease(1, 90)), attempts := 2)] &&
      children == map[0 := Waiting]
    ensures RecoverTable(t, children, {}, 90) == map[0 := t[0].(state := Queued)]
    ensures RecoverChildren(t, children, {}, 90) == children
  {
    assert SweepRows(t, children, {}, 90) == map[0 := t[0].(state := Queued)];
  }

  /** The coder has delivered commit 1, while the second human's update is still due. */
  lemma DeliveredEarly(g: Guards) returns (s: Graph)
    ensures GuardedReach(s, g) && s.clock == 90 && s.issued == {0, 1, 2} && Idle(s) && s.reviewReads == {}
    ensures s.t == map[0 := CODER.(state := ReviewPending, result := Some(GOOD), attempts := 3)]
    ensures s.children == map[0 := DELIVERED] && s.humanReads == {HumanTicket(0, NeedsInput, 0)} &&
      s.answered == multiset{0}
  {
    s := AnsweredTwice(g);
    s := ClaimOne(s, 0, 0, 2, g);
    s := TaskOne(s, 2, DELIVERED, g);
    s := Deliver(s, 0, 2, GOOD, g);
  }

  /** Coder 0 is accepted with commit 2, and the snapshot of its reviewer 1 is commit 1. */
  predicate AcceptedOnOldReview(t: Table) {
    0 in t && 1 in t && t[0].state == Reviewed && t[0].reviewedBy == Some(1) && t[0].result == Some(REDONE) &&
    t[1].spec.reviewOf == Some(0) && t[1].spec.snapshot == 1
  }

  // ---- `ensure_review` without atomicity --------------------------------------------

  const HUMAN := Guards(true, true, true, false, true)

  /** One process reads the waiting coder for review; another, refused by the budget, demotes it. */
  lemma Demoted() returns (s: Graph, ticket: ReviewTicket)
    ensures GuardedReach(s, HUMAN) && s.clock == 90 && s.issued == {0, 1, 2} && Idle(s)
    ensures s.t == map[0 := CODER.(state := NeedsInput, result := Some(GOOD), attempts := 3)]
    ensures s.children == map[0 := DELIVERED] && s.answered == multiset{0}
    ensures ticket in s.reviewReads && ticket.coder == 0 && ticket.commit == 1 && ticket.row.spec == CODER.spec
  {
    s := DeliveredEarly(HUMAN);
    s, ticket := ReadOne(s, HUMAN);
    Extend(s, ReviewDemote(90, ticket), HUMAN);
    s := Next(s, ReviewDemote(90, ticket));
  }

  /** The second human's update meets a waiting node. */
  lemma Reopened() returns (s: Graph, ticket: ReviewTicket)
    ensures GuardedReach(s, HUMAN) && s.clock == 90 && s.issued == {0, 1, 2} && s.children == map[0 := DELIVERED]
    ensures s.t == map[0 := CODER.(state := Queued, result := Some(GOOD), attempts := 3)]
    ensures ticket in s.reviewReads && ticket.coder == 0 && ticket.commit == 1 && ticket.row.spec == CODER.spec
  {
    s, ticket := Demoted();
    assert Reopenable(s.t, 0) && !ReliedOn(s, 0);
    s := RequeueOne(s, 0, HUMAN);
  }

  /** The re-run delivers commit 2. */
  lemma Redelivered() returns (s: Graph, ticket: ReviewTicket)
    ensures GuardedReach(s, HUMAN) && s.clock == 90 && s.issued == {0, 1, 2, 3}
    ensures s.t == map[0 := CODER.(state := ReviewPending, result := Some(REDONE), attempts := 4)]
    ensures s.children == map[0 := DELIVERED]
    ensures ticket in s.reviewReads && ticket.coder == 0 && ticket.commit == 1 && ticket.row.spec == CODER.spec
  {
    s, ticket := Reopened();
    s := ClaimOne(s, 0, 0, 3, HUMAN);
    s := Deliver(s, 0, 3, REDONE, HUMAN);
  }

  /** The late insertion gives the coder a reviewer of commit 1, and the reviewer starts. */
  lemma StaleReviewStarted() returns (s: Graph)
    ensures GuardedReach(s, HUMAN) && s.clock == 90 && s.children == map[0 := DELIVERED]
    ensures s.t == map[0 := CODER.(state := ReviewPending, result := Some(REDONE), attempts := 4),
                       1 := Claimed(REVIEWER, 90, 4)]
    ensures 4 in s.workers && s.workers[4] == Worker(1, s.t[1])
  {
    var ticket;
    s, ticket := Redelivered();
    s := OpenReview(s, ticket, HUMAN);
    s := ClaimOne(s, 1, 1, 4, HUMAN);
  }

  /**
   The review guard is needed: with all human guards kept, a reviewer of commit 1 is inserted late and accepts
   commit 2.
   */
  lemma StaleReviewAccepted()
    ensures exists s :: GuardedReach(s, HUMAN) && AcceptedOnOldReview(s.t)
  {
    var s := StaleReviewStarted();
    s := TaskOne(s, 4, APPROVED, HUMAN);
    s := Approve(s, 1, 0, 4, HUMAN);
  }

  // ---- a human update without a test ------------------------------------------------

  lemma Opened(g: Guards) returns (s: Graph)
    ensures GuardedReach(s, g) && s.clock == 90 && s.issued == {0, 1, 2} && Idle(s) && s.answered == multiset{0}
    ensures s.t == map[0 := CODER.(state := ReviewPending, result := Some(GOOD), attempts := 3), 1 := REVIEWER]
    ensures s.children == map[0 := DELIVERED]
  {
    s := DeliveredEarly(g);
    var ticket;
    s, ticket := ReadOne(s, g);
    s := OpenReview(s, ticket, g);
  }

  lemma UnderReview(g: Guards) returns (s: Graph)
    ensures GuardedReach(s, g) && s.clock == 90 && s.issued == {0, 1, 2, 3} && Idle(s) && s.answered == multiset{0}
    ensures s.t == map[0 := CODER.(state := ReviewPending, result := Some(GOOD), attempts := 3),
                       1 := Claimed(REVIEWER, 90, 3)]
    ensures s.children == map[0 := DELIVERED, 1 := Working(3, false, None)]
    ensures 3 in s.workers && s.workers[3] == Worker(1, s.t[1])
  {
    s := Opened(g);
    s := ClaimOne(s, 1, 1, 3, g);
    s := StartOne(s, 3, g);
  }

  /** The reviewer of commit 1 has started when the second human's update reopens the coder. */
  lemma ReopenedUnderReview(g: Guards) returns (s: Graph)
    requires !g.waiting && !g.pairs
    ensures GuardedReach(s, g) && s.clock == 90 && s.issued == {0, 1, 2, 3} && Idle(s) && s.answered == multiset{}
    ensures s.t == map[0 := CODER.(state := Queued, result := Some(GOOD), attempts := 3), 1 := Claimed(REVIEWER, 90, 3)]
    ensures s.children == map[0 := DELIVERED, 1 := Working(3, false, None)]
    ensures 3 in s.workers && s.workers[3] == Worker(1, s.t[1])
  {
    s := UnderReview(g);
    assert !ReliedOn(s, 0);
    s := RequeueOne(s, 0, g);
  }

  /** The coder delivers commit 2 while the review of commit 1 goes on. */
  lemma DeliveredUnderReview(g: Guards) returns (s: Graph)
    requires !g.waiting && !g.pairs
    ensures GuardedReach(s, g) && s.clock == 90 && Works(s, 1, 3)
    ensures s.t == map[0 := CODER.(state := ReviewPending, result := Some(REDONE), attempts := 4),
                       1 := Claimed(REVIEWER, 90, 3)]
    ensures s.children == map[0 := DELIVERED, 1 := Working(3, false, None)]
  {
    s := ReopenedUnderReview(g);
    s := ClaimOne(s, 0, 1, 4, g);
    s := Deliver(s, 0, 4, REDONE, g);
  }

  /**
   The pairing guard is needed: with an undisturbed `ensure_review` and no approval reopened, a late human
   update lets a review of commit 1 accept commit 2.
   */
  lemma LateAnswerAccepted()
    ensures exists s :: GuardedReach(s, Guards(false, true, false, true, true)) && AcceptedOnOldReview(s.t)
  {
    var g := Guards(false, true, false, true, true);
    var s := DeliveredUnderReview(g);
    s := EndOne(s, 3, APPROVED, g);
    s := Approve(s, 1, 0, 3, g);
  }

  // ---- a reopened reviewer ----------------------------------------------------------

  const REVIEW := Guards(false, false, false, true, false)

  /** The reviewer's tool call 7 was cut off by a crash. */
  lemma ReviewerKilled() returns (s: Graph)
    ensures GuardedReach(s, REVIEW) && s.clock == 90 && s.issued == {0, 1, 2, 3} && s.answered == multiset{}
    ensures s.t == map[0 := CODER.(state := Queued, result := Some(GOOD), attempts := 3),
                       1 := REVIEWER.(state := NeedsResolution, attempts := 1)]
    ensures s.children == map[0 := DELIVERED, 1 := Unsure(Some(7))]
  {
    s := ReopenedUnderReview(REVIEW);
    s := ToolOne(s, 1, 3, 7, REVIEW);
    s := KillOne(s, 1, 3, 7, REVIEW);
  }

  /** Two humans read the reviewer with commands that name call 7; the first one's resolution requeues it. */
  lemma ReviewerResolved() returns (s: Graph)
    ensures GuardedReach(s, REVIEW) && s.clock == 90 && s.issued == {0, 1, 2, 3} && s.answered == multiset{}
    ensures s.t == map[0 := CODER.(state := Queued, result := Some(GOOD), attempts := 3),
                       1 := REVIEWER.(state := Queued, attempts := 1)]
    ensures s.children == map[0 := DELIVERED, 1 := Waiting] && HumanTicket(1, NeedsResolution, 7) in s.humanReads
  {
    s := ReviewerKilled();
    Free(s, HumanRead(90, 1, 7), REVIEW);
    s := Next(s, HumanRead(90, 1, 7));
    s := ResolveOne(s, 1, 7, REVIEW);
    s := RequeueOne(s, 1, REVIEW);
  }

  lemma RedeliveredToReviewer() returns (s: Graph)
    ensures GuardedReach(s, REVIEW) && s.clock == 90 && s.issued == {0, 1, 2, 3, 4} && s.answered == multiset{}
    ensures s.t == map[0 := CODER.(state := ReviewPending, result := Some(REDONE), attempts := 4),
                       1 := REVIEWER.(state := Queued, attempts := 1)]
    ensures s.children == map[0 := DELIVERED, 1 := Waiting] && HumanTicket(1, NeedsResolution, 7) in s.humanReads
  {
    s := ReviewerResolved();
    s := ClaimOne(s, 0, 0, 4, REVIEW);
    s := Deliver(s, 0, 4, REDONE, REVIEW);
  }

  lemma ReviewerRestarted() returns (s: Graph)
    ensures GuardedReach(s, REVIEW) && s.clock == 90 && s.issued == {0, 1, 2, 3, 4, 5} && s.answered == multiset{}
    ensures s.t == map[0 := CODER.(state := ReviewPending, result := Some(REDONE), attempts := 4),
                       1 := REVIEWER.(state := Running, lease := Some(Lease(5, 180)), attempts := 2)]
    ensures s.children == map[0 := DELIVERED, 1 := Working(5, false, None)]
    ensures HumanTicket(1, NeedsResolution, 7) in s.humanReads && Works(s, 1, 5)
  {
    s := RedeliveredToReviewer();
    s := ClaimOne(s, 1, 1, 5, REVIEW);
    s := StartOne(s, 5, REVIEW);
  }

  /** The reviewer's model uses id 7 for another call, which fails and takes the worker with it. */
  lemma ReviewerRepeats() returns (s: Graph)
    ensures GuardedReach(s, REVIEW) && s.clock == 90 && s.issued == {0, 1, 2, 3, 4, 5} && s.answered == multiset{}
    ensures s.t == map[0 := CODER.(state := ReviewPending, result := Some(REDONE), attempts := 4),
                       1 := REVIEWER.(state := Running, lease := Some(Lease(5, 180)), attempts := 2)]
    ensures s.children == map[0 := DELIVERED, 1 := Unsure(Some(7))] &&
      HumanTicket(1, NeedsResolution, 7) in s.humanReads
  {
    s := ReviewerRestarted();
    s := ToolOne(s, 1, 5, 7, REVIEW);
    s := BreakOne(s, 1, 5, 7, REVIEW);
  }

  /** The second human's resolution, made for the first call, is taken for the second. */
  lemma ReviewerResolvedTwice() returns (s: Graph)
    ensures GuardedReach(s, REVIEW) && s.clock == 90 && s.issued == {0, 1, 2, 3, 4, 5} && s.answered == multiset{1}
    ensures s.t == map[0 := CODER.(state := ReviewPending, result := Some(REDONE), attempts := 4),
                       1 := REVIEWER.(state := Running, lease := Some(Lease(5, 180)), attempts := 2)]
    ensures s.children == map[0 := DELIVERED, 1 := Waiting]
  {
    s := ReviewerRepeats();
    s := ResolveOne(s, 1, 7, REVIEW);
  }

  lemma SweepReviewer(t: Table, children: map<Id, Child>)
    requires t == map[0 := CODER.(state := ReviewPending, result := Some(REDONE), attempts := 4),
                      1 := REVIEWER.(state := Running, lease := Some(Lease(5, 180)), attempts := 2)]
    requires children == map[0 := DELIVERED, 1 := Waiting]
    ensures SweepRows(t, children, {}, 180) == t[1 := t[1].(state := Queued)]
  {
  }

  lemma RecoverReviewer(t: Table, children: map<Id, Child>)
    requires t == map[0 := CODER.(state := ReviewPending, result := Some(REDONE), attempts := 4),
                      1 := REVIEWER.(state := Running, lease := Some(Lease(5, 180)), attempts := 2)]
    requires children == map[0 := DELIVERED, 1 := Waiting]
    ensures RecoverTable(t, children, {}, 180) == t[1 := t[1].(state := Queued)]
    ensures RecoverChildren(t, children, {}, 180) == children
  {
    SweepReviewer(t, children);
    assert !LostReviewer(SweepRows(t, children, {}, 180), 0);
  }

  lemma ReviewerRecovered() returns (s: Graph)
    ensures GuardedReach(s, REVIEW) && s.clock == 180 && s.issued == {0, 1, 2, 3, 4, 5} && s.answered == multiset{1}
    ensures s.t == map[0 := CODER.(state := ReviewPending, result := Some(REDONE), attempts := 4),
                       1 := REVIEWER.(state := Queued, lease := Some(Lease(5, 180)), attempts := 2)]
    ensures s.children == map[0 := DELIVERED, 1 := Waiting]
  {
    s := ReviewerResolvedTwice();
    RecoverReviewer(s.t, s.children);
    s := RecoverAt(s, 180, REVIEW);
  }

  /** Coder 0 is accepted, and the one reviewer it was accepted by is queued. */
  predicate AcceptedOnReopened(t: Table) {
    0 in t && 1 in t && t[0].state == Reviewed && t[0].reviewedBy == Some(1) && t[1].spec.reviewOf == Some(0) &&
    t[1].state == Queued
  }

  lemma Reaccepted() returns (s: Graph)
    ensures GuardedReach(s, REVIEW) && s.clock == 180 && s.answered == multiset{1}
    ensures 0 in s.t && 1 in s.t && s.t[0].state == Reviewed && s.t[0].reviewedBy == Some(1) &&
      s.t[1].spec.reviewOf == Some(0)
  {
    s := ReviewerRecovered();
    s := ClaimOne(s, 1, 1, 6, REVIEW);
    s := TaskOne(s, 6, APPROVED, REVIEW);
    s := Approve(s, 1, 0, 6, REVIEW);
  }

  /**
   The guard of named calls is needed: when a call repeats the id of one that a human has named, a late human update
   reopens the reviewer of an accepted coder.
   */
  lemma ApprovalReopened()
    ensures exists s :: GuardedReach(s, REVIEW) && AcceptedOnReopened(s.t)
  {
    var s := Reaccepted();
    s := RequeueOne(s, 1, REVIEW);
  }
}
