/**
 The collaboration graph as a state machine. Every interleaving of submitters,
 schedulers, stale workers, reviewers, mergers and humans is a sequence of events;
 an event is one transaction, or one read whose value a later transaction uses.
 Values read earlier live in the state as tickets, so they may be arbitrarily old.
 */
module GraphMachine {
  import opened Prelude
  import opened GraphTable

  /** What `claim` hands to a worker: the node and the row as it was claimed. */
  datatype Worker = Worker(id: Id, copy: Node)

  /** What `ensure_review` read about a waiting coder before it inserts or demotes. */
  datatype ReviewTicket = ReviewTicket(coder: Id, row: Node, commit: Commit)

  /** What `merge_node` read about a reviewed coder before it takes the merge lease. */
  datatype MergeTicket = MergeTicket(id: Id, reviewer: Id, result: Outcome)

  /** The state in which `/agents` read a node before it answers or resolves, and the call it names when it resolves. */
  datatype HumanTicket = HumanTicket(id: Id, state: Status, call: CallId)

  /** The task of a stopped worker's node, as the supervisor read it. */
  datatype ExitTicket = ExitTicket(token: Token, child: Child)

  /**
   `started` are the tool calls that any task has started, and `answered` counts the human commands that have changed
   a node's task and not yet requeued the node.
   */
  datatype Graph = Graph(
    t: Table,
    children: map<Id, Child>,
    clock: Time,
    issued: set<Token>,
    workers: map<Token, Worker>,
    merges: map<Token, MergeTicket>,
    reviewReads: set<ReviewTicket>,
    mergeReads: set<MergeTicket>,
    humanReads: set<HumanTicket>,
    exitReads: set<ExitTicket>,
    started: set<(Id, CallId)>,
    answered: multiset<Id>,
    requeues: map<Id, nat>,
    published: multiset<Token>)

  datatype Event =
    | Submit(now: Time, id: Id, owner: nat, root: nat, parent: Option<Id>, persona: Persona, deps: seq<Id>,
             snapshot: Commit, concurrency: nat, deadline: Time)
    | Recover(now: Time, stoppedRoots: set<nat>)
    | ClaimNext(now: Time, rows: seq<Id>, busy: set<Id>, token: Token)
    | Renew(now: Time, token: Token)
    | Publish(now: Time, token: Token, outcome: Outcome, rootStopped: bool)
    | Fail(now: Time, token: Token, stop: Stop)
    | TaskClaim(now: Time, token: Token)
    | TaskCheck(now: Time, token: Token)
    | TaskStart(now: Time, token: Token, call: CallId)
    | TaskStep(now: Time, token: Token, child: Child)
    | ExitRead(now: Time, token: Token)
    | ReviewRead(now: Time, coder: Id)
    | ReviewInsert(now: Time, ticket: ReviewTicket, id: Id, deadline: Time)
    | ReviewDemote(now: Time, ticket: ReviewTicket)
    | Cancel(now: Time, owner: nat, id: Id)
    | MergeRead(now: Time, id: Id)
    | MergeConflict(now: Time, read: MergeTicket)
    | MergeStart(now: Time, read: MergeTicket, token: Token)
    | MergeFinish(now: Time, token: Token, record: MergeRecord)
    | MergeAbort(now: Time, token: Token)
    | HumanRead(now: Time, id: Id, call: CallId)
    | HumanMark(now: Time, human: HumanTicket)
    | HumanAct(now: Time, human: HumanTicket)
    | HumanRequeue(now: Time, id: Id)
    | HumanAbandon(now: Time, id: Id)

  const INIT := Graph(map[], map[], 0, {}, map[], map[], {}, {}, {}, {}, {}, multiset{}, map[], multiset{})

  function RequeueCount(s: Graph, i: Id): nat {
    if i in s.requeues then s.requeues[i] else 0
  }

  /** `submit` resolved the parent and every dependency under the same owner and root. */
  predicate CanSubmit(s: Graph, e: Event)
    requires e.Submit?
  {
    && e.id !in s.t
    && (e.parent.Some? ==> e.parent.value in s.t && s.t[e.parent.value].spec.owner == e.owner)
    && (forall d :: d in e.deps ==> d in s.t && s.t[d].spec.owner == e.owner && s.t[d].spec.root == e.root)
    && (forall j, k :: 0 <= j < k < |e.deps| ==> e.deps[j] != e.deps[k])
  }

  function SubmittedRow(s: Graph, e: Event): Node
    requires e.Submit?
  {
    NewRow(Spec(|s.t|, e.owner, e.root, e.parent, e.persona, e.deps, e.snapshot, e.concurrency, None, e.deadline))
  }

  /** A reviewer inherits the coder's payload; its snapshot is the commit that was read. */
  function ReviewerRow(s: Graph, ticket: ReviewTicket, deadline: Time): Node {
    var c := ticket.row.spec;
    NewRow(Spec(|s.t|, c.owner, c.root, c.parent, Reviewer, [ticket.coder], ticket.commit, c.concurrency,
                Some(ticket.coder), deadline))
  }

  predicate CanReadForReview(s: Graph, coder: Id) {
    coder in s.t && s.t[coder].state == ReviewPending && s.t[coder].result.Some? && !HasReviewer(s.t, coder)
  }

  /** The admission checks of `merge_node` that look at the graph. */
  predicate CanReadForMerge(s: Graph, id: Id) {
    id in s.t && s.t[id].state == Reviewed && s.t[id].result.Some? && s.t[id].reviewedBy.Some? &&
    var r := s.t[id].reviewedBy.value;
    r in s.t && s.t[r].state == Completed && s.t[r].result.Some? && Approves(s.t[r].result.value)
  }

  /** The publication is accepted, and is one the worker can make of its node's task. */
  predicate Publishes(s: Graph, e: Event)
    requires e.Publish?
  {
    e.token in s.workers &&
    var w := s.workers[e.token];
    CanPublish(s.t, w.id, e.token, w.copy, e.rootStopped, e.now) &&
    Deliverable(w.copy.spec.persona, ChildOf(s.children, w.id), e.outcome)
  }

  /** The worker ends its own row; a supervisor passes on the task that it has read. */
  predicate Fails(s: Graph, e: Event)
    requires e.Fail?
  {
    && e.token in s.workers && CanFail(s.t, s.workers[e.token].id, e.token)
    && (e.stop.Exit? ==> ExitTicket(e.token, e.stop.child) in s.exitReads)
  }

  function HeldChild(s: Graph, token: Token): Child {
    if token in s.workers then ChildOf(s.children, s.workers[token].id) else Absent
  }

  /** The worker finds its node running under its own live lease, and no tool started. */
  predicate Checks(s: Graph, e: Event)
    requires e.TaskCheck?
  {
    && e.token in s.workers
    && var w := s.workers[e.token];
    && CanRenew(s.t, w.id, e.token, e.now) && w.copy.spec.deadline > e.now
    && HeldChild(s, e.token) == Working(e.token, false, None)
  }

  /** The checkpoint before a tool call tests only that the worker still holds the task. */
  predicate Starts(s: Graph, e: Event)
    requires e.TaskStart?
  {
    HeldChild(s, e.token) == Working(e.token, true, None)
  }

  ghost function Next(s: Graph, e: Event): Graph {
    if e.now < s.clock then s else Apply(s.(clock := e.now), e)
  }

  /** One event at the current clock. An event whose guard fails, or whose SQL matches no row, changes nothing. */
  ghost function Apply(s: Graph, e: Event): Graph
    requires s.clock == e.now
  {
    match e
    case Submit(_, id, _, _, _, _, _, _, _, _) =>
      if CanSubmit(s, e) then s.(t := InsertRow(s.t, id, SubmittedRow(s, e))) else s
    case Recover(now, stoppedRoots) =>
      s.(t := RecoverTable(s.t, s.children, stoppedRoots, now),
         children := RecoverChildren(s.t, s.children, stoppedRoots, now))
    case ClaimNext(now, rows, busy, token) =>
      if token in s.issued then s
      else
        var c := ClaimRows(s.t, rows, busy, now, token);
        if c.claimed.None? then s.(t := c.table)
        else
          var i := c.claimed.value;
          s.(t := c.table, issued := s.issued + {token},
             workers := s.workers[token := Worker(i, c.table[i])])
    case Renew(now, token) =>
      if token in s.workers then s.(t := RenewRow(s.t, s.workers[token].id, token, now)) else s
    case Publish(now, token, outcome, rootStopped) =>
      if Publishes(s, e) then
        var w := s.workers[token];
        s.(t := PublishRow(s.t, w.id, token, w.copy, outcome, rootStopped, now),
           published := s.published + multiset{token})
      else s
    case Fail(now, token, stop) =>
      if !Fails(s, e) then s
      else
        var w := s.workers[token];
        s.(t := FailRow(s.t, w.id, token, w.copy, StopState(w.copy, stop)),
           children := s.children[w.id := FailChild(s.t, w.id, StopState(w.copy, stop), ChildOf(s.children, w.id))])
    case TaskClaim(_, token) =>
      if token !in s.workers then s
      else
        var i := s.workers[token].id;
        s.(children := s.children[i := ClaimChild(ChildOf(s.children, i), token)])
    case TaskCheck(_, token) =>
      if Checks(s, e) then s.(children := s.children[s.workers[token].id := Working(token, true, None)]) else s
    case TaskStart(_, token, call) =>
      if Starts(s, e) then
        var i := s.workers[token].id;
        s.(children := s.children[i := Working(token, true, Some(call))], started := s.started + {(i, call)})
      else s
    case TaskStep(_, token, child) =>
      if token in s.workers && ChildSteps(HeldChild(s, token), child, token, s.workers[token].copy.spec.persona)
      then s.(children := s.children[s.workers[token].id := child])
      else s
    case ExitRead(_, token) =>
      if token in s.workers then s.(exitReads := s.exitReads + {ExitTicket(token, HeldChild(s, token))}) else s
    case ReviewRead(_, coder) =>
      if CanReadForReview(s, coder)
      then s.(reviewReads := s.reviewReads + {ReviewTicket(coder, s.t[coder], s.t[coder].result.value.commit)})
      else s
    case ReviewInsert(_, ticket, id, deadline) =>
      if ticket in s.reviewReads && id !in s.t
      then s.(t := InsertRow(s.t, id, ReviewerRow(s, ticket, deadline)))
      else s
    case ReviewDemote(_, ticket) =>
      if ticket in s.reviewReads then s.(t := DemoteRow(s.t, ticket.coder)) else s
    case Cancel(now, owner, id) =>
      s.(t := CancelTable(s.t, owner, id, now))
    case MergeRead(_, id) =>
      if CanReadForMerge(s, id)
      then s.(mergeReads := s.mergeReads + {MergeTicket(id, s.t[id].reviewedBy.value, s.t[id].result.value)})
      else s
    case MergeConflict(_, read) =>
      if read in s.mergeReads then s.(t := MergeConflictRow(s.t, read.id)) else s
    case MergeStart(now, read, token) =>
      if read in s.mergeReads && token !in s.issued && read.id in s.t && s.t[read.id].state == Reviewed
      then s.(t := MergeStartRow(s.t, read.id, token, now), issued := s.issued + {token},
              merges := s.merges[token := read])
      else s
    case MergeFinish(_, token, record) =>
      if token in s.merges
      then s.(t := MergeFinishRow(s.t, s.merges[token].id, token, s.merges[token].result, record))
      else s
    case MergeAbort(_, token) =>
      if token in s.merges then s.(t := MergeAbortRow(s.t, s.merges[token].id, token)) else s
    case HumanRead(_, id, call) =>
      if id in s.t && s.t[id].state in {NeedsInput, NeedsResolution}
      then s.(humanReads := s.humanReads + {HumanTicket(id, s.t[id].state, call)})
      else s
    case HumanMark(_, human) =>
      if human in s.humanReads && human.state == NeedsResolution
      then s.(children := s.children[human.id := MarkChild(ChildOf(s.children, human.id))])
      else s
    case HumanAct(_, human) =>
      if human in s.humanReads && HumanApplies(human.state, human.call, ChildOf(s.children, human.id))
      then s.(children := s.children[human.id := Waiting], answered := s.answered + multiset{human.id})
      else s
    case HumanRequeue(_, id) =>
      if id in s.answered
      then s.(t := RequeueRow(s.t, id), answered := s.answered - multiset{id},
              requeues := s.requeues[id := RequeueCount(s, id) + 1])
      else s
    case HumanAbandon(now, id) =>
      if CanAbandon(s.t, id, now)
      then s.(t := AbandonRow(s.t, id, now),
              children := s.children[id := Dropped(StartedCall(ChildOf(s.children, id)))])
      else s
  }

  ghost function Run(s: Graph, es: seq<Event>): Graph
    decreases |es|
  {
    if es == [] then s else Run(Next(s, es[0]), es[1..])
  }

  // ---- the guards the code leaves out -----------------------------------------------

  /** States in which a coder counts as accepted. */
  predicate Accepted(state: Status) {
    state in {Reviewed, Merging, Merged}
  }

  /** States a reviewer never works in again. */
  predicate Closed(state: Status) {
    state in {Completed, Rejected, Cancelled, Failed, TimedOut, Conflict}
  }

  /** A coder that will never wait for review again. */
  predicate Dead(n: Node) {
    n.state in {Rejected, Cancelled} && n.lease.None?
  }

  /** The coder still waits with the commit that was read, or will never wait again. */
  predicate StillCurrent(n: Node, commit: Commit) {
    Dead(n) || (n.state == ReviewPending && n.result.Some? && n.result.value.commit == commit)
  }

  /**
   The steps of `ensure_review` are undisturbed: an inserted reviewer looks at the commit the waiting coder
   still carries, and a waiting coder is demoted only when no reviewer of it may still work.
   */
  predicate ReviewGuarded(s: Graph, e: Event) {
    && (e.ReviewInsert? && e.ticket in s.reviewReads && e.id !in s.t && !HasReviewer(s.t, e.ticket.coder) ==>
          e.ticket.coder in s.t && StillCurrent(s.t[e.ticket.coder], e.ticket.commit))
    && (e.ReviewDemote? && e.ticket in s.reviewReads ==> Demotable(s.t, e.ticket.coder))
  }

  predicate Demotable(t: Table, c: Id) {
    c in t && t[c].state == ReviewPending ==>
      forall r :: r in t && t[r].spec.reviewOf == Some(c) ==> Closed(t[r].state)
  }

  /** A human command is about to write its update of the node. */
  predicate Requeues(s: Graph, e: Event) {
    e.HumanRequeue? && e.id in s.answered && e.id in s.t
  }

  /** A human requeue finds the node still waiting for a human: the simple test the update could make. */
  predicate WaitingGuarded(s: Graph, e: Event) {
    Requeues(s, e) ==> s.t[e.id].state in {NeedsInput, NeedsResolution}
  }

  /** An accepted coder, or a merge that has read one, relies on the approval of reviewer `r`. */
  predicate ReliedOn(s: Graph, r: Id) {
    || (exists i :: i in s.t && i != r && Accepted(s.t[i].state) && s.t[i].reviewedBy == Some(r))
    || (exists m :: m in s.mergeReads && m.reviewer == r)
    || (exists k :: k in s.merges && s.merges[k].reviewer == r)
  }

  /** A human requeue does not reopen a reviewer whose approval is relied on. */
  predicate SparesApprovals(s: Graph, e: Event) {
    Requeues(s, e) ==> !ReliedOn(s, e.id)
  }

  /**
   Reopening the node keeps coders and reviewers paired: a coder's reviewer is closed, and a reviewer's coder
   still waits with the commit the reviewer looks at, or never waits again.
   */
  predicate Reopenable(t: Table, id: Id)
    requires id in t
  {
    && (forall r :: r in t && t[r].spec.reviewOf == Some(id) ==> Closed(t[r].state))
    && (t[id].spec.reviewOf.Some? ==>
          var c := t[id].spec.reviewOf.value; c in t && StillCurrent(t[c], t[id].spec.snapshot))
  }

  predicate KeepsPairs(s: Graph, e: Event) {
    Requeues(s, e) ==> Reopenable(s.t, e.id)
  }

  /** A human has read node `i` as uncertain, with a command that names this call. */
  predicate Named(s: Graph, i: Id, call: CallId) {
    HumanTicket(i, NeedsResolution, call) in s.humanReads
  }

  /** No reviewer or planner starts a tool call under an id that a human's resolution of its node has already named. */
  predicate StartsUnnamed(s: Graph, e: Event) {
    e.TaskStart? && Starts(s, e) && !MayAskHumans(s.workers[e.token].copy.spec.persona) ==>
      !Named(s, s.workers[e.token].id, e.call)
  }

  /** Which guards every event of a run satisfies. */
  datatype Guards = Guards(waiting: bool, approvals: bool, pairs: bool, review: bool, unnamed: bool)

  predicate GuardHolds(s: Graph, e: Event, g: Guards) {
    && (g.waiting ==> WaitingGuarded(s, e))
    && (g.approvals ==> SparesApprovals(s, e))
    && (g.pairs ==> KeepsPairs(s, e))
    && (g.review ==> ReviewGuarded(s, e))
    && (g.unnamed ==> StartsUnnamed(s, e))
  }

  /** Every event of the run satisfies the chosen guards at the moment it happens. */
  ghost predicate Guarded(s: Graph, es: seq<Event>, g: Guards)
    decreases |es|
  {
    es != [] ==> GuardHolds(s, es[0], g) && Guarded(Next(s, es[0]), es[1..], g)
  }

  const WAITING := Guards(true, false, false, false, false)
  const APPROVALS := Guards(false, true, false, false, false)
  const UNNAMED := Guards(false, false, false, false, true)
  const EXACT := Guards(false, true, true, true, false)

  /** States reachable from the empty table by any run. */
  ghost predicate Reachable(s: Graph) {
    exists es :: Run(INIT, es) == s
  }
}
