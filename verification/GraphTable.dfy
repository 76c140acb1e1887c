/**
 The `agent_nodes` table of the collaboration graph and the effect of every SQL
 transaction of the coordinator on it. One function is one `BEGIN IMMEDIATE`
 transaction; each reads the clock once (`now`).
 */
module GraphTable {
  import opened Prelude

  type Id = nat      // uuid of a node
  type Token = nat   // uuid of a lease
  type Commit = nat  // Git object name
  type CallId = nat  // id of a tool call, chosen by the model's provider

  datatype Persona = Planner | Coder | Reviewer

  datatype Status =
    | Queued | Running | CancelRequested | ReviewPending | Reviewed | Merging | Merged | Completed
    | Failed | Rejected | Cancelled | TimedOut | NeedsInput | NeedsResolution | Conflict

  datatype Verdict = Verdict(approve: bool, findings: seq<string>)

  /** The record a finished merge adds to the coder's result. */
  datatype MergeRecord = MergeRecord(reviewer: Id, commit: Commit)

  datatype Outcome = Outcome(
    success: bool, verified: bool, commit: Commit, review: Option<Verdict>, merge: Option<MergeRecord>)

  datatype Lease = Lease(token: Token, expires: Time)

  /** The columns that only `INSERT` writes. */
  datatype Spec = Spec(
    rowid: nat, owner: nat, root: nat, parent: Option<Id>, persona: Persona, deps: seq<Id>,
    snapshot: Commit, concurrency: nat, reviewOf: Option<Id>, deadline: Time)

  datatype Node = Node(
    spec: Spec, state: Status, result: Option<Outcome>, reviewedBy: Option<Id>, lease: Option<Lease>, attempts: nat)

  type Table = map<Id, Node>

  const LEASE_SECONDS := 90
  const MAX_ATTEMPTS := 3

  predicate Succeeded(state: Status) {
    state in {Completed, Reviewed, Merged}
  }

  predicate Stopped(state: Status) {
    state in {Failed, Rejected, Cancelled, TimedOut, NeedsInput, NeedsResolution, Conflict}
  }

  /** A result counts as verified only when the worker also reports success. */
  predicate Verified(o: Outcome) {
    o.verified && o.success
  }

  /** Approval is the exact verdict `{'approve': True, 'findings': []}` on a verified result. */
  predicate Approves(o: Outcome) {
    Verified(o) && o.review == Some(Verdict(true, []))
  }

  predicate Live(n: Node, now: Time) {
    n.lease.Some? && n.lease.value.expires > now
  }

  predicate Holds(n: Node, token: Token) {
    n.lease.Some? && n.lease.value.token == token
  }

  // ---- insert -----------------------------------------------------------------------

  predicate HasReviewer(t: Table, coder: Id) {
    exists r :: r in t && t[r].spec.reviewOf == Some(coder)
  }

  function NewRow(spec: Spec): Node {
    Node(spec, Queued, None, None, None, 0)
  }

  /** The unique index on `review_of`: a second reviewer of the same coder is not inserted. */
  function InsertRow(t: Table, id: Id, row: Node): Table {
    if row.spec.reviewOf.Some? && HasReviewer(t, row.spec.reviewOf.value) then t else t[id := row]
  }

  // ---- recover ----------------------------------------------------------------------

  /**
   The durable task of a node. A worker that holds it has perhaps checked that its node is still its own, and has
   perhaps started a tool call; a task that was given up keeps the call it had started. A completed task keeps its
   verification and, for a reviewer, its parsed reply.
   */
  datatype Child =
    | Absent
    | Waiting
    | Working(holder: Token, checked: bool, call: Option<CallId>)
    | Asking
    | Unsure(call: Option<CallId>)
    | Finished(verified: bool, review: Option<Verdict>)
    | Broken
    | Dropped(call: Option<CallId>)

  /** The tool call that the task has started and not recorded the end of. */
  function StartedCall(c: Child): Option<CallId> {
    match c
    case Working(_, _, call) => call
    case Unsure(call) => call
    case Dropped(call) => call
    case _ => None
  }

  predicate EffectStarted(c: Child) {
    StartedCall(c).Some?
  }

  function RecoverNode(n: Node, child: Child, rootStopped: bool, now: Time): Node {
    var live := Live(n, now);
    if n.state == Merging then
      if live then n else n.(state := NeedsResolution)
    else if n.state !in {Queued, Running, CancelRequested} then n
    else if rootStopped || n.spec.deadline <= now || n.state == CancelRequested then
      n.(state := if live then CancelRequested else if n.spec.deadline <= now then TimedOut else Cancelled)
    else if n.state == Running && !live then
      n.(state :=
        if EffectStarted(child) then NeedsResolution
        else if child.Asking? then NeedsInput
        else if child.Broken? then Failed
        else if child.Dropped? then Cancelled
        else if n.attempts >= MAX_ATTEMPTS then Failed
        else Queued)
    else n
  }

  function ChildOf(children: map<Id, Child>, i: Id): Child {
    if i in children then children[i] else Absent
  }

  /** The states of a reviewer that make `recover` reject the waiting coder. */
  predicate ReviewLost(state: Status) {
    state in {Failed, Rejected, Cancelled, TimedOut, NeedsInput, NeedsResolution}
  }

  predicate LostReviewer(t: Table, coder: Id) {
    exists r :: r in t && t[r].spec.reviewOf == Some(coder) && ReviewLost(t[r].state)
  }

  function SweepRows(t: Table, children: map<Id, Child>, stoppedRoots: set<nat>, now: Time): Table {
    map i | i in t :: RecoverNode(t[i], ChildOf(children, i), t[i].spec.root in stoppedRoots, now)
  }

  function RejectUnreviewable(t: Table): Table {
    map i | i in t ::
      if t[i].state == ReviewPending && LostReviewer(t, i) then t[i].(state := Rejected) else t[i]
  }

  function RecoverTable(t: Table, children: map<Id, Child>, stoppedRoots: set<nat>, now: Time): Table {
    RejectUnreviewable(SweepRows(t, children, stoppedRoots, now))
  }

  /** A requeue takes a running task that has started no tool away from its worker. */
  function Fenced(c: Child): Child {
    if c.Working? && c.call.None? then Waiting else c
  }

  /** The tasks of the nodes that a recovery sends back to the queue are fenced. */
  function RecoverChildren(t: Table, children: map<Id, Child>, stoppedRoots: set<nat>, now: Time): map<Id, Child> {
    var t' := SweepRows(t, children, stoppedRoots, now);
    map i | i in children ::
      if i in t && t[i].state == Running && t'[i].state == Queued then Fenced(children[i]) else children[i]
  }

  // ---- claim ------------------------------------------------------------------------

  /** Rows that occupy a worker: running or being cancelled, with an unexpired lease. */
  function Occupied(t: Table, now: Time): set<Id> {
    set i | i in t && t[i].state in {Running, CancelRequested} && Live(t[i], now)
  }

  predicate DepStopped(t: Table, n: Node) {
    exists d :: d in n.spec.deps && d in t && t[d].spec.owner == n.spec.owner && Stopped(t[d].state)
  }

  /** Every dependency exists and has succeeded; a reviewer may also start on its waiting coder. */
  predicate DepsReady(t: Table, n: Node) {
    forall d :: d in n.spec.deps ==>
      d in t && t[d].spec.owner == n.spec.owner &&
      (Succeeded(t[d].state) || (n.spec.reviewOf == Some(d) && t[d].state == ReviewPending))
  }

  function Claimed(n: Node, now: Time, token: Token): Node {
    n.(state := Running, lease := Some(Lease(token, now + LEASE_SECONDS)), attempts := n.attempts + 1)
  }

  datatype Claim = Claim(table: Table, claimed: Option<Id>)

  /** Walks the queued rows in query order; fails rows whose dependencies stopped, claims the first ready one. */
  function ClaimRows(t: Table, rows: seq<Id>, busy: set<Id>, now: Time, token: Token): (c: Claim)
    ensures c.table.Keys == t.Keys
    ensures c.claimed.Some? ==> c.claimed.value in t
  {
    if rows == [] then Claim(t, None)
    else
      var i := rows[0];
      if i !in t || t[i].state != Queued || i in busy || |Occupied(t, now)| >= t[i].spec.concurrency then
        ClaimRows(t, rows[1..], busy, now, token)
      else if DepStopped(t, t[i]) then
        ClaimRows(t[i := t[i].(state := Failed)], rows[1..], busy, now, token)
      else if !DepsReady(t, t[i]) then
        ClaimRows(t, rows[1..], busy, now, token)
      else
        Claim(t[i := Claimed(t[i], now, token)], Some(i))
  }

  // ---- worker calls: renew, publish, fail -------------------------------------------

  predicate CanRenew(t: Table, id: Id, token: Token, now: Time) {
    id in t && t[id].state == Running && Holds(t[id], token) && Live(t[id], now)
  }

  function RenewRow(t: Table, id: Id, token: Token, now: Time): Table {
    if CanRenew(t, id, token, now)
    then t[id := t[id].(lease := Some(Lease(token, now + LEASE_SECONDS)))]
    else t
  }

  function PublishedState(persona: Persona, o: Outcome): Status {
    if persona == Reviewer then (if Approves(o) then Completed else Rejected)
    else if persona == Coder && Verified(o) then ReviewPending
    else if persona == Planner && o.success then Completed
    else NeedsInput
  }

  /** A reviewer's final state decides its waiting coder; any other coder state is left alone. */
  function Judge(t: Table, reviewer: Id, coder: Option<Id>, verdict: Status): Table {
    if coder.Some? && coder.value in t && t[coder.value].state == ReviewPending
    then t[coder.value := t[coder.value].(state := verdict, reviewedBy := Some(reviewer))]
    else t
  }

  /** `copy` is the row the worker received from `claim`; it may be stale. */
  predicate CanPublish(t: Table, id: Id, token: Token, copy: Node, rootStopped: bool, now: Time) {
    !rootStopped && copy.spec.deadline > now && CanRenew(t, id, token, now)
  }

  function PublishRow(t: Table, id: Id, token: Token, copy: Node, o: Outcome, rootStopped: bool, now: Time): Table {
    if CanPublish(t, id, token, copy, rootStopped, now) then
      var state := PublishedState(copy.spec.persona, o);
      var t' := t[id := t[id].(state := state, result := Some(o), lease := None)];
      Judge(t', id, copy.spec.reviewOf, if state == Completed then Reviewed else Rejected)
    else t
  }

  /** How a worker process ended: it raised an error itself, or the supervisor saw an exit code. */
  datatype Stop =
    | RecoveryRequired | Suspended | Interrupted | Raised
    | Exit(code: int, child: Child, shuttingDown: bool)
    | SupervisorError

  /** The state the worker or its supervisor passes to `fail`. */
  function StopState(copy: Node, stop: Stop): Status {
    match stop
    case RecoveryRequired => NeedsResolution
    case Suspended => NeedsInput
    case Interrupted => Cancelled
    case Raised => if copy.spec.persona == Reviewer then Rejected else Failed
    case SupervisorError => Failed
    case Exit(code, child, shuttingDown) =>
      if EffectStarted(child) then NeedsResolution
      else if child.Asking? then NeedsInput
      else if code == 124 then TimedOut
      else if copy.attempts < MAX_ATTEMPTS && (code !in {130, 125} || shuttingDown) then Queued
      else if code == 130 then Cancelled
      else Failed
  }

  predicate CanFail(t: Table, id: Id, token: Token) {
    id in t && Holds(t[id], token) && t[id].state in {Running, CancelRequested}
  }

  function FailRow(t: Table, id: Id, token: Token, copy: Node, state: Status): Table {
    if CanFail(t, id, token) then
      var final := if t[id].state == CancelRequested then Cancelled else state;
      var t' := t[id := t[id].(state := final, lease := None)];
      if Stopped(final) then Judge(t', id, copy.spec.reviewOf, Rejected) else t'
    else t
  }

  /** A worker that stops its node into the queue fences the task, and one with an effect leaves it uncertain. */
  function FailChild(t: Table, id: Id, state: Status, c: Child): Child {
    if id !in t || t[id].state == CancelRequested then c
    else if state == Queued then Fenced(c)
    else if state == NeedsResolution && c.Working? && c.call.Some? then Unsure(c.call)
    else c
  }

  /**
   What a worker may publish about its node: success only on a completed task, verification only as far as
   the task was verified, and for a reviewer exactly the reply of the task. A completed task is never run
   again, so its reply never changes.
   */
  predicate Deliverable(persona: Persona, c: Child, o: Outcome) {
    && o.merge.None?
    && (o.success ==> c.Finished?)
    && (o.verified ==> c.Finished? && c.verified)
    && (if persona == Reviewer then c.Finished? && c.review.Some? && o.review == c.review else o.review.None?)
  }

  // ---- the durable task -------------------------------------------------------------

  /** A worker takes the task over; one whose tool had started only becomes uncertain. */
  function ClaimChild(c: Child, token: Token): Child {
    match c
    case Absent => Working(token, false, None)
    case Waiting => Working(token, false, None)
    case Working(_, _, call) => if call.Some? then Unsure(call) else Working(token, false, None)
    case _ => c
  }

  /** Only coders have the tool that asks a human. */
  predicate MayAskHumans(persona: Persona) {
    persona == Coder
  }

  /**
   What the worker that holds the task may make of it besides starting a tool: a started tool ends, before the next
   one the worker checks again, or its failure leaves the task uncertain; otherwise the task suspends, finishes, is
   given up or put back.
   */
  predicate ChildSteps(c: Child, d: Child, token: Token, persona: Persona) {
    && c.Working? && c.holder == token
    && if c.call.Some? then d == Working(token, false, None) || d == Unsure(c.call)
       else d.Waiting? || d.Finished? || d.Broken? || d == Dropped(None) || (d.Asking? && MayAskHumans(persona))
  }

  /** A resolving human first turns a task whose worker's lease has run out into an uncertain one. */
  function MarkChild(c: Child): Child {
    if c.Working? then Unsure(c.call) else c
  }

  /** A human answers a suspended task, or records what became of the started call that the command names. */
  predicate HumanApplies(read: Status, call: CallId, c: Child) {
    (read == NeedsInput && c.Asking?) || (read == NeedsResolution && c == Unsure(Some(call)))
  }

  /** `ensure_review` could not insert a reviewer: the coder waits for a human instead. */
  function DemoteRow(t: Table, coder: Id): Table {
    if coder in t && t[coder].state == ReviewPending
    then t[coder := t[coder].(state := NeedsInput)]
    else t
  }

  // ---- cancel -----------------------------------------------------------------------

  /** `b` is a child of `a` or reviews `a`. */
  predicate Below(t: Table, owner: nat, a: Id, b: Id) {
    b in t && t[b].spec.owner == owner && (t[b].spec.parent == Some(a) || t[b].spec.reviewOf == Some(a))
  }

  /** `path` leads from `a` to `b` along parent and review edges. */
  ghost predicate IsPath(t: Table, owner: nat, a: Id, path: seq<Id>, b: Id) {
    |path| > 0 && path[0] == a && path[|path| - 1] == b &&
    forall k :: 0 < k < |path| ==> Below(t, owner, path[k - 1], path[k])
  }

  ghost predicate Reaches(t: Table, owner: nat, a: Id, b: Id) {
    exists path :: IsPath(t, owner, a, path, b)
  }

  function CancelNode(n: Node, now: Time): Node {
    if n.state == Merged then n
    else n.(state := if Live(n, now) then CancelRequested else Cancelled)
  }

  ghost function CancelTable(t: Table, owner: nat, id: Id, now: Time): Table {
    if id in t && t[id].spec.owner == owner
    then map i | i in t :: if Reaches(t, owner, id, i) then CancelNode(t[i], now) else t[i]
    else t
  }

  // ---- merge and human recovery -----------------------------------------------------

  function MergeStartRow(t: Table, id: Id, token: Token, now: Time): Table {
    if id in t && t[id].state == Reviewed
    then t[id := t[id].(state := Merging, lease := Some(Lease(token, now + LEASE_SECONDS)))]
    else t
  }

  function MergeConflictRow(t: Table, id: Id): Table {
    if id in t && t[id].state == Reviewed then t[id := t[id].(state := Conflict)] else t
  }

  /** Writes back the result read before the merge started, with the merge record added. */
  function MergeFinishRow(t: Table, id: Id, token: Token, read: Outcome, record: MergeRecord): Table {
    if id in t && t[id].state == Merging && Holds(t[id], token)
    then t[id := t[id].(state := Merged, result := Some(read.(merge := Some(record))), lease := None)]
    else t
  }

  /** The failure path of a merge keeps the lease and checks only its token. */
  function MergeAbortRow(t: Table, id: Id, token: Token): Table {
    if id in t && Holds(t[id], token) then t[id := t[id].(state := NeedsResolution)] else t
  }

  /** The final update of `/agents answer` and `/agents resolve` has no state guard. */
  function RequeueRow(t: Table, id: Id): Table {
    if id in t then t[id := t[id].(state := Queued, lease := None)] else t
  }

  predicate CanAbandon(t: Table, id: Id, now: Time) {
    id in t && t[id].state == NeedsResolution && !Live(t[id], now)
  }

  function AbandonRow(t: Table, id: Id, now: Time): Table {
    if CanAbandon(t, id, now)
    then t[id := t[id].(state := Conflict, lease := None)]
    else t
  }
}
