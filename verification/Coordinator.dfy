/**
 The coordinator's store as an object: one method per transaction, written as the
 source writes it and proved to leave the table the specification describes.
 */
module CoordinatorStore {
  import opened Prelude
  import opened GraphTable
  import opened GraphMachine
  import opened GraphEdges
  import Ledger
  import TaskBudgets

  const CAPACITY := 10000

  /** What an insertion finds outside of the graph: its budget's clock readings, its size and its time limit. */
  datatype Request = Request(depth: nat, seconds: Time, roomy: bool, checked: Time, now: Time)

  /** `Exhausted` and `Invalid` stand for the errors of the budget and of every other check. */
  datatype Insertion = Inserted(id: Id) | Existing(id: Id) | Exhausted | Invalid

  function Earlier(a: Time, b: Time): Time {
    if a <= b then a else b
  }

  /** The checks that come before an insertion looks for an existing reviewer. */
  predicate BudgetOpen(b: Ledger.Budget, q: Request) {
    0 < q.seconds <= 600 && b.deadline > q.checked && !Ledger.OverLimit(b)
  }

  /** Every check an insertion passes, apart from a reviewer that is already there. */
  predicate Insertable(t: Table, b: Ledger.Budget, q: Request)
    requires q.depth > 0
  {
    && BudgetOpen(b, q)
    && |t| < CAPACITY && q.roomy
    && Ledger.CanReserveChild(b, q.depth - 1, q.now)
  }

  predicate Reviewing(t: Table, row: Node) {
    row.spec.reviewOf.Some? && HasReviewer(t, row.spec.reviewOf.value)
  }

  function DeadlineFor(b: Ledger.Budget, q: Request): Time {
    Earlier(b.deadline, q.now + q.seconds)
  }

  /** The table after `ensure_review`: `seen` when it reads, `found` when it inserts, `late` when it gives up. */
  function EnsuredRows(seen: Table, found: Table, late: Table, b: Ledger.Budget, coder: Id, newId: Id,
                       q: Request): Table
    requires q.depth > 0
  {
    if !CanReadForReview(INIT.(t := seen), coder) then seen
    else if Insertable(found, b, q) || (HasReviewer(found, coder) && BudgetOpen(b, q)) then
      var ticket := ReviewTicket(coder, seen[coder], seen[coder].result.value.commit);
      InsertRow(found, newId, ReviewerRow(INIT.(t := found), ticket, DeadlineFor(b, q)))
    else DemoteRow(late, coder)
  }

  /**
   A coder that waits for review and has none gets one reviewer, which starts at the commit that was read, depends on
   the coder, and inherits its graph, within the time that the budget and the request leave; without room in the budget
   or the store the coder asks a human instead. Nobody else is touched.
   */
  lemma EnsuredExact(seen: Table, found: Table, late: Table, b: Ledger.Budget, coder: Id, newId: Id, q: Request)
    requires q.depth > 0 && newId !in found && coder in seen
    ensures var t' := EnsuredRows(seen, found, late, b, coder, newId, q);
      var waits := seen[coder].state == ReviewPending && seen[coder].result.Some? && !HasReviewer(seen, coder);
      var open := 0 < q.seconds <= 600 && b.deadline > q.checked && b.tokens <= b.limits.tokens &&
        (b.limits.cost == 0.0 || b.cost <= b.limits.cost);
      var room := |found| < 10000 && q.roomy && b.deadline > q.now && b.children < b.limits.children &&
        q.depth - 1 < b.limits.depth;
      if !waits then t' == seen
      else if open && HasReviewer(found, coder) then t' == found
      else if open && room then
        && newId in t' && t' == found[newId := t'[newId]]
        && t'[newId].state == Queued && t'[newId].attempts == 0 && t'[newId].result.None? && t'[newId].lease.None?
        && t'[newId].spec.persona == Reviewer && t'[newId].spec.reviewOf == Some(coder)
        && t'[newId].spec.deps == [coder] && t'[newId].spec.snapshot == seen[coder].result.value.commit
        && t'[newId].spec.owner == seen[coder].spec.owner && t'[newId].spec.root == seen[coder].spec.root
        && t'[newId].spec.parent == seen[coder].spec.parent
        && t'[newId].spec.deadline == (if b.deadline <= q.now + q.seconds then b.deadline else q.now + q.seconds)
      else if coder in late && late[coder].state == ReviewPending
      then t' == late[coder := late[coder].(state := NeedsInput)]
      else t' == late
  {
  }

  /** One row of a recovery, and the task of one row. */
  function SweptRow(t: Table, children: map<Id, Child>, stoppedRoots: set<nat>, now: Time, i: Id): Node
    requires i in t
  {
    RecoverNode(t[i], ChildOf(children, i), t[i].spec.root in stoppedRoots, now)
  }

  function SweptChild(t: Table, children: map<Id, Child>, stoppedRoots: set<nat>, now: Time, i: Id): Child
    requires i in t && i in children
  {
    if t[i].state == Running && SweptRow(t, children, stoppedRoots, now, i).state == Queued
    then Fenced(children[i]) else children[i]
  }

  lemma SweptRows(t: Table, children: map<Id, Child>, stoppedRoots: set<nat>, now: Time, t': Table,
                  children': map<Id, Child>)
    requires t'.Keys == t.Keys && children'.Keys == children.Keys
    requires forall i :: i in t ==> t'[i] == SweptRow(t, children, stoppedRoots, now, i)
    requires forall i :: i in children ==>
      children'[i] == if i in t then SweptChild(t, children, stoppedRoots, now, i) else children[i]
    ensures t' == SweepRows(t, children, stoppedRoots, now)
    ensures children' == RecoverChildren(t, children, stoppedRoots, now)
  {
  }

  class Coordinator {
    var nodes: Table
    var children: map<Id, Child>

    constructor ()
      ensures nodes == map[] && children == map[]
    {
      nodes, children := map[], map[];
    }

    /** Inserts a row and counts it as a child; a second reviewer of a coder yields the id of the first instead. */
    method Insert(id: Id, row: Node, budget: TaskBudgets.TaskBudget, q: Request) returns (r: Insertion)
      requires id !in nodes && q.depth > 0
      modifies this, budget
      ensures children == old(children)
      ensures r.Exhausted? || r.Invalid? <==>
        !BudgetOpen(old(budget.Row()), q) ||
          (!Reviewing(old(nodes), row) && !Insertable(old(nodes), old(budget.Row()), q))
      ensures r.Existing? ==> r.id in nodes && nodes[r.id].spec.reviewOf == row.spec.reviewOf && row.spec.reviewOf.Some?
      ensures r.Inserted? ==> r.id == id && !Reviewing(old(nodes), row)
      ensures nodes ==
        if r.Inserted? then old(nodes)[id := row.(spec := row.spec.(deadline := DeadlineFor(old(budget.Row()), q)))]
        else old(nodes)
      ensures budget.Row() == Ledger.AddChild(old(budget.Row()), r.Inserted?)
    {
      if !(0 < q.seconds <= 600) { return Invalid; }
      var open := budget.Check(q.checked);
      if !open { return Exhausted; }
      if row.spec.reviewOf.Some? && exists r :: r in nodes && nodes[r].spec.reviewOf == row.spec.reviewOf {
        var key :| key in nodes && nodes[key].spec.reviewOf == row.spec.reviewOf;
        return Existing(key);
      }
      if |nodes| >= CAPACITY || !q.roomy { return Invalid; }
      var admitted := budget.AdmitNode(q.depth, q.now);
      if !admitted { return Exhausted; }
      nodes := nodes[id := row.(spec := row.spec.(deadline := Earlier(budget.deadline, q.now + q.seconds)))];
      return Inserted(id);
    }

    /** Reconciles the table with dead workers, stopped roots and lost reviewers. */
    method Recover(stoppedRoots: set<nat>, now: Time)
      modifies this
      ensures nodes == RecoverTable(old(nodes), old(children), stoppedRoots, now)
      ensures children == RecoverChildren(old(nodes), old(children), stoppedRoots, now)
    {
      Sweep(stoppedRoots, now);
      nodes := map i | i in nodes ::
        if nodes[i].state == ReviewPending && LostReviewer(nodes, i) then nodes[i].(state := Rejected) else nodes[i];
    }

    /** The first half of a recovery: each row by itself. */
    method Sweep(stoppedRoots: set<nat>, now: Time)
      modifies this
      ensures nodes == SweepRows(old(nodes), old(children), stoppedRoots, now)
      ensures children == RecoverChildren(old(nodes), old(children), stoppedRoots, now)
    {
      ghost var start, tasks := nodes, children;
      var rows := nodes.Keys;
      while rows != {}
        invariant rows <= start.Keys == nodes.Keys && children.Keys == tasks.Keys
        invariant forall i :: i in start ==>
          nodes[i] == if i in rows then start[i] else SweptRow(start, tasks, stoppedRoots, now, i)
        invariant forall i :: i in tasks ==>
          children[i] == if i in start && i !in rows then SweptChild(start, tasks, stoppedRoots, now, i) else tasks[i]
        decreases rows
      {
        var i :| i in rows;
        var node := RecoverNode(nodes[i], ChildOf(children, i), nodes[i].spec.root in stoppedRoots, now);
        if i in children && nodes[i].state == Running && node.state == Queued {
          children := children[i := Fenced(children[i])];
        }
        nodes, rows := nodes[i := node], rows - {i};
      }
      SweptRows(start, tasks, stoppedRoots, now, nodes, children);
    }

    /** Claims the first ready queued row for a new worker, failing rows whose dependencies stopped on the way. */
    method Claim(rows: seq<Id>, busy: set<Id>, now: Time, token: Token) returns (w: Option<Worker>)
      modifies this`nodes
      ensures var c := ClaimRows(old(nodes), rows, busy, now, token);
        && nodes == c.table
        && w == if c.claimed.Some? then Some(Worker(c.claimed.value, c.table[c.claimed.value])) else None
    {
      var k := 0;
      while k < |rows|
        invariant 0 <= k <= |rows|
        invariant ClaimRows(old(nodes), rows, busy, now, token) == ClaimRows(nodes, rows[k..], busy, now, token)
      {
        var i := rows[k];
        assert rows[k..][1..] == rows[k + 1..];
        k := k + 1;
        if i !in nodes || nodes[i].state != Queued || i in busy { continue; }
        if |Occupied(nodes, now)| >= nodes[i].spec.concurrency { continue; }
        if DepStopped(nodes, nodes[i]) {
          nodes := nodes[i := nodes[i].(state := Failed)];
          continue;
        }
        if !DepsReady(nodes, nodes[i]) { continue; }
        nodes := nodes[i := Claimed(nodes[i], now, token)];
        return Some(Worker(i, nodes[i]));
      }
      return None;
    }

    method Renew(id: Id, token: Token, now: Time) returns (renewed: bool)
      modifies this`nodes
      ensures renewed == CanRenew(old(nodes), id, token, now)
      ensures nodes == RenewRow(old(nodes), id, token, now)
    {
      renewed := CanRenew(nodes, id, token, now);
      if renewed {
        nodes := nodes[id := nodes[id].(lease := Some(Lease(token, now + LEASE_SECONDS)))];
      }
    }

    /**
     Publishes a result under a live lease and lets a reviewer's verdict decide its coder; `false` is the error
     path.
     */
    method Publish(id: Id, token: Token, copy: Node, o: Outcome, rootStopped: bool, now: Time) returns (accepted: bool)
      modifies this`nodes
      ensures accepted == CanPublish(old(nodes), id, token, copy, rootStopped, now)
      ensures nodes == PublishRow(old(nodes), id, token, copy, o, rootStopped, now)
    {
      if rootStopped || copy.spec.deadline <= now { return false; }
      if !CanRenew(nodes, id, token, now) { return false; }
      var state := PublishedState(copy.spec.persona, o);
      nodes := nodes[id := nodes[id].(state := state, result := Some(o), lease := None)];
      if copy.spec.reviewOf.Some? {
        var c := copy.spec.reviewOf.value;
        if c in nodes && nodes[c].state == ReviewPending {
          var verdict := if state == Completed then Reviewed else Rejected;
          nodes := nodes[c := nodes[c].(state := verdict, reviewedBy := Some(id))];
        }
      }
      return true;
    }

    /** Ends a worker: frees its row, and rejects the coder whose reviewer stopped. */
    method Fail(id: Id, token: Token, copy: Node, stop: Stop)
      modifies this
      ensures nodes == FailRow(old(nodes), id, token, copy, StopState(copy, stop))
      ensures children ==
        if CanFail(old(nodes), id, token)
        then old(children)[id := FailChild(old(nodes), id, StopState(copy, stop), ChildOf(old(children), id))]
        else old(children)
    {
      if id !in nodes || !Holds(nodes[id], token) || nodes[id].state !in {Running, CancelRequested} { return; }
      var state := StopState(copy, stop);
      if nodes[id].state == CancelRequested { state := Cancelled; }
      var child := ChildOf(children, id);
      if state == Queued {
        child := Fenced(child);
      } else if state == NeedsResolution && child.Working? && child.call.Some? {
        child := Unsure(child.call);
      }
      children := children[id := child];
      nodes := nodes[id := nodes[id].(state := state, lease := None)];
      if copy.spec.reviewOf.Some? && Stopped(state) {
        var c := copy.spec.reviewOf.value;
        if c in nodes && nodes[c].state == ReviewPending {
          nodes := nodes[c := nodes[c].(state := Rejected, reviewedBy := Some(id))];
        }
      }
    }

    /**
     Gives a waiting coder its reviewer, or sends it to a human when the insertion is refused. `others` and
     `more` are what other processes do to the table before the insertion and before the demotion.
     */
    method EnsureReview(coder: Id, newId: Id, budget: TaskBudgets.TaskBudget, q: Request,
                        others: Table -> Table, more: Table -> Table)
      requires newId !in others(nodes) && q.depth > 0
      modifies this, budget
      ensures var seen := old(nodes); var found := others(seen);
        nodes == EnsuredRows(seen, found, more(found), old(budget.Row()), coder, newId, q)
      ensures children == old(children)
    {
      if coder !in nodes || nodes[coder].state != ReviewPending || nodes[coder].result.None? { return; }
      if exists r :: r in nodes && nodes[r].spec.reviewOf == Some(coder) { return; }
      var ticket := ReviewTicket(coder, nodes[coder], nodes[coder].result.value.commit);
      nodes := others(nodes);
      var r := Insert(newId, ReviewerRow(INIT.(t := nodes), ticket, 0), budget, q);
      if r.Exhausted? || r.Invalid? {
        nodes := more(nodes);
        if coder in nodes && nodes[coder].state == ReviewPending {
          nodes := nodes[coder := nodes[coder].(state := NeedsInput)];
        }
      }
    }

    /** Cancels a node with everything below it; `false` when the owner has no such node. */
    method Cancel(owner: nat, id: Id, now: Time) returns (found: bool)
      modifies this`nodes
      ensures found == (id in old(nodes) && old(nodes)[id].spec.owner == owner)
      ensures nodes == CancelTable(old(nodes), owner, id, now)
    {
      if id !in nodes || nodes[id].spec.owner != owner { return false; }
      ghost var start := nodes;
      var selected := {id};
      ReachesSelf(nodes, owner, id);
      while true
        invariant id in selected && selected <= nodes.Keys && nodes == start
        invariant forall i :: i in selected ==> Reaches(nodes, owner, id, i)
        decreases nodes.Keys - selected
      {
        var extra := set i | i in nodes && exists a :: a in selected && Below(nodes, owner, a, i);
        if extra <= selected { break; }
        forall i | i in extra
          ensures Reaches(nodes, owner, id, i)
        {
          var a :| a in selected && Below(nodes, owner, a, i);
          ReachesStep(nodes, owner, id, a, i);
        }
        selected := selected + extra;
      }
      forall i | i in nodes && Reaches(nodes, owner, id, i)
        ensures i in selected
      {
        var path :| IsPath(nodes, owner, id, path, i);
        ClosedContains(nodes, owner, id, path, i, selected);
      }
      var rest := selected;
      while rest != {}
        invariant rest <= selected && nodes.Keys == start.Keys
        invariant forall i :: i in start ==>
          nodes[i] == if i in selected && i !in rest then CancelNode(start[i], now) else start[i]
        decreases rest
      {
        var i :| i in rest;
        rest := rest - {i};
        if nodes[i].state == Merged { continue; }
        nodes := nodes[i := nodes[i].(state := if Live(nodes[i], now) then CancelRequested else Cancelled)];
      }
      return true;
    }

    /** Takes a reviewed row for merging; `false` when another merge owns it or it is no longer reviewed. */
    method StartMerge(id: Id, token: Token, now: Time) returns (started: bool)
      modifies this`nodes
      ensures started == (id in old(nodes) && old(nodes)[id].state == Reviewed)
      ensures nodes == MergeStartRow(old(nodes), id, token, now)
    {
      started := id in nodes && nodes[id].state == Reviewed;
      if started {
        nodes := nodes[id := nodes[id].(state := Merging, lease := Some(Lease(token, now + LEASE_SECONDS)))];
      }
    }

    /** The parent's file differs from the base: the reviewed row waits for a human. */
    method MarkConflict(id: Id)
      modifies this`nodes
      ensures nodes == MergeConflictRow(old(nodes), id)
    {
      if id in nodes && nodes[id].state == Reviewed {
        nodes := nodes[id := nodes[id].(state := Conflict)];
      }
    }

    /** Records a merge under its lease; `false` ("merge lease lost") sends the caller to its rollback. */
    method FinishMerge(id: Id, token: Token, read: Outcome, record: MergeRecord) returns (merged: bool)
      modifies this`nodes
      ensures merged == (id in old(nodes) && old(nodes)[id].state == Merging && Holds(old(nodes)[id], token))
      ensures nodes == MergeFinishRow(old(nodes), id, token, read, record)
    {
      merged := id in nodes && nodes[id].state == Merging && Holds(nodes[id], token);
      if merged {
        nodes := nodes[id := nodes[id].(state := Merged, result := Some(read.(merge := Some(record))), lease := None)];
      }
    }

    method AbortMerge(id: Id, token: Token)
      modifies this`nodes
      ensures nodes == MergeAbortRow(old(nodes), id, token)
    {
      if id in nodes && Holds(nodes[id], token) {
        nodes := nodes[id := nodes[id].(state := NeedsResolution)];
      }
    }

    /** A human gave up on an uncertain node whose leases have run out. */
    method Abandon(id: Id, now: Time) returns (abandoned: bool)
      modifies this
      ensures abandoned == CanAbandon(old(nodes), id, now)
      ensures nodes == AbandonRow(old(nodes), id, now)
      ensures children ==
        if abandoned then old(children)[id := Dropped(StartedCall(ChildOf(old(children), id)))] else old(children)
    {
      abandoned := id in nodes && nodes[id].state == NeedsResolution && !Live(nodes[id], now);
      if abandoned {
        nodes := nodes[id := nodes[id].(state := Conflict, lease := None)];
        children := children[id := Dropped(StartedCall(ChildOf(children, id)))];
      }
    }

    /** The last step of a human answer: back to the queue, whatever state the row is in by now. */
    method Requeue(id: Id)
      modifies this`nodes
      ensures nodes == RequeueRow(old(nodes), id)
    {
      if id in nodes {
        nodes := nodes[id := nodes[id].(state := Queued, lease := None)];
      }
    }
  }
}
