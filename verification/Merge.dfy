/**
 Merging a reviewed result into the parent's workspace: the row is taken under a lease, the files are written one
 by one, and the row is marked merged, or the files are put back and the row waits for a human.
 */
module Merges {
  import opened Prelude
  import opened GraphTable
  import opened CoordinatorStore
  import GraphLaws
  import Patches
  import PatchResults

  datatype Ending = AlreadyMerged | Refused | ConflictFound | NotStarted | Done | RolledBack | LeftMerging

  /** The admission checks of a merge that look at the graph. */
  predicate Mergeable(t: Table, id: Id) {
    && id in t && t[id].state == Reviewed && t[id].result.Some? && t[id].reviewedBy.Some?
    && t[id].reviewedBy.value in t
    && var r := t[t[id].reviewedBy.value]; r.state == Completed && r.result.Some? && Approves(r.result.value)
  }

  /** Undoes the first `n` changes; unlike a patch, the first write that fails ends the rollback. */
  function Unwind(d: Patches.Disk, changes: seq<Patches.Change>, bs: seq<Patches.Turn>, n: nat): (Patches.Disk, bool)
    requires n <= |changes|
    decreases n
  {
    if n == 0 then (d, true)
    else
      var c, turn := changes[n - 1], Patches.TurnAt(bs, n - 1);
      var d1 := Patches.Outside(d, turn.edits);
      if Patches.Read(d1, c.path) != c.after then Unwind(d1, changes, bs, n - 1)
      else if turn.fails then (d1, false)
      else Unwind(Patches.Put(d1, c.path, c.before), changes, bs, n - 1)
  }

  lemma PutSame(d: Patches.Disk, p: Patches.Path)
    ensures Patches.Put(d, p, Patches.Read(d, p)) == d
  {
  }

  /** A rollback whose writes succeed is the rollback of a patch. */
  lemma {:induction false} UnwindIsBackward(d: Patches.Disk, changes: seq<Patches.Change>, bs: seq<Patches.Turn>,
                                            n: nat)
    requires n <= |changes| && PatchResults.NoFailures(bs)
    ensures Unwind(d, changes, bs, n) == (Patches.Backward(d, changes, bs, n), true)
    decreases n
  {
    if n > 0 {
      var c, turn := changes[n - 1], Patches.TurnAt(bs, n - 1);
      var d1 := Patches.Outside(d, turn.edits);
      PutSame(d1, c.path);
      UnwindIsBackward(Patches.Put(d1, c.path, Patches.Undo(Patches.Read(d1, c.path), c, false)), changes, bs, n - 1);
    }
  }

  /** What other processes do to the table before the merge starts, before it finishes and before it gives up. */
  datatype Others = Others(start: Table -> Table, finish: Table -> Table, abort: Table -> Table)

  /** How a merge ended, and the table and files it left behind. */
  datatype Merge = Merge(end: Ending, rows: Table, files: Patches.Disk)

  /** The merge of row `id`, read as `read`, once no file conflicts. */
  function Merging(t: Table, d: Patches.Disk, id: Id, read: Outcome, changes: seq<Patches.Change>, token: Token,
                   now: Time, record: MergeRecord, ts: seq<Patches.Turn>, bs: seq<Patches.Turn>, others: Others): Merge
  {
    var t1 := others.start(t);
    if id !in t1 || t1[id].state != Reviewed then Merge(NotStarted, t1, d)
    else
      var taken := MergeStartRow(t1, id, token, now);
      var f := Patches.Forward(d, changes, ts, 0);
      var t2 := if Patches.Succeeds(d, changes, ts) then others.finish(taken) else taken;
      if Patches.Succeeds(d, changes, ts) && id in t2 && t2[id].state == Status.Merging && Holds(t2[id], token)
      then Merge(Done, MergeFinishRow(t2, id, token, read, record), f.0)
      else
        var u := Unwind(f.0, changes, bs, f.1);
        if u.1 then Merge(RolledBack, MergeAbortRow(others.abort(t2), id, token), u.0) else Merge(LeftMerging, t2, u.0)
  }

  function MergeEffect(t: Table, d: Patches.Disk, id: Id, allowed: bool, changes: seq<Patches.Change>, token: Token,
                       now: Time, record: MergeRecord, ts: seq<Patches.Turn>, bs: seq<Patches.Turn>,
                       others: Others): Merge
  {
    if id in t && t[id].state == Merged then Merge(AlreadyMerged, t, d)
    else if !allowed || !Mergeable(t, id) then Merge(Refused, t, d)
    else if !Patches.Matches(d, changes) then Merge(ConflictFound, MergeConflictRow(others.start(t), id), d)
    else Merging(t, d, id, t[id].result.value, changes, token, now, record, ts, bs, others)
  }

  /** One merge among other processes; `allowed` stands for role, parent and workspace checks. */
  method MergeNode(store: Coordinator, w: Patches.Workspace, id: Id, allowed: bool, changes: seq<Patches.Change>,
                   token: Token, now: Time, record: MergeRecord, ts: seq<Patches.Turn>, bs: seq<Patches.Turn>,
                   others: Others)
    returns (end: Ending)
    modifies store, w
    ensures Merge(end, store.nodes, w.disk)
         == MergeEffect(old(store.nodes), old(w.disk), id, allowed, changes, token, now, record, ts, bs, others)
  {
    if id in store.nodes && store.nodes[id].state == Status.Merged { return AlreadyMerged; }
    if !allowed || !Mergeable(store.nodes, id) { return Refused; }
    var result := store.nodes[id].result.value;
    var i := 0;
    while i < |changes|
      invariant 0 <= i <= |changes|
      invariant forall j :: 0 <= j < i ==> Patches.Read(w.disk, changes[j].path) == changes[j].before
    {
      if Patches.Read(w.disk, changes[i].path) != changes[i].before {
        store.nodes := others.start(store.nodes);
        store.MarkConflict(id);
        return ConflictFound;
      }
      i := i + 1;
    }
    store.nodes := others.start(store.nodes);
    var started := store.StartMerge(id, token, now);
    if !started { return NotStarted; }
    var applied := w.WriteChanges(changes, ts);
    if applied == |changes| && !Patches.TurnAt(ts, applied).fails {
      store.nodes := others.finish(store.nodes);
      var merged := store.FinishMerge(id, token, result, record);
      if merged { return Done; }
    }
    var complete := UnwindFiles(w, changes, bs, applied);
    if !complete { return LeftMerging; }
    store.nodes := others.abort(store.nodes);
    store.AbortMerge(id, token);
    return RolledBack;
  }

  method UnwindFiles(w: Patches.Workspace, changes: seq<Patches.Change>, bs: seq<Patches.Turn>, applied: nat)
    returns (complete: bool)
    requires applied <= |changes|
    modifies w`disk
    ensures (w.disk, complete) == Unwind(old(w.disk), changes, bs, applied)
  {
    var n := applied;
    while n > 0
      invariant 0 <= n <= applied
      invariant Unwind(w.disk, changes, bs, n) == Unwind(old(w.disk), changes, bs, applied)
    {
      n := n - 1;
      w.disk := Patches.Outside(w.disk, Patches.TurnAt(bs, n).edits);
      var c := changes[n];
      if Patches.Read(w.disk, c.path) != c.after { continue; }
      if Patches.TurnAt(bs, n).fails { return false; }
      w.disk := Patches.Put(w.disk, c.path, c.before);
    }
    return true;
  }

  /** The other processes leave the merged row alone. */
  ghost predicate LeavesAlone(others: Table -> Table, id: Id) {
    forall t: Table {:trigger others(t)} :: id in t ==> id in others(t) && others(t)[id] == t[id]
  }

  /** The files of a merge nobody disturbs. */
  lemma FilesMerged(t: Table, d: Patches.Disk, id: Id, read: Outcome, changes: seq<Patches.Change>, token: Token,
                    now: Time, record: MergeRecord, ts: seq<Patches.Turn>, bs: seq<Patches.Turn>, others: Others)
    requires Patches.Distinct(changes) && Patches.Matches(d, changes)
    requires PatchResults.Undisturbed(ts) && PatchResults.Undisturbed(bs) && PatchResults.NoFailures(bs)
    ensures var m := Merging(t, d, id, read, changes, token, now, record, ts, bs, others);
      && m.end in {NotStarted, Done, RolledBack}
      && (m.end != Done ==> m.files == d)
      && (m.end == Done ==>
            forall i :: 0 <= i < |changes| ==> Patches.Read(m.files, changes[i].path) == changes[i].after)
  {
    var f := Patches.Forward(d, changes, ts, 0);
    UnwindIsBackward(f.0, changes, bs, f.1);
    PatchResults.BackwardRestores(d, changes, ts, bs);
    if Patches.Succeeds(d, changes, ts) {
      PatchResults.SuccessExact(d, changes, ts, bs, "");
    }
  }

  /** An undisturbed rollback gives up exactly when one of its writes fails. */
  lemma {:induction false} UnwindExact(d: Patches.Disk, changes: seq<Patches.Change>, bs: seq<Patches.Turn>, n: nat)
    requires n <= |changes| && Patches.Distinct(changes) && PatchResults.Undisturbed(bs)
    requires forall k :: 0 <= k < n ==> Patches.Read(d, changes[k].path) == changes[k].after
    ensures Unwind(d, changes, bs, n).1 <==> forall k :: 0 <= k < n ==> !Patches.TurnAt(bs, k).fails
    decreases n
  {
    if n > 0 {
      var c, turn := changes[n - 1], Patches.TurnAt(bs, n - 1);
      var d1 := Patches.Outside(d, turn.edits);
      PatchResults.ReadOutside(d, turn.edits, c.path);
      if !turn.fails {
        var d2 := Patches.Put(d1, c.path, c.before);
        forall k | 0 <= k < n - 1
          ensures Patches.Read(d2, changes[k].path) == changes[k].after
        {
          PatchResults.ReadOutside(d, turn.edits, changes[k].path);
          PatchResults.ReadPut(d1, c.path, c.before, changes[k].path);
        }
        UnwindExact(d2, changes, bs, n - 1);
      }
    }
  }

  /**
   With files that nobody disturbs, a merge that started and did not finish leaves its row `merging` if and only if
   the write that restores one of the changed files fails; else it asks for a human.
   */
  lemma LeftMergingExact(t: Table, d: Patches.Disk, id: Id, read: Outcome, changes: seq<Patches.Change>, token: Token,
                         now: Time, record: MergeRecord, ts: seq<Patches.Turn>, bs: seq<Patches.Turn>, others: Others)
    requires Patches.Distinct(changes) && PatchResults.Undisturbed(ts) && PatchResults.Undisturbed(bs)
    requires Merging(t, d, id, read, changes, token, now, record, ts, bs, others).end !in {NotStarted, Done}
    ensures var end := Merging(t, d, id, read, changes, token, now, record, ts, bs, others).end;
      end == LeftMerging <==>
      exists k :: 0 <= k < Patches.Forward(d, changes, ts, 0).1 && Patches.TurnAt(bs, k).fails
  {
    var f := Patches.Forward(d, changes, ts, 0);
    forall k | 0 <= k < f.1
      ensures Patches.Read(f.0, changes[k].path) == changes[k].after
    {
      PatchResults.QuietSuccess(d, changes, ts, changes[k].path);
      PatchResults.LastProposal(d, changes, k, f.1);
    }
    UnwindExact(f.0, changes, bs, f.1);
  }

  /** The result of `id` is approved: its reviewer completed with a verified success and found nothing. */
  predicate Approved(t: Table, id: Id) {
    && id in t && t[id].state == Reviewed && t[id].reviewedBy.Some? && t[id].reviewedBy.value in t
    && var r := t[t[id].reviewedBy.value]; r.state == Completed && r.result.Some? && GraphLaws.Approval(r.result.value)
  }

  /**
   What a merge needs. It writes nothing unless it is allowed and the result is approved and unmerged; a file that is
   not as it was reviewed turns the row into a conflict, if it is still reviewed, and leaves every file alone.
   */
  lemma MergeNeeds(t: Table, d: Patches.Disk, id: Id, allowed: bool, changes: seq<Patches.Change>, token: Token,
                   now: Time, record: MergeRecord, ts: seq<Patches.Turn>, bs: seq<Patches.Turn>, others: Others)
    ensures var m := MergeEffect(t, d, id, allowed, changes, token, now, record, ts, bs, others);
      var matching := forall i :: 0 <= i < |changes| ==> Patches.Read(d, changes[i].path) == changes[i].before;
      var open := allowed && Approved(t, id) && t[id].result.Some?;
      && (m.end == AlreadyMerged <==> id in t && t[id].state == Merged)
      && (m.end == Refused <==> !open && m.end != AlreadyMerged)
      && (m.end == ConflictFound <==> open && !matching)
      && (m.end in {AlreadyMerged, Refused} ==> m.rows == t && m.files == d)
      && (m.end == ConflictFound ==>
            var s := others.start(t);
            m.files == d &&
            m.rows == if id in s && s[id].state == Reviewed then s[id := s[id].(state := Conflict)] else s)
      && (m.end == NotStarted ==> m.rows == others.start(t) && m.files == d)
  {
  }

  /** The row of a merge that finished. */
  lemma RowMerged(t: Table, d: Patches.Disk, id: Id, read: Outcome, changes: seq<Patches.Change>, token: Token,
                  now: Time, record: MergeRecord, ts: seq<Patches.Turn>, bs: seq<Patches.Turn>, others: Others)
    ensures var m := Merging(t, d, id, read, changes, token, now, record, ts, bs, others);
      m.end == Done ==>
        id in m.rows && m.rows[id].state == Merged && m.rows[id].result == Some(read.(merge := Some(record)))
  {
  }

  /** The row of a merge that gave up. */
  lemma RowAborted(t: Table, d: Patches.Disk, id: Id, read: Outcome, changes: seq<Patches.Change>, token: Token,
                  now: Time, record: MergeRecord, ts: seq<Patches.Turn>, bs: seq<Patches.Turn>, others: Others)
    requires LeavesAlone(others.finish, id) && LeavesAlone(others.abort, id)
    ensures var m := Merging(t, d, id, read, changes, token, now, record, ts, bs, others);
      m.end == RolledBack ==> id in m.rows && m.rows[id].state == NeedsResolution
  {
    var t1 := others.start(t);
    if id in t1 && t1[id].state == Reviewed {
      AbortedRow(MergeStartRow(t1, id, token, now), id, token, others);
    }
  }

  lemma AbortedRow(taken: Table, id: Id, token: Token, others: Others)
    requires LeavesAlone(others.finish, id) && LeavesAlone(others.abort, id)
    requires id in taken && Holds(taken[id], token)
    ensures var t := MergeAbortRow(others.abort(taken), id, token); id in t && t[id].state == NeedsResolution
    ensures var t := MergeAbortRow(others.abort(others.finish(taken)), id, token);
      id in t && t[id].state == NeedsResolution
  {
    assert id in others.finish(taken) && others.finish(taken)[id] == taken[id];
  }

  /**
   Main result. Whatever other processes do to the table, a merge whose files nobody disturbs is all or nothing:
   either the row is merged, with the result that was read and every file as it was reviewed, or every file is as
   it was. A merge that started ends in the first way or asks for a human if the others leave its row alone.
   */
  lemma MergeAtomic(t: Table, d: Patches.Disk, id: Id, allowed: bool, changes: seq<Patches.Change>, token: Token,
                    now: Time, record: MergeRecord, ts: seq<Patches.Turn>, bs: seq<Patches.Turn>, others: Others)
    requires Patches.Distinct(changes)
    requires PatchResults.Undisturbed(ts) && PatchResults.Undisturbed(bs) && PatchResults.NoFailures(bs)
    ensures var m := MergeEffect(t, d, id, allowed, changes, token, now, record, ts, bs, others);
      && m.end != LeftMerging
      && (m.end != Done ==> m.files == d)
      && (m.end == Done ==>
            && (forall i :: 0 <= i < |changes| ==> Patches.Read(m.files, changes[i].path) == changes[i].after)
            && Approved(t, id) && t[id].result.Some? && id in m.rows && m.rows[id].state == Merged
            && m.rows[id].result == Some(t[id].result.value.(merge := Some(record))))
      && (m.end == RolledBack && LeavesAlone(others.finish, id) && LeavesAlone(others.abort, id) ==>
            id in m.rows && m.rows[id].state == NeedsResolution)
  {
    if Mergeable(t, id) && Patches.Matches(d, changes) {
      var read := t[id].result.value;
      FilesMerged(t, d, id, read, changes, token, now, record, ts, bs, others);
      RowMerged(t, d, id, read, changes, token, now, record, ts, bs, others);
      if LeavesAlone(others.finish, id) && LeavesAlone(others.abort, id) {
        RowAborted(t, d, id, read, changes, token, now, record, ts, bs, others);
      }
    }
  }

  /** A merge is done only if its row is still its own after everything the others did while the files were written. */
  lemma DoneMeans(t: Table, d: Patches.Disk, id: Id, allowed: bool, changes: seq<Patches.Change>, token: Token,
                  now: Time, record: MergeRecord, ts: seq<Patches.Turn>, bs: seq<Patches.Turn>, others: Others)
    ensures var m := MergeEffect(t, d, id, allowed, changes, token, now, record, ts, bs, others);
      m.end == Done ==>
        var t2 := others.finish(MergeStartRow(others.start(t), id, token, now));
        && id in t2 && t2[id].state == Status.Merging && t2[id].lease.Some? && t2[id].lease.value.token == token
        && id in t && t[id].result.Some? && id in m.rows && m.rows == t2[id := m.rows[id]]
        && m.rows[id] == t2[id].(state := Merged, result := Some(t[id].result.value.(merge := Some(record))),
                                 lease := None)
  {
  }

  /** An approved result whose files nobody touched is merged when no step fails and the others leave its row alone. */
  lemma MergeCompletes(t: Table, d: Patches.Disk, id: Id, changes: seq<Patches.Change>, token: Token, now: Time,
                       record: MergeRecord, ts: seq<Patches.Turn>, bs: seq<Patches.Turn>, others: Others)
    requires Approved(t, id) && t[id].result.Some?
    requires Patches.Distinct(changes) && Patches.Matches(d, changes) && PatchResults.Undisturbed(ts)
    requires forall k :: 0 <= k < |ts| ==> !ts[k].fails
    requires LeavesAlone(others.start, id) && LeavesAlone(others.finish, id)
    ensures MergeEffect(t, d, id, true, changes, token, now, record, ts, bs, others).end == Done
  {
    PatchResults.SucceedsExact(d, changes, ts);
    assert id in others.start(t) && others.start(t)[id] == t[id];
    var taken := MergeStartRow(others.start(t), id, token, now);
    assert id in others.finish(taken) && others.finish(taken)[id] == taken[id];
  }
}
