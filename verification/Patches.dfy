/**
 Patch proposals: preparing one against the files as they are, applying it file by file, and undoing it when
 anything goes wrong. Others may edit files between the steps; a check and the write that follows it are one step.
 */
module Patches {
  import opened Prelude

  type Path = string   // normalised, inside the workspace
  type Bytes = string

  type Disk = map<Path, Bytes>

  /** `before` stands for its digest. */
  datatype Change = Change(path: Path, before: Option<Bytes>, after: Option<Bytes>)

  datatype Phase = Prepared | Applying | Applied | NeedsResolution

  datatype Artifact = Artifact(changes: seq<Change>, phase: Phase)

  /** What happens before a step: others edit files, and the step itself may fail (budget, cancellation, I/O). */
  datatype Turn = Turn(edits: map<Path, Option<Bytes>>, fails: bool)

  const MAX_CHANGES := 32

  function Read(d: Disk, p: Path): Option<Bytes> {
    if p in d then Some(d[p]) else None
  }

  function Put(d: Disk, p: Path, b: Option<Bytes>): Disk {
    if b.Some? then d[p := b.value] else d - {p}
  }

  function Edited(v: Option<Bytes>, p: Path, edits: map<Path, Option<Bytes>>): Option<Bytes> {
    if p in edits then edits[p] else v
  }

  function Outside(d: Disk, edits: map<Path, Option<Bytes>>): Disk {
    map p | p in d.Keys + edits.Keys && Edited(Read(d, p), p, edits).Some? :: Edited(Read(d, p), p, edits).value
  }

  function TurnAt(ts: seq<Turn>, i: nat): Turn {
    if i < |ts| then ts[i] else Turn(map[], false)
  }

  // ---- prepare ----------------------------------------------------------------------

  datatype Fault =
    | BadCount | Duplicate(path: Path) | Stale(path: Path) | MissingFile(path: Path) | NoChange(path: Path) | TooLarge

  function FaultAt(d: Disk, changes: seq<Change>, i: nat): Option<Fault>
    requires i < |changes|
  {
    var c := changes[i];
    if exists j :: 0 <= j < i && changes[j].path == c.path then Some(Duplicate(c.path))
    else if c.before != Read(d, c.path) then Some(Stale(c.path))
    else if c.before.None? && c.after.None? then Some(MissingFile(c.path))
    else if c.before == c.after then Some(NoChange(c.path))
    else None
  }

  function FirstFault(d: Disk, changes: seq<Change>, i: nat): Option<Fault>
    requires i <= |changes|
    decreases |changes| - i
  {
    if i == |changes| then None
    else if FaultAt(d, changes, i).Some? then FaultAt(d, changes, i)
    else FirstFault(d, changes, i + 1)
  }

  predicate Distinct(changes: seq<Change>) {
    forall i, j :: 0 <= i < j < |changes| ==> changes[i].path != changes[j].path
  }

  // ---- apply ------------------------------------------------------------------------

  predicate Matches(d: Disk, changes: seq<Change>) {
    forall i :: 0 <= i < |changes| ==> Read(d, changes[i].path) == changes[i].before
  }

  /** Applies changes from `i` on; stops before the first step that fails or meets a changed file. */
  function Forward(d: Disk, changes: seq<Change>, ts: seq<Turn>, i: nat): (r: (Disk, nat))
    requires i <= |changes|
    ensures i <= r.1 <= |changes|
    decreases |changes| - i
  {
    var d1 := Outside(d, TurnAt(ts, i).edits);
    if i == |changes| then (d1, i)
    else if TurnAt(ts, i).fails || Read(d1, changes[i].path) != changes[i].before then (d1, i)
    else Forward(Put(d1, changes[i].path, changes[i].after), changes, ts, i + 1)
  }

  /** One step back: only bytes the patch itself wrote are replaced; a failing write is passed over. */
  function Undo(v: Option<Bytes>, c: Change, fails: bool): Option<Bytes> {
    if !fails && v == c.after then c.before else v
  }

  /** Undoes the first `n` changes in reverse order. */
  function Backward(d: Disk, changes: seq<Change>, bs: seq<Turn>, n: nat): Disk
    requires n <= |changes|
    decreases n
  {
    if n == 0 then d
    else
      var c, turn := changes[n - 1], TurnAt(bs, n - 1);
      var d1 := Outside(d, turn.edits);
      Backward(Put(d1, c.path, Undo(Read(d1, c.path), c, turn.fails)), changes, bs, n - 1)
  }

  /** All changes were written and recording that succeeded. */
  predicate Succeeds(d: Disk, changes: seq<Change>, ts: seq<Turn>) {
    Forward(d, changes, ts, 0).1 == |changes| && !TurnAt(ts, |changes|).fails
  }

  function ApplyDisk(d: Disk, changes: seq<Change>, ts: seq<Turn>, bs: seq<Turn>): Disk {
    var f := Forward(d, changes, ts, 0);
    if Succeeds(d, changes, ts) then f.0 else Backward(f.0, changes, bs, f.1)
  }

  /** The state change of an artifact that is in the expected state. */
  function Updated(artifacts: map<nat, Artifact>, id: nat, expected: Phase, phase: Phase): map<nat, Artifact> {
    if id in artifacts && artifacts[id].phase == expected
    then artifacts[id := artifacts[id].(phase := phase)]
    else artifacts
  }

  datatype Reply = Done | Reused | Refused | Conflicting | RolledBack

  class Workspace {
    var disk: Disk
    var artifacts: map<nat, Artifact>

    constructor (disk: Disk)
      ensures this.disk == disk && artifacts == map[]
    {
      this.disk, artifacts := disk, map[];
    }

    /** Stores a proposal that matches the files as they are; anything else is refused and nothing stored. */
    method PreparePatch(id: nat, changes: seq<Change>, small: bool) returns (fault: Option<Fault>)
      requires id !in artifacts
      modifies `artifacts
      ensures !(1 <= |changes| <= MAX_CHANGES) ==> fault == Some(BadCount)
      ensures 1 <= |changes| <= MAX_CHANGES && FirstFault(disk, changes, 0).Some? ==>
        fault == FirstFault(disk, changes, 0)
      ensures 1 <= |changes| <= MAX_CHANGES && FirstFault(disk, changes, 0).None? && !small ==> fault == Some(TooLarge)
      ensures fault.None? ==> Distinct(changes) && Matches(disk, changes)
      ensures artifacts == if fault.None? then old(artifacts)[id := Artifact(changes, Prepared)] else old(artifacts)
      ensures fault.None? <==> 1 <= |changes| <= MAX_CHANGES && FirstFault(disk, changes, 0).None? && small
    {
      if |changes| < 1 || |changes| > MAX_CHANGES { return Some(BadCount); }
      var seen: set<Path> := {};
      var i := 0;
      while i < |changes|
        invariant 0 <= i <= |changes| && seen == set j | 0 <= j < i :: changes[j].path
        invariant FirstFault(disk, changes, 0) == FirstFault(disk, changes, i)
        invariant forall j, k :: 0 <= j < k < i ==> changes[j].path != changes[k].path
        invariant forall j :: 0 <= j < i ==> Read(disk, changes[j].path) == changes[j].before
      {
        var c := changes[i];
        if c.path in seen { return Some(Duplicate(c.path)); }
        seen := seen + {c.path};
        if c.before != Read(disk, c.path) { return Some(Stale(c.path)); }
        if c.before.None? && c.after.None? { return Some(MissingFile(c.path)); }
        if c.before == c.after { return Some(NoChange(c.path)); }
        i := i + 1;
      }
      if !small { return Some(TooLarge); }
      artifacts := artifacts[id := Artifact(changes, Prepared)];
      return None;
    }

    /** The state change of an artifact, refused unless it is still in the expected state. */
    method Update(id: nat, expected: Phase, phase: Phase) returns (ok: bool)
      modifies `artifacts
      ensures ok == (id in old(artifacts) && old(artifacts)[id].phase == expected)
      ensures artifacts == Updated(old(artifacts), id, expected, phase)
    {
      ok := id in artifacts && artifacts[id].phase == expected;
      if ok { artifacts := artifacts[id := artifacts[id].(phase := phase)]; }
    }

    /** Writes a prepared patch, or puts back what it wrote. */
    method ApplyPatch(id: nat, ts: seq<Turn>, bs: seq<Turn>) returns (r: Reply)
      requires id in artifacts
      modifies this
      ensures var a := old(artifacts)[id];
        r == if a.phase == Applied then Reused
             else if a.phase != Prepared then Refused
             else if !Matches(old(disk), a.changes) then Conflicting
             else if Succeeds(old(disk), a.changes, ts) then Done
             else RolledBack
      ensures disk ==
        if r in {Done, RolledBack} then ApplyDisk(old(disk), old(artifacts)[id].changes, ts, bs) else old(disk)
      ensures artifacts ==
        if r == Done then old(artifacts)[id := old(artifacts)[id].(phase := Applied)]
        else if r == RolledBack then old(artifacts)[id := old(artifacts)[id].(phase := NeedsResolution)]
        else old(artifacts)
    {
      if artifacts[id].phase == Applied { return Reused; }
      if artifacts[id].phase != Prepared { return Refused; }
      var changes := artifacts[id].changes;
      var i := 0;
      while i < |changes|
        invariant 0 <= i <= |changes|
        invariant forall j :: 0 <= j < i ==> Read(disk, changes[j].path) == changes[j].before
      {
        if Read(disk, changes[i].path) != changes[i].before { return Conflicting; }
        i := i + 1;
      }
      var begun := Update(id, Prepared, Applying);
      var count := WriteChanges(changes, ts);
      if count == |changes| && !TurnAt(ts, |changes|).fails {
        var applied := Update(id, Applying, Applied);
        return Done;
      }
      UndoChanges(changes, bs, count);
      var stopped := Update(id, Applying, NeedsResolution);
      return RolledBack;
    }

    method WriteChanges(changes: seq<Change>, ts: seq<Turn>) returns (count: nat)
      modifies `disk
      ensures (disk, count) == Forward(old(disk), changes, ts, 0)
    {
      count := 0;
      while count < |changes|
        invariant 0 <= count <= |changes|
        invariant Forward(disk, changes, ts, count) == Forward(old(disk), changes, ts, 0)
      {
        disk := Outside(disk, TurnAt(ts, count).edits);
        var c := changes[count];
        if TurnAt(ts, count).fails || Read(disk, c.path) != c.before { return; }
        disk := Put(disk, c.path, c.after);
        count := count + 1;
      }
      disk := Outside(disk, TurnAt(ts, count).edits);
    }

    method UndoChanges(changes: seq<Change>, bs: seq<Turn>, applied: nat)
      requires applied <= |changes|
      modifies `disk
      ensures disk == Backward(old(disk), changes, bs, applied)
    {
      var n := applied;
      while n > 0
        invariant 0 <= n <= applied
        invariant Backward(disk, changes, bs, n) == Backward(old(disk), changes, bs, applied)
      {
        n := n - 1;
        disk := Outside(disk, TurnAt(bs, n).edits);
        var c := changes[n];
        disk := Put(disk, c.path, Undo(Read(disk, c.path), c, TurnAt(bs, n).fails));
      }
    }
  }
}
