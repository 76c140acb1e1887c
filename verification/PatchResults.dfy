/** Atomicity of a patch without outside edits, and respect for them when there are some. */
module PatchResults {
  import opened Prelude
  import opened Patches

  lemma ReadPut(d: Disk, p: Path, b: Option<Bytes>, q: Path)
    ensures Read(Put(d, p, b), q) == if q == p then b else Read(d, q)
  {
  }

  lemma ReadOutside(d: Disk, edits: map<Path, Option<Bytes>>, q: Path)
    ensures Read(Outside(d, edits), q) == Edited(Read(d, q), q, edits)
  {
  }

  lemma SameDisk(a: Disk, b: Disk)
    requires forall p :: Read(a, p) == Read(b, p)
    ensures a == b
  {
    assert forall p :: p in a <==> Read(a, p).Some?;
    assert forall p :: p in b <==> Read(b, p).Some?;
    assert forall p :: p in a ==> Some(a[p]) == Read(a, p) == Read(b, p);
  }

  /** No one else edits during the first `n` + 1 turns. */
  predicate Undisturbed(ts: seq<Turn>) {
    forall i :: 0 <= i < |ts| ==> ts[i].edits == map[]
  }

  // ---- prepare ----------------------------------------------------------------------

  /** An earlier change of the proposal names the same path. */
  predicate Renamed(changes: seq<Change>, k: nat)
    requires k < |changes|
  {
    exists j :: 0 <= j < k && changes[j].path == changes[k].path
  }

  /** The change names a path of its own, starts from the file as it is, and changes it. */
  predicate Proper(d: Disk, changes: seq<Change>, k: nat)
    requires k < |changes|
  {
    !Renamed(changes, k) && changes[k].before == Read(d, changes[k].path) && changes[k].before != changes[k].after
  }

  /**
   The fault of a proposal is that of its first improper change: a path named twice, contents that are not the ones of
   the file, no file on either side, or no difference, in this order.
   */
  lemma {:induction false} FaultExact(d: Disk, changes: seq<Change>, i: nat) returns (k: nat)
    requires i <= |changes|
    ensures i <= k <= |changes| && forall j :: i <= j < k ==> Proper(d, changes, j)
    ensures k == |changes| <==> FirstFault(d, changes, i).None?
    ensures k < |changes| ==>
      var c, fault := changes[k], FirstFault(d, changes, i);
      && !Proper(d, changes, k)
      && (fault == Some(Duplicate(c.path)) <==> Renamed(changes, k))
      && (fault == Some(Stale(c.path)) <==> !Renamed(changes, k) && c.before != Read(d, c.path))
      && (fault == Some(MissingFile(c.path)) <==>
            !Renamed(changes, k) && c.path !in d && c.before.None? && c.after.None?)
      && (fault == Some(NoChange(c.path)) <==>
            !Renamed(changes, k) && c.path in d && c.before == c.after == Some(d[c.path]))
    decreases |changes| - i
  {
    if i == |changes| || FaultAt(d, changes, i).Some? { return i; }
    k := FaultExact(d, changes, i + 1);
  }

  // ---- one path at a time -----------------------------------------------------------

  /** What becomes of the contents of `p` during the steps from `i` up to `count` of a forward pass. */
  function PathForward(v: Option<Bytes>, p: Path, changes: seq<Change>, ts: seq<Turn>, i: nat,
                       count: nat): Option<Bytes>
    requires i <= count <= |changes|
    decreases count - i
  {
    var w := Edited(v, p, TurnAt(ts, i).edits);
    if i == count then w
    else PathForward(if changes[i].path == p then changes[i].after else w, p, changes, ts, i + 1, count)
  }

  lemma {:induction false} ForwardByPath(d: Disk, changes: seq<Change>, ts: seq<Turn>, i: nat, p: Path)
    requires i <= |changes|
    ensures var f := Forward(d, changes, ts, i); Read(f.0, p) == PathForward(Read(d, p), p, changes, ts, i, f.1)
    decreases |changes| - i
  {
    var d1 := Outside(d, TurnAt(ts, i).edits);
    ReadOutside(d, TurnAt(ts, i).edits, p);
    if i < |changes| && !TurnAt(ts, i).fails && Read(d1, changes[i].path) == changes[i].before {
      ReadPut(d1, changes[i].path, changes[i].after, p);
      ForwardByPath(Put(d1, changes[i].path, changes[i].after), changes, ts, i + 1, p);
    }
  }

  /** What becomes of the contents of `p` while `n` changes are undone. */
  function PathBackward(v: Option<Bytes>, p: Path, changes: seq<Change>, bs: seq<Turn>, n: nat): Option<Bytes>
    requires n <= |changes|
    decreases n
  {
    if n == 0 then v
    else
      var w := Edited(v, p, TurnAt(bs, n - 1).edits);
      PathBackward(if changes[n - 1].path == p then Undo(w, changes[n - 1], TurnAt(bs, n - 1).fails) else w,
                   p, changes, bs, n - 1)
  }

  lemma {:induction false} BackwardByPath(d: Disk, changes: seq<Change>, bs: seq<Turn>, n: nat, p: Path)
    requires n <= |changes|
    ensures Read(Backward(d, changes, bs, n), p) == PathBackward(Read(d, p), p, changes, bs, n)
    decreases n
  {
    if n > 0 {
      var c, turn := changes[n - 1], TurnAt(bs, n - 1);
      var d1 := Outside(d, turn.edits);
      ReadOutside(d, turn.edits, p);
      var v := Undo(Read(d1, c.path), c, turn.fails);
      ReadPut(d1, c.path, v, p);
      BackwardByPath(Put(d1, c.path, v), changes, bs, n - 1, p);
    }
  }

  // ---- without outside edits --------------------------------------------------------

  /** The contents a patch proposes. */
  function Proposed(d: Disk, changes: seq<Change>, n: nat, p: Path): Option<Bytes>
    requires n <= |changes|
  {
    if n == 0 then Read(d, p)
    else if changes[n - 1].path == p then changes[n - 1].after
    else Proposed(d, changes, n - 1, p)
  }

  lemma {:induction false} QuietPathForward(d: Disk, p: Path, changes: seq<Change>, ts: seq<Turn>, i: nat, count: nat)
    requires Undisturbed(ts) && i <= count <= |changes|
    ensures PathForward(Proposed(d, changes, i, p), p, changes, ts, i, count) == Proposed(d, changes, count, p)
    decreases count - i
  {
    if i < count {
      QuietPathForward(d, p, changes, ts, i + 1, count);
    }
  }

  predicate NoFailures(bs: seq<Turn>) {
    forall i :: 0 <= i < |bs| ==> !bs[i].fails
  }

  lemma {:induction false} QuietPathBackward(d: Disk, p: Path, changes: seq<Change>, bs: seq<Turn>, n: nat)
    requires Undisturbed(bs) && NoFailures(bs) && n <= |changes| && Distinct(changes) && Matches(d, changes)
    ensures PathBackward(Proposed(d, changes, n, p), p, changes, bs, n) == Read(d, p)
  {
    if n > 0 {
      if changes[n - 1].path == p {
        UntouchedBefore(d, p, changes, n - 1);
      }
      QuietPathBackward(d, p, changes, bs, n - 1);
    }
  }

  lemma {:induction false} UntouchedBefore(d: Disk, p: Path, changes: seq<Change>, n: nat)
    requires n <= |changes| && forall i :: 0 <= i < n ==> changes[i].path != p
    ensures Proposed(d, changes, n, p) == Read(d, p)
  {
    if n > 0 {
      UntouchedBefore(d, p, changes, n - 1);
    }
  }

  /** Undisturbed changes are applied from `i` on up to the first step that fails. */
  lemma {:induction false} ForwardReaches(d: Disk, changes: seq<Change>, ts: seq<Turn>, i: nat)
    requires Undisturbed(ts) && Distinct(changes) && i <= |changes|
    requires forall k :: i <= k < |changes| ==> Read(d, changes[k].path) == changes[k].before
    ensures Forward(d, changes, ts, i).1 == |changes| <==> forall k :: i <= k < |changes| && k < |ts| ==> !ts[k].fails
    decreases |changes| - i
  {
    if i < |changes| {
      var d1 := Outside(d, TurnAt(ts, i).edits);
      var d2 := Put(d1, changes[i].path, changes[i].after);
      forall k | i <= k < |changes|
        ensures Read(d1, changes[k].path) == changes[k].before
        ensures k > i ==> Read(d2, changes[k].path) == changes[k].before
      {
        ReadOutside(d, TurnAt(ts, i).edits, changes[k].path);
        ReadPut(d1, changes[i].path, changes[i].after, changes[k].path);
      }
      if !TurnAt(ts, i).fails { ForwardReaches(d2, changes, ts, i + 1); }
    }
  }

  /**
   Main result. Undisturbed, a patch that matches the files succeeds exactly when no step fails, the last included.
   */
  lemma SucceedsExact(d: Disk, changes: seq<Change>, ts: seq<Turn>)
    requires Undisturbed(ts) && Distinct(changes) && Matches(d, changes)
    ensures Succeeds(d, changes, ts) <==> forall k :: 0 <= k <= |changes| && k < |ts| ==> !ts[k].fails
  {
    ForwardReaches(d, changes, ts, 0);
  }

  /** Main result. Undisturbed success writes exactly the proposed contents and touches nothing else. */
  lemma SuccessExact(d: Disk, changes: seq<Change>, ts: seq<Turn>, bs: seq<Turn>, p: Path)
    requires Undisturbed(ts) && Distinct(changes) && Succeeds(d, changes, ts)
    ensures forall i :: 0 <= i < |changes| ==> Read(ApplyDisk(d, changes, ts, bs), changes[i].path) == changes[i].after
    ensures (forall i :: 0 <= i < |changes| ==> changes[i].path != p) ==>
      Read(ApplyDisk(d, changes, ts, bs), p) == Read(d, p)
  {
    forall i | 0 <= i < |changes|
      ensures Read(ApplyDisk(d, changes, ts, bs), changes[i].path) == changes[i].after
    {
      QuietSuccess(d, changes, ts, changes[i].path);
      LastProposal(d, changes, i, |changes|);
    }
    QuietSuccess(d, changes, ts, p);
    if forall i :: 0 <= i < |changes| ==> changes[i].path != p {
      UntouchedBefore(d, p, changes, |changes|);
    }
  }

  lemma QuietSuccess(d: Disk, changes: seq<Change>, ts: seq<Turn>, p: Path)
    requires Undisturbed(ts)
    ensures var f := Forward(d, changes, ts, 0); Read(f.0, p) == Proposed(d, changes, f.1, p)
  {
    ForwardByPath(d, changes, ts, 0, p);
    QuietPathForward(d, p, changes, ts, 0, Forward(d, changes, ts, 0).1);
  }

  lemma {:induction false} LastProposal(d: Disk, changes: seq<Change>, i: nat, n: nat)
    requires Distinct(changes) && i < n <= |changes|
    ensures Proposed(d, changes, n, changes[i].path) == changes[i].after
  {
    if n - 1 > i {
      LastProposal(d, changes, i, n - 1);
    }
  }

  /** Undoing what an undisturbed forward pass wrote restores every file. */
  lemma BackwardRestores(d: Disk, changes: seq<Change>, ts: seq<Turn>, bs: seq<Turn>)
    requires Undisturbed(ts) && Undisturbed(bs) && NoFailures(bs) && Distinct(changes) && Matches(d, changes)
    ensures var f := Forward(d, changes, ts, 0); Backward(f.0, changes, bs, f.1) == d
  {
    var f := Forward(d, changes, ts, 0);
    var e := Backward(f.0, changes, bs, f.1);
    forall p
      ensures Read(e, p) == Read(d, p)
    {
      QuietSuccess(d, changes, ts, p);
      BackwardByPath(f.0, changes, bs, f.1, p);
      QuietPathBackward(d, p, changes, bs, f.1);
    }
    SameDisk(e, d);
  }

  /** Main result. Undisturbed failure at any step restores every file, as long as the restoring writes succeed. */
  lemma FailureRestores(d: Disk, changes: seq<Change>, ts: seq<Turn>, bs: seq<Turn>)
    requires Undisturbed(ts) && Undisturbed(bs) && NoFailures(bs)
    requires Distinct(changes) && Matches(d, changes) && !Succeeds(d, changes, ts)
    ensures ApplyDisk(d, changes, ts, bs) == d
  {
    BackwardRestores(d, changes, ts, bs);
  }

  // ---- with outside edits -----------------------------------------------------------

  /** What others make of the contents of `p` at the steps from `i` up to `count` of a forward pass. */
  function OthersForward(v: Option<Bytes>, p: Path, ts: seq<Turn>, i: nat, count: nat): Option<Bytes>
    requires i <= count
    decreases count - i
  {
    var w := Edited(v, p, TurnAt(ts, i).edits);
    if i == count then w else OthersForward(w, p, ts, i + 1, count)
  }

  /** What others make of the contents of `p` while the changes from the `n`-th down to the `i`-th are undone. */
  function OthersBackward(v: Option<Bytes>, p: Path, bs: seq<Turn>, n: nat, i: nat): Option<Bytes>
    requires i <= n
    decreases n
  {
    if n == i then v else OthersBackward(Edited(v, p, TurnAt(bs, n - 1).edits), p, bs, n - 1, i)
  }

  /** Others do not happen to write the very bytes `b` to `p`. */
  predicate NeverWrites(bs: seq<Turn>, p: Path, b: Option<Bytes>) {
    forall i :: 0 <= i < |bs| && p in bs[i].edits ==> bs[i].edits[p] != b
  }

  lemma {:induction false} PathLeftAlone(v: Option<Bytes>, p: Path, changes: seq<Change>, bs: seq<Turn>, n: nat)
    requires n <= |changes|
    requires forall i :: 0 <= i < n && changes[i].path == p ==>
      v != changes[i].after && NeverWrites(bs, p, changes[i].after)
    ensures PathBackward(v, p, changes, bs, n) == OthersBackward(v, p, bs, n, 0)
    decreases n
  {
    if n > 0 {
      PathLeftAlone(Edited(v, p, TurnAt(bs, n - 1).edits), p, changes, bs, n - 1);
    }
  }

  /**
   Main result. A file that does not hold the bytes the patch wrote, because somebody else has changed it, is
   left by the rollback exactly as others leave it, whatever else they edit meanwhile.
   */
  lemma OthersKept(d: Disk, changes: seq<Change>, bs: seq<Turn>, n: nat, p: Path)
    requires n <= |changes|
    requires forall i :: 0 <= i < n && changes[i].path == p ==>
      Read(d, p) != changes[i].after && NeverWrites(bs, p, changes[i].after)
    ensures Read(Backward(d, changes, bs, n), p) == OthersBackward(Read(d, p), p, bs, n, 0)
  {
    BackwardByPath(d, changes, bs, n, p);
    PathLeftAlone(Read(d, p), p, changes, bs, n);
  }

  lemma {:induction false} PathUndone(v: Option<Bytes>, changes: seq<Change>, bs: seq<Turn>, n: nat, i: nat)
    requires Distinct(changes) && i < n <= |changes|
    ensures PathBackward(v, changes[i].path, changes, bs, n)
         == PathBackward(Undo(OthersBackward(v, changes[i].path, bs, n, i), changes[i], TurnAt(bs, i).fails),
                         changes[i].path, changes, bs, i)
    decreases n
  {
    if n > i + 1 {
      PathUndone(Edited(v, changes[i].path, TurnAt(bs, n - 1).edits), changes, bs, n - 1, i);
    }
  }

  lemma {:induction false} PathOfOthers(v: Option<Bytes>, p: Path, changes: seq<Change>, bs: seq<Turn>, n: nat)
    requires n <= |changes| && forall i :: 0 <= i < n ==> changes[i].path != p
    ensures PathBackward(v, p, changes, bs, n) == OthersBackward(v, p, bs, n, 0)
    decreases n
  {
    if n > 0 {
      PathOfOthers(Edited(v, p, TurnAt(bs, n - 1).edits), p, changes, bs, n - 1);
    }
  }

  /**
   Main result. Whatever others edit during a rollback, a file is restored if and only if it was written, at its
   turn holds what was written there, and the restoring write succeeds; for the rest only others change it.
   */
  lemma RollbackExact(d: Disk, changes: seq<Change>, bs: seq<Turn>, n: nat, i: nat)
    requires Distinct(changes) && n <= |changes| && i < |changes|
    ensures var p := changes[i].path; var d' := Backward(d, changes, bs, n);
      if i >= n then Read(d', p) == OthersBackward(Read(d, p), p, bs, n, 0)
      else
        var found := OthersBackward(Read(d, p), p, bs, n, i);
        var restored := found == changes[i].after && !TurnAt(bs, i).fails;
        Read(d', p) == OthersBackward(if restored then changes[i].before else found, p, bs, i, 0)
  {
    var p := changes[i].path;
    BackwardByPath(d, changes, bs, n, p);
    if i < n {
      PathUndone(Read(d, p), changes, bs, n, i);
      PathOfOthers(Undo(OthersBackward(Read(d, p), p, bs, n, i), changes[i], TurnAt(bs, i).fails), p, changes, bs, i);
    } else {
      PathOfOthers(Read(d, p), p, changes, bs, n);
    }
  }

  lemma {:induction false} PathForwardOfOthers(v: Option<Bytes>, p: Path, changes: seq<Change>, ts: seq<Turn>, i: nat,
                                               count: nat)
    requires i <= count <= |changes| && forall j :: 0 <= j < |changes| ==> changes[j].path != p
    ensures PathForward(v, p, changes, ts, i, count) == OthersForward(v, p, ts, i, count)
    decreases count - i
  {
    if i < count {
      PathForwardOfOthers(Edited(v, p, TurnAt(ts, i).edits), p, changes, ts, i + 1, count);
    }
  }

  /**
   Main result. Whether it succeeds or rolls back, a patch leaves a file it does not name exactly as others leave
   it.
   */
  lemma UnnamedUntouched(d: Disk, changes: seq<Change>, ts: seq<Turn>, bs: seq<Turn>, p: Path)
    requires forall i :: 0 <= i < |changes| ==> changes[i].path != p
    ensures var count := Forward(d, changes, ts, 0).1;
      var v := OthersForward(Read(d, p), p, ts, 0, count);
      Read(ApplyDisk(d, changes, ts, bs), p) ==
        if Succeeds(d, changes, ts) then v else OthersBackward(v, p, bs, count, 0)
  {
    var f := Forward(d, changes, ts, 0);
    ForwardByPath(d, changes, ts, 0, p);
    PathForwardOfOthers(Read(d, p), p, changes, ts, 0, f.1);
    BackwardByPath(f.0, changes, bs, f.1, p);
    PathOfOthers(Read(f.0, p), p, changes, bs, f.1);
  }

  // ---- a proposal is applied at most once -------------------------------------------

  /** One guarded change of the artifacts that some process attempts; a crash simply attempts nothing more. */
  datatype Attempt = Prepare(id: nat, changes: seq<Change>) | Begin(id: nat) | Complete(id: nat) | GiveUp(id: nat)

  function Attempted(artifacts: map<nat, Artifact>, a: Attempt): map<nat, Artifact> {
    match a
    case Prepare(id, changes) => if id in artifacts then artifacts else artifacts[id := Artifact(changes, Prepared)]
    case Begin(id) => Updated(artifacts, id, Prepared, Applying)
    case Complete(id) => Updated(artifacts, id, Applying, Applied)
    case GiveUp(id) => Updated(artifacts, id, Applying, NeedsResolution)
  }

  function After(artifacts: map<nat, Artifact>, attempts: seq<Attempt>): map<nat, Artifact>
    decreases |attempts|
  {
    if attempts == [] then artifacts else After(Attempted(artifacts, attempts[0]), attempts[1..])
  }

  predicate Begins(artifacts: map<nat, Artifact>, a: Attempt, id: nat) {
    a == Begin(id) && id in artifacts && artifacts[id].phase == Prepared
  }

  /** How often some process gets to write the files of proposal `id`. */
  function Begun(artifacts: map<nat, Artifact>, attempts: seq<Attempt>, id: nat): nat
    decreases |attempts|
  {
    if attempts == [] then 0
    else
      var rest := Begun(Attempted(artifacts, attempts[0]), attempts[1..], id);
      if Begins(artifacts, attempts[0], id) then 1 + rest else rest
  }

  /** The proposal has been begun. */
  predicate Started(artifacts: map<nat, Artifact>, id: nat) {
    id in artifacts && artifacts[id].phase != Prepared
  }

  /**
   Main result. Whatever processes attempt on whatever proposals, each is begun at most once, with the changes it was
   prepared with, and never after it left `prepared`.
   */
  lemma {:induction false} BegunOnce(artifacts: map<nat, Artifact>, attempts: seq<Attempt>, id: nat)
    ensures Begun(artifacts, attempts, id) <= (if Started(artifacts, id) then 0 else 1)
    ensures Started(artifacts, id) ==> Started(After(artifacts, attempts), id)
    ensures id in artifacts ==>
      id in After(artifacts, attempts) && After(artifacts, attempts)[id].changes == artifacts[id].changes
    decreases |attempts|
  {
    if attempts != [] {
      BegunOnce(Attempted(artifacts, attempts[0]), attempts[1..], id);
    }
  }

  /** An apply that writes changes the artifacts as two attempts do, and nobody can repeat the first of them. */
  lemma ApplyIsAttempts(artifacts: map<nat, Artifact>, id: nat, done: bool)
    requires id in artifacts && artifacts[id].phase == Prepared
    ensures var attempts := [Begin(id), if done then Complete(id) else GiveUp(id)];
      && After(artifacts, attempts)
      == artifacts[id := artifacts[id].(phase := if done then Applied else NeedsResolution)]
      && Begun(artifacts, attempts, id) == 1
  {
    var begun := Attempted(artifacts, Begin(id));
    var last := if done then Complete(id) else GiveUp(id);
    assert [Begin(id), last][1..] == [last];
    assert After(begun, [last]) == Attempted(begun, last);
    assert Begun(begun, [last], id) == 0;
  }
}
