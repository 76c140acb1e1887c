/**
 The shape of the graph: edges point to earlier rows, so nothing waits for itself, and
 cancellation reaches exactly the nodes below the cancelled one.
 */
module GraphEdges {
  import opened Prelude
  import opened GraphTable
  import opened GraphMachine
  import opened GraphInvariant

  /** `a` was created for, waits for, or reviews `b`. */
  predicate NeedsNode(t: Table, a: Id, b: Id) {
    a in t && (t[a].spec.parent == Some(b) || b in t[a].spec.deps || t[a].spec.reviewOf == Some(b))
  }

  ghost predicate NeedsPath(t: Table, path: seq<Id>) {
    forall k :: 0 < k < |path| ==> NeedsNode(t, path[k - 1], path[k])
  }

  lemma {:induction false} PathDescends(t: Table, path: seq<Id>)
    requires EdgesPointBack(SpecsOf(t)) && NeedsPath(t, path) && |path| >= 2
    ensures path[0] in t && path[|path| - 1] in t
    ensures t[path[|path| - 1]].spec.rowid < t[path[0]].spec.rowid
    decreases |path|
  {
    SpecsLookup(t);
    assert NeedsNode(t, path[0], path[1]);
    assert EdgesOk(SpecsOf(t), t[path[0]].spec);
    if |path| > 2 {
      var rest := path[1..];
      assert forall k :: 0 < k < |rest| ==> rest[k - 1] == path[k] && rest[k] == path[k + 1];
      PathDescends(t, rest);
    }
  }

  /** Main result. Along parent, dependency and review edges no reachable graph has a cycle. */
  lemma NoCycles(s: Graph, path: seq<Id>)
    requires Reachable(s) && NeedsPath(s.t, path) && |path| >= 2
    ensures path[0] != path[|path| - 1]
  {
    InvReachable(s);
    PathDescends(s.t, path);
  }

  // ---- cancellation -----------------------------------------------------------------

  lemma ReachesSelf(t: Table, owner: nat, a: Id)
    ensures Reaches(t, owner, a, a)
  {
    assert IsPath(t, owner, a, [a], a);
  }

  lemma ReachesStep(t: Table, owner: nat, a: Id, b: Id, c: Id)
    requires Reaches(t, owner, a, b) && Below(t, owner, b, c)
    ensures Reaches(t, owner, a, c)
  {
    var path :| IsPath(t, owner, a, path, b);
    assert IsPath(t, owner, a, path + [c], c);
  }

  /** A set closed under the edges contains everything that can be reached from it. */
  lemma {:induction false} ClosedContains(t: Table, owner: nat, a: Id, path: seq<Id>, b: Id, closed: set<Id>)
    requires IsPath(t, owner, a, path, b) && a in closed
    requires forall x, y :: x in closed && Below(t, owner, x, y) ==> y in closed
    ensures b in closed
    decreases |path|
  {
    if |path| > 1 {
      var init := path[..|path| - 1];
      assert IsPath(t, owner, a, init, path[|path| - 2]);
      ClosedContains(t, owner, a, init, path[|path| - 2], closed);
      assert Below(t, owner, path[|path| - 2], path[|path| - 1]);
    }
  }

  /**
   Main result. After a cancellation every node at or below the named one is cancelled, waits for its
   worker to stop, or was already merged; every other node is exactly as before; and the cancelled
   part is closed: no child or reviewer of a cancelled node is left out.
   */
  lemma CancelExact(t: Table, owner: nat, id: Id, now: Time, i: Id)
    requires id in t && t[id].spec.owner == owner && i in t
    ensures var t' := CancelTable(t, owner, id, now);
      && i in t'
      && (Reaches(t, owner, id, i) ==>
            if t[i].state == Merged then t'[i] == t[i]
            else t'[i].state == (if Live(t[i], now) then CancelRequested else Cancelled))
      && (!Reaches(t, owner, id, i) ==> t'[i] == t[i])
      && (forall c :: Reaches(t, owner, id, i) && Below(t, owner, i, c) ==> Reaches(t, owner, id, c))
      && Reaches(t, owner, id, id)
  {
    ReachesSelf(t, owner, id);
    forall c | Reaches(t, owner, id, i) && Below(t, owner, i, c)
      ensures Reaches(t, owner, id, c)
    {
      ReachesStep(t, owner, id, i, c);
    }
  }
}
