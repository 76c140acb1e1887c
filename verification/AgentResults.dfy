/** No call other than `ask_user` runs twice, whoever crashes, resumes or intervenes. */
module AgentResults {
  import opened Prelude
  import opened AgentProtocol

  predicate Extends(a: Transcript, b: Transcript) {
    |b| <= |a| && forall t :: 0 <= t < |b| ==> a[t].calls == b[t].calls && b[t].finished <= a[t].finished
  }

  /** The call can no longer be started: it has a result, or it is the one that has started. */
  predicate Spent(r: Row, x: (nat, nat)) {
    && x.0 < |r.saved|
    && (x.1 in r.saved[x.0].finished || (r.phase == ToolStarted && r.call == x.1 && x.0 == |r.saved| - 1))
  }

  predicate TokensOk(s: State) {
    && (forall k :: k in s.workers ==> k < s.issued)
    && (s.row.lease.Some? ==> s.row.lease.value.token < s.issued)
  }

  /** The worker has started a call other than `ask_user`. */
  predicate Busy(l: Local) {
    l.point.Started? || l.point.Invoked?
  }

  /** What holds of the worker whose writes would be accepted. */
  predicate HolderOk(r: Row, l: Local) {
    && Extends(l.turns, r.saved)
    && (r.phase == ToolStarted <==> Busy(l))
    && (Busy(l) ==> r.saved != [] && l.turns == r.saved && r.call == l.point.id)
  }

  predicate HoldersOk(s: State) {
    s.row.status == Running && s.row.lease.Some? && s.row.lease.value.token in s.workers ==>
      HolderOk(s.row, s.workers[s.row.lease.value.token])
  }

  predicate WorkersOk(s: State) {
    && (forall k :: k in s.workers && Busy(s.workers[k]) ==>
          s.workers[k].turns != [] && Spent(s.row, (Here(s.workers[k]), s.workers[k].point.id)))
    && (forall j, k :: j in s.workers && k in s.workers && SameCall(s.workers[j], s.workers[k]) ==> j == k)
  }

  predicate SameCall(a: Local, b: Local) {
    Busy(a) && Busy(b) && Here(a) == Here(b) && a.point.id == b.point.id
  }

  predicate InvokedOk(s: State) {
    && (forall i :: 0 <= i < |s.invoked| ==> Spent(s.row, s.invoked[i]))
    && (forall i, j :: 0 <= i < j < |s.invoked| ==> s.invoked[i] != s.invoked[j])
    && (forall k, i :: k in s.workers && 0 <= i < |s.invoked| && s.workers[k].point.Started? ==>
          s.invoked[i] != (Here(s.workers[k]), s.workers[k].point.id))
  }

  predicate Inv(s: State) {
    TokensOk(s) && HoldersOk(s) && WorkersOk(s) && InvokedOk(s)
  }

  // ---- what is spent stays spent ----------------------------------------------------

  lemma StepExtends(l: Local, a: Act)
    requires CanAct(l, a)
    ensures Extends(Step(l, a).turns, l.turns)
  {
  }

  lemma ExtendsTrans(a: Transcript, b: Transcript, c: Transcript)
    requires Extends(a, b) && Extends(b, c)
    ensures Extends(a, c)
  {
  }

  lemma SpentByDo(s: State, e: Event, x: (nat, nat))
    requires Inv(s) && Next(s, e) && e.Do? && Spent(s.row, x)
    ensures Spent(Apply(s, e).row, x)
  {
    var l := s.workers[e.token];
    if Saves(e.act) {
      StepExtends(l, e.act);
      assert HolderOk(s.row, l);
      ExtendsTrans(Step(l, e.act).turns, l.turns, s.row.saved);
    }
  }

  lemma SpentStays(s: State, e: Event, x: (nat, nat))
    requires Inv(s) && Next(s, e) && Spent(s.row, x)
    ensures Spent(Apply(s, e).row, x)
  {
    if e.Do? {
      SpentByDo(s, e, x);
    }
  }

  // ---- preservation -----------------------------------------------------------------

  lemma TokensStay(s: State, e: Event)
    requires Inv(s) && Next(s, e)
    ensures TokensOk(Apply(s, e))
  {
  }

  lemma HolderByDo(s: State, e: Event)
    requires Inv(s) && Next(s, e) && e.Do?
    ensures HoldersOk(Apply(s, e))
  {
    var l := s.workers[e.token];
    StepExtends(l, e.act);
    var s' := Apply(s, e);
    if s.row.status == Running && s.row.lease.Some? && s.row.lease.value.token == e.token {
      assert HolderOk(s.row, l);
      ExtendsTrans(Step(l, e.act).turns, l.turns, s.row.saved);
    }
  }

  lemma HoldersStay(s: State, e: Event)
    requires Inv(s) && Next(s, e)
    ensures HoldersOk(Apply(s, e))
  {
    if e.Do? {
      HolderByDo(s, e);
    }
  }

  /** A call that may be started is not spent. */
  lemma StartableIsUnspent(s: State, token: Token, id: nat, now: Time)
    requires Inv(s) && Next(s, Do(token, Start(id), now))
    ensures !Spent(s.row, (Here(s.workers[token]), id))
  {
    assert HolderOk(s.row, s.workers[token]);
  }

  lemma WorkersByDo(s: State, e: Event)
    requires Inv(s) && Next(s, e) && e.Do?
    ensures WorkersOk(Apply(s, e))
  {
    var s' := Apply(s, e);
    if e.act.Start? {
      StartableIsUnspent(s, e.token, e.act.id, e.now);
    }
    forall k | k in s'.workers && Busy(s'.workers[k])
      ensures s'.workers[k].turns != [] && Spent(s'.row, (Here(s'.workers[k]), s'.workers[k].point.id))
    {
      if k != e.token || !e.act.Start? {
        SpentStays(s, e, (Here(s.workers[k]), s.workers[k].point.id));
      }
    }
  }

  lemma WorkersStay(s: State, e: Event)
    requires Inv(s) && Next(s, e)
    ensures WorkersOk(Apply(s, e))
  {
    if e.Do? {
      WorkersByDo(s, e);
    } else {
      var s' := Apply(s, e);
      forall k | k in s'.workers && Busy(s'.workers[k])
        ensures s'.workers[k].turns != [] && Spent(s'.row, (Here(s'.workers[k]), s'.workers[k].point.id))
      {
        assert k in s.workers && s.workers[k] == s'.workers[k];
        SpentStays(s, e, (Here(s.workers[k]), s.workers[k].point.id));
      }
    }
  }

  lemma InvokedSpent(s: State, e: Event)
    requires Inv(s) && Next(s, e)
    ensures forall i :: 0 <= i < |Apply(s, e).invoked| ==> Spent(Apply(s, e).row, Apply(s, e).invoked[i])
  {
    var s' := Apply(s, e);
    forall i | 0 <= i < |s'.invoked|
      ensures Spent(s'.row, s'.invoked[i])
    {
      if i < |s.invoked| {
        SpentStays(s, e, s.invoked[i]);
      }
    }
  }

  lemma InvokedDistinct(s: State, e: Event)
    requires Inv(s) && Next(s, e)
    ensures var v := Apply(s, e).invoked; forall i, j :: 0 <= i < j < |v| ==> v[i] != v[j]
  {
  }

  lemma StartedNotInvoked(s: State, e: Event, k: Token, i: nat)
    requires Inv(s) && Next(s, e) && k in Apply(s, e).workers && i < |Apply(s, e).invoked|
    requires Apply(s, e).workers[k].point.Started?
    ensures Apply(s, e).invoked[i] != (Here(Apply(s, e).workers[k]), Apply(s, e).workers[k].point.id)
  {
    var s' := Apply(s, e);
    if e.Do? && e.act.Start? && k == e.token {
      StartableIsUnspent(s, k, e.act.id, e.now);
    } else if e.Do? && e.act.Invoke? && i == |s.invoked| {
      assert k != e.token;
      assert !SameCall(s.workers[k], s.workers[e.token]);
    }
  }

  lemma InvStep(s: State, e: Event)
    requires Inv(s) && Next(s, e)
    ensures Inv(Apply(s, e))
  {
    TokensStay(s, e);
    HoldersStay(s, e);
    WorkersStay(s, e);
    InvokedSpent(s, e);
    InvokedDistinct(s, e);
    forall k, i | k in Apply(s, e).workers && 0 <= i < |Apply(s, e).invoked| && Apply(s, e).workers[k].point.Started?
      ensures Apply(s, e).invoked[i] != (Here(Apply(s, e).workers[k]), Apply(s, e).workers[k].point.id)
    {
      StartedNotInvoked(s, e, k, i);
    }
  }

  lemma {:induction false} InvRun(s: State, es: seq<Event>)
    requires Inv(s) && Runs(s, es)
    ensures Inv(Run(s, es))
    decreases |es|
  {
    if es != [] {
      InvStep(s, es[0]);
      InvRun(Apply(s, es[0]), es[1..]);
    }
  }

  /** What a resumed worker relies on: an evaluation is only ever saved behind an answer without calls. */
  predicate EvaluationOk(r: Row) {
    r.phase in {EvaluationPending, EvaluationDone} ==> Concluded(r.saved)
  }

  lemma {:induction false} EvaluationAfterAnswer(s: State, es: seq<Event>)
    requires EvaluationOk(s.row) && Runs(s, es)
    ensures EvaluationOk(Run(s, es).row)
    decreases |es|
  {
    if es != [] {
      EvaluationAfterAnswer(Apply(s, es[0]), es[1..]);
    }
  }

  /**
   Main result. Over all crashes, lost leases, resumed workers, human answers and resolutions, each call of
   each assistant turn other than `ask_user` is invoked at most once.
   */
  lemma InvokedOnce(es: seq<Event>)
    requires Runs(START, es)
    ensures var v := Run(START, es).invoked; forall i, j :: 0 <= i < j < |v| ==> v[i] != v[j]
  {
    InvRun(START, es);
  }

  /** What a checkpoint tells the worker that resumes from it. */
  lemma SavedPhases(r: Row, a: Act, l: Local)
    requires Saves(a)
    ensures var phase := SaveRow(r, a, l).phase;
      && (phase == ModelPending <==> a.SaveModelPending?) && (phase == ModelReceived <==> a.Receive?)
      && (phase == ToolStarted <==> a.Start?) && (phase == WaitingUser <==> a.SaveWaiting?)
      && (phase == EvaluationPending <==> a == SaveEvaluation(false))
      && (phase == EvaluationDone <==> a == SaveEvaluation(true))
      && (phase == ToolDone <==> a.Complete? || a.Block? || a.AskFailed?)
    ensures SaveRow(r, a, l).saved == l.turns
    ensures a.Start? || a.SaveWaiting? ==> SaveRow(r, a, l).call == a.id
  {
  }

  // ---- single transactions ----------------------------------------------------------

  /**
   A worker takes exactly a task without a live lease that waits or was left running, has no started tool, and was
   recovered less than three times; one with a started tool becomes uncertain.
   */
  lemma ClaimExact(s: State, now: Time)
    ensures var r, t := s.row, Apply(s, Claim(now));
      var free := r.status !in {Completed, Failed, Cancelled} && (r.lease.None? || r.lease.value.expires <= now);
      var taken := free && r.phase != ToolStarted && (r.status == Pending || r.status == Running) && r.recoveries < 3;
      && (taken ==>
            t.issued == s.issued + 1 && t.workers.Keys == s.workers.Keys + {s.issued} &&
            t.workers[s.issued] == Local(s.issued, r.saved, Ready, {}, None) &&
            t.row.status == Running && t.row.lease == Some(Lease(s.issued, now + 180)) && t.row.saved == r.saved &&
            t.row.recoveries == r.recoveries + if r.status == Running || r.replied then 1 else 0)
      && (!taken ==> t.issued == s.issued && t.workers == s.workers)
      && (!taken && free && r.phase == ToolStarted ==> t.row == r.(status := Uncertain))
      && (!taken && !(free && r.phase == ToolStarted) ==> t.row == r)
  {
  }

  /** A worker's own live lease is renewed for 180 seconds, and no other. */
  lemma RenewExact(s: State, token: Token, now: Time)
    ensures var r, t := s.row, Apply(s, Renew(token, now));
      if r.status == Running && r.lease.Some? && r.lease.value.token == token && r.lease.value.expires > now
      then t == s.(row := r.(lease := Some(Lease(token, now + 180)))) else t == s
  {
  }

  /** Humans cancel whatever has not ended, and mark a running task whose lease has run out as uncertain. */
  lemma HumansExact(s: State, now: Time)
    ensures var r, t := s.row, Apply(s, Cancel);
      if r.status in {Completed, Failed, Cancelled} then t == s
      else t == s.(row := r.(status := Cancelled, lease := None, replied := true))
    ensures var r, t := s.row, Apply(s, MarkUncertain(now));
      if r.status == Running && r.lease.Some? && r.lease.value.expires <= now
      then t == s.(row := r.(status := Uncertain, lease := None)) else t == s
  {
  }

  /** Every run of a tool and every question is logged, and nothing else. */
  lemma LoggedExact(s: State, e: Event)
    requires Next(s, e)
    ensures var t := Apply(s, e);
      && (e.Do? && e.act == Invoke ==>
            var l := s.workers[e.token];
            l.point.Started? && t.asked == s.asked &&
            t.invoked == s.invoked + [(if l.turns == [] then 0 else |l.turns| - 1, l.point.id)])
      && (e.Do? && e.act.Ask? ==>
            var turns := s.workers[e.token].turns;
            turns != [] && t.invoked == s.invoked &&
            t.asked == s.asked + [Question(e.token, Site(turns[|turns| - 1].author, |turns| - 1, e.act.place))])
      && (!e.Do? || (e.act != Invoke && !e.act.Ask?) ==> t.invoked == s.invoked && t.asked == s.asked)
  {
  }

  // ---- a started tool ---------------------------------------------------------------

  /** The worker that runs the started call records its result. */
  predicate Completes(s: State, e: Event) {
    e.Do? && e.act.Complete? && Next(s, e) && s.workers[e.token].point == Invoked(s.row.call)
  }

  /** A human records what became of the started call. */
  predicate Resolves(s: State, e: Event) {
    e.Resolve? && s.row.status == Uncertain && s.row.phase == ToolStarted && s.row.saved != []
  }

  /** The call that had started has a result now. */
  predicate CallFinished(r: Row, r': Row) {
    r.saved != [] && r'.phase == ToolDone && r'.saved == Finish(r.saved, r.call)
  }

  lemma StartedToolStep(s: State, e: Event)
    requires Inv(s) && Next(s, e) && s.row.phase == ToolStarted
    ensures var s' := Apply(s, e);
      && s'.issued == s.issued
      && if Completes(s, e) || Resolves(s, e) then CallFinished(s.row, s'.row)
         else s'.row.phase == ToolStarted && s'.row.call == s.row.call && s'.row.saved == s.row.saved
  {
    if e.Do? && Saves(e.act) {
      assert HolderOk(s.row, s.workers[e.token]);
    }
  }

  /** No event of the run finishes the started call. */
  predicate NobodyFinishes(s: State, es: seq<Event>)
    requires Runs(s, es)
    decreases |es|
  {
    es == [] || (!Completes(s, es[0]) && !Resolves(s, es[0]) && NobodyFinishes(Apply(s, es[0]), es[1..]))
  }

  /**
   Main result. From a saved `tool_started` on, whatever workers, crashes and humans do, no worker gets in and the
   started call stays the started call until the worker that runs it completes it or a human resolves it.
   */
  lemma {:induction false} StartedToolRefused(s: State, es: seq<Event>)
    requires Inv(s) && s.row.phase == ToolStarted && Runs(s, es) && NobodyFinishes(s, es)
    ensures var t := Run(s, es);
      t.row.phase == ToolStarted && t.row.call == s.row.call && t.row.saved == s.row.saved && t.issued == s.issued
    decreases |es|
  {
    if es != [] {
      StartedToolStep(s, es[0]);
      InvStep(s, es[0]);
      StartedToolRefused(Apply(s, es[0]), es[1..]);
    }
  }

  // ---- how often a task is taken over -----------------------------------------------

  /** A human answers or resolves. */
  predicate Helps(s: State, e: Event)
    requires Next(s, e)
  {
    (e.Answer? || e.Resolve?) && Apply(s, e).row != s.row
  }

  function Helped(s: State, es: seq<Event>): nat
    requires Runs(s, es)
    decreases |es|
  {
    if es == [] then 0 else (if Helps(s, es[0]) then 1 else 0) + Helped(Apply(s, es[0]), es[1..])
  }

  /** The next claim is not a recovery: the task waits, and nothing is stored that a worker or an error left. */
  function Unused(r: Row): nat {
    if r.status == Pending && !r.replied then 1 else 0
  }

  lemma ClaimsCount(s: State, e: Event)
    requires Next(s, e) && s.row.recoveries <= 3
    ensures Apply(s, e).row.recoveries <= 3
    ensures var t := Apply(s, e);
      t.issued + Unused(t.row) + s.row.recoveries <=
      s.issued + Unused(s.row) + t.row.recoveries + if Helps(s, e) then 1 else 0
  {
  }

  lemma {:induction false} ClaimsCounted(s: State, es: seq<Event>)
    requires Runs(s, es) && s.row.recoveries <= 3
    ensures var t := Run(s, es);
      t.row.recoveries <= 3 &&
      t.issued + Unused(t.row) + s.row.recoveries <= s.issued + Unused(s.row) + t.row.recoveries + Helped(s, es)
    decreases |es|
  {
    if es != [] {
      ClaimsCount(s, es[0]);
      ClaimsCounted(Apply(s, es[0]), es[1..]);
    }
  }

  /** Main result. Over all crashes and errors a task is claimed at most four times more than humans help it on. */
  lemma ClaimsBounded(es: seq<Event>)
    requires Runs(START, es)
    ensures Run(START, es).issued <= 4 + Helped(START, es)
  {
    ClaimsCounted(START, es);
  }

  /** A task that has ended is never touched again, and nobody works on it with a lease. */
  lemma {:induction false} EndedForEver(s: State, es: seq<Event>)
    requires Runs(s, es) && s.row.status in {Completed, Failed, Cancelled}
    ensures Run(s, es).row == s.row && Run(s, es).issued == s.issued && Run(s, es).workers.Keys <= s.workers.Keys
    decreases |es|
  {
    if es != [] {
      EndedForEver(Apply(s, es[0]), es[1..]);
    }
  }
}
