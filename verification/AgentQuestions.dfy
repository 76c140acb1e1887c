/**
 When a question is asked again: `ask_user` runs without a checkpoint, so only a suspension on it, an answer or a
 failure that was saved keeps the next worker from asking it once more.
 */
module AgentQuestions {
  import opened Prelude
  import opened AgentProtocol
  import opened AgentResults

  // ---- one worker asks a question once ----------------------------------------------

  /** Whatever a live worker has asked is of an earlier turn, or remembered. */
  predicate Remembered(s: State, q: Question) {
    q.token < s.issued &&
    (q.token in s.workers ==>
       var l := s.workers[q.token];
       q.site.turn < |l.turns| && (q.site.turn == Here(l) ==> q.site.place in l.asked))
  }

  predicate AskedOk(s: State) {
    && (forall k :: k in s.workers ==> k < s.issued)
    && (forall i :: 0 <= i < |s.asked| ==> Remembered(s, s.asked[i]))
    && (forall i, j :: 0 <= i < j < |s.asked| ==> s.asked[i] != s.asked[j])
  }

  lemma RememberedStays(s: State, e: Event, q: Question)
    requires Next(s, e) && Remembered(s, q)
    ensures Remembered(Apply(s, e), q)
  {
  }

  lemma AskedStep(s: State, e: Event)
    requires AskedOk(s) && Next(s, e)
    ensures AskedOk(Apply(s, e))
  {
    var s' := Apply(s, e);
    forall i | 0 <= i < |s'.asked|
      ensures Remembered(s', s'.asked[i])
    {
      if i < |s.asked| { RememberedStays(s, e, s.asked[i]); }
    }
  }

  lemma {:induction false} AskedRun(s: State, es: seq<Event>)
    requires AskedOk(s) && Runs(s, es)
    ensures AskedOk(Run(s, es))
    decreases |es|
  {
    if es != [] {
      AskedStep(s, es[0]);
      AskedRun(Apply(s, es[0]), es[1..]);
    }
  }

  /**
   Main result. Over all runs no worker asks the same question twice: whoever repeats a question is another worker,
   with a claim of its own.
   */
  lemma AskedByDifferentClaims(es: seq<Event>)
    requires Runs(START, es)
    ensures var v := Run(START, es).asked; forall i, j :: 0 <= i < j < |v| ==> v[i] != v[j]
  {
    AskedRun(START, es);
  }

  // ---- when a question can be asked (again) -----------------------------------------

  predicate Asks(s: State, e: Event, x: Site) {
    e.Do? && e.act == Ask(x.place) && Next(s, e) && SiteOf(s.workers[e.token], x.place) == x
  }

  /** Some continuation asks `x`. */
  ghost predicate CanBeAsked(s: State, x: Site) {
    exists es, e :: Runs(s, es) && Asks(Run(s, es), e, x)
  }

  /** `x` is an open question of the last turn. */
  predicate OpenAt(turns: Transcript, x: Site) {
    |turns| == x.turn + 1 && turns[x.turn].author == x.author && OpenQuestion(turns, x.place)
  }

  predicate Leases(r: Row, k: Token) {
    r.status == Running && r.lease.Some? && r.lease.value.token == k
  }

  /** Worker `k` has `x` before it. A worker in the middle of another call gets there only with its lease. */
  predicate WillAsk(s: State, k: Token, x: Site)
    requires k in s.workers
  {
    var l := s.workers[k];
    && OpenAt(l.turns, x) && x.place !in l.asked
    && (l.point.Ready? || l.point.Asked? ||
        (Busy(l) && Leases(s.row, k) && l.point.id != l.turns[x.turn].calls[x.place].id))
  }

  /** The task may still be claimed by a new worker, perhaps after an answer or a resolution. */
  predicate Claimable(r: Row) {
    !Over(r.status) && r.recoveries < MAX_RECOVERIES && (r.status == Uncertain ==> r.phase == ToolStarted)
  }

  /** What the next answer or resolution will finish. */
  predicate Settles(r: Row, id: nat) {
    r.call == id && (r.status == Suspended || r.phase == ToolStarted)
  }

  /** The saved transcript lets a new worker come upon `x`. */
  predicate Repeatable(r: Row, x: Site) {
    Claimable(r) && OpenAt(r.saved, x) && !Settles(r, r.saved[x.turn].calls[x.place].id)
  }

  /** `x` belongs to a saved turn. */
  predicate Saved(r: Row, x: Site) {
    x.turn < |r.saved| && r.saved[x.turn].author == x.author
  }

  predicate MayAsk(s: State, x: Site) {
    Repeatable(s.row, x) || exists k :: k in s.workers && WillAsk(s, k, x)
  }

  // ---- turns are known by their authors ---------------------------------------------

  predicate AuthorOk(s: State, k: Token, i: nat) {
    k < s.issued && (k in s.workers ==> i < |s.workers[k].turns|)
  }

  /** Every turn has an author that was issued and, while it works, is not behind that turn. */
  predicate AuthorsOk(s: State, turns: Transcript) {
    forall i :: 0 <= i < |turns| ==> AuthorOk(s, turns[i].author, i)
  }

  /** The saved transcript shows who received which of its turns. */
  predicate SavedOk(r: Row, l: Local) {
    |r.saved| <= |l.turns| && forall i :: 0 <= i < |r.saved| ==> l.turns[i].author == r.saved[i].author
  }

  predicate SitesOk(s: State) {
    && Inv(s) && AuthorsOk(s, s.row.saved)
    && WorkersKnown(s) && HoldersSaved(s)
    && (s.row.status == Suspended ==> s.row.phase == WaitingUser)
  }

  predicate WorkersKnown(s: State) {
    forall k :: k in s.workers ==> s.workers[k].me == k && AuthorsOk(s, s.workers[k].turns)
  }

  predicate HoldersSaved(s: State) {
    forall k :: k in s.workers && Leases(s.row, k) ==> SavedOk(s.row, s.workers[k])
  }

  lemma AuthorsStay(s: State, e: Event, turns: Transcript)
    requires TokensOk(s) && Next(s, e) && AuthorsOk(s, turns)
    ensures AuthorsOk(Apply(s, e), turns)
  {
    forall i | 0 <= i < |turns|
      ensures AuthorOk(Apply(s, e), turns[i].author, i)
    {
      assert AuthorOk(s, turns[i].author, i);
    }
  }

  lemma StepKnown(s: State, e: Event)
    requires SitesOk(s) && Next(s, e) && e.Do?
    ensures var l := Step(s.workers[e.token], e.act); l.me == e.token && AuthorsOk(Apply(s, e), l.turns)
  {
    var s', l := Apply(s, e), Step(s.workers[e.token], e.act);
    AuthorsStay(s, e, s.workers[e.token].turns);
    forall i | 0 <= i < |l.turns|
      ensures AuthorOk(s', l.turns[i].author, i)
    {
      if i < |s.workers[e.token].turns| {
        assert AuthorOk(s', s.workers[e.token].turns[i].author, i);
      } else {
        assert l.turns[i].author == e.token;
      }
    }
  }

  lemma WorkersStayKnown(s: State, e: Event)
    requires SitesOk(s) && Next(s, e)
    ensures WorkersKnown(Apply(s, e))
  {
    var s' := Apply(s, e);
    forall k | k in s'.workers
      ensures s'.workers[k].me == k && AuthorsOk(s', s'.workers[k].turns)
    {
      if e.Do? && k == e.token {
        StepKnown(s, e);
      } else if k in s.workers {
        AuthorsStay(s, e, s.workers[k].turns);
      } else {
        AuthorsStay(s, e, s.row.saved);
      }
    }
  }

  /** An answer or a resolution leaves the authors of the saved turns as they are. */
  lemma FinishedAuthors(s: State, turns: Transcript, id: nat)
    requires AuthorsOk(s, turns) && turns != []
    ensures AuthorsOk(s, Finish(turns, id))
  {
    var done := Finish(turns, id);
    forall i | 0 <= i < |done|
      ensures AuthorOk(s, done[i].author, i)
    {
      assert AuthorOk(s, turns[i].author, i);
    }
  }

  lemma SavedStaysKnown(s: State, e: Event)
    requires SitesOk(s) && Next(s, e)
    ensures AuthorsOk(Apply(s, e), Apply(s, e).row.saved)
  {
    AuthorsStay(s, e, s.row.saved);
    if e.Do? {
      StepKnown(s, e);
    } else if (e.Answer? || e.Resolve?) && s.row.saved != [] {
      FinishedAuthors(Apply(s, e), s.row.saved, s.row.call);
    }
  }

  lemma HoldersStaySaved(s: State, e: Event)
    requires SitesOk(s) && Next(s, e)
    ensures HoldersSaved(Apply(s, e))
  {
    var s' := Apply(s, e);
    forall k | k in s'.workers && Leases(s'.row, k)
      ensures SavedOk(s'.row, s'.workers[k])
    {
      if k in s.workers && Leases(s.row, k) { assert SavedOk(s.row, s.workers[k]); }
    }
  }

  lemma SitesStep(s: State, e: Event)
    requires SitesOk(s) && Next(s, e)
    ensures SitesOk(Apply(s, e))
  {
    InvStep(s, e);
    WorkersStayKnown(s, e);
    SavedStaysKnown(s, e);
    HoldersStaySaved(s, e);
  }

  // ---- nothing but the condition leads to a question --------------------------------

  lemma ClaimBack(s: State, now: Time, x: Site)
    requires SitesOk(s) && MayAsk(Apply(s, Claim(now)), x)
    ensures MayAsk(s, x)
  {
    var s' := Apply(s, Claim(now));
    if !Repeatable(s.row, x) {
      assert !Repeatable(s'.row, x);
      var k :| k in s'.workers && WillAsk(s', k, x);
      assert k in s.workers && WillAsk(s, k, x);
    }
  }

  lemma OthersBack(s: State, e: Event, x: Site)
    requires SitesOk(s) && Next(s, e) && !e.Claim? && !e.Do? && MayAsk(Apply(s, e), x)
    ensures MayAsk(s, x)
  {
    var s' := Apply(s, e);
    if !Repeatable(s'.row, x) {
      var k :| k in s'.workers && WillAsk(s', k, x);
      assert k in s.workers && WillAsk(s, k, x);
    } else if e.Answer? || e.Resolve? {
      FinishBack(s.row, s'.row, x);
    }
  }

  lemma FinishBack(r: Row, r': Row, x: Site)
    requires r' == AnswerRow(r) || r' == ResolveRow(r)
    requires Repeatable(r', x)
    ensures Repeatable(r, x)
  {
  }

  /** A saving worker leaves a question open only if it was open in the saved transcript before. */
  lemma SaveBack(s: State, e: Event, x: Site)
    requires SitesOk(s) && Next(s, e) && e.Do? && Saves(e.act) && Saved(s.row, x)
    requires Repeatable(Apply(s, e).row, x)
    ensures Repeatable(s.row, x)
  {
    var l := s.workers[e.token];
    assert HolderOk(s.row, l);
    assert |s.row.saved| <= |l.turns|;
    assert !e.act.Receive?;
    assert |l.turns| == x.turn + 1;
  }

  lemma WorkerBack(s: State, e: Event, x: Site)
    requires SitesOk(s) && Next(s, e) && e.Do? && Saved(s.row, x)
    requires WillAsk(Apply(s, e), e.token, x)
    ensures MayAsk(s, x)
  {
    var l, l' := s.workers[e.token], Apply(s, e).workers[e.token];
    assert AuthorOk(s, s.row.saved[x.turn].author, x.turn);
    if e.act.Receive? || e.act.Supersede? {
      assert false;
    } else {
      assert WillAsk(s, e.token, x);
    }
  }

  lemma DoBack(s: State, e: Event, x: Site)
    requires SitesOk(s) && Next(s, e) && e.Do? && Saved(s.row, x) && MayAsk(Apply(s, e), x)
    ensures MayAsk(s, x)
  {
    var s' := Apply(s, e);
    if Repeatable(s'.row, x) {
      if Saves(e.act) { SaveBack(s, e, x); }
    } else {
      var k :| k in s'.workers && WillAsk(s', k, x);
      if k == e.token {
        WorkerBack(s, e, x);
      } else {
        assert WillAsk(s, k, x);
      }
    }
  }

  lemma MayAskBack(s: State, e: Event, x: Site)
    requires SitesOk(s) && Next(s, e) && Saved(s.row, x) && MayAsk(Apply(s, e), x)
    ensures MayAsk(s, x)
  {
    if e.Do? {
      DoBack(s, e, x);
    } else if e.Claim? {
      ClaimBack(s, e.now, x);
    } else {
      OthersBack(s, e, x);
    }
  }

  lemma SavedStays(s: State, e: Event, x: Site)
    requires SitesOk(s) && Next(s, e) && Saved(s.row, x)
    ensures Saved(Apply(s, e).row, x)
  {
    if e.Do? && Saves(e.act) {
      var l := s.workers[e.token];
      assert SavedOk(s.row, l);
      assert |l.turns| <= |Step(l, e.act).turns| && Step(l, e.act).turns[x.turn].author == l.turns[x.turn].author;
    }
  }

  lemma {:induction false} AskedMayAsk(s: State, es: seq<Event>, e: Event, x: Site)
    requires SitesOk(s) && Saved(s.row, x) && Runs(s, es) && Asks(Run(s, es), e, x)
    ensures MayAsk(s, x)
    decreases |es|
  {
    if es == [] {
      assert WillAsk(s, e.token, x);
    } else {
      SitesStep(s, es[0]);
      SavedStays(s, es[0], x);
      AskedMayAsk(Apply(s, es[0]), es[1..], e, x);
      MayAskBack(s, es[0], x);
    }
  }

  // ---- the condition leads to a question --------------------------------------------

  lemma AskNow(s: State, e: Event, x: Site)
    requires Asks(s, e, x)
    ensures CanBeAsked(s, x)
  {
    assert Runs(s, []) && Run(s, []) == s;
  }

  lemma AskLater(s: State, e: Event, x: Site)
    requires Next(s, e) && CanBeAsked(Apply(s, e), x)
    ensures CanBeAsked(s, x)
  {
    var es, a :| Runs(Apply(s, e), es) && Asks(Run(Apply(s, e), es), a, x);
    assert ([e] + es)[1..] == es;
    assert Runs(s, [e] + es) && Run(s, [e] + es) == Run(Apply(s, e), es);
  }

  lemma ReadyAsks(s: State, k: Token, x: Site)
    requires k in s.workers && WillAsk(s, k, x) && s.workers[k].point.Ready?
    ensures CanBeAsked(s, x)
  {
    AskNow(s, Do(k, Ask(x.place), 0), x);
  }

  lemma NotedAsks(s: State, k: Token, x: Site)
    requires k in s.workers && WillAsk(s, k, x) && s.workers[k].point.Asked?
    ensures CanBeAsked(s, x)
  {
    var e := Do(k, Note, 0);
    ReadyAsks(Apply(s, e), k, x);
    AskLater(s, e, x);
  }

  lemma InvokedAsks(s: State, k: Token, x: Site)
    requires SitesOk(s) && k in s.workers && WillAsk(s, k, x) && s.workers[k].point.Invoked?
    ensures CanBeAsked(s, x)
  {
    var e := Do(k, Complete, s.row.lease.value.expires - 1);
    ReadyAsks(Apply(s, e), k, x);
    AskLater(s, e, x);
  }

  lemma WorkerAsks(s: State, k: Token, x: Site)
    requires SitesOk(s) && k in s.workers && WillAsk(s, k, x)
    ensures CanBeAsked(s, x)
  {
    if s.workers[k].point.Ready? {
      ReadyAsks(s, k, x);
    } else if s.workers[k].point.Asked? {
      NotedAsks(s, k, x);
    } else if s.workers[k].point.Invoked? {
      InvokedAsks(s, k, x);
    } else {
      var e := Do(k, Invoke, 0);
      SitesStep(s, e);
      InvokedAsks(Apply(s, e), k, x);
      AskLater(s, e, x);
    }
  }

  function Expiry(r: Row): Time {
    if r.lease.Some? then r.lease.value.expires else 0
  }

  /** A new worker is let in and comes upon `x`. */
  lemma ClaimAsks(s: State, x: Site)
    requires SitesOk(s) && Repeatable(s.row, x) && s.row.phase != ToolStarted && s.row.status != Suspended
    ensures CanBeAsked(s, x)
  {
    var e := Claim(Expiry(s.row));
    var s' := Apply(s, e);
    assert WillAsk(s', s.issued, x);
    ReadyAsks(s', s.issued, x);
    AskLater(s, e, x);
  }

  lemma UncertainAsks(s: State, x: Site)
    requires SitesOk(s) && Repeatable(s.row, x) && s.row.phase == ToolStarted && s.row.status == Uncertain
    ensures CanBeAsked(s, x)
  {
    SitesStep(s, Resolve);
    ClaimAsks(Apply(s, Resolve), x);
    AskLater(s, Resolve, x);
  }

  lemma RowAsks(s: State, x: Site)
    requires SitesOk(s) && Repeatable(s.row, x)
    ensures CanBeAsked(s, x)
  {
    if s.row.status == Suspended {
      SitesStep(s, Answer);
      ClaimAsks(Apply(s, Answer), x);
      AskLater(s, Answer, x);
    } else if s.row.phase != ToolStarted {
      ClaimAsks(s, x);
    } else if s.row.status == Uncertain {
      UncertainAsks(s, x);
    } else {
      var e := Claim(Expiry(s.row));
      SitesStep(s, e);
      UncertainAsks(Apply(s, e), x);
      AskLater(s, e, x);
    }
  }

  lemma {:induction false} SitesRun(s: State, es: seq<Event>)
    requires SitesOk(s) && Runs(s, es)
    ensures SitesOk(Run(s, es))
    decreases |es|
  {
    if es != [] {
      SitesStep(s, es[0]);
      SitesRun(Apply(s, es[0]), es[1..]);
    }
  }

  /**
   Main result. After any run, a question of a saved turn can be asked in some continuation if and only if a live
   worker still has it before it, or a new worker can claim the task and finds it open: it has no saved answer or
   failure, and the task is not suspended on it.
   */
  lemma AskedAgainExact(es: seq<Event>, x: Site)
    requires Runs(START, es) && Saved(Run(START, es).row, x)
    ensures CanBeAsked(Run(START, es), x) <==> MayAsk(Run(START, es), x)
  {
    var s := Run(START, es);
    SitesRun(START, es);
    if CanBeAsked(s, x) {
      var fs, e :| Runs(s, fs) && Asks(Run(s, fs), e, x);
      AskedMayAsk(s, fs, e, x);
    }
    if Repeatable(s.row, x) {
      RowAsks(s, x);
    } else if k :| k in s.workers && WillAsk(s, k, x) {
      WorkerAsks(s, k, x);
    }
  }

  /**
   A question that has been recorded is never asked again: it has a saved result or the task is suspended on it,
   and no live worker has it before it.
   */
  lemma RecordedIsAskedOnce(es: seq<Event>, x: Site, fs: seq<Event>)
    requires Runs(START, es) && Saved(Run(START, es).row, x)
    requires var s := Run(START, es); Recorded(s.row, x) && forall k :: k in s.workers ==> !WillAsk(s, k, x)
    requires Runs(Run(START, es), fs)
    ensures forall i :: |Run(START, es).asked| <= i < |Run(Run(START, es), fs).asked| ==>
      Run(Run(START, es), fs).asked[i].site != x
  {
    SitesRun(START, es);
    NeverAsked(Run(START, es), fs, x);
  }

  predicate Recorded(r: Row, x: Site) {
    Saved(r, x) && (!OpenAt(r.saved, x) || Settles(r, r.saved[x.turn].calls[x.place].id))
  }

  lemma {:induction false} NeverAsked(s: State, fs: seq<Event>, x: Site)
    requires SitesOk(s) && Saved(s.row, x) && !MayAsk(s, x) && Runs(s, fs)
    ensures |s.asked| <= |Run(s, fs).asked|
    ensures forall i :: |s.asked| <= i < |Run(s, fs).asked| ==> Run(s, fs).asked[i].site != x
    ensures forall i :: 0 <= i < |s.asked| ==> Run(s, fs).asked[i] == s.asked[i]
    decreases |fs|
  {
    if fs != [] {
      var e, s' := fs[0], Apply(s, fs[0]);
      if e.Do? && e.act.Ask? && SiteOf(s.workers[e.token], e.act.place) == x {
        assert WillAsk(s, e.token, x);
        assert false;
      }
      SitesStep(s, e);
      SavedStays(s, e, x);
      if MayAsk(s', x) { MayAskBack(s, e, x); }
      NeverAsked(s', fs[1..], x);
    }
  }

  // ---- runs that ask twice ----------------------------------------------------------

  ghost predicate Reachable(s: State) {
    exists es :: Runs(START, es) && Run(START, es) == s
  }

  lemma {:induction false} OneMore(s: State, es: seq<Event>, e: Event)
    requires Runs(s, es) && Next(Run(s, es), e)
    ensures Runs(s, es + [e]) && Run(s, es + [e]) == Apply(Run(s, es), e)
    decreases |es|
  {
    if es == [] {
      assert es + [e] == [e] && [e][1..] == [];
      assert Runs(Apply(s, e), []) && Run(Apply(s, e), []) == Apply(s, e);
    } else {
      assert (es + [e])[1..] == es[1..] + [e];
      OneMore(Apply(s, es[0]), es[1..], e);
    }
  }

  lemma Onward(s: State, e: Event, t: State)
    requires Reachable(s) && Next(s, e) && Apply(s, e) == t
    ensures Reachable(t)
  {
    var es :| Runs(START, es) && Run(START, es) == s;
    OneMore(START, es, e);
  }

  const ASKS := [Call(7, true), Call(8, true)]
  const FIRST := Site(0, 0, 0)
  const SECOND := Site(0, 0, 1)

  function Asker(me: Token, finished: set<nat>, point: Point, asked: set<nat>, question: Option<nat>): Local {
    Local(me, [Turn(0, ASKS, finished)], point, asked, question)
  }

  /** The task after worker `issued - 1` has received two questions. */
  function Asking(phase: Phase, finished: set<nat>, call: nat, recoveries: nat, workers: map<Token, Local>,
                  issued: nat, asked: seq<Question>): State
    requires issued > 0
  {
    State(Row(Running, phase, [Turn(0, ASKS, finished)], call, Some(Lease(issued - 1, 180 * issued)), recoveries,
              false),
          workers, issued, [], asked)
  }

  /** Worker 0 receives a turn with two questions. */
  lemma Received()
    ensures Reachable(Asking(ModelReceived, {}, 0, 0, map[0 := Asker(0, {}, Ready, {}, None)], 1, []))
  {
    var claimed := State(Row(Running, ModelPending, [], 0, Some(Lease(0, 180)), 0, false),
                         map[0 := Entering(0, [])], 1, [], []);
    assert Runs(START, []) && Run(START, []) == START;
    assert Reachable(claimed) by { Onward(START, Claim(0), claimed); }
    assert [] + [Turn(0, ASKS, {})] == [Turn(0, ASKS, {})];
    Onward(claimed, Do(0, Receive(ASKS), 1),
           Asking(ModelReceived, {}, 0, 0, map[0 := Asker(0, {}, Ready, {}, None)], 1, []));
  }

  /** Worker 0 at work on its turn, with nothing saved since. */
  function Working(point: Point, asked: set<nat>, question: Option<nat>, log: seq<Question>): State {
    Asking(ModelReceived, {}, 0, 0, map[0 := Asker(0, {}, point, asked, question)], 1, log)
  }

  lemma Act(s: State, a: Act, now: Time, t: State)
    requires Reachable(s) && Next(s, Do(0, a, now)) && Apply(s, Do(0, a, now)) == t
    ensures Reachable(t)
  {
    Onward(s, Do(0, a, now), t);
  }

  const LOG1 := [Question(0, FIRST)]
  const LOG2 := [Question(0, FIRST), Question(0, SECOND)]

  /** It asks the first. */
  lemma AskedOne()
    ensures Reachable(Working(Ready, {0}, Some(7), LOG1))
  {
    Received();
    assert [] + LOG1 == LOG1 && {} + {0} == {0};
    var one := Working(Asked(7), {0}, None, LOG1);
    assert one.workers == map[0 := Asker(0, {}, Ready, {}, None)][0 := Asker(0, {}, Asked(7), {0}, None)];
    assert Reachable(one) by { Act(Working(Ready, {}, None, []), Ask(0), 2, one); }
    assert one.workers[0 := Asker(0, {}, Ready, {0}, Some(7))] == Working(Ready, {0}, Some(7), LOG1).workers;
    Act(one, Note, 3, Working(Ready, {0}, Some(7), LOG1));
  }

  predicate AskedTwiceAt(s: State, x: Site) {
    exists i, j :: 0 <= i < j < |s.asked| && s.asked[i].site == x && s.asked[j].site == x
  }

  /** The task waits for the answer to the first question, but its worker has not suspended it yet. */
  lemma WaitingSaved()
    ensures Reachable(Asking(WaitingUser, {}, 7, 0, map[], 1, LOG1))
  {
    AskedOne();
    var before, halted := Working(Ready, {0}, Some(7), LOG1), Asker(0, {}, Halted, {0}, Some(7));
    var saved := Asking(WaitingUser, {}, 7, 0, map[0 := halted], 1, LOG1);
    assert before.workers[0 := halted] == saved.workers;
    assert Reachable(saved) by { Act(before, SaveWaiting(7), 4, saved); }
    assert saved.workers - {0} == map[];
    Onward(saved, Die(0), Asking(WaitingUser, {}, 7, 0, map[], 1, LOG1));
  }

  /** A crash repeats a question, even after its `waiting_user` was saved: nothing but the suspension stops a claim. */
  lemma AskedTwice()
    ensures exists s :: Reachable(s) && AskedTwiceAt(s, FIRST)
  {
    WaitingSaved();
    var resumed := Asking(WaitingUser, {}, 7, 1, map[1 := Asker(1, {}, Ready, {}, None)], 2, LOG1);
    assert Reachable(resumed) by { Onward(Asking(WaitingUser, {}, 7, 0, map[], 1, LOG1), Claim(180), resumed); }
    var twice := Apply(resumed, Do(1, Ask(0), 181));
    assert Reachable(twice) by { Onward(resumed, Do(1, Ask(0), 181), twice); }
    assert twice.asked[0].site == FIRST && twice.asked[1].site == FIRST;
    assert AskedTwiceAt(twice, FIRST);
  }

  /** Worker 0 asks the second question as well, and suspends on the first. */
  lemma AskedBoth()
    ensures Reachable(Working(Ready, {0, 1}, Some(7), LOG2))
  {
    AskedOne();
    assert LOG1 + [Question(0, SECOND)] == LOG2 && {0} + {1} == {0, 1};
    var before, both := Working(Ready, {0}, Some(7), LOG1), Working(Asked(8), {0, 1}, Some(7), LOG2);
    assert before.workers[0 := Asker(0, {}, Asked(8), {0, 1}, Some(7))] == both.workers;
    assert Reachable(both) by { Act(before, Ask(1), 4, both); }
    assert both.workers[0 := Asker(0, {}, Ready, {0, 1}, Some(7))] == Working(Ready, {0, 1}, Some(7), LOG2).workers;
    Act(both, Note, 5, Working(Ready, {0, 1}, Some(7), LOG2));
  }

  /** The task is suspended on the first question. */
  function OnFirst(status: Status, phase: Phase, finished: set<nat>): State {
    State(Row(status, phase, [Turn(0, ASKS, finished)], 7, None, 0, status == Suspended),
          map[], 1, [], LOG2)
  }

  lemma SuspendedOnFirst()
    ensures Reachable(OnFirst(Suspended, WaitingUser, {}))
  {
    AskedBoth();
    var before, halted := Working(Ready, {0, 1}, Some(7), LOG2), Asker(0, {}, Halted, {0, 1}, Some(7));
    var saved := Asking(WaitingUser, {}, 7, 0, map[0 := halted], 1, LOG2);
    assert before.workers[0 := halted] == saved.workers;
    assert Reachable(saved) by { Act(before, SaveWaiting(7), 6, saved); }
    assert saved.workers - {0} == map[];
    Onward(saved, End(0, Suspended, 7), OnFirst(Suspended, WaitingUser, {}));
  }

  /** Without any crash: of two questions in one turn the second is asked again after the answer to the first. */
  lemma SecondQuestionRepeats()
    ensures exists s :: Reachable(s) && AskedTwiceAt(s, SECOND) && s.row.recoveries == 0
  {
    SuspendedOnFirst();
    assert {} + {7} == {7};
    var answered := OnFirst(Pending, ToolDone, {7});
    assert Reachable(answered) by { Onward(OnFirst(Suspended, WaitingUser, {}), Answer, answered); }
    var resumed := Apply(answered, Claim(8));
    assert Reachable(resumed) by { Onward(answered, Claim(8), resumed); }
    assert resumed.workers[1] == Asker(1, {7}, Ready, {}, None);
    var twice := Apply(resumed, Do(1, Ask(1), 9));
    assert Reachable(twice) by { Onward(resumed, Do(1, Ask(1), 9), twice); }
    assert twice.asked[1].site == SECOND && twice.asked[2].site == SECOND;
    assert AskedTwiceAt(twice, SECOND);
  }
}
