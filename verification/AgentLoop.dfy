/**
 The agent loop itself, without a step controller. Replies of the model, hooks, tools, budgets and the
 evaluator are arbitrary: every `*` is a choice of the environment, and all of them are returned in the order in which
 the loop hears them. The loop is proved to end, to keep its bounds, to do only what `AgentProtocol` allows a worker to
 do, and to end for the reason that it heard last.
 */
module AgentLoop {
  import opened Prelude
  import opened AgentProtocol

  datatype Limits = Limits(iterations: nat, retries: nat, evalRetries: nat)

  /** A fresh task, or the checkpoint a worker resumes from. */
  datatype Start =
    | Fresh
    | Resumed(phase: Phase, turns: Transcript, iteration: nat, evalRetries: nat, verdict: Verdict)

  datatype Ending =
    | Replied | Returned | Stopped | BudgetSpent | ProviderError | CannotConclude
    | AwaitingHuman(id: nat) | HandedOver | LimitReached | Raised

  datatype Counts = Counts(rounds: nat, requests: nat, critics: nat, passes: nat)

  /** `lastRequest`: the budget leaves no request but the evaluator's. */
  datatype Reply = Answer(calls: seq<Call>) | Exhausted | Interrupted | Failure(transient: bool, lastRequest: bool)

  datatype Hook = Proceed | Feedback | ReturnEarly | Refuse

  /** `spare`: neither repeated operations nor the budget forbid another round. */
  datatype Verdict = Verdict(success: bool, retryable: bool, spare: bool)

  /** Everything the environment says to the loop, in the order in which the loop hears it. */
  datatype Heard =
    | Check(cancelled: bool)
    | Saved(kept: bool)                     // a checkpoint, refused when the lease is lost
    | BeforeModel(hook: Hook)
    | Model(reply: Reply)
    | AfterModel(hook: Hook)
    | Spent(spent: bool)                    // asked before tools run
    | BeforeTool(hook: Hook)
    | Ran(raised: bool)
    | AfterTool(hook: Hook)
    | Judged(verdict: Verdict, kept: bool)  // a verdict, and whether its checkpoint was kept
    | Critic(kept: bool)                    // the checkpoint of a critic round

  /** A failed answer may be corrected, as far as the evaluator and the budget are concerned. */
  predicate Correctable(v: Verdict) {
    !v.success && v.retryable && v.spare
  }

  /** What ends the loop at once, and how. */
  function EndingOf(h: Heard): Option<Ending> {
    match h
    case Check(cancelled) => if cancelled then Some(Stopped) else None
    case Saved(kept) => if kept then None else Some(Raised)
    case Critic(kept) => if kept then None else Some(Raised)
    case Ran(raised) => if raised then Some(Raised) else None
    case BeforeModel(hook) => if hook.ReturnEarly? || hook.Refuse? then Some(Returned) else None
    case AfterModel(hook) => if hook.ReturnEarly? || hook.Refuse? then Some(Returned) else None
    case BeforeTool(hook) => if hook.ReturnEarly? then Some(Returned) else None
    case AfterTool(hook) => if hook.ReturnEarly? then Some(Returned) else None
    case Spent(spent) => if spent then Some(CannotConclude) else None
    case Model(reply) =>
      if reply.Exhausted? then Some(BudgetSpent) else if reply.Interrupted? then Some(Stopped) else None
    case Judged(v, kept) =>
      if !kept then Some(Raised) else if v.success then Some(Replied) else if Correctable(v) then None
        else Some(HandedOver)
  }

  /** A failure of the provider that is not worth another attempt. */
  predicate Hopeless(h: Heard) {
    h.Model? && h.reply.Failure? && (!h.reply.transient || h.reply.lastRequest)
  }

  /** Nothing that was heard ends the loop. */
  predicate Quiet(heard: seq<Heard>) {
    forall i :: 0 <= i < |heard| ==> EndingOf(heard[i]).None? && !Hopeless(heard[i])
  }

  /** The last thing heard, or nothing of consequence. */
  function Last(heard: seq<Heard>): Heard {
    if heard == [] then Saved(true) else heard[|heard| - 1]
  }

  /**
   The ending is the one that the last thing heard asks for, and nothing before it asked for one; behind a hopeless
   failure only the cancellation is checked.
   */
  predicate Explains(heard: seq<Heard>, end: Option<Ending>) {
    && (forall i :: 0 <= i < |heard| - 1 ==> EndingOf(heard[i]).None?)
    && (forall i :: 0 <= i < |heard| - 2 ==> !Hopeless(heard[i]))
    && (|heard| >= 2 && Hopeless(heard[|heard| - 2]) ==> end in {Some(Stopped), Some(ProviderError)})
    && !Hopeless(Last(heard))
    && (EndingOf(Last(heard)).Some? ==> end == EndingOf(Last(heard)))
    && (end.Some? && end.value in {Stopped, Raised, BudgetSpent, Returned} ==> EndingOf(Last(heard)) == end)
    && (end.None? ==> Quiet(heard))
  }

  /** A kept verdict on an answer that may be corrected. */
  predicate AsksForCritic(h: Heard) {
    h.Judged? && h.kept && Correctable(h.verdict)
  }

  /** Critic rounds follow directly on the verdicts that ask for them, and on nothing else. */
  predicate CriticsFollow(heard: seq<Heard>) {
    && (forall i :: 0 < i < |heard| ==> (heard[i].Critic? <==> AsksForCritic(heard[i - 1])))
    && (heard != [] ==> !heard[0].Critic?)
  }

  predicate Unjudged(heard: seq<Heard>) {
    forall i :: 0 <= i < |heard| ==> !heard[i].Judged?
  }

  /** What is true of everything heard up to an ending, or up to now. */
  predicate Report(heard: seq<Heard>, end: Option<Ending>, evaluator: bool) {
    && Explains(heard, end) && CriticsFollow(heard) && (evaluator || Unjudged(heard))
    && (end.None? ==> !AsksForCritic(Last(heard)))
  }

  lemma ReportOn(a: seq<Heard>, b: seq<Heard>, end: Option<Ending>, evaluator: bool)
    requires Report(a, None, evaluator) && Report(b, end, evaluator)
    ensures Report(a + b, end, evaluator)
    ensures b != [] ==> Last(a + b) == Last(b)
  {
    ExplainsOn(a, b, end);
    var all := a + b;
    forall i | 0 < i < |all|
      ensures all[i].Critic? <==> AsksForCritic(all[i - 1])
    {
      if i == |a| { assert all[i] == b[0] && all[i - 1] == Last(a); }
    }
  }

  lemma ExplainsOn(a: seq<Heard>, b: seq<Heard>, end: Option<Ending>)
    requires Quiet(a) && Explains(b, end)
    ensures Explains(a + b, end)
  {
  }

  /** Requests of the round that is under way. */
  function Attempts(heard: seq<Heard>): nat {
    if heard == [] || Last(heard).BeforeModel? then 0
    else Attempts(heard[..|heard| - 1]) + if Last(heard).Model? then 1 else 0
  }

  lemma {:induction false} AttemptsConcat(a: seq<Heard>, b: seq<Heard>)
    ensures Attempts(a + b) == Attempts(b) + if Count(b, IsRound) == 0 then Attempts(a) else 0
    decreases |b|
  {
    if b == [] {
      assert a + b == a;
    } else {
      assert (a + b)[..|a + b| - 1] == a + b[..|b| - 1];
      AttemptsConcat(a, b[..|b| - 1]);
    }
  }

  /** The provider was given up: its last failure was hopeless, or the round had as many attempts as are allowed. */
  predicate GaveUp(heard: seq<Heard>, retries: nat) {
    && |heard| >= 2 && Last(heard) == Check(false)
    && heard[|heard| - 2].Model? && heard[|heard| - 2].reply.Failure?
    && (Hopeless(heard[|heard| - 2]) || Attempts(heard) == retries + 1)
  }

  function Count(heard: seq<Heard>, f: Heard -> bool): nat {
    if heard == [] then 0 else Count(heard[..|heard| - 1], f) + if f(heard[|heard| - 1]) then 1 else 0
  }

  lemma {:induction false} CountConcat(a: seq<Heard>, b: seq<Heard>, f: Heard -> bool)
    ensures Count(a + b, f) == Count(a, f) + Count(b, f)
    decreases |b|
  {
    if b == [] {
      assert a + b == a;
    } else {
      var n := |b| - 1;
      assert (a + b)[..|a + b| - 1] == a + b[..n];
      CountConcat(a, b[..n], f);
    }
  }

  function IsRequest(h: Heard): bool { h.Model? }

  function IsRound(h: Heard): bool { h.BeforeModel? }

  function IsCritic(h: Heard): bool { h == Critic(true) }

  lemma CountsConcat(a: seq<Heard>, b: seq<Heard>)
    ensures Count(a + b, IsRequest) == Count(a, IsRequest) + Count(b, IsRequest)
    ensures Count(a + b, IsRound) == Count(a, IsRound) + Count(b, IsRound)
    ensures Count(a + b, IsCritic) == Count(a, IsCritic) + Count(b, IsCritic)
  {
    CountConcat(a, b, IsRequest);
    CountConcat(a, b, IsRound);
    CountConcat(a, b, IsCritic);
  }

  /** Nothing that starts a request, a round or a critic round. */
  predicate Uncounted(heard: seq<Heard>) {
    Count(heard, IsRequest) == 0 && Count(heard, IsRound) == 0 && Count(heard, IsCritic) == 0
  }

  lemma {:induction false} ToolsUncounted(heard: seq<Heard>)
    requires forall i :: 0 <= i < |heard| ==> !heard[i].Model? && !heard[i].BeforeModel? && !heard[i].Critic?
    ensures Uncounted(heard)
    decreases |heard|
  {
    if heard != [] { ToolsUncounted(heard[..|heard| - 1]); }
  }

  function SavedTurns(start: Start): Transcript {
    if start.Resumed? then start.turns else []
  }

  function Entry(me: Token, saved: Start): Local {
    Entering(me, SavedTurns(saved))
  }

  /** A worker that resumes before the model's answer repeats that round. */
  function FirstIteration(saved: Start): nat {
    if saved.Fresh? then 0
    else if saved.phase == ModelPending && saved.iteration > 0 then saved.iteration - 1
    else saved.iteration
  }

  function CriticsBefore(saved: Start): nat {
    if saved.Resumed? then saved.evalRetries else 0
  }

  function Left(bound: nat, used: nat): nat {
    if used < bound then bound - used else 0
  }

  lemma {:induction false} FollowsOn(l: Local, acts: seq<Act>, m: Local, a: Act)
    requires Follows(l, acts, m) && CanAct(m, a)
    ensures Follows(l, acts + [a], Step(m, a))
    decreases |acts|
  {
    if acts == [] {
      assert acts + [a] == [a] && [a][1..] == [];
    } else {
      assert (acts + [a])[1..] == acts[1..] + [a];
      FollowsOn(Step(l, acts[0]), acts[1..], m, a);
    }
  }

  lemma {:induction false} FollowsThen(l: Local, acts: seq<Act>, m: Local, more: seq<Act>, t: Local)
    requires Follows(l, acts, m) && Follows(m, more, t)
    ensures Follows(l, acts + more, t)
    decreases |acts|
  {
    if acts == [] {
      assert acts + more == more;
    } else {
      assert (acts + more)[1..] == acts[1..] + more;
      FollowsThen(Step(l, acts[0]), acts[1..], m, more, t);
    }
  }

  /** What is heard while the provider is asked. */
  predicate AboutRequests(heard: seq<Heard>) {
    forall i :: 0 <= i < |heard| ==> heard[i].Model? || heard[i].Check?
  }

  lemma {:induction false} RequestsCount(heard: seq<Heard>)
    requires AboutRequests(heard)
    ensures Count(heard, IsRound) == 0 && Count(heard, IsCritic) == 0 && Attempts(heard) == Count(heard, IsRequest)
    decreases |heard|
  {
    if heard != [] { RequestsCount(heard[..|heard| - 1]); }
  }

  /** A request, and the checks for cancellation behind it. */
  predicate OneAttempt(said: seq<Heard>) {
    said != [] && said[0].Model? && forall i :: 0 < i < |said| ==> said[i].Check?
  }

  lemma {:induction false} AttemptCounts(heard: seq<Heard>, said: seq<Heard>)
    requires OneAttempt(said)
    ensures Count(heard + said, IsRequest) == Count(heard, IsRequest) + 1
    decreases |said|
  {
    assert (heard + said)[..|heard + said| - 1] == heard + said[..|said| - 1];
    if |said| == 1 {
      assert heard + said[..0] == heard;
    } else {
      AttemptCounts(heard, said[..|said| - 1]);
    }
  }

  /** One request: its answer, the ending it leads to, or neither when another attempt follows. */
  method Attempt(last: bool) returns (calls: Option<seq<Call>>, end: Option<Ending>, said: seq<Heard>)
    ensures OneAttempt(said) && Explains(said, end)
    ensures calls.Some? ==> end.None? && said == [Model(Reply.Answer(calls.value))]
    ensures calls.None? && end.None? ==> !last
    ensures end.Some? ==> end.value in {BudgetSpent, Stopped, ProviderError}
    ensures end == Some(ProviderError) ==>
      |said| == 2 && said[0].reply.Failure? && said[1] == Check(false) && (Hopeless(said[0]) || last)
  {
    var reply: Reply := *;
    calls, end, said := None, None, [Model(reply)];
    match reply
    case Answer(c) => calls := Some(c);
    case Exhausted => end := Some(BudgetSpent);
    case Interrupted => end := Some(Stopped);
    case Failure(transient, lastRequest) =>
      var cancelled: bool, cancelledAsleep: bool := *, *;
      said := [Model(reply), Check(cancelled)];
      if cancelled { return None, Some(Stopped), said; }
      if !transient || last || lastRequest { return None, Some(ProviderError), said; }
      said := [Model(reply), Check(false), Check(cancelledAsleep)];
      if cancelledAsleep { end := Some(Stopped); }
  }

  /** Another attempt behind earlier ones that were all worth repeating. */
  lemma AttemptHeard(heard: seq<Heard>, said: seq<Heard>, end: Option<Ending>, retries: nat)
    requires Quiet(heard) && AboutRequests(heard) && OneAttempt(said) && Explains(said, end)
    requires end == Some(ProviderError) ==>
      |said| == 2 && said[0].reply.Failure? && said[1] == Check(false) &&
      (Hopeless(said[0]) || Count(heard, IsRequest) == retries)
    ensures Explains(heard + said, end) && AboutRequests(heard + said) && Last(heard + said) == Last(said)
    ensures Count(heard + said, IsRequest) == Count(heard, IsRequest) + 1
    ensures end == Some(ProviderError) ==> GaveUp(heard + said, retries)
  {
    AttemptCounts(heard, said);
    ExplainsOn(heard, said, end);
    RequestsCount(heard + said);
  }

  /** The provider loop of one round: the calls of the answer, or `None` with the ending. */
  method AskModel(retries: nat)
    returns (calls: Option<seq<Call>>, end: Option<Ending>, requests: nat, heard: seq<Heard>)
    ensures 1 <= requests <= retries + 1 && requests == Count(heard, IsRequest)
    ensures calls.None? ==> end.Some? && end.value in {BudgetSpent, Stopped, ProviderError}
    ensures Explains(heard, end) && AboutRequests(heard) && heard != []
    ensures calls.Some? ==> end.None? && Last(heard) == Model(Reply.Answer(calls.value))
    ensures end == Some(ProviderError) ==> GaveUp(heard, retries)
  {
    requests, heard := 0, [];
    calls, end := None, None;
    while calls.None? && end.None?
      invariant calls.None? && end.None? ==> requests <= retries
      invariant requests == Count(heard, IsRequest) <= retries + 1
      invariant calls.Some? || end.Some? ==> requests >= 1
      invariant Explains(heard, end) && AboutRequests(heard)
      invariant calls.Some? ==> end.None? && Last(heard) == Model(Reply.Answer(calls.value))
      invariant end.Some? ==> end.value in {BudgetSpent, Stopped, ProviderError}
      invariant end == Some(ProviderError) ==> GaveUp(heard, retries)
      decreases retries + 1 - requests
    {
      var said;
      calls, end, said := Attempt(requests >= retries);
      AttemptHeard(heard, said, end, retries);
      requests, heard := requests + 1, heard + said;
    }
  }

  /** What is heard while tools run. */
  predicate AboutTools(heard: seq<Heard>) {
    forall i :: 0 <= i < |heard| ==>
      heard[i].Check? || heard[i].Saved? || heard[i].BeforeTool? || heard[i].Ran? || heard[i].AfterTool?
  }

  /** One call of the last turn: refused by a hook, asked, or started, run and completed. */
  method RunCall(l: Local, call: Call, place: nat)
    returns (m: Local, acts: seq<Act>, end: Option<Ending>, asked: bool, heard: seq<Heard>)
    requires l.point.Ready? && l.turns != [] && place < |l.turns[|l.turns| - 1].calls| && place !in l.asked
    requires call == l.turns[|l.turns| - 1].calls[place] && call.id !in l.turns[|l.turns| - 1].finished
    ensures Follows(l, acts, m)
    ensures Explains(heard, end) && AboutTools(heard)
    ensures asked ==> call.asks && end.None?
    ensures end.None? ==> m.point.Ready? && m.turns == if asked then l.turns else Finish(l.turns, call.id)
    ensures end.None? ==> m.asked <= l.asked + {place}
    ensures end.None? ==> m.question == if asked && l.question.None? then Some(call.id) else l.question
    ensures end.Some? ==> end.value in {Returned, Stopped, Raised}
  {
    var before: Hook := *;
    m, acts, end, asked, heard := l, [], None, false, [BeforeTool(before)];
    if before.Refuse? {
      var lost: bool := *;
      heard := heard + [Saved(!lost)];
      if lost { return m, acts, Some(Raised), false, heard; }
      FollowsOn(l, acts, m, Block(call.id));
      m, acts := Step(m, Block(call.id)), acts + [Block(call.id)];
      return;
    }
    if before.ReturnEarly? { return m, acts, Some(Returned), false, heard; }
    var cancelled: bool := *;
    heard := heard + [Check(cancelled)];
    if cancelled { return m, acts, Some(Stopped), false, heard; }
    var more;
    if call.asks {
      m, acts, end, asked, more := AskCall(l, call, place);
    } else {
      m, acts, end, more := UseTool(l, call);
    }
    heard := heard + more;
  }

  /** A call that is not a question: the checkpoint before it, the tool or an earlier result, and the one behind it. */
  method UseTool(l: Local, call: Call) returns (m: Local, acts: seq<Act>, end: Option<Ending>, heard: seq<Heard>)
    requires l.point.Ready? && Open(l.turns, call.id, false)
    ensures Follows(l, acts, m)
    ensures Explains(heard, end) && AboutTools(heard)
    ensures end.None? ==> m == l.(turns := Finish(l.turns, call.id))
    ensures end.Some? ==> end.value in {Returned, Raised}
  {
    m, acts, end := l, [], None;
    var lost: bool := *;
    heard := [Saved(!lost)];
    if lost { return m, acts, Some(Raised), heard; }
    FollowsOn(l, acts, m, Start(call.id));
    m, acts := Step(m, Start(call.id)), acts + [Start(call.id)];
    var reusable: bool, raises: bool := *, *;
    var run := if reusable then Reuse else Invoke;
    FollowsOn(l, acts, m, run);
    m, acts, heard := Step(m, run), acts + [run], heard + [Ran(raises)];
    if raises { return m, acts, Some(Raised), heard; }
    var lostLater: bool := *;
    heard := heard + [Saved(!lostLater)];
    if lostLater { return m, acts, Some(Raised), heard; }
    FollowsOn(l, acts, m, Complete);
    m, acts := Step(m, Complete), acts + [Complete];
    var after: Hook := *;
    heard := heard + [AfterTool(after)];
    if after.ReturnEarly? { return m, acts, Some(Returned), heard; }
  }

  /** A call of `ask_user`: a failed one is answered at once, the question of any other is kept if it is the first. */
  method AskCall(l: Local, call: Call, place: nat)
    returns (m: Local, acts: seq<Act>, end: Option<Ending>, asked: bool, heard: seq<Heard>)
    requires l.point.Ready? && OpenQuestion(l.turns, place) && place !in l.asked
    requires call == l.turns[|l.turns| - 1].calls[place]
    ensures Follows(l, acts, m)
    ensures Explains(heard, end) && AboutTools(heard)
    ensures asked ==> end.None?
    ensures end.None? ==> m.point.Ready? && m.turns == if asked then l.turns else Finish(l.turns, call.id)
    ensures end.None? ==> m.asked <= l.asked + {place}
    ensures end.None? ==> m.question == if asked && l.question.None? then Some(call.id) else l.question
    ensures end.Some? ==> end.value in {Returned, Raised}
  {
    m, acts, end, asked := l, [], None, false;
    FollowsOn(l, acts, m, Ask(place));
    m, acts := Step(m, Ask(place)), acts + [Ask(place)];
    var raises: bool := *;
    heard := [Ran(raises)];
    if raises { return m, acts, Some(Raised), false, heard; }
    var after: Hook, failed: bool := *, *;
    heard := heard + [AfterTool(after)];
    if after.ReturnEarly? { return m, acts, Some(Returned), false, heard; }
    if !failed && !after.Refuse? {
      FollowsOn(l, acts, m, Note);
      m, acts := Step(m, Note), acts + [Note];
      return m, acts, None, true, heard;
    }
    var lost: bool := *;
    heard := heard + [Saved(!lost)];
    if lost { return m, acts, Some(Raised), false, heard; }
    FollowsOn(l, acts, m, AskFailed);
    m, acts := Step(m, AskFailed), acts + [AskFailed];
  }

  /** The call at this place of the last turn has a result. */
  predicate Answered(turns: Transcript, place: nat) {
    turns != [] &&
    var last := turns[|turns| - 1];
    place < |last.calls| && last.calls[place].id in last.finished
  }

  /** Nothing that this worker has asked about the last turn is still open. */
  predicate Rested(l: Local) {
    l.point.Ready? && l.question.None? && forall j :: j in l.asked ==> Answered(l.turns, j)
  }

  /** All unanswered calls of the last turn, in order; the first open question suspends the task at the end. */
  method RunCalls(l: Local) returns (m: Local, acts: seq<Act>, end: Option<Ending>, heard: seq<Heard>)
    requires Rested(l) && l.turns != []
    ensures Follows(l, acts, m)
    ensures Explains(heard, end) && AboutTools(heard)
    ensures end.None? ==> Rested(m) && |m.turns| == |l.turns|
    ensures end.None? ==> forall c :: c in l.turns[|l.turns| - 1].calls ==> c.id in m.turns[|l.turns| - 1].finished
    ensures end.Some? ==> end.value in {Returned, Stopped, Raised} || end.value.AwaitingHuman?
    ensures end.Some? && end.value.AwaitingHuman? ==> acts != [] && acts[|acts| - 1] == SaveWaiting(end.value.id)
  {
    var n := |l.turns| - 1;
    var calls := l.turns[n].calls;
    m, acts, end, heard := l, [], None, [];
    var k := 0;
    while k < |calls|
      invariant 0 <= k <= |calls| && Follows(l, acts, m) && Quiet(heard) && AboutTools(heard)
      invariant m.point.Ready? && |m.turns| == n + 1 && m.turns[n].calls == calls
      invariant m.question.None? ==> forall j :: 0 <= j < k ==> calls[j].id in m.turns[n].finished
      invariant forall j :: j in m.asked ==> j < k || Answered(m.turns, j)
    {
      var call, place := calls[k], k;
      k := k + 1;
      if call.id in m.turns[n].finished { continue; }
      var m', more, ended, asked, said := RunCall(m, call, place);
      FollowsThen(l, acts, m, more, m');
      ExplainsOn(heard, said, ended);
      m, acts, heard := m', acts + more, heard + said;
      if ended.Some? { return m, acts, ended, heard; }
    }
    if m.question.Some? {
      var id := m.question.value;
      FollowsOn(l, acts, m, SaveWaiting(id));
      m, acts := Step(m, SaveWaiting(id)), acts + [SaveWaiting(id)];
      return m, acts, Some(AwaitingHuman(id)), heard;
    }
  }

  /** How a resumed worker finds its place: the calls still open, or an answer without calls. */
  predicate HasAnswer(phase: Phase, turns: Transcript) {
    Concluded(turns) && phase in {ModelReceived, EvaluationPending, EvaluationDone}
  }

  predicate HasOpenCalls(turns: Transcript) {
    turns != [] && exists c :: c in turns[|turns| - 1].calls && c.id !in turns[|turns| - 1].finished
  }

  /** The answer of a round is the model's, unless a hook returned or the round ended without one. */
  predicate AnswersWith(heard: seq<Heard>, turns: Transcript) {
    turns != [] && Model(Reply.Answer(turns[|turns| - 1].calls)) in heard
  }

  lemma CountsAppend(a: seq<Heard>, h: Heard)
    ensures Count(a + [h], IsRequest) == Count(a, IsRequest) + if IsRequest(h) then 1 else 0
    ensures Count(a + [h], IsRound) == Count(a, IsRound) + if IsRound(h) then 1 else 0
    ensures Count(a + [h], IsCritic) == Count(a, IsCritic) + if IsCritic(h) then 1 else 0
  {
    assert (a + [h])[..|a + [h]| - 1] == a;
  }

  /** The hooks behind the answer, and its checkpoint. */
  method TakeAnswer(l: Local, calls: seq<Call>)
    returns (m: Local, acts: seq<Act>, end: Option<Ending>, answered: bool, heard: seq<Heard>)
    requires Rested(l)
    ensures Follows(l, acts, m)
    ensures Report(heard, end, false) && Uncounted(heard)
    ensures end.None? ==> Rested(m) && m.turns != [] && m.turns[|m.turns| - 1].calls == calls
    ensures end.Some? ==> end.value in {Returned, Raised}
  {
    var after: Hook := *;
    m, acts, end, answered, heard := l, [], None, false, [AfterModel(after)];
    ToolsUncounted(heard);
    if after.Refuse? || after.ReturnEarly? { return m, acts, Some(Returned), false, heard; }
    answered := !after.Feedback?;
    if answered {
      var lost: bool := *;
      CountsAppend(heard, Saved(!lost));
      heard := heard + [Saved(!lost)];
      if lost { return m, acts, Some(Raised), false, heard; }
    }
    var received := if answered then Receive(calls) else Supersede(calls);
    FollowsOn(l, acts, m, received);
    m, acts := Step(m, received), acts + [received];
  }

  /** The hooks before a request, and its checkpoint. */
  method OpenRound(l: Local) returns (acts: seq<Act>, end: Option<Ending>, heard: seq<Heard>)
    requires Rested(l)
    ensures Follows(l, acts, l)
    ensures Report(heard, end, false)
    ensures Count(heard, IsRequest) == 0 && Count(heard, IsRound) == 1 && Count(heard, IsCritic) == 0
    ensures Attempts(heard) == 0 && heard != [] && heard[0].BeforeModel?
    ensures end.Some? ==> end.value in {Returned, Raised}
  {
    var before: Hook, lost: bool := *, *;
    acts, end, heard := [], None, [BeforeModel(before)];
    assert heard[..0] == [];
    if before.Refuse? || before.ReturnEarly? { return acts, Some(Returned), heard; }
    CountsAppend(heard, Saved(!lost));
    heard := heard + [Saved(!lost)];
    if lost { return acts, Some(Raised), heard; }
    FollowsOn(l, acts, l, SaveModelPending);
    acts := acts + [SaveModelPending];
  }

  /** One model round: the hooks before and after, the provider loop, the checkpoints around it. */
  method ModelRound(l: Local, retries: nat)
    returns (m: Local, acts: seq<Act>, end: Option<Ending>, answered: bool, requests: nat, heard: seq<Heard>)
    requires Rested(l)
    ensures Follows(l, acts, m) && requests <= retries + 1
    ensures Report(heard, end, false) && heard != [] && heard[0].BeforeModel?
    ensures requests == Count(heard, IsRequest) && Count(heard, IsRound) == 1 && Count(heard, IsCritic) == 0
    ensures end.None? ==> Rested(m) && AnswersWith(heard, m.turns)
    ensures end.Some? ==> end.value in {Returned, Stopped, Raised, BudgetSpent, ProviderError}
    ensures end == Some(ProviderError) ==> GaveUp(heard, retries)
  {
    m, answered, requests := l, false, 0;
    acts, end, heard := OpenRound(l);
    if end.Some? { return; }
    var calls, said;
    calls, end, requests, said := AskModel(retries);
    SaidCounts(heard, said, end, retries);
    heard := heard + said;
    if calls.None? { return; }
    var more, hooks;
    m, more, end, answered, hooks := TakeAnswer(l, calls.value);
    FollowsThen(l, acts, l, more, m);
    HooksCount(heard, hooks, end, calls.value);
    acts, heard := acts + more, heard + hooks;
  }

  /** The hooks behind an answer leave it in what was heard. */
  lemma HooksCount(heard: seq<Heard>, hooks: seq<Heard>, end: Option<Ending>, calls: seq<Call>)
    requires Report(heard, None, false) && Report(hooks, end, false) && Uncounted(hooks)
    requires heard != [] && Last(heard) == Model(Reply.Answer(calls))
    ensures Report(heard + hooks, end, false)
    ensures Count(heard + hooks, IsRequest) == Count(heard, IsRequest)
    ensures Count(heard + hooks, IsRound) == Count(heard, IsRound)
    ensures Count(heard + hooks, IsCritic) == Count(heard, IsCritic)
    ensures Model(Reply.Answer(calls)) in heard + hooks
  {
    assert (heard + hooks)[|heard| - 1] == Last(heard);
    CountsConcat(heard, hooks);
    ReportOn(heard, hooks, end, false);
  }

  /** What the provider says is added to an opened round. */
  lemma SaidCounts(heard: seq<Heard>, said: seq<Heard>, end: Option<Ending>, retries: nat)
    requires Report(heard, None, false) && Attempts(heard) == 0
    requires Explains(said, end) && said != [] && AboutRequests(said)
    ensures Report(heard + said, end, false) && Last(heard + said) == Last(said)
    ensures Count(heard + said, IsRequest) == Count(heard, IsRequest) + Count(said, IsRequest)
    ensures Count(heard + said, IsRound) == Count(heard, IsRound) &&
      Count(heard + said, IsCritic) == Count(heard, IsCritic)
    ensures GaveUp(said, retries) ==> GaveUp(heard + said, retries)
  {
    RequestsCount(said);
    CountsConcat(heard, said);
    AttemptsConcat(heard, said);
    ReportOn(heard, said, end, false);
    if |said| >= 2 { assert (heard + said)[|heard + said| - 2] == said[|said| - 2]; }
  }

  /** Up to a kept verdict nothing else is heard than a kept checkpoint. */
  predicate VerdictHeard(heard: seq<Heard>, v: Verdict) {
    Last(heard) == Judged(v, true) && forall i :: 0 <= i < |heard| - 1 ==> heard[i] == Saved(true)
  }

  /** The verdict on an answer: a saved one is not asked for again. */
  method Judge(l: Local, saved: Option<Verdict>)
    returns (acts: seq<Act>, verdict: Option<Verdict>, heard: seq<Heard>)
    requires Rested(l) && Concluded(l.turns)
    ensures Follows(l, acts, l)
    ensures Uncounted(heard) && heard != [] && !heard[0].BeforeModel?
    ensures verdict.Some? ==> VerdictHeard(heard, verdict.value)
    ensures verdict.None? ==> Report(heard, Some(Raised), true) && !Last(heard).Critic? && !AsksForCritic(Last(heard))
    ensures forall i :: 0 <= i < |heard| ==> !heard[i].Critic?
    ensures saved.Some? ==> heard[0].Judged? && heard[0].verdict == saved.value
  {
    acts, verdict, heard := [], None, [];
    var given: Verdict, lost: bool, lostLater: bool := *, *, *;
    if saved.Some? {
      given := saved.value;
    } else {
      heard := [Saved(!lost)];
      ToolsUncounted(heard);
      if lost { return; }
      FollowsOn(l, acts, l, SaveEvaluation(false));
      acts := acts + [SaveEvaluation(false)];
    }
    CountsAppend(heard, Judged(given, !lostLater));
    heard := heard + [Judged(given, !lostLater)];
    if lostLater { return; }
    FollowsOn(l, acts, l, SaveEvaluation(true));
    return acts + [SaveEvaluation(true)], Some(given), heard;
  }

  /**
   What an ending means. A reply has passed the evaluator; only a rejected answer is handed over, and one that may be
   corrected only when the limits leave no room for a critic round.
   */
  predicate Outcome(heard: seq<Heard>, end: Option<Ending>, turns: Transcript, rounds: nat, room: bool, limits: Limits,
                    evaluator: bool) {
    && end != Some(LimitReached)
    && (end == Some(Replied) ==>
          Concluded(turns) &&
          (evaluator ==> Last(heard).Judged? && Last(heard).kept && Last(heard).verdict.success))
    && (end == Some(HandedOver) ==>
          evaluator && Last(heard).Judged? && Last(heard).kept && !Last(heard).verdict.success &&
          (Correctable(Last(heard).verdict) ==> !room))
    && (end == Some(CannotConclude) ==> Last(heard).Spent? && (Last(heard).spent || rounds >= limits.iterations))
    && (end == Some(ProviderError) ==> GaveUp(heard, limits.retries))
    && (AsksForCritic(Last(heard)) ==> end == Some(HandedOver))
  }

  /** One pass: it is settled within its own round, and only at its end it may start a critic round. */
  predicate Settles(heard: seq<Heard>, end: Option<Ending>, turns: Transcript, rounds: nat, room: bool, limits: Limits,
                    evaluator: bool) {
    && Outcome(heard, end, turns, rounds, room, limits, evaluator)
    && (end == Some(ProviderError) ==> Count(heard, IsRound) > 0)
    && (Last(heard).Critic? ==> room)
    && (forall i :: 0 <= i < |heard| - 1 ==> !heard[i].Critic?)
  }

  lemma VerdictSettles(heard: seq<Heard>, v: Verdict, turns: Transcript, rounds: nat, room: bool, limits: Limits)
    requires VerdictHeard(heard, v) && Concluded(turns) && Uncounted(heard)
    ensures v.success ==>
      Report(heard, Some(Replied), true) && Settles(heard, Some(Replied), turns, rounds, room, limits, true)
    ensures !v.success && (!room || !Correctable(v)) ==>
      Report(heard, Some(HandedOver), true) && Settles(heard, Some(HandedOver), turns, rounds, room, limits, true)
  {
  }

  lemma CriticSettles(heard: seq<Heard>, v: Verdict, kept: bool, turns: Transcript, rounds: nat, limits: Limits)
    requires VerdictHeard(heard, v) && Correctable(v) && Uncounted(heard)
    ensures var end := if kept then None else Some(Raised);
      Report(heard + [Critic(kept)], end, true) &&
      Settles(heard + [Critic(kept)], end, turns, rounds, true, limits, true)
    ensures Count(heard + [Critic(kept)], IsRequest) == 0 && Count(heard + [Critic(kept)], IsRound) == 0
    ensures Count(heard + [Critic(kept)], IsCritic) == Bit(kept)
  {
    CountsAppend(heard, Critic(kept));
  }

  /**
   What happens to an answer without calls: it is the reply, unless an evaluator rejects it. `None` means that a critic
   round follows.
   */
  method Conclude(l: Local, saved: Option<Verdict>, rounds: nat, mayRetry: bool, limits: Limits)
    returns (acts: seq<Act>, end: Option<Ending>, heard: seq<Heard>)
    requires Rested(l) && Concluded(l.turns)
    ensures Follows(l, acts, l)
    ensures Report(heard, end, true) && heard != [] && !heard[0].BeforeModel?
    ensures Settles(heard, end, l.turns, rounds, mayRetry, limits, true)
    ensures Count(heard, IsRequest) == 0 && Count(heard, IsRound) == 0 && Count(heard, IsCritic) == Bit(end.None?)
    ensures end.None? ==> mayRetry
    ensures end.Some? ==> end.value in {Replied, HandedOver, Raised}
    ensures saved.Some? ==> heard[0].Judged? && heard[0].verdict == saved.value
  {
    var verdict;
    acts, verdict, heard := Judge(l, saved);
    if verdict.None? { return acts, Some(Raised), heard; }
    VerdictSettles(heard, verdict.value, l.turns, rounds, mayRetry, limits);
    if verdict.value.success { return acts, Some(Replied), heard; }
    if !mayRetry || !verdict.value.retryable || !verdict.value.spare { return acts, Some(HandedOver), heard; }
    var lost: bool := *;
    CriticSettles(heard, verdict.value, !lost, l.turns, rounds, limits);
    heard := heard + [Critic(!lost)];
    if lost { return acts, Some(Raised), heard; }
    FollowsOn(l, acts, l, SaveModelPending);
    return acts + [SaveModelPending], None, heard;
  }

  /** What a budget check and the tools behind it say settles a pass. */
  lemma ToolsSettle(spent: bool, said: seq<Heard>, end: Option<Ending>, turns: Transcript, rounds: nat, room: bool,
                    limits: Limits, evaluator: bool)
    requires !spent && Explains(said, end) && AboutTools(said)
    requires end.Some? ==> end.value in {Returned, Stopped, Raised} || end.value.AwaitingHuman?
    ensures Report([Spent(spent)] + said, end, evaluator) && Uncounted([Spent(spent)] + said)
    ensures Settles([Spent(spent)] + said, end, turns, rounds, room, limits, evaluator)
  {
    ToolsUncounted([Spent(spent)] + said);
    ReportOn([Spent(spent)], said, end, evaluator);
  }

  /** Runs the calls of the last turn, or concludes. */
  method ActOn(l: Local, limits: Limits, rounds: nat, room: bool, saved: Option<Verdict>, evaluator: bool)
    returns (m: Local, acts: seq<Act>, end: Option<Ending>, critic: bool, heard: seq<Heard>)
    requires Rested(l) && l.turns != []
    ensures Follows(l, acts, m) && (end.None? ==> Rested(m))
    ensures critic ==> room && evaluator && end.None?
    ensures end.Some? && end.value.AwaitingHuman? ==> acts != [] && acts[|acts| - 1] == SaveWaiting(end.value.id)
    ensures Report(heard, end, evaluator) && Settles(heard, end, m.turns, rounds, room, limits, evaluator)
    ensures Count(heard, IsRequest) == 0 && Count(heard, IsRound) == 0 && Count(heard, IsCritic) == Bit(critic)
    ensures if heard == [] then end == Some(Replied) && !evaluator else !heard[0].BeforeModel?
    ensures l.turns[|l.turns| - 1].calls == [] && saved.Some? && evaluator ==>
      heard[0].Judged? && heard[0].verdict == saved.value
  {
    m, acts, end, critic, heard := l, [], None, false, [];
    if l.turns[|l.turns| - 1].calls == [] {
      if !evaluator { return m, acts, Some(Replied), false, heard; }
      acts, end, heard := Conclude(l, saved, rounds, room, limits);
      critic := end.None?;
      return;
    }
    var spent: bool := *;
    heard := [Spent(spent)];
    ToolsUncounted(heard);
    if rounds >= limits.iterations || spent { return m, acts, Some(CannotConclude), false, heard; }
    var said;
    m, acts, end, said := RunCalls(l);
    ToolsSettle(spent, said, end, m.turns, rounds, room, limits, evaluator);
    heard := heard + said;
  }

  datatype Pass = Pass(newRound: bool, requests: nat, critic: bool, resuming: bool)

  function Bit(b: bool): nat { if b then 1 else 0 }

  /** What a pass counts is what it has heard. */
  predicate Counted(heard: seq<Heard>, p: Pass) {
    && Count(heard, IsRequest) == p.requests && Count(heard, IsRound) == Bit(p.newRound)
    && Count(heard, IsCritic) == Bit(p.critic)
  }

  /** The worker resumes at a turn with open calls, or at an answer without calls that is not settled yet. */
  predicate AnswerWaits(start: Start, turns: Transcript) {
    && start.Resumed? && turns != []
    && var last := turns[|turns| - 1];
      || (exists c :: c in last.calls && c.id !in last.finished)
      || (last.calls == [] && start.phase in {ModelReceived, EvaluationPending, EvaluationDone})
  }

  /** The worker resumes at an answer whose verdict is saved. */
  predicate VerdictSaved(start: Start, turns: Transcript) {
    start.Resumed? && start.phase == EvaluationDone && Concluded(turns)
  }

  /** The check for cancellation, and the answer: the one that is left to act on, or that of a new round. */
  method FindAnswer(l: Local, limits: Limits, resuming: bool, start: Start)
    returns (m: Local, acts: seq<Act>, end: Option<Ending>, answered: bool, p: Pass, heard: seq<Heard>)
    requires Rested(l) && (resuming ==> start.Resumed?)
    ensures Follows(l, acts, m) && (end.None? ==> Rested(m) && m.turns != [])
    ensures p.requests <= (if p.newRound then limits.retries + 1 else 0) && !p.critic && p.resuming == resuming
    ensures !p.newRound ==> end.Some? || (resuming && answered)
    ensures Report(heard, end, false) && Counted(heard, p)
    ensures heard != [] && heard[0].Check?
    ensures if p.newRound then |heard| > 1 && heard[1].BeforeModel? else |heard| == 1 && m == l
    ensures heard[0] == Check(false) ==> (p.newRound <==> !(resuming && AnswerWaits(start, l.turns)))
    ensures end.Some? ==> end.value in {Returned, Stopped, Raised, BudgetSpent, ProviderError}
    ensures end == Some(ProviderError) ==> GaveUp(heard, limits.retries) && p.newRound
  {
    var cancelled: bool := *;
    m, acts, end, answered, p, heard := l, [], None, true, Pass(false, 0, false, resuming), [Check(cancelled)];
    ToolsUncounted(heard);
    if cancelled { return m, acts, Some(Stopped), true, p, heard; }
    if resuming && (HasOpenCalls(l.turns) || HasAnswer(start.phase, l.turns)) { return; }
    var requests, said;
    m, acts, end, answered, requests, said := ModelRound(l, limits.retries);
    CountsConcat(heard, said);
    AttemptsConcat(heard, said);
    ReportOn(heard, said, end, false);
    heard, p := heard + said, Pass(true, requests, false, resuming);
  }

  /** An ending before any answer settles the pass. */
  lemma FoundSettles(heard: seq<Heard>, end: Option<Ending>, turns: Transcript, rounds: nat, room: bool, limits: Limits,
                     evaluator: bool)
    requires Report(heard, end, false)
    requires end.Some? ==> end.value in {Returned, Stopped, Raised, BudgetSpent, ProviderError}
    requires end == Some(ProviderError) ==> GaveUp(heard, limits.retries) && Count(heard, IsRound) > 0
    ensures Report(heard, end, evaluator) && Settles(heard, end, turns, rounds, room, limits, evaluator)
  {
    NoCritics(heard);
  }

  lemma NoCritics(heard: seq<Heard>)
    requires CriticsFollow(heard) && Unjudged(heard)
    ensures forall i :: 0 <= i < |heard| ==> !heard[i].Critic?
  {
    forall i | 0 <= i < |heard|
      ensures !heard[i].Critic?
    {
      if i > 0 { assert !heard[i - 1].Judged?; }
    }
  }

  /** What is done about an answer settles the pass that found it. */
  lemma ActedSettles(heard: seq<Heard>, said: seq<Heard>, end: Option<Ending>, turns: Transcript, rounds: nat,
                     room: bool,
                     limits: Limits, evaluator: bool)
    requires Report(heard, None, false) && Report(said, end, evaluator)
    requires Settles(said, end, turns, rounds, room, limits, evaluator) && Count(said, IsRound) == 0
    requires Count(said, IsRequest) == 0 && heard != [] && (said == [] ==> end == Some(Replied) && !evaluator)
    ensures Report(heard + said, end, evaluator) && (heard + said)[0] == heard[0]
    ensures Settles(heard + said, end, turns, rounds, room, limits, evaluator)
    ensures Count(heard + said, IsRequest) == Count(heard, IsRequest)
    ensures Count(heard + said, IsRound) == Count(heard, IsRound)
    ensures Count(heard + said, IsCritic) == Count(heard, IsCritic) + Count(said, IsCritic)
    ensures |heard| == 1 && said != [] ==> (heard + said)[1] == said[0]
  {
    CountsConcat(heard, said);
    NoCritics(heard);
    ReportOn(heard, said, end, evaluator);
    if said == [] {
      assert heard + said == heard;
    }
  }

  /** One pass of the outer loop: find or ask for an answer, then act on it. */
  method RunPass(l: Local, limits: Limits, iteration: nat, mayCriticise: bool, resuming: bool, start: Start,
                 evaluator: bool)
    returns (m: Local, acts: seq<Act>, end: Option<Ending>, p: Pass, heard: seq<Heard>)
    requires Rested(l) && iteration < limits.iterations && (resuming ==> start.Resumed?)
    ensures Follows(l, acts, m) && (end.None? ==> Rested(m))
    ensures p.requests <= (if p.newRound then limits.retries + 1 else 0)
    ensures !p.newRound ==> end.Some? || (resuming && !p.resuming)
    ensures p.resuming ==> resuming
    ensures end.Some? && end.value.AwaitingHuman? ==> acts != [] && acts[|acts| - 1] == SaveWaiting(end.value.id)
    ensures Report(heard, end, evaluator) && Counted(heard, p) && heard != [] && heard[0].Check?
    ensures var rounds := iteration + Bit(p.newRound);
      Settles(heard, end, m.turns, rounds, mayCriticise && rounds < limits.iterations, limits, evaluator)
    ensures p.critic ==> mayCriticise && evaluator && end.None?
    ensures end.None? ==> |heard| > 1
    ensures |heard| > 1 ==> (heard[1].BeforeModel? <==> !(resuming && AnswerWaits(start, l.turns)))
    ensures resuming && evaluator && VerdictSaved(start, l.turns) && heard[0] == Check(false) ==>
      |heard| > 1 && heard[1].Judged? && heard[1].verdict == start.verdict
  {
    var answered;
    m, acts, end, answered, p, heard := FindAnswer(l, limits, resuming, start);
    var rounds := iteration + Bit(p.newRound);
    var room := mayCriticise && rounds < limits.iterations;
    if end.Some? || !answered {
      FoundSettles(heard, end, m.turns, rounds, room, limits, evaluator);
      return;
    }
    var saved := if resuming && start.phase == EvaluationDone then Some(start.verdict) else None;
    var before := m;
    var more, critic, said;
    m, more, end, critic, said := ActOn(before, limits, rounds, room, saved, evaluator);
    FollowsThen(l, acts, before, more, m);
    ActedSettles(heard, said, end, m.turns, rounds, room, limits, evaluator);
    acts, heard, p := acts + more, heard + said, p.(resuming := false, critic := critic);
  }

  /** Every critic round found room below both limits. */
  predicate CriticsWithin(heard: seq<Heard>, rounds: nat, critics: nat, limits: Limits) {
    forall i :: 0 <= i < |heard| && heard[i].Critic? ==> Room(heard[..i], rounds, critics, limits)
  }

  predicate Room(heard: seq<Heard>, rounds: nat, critics: nat, limits: Limits) {
    rounds + Count(heard, IsRound) < limits.iterations && critics + Count(heard, IsCritic) < limits.evalRetries
  }

  lemma {:induction false} CriticsUncounted(heard: seq<Heard>)
    requires forall i :: 0 <= i < |heard| ==> !heard[i].Critic?
    ensures Count(heard, IsCritic) == 0
    decreases |heard|
  {
    if heard != [] { CriticsUncounted(heard[..|heard| - 1]); }
  }

  lemma CriticsWithinOn(heard: seq<Heard>, said: seq<Heard>, rounds: nat, critics: nat, limits: Limits)
    requires CriticsWithin(heard, rounds, critics, limits)
    requires said != [] && forall i :: 0 <= i < |said| - 1 ==> !said[i].Critic?
    requires Last(said).Critic? ==>
      rounds + Count(heard, IsRound) + Count(said, IsRound) < limits.iterations &&
      critics + Count(heard, IsCritic) < limits.evalRetries
    ensures CriticsWithin(heard + said, rounds, critics, limits)
  {
    var all, body := heard + said, said[..|said| - 1];
    CriticsUncounted(body);
    CountsConcat(heard, body);
    forall i | 0 <= i < |all| && all[i].Critic?
      ensures Room(all[..i], rounds, critics, limits)
    {
      if i < |heard| {
        assert all[..i] == heard[..i];
      } else {
        assert i == |all| - 1 && all[..i] == heard + body;
      }
    }
  }

  /** One pass more settles the run so far. */
  lemma PassSettles(heard: seq<Heard>, said: seq<Heard>, end: Option<Ending>, turns: Transcript, rounds: nat,
                    room: bool,
                    limits: Limits, evaluator: bool)
    requires Report(heard, None, evaluator) && Report(said, end, evaluator) && said != []
    requires Settles(said, end, turns, rounds, room, limits, evaluator)
    ensures Report(heard + said, end, evaluator)
    ensures Outcome(heard + said, end, turns, rounds, room, limits, evaluator)
  {
    ReportOn(heard, said, end, evaluator);
    AttemptsConcat(heard, said);
    if |said| >= 2 { assert (heard + said)[|heard + said| - 2] == said[|said| - 2]; }
  }

  /** The counters of a run are what it has heard. */
  predicate Tallied(heard: seq<Heard>, c: Counts) {
    && c.requests == Count(heard, IsRequest) && c.rounds == Count(heard, IsRound) && c.critics == Count(heard, IsCritic)
  }

  /**
   How a run starts behind the check for cancellation: a round is opened exactly when no saved answer waits, and a saved
   verdict is heard again.
   */
  predicate Resumes(heard: seq<Heard>, start: Start, evaluator: bool) {
    && (|heard| > 1 ==> (heard[1].BeforeModel? <==> !AnswerWaits(start, SavedTurns(start))))
    && (evaluator && VerdictSaved(start, SavedTurns(start)) && heard != [] && heard[0] == Check(false) ==>
          |heard| > 1 && heard[1].Judged? && heard[1].verdict == start.verdict)
  }

  /** A run under way: it has counted what it heard, and every critic round found room. */
  predicate InRun(heard: seq<Heard>, c: Counts, start: Start, limits: Limits, evaluator: bool) {
    && Tallied(heard, c) && Report(heard, None, evaluator)
    && CriticsWithin(heard, FirstIteration(start), CriticsBefore(start), limits)
    && (heard != [] ==> |heard| > 1 && Resumes(heard, start, evaluator))
  }

  /** The endings that one thing heard asks for. */
  predicate Told(last: Heard, end: Ending) {
    && (end == Stopped <==> last == Check(true) || last == Model(Interrupted))
    && (end == BudgetSpent <==> last == Model(Exhausted))
    && (end == Raised <==> last in {Saved(false), Critic(false), Ran(true)} || (last.Judged? && !last.kept))
    && (end == Returned <==>
          last in {BeforeModel(Refuse), BeforeModel(ReturnEarly), AfterModel(Refuse), AfterModel(ReturnEarly)} ||
          last in {BeforeTool(ReturnEarly), AfterTool(ReturnEarly)})
    && (last == Spent(true) ==> end == CannotConclude)
    && (last.Judged? && last.kept ==>
          if last.verdict.success then end == Replied
          else !last.verdict.retryable || !last.verdict.spare ==> end == HandedOver)
  }

  lemma ReportTells(heard: seq<Heard>, end: Ending, evaluator: bool)
    requires Report(heard, Some(end), evaluator)
    ensures Told(Last(heard), end)
  {
  }

  /**
   How a run ends, told by what it heard. A reply has passed the evaluator. An answer is handed over when its verdict is
   a failure that may not be corrected, or finds no room below the limits; no other failed verdict is left behind.
   */
  predicate EndsRun(heard: seq<Heard>, end: Ending, c: Counts, m: Local, start: Start, limits: Limits,
                    evaluator: bool) {
    && Tallied(heard, c) && Report(heard, Some(end), evaluator) && Told(Last(heard), end)
    && CriticsWithin(heard, FirstIteration(start), CriticsBefore(start), limits)
    && (end == Replied ==>
          Concluded(m.turns) &&
          (evaluator ==> Last(heard).Judged? && Last(heard).kept && Last(heard).verdict.success))
    && (end == HandedOver ==>
          evaluator && Last(heard).Judged? && Last(heard).kept && !Last(heard).verdict.success &&
          (Correctable(Last(heard).verdict) ==> !Room(heard, FirstIteration(start), CriticsBefore(start), limits)))
    && (AsksForCritic(Last(heard)) ==> end == HandedOver)
    && (end == ProviderError ==> GaveUp(heard, limits.retries))
    && (end == CannotConclude ==>
          Last(heard).Spent? && (Last(heard).spent || FirstIteration(start) + c.rounds >= limits.iterations))
    && (end == LimitReached ==> Quiet(heard) && FirstIteration(start) + c.rounds >= limits.iterations)
    && Resumes(heard, start, evaluator)
  }

  /** The counters behind a pass. */
  function After(c: Counts, p: Pass): Counts {
    Counts(c.rounds + Bit(p.newRound), c.requests + p.requests, c.critics + Bit(p.critic), c.passes + 1)
  }

  /** A pass continues the run, or ends it. */
  lemma PassRuns(heard: seq<Heard>, c: Counts, said: seq<Heard>, end: Option<Ending>, p: Pass, m: Local, start: Start,
                 limits: Limits, evaluator: bool)
    requires InRun(heard, c, start, limits, evaluator)
    requires Report(said, end, evaluator) && Counted(said, p) && said != []
    requires var rounds := FirstIteration(start) + c.rounds + Bit(p.newRound);
      var mayCriticise := CriticsBefore(start) + c.critics < limits.evalRetries;
      Settles(said, end, m.turns, rounds, mayCriticise && rounds < limits.iterations, limits, evaluator)
    requires p.critic ==> end.None?
    requires end.None? ==> |said| > 1
    requires heard == [] ==> Resumes(said, start, evaluator)
    ensures end.None? ==> InRun(heard + said, After(c, p), start, limits, evaluator)
    ensures end.Some? ==> EndsRun(heard + said, end.value, After(c, p), m, start, limits, evaluator)
  {
    var rounds := FirstIteration(start) + c.rounds + Bit(p.newRound);
    var room := CriticsBefore(start) + c.critics < limits.evalRetries && rounds < limits.iterations;
    CountsConcat(heard, said);
    CriticsWithinOn(heard, said, FirstIteration(start), CriticsBefore(start), limits);
    PassSettles(heard, said, end, m.turns, rounds, room, limits, evaluator);
    if heard == [] { assert heard + said == said; }
    if end.Some? { ReportTells(heard + said, end.value, evaluator); }
  }

  /** One pass more of a run. */
  method Advance(l: Local, c: Counts, before: seq<Heard>, resuming: bool, start: Start, limits: Limits, evaluator: bool)
    returns (m: Local, acts: seq<Act>, end: Option<Ending>, p: Pass, heard: seq<Heard>)
    requires Rested(l) && InRun(before, c, start, limits, evaluator) && (resuming ==> start.Resumed?)
    requires FirstIteration(start) + c.rounds < limits.iterations
    requires before == [] ==> l.turns == SavedTurns(start) && resuming == start.Resumed?
    ensures Follows(l, acts, m) && (end.None? ==> Rested(m)) && heard != []
    ensures p.requests <= (if p.newRound then limits.retries + 1 else 0)
    ensures !p.newRound ==> end.Some? || (resuming && !p.resuming)
    ensures p.resuming ==> resuming
    ensures p.critic ==> CriticsBefore(start) + c.critics < limits.evalRetries
    ensures end.Some? && end.value.AwaitingHuman? ==> acts != [] && acts[|acts| - 1] == SaveWaiting(end.value.id)
    ensures end.None? ==> InRun(heard, After(c, p), start, limits, evaluator)
    ensures end.Some? ==> EndsRun(heard, end.value, After(c, p), m, start, limits, evaluator)
  {
    var said;
    var mayCriticise := CriticsBefore(start) + c.critics < limits.evalRetries;
    m, acts, end, p, said :=
      RunPass(l, limits, FirstIteration(start) + c.rounds, mayCriticise, resuming, start, evaluator);
    PassRuns(before, c, said, end, p, m, start, limits, evaluator);
    heard := before + said;
  }

  /** The bounds of a run: each pass starts a new round or uses up the state it resumed from. */
  predicate Bounded(c: Counts, resuming: bool, start: Start, limits: Limits) {
    && c.rounds <= Left(limits.iterations, FirstIteration(start))
    && c.requests <= c.rounds * (limits.retries + 1)
    && c.critics <= Left(limits.evalRetries, CriticsBefore(start))
    && c.passes + Bit(resuming) <= c.rounds + 1
  }

  lemma PassBounded(c: Counts, p: Pass, resuming: bool, start: Start, limits: Limits)
    requires Bounded(c, resuming, start, limits) && FirstIteration(start) + c.rounds < limits.iterations
    requires p.requests <= (if p.newRound then limits.retries + 1 else 0)
    requires p.critic ==> CriticsBefore(start) + c.critics < limits.evalRetries
    requires p.resuming ==> resuming
    ensures After(c, p).rounds <= Left(limits.iterations, FirstIteration(start))
    ensures After(c, p).requests <= After(c, p).rounds * (limits.retries + 1)
    ensures After(c, p).critics <= Left(limits.evalRetries, CriticsBefore(start))
    ensures After(c, p).passes <= After(c, p).rounds + 2
    ensures p.newRound || (resuming && !p.resuming) ==> Bounded(After(c, p), p.resuming, start, limits)
  {
    assert (c.rounds + 1) * (limits.retries + 1) == c.rounds * (limits.retries + 1) + limits.retries + 1;
  }

  /**
   Main result. The loop ends whatever its environment does. Rounds, requests to the provider and critic rounds stay
   within their limits, everything the worker does follows the protocol, and the ending is the one that `EndsRun` tells
   from what was heard.
   */
  method RunAgent(me: Token, limits: Limits, start: Start, evaluator: bool)
    returns (end: Ending, acts: seq<Act>, m: Local, c: Counts, heard: seq<Heard>)
    ensures Follows(Entry(me, start), acts, m)
    ensures c.rounds <= Left(limits.iterations, FirstIteration(start))
    ensures c.requests <= c.rounds * (limits.retries + 1)
    ensures c.critics <= Left(limits.evalRetries, CriticsBefore(start))
    ensures c.passes <= c.rounds + 2
    ensures end.AwaitingHuman? ==> acts != [] && acts[|acts| - 1] == SaveWaiting(end.id)
    ensures EndsRun(heard, end, c, m, start, limits, evaluator)
  {
    var resuming := start.Resumed?;
    m, acts, c, heard := Entry(me, start), [], Counts(0, 0, 0, 0), [];
    while FirstIteration(start) + c.rounds < limits.iterations
      invariant Follows(Entry(me, start), acts, m) && Rested(m)
      invariant Bounded(c, resuming, start, limits) && (resuming ==> start.Resumed?)
      invariant InRun(heard, c, start, limits, evaluator)
      invariant heard == [] ==> m.turns == SavedTurns(start) && resuming == start.Resumed?
      decreases limits.iterations - c.rounds, Bit(resuming)
    {
      var m', more, ended, p, all := Advance(m, c, heard, resuming, start, limits, evaluator);
      FollowsThen(Entry(me, start), acts, m, more, m');
      PassBounded(c, p, resuming, start, limits);
      m, acts, heard, c, resuming := m', acts + more, all, After(c, p), p.resuming;
      if ended.Some? { return ended.value, acts, m, c, heard; }
    }
    ReportTells(heard, LimitReached, evaluator);
    return LimitReached, acts, m, c, heard;
  }
}
