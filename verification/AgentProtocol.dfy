/**
 The checkpointed agent loop seen from outside: what one worker does between claiming a task and leaving it,
 and the stored task row that all workers, crashes and human interventions share. A call is named by the
 position of its assistant turn and its id.
 */
module AgentProtocol {
  import opened Prelude

  type Token = nat

  /** `asks` marks a call of `ask_user`. */
  datatype Call = Call(id: nat, asks: bool)

  /** An assistant message, the worker that received it, and the ids of the calls that have a result behind it. */
  datatype Turn = Turn(author: Token, calls: seq<Call>, finished: set<nat>)

  type Transcript = seq<Turn>

  datatype Point = Ready | Started(id: nat) | Invoked(id: nat) | Asked(id: nat) | Halted

  /**
   `asked` are the places of the questions of the last turn that have run, and `question` is the one to suspend on.
   */
  datatype Local = Local(me: Token, turns: Transcript, point: Point, asked: set<nat>, question: Option<nat>)

  function Entering(me: Token, turns: Transcript): Local {
    Local(me, turns, Ready, {}, None)
  }

  datatype Act =
    | SaveModelPending          // checkpoint before asking the model
    | Receive(calls: seq<Call>) // the model's answer, checkpointed
    | Supersede(calls: seq<Call>) // a hook replaced the answer by feedback; nothing is checkpointed
    | Start(id: nat)            // checkpoint `tool_started`
    | Invoke                    // the call runs
    | Reuse                     // its result is taken from an earlier call
    | Complete                  // checkpoint `tool_done`
    | Block(id: nat)            // a hook answers the call; checkpoint `tool_done`
    | Ask(place: nat)           // the `ask_user` at this place of the turn runs, without a checkpoint
    | Note                      // its question is kept if it is the first one
    | AskFailed                 // it failed; checkpoint `tool_done`
    | SaveWaiting(id: nat)      // checkpoint `waiting_user`; the worker does nothing more
    | SaveEvaluation(done: bool)

  predicate Open(turns: Transcript, id: nat, asks: bool) {
    turns != [] && Call(id, asks) in turns[|turns| - 1].calls && id !in turns[|turns| - 1].finished
  }

  /** The last turn has an unanswered call of `ask_user` at this place. */
  predicate OpenQuestion(turns: Transcript, place: nat) {
    turns != [] &&
    var last := turns[|turns| - 1];
    place < |last.calls| && last.calls[place].asks && last.calls[place].id !in last.finished
  }

  /** The last answer asks for no tools. */
  predicate Concluded(turns: Transcript) {
    turns != [] && turns[|turns| - 1].calls == []
  }

  function Finish(turns: Transcript, id: nat): Transcript
    requires turns != []
  {
    var n := |turns| - 1;
    turns[n := turns[n].(finished := turns[n].finished + {id})]
  }

  predicate CanAct(l: Local, a: Act) {
    match a
    case Start(id) => l.point.Ready? && Open(l.turns, id, false)
    case Invoke => l.point.Started?
    case Reuse => l.point.Started?
    case Complete => l.point.Invoked? && l.turns != []
    case Block(id) => l.point.Ready? && (Open(l.turns, id, false) || Open(l.turns, id, true))
    case Ask(place) => l.point.Ready? && OpenQuestion(l.turns, place) && place !in l.asked
    case Note => l.point.Asked?
    case AskFailed => l.point.Asked? && l.turns != []
    case SaveWaiting(id) => l.point.Ready? && l.turns != [] && l.question == Some(id)
    case SaveEvaluation(_) => l.point.Ready? && l.question.None? && Concluded(l.turns)
    case _ => l.point.Ready? && l.question.None?
  }

  function Step(l: Local, a: Act): Local
    requires CanAct(l, a)
  {
    match a
    case Receive(calls) => Entering(l.me, l.turns + [Turn(l.me, calls, {})])
    case Supersede(calls) => Entering(l.me, l.turns + [Turn(l.me, calls, {})])
    case Start(id) => l.(point := Started(id))
    case Invoke => l.(point := Invoked(l.point.id))
    case Reuse => l.(point := Invoked(l.point.id))
    case Complete => l.(turns := Finish(l.turns, l.point.id), point := Ready)
    case Block(id) => l.(turns := Finish(l.turns, id))
    case Ask(place) => l.(point := Asked(l.turns[|l.turns| - 1].calls[place].id), asked := l.asked + {place})
    case Note => l.(point := Ready, question := if l.question.None? then Some(l.point.id) else l.question)
    case AskFailed => l.(turns := Finish(l.turns, l.point.id), point := Ready)
    case SaveWaiting(_) => l.(point := Halted)
    case _ => l
  }

  /** `acts` is something a worker may do from `l`, ending in `t`. */
  predicate Follows(l: Local, acts: seq<Act>, t: Local)
    decreases |acts|
  {
    if acts == [] then l == t else CanAct(l, acts[0]) && Follows(Step(l, acts[0]), acts[1..], t)
  }

  // ---- the stored row ---------------------------------------------------------------

  datatype Phase =
    | ModelPending | ModelReceived | ToolStarted | ToolDone | WaitingUser | EvaluationPending | EvaluationDone

  datatype Status = Pending | Running | Suspended | Uncertain | Completed | Failed | Cancelled

  datatype Lease = Lease(token: Token, expires: Time)

  /**
   `call` is the running step while `phase` is `ToolStarted`, and the open question while it is `WaitingUser`; `replied`
   tells whether the row holds a reply, a question or an error.
   */
  datatype Row = Row(status: Status, phase: Phase, saved: Transcript, call: nat, lease: Option<Lease>, recoveries: nat,
                     replied: bool)

  const LEASE_SECONDS := 180
  const MAX_RECOVERIES := 3

  predicate Over(s: Status) {
    s in {Completed, Failed, Cancelled}
  }

  predicate Leased(r: Row, now: Time) {
    r.lease.Some? && r.lease.value.expires > now
  }

  /** The worker's writes are accepted. */
  predicate Holds(r: Row, token: Token, now: Time) {
    r.status == Running && Leased(r, now) && r.lease.value.token == token
  }

  predicate CanClaim(r: Row, now: Time) {
    && !Over(r.status) && !Leased(r, now)
    && r.phase != ToolStarted
    && r.status !in {Suspended, Uncertain}
    && r.recoveries < MAX_RECOVERIES
  }

  /** Claiming a task whose tool had started only marks it uncertain. */
  function ClaimRow(r: Row, token: Token, now: Time): Row {
    if CanClaim(r, now) then
      r.(status := Running, lease := Some(Lease(token, now + LEASE_SECONDS)),
         recoveries := if r.status == Running || r.replied then r.recoveries + 1 else r.recoveries)
    else if !Over(r.status) && !Leased(r, now) && r.phase == ToolStarted then r.(status := Uncertain)
    else r
  }

  predicate Saves(a: Act) {
    !(a.Supersede? || a.Invoke? || a.Reuse? || a.Ask? || a.Note?)
  }

  function PhaseOf(a: Act): Phase {
    match a
    case SaveModelPending => ModelPending
    case Receive(_) => ModelReceived
    case Start(_) => ToolStarted
    case SaveWaiting(_) => WaitingUser
    case SaveEvaluation(done) => if done then EvaluationDone else EvaluationPending
    case _ => ToolDone
  }

  /** A checkpoint replaces the saved transcript by the worker's. */
  function SaveRow(r: Row, a: Act, l: Local): Row {
    if Saves(a) then
      r.(phase := PhaseOf(a), saved := l.turns, call := if a.Start? || a.SaveWaiting? then a.id else r.call)
    else r
  }

  /** A human answers the open question. */
  function AnswerRow(r: Row): Row {
    if r.status == Suspended && r.phase == WaitingUser && r.saved != []
    then r.(status := Pending, phase := ToolDone, saved := Finish(r.saved, r.call), replied := false)
    else r
  }

  /** A human records what became of the call that had started. */
  function ResolveRow(r: Row): Row {
    if r.status == Uncertain && r.phase == ToolStarted && r.saved != []
    then r.(status := Pending, phase := ToolDone, saved := Finish(r.saved, r.call), lease := None)
    else r
  }

  // ---- everybody together -----------------------------------------------------------

  /** A call of `ask_user`: its place in a turn, and that turn by its position and by the worker that received it. */
  datatype Site = Site(author: Token, turn: nat, place: nat)

  /** A run of `ask_user`, and the worker that asked. */
  datatype Question = Question(token: Token, site: Site)

  /** `invoked` lists every run of another call, in order, as (turn, id), and `asked` every question. */
  datatype State = State(
    row: Row, workers: map<Token, Local>, issued: nat, invoked: seq<(nat, nat)>, asked: seq<Question>)

  datatype Event =
    | Claim(now: Time)
    | Renew(token: Token, now: Time)
    | Do(token: Token, act: Act, now: Time)
    | End(token: Token, status: Status, now: Time)
    | Die(token: Token)
    | Answer
    | MarkUncertain(now: Time)
    | Resolve
    | Cancel

  /** An exception while a tool has started leaves the task uncertain; only behind an open question it is suspended. */
  predicate MayEnd(r: Row, status: Status) {
    if r.phase == ToolStarted then status == Uncertain
    else status in {Pending, Completed, Failed, Cancelled} || (status == Suspended && r.phase == WaitingUser)
  }

  predicate Next(s: State, e: Event) {
    match e
    case Do(token, act, now) =>
      token in s.workers && CanAct(s.workers[token], act) && (Saves(act) ==> Holds(s.row, token, now))
    case End(token, status, now) => token in s.workers && Holds(s.row, token, now) && MayEnd(s.row, status)
    case Die(token) => token in s.workers
    case _ => true
  }

  function Here(l: Local): nat {
    if l.turns == [] then 0 else |l.turns| - 1
  }

  function SiteOf(l: Local, place: nat): Site
    requires l.turns != []
  {
    Site(l.turns[Here(l)].author, Here(l), place)
  }

  function Apply(s: State, e: Event): State
    requires Next(s, e)
  {
    match e
    case Claim(now) =>
      var row := ClaimRow(s.row, s.issued, now);
      if CanClaim(s.row, now)
      then s.(row := row, workers := s.workers[s.issued := Entering(s.issued, s.row.saved)], issued := s.issued + 1)
      else s.(row := row)
    case Renew(token, now) =>
      if Holds(s.row, token, now) then s.(row := s.row.(lease := Some(Lease(token, now + LEASE_SECONDS)))) else s
    case Do(token, act, now) =>
      var l := s.workers[token];
      State(SaveRow(s.row, act, Step(l, act)), s.workers[token := Step(l, act)], s.issued,
            if act.Invoke? then s.invoked + [(Here(l), l.point.id)] else s.invoked,
            if act.Ask? then s.asked + [Question(token, SiteOf(l, act.place))] else s.asked)
    case End(token, status, now) =>
      s.(row := s.row.(status := status, lease := None, replied := true), workers := s.workers - {token})
    case Die(token) => s.(workers := s.workers - {token})
    case Answer => s.(row := AnswerRow(s.row))
    case MarkUncertain(now) =>
      if s.row.status == Running && s.row.lease.Some? && !Leased(s.row, now)
      then s.(row := s.row.(status := Uncertain, lease := None)) else s
    case Resolve => s.(row := ResolveRow(s.row))
    case Cancel => if Over(s.row.status) then s
      else s.(row := s.row.(status := Cancelled, lease := None, replied := true))
  }

  const START := State(Row(Pending, ModelPending, [], 0, None, 0, false), map[], 0, [], [])

  predicate Runs(s: State, es: seq<Event>)
    decreases |es|
  {
    es == [] || (Next(s, es[0]) && Runs(Apply(s, es[0]), es[1..]))
  }

  function Run(s: State, es: seq<Event>): State
    requires Runs(s, es)
    decreases |es|
  {
    if es == [] then s else Run(Apply(s, es[0]), es[1..])
  }
}
