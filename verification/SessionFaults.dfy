/**
 Runs of the session that put frames on a connection twice or out of order. Each breaks exactly one of the
 five checks that `SessionOrder.FramesIncrease` asks for, so none of them can be left out.
 */
module SessionFaults {
  import opened Prelude
  import opened SessionWire

  datatype Check = Entry | Completion | Finish | Order | Cancellation | NoneDropped

  predicate GuardedBut(s: Session, e: Event, k: Check) {
    && (k != Entry ==> EntersOwnLock(s, e))
    && (k != Completion ==> CompletesInTime(s, e))
    && (k != Finish ==> FinishesInTime(s, e))
    && (k != Order ==> ReplaysInOrder(s, e))
    && (k != Cancellation ==> CancelsDropped(s, e))
  }

  /** `es` leads from `s` to `t` and keeps every check but `k`. */
  predicate Leads(s: Session, es: seq<Event>, k: Check, t: Session)
    decreases |es|
  {
    if es == [] then s == t
    else Next(s, es[0]) && GuardedBut(s, es[0], k) && Leads(Apply(s, es[0]), es[1..], k, t)
  }

  lemma {:induction false} LeadsRuns(s: Session, es: seq<Event>, k: Check, t: Session)
    requires Leads(s, es, k, t)
    ensures Runs(s, es) && Run(s, es) == t
    decreases |es|
  {
    if es != [] {
      LeadsRuns(Apply(s, es[0]), es[1..], k, t);
    }
  }

  /** Keeping every check is what `SessionOrder.FramesIncrease` asks of a run. */
  lemma {:induction false} ChecksAreTheGuard(s: Session, es: seq<Event>, t: Session)
    ensures Leads(s, es, NoneDropped, t) <==> Runs(s, es) && GuardedRun(s, es) && Run(s, es) == t
    decreases |es|
  {
    if es != [] && Next(s, es[0]) {
      ChecksAreTheGuard(Apply(s, es[0]), es[1..], t);
    }
  }

  lemma {:induction false} LeadsOn(s: Session, es: seq<Event>, k: Check, t: Session, e: Event)
    requires Leads(s, es, k, t) && Next(t, e) && GuardedBut(t, e, k)
    ensures Leads(s, es + [e], k, Apply(t, e))
    decreases |es|
  {
    if es == [] {
      assert es + [e] == [e] && [e][1..] == [];
    } else {
      assert (es + [e])[1..] == es[1..] + [e];
      LeadsOn(Apply(s, es[0]), es[1..], k, t, e);
    }
  }

  /** Some run that keeps every check but `k` ends in `t`. */
  ghost predicate Reached(k: Check, t: Session) {
    exists es :: Leads(START, es, k, t)
  }

  lemma Step(k: Check, s: Session, e: Event, t: Session)
    requires Reached(k, s) && Next(s, e) && GuardedBut(s, e, k) && Apply(s, e) == t
    ensures Reached(k, t)
  {
    var es :| Leads(START, es, k, s);
    LeadsOn(START, es, k, s, e);
  }

  /** A connection got a frame twice or out of order. */
  predicate Disordered(s: Session, c: Conn) {
    c in s.frames && !Increasing(s.frames[c])
  }

  lemma NotIncreasing(s: seq<nat>, i: nat)
    requires i + 1 < |s| && s[i] >= s[i + 1]
    ensures !Increasing(s)
  {
  }

  // ---- a first connection that is up and sending ------------------------------------

  function Connected(): Session {
    Session(0, [], [], Some(0), false, 0, 1, map[], map[0 := Welcoming(0, true, 0)], map[0 := []], 0)
  }

  /** Connection 0 is ready and the events of `stored` wait to be sent. */
  function Up(stored: seq<nat>): Session {
    Session(|stored|, stored, stored, Some(0), true, 0, 1, map[], map[], map[0 := []], 0)
  }

  /** Flush 0 has put frame 1 on connection 0 and awaits its completion. */
  function Awaiting(stored: seq<nat>, rest: seq<nat>): Session {
    Up(stored).(flights := map[0 := Sending(0, 0, rest, Some(1))], frames := map[0 := [1]])
  }

  lemma ReachConnected(k: Check)
    ensures Reached(k, Connected())
  {
    assert Leads(START, [], k, START);
    assert Reached(k, Connected()) by { Step(k, START, Connect(0, true), Connected()); }
  }

  lemma ReachUp(k: Check)
    ensures Reached(k, Up([]))
  {
    ReachConnected(k);
    var replaying := Connected().(shakes := map[0 := Replaying([], 0)]);
    assert Reached(k, replaying) by { Step(k, Connected(), WelcomeSent(0), replaying); }
    assert replaying.shakes - {0} == map[];
    assert Reached(k, Up([])) by { Step(k, replaying, ShakeFinish(0), Up([])); }
  }

  lemma ReachStored(k: Check, n: nat)
    requires 1 <= n <= 2
    ensures Reached(k, Up(if n == 1 then [1] else [1, 2]))
  {
    ReachUp(k);
    assert Reached(k, Up([1])) by { Step(k, Up([]), LocalAppend, Up([1])); }
    if n == 2 {
      assert [1] + [2] == [1, 2];
      assert Reached(k, Up([1, 2])) by { Step(k, Up([1]), LocalAppend, Up([1, 2])); }
    }
  }

  lemma ReachEntered(k: Check, stored: seq<nat>)
    requires Reached(k, Up(stored))
    ensures Reached(k, Up(stored).(flights := map[0 := Sending(0, 0, stored, None)]))
  {
    var waiting := Up(stored).(flights := map[0 := Waiting(0)]);
    assert Reached(k, waiting) by { Step(k, Up(stored), FlushStart(0), waiting); }
    Step(k, waiting, FlushEnter(0), Up(stored).(flights := map[0 := Sending(0, 0, stored, None)]));
  }

  lemma ReachAwaiting(k: Check, stored: seq<nat>, rest: seq<nat>)
    requires Reached(k, Up(stored)) && stored == [1] + rest
    ensures Reached(k, Awaiting(stored, rest))
  {
    ReachEntered(k, stored);
    assert stored[1..] == rest && [] + [1] == [1];
    Step(k, Up(stored).(flights := map[0 := Sending(0, 0, stored, None)]), FlushSend(0), Awaiting(stored, rest));
  }

  // ---- a flush queued on a replaced lock --------------------------------------------

  /** Flush 1 still waits for the lock of connection 0; connection 1 awaits its welcome. */
  function Queued(): Session {
    Session(1, [1], [1], Some(1), false, 0, 2, map[1 := Waiting(0)], map[1 := Welcoming(0, true, 0)],
            map[0 := [1], 1 := []], 0)
  }

  /** It has then put frame 1 on connection 1. */
  function Intruded(): Session {
    Queued().(flights := map[1 := Sending(0, 1, [], Some(1))], frames := map[0 := [1], 1 := [1]])
  }

  lemma ReachQueued()
    ensures Reached(Entry, Queued())
  {
    ReachStored(Entry, 1);
    ReachAwaiting(Entry, [1], []);
    var both := Awaiting([1], []).(flights := map[0 := Sending(0, 0, [], Some(1)), 1 := Waiting(0)]);
    assert Reached(Entry, both) by { Step(Entry, Awaiting([1], []), FlushStart(1), both); }
    var replaced := Queued().(flights := both.flights);
    assert [1][1..] == [] && Above([1], 0) == [1];
    assert both.frames[1 := []] == replaced.frames;
    assert Reached(Entry, replaced) by { Step(Entry, both, Connect(0, true), replaced); }
    assert both.flights - {0} == map[1 := Waiting(0)];
    assert Reached(Entry, Queued()) by { Step(Entry, replaced, FlushFail(0), Queued()); }
  }

  lemma ReachIntruded()
    ensures Reached(Entry, Intruded())
  {
    ReachQueued();
    var idle := Queued().(flights := map[1 := Sending(0, 1, [1], None)]);
    assert Queued().flights[1 := Sending(0, 1, [1], None)] == idle.flights;
    assert Reached(Entry, idle) by { Step(Entry, Queued(), FlushEnter(1), idle); }
    assert [1][1..] == [] && [] + [1] == [1];
    assert FrameOn(Queued().frames, 1, 1) == Intruded().frames;
    assert Reached(Entry, Intruded()) by { Step(Entry, idle, FlushSend(1), Intruded()); }
  }

  lemma ReachReplayBehind()
    ensures Reached(Entry, Intruded().(shakes := map[1 := Replaying([1], 0)]))
  {
    ReachIntruded();
    assert [1][1..] == [] && Above([1], 0) == [1];
    Step(Entry, Intruded(), WelcomeSent(1), Intruded().(shakes := map[1 := Replaying([1], 0)]));
  }

  /** The replay then sends frame 1 on connection 1 once more. */
  lemma QueuedFlushRepeats()
    ensures exists t :: Reached(Entry, t) && Disordered(t, 1)
  {
    ReachReplayBehind();
    var replaying := Intruded().(shakes := map[1 := Replaying([1], 0)]);
    var t := Intruded().(shakes := map[1 := Replaying([], 1)], frames := map[0 := [1], 1 := [1, 1]]);
    assert [1][1..] == [] && [1] + [1] == [1, 1];
    assert FrameOn(replaying.frames, 1, 1) == t.frames;
    assert Reached(Entry, t) by { Step(Entry, replaying, ReplaySend(1), t); }
    NotIncreasing([1, 1], 0);
    assert Disordered(t, 1);
  }

  // ---- a completion that arrives late -----------------------------------------------

  /** Connection 1 has replayed 1 and 2 and is ready, while the send of 1 on connection 0 is still awaited. */
  function Replayed(): Session {
    Session(2, [1, 2], [1, 2], Some(1), true, 2, 2, map[0 := Sending(0, 0, [2], Some(1))], map[],
            map[0 := [1], 1 := [1, 2]], 0)
  }

  /** The same session while connection 1 is replaying. */
  function MidReplay(rest: seq<nat>, replayed: nat, frames: seq<nat>): Session {
    Replayed().(ready := false, sent := 0, shakes := map[1 := Replaying(rest, replayed)],
                frames := map[0 := [1], 1 := frames])
  }

  lemma ReachRewelcomed()
    ensures Reached(Completion, MidReplay([], 0, []).(shakes := map[1 := Welcoming(0, true, 0)]))
  {
    ReachStored(Completion, 2);
    assert [1, 2] == [1] + [2];
    ReachAwaiting(Completion, [1, 2], [2]);
    var welcoming := MidReplay([], 0, []).(shakes := map[1 := Welcoming(0, true, 0)]);
    assert [1, 2][1..] == [2] && [2][1..] == [] && Above([2], 0) == [2] && Above([1, 2], 0) == [1, 2];
    assert Awaiting([1, 2], [2]).frames[1 := []] == welcoming.frames;
    Step(Completion, Awaiting([1, 2], [2]), Connect(0, true), welcoming);
  }

  lemma ReachMidReplay()
    ensures Reached(Completion, MidReplay([1, 2], 0, []))
  {
    ReachRewelcomed();
    var welcoming := MidReplay([], 0, []).(shakes := map[1 := Welcoming(0, true, 0)]);
    assert [1, 2][1..] == [2] && [2][1..] == [] && Above([2], 0) == [2] && Above([1, 2], 0) == [1, 2];
    Step(Completion, welcoming, WelcomeSent(1), MidReplay([1, 2], 0, []));
  }

  lemma ReachOneReplayed()
    ensures Reached(Completion, MidReplay([2], 1, [1]))
  {
    ReachMidReplay();
    assert [1, 2][1..] == [2] && [] + [1] == [1];
    assert FrameOn(map[0 := [1], 1 := []], 1, 1) == map[0 := [1], 1 := [1]];
    Step(Completion, MidReplay([1, 2], 0, []), ReplaySend(1), MidReplay([2], 1, [1]));
  }

  lemma ReachTwoReplayed()
    ensures Reached(Completion, MidReplay([], 2, [1, 2]))
  {
    ReachOneReplayed();
    assert [2][1..] == [] && [1] + [2] == [1, 2];
    assert FrameOn(map[0 := [1], 1 := [1]], 1, 2) == map[0 := [1], 1 := [1, 2]];
    Step(Completion, MidReplay([2], 1, [1]), ReplaySend(1), MidReplay([], 2, [1, 2]));
  }

  lemma ReachReplayed()
    ensures Reached(Completion, Replayed())
  {
    ReachTwoReplayed();
    assert map[1 := Replaying([], 2)] - {1} == map[];
    Step(Completion, MidReplay([], 2, [1, 2]), ShakeFinish(1), Replayed());
  }

  /** The late completion has set `sent_seq` back to 1. */
  function SetBack(flights: map<Flush, Flight>): Session {
    Replayed().(sent := 1, flights := map[0 := Sending(0, 0, [2], None)] + flights)
  }

  lemma ReachSetBack()
    ensures Reached(Completion, SetBack(map[]))
  {
    ReachReplayed();
    assert map[0 := Sending(0, 0, [2], None)] + map[] == map[0 := Sending(0, 0, [2], None)];
    Step(Completion, Replayed(), FlushSent(0), SetBack(map[]));
  }

  lemma ReachRequeued()
    ensures Reached(Completion, SetBack(map[1 := Waiting(1)]))
  {
    ReachSetBack();
    Step(Completion, SetBack(map[]), FlushStart(1), SetBack(map[1 := Waiting(1)]));
  }

  lemma ReachReflushing()
    ensures Reached(Completion, SetBack(map[1 := Sending(1, 1, [1, 2], None)]))
  {
    ReachRequeued();
    Step(Completion, SetBack(map[1 := Waiting(1)]), FlushEnter(1), SetBack(map[1 := Sending(1, 1, [1, 2], None)]));
  }

  lemma ReachSkipped()
    ensures Reached(Completion, SetBack(map[1 := Sending(1, 1, [2], None)]))
  {
    ReachReflushing();
    assert [1, 2][1..] == [2];
    Step(Completion, SetBack(map[1 := Sending(1, 1, [1, 2], None)]), FlushSkip(1),
         SetBack(map[1 := Sending(1, 1, [2], None)]));
  }

  lemma LateCompletionRepeats()
    ensures exists t :: Reached(Completion, t) && Disordered(t, 1)
  {
    ReachSkipped();
    assert [2][1..] == [] && [1, 2] + [2] == [1, 2, 2];
    var skipped := SetBack(map[1 := Sending(1, 1, [2], None)]);
    var t := SetBack(map[1 := Sending(1, 1, [], Some(2))]).(frames := map[0 := [1], 1 := [1, 2, 2]]);
    assert FrameOn(skipped.frames, 1, 2) == t.frames;
    assert Reached(Completion, t) by { Step(Completion, skipped, FlushSend(1), t); }
    NotIncreasing([1, 2, 2], 1);
    assert Disordered(t, 1);
  }

  // ---- a handshake that finishes late -----------------------------------------------

  /** Connection 1 awaits its welcome, but the finished handshake of connection 0 has declared the session ready. */
  function ReadyTooSoon(): Session {
    Session(1, [1], [1], Some(1), true, 0, 2, map[], map[1 := Welcoming(0, true, 0)], map[0 := [], 1 := []], 0)
  }

  lemma ReachBothShaking()
    ensures Reached(Finish, ReadyTooSoon().(ready := false,
                                            shakes := map[0 := Replaying([], 0), 1 := Welcoming(0, true, 0)]))
  {
    ReachConnected(Finish);
    var stored := Connected().(head := 1, stored := [1], outbox := [1]);
    var started := Connected().(shakes := map[0 := Replaying([], 0)]);
    assert Reached(Finish, started) by { Step(Finish, Connected(), WelcomeSent(0), started); }
    var appended := stored.(shakes := map[0 := Replaying([], 0)]);
    assert Reached(Finish, appended) by { Step(Finish, started, LocalAppend, appended); }
    assert [1][1..] == [] && Above([1], 0) == [1];
    var both := ReadyTooSoon().(ready := false, shakes := map[0 := Replaying([], 0), 1 := Welcoming(0, true, 0)]);
    assert appended.frames[1 := []] == both.frames;
    assert Reached(Finish, both) by { Step(Finish, appended, Connect(0, true), both); }
  }

  lemma ReachReadyTooSoon()
    ensures Reached(Finish, ReadyTooSoon())
  {
    ReachBothShaking();
    var both := ReadyTooSoon().(ready := false, shakes := map[0 := Replaying([], 0), 1 := Welcoming(0, true, 0)]);
    assert both.shakes - {0} == ReadyTooSoon().shakes;
    assert Reached(Finish, ReadyTooSoon()) by { Step(Finish, both, ShakeFinish(0), ReadyTooSoon()); }
  }

  /** A flush has used the readiness to put frame 1 on connection 1. */
  function Flushed(): Session {
    ReadyTooSoon().(flights := map[0 := Sending(1, 1, [], Some(1))], frames := map[0 := [], 1 := [1]])
  }

  function Idle(): Session {
    ReadyTooSoon().(flights := map[0 := Sending(1, 1, [1], None)])
  }

  lemma ReachWaiting()
    ensures Reached(Finish, ReadyTooSoon().(flights := map[0 := Waiting(1)]))
  {
    ReachReadyTooSoon();
    Step(Finish, ReadyTooSoon(), FlushStart(0), ReadyTooSoon().(flights := map[0 := Waiting(1)]));
  }

  lemma ReachIdle()
    ensures Reached(Finish, Idle())
  {
    ReachWaiting();
    Step(Finish, ReadyTooSoon().(flights := map[0 := Waiting(1)]), FlushEnter(0), Idle());
  }

  lemma ReachFlushed()
    ensures Reached(Finish, Flushed())
  {
    ReachIdle();
    assert [1][1..] == [] && [] + [1] == [1];
    assert FrameOn(Idle().frames, 1, 1) == Flushed().frames;
    Step(Finish, Idle(), FlushSend(0), Flushed());
  }

  lemma ReachReplayAgain()
    ensures Reached(Finish, Flushed().(shakes := map[1 := Replaying([1], 0)]))
  {
    ReachFlushed();
    assert [1][1..] == [] && Above([1], 0) == [1];
    Step(Finish, Flushed(), WelcomeSent(1), Flushed().(shakes := map[1 := Replaying([1], 0)]));
  }

  lemma LateFinishRepeats()
    ensures exists t :: Reached(Finish, t) && Disordered(t, 1)
  {
    ReachReplayAgain();
    var replaying := Flushed().(shakes := map[1 := Replaying([1], 0)]);
    var t := Flushed().(shakes := map[1 := Replaying([], 1)], frames := map[0 := [], 1 := [1, 1]]);
    assert [1][1..] == [] && [1] + [1] == [1, 1];
    assert FrameOn(replaying.frames, 1, 1) == t.frames;
    assert Reached(Finish, t) by { Step(Finish, replaying, ReplaySend(1), t); }
    NotIncreasing([1, 1], 0);
    assert Disordered(t, 1);
  }

  // ---- a flush that is cancelled in mid-send ----------------------------------------

  /** Flush 0 was cancelled with its frame on the wire, and flush 1 has entered the lock it left. */
  function Reentered(): Session {
    Up([1]).(flights := map[1 := Sending(0, 0, [1], None)], frames := map[0 := [1]])
  }

  lemma ReachCompeting()
    ensures Reached(Cancellation, Awaiting([1], []).(flights := map[0 := Sending(0, 0, [], Some(1)), 1 := Waiting(0)]))
  {
    ReachStored(Cancellation, 1);
    assert [1] == [1] + [];
    ReachAwaiting(Cancellation, [1], []);
    var both := Awaiting([1], []).(flights := map[0 := Sending(0, 0, [], Some(1)), 1 := Waiting(0)]);
    Step(Cancellation, Awaiting([1], []), FlushStart(1), both);
  }

  lemma ReachLeft()
    ensures Reached(Cancellation, Awaiting([1], []).(flights := map[1 := Waiting(0)]))
  {
    ReachCompeting();
    var both := Awaiting([1], []).(flights := map[0 := Sending(0, 0, [], Some(1)), 1 := Waiting(0)]);
    var left := Awaiting([1], []).(flights := map[1 := Waiting(0)]);
    assert both.flights - {0} == left.flights;
    Step(Cancellation, both, FlushCancel(0), left);
  }

  lemma ReachReentered()
    ensures Reached(Cancellation, Reentered())
  {
    ReachLeft();
    Step(Cancellation, Awaiting([1], []).(flights := map[1 := Waiting(0)]), FlushEnter(1), Reentered());
  }

  /** Nothing has recorded frame 1, so the other flush sends it again. */
  lemma CancelledFlushRepeats()
    ensures exists t :: Reached(Cancellation, t) && Disordered(t, 0)
  {
    ReachReentered();
    assert [1][1..] == [] && [1] + [1] == [1, 1];
    var t := Up([1]).(flights := map[1 := Sending(0, 0, [], Some(1))], frames := map[0 := [1, 1]]);
    assert FrameOn(Reentered().frames, 0, 1) == t.frames;
    assert Reached(Cancellation, t) by { Step(Cancellation, Reentered(), FlushSend(1), t); }
    NotIncreasing([1, 1], 0);
    assert Disordered(t, 0);
  }

  // ---- an event stored by another process -------------------------------------------

  /** During the welcome, another process stored 1 and this one stored 2. */
  function Overtaken(): Session {
    Session(2, [1, 2], [2], Some(0), false, 0, 1, map[], map[0 := Welcoming(0, true, 0)], map[0 := []], 0)
  }

  lemma ReachOvertaken(k: Check)
    ensures Reached(k, Overtaken())
  {
    ReachConnected(k);
    var foreign := Connected().(head := 1, stored := [1]);
    assert Reached(k, foreign) by { Step(k, Connected(), ForeignAppend, foreign); }
    assert [1] + [2] == [1, 2];
    assert Reached(k, Overtaken()) by { Step(k, foreign, LocalAppend, Overtaken()); }
  }

  function Mixed(rest: seq<nat>, replayed: nat, frames: seq<nat>): Session {
    Overtaken().(outbox := [2, 1], shakes := map[0 := Replaying(rest, replayed)], frames := map[0 := frames])
  }

  /** A repeated event key has brought number 1 into the outbox behind number 2. */
  lemma ReachMixed()
    ensures Reached(Order, Mixed([2, 1], 0, []))
  {
    ReachOvertaken(Order);
    var mixed := Overtaken().(outbox := [2, 1]);
    assert [2] + [1] == [2, 1];
    assert Reached(Order, mixed) by { Step(Order, Overtaken(), KnownAppend(1), mixed); }
    assert [2, 1][1..] == [1] && [1][1..] == [] && Above([1], 0) == [1] && [2] + [1] == [2, 1] &&
      Above([2, 1], 0) == [2, 1];
    assert Reached(Order, Mixed([2, 1], 0, [])) by { Step(Order, mixed, WelcomeSent(0), Mixed([2, 1], 0, [])); }
  }

  lemma RepeatedKeyReorders()
    ensures exists t :: Reached(Order, t) && Disordered(t, 0)
  {
    ReachMixed();
    assert [2, 1][1..] == [1] && [1][1..] == [] && [] + [2] == [2] && [2] + [1] == [2, 1];
    assert Reached(Order, Mixed([1], 2, [2]))
      by { Step(Order, Mixed([2, 1], 0, []), ReplaySend(0), Mixed([1], 2, [2])); }
    assert Reached(Order, Mixed([], 2, [2, 1]))
      by { Step(Order, Mixed([1], 2, [2]), ReplaySend(0), Mixed([], 2, [2, 1])); }
    NotIncreasing([2, 1], 0);
    assert Disordered(Mixed([], 2, [2, 1]), 0);
  }

  /** Main result. Each of the five checks is needed: without it some run repeats or reorders frames. */
  lemma EachCheckNeeded(k: Check)
    requires k != NoneDropped
    ensures exists t, c :: Reached(k, t) && Disordered(t, c)
  {
    match k
    case Entry => QueuedFlushRepeats();
    case Completion => LateCompletionRepeats();
    case Finish => LateFinishRepeats();
    case Order => RepeatedKeyReorders();
    case Cancellation => CancelledFlushRepeats();
  }

  /** Connection 0 is ready, yet the stored event 1 was neither sent nor lies above what counts as sent. */
  predicate Skips(s: Session) {
    s.ready && s.ws == Some(0) && 1 in s.stored && 1 <= s.sent && s.frames == map[0 := [2]]
  }

  /**
   Increasing does not mean complete: with every check in place, a run may pass over a number that another
   process stored during the handshake, and never send it on this connection.
   */
  lemma ForeignEventSkipped()
    ensures exists t :: Reached(NoneDropped, t) && Skips(t)
  {
    ReachPassedOver();
    var replayed := Overtaken().(shakes := map[0 := Replaying([], 2)], frames := map[0 := [2]]);
    assert replayed.shakes - {0} == map[];
    var t := replayed.(sent := 2, ready := true, shakes := map[]);
    assert Reached(NoneDropped, t) by { Step(NoneDropped, replayed, ShakeFinish(0), t); }
    assert Skips(t);
  }

  lemma ReachPassedOver()
    ensures Reached(NoneDropped, Overtaken().(shakes := map[0 := Replaying([], 2)], frames := map[0 := [2]]))
  {
    ReachOvertaken(NoneDropped);
    assert [2][1..] == [] && Above([2], 0) == [2] && [] + [2] == [2];
    var replaying := Overtaken().(shakes := map[0 := Replaying([2], 0)]);
    assert Reached(NoneDropped, replaying) by { Step(NoneDropped, Overtaken(), WelcomeSent(0), replaying); }
    var replayed := Overtaken().(shakes := map[0 := Replaying([], 2)], frames := map[0 := [2]]);
    Step(NoneDropped, replaying, ReplaySend(0), replayed);
  }
}
