/**
 One WebSocket session between its `await` points: connections that replace each other, the replay of a
 handshake, and the flushes that send new events. Connections are numbered in the order they arrive; each
 brings its own send lock, so a lock is named by its connection.
 */
module SessionWire {
  import opened Prelude

  type Conn = nat
  type Flush = nat

  /** A running call of `flush`: queued for a lock, or holding it with a list of numbers left to send. */
  datatype Flight =
    | Waiting(lock: Conn)
    | Sending(lock: Conn, conn: Conn, rest: seq<nat>, pending: Option<nat>)

  /** A handshake that has not finished: awaiting its welcome frame, or replaying. */
  datatype Shake =
    | Welcoming(last: nat, resumable: bool, replayed: nat)
    | Replaying(rest: seq<nat>, replayed: nat)

  /**
   `stored` are the numbers in the event store, `frames` everything put on each connection so far, and `start`
   what the client of the latest connection has seen.
   */
  datatype Session = Session(
    head: nat, stored: seq<nat>, outbox: seq<nat>,
    ws: Option<Conn>, ready: bool, sent: nat, conns: nat,
    flights: map<Flush, Flight>, shakes: map<Conn, Shake>, frames: map<Conn, seq<nat>>, start: nat)

  datatype Event =
    | Connect(last: nat, resumable: bool)
    | WelcomeSent(c: Conn)
    | ReplaySend(c: Conn)
    | ShakeFinish(c: Conn)
    | ShakeAbort(c: Conn)
    | Disconnect
    | FlushStart(f: Flush)
    | FlushEnter(f: Flush)
    | FlushSkip(f: Flush)
    | FlushSend(f: Flush)
    | FlushSent(f: Flush)
    | FlushFail(f: Flush)
    | FlushCancel(f: Flush)
    | FlushEnd(f: Flush)
    | LocalAppend
    | KnownAppend(n: nat)
    | ForeignAppend
    | Acked(n: nat)
    | Expire(gone: set<nat>)

  predicate Increasing(s: seq<nat>) {
    forall i, j :: 0 <= i < j < |s| ==> s[i] < s[j]
  }

  function Above(s: seq<nat>, n: nat): seq<nat> {
    if s == [] then [] else if s[0] > n then [s[0]] + Above(s[1..], n) else Above(s[1..], n)
  }

  function Without(s: seq<nat>, gone: set<nat>): seq<nat> {
    if s == [] then [] else if s[0] !in gone then [s[0]] + Without(s[1..], gone) else Without(s[1..], gone)
  }

  /** `ack` pops the outbox from the left only. */
  function PopUpTo(s: seq<nat>, n: nat): seq<nat> {
    if s == [] || s[0] > n then s else PopUpTo(s[1..], n)
  }

  function Max(a: nat, b: nat): nat {
    if a > b then a else b
  }

  predicate LockFree(s: Session, lock: Conn) {
    forall f :: f in s.flights ==> !(s.flights[f].Sending? && s.flights[f].lock == lock)
  }

  predicate IsWaiting(s: Session, f: Flush) {
    f in s.flights && s.flights[f].Waiting?
  }

  /** The flush holds its lock and does not await a send. */
  predicate IsIdle(s: Session, f: Flush) {
    f in s.flights && s.flights[f].Sending? && s.flights[f].pending.None?
  }

  predicate IsPending(s: Session, f: Flush) {
    f in s.flights && s.flights[f].Sending? && s.flights[f].pending.Some?
  }

  /** The test at the top of the sending loop. */
  predicate MaySend(s: Session, f: Flush)
    requires IsIdle(s, f)
  {
    s.flights[f].rest != [] && s.flights[f].rest[0] > s.sent && s.ws == Some(s.flights[f].conn)
  }

  predicate Next(s: Session, e: Event) {
    match e
    case Connect(last, resumable) => resumable ==> last <= s.head
    case WelcomeSent(c) => c in s.shakes && s.shakes[c].Welcoming?
    case ReplaySend(c) => c in s.shakes && s.shakes[c].Replaying? && s.shakes[c].rest != []
    case ShakeFinish(c) => c in s.shakes && s.shakes[c].Replaying? && s.shakes[c].rest == []
    case ShakeAbort(c) => c in s.shakes
    case Disconnect => true
    case FlushStart(f) => f !in s.flights && s.ws.Some? && s.ready && s.conns > 0
    case FlushEnter(f) => IsWaiting(s, f) && LockFree(s, s.flights[f].lock)
    case FlushSkip(f) => IsIdle(s, f) && s.flights[f].rest != [] && !MaySend(s, f)
    case FlushSend(f) => IsIdle(s, f) && MaySend(s, f)
    case FlushSent(f) => IsPending(s, f)
    case FlushFail(f) => IsPending(s, f)
    case FlushCancel(f) => f in s.flights
    case FlushEnd(f) => IsIdle(s, f) && s.flights[f].rest == []
    case LocalAppend => true
    case KnownAppend(n) => n in s.stored
    case ForeignAppend => true
    case Acked(n) => n <= s.head
    case Expire(_) => true
  }

  function ConnectTo(s: Session, last: nat, resumable: bool): Session {
    var c := s.conns;
    s.(stored := if resumable then Above(s.stored, last) else s.stored,
       outbox := if resumable then PopUpTo(s.stored, last) else s.stored,
       ws := Some(c), ready := false, conns := c + 1,
       shakes := s.shakes[c := Welcoming(last, resumable, if resumable then last else s.head)],
       frames := s.frames[c := []], start := if resumable then last else s.head)
  }

  function Replay(s: Session, c: Conn): Session
    requires c in s.shakes && s.shakes[c].Welcoming?
  {
    var k := s.shakes[c];
    s.(shakes := s.shakes[c := Replaying(if k.resumable then Above(s.outbox, k.last) else [], k.replayed)])
  }

  function FrameOn(frames: map<Conn, seq<nat>>, c: Conn, n: nat): map<Conn, seq<nat>> {
    if c in frames then frames[c := frames[c] + [n]] else frames
  }

  function ReplayOne(s: Session, c: Conn): Session
    requires c in s.shakes && s.shakes[c].Replaying? && s.shakes[c].rest != []
  {
    var k := s.shakes[c];
    s.(frames := FrameOn(s.frames, c, k.rest[0]),
       shakes := s.shakes[c := Replaying(k.rest[1..], Max(k.replayed, k.rest[0]))])
  }

  /** A failing connection is forgotten only while it is the current one. */
  function Drop(s: Session, c: Conn): Session {
    if s.ws == Some(c) then s.(ws := None) else s
  }

  /** The lock is taken now, and only now the current connection and the stored events are read. */
  function Enter(s: Session, f: Flush): Session
    requires IsWaiting(s, f)
  {
    if s.ws.None? then s.(flights := s.flights - {f})
    else s.(outbox := s.stored, flights := s.flights[f := Sending(s.flights[f].lock, s.ws.value, s.stored, None)])
  }

  function SendOne(s: Session, f: Flush): Session
    requires IsIdle(s, f) && s.flights[f].rest != []
  {
    var g := s.flights[f];
    s.(frames := FrameOn(s.frames, g.conn, g.rest[0]),
       flights := s.flights[f := g.(rest := g.rest[1..], pending := Some(g.rest[0]))])
  }

  function Apply(s: Session, e: Event): Session
    requires Next(s, e)
  {
    match e
    case Connect(last, resumable) => ConnectTo(s, last, resumable)
    case WelcomeSent(c) => Replay(s, c)
    case ReplaySend(c) => ReplayOne(s, c)
    case ShakeFinish(c) => s.(sent := s.shakes[c].replayed, ready := true, shakes := s.shakes - {c})
    case ShakeAbort(c) => Drop(s.(shakes := s.shakes - {c}), c)
    case Disconnect => s.(ws := None)
    case FlushStart(f) => s.(flights := s.flights[f := Waiting(s.conns - 1)])
    case FlushEnter(f) => Enter(s, f)
    case FlushSkip(f) => s.(flights := s.flights[f := s.flights[f].(rest := s.flights[f].rest[1..])])
    case FlushSend(f) => SendOne(s, f)
    case FlushSent(f) => s.(sent := s.flights[f].pending.value,
                            flights := s.flights[f := s.flights[f].(pending := None)])
    case FlushFail(f) => Drop(s.(flights := s.flights - {f}), s.flights[f].conn)
    case FlushCancel(f) => s.(flights := s.flights - {f})
    case FlushEnd(f) => s.(flights := s.flights - {f})
    case LocalAppend => s.(head := s.head + 1, stored := s.stored + [s.head + 1], outbox := s.outbox + [s.head + 1])
    case KnownAppend(n) => if n in s.outbox then s else s.(outbox := s.outbox + [n])
    case ForeignAppend => s.(head := s.head + 1, stored := s.stored + [s.head + 1])
    case Acked(n) => s.(stored := Above(s.stored, n), outbox := PopUpTo(s.outbox, n))
    case Expire(gone) => s.(stored := Without(s.stored, gone))
  }

  const START := Session(0, [], [], None, false, 0, 0, map[], map[], map[], 0)

  predicate Runs(s: Session, es: seq<Event>)
    decreases |es|
  {
    es == [] || (Next(s, es[0]) && Runs(Apply(s, es[0]), es[1..]))
  }

  function Run(s: Session, es: seq<Event>): Session
    requires Runs(s, es)
    decreases |es|
  {
    if es == [] then s else Run(Apply(s, es[0]), es[1..])
  }

  // ---- the checks the code does not make --------------------------------------------

  /** A flush queued on a lock of a replaced connection does not start sending on the current one. */
  predicate EntersOwnLock(s: Session, e: Event) {
    e.FlushEnter? && IsWaiting(s, e.f) ==> s.flights[e.f].lock + 1 == s.conns || s.ws.None?
  }

  /** A send that completes late does not set `sent_seq` back under a newer, ready connection. */
  predicate CompletesInTime(s: Session, e: Event) {
    e.FlushSent? && IsPending(s, e.f) ==> s.flights[e.f].conn + 1 == s.conns || !s.ready
  }

  /** A replaced handshake does not declare its successor ready. */
  predicate FinishesInTime(s: Session, e: Event) {
    e.ShakeFinish? ==> e.c + 1 == s.conns
  }

  /** The outbox is in order when its copy is replayed. */
  predicate ReplaysInOrder(s: Session, e: Event) {
    e.WelcomeSent? ==> Increasing(s.outbox)
  }

  /** A flush cancelled with its pump while it awaits a send has given up its connection. */
  predicate CancelsDropped(s: Session, e: Event) {
    e.FlushCancel? && IsPending(s, e.f) ==> s.ws != Some(s.flights[e.f].conn)
  }

  predicate Guarded(s: Session, e: Event) {
    && EntersOwnLock(s, e) && CompletesInTime(s, e) && FinishesInTime(s, e) && ReplaysInOrder(s, e)
    && CancelsDropped(s, e)
  }

  predicate GuardedRun(s: Session, es: seq<Event>)
    requires Runs(s, es)
    decreases |es|
  {
    es == [] || (Guarded(s, es[0]) && GuardedRun(Apply(s, es[0]), es[1..]))
  }
}
