/** In which order, and how often, frames reach a connection. */
module SessionOrder {
  import opened Prelude
  import opened SessionWire

  // ---- sequences --------------------------------------------------------------------

  lemma IncreasingPrepend(n: nat, s: seq<nat>)
    requires Increasing(s) && forall x :: x in s ==> n < x
    ensures Increasing([n] + s)
  {
    assert forall i :: 0 <= i < |s| ==> s[i] in s;
  }

  lemma IncreasingTail(s: seq<nat>)
    requires Increasing(s) && s != []
    ensures Increasing(s[1..]) && forall x :: x in s[1..] ==> s[0] < x
  {
  }

  lemma {:induction false} AboveKeeps(s: seq<nat>, n: nat)
    ensures forall x :: x in Above(s, n) ==> x in s && x > n
    ensures Increasing(s) ==> Increasing(Above(s, n))
  {
    if s != [] {
      AboveKeeps(s[1..], n);
      if Increasing(s) {
        IncreasingTail(s);
        IncreasingPrepend(s[0], Above(s[1..], n));
      }
    }
  }

  lemma {:induction false} WithoutKeeps(s: seq<nat>, gone: set<nat>)
    ensures forall x :: x in Without(s, gone) ==> x in s
    ensures Increasing(s) ==> Increasing(Without(s, gone))
  {
    if s != [] {
      WithoutKeeps(s[1..], gone);
      if Increasing(s) {
        IncreasingTail(s);
        IncreasingPrepend(s[0], Without(s[1..], gone));
      }
    }
  }

  lemma IncreasingAppend(s: seq<nat>, n: nat)
    requires Increasing(s) && forall x :: x in s ==> x < n
    ensures Increasing(s + [n])
  {
    assert forall i :: 0 <= i < |s| ==> s[i] in s;
  }

  lemma IncreasingMove(a: seq<nat>, b: seq<nat>)
    requires b != [] && Increasing(a + b)
    ensures Increasing((a + [b[0]]) + b[1..]) && Increasing(a + [b[0]])
  {
    assert (a + [b[0]]) + b[1..] == a + b;
    assert a + [b[0]] == (a + b)[..|a| + 1];
  }

  // ---- the invariant ----------------------------------------------------------------

  predicate FlightOk(s: Session, f: Flush)
    requires f in s.flights
  {
    var g := s.flights[f];
    && g.lock < s.conns && g.lock !in s.shakes
    && (g.lock + 1 == s.conns ==> s.ready)
    && (g.Sending? ==> g.conn == g.lock && Increasing(g.rest))
    && (g.Sending? && g.pending.Some? ==> forall x :: x in g.rest ==> g.pending.value < x)
  }

  predicate SameLock(f: Flight, g: Flight) {
    f.Sending? && g.Sending? && f.lock == g.lock
  }

  predicate FlightsOk(s: Session) {
    && (forall f :: f in s.flights ==> FlightOk(s, f))
    && (forall f, g :: f in s.flights && g in s.flights && SameLock(s.flights[f], s.flights[g]) ==> f == g)
  }

  predicate FramesOk(s: Session) {
    (forall c :: c in s.frames ==> c < s.conns) && (forall c :: 0 <= c < s.conns ==> c in s.frames)
  }

  predicate StoreOk(s: Session) {
    Increasing(s.stored) && forall x :: x in s.stored ==> x <= s.head
  }

  predicate Basics(s: Session) {
    && (s.ws.Some? ==> s.ws.value + 1 == s.conns)
    && (s.ready ==> s.conns > 0 && s.conns - 1 !in s.shakes)
    && (forall c :: c in s.shakes ==> c < s.conns)
    && FramesOk(s) && StoreOk(s)
  }

  predicate ShakeOk(k: Shake, frames: seq<nat>) {
    match k
    case Welcoming(last, _, replayed) => frames == []
    case Replaying(rest, replayed) => Increasing(frames + rest) && forall x :: x in frames ==> x <= replayed
  }

  /** `n` is the frame whose completion some flush awaits on connection `c`. */
  predicate Awaited(s: Session, c: Conn, n: nat) {
    exists f :: f in s.flights && s.flights[f].Sending? && s.flights[f].conn == c && s.flights[f].pending == Some(n)
  }

  predicate IsLast(s: seq<nat>, n: nat) {
    s != [] && s[|s| - 1] == n
  }

  ghost predicate ConnOk(s: Session, c: Conn)
    requires c in s.frames
  {
    && Increasing(s.frames[c])
    && (c in s.shakes ==> ShakeOk(s.shakes[c], s.frames[c]))
    && (s.ws == Some(c) && s.ready ==> forall x :: x in s.frames[c] ==> x <= s.sent || Awaited(s, c, x))
    && (forall n: nat :: Awaited(s, c, n) ==> IsLast(s.frames[c], n))
  }

  // ---- basics -----------------------------------------------------------------------

  predicate StoreEvent(e: Event) {
    e.LocalAppend? || e.KnownAppend? || e.ForeignAppend? || e.Acked? || e.Expire?
  }

  predicate FlushEvent(e: Event) {
    e.FlushStart? || e.FlushEnter? || e.FlushSkip? || e.FlushSend? || e.FlushSent? || e.FlushFail? || e.FlushCancel? ||
      e.FlushEnd?
  }

  lemma StoreStays(s: Session, e: Event)
    requires Next(s, e) && StoreOk(s)
    ensures StoreOk(Apply(s, e))
  {
    match e
    case Connect(last, _) => AboveKeeps(s.stored, last);
    case Acked(n) => AboveKeeps(s.stored, n);
    case Expire(gone) => WithoutKeeps(s.stored, gone);
    case LocalAppend => IncreasingAppend(s.stored, s.head + 1);
    case ForeignAppend => IncreasingAppend(s.stored, s.head + 1);
    case _ =>
  }

  lemma BasicsStay(s: Session, e: Event)
    requires Next(s, e) && Basics(s) && Guarded(s, e)
    ensures Basics(Apply(s, e))
  {
    StoreStays(s, e);
  }

  // ---- flights ----------------------------------------------------------------------

  lemma ConnectFlights(s: Session, last: nat, resumable: bool)
    requires Basics(s) && FlightsOk(s)
    ensures FlightsOk(ConnectTo(s, last, resumable))
  {
    var s' := ConnectTo(s, last, resumable);
    forall f | f in s'.flights
      ensures FlightOk(s', f)
    {
      assert FlightOk(s, f);
    }
  }

  lemma ShakeFlights(s: Session, e: Event)
    requires Next(s, e) && Basics(s) && FlightsOk(s) && Guarded(s, e)
    requires !FlushEvent(e) && !e.Connect?
    ensures FlightsOk(Apply(s, e))
  {
    var s' := Apply(s, e);
    forall f | f in s'.flights
      ensures FlightOk(s', f)
    {
      assert FlightOk(s, f);
    }
  }

  lemma EnterFlights(s: Session, f: Flush)
    requires Next(s, FlushEnter(f)) && Basics(s) && FlightsOk(s) && Guarded(s, FlushEnter(f))
    ensures FlightsOk(Enter(s, f))
  {
    var s' := Enter(s, f);
    assert FlightOk(s, f);
    forall g | g in s'.flights
      ensures FlightOk(s', g)
    {
      assert g in s.flights && FlightOk(s, g);
    }
  }

  lemma SendFlights(s: Session, f: Flush)
    requires Next(s, FlushSend(f)) && Basics(s) && FlightsOk(s)
    ensures FlightsOk(SendOne(s, f))
  {
    var s' := SendOne(s, f);
    assert FlightOk(s, f);
    forall g | g in s'.flights
      ensures FlightOk(s', g)
    {
      assert g in s.flights && FlightOk(s, g);
    }
  }

  lemma OtherFlights(s: Session, e: Event)
    requires Next(s, e) && Basics(s) && FlightsOk(s) && Guarded(s, e)
    requires e.FlushStart? || e.FlushSkip? || e.FlushSent? || e.FlushFail? || e.FlushCancel? || e.FlushEnd?
    ensures FlightsOk(Apply(s, e))
  {
    var s' := Apply(s, e);
    forall g | g in s'.flights
      ensures FlightOk(s', g)
    {
      if g in s.flights {
        assert FlightOk(s, g);
      }
    }
  }

  lemma FlightsStay(s: Session, e: Event)
    requires Next(s, e) && Basics(s) && FlightsOk(s) && Guarded(s, e)
    ensures FlightsOk(Apply(s, e))
  {
    if e.Connect? {
      ConnectFlights(s, e.last, e.resumable);
    } else if e.FlushEnter? {
      EnterFlights(s, e.f);
    } else if e.FlushSend? {
      SendFlights(s, e.f);
    } else if FlushEvent(e) {
      OtherFlights(s, e);
    } else {
      ShakeFlights(s, e);
    }
  }

  // ---- frames -----------------------------------------------------------------------

  lemma AwaitedSame(s: Session, s': Session, c: Conn, n: nat)
    requires s.flights == s'.flights
    ensures Awaited(s, c, n) == Awaited(s', c, n)
  {
  }

  lemma ConnectConn(s: Session, last: nat, resumable: bool, c: Conn)
    requires Basics(s) && FlightsOk(s) && c in ConnectTo(s, last, resumable).frames
    requires c in s.frames ==> ConnOk(s, c)
    ensures ConnOk(ConnectTo(s, last, resumable), c)
  {
    var s' := ConnectTo(s, last, resumable);
    forall n: nat | Awaited(s', c, n)
      ensures IsLast(s'.frames[c], n)
    {
      AwaitedSame(s, s', c, n);
      var f :| f in s.flights && s.flights[f].Sending? && s.flights[f].conn == c && s.flights[f].pending == Some(n);
      assert FlightOk(s, f);
    }
  }

  lemma WelcomeConn(s: Session, c: Conn, w: Conn)
    requires Basics(s) && c in s.frames && ConnOk(s, c) && Next(s, WelcomeSent(w)) && Guarded(s, WelcomeSent(w))
    ensures ConnOk(Replay(s, w), c)
  {
    var s' := Replay(s, w);
    AboveKeeps(s.outbox, s.shakes[w].last);
    forall n: nat
      ensures Awaited(s, c, n) == Awaited(s', c, n)
    {
      AwaitedSame(s, s', c, n);
    }
    if c == w {
      assert s.frames[c] + s'.shakes[c].rest == s'.shakes[c].rest;
    }
  }

  lemma ReplayConn(s: Session, c: Conn, w: Conn)
    requires Basics(s) && FlightsOk(s) && c in s.frames && ConnOk(s, c) && Next(s, ReplaySend(w))
    ensures ConnOk(ReplayOne(s, w), c)
  {
    var s' := ReplayOne(s, w);
    forall n: nat
      ensures Awaited(s, c, n) == Awaited(s', c, n)
    {
      AwaitedSame(s, s', c, n);
    }
    if c == w {
      IncreasingMove(s.frames[c], s.shakes[c].rest);
      NotAwaitedWhileShaking(s, c);
    }
  }

  lemma NotAwaitedWhileShaking(s: Session, c: Conn)
    requires FlightsOk(s) && c in s.shakes
    ensures forall n: nat :: !Awaited(s, c, n)
  {
  }

  lemma FinishConn(s: Session, c: Conn, w: Conn)
    requires Basics(s) && c in s.frames && ConnOk(s, c) && Next(s, ShakeFinish(w)) && Guarded(s, ShakeFinish(w))
    ensures ConnOk(Apply(s, ShakeFinish(w)), c)
  {
    var s' := Apply(s, ShakeFinish(w));
    forall n: nat
      ensures Awaited(s, c, n) == Awaited(s', c, n)
    {
      AwaitedSame(s, s', c, n);
    }
  }

  lemma QuietConn(s: Session, c: Conn, e: Event)
    requires Basics(s) && c in s.frames && ConnOk(s, c) && Next(s, e)
    requires StoreEvent(e) || e.ShakeAbort? || e.Disconnect?
    ensures ConnOk(Apply(s, e), c)
  {
    var s' := Apply(s, e);
    forall n: nat
      ensures Awaited(s, c, n) == Awaited(s', c, n)
    {
      AwaitedSame(s, s', c, n);
    }
  }

  /** The flush that awaits a frame holds the only lock of its connection. */
  lemma AwaitedByHolder(s: Session, f: Flush, c: Conn, n: nat)
    requires FlightsOk(s) && f in s.flights && s.flights[f].Sending? && s.flights[f].conn == c && Awaited(s, c, n)
    ensures s.flights[f].pending == Some(n)
  {
    var g :| g in s.flights && s.flights[g].Sending? && s.flights[g].conn == c && s.flights[g].pending == Some(n);
    assert FlightOk(s, f) && FlightOk(s, g);
    assert SameLock(s.flights[f], s.flights[g]);
  }

  /** Steps of a flush that leave what is awaited on every connection as it is. */
  predicate NoSend(s: Session, e: Event) {
    e.FlushStart? || e.FlushEnter? || e.FlushSkip? || e.FlushEnd? || (e.FlushCancel? && !IsPending(s, e.f))
  }

  lemma SameAwaited(s: Session, e: Event, c: Conn, n: nat)
    requires Next(s, e) && NoSend(s, e)
    ensures Awaited(s, c, n) == Awaited(Apply(s, e), c, n)
  {
    var s' := Apply(s, e);
    if Awaited(s, c, n) {
      var g :| g in s.flights && s.flights[g].Sending? && s.flights[g].conn == c && s.flights[g].pending == Some(n);
      assert g in s'.flights && s'.flights[g].Sending? && s'.flights[g].conn == c && s'.flights[g].pending == Some(n);
    }
    if Awaited(s', c, n) {
      var g :| g in s'.flights && s'.flights[g].Sending? && s'.flights[g].conn == c && s'.flights[g].pending == Some(n);
      assert g in s.flights && s.flights[g].Sending? && s.flights[g].conn == c && s.flights[g].pending == Some(n);
    }
  }

  lemma IdleConn(s: Session, c: Conn, e: Event)
    requires c in s.frames && ConnOk(s, c)
    requires Next(s, e) && NoSend(s, e)
    ensures ConnOk(Apply(s, e), c)
  {
    var s' := Apply(s, e);
    forall n: nat
      ensures Awaited(s, c, n) == Awaited(s', c, n)
    {
      SameAwaited(s, e, c, n);
    }
  }

  predicate SendStep(s: Session, e: Event) {
    e.FlushSend? || e.FlushSent? || e.FlushFail? || (e.FlushCancel? && IsPending(s, e.f))
  }

  lemma OtherAwaited(s: Session, e: Event, c: Conn, n: nat)
    requires Next(s, e) && SendStep(s, e) && s.flights[e.f].conn != c
    ensures Awaited(s, c, n) == Awaited(Apply(s, e), c, n)
  {
    var s' := Apply(s, e);
    if Awaited(s, c, n) {
      var g :| g in s.flights && s.flights[g].Sending? && s.flights[g].conn == c && s.flights[g].pending == Some(n);
      assert g in s'.flights && s'.flights[g].Sending? && s'.flights[g].conn == c && s'.flights[g].pending == Some(n);
    }
    if Awaited(s', c, n) {
      var g :| g in s'.flights && s'.flights[g].Sending? && s'.flights[g].conn == c && s'.flights[g].pending == Some(n);
      assert g in s.flights && s.flights[g].Sending? && s.flights[g].conn == c && s.flights[g].pending == Some(n);
    }
  }

  lemma SendConnOther(s: Session, c: Conn, e: Event)
    requires Basics(s) && FlightsOk(s) && c in s.frames && ConnOk(s, c) && Next(s, e) && Guarded(s, e)
    requires SendStep(s, e) && s.flights[e.f].conn != c
    ensures ConnOk(Apply(s, e), c)
  {
    var s' := Apply(s, e);
    forall n: nat
      ensures Awaited(s, c, n) == Awaited(s', c, n)
    {
      OtherAwaited(s, e, c, n);
    }
  }

  lemma SendConn(s: Session, c: Conn, f: Flush)
    requires Basics(s) && FlightsOk(s) && c in s.frames && ConnOk(s, c) && Next(s, FlushSend(f)) &&
      s.flights[f].conn == c
    ensures ConnOk(SendOne(s, f), c)
  {
    var s', n := SendOne(s, f), s.flights[f].rest[0];
    assert FlightOk(s, f);
    forall x | x in s.frames[c]
      ensures x <= s.sent
    {
      if Awaited(s, c, x) {
        AwaitedByHolder(s, f, c, x);
      }
    }
    IncreasingAppend(s.frames[c], n);
    assert s'.flights[f].Sending? && s'.flights[f].conn == c && s'.flights[f].pending == Some(n);
    assert Awaited(s', c, n);
    SendFlights(s, f);
    forall m: nat | Awaited(s', c, m)
      ensures m == n
    {
      AwaitedByHolder(s', f, c, m);
    }
  }

  lemma SentConn(s: Session, c: Conn, f: Flush)
    requires Basics(s) && FlightsOk(s) && c in s.frames && ConnOk(s, c) && Next(s, FlushSent(f)) &&
      s.flights[f].conn == c
    requires Guarded(s, FlushSent(f))
    ensures ConnOk(Apply(s, FlushSent(f)), c)
  {
    var s', n := Apply(s, FlushSent(f)), s.flights[f].pending.value;
    assert FlightOk(s, f);
    assert Awaited(s, c, n);
    assert forall x :: x in s.frames[c] ==> x <= n;
    OtherFlights(s, FlushSent(f));
    forall m: nat
      ensures !Awaited(s', c, m)
    {
      if Awaited(s', c, m) {
        AwaitedByHolder(s', f, c, m);
      }
    }
  }

  lemma FailConn(s: Session, c: Conn, e: Event)
    requires Basics(s) && FlightsOk(s) && c in s.frames && ConnOk(s, c) && Next(s, e) && Guarded(s, e)
    requires (e.FlushFail? || e.FlushCancel?) && IsPending(s, e.f) && s.flights[e.f].conn == c
    ensures ConnOk(Apply(s, e), c)
  {
    var s' := Apply(s, e);
    forall m: nat
      ensures !Awaited(s', c, m)
    {
      if Awaited(s', c, m) {
        var g :| g in s'.flights && s'.flights[g].Sending? && s'.flights[g].conn == c &&
          s'.flights[g].pending == Some(m);
        assert FlightOk(s, e.f) && FlightOk(s, g) && SameLock(s.flights[e.f], s.flights[g]);
      }
    }
  }

  lemma FlushConn(s: Session, c: Conn, e: Event)
    requires Basics(s) && FlightsOk(s) && c in s.frames && ConnOk(s, c) && Next(s, e) && Guarded(s, e) && FlushEvent(e)
    ensures c in Apply(s, e).frames && ConnOk(Apply(s, e), c)
  {
    if NoSend(s, e) {
      IdleConn(s, c, e);
    } else if s.flights[e.f].conn != c {
      SendConnOther(s, c, e);
    } else if e.FlushSend? {
      SendConn(s, c, e.f);
    } else if e.FlushSent? {
      SentConn(s, c, e.f);
    } else {
      FailConn(s, c, e);
    }
  }

  lemma ConnStays(s: Session, e: Event, c: Conn)
    requires Basics(s) && FlightsOk(s) && Next(s, e) && Guarded(s, e)
    requires c in Apply(s, e).frames && (c in s.frames ==> ConnOk(s, c))
    ensures ConnOk(Apply(s, e), c)
  {
    if e.Connect? {
      ConnectConn(s, e.last, e.resumable, c);
    } else if FlushEvent(e) {
      FlushConn(s, c, e);
    } else if StoreEvent(e) || e.ShakeAbort? || e.Disconnect? {
      QuietConn(s, c, e);
    } else if e.WelcomeSent? {
      WelcomeConn(s, c, e.c);
    } else if e.ReplaySend? {
      ReplayConn(s, c, e.c);
    } else {
      FinishConn(s, c, e.c);
    }
  }

  // ---- main result ------------------------------------------------------------------

  ghost predicate Inv(s: Session) {
    Basics(s) && FlightsOk(s) && forall c :: c in s.frames ==> ConnOk(s, c)
  }

  lemma InvStep(s: Session, e: Event)
    requires Inv(s) && Next(s, e) && Guarded(s, e)
    ensures Inv(Apply(s, e))
  {
    BasicsStay(s, e);
    FlightsStay(s, e);
    forall c | c in Apply(s, e).frames
      ensures ConnOk(Apply(s, e), c)
    {
      ConnStays(s, e, c);
    }
  }

  lemma {:induction false} InvRun(s: Session, es: seq<Event>)
    requires Inv(s) && Runs(s, es) && GuardedRun(s, es)
    ensures Inv(Run(s, es))
    decreases |es|
  {
    if es != [] {
      InvStep(s, es[0]);
      InvRun(Apply(s, es[0]), es[1..]);
    }
  }

  /**
   Main result. When late steps of replaced connections leave the current one alone, replay and flush
   together put each number on a connection at most once and in increasing order.
   */
  lemma FramesIncrease(es: seq<Event>, c: Conn)
    requires Runs(START, es) && GuardedRun(START, es) && c in Run(START, es).frames
    ensures Increasing(Run(START, es).frames[c])
  {
    InvRun(START, es);
  }
}
