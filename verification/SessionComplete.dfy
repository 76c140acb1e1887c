/** Whether the frames of a connection leave out a stored event that the client has not seen. */
module SessionCompleteness {
  import opened Prelude
  import opened SessionWire
  import opened SessionOrder

  /** Every stored number above `last` is in the outbox or comes after everything in it. */
  predicate Covers(outbox: seq<nat>, stored: seq<nat>, last: nat) {
    forall x, y :: x in stored && x > last && x !in outbox && y in outbox ==> y < x
  }

  /** The latest connection starts its replay with an outbox that covers what the store holds. */
  predicate ReplayCovers(s: Session, e: Event) {
    e.WelcomeSent? && Next(s, e) && e.c + 1 == s.conns && s.shakes[e.c].resumable ==>
      Covers(s.outbox, s.stored, s.shakes[e.c].last)
  }

  predicate CoveringRun(s: Session, es: seq<Event>)
    requires Runs(s, es)
    decreases |es|
  {
    es == [] || (ReplayCovers(s, es[0]) && CoveringRun(Apply(s, es[0]), es[1..]))
  }

  // ---- bounds -----------------------------------------------------------------------

  predicate AllWithin(s: seq<nat>, n: nat) {
    forall x :: x in s ==> x <= n
  }

  predicate ShakeWithin(k: Shake, n: nat) {
    match k
    case Welcoming(last, resumable, replayed) => (resumable ==> last <= n) && replayed <= n
    case Replaying(rest, replayed) => AllWithin(rest, n) && replayed <= n
  }

  predicate FlightWithin(g: Flight, n: nat) {
    g.Sending? ==> AllWithin(g.rest, n) && (g.pending.Some? ==> g.pending.value <= n)
  }

  /** No number is used before it is issued. */
  predicate Bounded(s: Session) {
    && s.sent <= s.head && s.start <= s.head && AllWithin(s.outbox, s.head)
    && (forall c :: c in s.shakes ==> ShakeWithin(s.shakes[c], s.head))
    && (forall f :: f in s.flights ==> FlightWithin(s.flights[f], s.head))
  }

  lemma {:induction false} PopKeeps(s: seq<nat>, n: nat)
    ensures forall x :: x in PopUpTo(s, n) ==> x in s
  {
    if s != [] && s[0] <= n {
      PopKeeps(s[1..], n);
    }
  }

  lemma TailWithin(s: seq<nat>, n: nat)
    requires AllWithin(s, n) && s != []
    ensures s[0] <= n && AllWithin(s[1..], n)
  {
    assert s[0] in s && forall x :: x in s[1..] ==> x in s;
  }

  lemma BoundedConnect(s: Session, last: nat, resumable: bool)
    requires Basics(s) && Bounded(s) && Next(s, Connect(last, resumable))
    ensures Bounded(ConnectTo(s, last, resumable))
  {
    PopKeeps(s.stored, last);
  }

  lemma BoundedShake(s: Session, e: Event)
    requires Basics(s) && Bounded(s) && Next(s, e)
    requires e.WelcomeSent? || e.ReplaySend? || e.ShakeFinish? || e.ShakeAbort? || e.Disconnect?
    ensures Bounded(Apply(s, e))
  {
    if e.WelcomeSent? { AboveKeeps(s.outbox, s.shakes[e.c].last); }
    if e.ReplaySend? {
      assert ShakeWithin(s.shakes[e.c], s.head);
      TailWithin(s.shakes[e.c].rest, s.head);
    }
  }

  lemma BoundedFlights(s: Session, e: Event)
    requires Basics(s) && Bounded(s) && Next(s, e) && FlushEvent(e)
    requires e.FlushSkip? || e.FlushSend? ==>
      AllWithin(s.flights[e.f].rest[1..], s.head) && s.flights[e.f].rest[0] <= s.head
    ensures var s' := Apply(s, e);
      s'.sent <= s'.head && forall f :: f in s'.flights ==> FlightWithin(s'.flights[f], s'.head)
  {
    var s' := Apply(s, e);
    if e.f in s.flights { assert FlightWithin(s.flights[e.f], s.head); }
    forall f | f in s'.flights
      ensures FlightWithin(s'.flights[f], s'.head)
    {
      if f in s.flights { assert FlightWithin(s.flights[f], s.head); }
    }
  }

  lemma BoundedFlush(s: Session, e: Event)
    requires Basics(s) && Bounded(s) && Next(s, e) && FlushEvent(e)
    ensures Bounded(Apply(s, e))
  {
    if e.FlushSkip? || e.FlushSend? {
      assert FlightWithin(s.flights[e.f], s.head);
      TailWithin(s.flights[e.f].rest, s.head);
    }
    BoundedFlights(s, e);
  }

  lemma BoundedStore(s: Session, e: Event)
    requires Basics(s) && Bounded(s) && Next(s, e) && StoreEvent(e)
    ensures Bounded(Apply(s, e))
  {
    if e.Acked? { PopKeeps(s.outbox, e.n); }
    var s' := Apply(s, e);
    forall c | c in s.shakes
      ensures ShakeWithin(s.shakes[c], s'.head)
    {
      assert ShakeWithin(s.shakes[c], s.head);
    }
    forall f | f in s.flights
      ensures FlightWithin(s.flights[f], s'.head)
    {
      assert FlightWithin(s.flights[f], s.head);
    }
  }

  lemma BoundedStays(s: Session, e: Event)
    requires Basics(s) && Bounded(s) && Next(s, e)
    ensures Bounded(Apply(s, e))
  {
    if e.Connect? {
      BoundedConnect(s, e.last, e.resumable);
    } else if FlushEvent(e) {
      BoundedFlush(s, e);
    } else if StoreEvent(e) {
      BoundedStore(s, e);
    } else {
      BoundedShake(s, e);
    }
  }

  // ---- what is covered --------------------------------------------------------------

  /** `x` lies below `top` or below a number that is still to be sent. */
  predicate Reached(rest: seq<nat>, top: nat, x: nat) {
    x <= top || exists y :: y in rest && x <= y
  }

  /** A handshake of the latest connection skips nothing the client has not seen. */
  predicate ShakeCovers(s: Session, c: Conn)
    requires c in s.shakes && c in s.frames
  {
    match s.shakes[c]
    case Welcoming(last, resumable, replayed) => replayed == s.start && (resumable ==> last == s.start)
    case Replaying(rest, replayed) =>
      forall x :: x in s.stored && x > s.start && Reached(rest, replayed, x) ==> x in s.frames[c] || x in rest
  }

  predicate ShakesCover(s: Session) {
    forall c :: c in s.shakes && c in s.frames && c + 1 == s.conns ==> ShakeCovers(s, c)
  }

  function Top(g: Flight): nat
    requires g.Sending?
  {
    if g.pending.Some? then g.pending.value else 0
  }

  /** A flush on the ready current connection has everything stored that it may pass. */
  predicate FlightCovers(s: Session, f: Flush)
    requires f in s.flights
  {
    var g := s.flights[f];
    g.Sending? && s.ready && s.ws == Some(g.conn) ==>
      && (g.pending.Some? ==> g.pending.value > s.sent)
      && forall x :: x in s.stored && x > s.sent && Reached(g.rest, Top(g), x) ==> x in g.rest || g.pending == Some(x)
  }

  predicate FlightsCover(s: Session) {
    forall f :: f in s.flights ==> FlightCovers(s, f)
  }

  /** Everything stored between what the client had seen and `sent_seq` is on the ready current connection. */
  predicate Complete(s: Session) {
    s.ready && s.ws.Some? && s.ws.value in s.frames ==>
      forall x :: x in s.stored && s.start < x <= s.sent ==> x in s.frames[s.ws.value]
  }

  predicate Covered(s: Session) {
    ShakesCover(s) && FlightsCover(s) && Complete(s)
  }

  lemma ReachedTail(rest: seq<nat>, top: nat, x: nat)
    requires rest != [] && Reached(rest[1..], Max(top, rest[0]), x)
    ensures Reached(rest, top, x)
  {
    if x > top {
      if x <= rest[0] {
        assert rest[0] in rest;
      } else {
        var y :| y in rest[1..] && x <= y;
        assert y in rest;
      }
    }
  }

  // ---- handshakes -------------------------------------------------------------------

  lemma {:induction false} AboveHas(s: seq<nat>, n: nat, x: nat)
    requires x in s && x > n
    ensures x in Above(s, n)
  {
    if s[0] != x {
      AboveHas(s[1..], n, x);
    }
  }

  lemma ConnectCovers(s: Session, last: nat, resumable: bool)
    requires Inv(s) && Bounded(s) && Covered(s)
    ensures Covered(ConnectTo(s, last, resumable))
  {
  }

  lemma WelcomeCovers(s: Session, c: Conn)
    requires Inv(s) && Bounded(s) && Covered(s) && Next(s, WelcomeSent(c)) && ReplayCovers(s, WelcomeSent(c))
    ensures Covered(Replay(s, c))
  {
    var s', k := Replay(s, c), s.shakes[c];
    if c + 1 == s.conns && c in s.frames {
      assert ShakeCovers(s, c);
      var rest := s'.shakes[c].rest;
      forall x | x in s.stored && x > s.start && Reached(rest, k.replayed, x)
        ensures x in rest
      {
        var y :| y in rest && x <= y;
        AboveKeeps(s.outbox, k.last);
        AboveHas(s.outbox, k.last, x);
      }
    }
    KeepFlights(s, s');
  }

  /** Flights stay covered when nothing they depend on grows. */
  lemma KeepFlights(s: Session, s': Session)
    requires FlightsCover(s) && s'.flights == s.flights && s'.sent == s.sent
    requires s'.ready ==> s.ready
    requires s'.ws.Some? ==> s'.ws == s.ws
    requires forall x :: x in s'.stored ==> x in s.stored
    ensures FlightsCover(s')
  {
    forall f | f in s'.flights
      ensures FlightCovers(s', f)
    {
      assert FlightCovers(s, f);
    }
  }

  lemma ReplayShakes(s: Session, w: Conn)
    requires Inv(s) && ShakesCover(s) && Next(s, ReplaySend(w))
    ensures ShakesCover(ReplayOne(s, w))
  {
    var s', k := ReplayOne(s, w), s.shakes[w];
    if w + 1 == s.conns && w in s.frames {
      assert ShakeCovers(s, w);
      forall x | x in s'.stored && x > s'.start && Reached(k.rest[1..], Max(k.replayed, k.rest[0]), x)
        ensures x in s'.frames[w] || x in k.rest[1..]
      {
        ReachedTail(k.rest, k.replayed, x);
      }
    }
    forall c | c in s'.shakes && c in s'.frames && c + 1 == s'.conns
      ensures ShakeCovers(s', c)
    {
      if c != w { assert ShakeCovers(s, c); }
    }
  }

  lemma ReplayCovered(s: Session, w: Conn)
    requires Inv(s) && Covered(s) && Next(s, ReplaySend(w))
    ensures Covered(ReplayOne(s, w))
  {
    ReplayShakes(s, w);
    KeepFlights(s, ReplayOne(s, w));
  }

  lemma FinishCovers(s: Session, c: Conn)
    requires Inv(s) && Bounded(s) && Covered(s) && Next(s, ShakeFinish(c)) && Guarded(s, ShakeFinish(c))
    ensures Covered(Apply(s, ShakeFinish(c)))
  {
    var s' := Apply(s, ShakeFinish(c));
    assert ShakeCovers(s, c);
    forall f | f in s'.flights
      ensures FlightCovers(s', f)
    {
      assert FlightOk(s, f);
    }
    forall x | x in s'.stored && s'.start < x <= s'.sent
      ensures x in s'.frames[c]
    {
      assert Reached([], s.shakes[c].replayed, x);
    }
  }

  lemma EndCovers(s: Session, e: Event)
    requires Inv(s) && Covered(s) && Next(s, e) && (e.ShakeAbort? || e.Disconnect?)
    ensures Covered(Apply(s, e))
  {
    var s' := Apply(s, e);
    KeepFlights(s, s');
    forall c | c in s'.shakes && c in s'.frames && c + 1 == s'.conns
      ensures ShakeCovers(s', c)
    {
      assert ShakeCovers(s, c);
    }
  }

  // ---- the store --------------------------------------------------------------------

  /** What `e` leaves in the store was there before or has just been issued. */
  lemma StoredBefore(s: Session, e: Event, x: nat)
    requires Next(s, e) && StoreEvent(e) && x in Apply(s, e).stored && x <= s.head
    ensures x in s.stored
  {
    if e.Acked? { AboveKeeps(s.stored, e.n); }
    if e.Expire? { WithoutKeeps(s.stored, e.gone); }
  }

  lemma StoreShakes(s: Session, e: Event)
    requires Inv(s) && Bounded(s) && ShakesCover(s) && Next(s, e) && StoreEvent(e)
    ensures ShakesCover(Apply(s, e))
  {
    var s' := Apply(s, e);
    forall c | c in s'.shakes && c in s'.frames && c + 1 == s'.conns
      ensures ShakeCovers(s', c)
    {
      assert ShakeCovers(s, c) && ShakeWithin(s.shakes[c], s.head);
      if s.shakes[c].Replaying? {
        forall x | x in s'.stored && x > s'.start && Reached(s.shakes[c].rest, s.shakes[c].replayed, x)
          ensures x in s.frames[c] || x in s.shakes[c].rest
        {
          StoredBefore(s, e, x);
        }
      }
    }
  }

  lemma StoreFlights(s: Session, e: Event)
    requires Inv(s) && Bounded(s) && FlightsCover(s) && Next(s, e) && StoreEvent(e)
    ensures FlightsCover(Apply(s, e))
  {
    var s' := Apply(s, e);
    forall f | f in s'.flights
      ensures FlightCovers(s', f)
    {
      var g := s.flights[f];
      assert FlightCovers(s, f) && FlightWithin(g, s.head);
      if g.Sending? {
        forall x | x in s'.stored && x > s'.sent && Reached(g.rest, Top(g), x)
          ensures x in s.stored
        {
          StoredBefore(s, e, x);
        }
      }
    }
  }

  lemma StoreCovers(s: Session, e: Event)
    requires Inv(s) && Bounded(s) && Covered(s) && Next(s, e) && StoreEvent(e)
    ensures Covered(Apply(s, e))
  {
    StoreShakes(s, e);
    StoreFlights(s, e);
    var s' := Apply(s, e);
    forall x | x in s'.stored && s'.start < x <= s'.sent
      ensures x in s.stored
    {
      StoredBefore(s, e, x);
    }
  }

  // ---- flushes ----------------------------------------------------------------------

  lemma FlushShakes(s: Session, e: Event)
    requires Inv(s) && ShakesCover(s) && Next(s, e) && FlushEvent(e)
    ensures ShakesCover(Apply(s, e))
  {
    var s' := Apply(s, e);
    forall c | c in s'.shakes && c in s'.frames && c + 1 == s'.conns
      ensures ShakeCovers(s', c)
    {
      assert ShakeCovers(s, c);
    }
  }

  lemma SkipCovers(s: Session, f: Flush, g: Flush)
    requires Inv(s) && FlightsCover(s) && Next(s, FlushSkip(f)) && g in s.flights
    ensures FlightCovers(Apply(s, FlushSkip(f)), g)
  {
    assert FlightCovers(s, g);
    if f == g {
      var rest := s.flights[f].rest;
      forall x | Reached(rest[1..], 0, x)
        ensures Reached(rest, 0, x)
      {
        if x > 0 { ReachedTail(rest, 0, x); }
      }
    }
  }

  lemma EasyFlight(s: Session, e: Event, g: Flush)
    requires Inv(s) && FlightsCover(s) && Next(s, e) && FlushEvent(e) && !e.FlushSent? && !e.FlushSend? && !e.FlushSkip?
    requires g in Apply(s, e).flights
    ensures FlightCovers(Apply(s, e), g)
  {
    if g in s.flights { assert FlightCovers(s, g); }
  }

  lemma SendCovers(s: Session, f: Flush, g: Flush)
    requires Inv(s) && FlightsCover(s) && Next(s, FlushSend(f)) && g in s.flights
    ensures FlightCovers(SendOne(s, f), g)
  {
    assert FlightCovers(s, g);
    if f == g {
      var rest := s.flights[f].rest;
      forall x | Reached(rest[1..], rest[0], x)
        ensures Reached(rest, 0, x)
      {
        ReachedTail(rest, 0, x);
      }
    }
  }

  lemma SentCovers(s: Session, f: Flush, g: Flush)
    requires Inv(s) && FlightsCover(s) && Next(s, FlushSent(f)) && Guarded(s, FlushSent(f)) && g in s.flights
    ensures FlightCovers(Apply(s, FlushSent(f)), g)
  {
    assert FlightOk(s, f) && FlightOk(s, g) && FlightCovers(s, g);
    if f != g && s.ready { assert !SameLock(s.flights[f], s.flights[g]); }
  }

  lemma FlushFlights(s: Session, e: Event)
    requires Inv(s) && FlightsCover(s) && Next(s, e) && Guarded(s, e) && FlushEvent(e)
    ensures FlightsCover(Apply(s, e))
  {
    forall g | g in Apply(s, e).flights
      ensures FlightCovers(Apply(s, e), g)
    {
      if e.FlushSend? {
        SendCovers(s, e.f, g);
      } else if e.FlushSent? {
        SentCovers(s, e.f, g);
      } else if e.FlushSkip? {
        SkipCovers(s, e.f, g);
      } else {
        EasyFlight(s, e, g);
      }
    }
  }

  lemma SentComplete(s: Session, f: Flush)
    requires Inv(s) && Covered(s) && Next(s, FlushSent(f)) && Guarded(s, FlushSent(f))
    ensures Complete(Apply(s, FlushSent(f)))
  {
    var g := s.flights[f];
    assert FlightOk(s, f) && FlightCovers(s, f);
    if s.ready && s.ws == Some(g.conn) {
      var p := g.pending.value;
      assert Awaited(s, g.conn, p);
      assert ConnOk(s, g.conn) && IsLast(s.frames[g.conn], p);
      forall x | x in s.stored && s.sent < x <= p
        ensures x == p
      {
        assert Reached(g.rest, Top(g), x);
      }
    }
  }

  lemma FlushCovers(s: Session, e: Event)
    requires Inv(s) && Covered(s) && Next(s, e) && Guarded(s, e) && FlushEvent(e)
    ensures Covered(Apply(s, e))
  {
    FlushShakes(s, e);
    FlushFlights(s, e);
    if e.FlushSent? { SentComplete(s, e.f); }
  }

  // ---- main results -----------------------------------------------------------------

  lemma CoveredStep(s: Session, e: Event)
    requires Inv(s) && Bounded(s) && Covered(s) && Next(s, e) && Guarded(s, e) && ReplayCovers(s, e)
    ensures Covered(Apply(s, e))
  {
    if e.Connect? {
      ConnectCovers(s, e.last, e.resumable);
    } else if FlushEvent(e) {
      FlushCovers(s, e);
    } else if StoreEvent(e) {
      StoreCovers(s, e);
    } else if e.WelcomeSent? {
      WelcomeCovers(s, e.c);
    } else if e.ReplaySend? {
      ReplayCovered(s, e.c);
    } else if e.ShakeFinish? {
      FinishCovers(s, e.c);
    } else {
      EndCovers(s, e);
    }
  }

  lemma {:induction false} CoveredRun(s: Session, es: seq<Event>)
    requires Inv(s) && Bounded(s) && Covered(s) && Runs(s, es) && GuardedRun(s, es) && CoveringRun(s, es)
    ensures Covered(Run(s, es)) && Inv(Run(s, es))
    decreases |es|
  {
    if es != [] {
      InvStep(s, es[0]);
      BoundedStays(s, es[0]);
      CoveredStep(s, es[0]);
      CoveredRun(Apply(s, es[0]), es[1..]);
    }
  }

  /**
   Main result. If every replay starts from an outbox that covers the store, then in every interleaving each event
   that is stored, that the client had not seen and that counts as sent is on the ready current connection.
   */
  lemma NothingSkipped(es: seq<Event>, c: Conn, x: nat)
    requires Runs(START, es) && GuardedRun(START, es) && CoveringRun(START, es)
    requires var s := Run(START, es); s.ready && s.ws == Some(c) && x in s.stored && s.start < x <= s.sent
    ensures c in Run(START, es).frames && x in Run(START, es).frames[c]
  {
    CoveredRun(START, es);
    assert Basics(Run(START, es));
  }

  // ---- one handshake, exactly -------------------------------------------------------

  function Peak(frames: seq<nat>, otherwise: nat): nat {
    if frames == [] then otherwise else Max(Peak(frames[..|frames| - 1], otherwise), frames[|frames| - 1])
  }

  /** The handshake of `c` has sent a part of `all`, and nobody else has sent on `c`. */
  predicate Replays(s: Session, c: Conn, all: seq<nat>, last: nat) {
    && c in s.shakes && c in s.frames && s.shakes[c].Replaying?
    && s.frames[c] + s.shakes[c].rest == all && s.shakes[c].replayed == Peak(s.frames[c], last)
  }

  lemma ReplaysStep(s: Session, e: Event, c: Conn, all: seq<nat>, last: nat)
    requires Inv(s) && Next(s, e) && Guarded(s, e) && Replays(s, c, all, last) && c in Apply(s, e).shakes
    ensures Replays(Apply(s, e), c, all, last)
  {
    if e.FlushSend? {
      assert FlightOk(s, e.f);
    } else if e.ReplaySend? && e.c == c {
      var frames, n := s.frames[c], s.shakes[c].rest[0];
      assert (frames + [n])[..|frames|] == frames;
      assert (frames + [n]) + s.shakes[c].rest[1..] == all;
    }
  }

  lemma NewShake(s: Session, e: Event, c: Conn)
    requires Inv(s) && Next(s, e) && c < s.conns && c !in s.shakes
    ensures c !in Apply(s, e).shakes && c < Apply(s, e).conns
  {
  }

  lemma {:induction false} NeverShakesAgain(s: Session, es: seq<Event>, c: Conn)
    requires Inv(s) && Runs(s, es) && GuardedRun(s, es) && c < s.conns && c !in s.shakes
    ensures c !in Run(s, es).shakes
    decreases |es|
  {
    if es != [] {
      NewShake(s, es[0], c);
      InvStep(s, es[0]);
      NeverShakesAgain(Apply(s, es[0]), es[1..], c);
    }
  }

  lemma {:induction false} ReplaysRun(s: Session, es: seq<Event>, c: Conn, all: seq<nat>, last: nat)
    requires Inv(s) && Runs(s, es) && GuardedRun(s, es) && Replays(s, c, all, last) && c in Run(s, es).shakes
    ensures Replays(Run(s, es), c, all, last)
    decreases |es|
  {
    if es != [] {
      InvStep(s, es[0]);
      var s' := Apply(s, es[0]);
      if c !in s'.shakes {
        assert c < s.conns <= s'.conns;
        NeverShakesAgain(s', es[1..], c);
      }
      ReplaysStep(s, es[0], c, all, last);
      ReplaysRun(s', es[1..], c, all, last);
    }
  }

  lemma {:induction false} PeakIs(frames: seq<nat>, otherwise: nat)
    ensures otherwise <= Peak(frames, otherwise)
    ensures forall x :: x in frames ==> x <= Peak(frames, otherwise)
    ensures Peak(frames, otherwise) == otherwise || Peak(frames, otherwise) in frames
  {
    if frames != [] {
      var n := |frames| - 1;
      PeakIs(frames[..n], otherwise);
      assert frames == frames[..n] + [frames[n]];
    }
  }

  /** Replaying the outbox above `last` skips nothing exactly when the outbox covers the store. */
  lemma CoversExact(outbox: seq<nat>, stored: seq<nat>, last: nat)
    ensures var sent := Above(outbox, last);
      Covers(outbox, stored, last) <==> forall x :: x in stored && last < x <= Peak(sent, last) ==> x in sent
  {
    var sent := Above(outbox, last);
    AboveKeeps(outbox, last);
    PeakIs(sent, last);
    forall x | x in outbox && x > last
      ensures x in sent
    {
      AboveHas(outbox, last, x);
    }
  }

  /** A handshake that awaits its welcome has replayed nothing. */
  predicate Unreplayed(s: Session) {
    forall c :: c in s.shakes && s.shakes[c].Welcoming? && s.shakes[c].resumable ==>
      s.shakes[c].replayed == s.shakes[c].last
  }

  lemma {:induction false} UnreplayedRun(s: Session, es: seq<Event>)
    requires Unreplayed(s) && Runs(s, es)
    ensures Unreplayed(Run(s, es))
    decreases |es|
  {
    if es != [] {
      UnreplayedRun(Apply(s, es[0]), es[1..]);
    }
  }

  lemma StartReplay(s: Session, c: Conn)
    requires Inv(s) && Unreplayed(s) && Next(s, WelcomeSent(c)) && s.shakes[c].resumable
    ensures Replays(Apply(s, WelcomeSent(c)), c, Above(s.outbox, s.shakes[c].last), s.shakes[c].last)
  {
    assert c in s.frames && ConnOk(s, c) && s.frames[c] == [];
    assert [] + Above(s.outbox, s.shakes[c].last) == Above(s.outbox, s.shakes[c].last);
  }

  lemma FinishReplay(s: Session, c: Conn, all: seq<nat>, last: nat)
    requires Replays(s, c, all, last) && Next(s, ShakeFinish(c))
    ensures var t := Apply(s, ShakeFinish(c)); c in t.frames && t.frames[c] == all && t.sent == Peak(all, last)
  {
    assert s.frames[c] + [] == s.frames[c];
  }

  lemma HandshakeFrames(s: Session, c: Conn, during: seq<Event>)
    requires Inv(s) && Unreplayed(s) && Next(s, WelcomeSent(c)) && Guarded(s, WelcomeSent(c)) && s.shakes[c].resumable
    requires var s1 := Apply(s, WelcomeSent(c));
      Runs(s1, during) && GuardedRun(s1, during) && Next(Run(s1, during), ShakeFinish(c))
    ensures var all, last := Above(s.outbox, s.shakes[c].last), s.shakes[c].last;
      var t := Apply(Run(Apply(s, WelcomeSent(c)), during), ShakeFinish(c));
      c in t.frames && t.frames[c] == all && t.sent == Peak(all, last)
  {
    var s1, all, last := Apply(s, WelcomeSent(c)), Above(s.outbox, s.shakes[c].last), s.shakes[c].last;
    StartReplay(s, c);
    InvStep(s, WelcomeSent(c));
    ReplaysRun(s1, during, c, all, last);
    FinishReplay(Run(s1, during), c, all, last);
  }

  /** The handshake of `c` in session `s` has left out nothing of `stored` between `last` and what counts as sent. */
  predicate LeftOutNothing(s: Session, c: Conn, stored: seq<nat>, last: nat) {
    c in s.frames && forall x :: x in stored && last < x <= s.sent ==> x in s.frames[c]
  }

  /**
   Main result. A resuming handshake, from the end of its welcome to its own end and whatever happens in between,
   skips no event that was stored when its welcome ended if and only if the outbox then covered the store.
   */
  lemma HandshakeExact(before: seq<Event>, c: Conn, during: seq<Event>)
    requires Runs(START, before) && GuardedRun(START, before)
    requires var s := Run(START, before);
      Next(s, WelcomeSent(c)) && Guarded(s, WelcomeSent(c)) && s.shakes[c].resumable
    requires var s := Apply(Run(START, before), WelcomeSent(c));
      Runs(s, during) && GuardedRun(s, during) && Next(Run(s, during), ShakeFinish(c))
    ensures var s := Run(START, before); var last := s.shakes[c].last;
      var t := Apply(Run(Apply(s, WelcomeSent(c)), during), ShakeFinish(c));
      LeftOutNothing(t, c, s.stored, last) <==> Covers(s.outbox, s.stored, last)
  {
    InvRun(START, before);
    UnreplayedRun(START, before);
    var s := Run(START, before);
    HandshakeFrames(s, c, during);
    CoversExact(s.outbox, s.stored, s.shakes[c].last);
  }

  // ---- single steps -----------------------------------------------------------------

  lemma {:induction false} PopHas(s: seq<nat>, n: nat, x: nat)
    requires Increasing(s)
    ensures x in PopUpTo(s, n) <==> x in s && x > n
  {
    if s != [] {
      assert forall i :: 0 <= i < |s| ==> s[0] <= s[i];
      if s[0] <= n {
        IncreasingTail(s);
        PopHas(s[1..], n, x);
      }
    }
  }

  lemma {:induction false} WithoutHas(s: seq<nat>, gone: set<nat>, x: nat)
    ensures x in Without(s, gone) <==> x in s && x !in gone
  {
    if s != [] { WithoutHas(s[1..], gone, x); }
  }

  /**
   A new connection takes over and waits for its handshake. One that can resume acknowledges what its client has seen:
   store and outbox keep what lies above.
   */
  lemma ConnectExact(s: Session, last: nat, resumable: bool, x: nat)
    requires Increasing(s.stored) && (resumable ==> last <= s.head)
    ensures Next(s, Connect(last, resumable))
    ensures var c, t := s.conns, Apply(s, Connect(last, resumable));
      && (x in t.stored <==> x in s.stored && (resumable ==> x > last))
      && (x in t.outbox <==> x in s.stored && (resumable ==> x > last))
      && t.ws == Some(c) && !t.ready && t.conns == c + 1 && t.frames == s.frames[c := []]
      && t.head == s.head && t.sent == s.sent && t.flights == s.flights
      && c in t.shakes && t.shakes[c].Welcoming? && t.shakes[c].replayed == if resumable then last else s.head
  {
    PopHas(s.stored, last, x);
    AboveKeeps(s.stored, last);
    if x in s.stored && x > last { AboveHas(s.stored, last, x); }
  }

  /** An acknowledgement drops what it covers from the store and from an ordered outbox. */
  lemma AckedExact(s: Session, n: nat, x: nat)
    requires Increasing(s.outbox) && n <= s.head
    ensures Next(s, Acked(n))
    ensures var t := Apply(s, Acked(n));
      && (x in t.stored <==> x in s.stored && x > n) && (x in t.outbox <==> x in s.outbox && x > n)
      && t == s.(stored := t.stored, outbox := t.outbox)
  {
    PopHas(s.outbox, n, x);
    AboveKeeps(s.stored, n);
    if x in s.stored && x > n { AboveHas(s.stored, n, x); }
  }

  /** What the network and the clock may do at any moment: a connection goes, or stored events expire. */
  lemma OutsideExact(s: Session, gone: set<nat>, x: nat)
    ensures Next(s, Disconnect) && Apply(s, Disconnect) == s.(ws := None)
    ensures var t := Apply(s, Expire(gone));
      Next(s, Expire(gone)) && t == s.(stored := t.stored) && (x in t.stored <==> x in s.stored && x !in gone)
  {
    WithoutHas(s.stored, gone, x);
  }

  /** A flush that gets its lock reads the connection and the store only then, and gives up without a connection. */
  lemma EnterExact(s: Session, f: Flush)
    requires f in s.flights && s.flights[f].Waiting? && LockFree(s, s.flights[f].lock)
    ensures Next(s, FlushEnter(f))
    ensures var t := Apply(s, FlushEnter(f));
      && (s.ws.None? ==> t == s.(flights := s.flights - {f}))
      && (s.ws.Some? ==>
            t == s.(outbox := s.stored,
                    flights := s.flights[f := Sending(s.flights[f].lock, s.ws.value, s.stored, None)]))
  {
  }

  /** An own event goes to store and outbox, somebody else's to the store alone, a known one once to the outbox. */
  lemma AppendExact(s: Session, n: nat)
    ensures Apply(s, LocalAppend) ==
      s.(head := s.head + 1, stored := s.stored + [s.head + 1], outbox := s.outbox + [s.head + 1])
    ensures Apply(s, ForeignAppend) == s.(head := s.head + 1, stored := s.stored + [s.head + 1])
    ensures n in s.stored ==>
      Next(s, KnownAppend(n)) &&
      Apply(s, KnownAppend(n)) == s.(outbox := if n in s.outbox then s.outbox else s.outbox + [n])
  {
  }
}
