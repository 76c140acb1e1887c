/** What a client may rely on over every run of the event log. */
module EventHistory {
  import opened Prelude
  import opened EventLog

  // ---- no silent loss ---------------------------------------------------------------

  /** Every number above the floor is stored, and nothing beyond `head` is. */
  predicate NoLoss(h: History) {
    && h.floor <= h.head
    && (forall k :: k in h.events ==> 0 < k <= h.head)
    && (forall k :: h.floor < k <= h.head ==> k in h.events)
  }

  predicate NoLossAnywhere(s: Store) {
    forall o :: o in s.histories ==> NoLoss(s.histories[o])
  }

  /** An event is deleted at the second clock reading although the floor, set at the first, does not cover it. */
  predicate DropsSilently(h: History, c: Clock) {
    exists k :: k in h.events && NewFloor(h, c.floor) < k && Expired(h, k, c.events)
  }

  /**
   Main result. A cleanup keeps the history gapless if and only if no event above the new floor expires between its
   two readings.
   */
  lemma CleanupLossless(h: History, c: Clock)
    requires NoLoss(h)
    ensures NoLoss(CleanHistory(h, c)) <==> !DropsSilently(h, c)
  {
    var h' := CleanHistory(h, c);
    if DropsSilently(h, c) {
      var k :| k in h.events && NewFloor(h, c.floor) < k && Expired(h, k, c.events);
      assert k <= h.head;
      assert k !in h'.events;
    } else {
      forall k | h'.floor < k <= h'.head
        ensures k in h'.events
      {
        assert k in h.events && !Expired(h, k, c.events);
      }
    }
  }

  /** With one clock reading, as the comment in `cleanup` intends, nothing is dropped silently. */
  lemma OneReadingSuffices(h: History, c: Clock)
    requires NoLoss(h) && c.floor == c.events
    ensures !DropsSilently(h, c)
  {
  }

  /** Two readings can lose an event: it is stored, then gone, and the floor never mentions it. */
  lemma TwoReadingsLose()
    ensures var m := Message(0, Content("", "", Payload("", false, false, false, false)));
      var h := History(1, 0, map[1 := Stored(m, 5)]);
      NoLoss(h) && !NoLoss(CleanHistory(h, Clock(4, 5, 5, 5)))
  {
    var h := History(1, 0, map[1 := Stored(Message(0, Content("", "", Payload("", false, false, false, false))), 5)]);
    assert Expired(h, 1, 5);
    CleanupLossless(h, Clock(4, 5, 5, 5));
  }

  /** The cleanup inside an operation, if it has one, drops nothing silently. */
  predicate CleansWell(s: Store, e: Event) {
    (e.Snapshot? || e.Append? || e.Accept?) ==> CleansAll(s, e.c)
  }

  predicate CleansAll(s: Store, c: Clock) {
    forall o :: o in s.histories ==> !DropsSilently(s.histories[o], c)
  }

  lemma CleanupKeeps(s: Store, c: Clock)
    requires NoLossAnywhere(s) && CleansAll(s, c)
    ensures NoLossAnywhere(Cleanup(s, c))
  {
    forall o | o in s.histories
      ensures NoLoss(CleanHistory(s.histories[o], c))
    {
      CleanupLossless(s.histories[o], c);
    }
  }

  lemma AddEventKeeps(s: Store, limits: Limits, o: Owner, m: Message, key: Option<string>, now: Time)
    requires NoLossAnywhere(s)
    ensures NoLossAnywhere(AddEvent(s, limits, o, m, key, now))
  {
    assert NoLoss(HistoryOf(s, o));
    assert NoLoss(AddEvent(s, limits, o, m, key, now).histories[o]);
  }

  lemma AckKeeps(s: Store, o: Owner, n: int)
    requires NoLossAnywhere(s)
    ensures NoLossAnywhere(AckStore(s, o, n))
  {
    if CanAck(s, o, n) && o in s.histories {
      assert NoLoss(AckHistory(s.histories[o], n));
    }
  }

  lemma ApplyKeeps(s: Store, limits: Limits, e: Event)
    requires NoLossAnywhere(s) && CleansWell(s, e)
    ensures NoLossAnywhere(Apply(s, limits, e))
  {
    match e
    case Snapshot(c) => CleanupKeeps(s, c);
    case Append(o, m, key, roomy, c) =>
      CleanupKeeps(s, c);
      AddEventKeeps(Cleanup(s, c), limits, o, m, key, c.write);
    case Ack(o, n) => AckKeeps(s, o, n);
    case Accept(o, key, text, c) => CleanupKeeps(s, c);
    case Finish(_, _, _) =>
    case Erase(_) =>
  }

  predicate CleansThroughout(s: Store, limits: Limits, es: seq<Event>)
    decreases |es|
  {
    es == [] || (CleansWell(s, es[0]) && CleansThroughout(Apply(s, limits, es[0]), limits, es[1..]))
  }

  lemma {:induction false} RunKeeps(s: Store, limits: Limits, es: seq<Event>)
    requires NoLossAnywhere(s) && CleansThroughout(s, limits, es)
    ensures NoLossAnywhere(Run(s, limits, es))
    decreases |es|
  {
    if es != [] {
      ApplyKeeps(s, limits, es[0]);
      RunKeeps(Apply(s, limits, es[0]), limits, es[1..]);
    }
  }

  predicate ReadsOnce(es: seq<Event>) {
    forall i :: 0 <= i < |es| && (es[i].Snapshot? || es[i].Append? || es[i].Accept?) ==> es[i].c.floor == es[i].c.events
  }

  lemma {:induction false} OneReadingCleans(s: Store, limits: Limits, es: seq<Event>)
    requires NoLossAnywhere(s) && ReadsOnce(es)
    ensures CleansThroughout(s, limits, es)
    decreases |es|
  {
    if es != [] {
      forall o | o in s.histories && (es[0].Snapshot? || es[0].Append? || es[0].Accept?)
        ensures !DropsSilently(s.histories[o], es[0].c)
      {
        OneReadingSuffices(s.histories[o], es[0].c);
      }
      ApplyKeeps(s, limits, es[0]);
      assert forall i :: 0 <= i < |es[1..]| ==> es[1..][i] == es[i + 1];
      OneReadingCleans(Apply(s, limits, es[0]), limits, es[1..]);
    }
  }

  /**
   Main result. After any mix of appends, acknowledgements, expiries, inputs and erasures with one clock
   reading per cleanup, every number in (floor, head] is stored for its owner.
   */
  lemma NoSilentLoss(limits: Limits, es: seq<Event>)
    requires ReadsOnce(es)
    ensures NoLossAnywhere(Run(EMPTY, limits, es))
  {
    OneReadingCleans(EMPTY, limits, es);
    RunKeeps(EMPTY, limits, es);
  }

  // ---- resuming ---------------------------------------------------------------------

  function Numbers(from: nat, end: nat): (r: seq<nat>)
    ensures |r| == if end <= from then 0 else end - from
    ensures forall i :: 0 <= i < |r| ==> r[i] == from + 1 + i
    decreases end
  {
    if end <= from then [] else Numbers(from, end - 1) + [end]
  }

  /** Main result. A client that resumes at or above the floor is replayed exactly the numbers after its last one. */
  lemma {:induction false} ResumeExact(h: History, last: nat, end: nat)
    requires NoLoss(h) && h.floor <= last && end <= h.head
    ensures Listed(h, last, end) == Numbers(last, end)
    decreases end
  {
    if last < end {
      ResumeExact(h, last, end - 1);
    }
  }

  /** A replay is increasing, lists stored numbers only, and misses none. */
  lemma {:induction false} ListedIncreasing(h: History, from: nat, end: nat)
    ensures forall i :: 0 <= i < |Listed(h, from, end)| ==>
      from < Listed(h, from, end)[i] <= end && Listed(h, from, end)[i] in h.events
    ensures forall i, j :: 0 <= i < j < |Listed(h, from, end)| ==> Listed(h, from, end)[i] < Listed(h, from, end)[j]
    ensures forall k :: from < k <= end && k in h.events ==> k in Listed(h, from, end)
    decreases end
  {
    if from < end {
      ListedIncreasing(h, from, end - 1);
    }
  }

  // ---- numbers and keys -------------------------------------------------------------

  predicate Continues(a: History, b: History) {
    a.head <= b.head && a.floor <= b.floor
  }

  /** Numbers and floors only grow, and a key never loses or changes its row. */
  predicate Grows(a: Store, b: Store) {
    && (forall o :: o in a.histories ==> o in b.histories && Continues(a.histories[o], b.histories[o]))
    && (forall k :: k in a.keys ==> k in b.keys && b.keys[k] == a.keys[k])
  }

  predicate FloorsOk(s: Store) {
    forall o :: o in s.histories ==> s.histories[o].floor <= s.histories[o].head
  }

  lemma CleanupFloors(s: Store, c: Clock)
    requires FloorsOk(s)
    ensures FloorsOk(Cleanup(s, c)) && Grows(s, Cleanup(s, c))
  {
  }

  lemma AddEventGrows(s: Store, limits: Limits, o: Owner, m: Message, key: Option<string>, now: Time)
    requires FloorsOk(s) && (key.Some? ==> (o, key.value) !in s.keys)
    ensures FloorsOk(AddEvent(s, limits, o, m, key, now)) && Grows(s, AddEvent(s, limits, o, m, key, now))
  {
  }

  lemma AppendGrows(s: Store, limits: Limits, o: Owner, m: Message, key: Option<string>, roomy: bool, c: Clock)
    requires FloorsOk(s)
    ensures FloorsOk(AppendStore(s, limits, o, m, key, roomy, c)) &&
      Grows(s, AppendStore(s, limits, o, m, key, roomy, c))
  {
    var clean := Cleanup(s, c);
    CleanupFloors(s, c);
    if AppendOutcome(clean, limits, o, m, key, roomy).Added? {
      AddEventGrows(clean, limits, o, m, key, c.write);
    }
  }

  lemma OwnerGrows(s: Store, limits: Limits, e: Event)
    requires FloorsOk(s) && !e.Append?
    ensures FloorsOk(Apply(s, limits, e)) && Grows(s, Apply(s, limits, e))
  {
    if e.Snapshot? || e.Accept? {
      CleanupFloors(s, e.c);
    }
  }

  lemma ApplyGrows(s: Store, limits: Limits, e: Event)
    requires FloorsOk(s)
    ensures FloorsOk(Apply(s, limits, e)) && Grows(s, Apply(s, limits, e))
  {
    if e.Append? {
      AppendGrows(s, limits, e.owner, e.message, e.key, e.roomy, e.c);
    } else {
      OwnerGrows(s, limits, e);
    }
  }

  lemma {:induction false} RunGrows(s: Store, limits: Limits, es: seq<Event>)
    requires FloorsOk(s)
    ensures Grows(s, Run(s, limits, es))
    decreases |es|
  {
    if es != [] {
      ApplyGrows(s, limits, es[0]);
      RunGrows(Apply(s, limits, es[0]), limits, es[1..]);
    }
  }

  /**
   Main result. Once an event key has stored an event, no later append with that key stores another, however
   long ago the event expired or was erased: the sequence number does not move, and the caller learns the old
   number or that the content differs.
   */
  lemma KeyStoresOnce(s: Store, limits: Limits, es: seq<Event>, o: Owner, key: string, m: Message, roomy: bool,
                      c: Clock)
    requires FloorsOk(s) && (o, key) in s.keys
    ensures var t := Run(s, limits, es); var t' := Apply(t, limits, Append(o, m, Some(key), roomy, c));
      && HistoryOf(t', o).head == HistoryOf(t, o).head
      && t'.keys == t.keys
      && (forall k :: k in HistoryOf(t', o).events ==> k in HistoryOf(t, o).events)
      && AppendOutcome(Cleanup(t, c), limits, o, m, Some(key), roomy) ==
           if s.keys[(o, key)].content == m.content then Known(s.keys[(o, key)].head) else KeyReused
  {
    RunGrows(s, limits, es);
  }

  // ---- inputs -----------------------------------------------------------------------

  predicate BeforeExpiry(e: Event, x: Time) {
    (e.Snapshot? || e.Append? || e.Accept?) ==> e.c.inputs < x
  }

  /** The row of an input is kept until it expires; only its status and, when erased, its text change. */
  predicate InputKept(a: InputRow, b: InputRow) {
    b.expires == a.expires && (b.text == a.text || b.text.None?)
  }

  lemma ApplyInput(s: Store, limits: Limits, e: Event, i: (Owner, string))
    requires i in s.inputs && BeforeExpiry(e, s.inputs[i].expires)
    ensures i in Apply(s, limits, e).inputs && InputKept(s.inputs[i], Apply(s, limits, e).inputs[i])
  {
    if e.Append? {
      var clean := Cleanup(s, e.c);
      assert i in clean.inputs && clean.inputs[i] == s.inputs[i];
    }
  }

  lemma {:induction false} RunInput(s: Store, limits: Limits, es: seq<Event>, i: (Owner, string))
    requires i in s.inputs && forall k :: 0 <= k < |es| ==> BeforeExpiry(es[k], s.inputs[i].expires)
    ensures i in Run(s, limits, es).inputs && InputKept(s.inputs[i], Run(s, limits, es).inputs[i])
    decreases |es|
  {
    if es != [] {
      assert BeforeExpiry(es[0], s.inputs[i].expires);
      ApplyInput(s, limits, es[0], i);
      assert forall k :: 0 <= k < |es[1..]| ==> es[1..][k] == es[k + 1];
      RunInput(Apply(s, limits, es[0]), limits, es[1..], i);
    }
  }

  /**
   Main result. An accepted input is executed once: until its row expires, every later delivery of the same
   id is answered with the recorded status, or refused when its text differs or was erased.
   */
  lemma ExecutedOnce(s: Store, limits: Limits, o: Owner, key: string, text: string, c: Clock, es: seq<Event>,
                     again: string, c': Clock)
    requires AcceptOutcome(Cleanup(s, c), limits, o, key, text) == Execute
    requires forall k :: 0 <= k < |es| ==> BeforeExpiry(es[k], c.write + limits.inputSeconds)
    requires c'.inputs < c.write + limits.inputSeconds
    ensures var t := Run(AcceptStore(s, limits, o, key, text, c), limits, es);
      var a := AcceptOutcome(Cleanup(t, c'), limits, o, key, again);
      a != Execute && a != InputsFull && (again != text ==> a == Conflicting)
  {
    var s' := AcceptStore(s, limits, o, key, text, c);
    RunInput(s', limits, es, (o, key));
    var t := Run(s', limits, es);
    assert (o, key) in Cleanup(t, c').inputs;
  }
}
