/** What each transaction of the event log stores and answers, and that a stored event is never changed. */
module EventLaws {
  import opened Prelude
  import opened EventLog

  // ---- append -----------------------------------------------------------------------

  /** When an event is stored, and what each refusal means. */
  lemma AppendOutcomes(s: Store, limits: Limits, o: Owner, m: Message, key: Option<string>, roomy: bool)
    ensures var r := AppendOutcome(s, limits, o, m, key, roomy);
      var known := key.Some? && (o, key.value) in s.keys;
      var stored := if o in s.histories then |s.histories[o].events| else 0;
      && (r.Known? <==> known && s.keys[(o, key.value)].content == m.content)
      && (r.KeyReused? <==> known && s.keys[(o, key.value)].content != m.content)
      && (r.Added? <==>
            && !known && (key.Some? ==> |s.keys| < limits.keys)
            && (o !in s.histories ==> |s.histories| < limits.sessions)
            && stored < limits.outbox && roomy)
      && (r.Known? ==> r.head == s.keys[(o, key.value)].head)
      && (r.Added? ==> r.head == 1 + if o in s.histories then s.histories[o].head else 0)
  {
  }

  /** History `h` continues `before` with message `m` under the next number, and keeps everything stored before. */
  predicate Continues(before: History, h: History, m: Message, expires: Time) {
    var n := before.head + 1;
    && h.head == n && h.floor == before.floor
    && n in h.events && h.events[n].message == m && h.events[n].expires == expires
    && h.events.Keys == before.events.Keys + {n}
    && forall k :: k in before.events && k != n ==> h.events[k] == before.events[k]
  }

  lemma AddedEvent(s: Store, limits: Limits, o: Owner, m: Message, key: Option<string>, now: Time)
    ensures var t := AddEvent(s, limits, o, m, key, now);
      && o in t.histories && Continues(HistoryOf(s, o), t.histories[o], m, now + limits.eventSeconds)
      && t.histories.Keys == s.histories.Keys + {o}
      && forall p :: p in s.histories && p != o ==> t.histories[p] == s.histories[p]
  {
  }

  /** The event is stored as it was given, under the next number, beside everything that was stored before. */
  lemma AppendedEvent(s: Store, limits: Limits, o: Owner, m: Message, key: Option<string>, roomy: bool, c: Clock)
    requires AppendOutcome(Cleanup(s, c), limits, o, m, key, roomy).Added?
    ensures var t, clean := AppendStore(s, limits, o, m, key, roomy, c), Cleanup(s, c);
      && o in t.histories && Continues(HistoryOf(clean, o), t.histories[o], m, c.write + limits.eventSeconds)
      && t.histories.Keys == clean.histories.Keys + {o}
      && forall p :: p in clean.histories && p != o ==> t.histories[p] == clean.histories[p]
  {
    AddedEvent(Cleanup(s, c), limits, o, m, key, c.write);
  }

  /** A key remembers the content and number of its event; the event of a reused key changes nothing. */
  lemma AppendedKey(s: Store, limits: Limits, o: Owner, m: Message, key: Option<string>, roomy: bool, c: Clock)
    ensures var t, clean := AppendStore(s, limits, o, m, key, roomy, c), Cleanup(s, c);
      match AppendOutcome(clean, limits, o, m, key, roomy)
      case Added(n) => t.keys == if key.Some? then s.keys[(o, key.value) := KeyRow(m.content, n)] else s.keys
      case Known(_) => t == clean
      case KeyReused => t == s
      case NoCapacity => t == s
  {
  }

  /**
   A keyed ending settles the input that it answers, and only that one: uncertain before interrupted, interrupted before
   suspended, suspended before failed, and completed if it reports none of these.
   */
  lemma EndedInput(s: Store, limits: Limits, o: Owner, m: Message, key: Option<string>, roomy: bool, c: Clock,
                   i: (Owner, string))
    requires AppendOutcome(Cleanup(s, c), limits, o, m, key, roomy).Added? && i in Cleanup(s, c).inputs
    ensures var t, row := AppendStore(s, limits, o, m, key, roomy, c), Cleanup(s, c).inputs[i];
      var p := m.content.payload;
      && i in t.inputs && t.inputs[i].text == row.text && t.inputs[i].expires == row.expires
      && if key.Some? && m.content.kind == "chat.end" && i == (o, m.content.ref) then
           && (t.inputs[i].status == Uncertain <==> p.uncertain)
           && (t.inputs[i].status == Interrupted <==> p.interrupted && !p.uncertain)
           && (t.inputs[i].status == Suspended <==> p.suspended && !p.interrupted && !p.uncertain)
           && (t.inputs[i].status == Failed <==> p.failed && !p.suspended && !p.interrupted && !p.uncertain)
           && (t.inputs[i].status == Completed <==> !p.failed && !p.suspended && !p.interrupted && !p.uncertain)
         else t.inputs[i] == row
  {
  }

  // ---- the other transactions -------------------------------------------------------

  /** An acknowledgement within the history drops exactly the events up to its number, and raises the floor to it. */
  lemma AckExact(s: Store, o: Owner, n: int)
    ensures var t := AckStore(s, o, n);
      if o in s.histories && 0 <= n <= s.histories[o].head then
        var h, h' := s.histories[o], t.histories[o];
        && t == s.(histories := s.histories[o := h']) && h'.head == h.head
        && h'.floor >= h.floor && h'.floor >= n && (h'.floor == h.floor || h'.floor == n)
        && (forall k :: k in h'.events <==> k in h.events && k > n)
        && (forall k :: k in h'.events ==> h'.events[k] == h.events[k])
      else t == s
  {
  }

  /** A cleanup deletes exactly what has expired, and forgets no key. */
  lemma CleanupExact(s: Store, c: Clock, o: Owner)
    requires o in s.histories
    ensures var t := Cleanup(s, c);
      && t.keys == s.keys && o in t.histories
      && t.histories[o].head == s.histories[o].head && t.histories[o].floor >= s.histories[o].floor
      && (forall k :: k in t.histories[o].events <==>
            k in s.histories[o].events && s.histories[o].events[k].expires > c.events)
      && (forall k :: k in t.histories[o].events ==> t.histories[o].events[k] == s.histories[o].events[k])
      && (forall i :: i in t.inputs <==> i in s.inputs && s.inputs[i].expires > c.inputs)
      && (forall i :: i in t.inputs ==> t.inputs[i] == s.inputs[i])
  {
  }

  /** A finished input keeps its text and expiry and gets the status that is reported; an unknown one stays unknown. */
  lemma FinishedInput(s: Store, o: Owner, key: string, status: InputStatus, i: (Owner, string))
    ensures var t := FinishStore(s, o, key, status);
      && t.histories == s.histories && t.keys == s.keys && (i in t.inputs <==> i in s.inputs)
      && (i in s.inputs ==>
            t.inputs[i].text == s.inputs[i].text && t.inputs[i].expires == s.inputs[i].expires &&
            t.inputs[i].status == if i == (o, key) then status else s.inputs[i].status)
  {
  }

  /** Erasing an owner leaves its numbers and input ids, and nothing of what they held. */
  lemma EraseExact(s: Store, o: Owner)
    ensures var t := EraseStore(s, o);
      && t.keys == s.keys && t.histories.Keys == s.histories.Keys && t.inputs.Keys == s.inputs.Keys
      && (o in s.histories ==>
            t.histories[o].events == map[] && t.histories[o].head == t.histories[o].floor == s.histories[o].head)
      && (forall p :: p in s.histories && p != o ==> t.histories[p] == s.histories[p])
      && (forall i :: i in s.inputs && i.0 == o ==> t.inputs[i].text.None? && t.inputs[i].status == Deleted)
      && (forall i :: i in s.inputs && i.0 != o ==> t.inputs[i] == s.inputs[i])
  {
  }

  /** A new input is stored as uncertain before it is executed; a repeated one is answered with its recorded status. */
  lemma AcceptExact(s: Store, limits: Limits, o: Owner, key: string, text: string, c: Clock)
    ensures var t, clean := AcceptStore(s, limits, o, key, text, c), Cleanup(s, c);
      var r, i := AcceptOutcome(clean, limits, o, key, text), (o, key);
      && (r.Execute? <==> i !in clean.inputs && |clean.inputs| < limits.inputs)
      && (r.InputsFull? <==> i !in clean.inputs && |clean.inputs| >= limits.inputs)
      && (r.Duplicate? <==> i in clean.inputs && clean.inputs[i].text == Some(text))
      && (r.Conflicting? <==> i in clean.inputs && clean.inputs[i].text != Some(text))
      && (r.Duplicate? ==> r.status == clean.inputs[i].status && t == clean)
      && (r.Execute? ==>
            t == clean.(inputs := clean.inputs[i := InputRow(Some(text), Uncertain, c.write + limits.inputSeconds)]))
      && (r.InputsFull? || r.Conflicting? ==> t == s)
  {
  }

  // ---- what is stored stays as it is ------------------------------------------------

  /** Event `n` of owner `o` is gone, or is what it was. */
  predicate KeepsEvent(s: Store, t: Store, o: Owner, n: nat) {
    o in s.histories && o in t.histories && s.histories[o].head <= t.histories[o].head &&
    (n in t.histories[o].events ==> n in s.histories[o].events && t.histories[o].events[n] == s.histories[o].events[n])
  }

  lemma EventStep(s: Store, limits: Limits, e: Event, o: Owner, n: nat)
    requires o in s.histories && n <= s.histories[o].head
    ensures KeepsEvent(s, Apply(s, limits, e), o, n)
  {
  }

  /**
   Main result. Whatever happens to the log, a number once issued never shows another event than the one stored
   first.
   */
  lemma {:induction false} EventNeverChanges(s: Store, limits: Limits, es: seq<Event>, o: Owner, n: nat)
    requires o in s.histories && n <= s.histories[o].head
    ensures KeepsEvent(s, Run(s, limits, es), o, n)
    decreases |es|
  {
    if es != [] {
      EventStep(s, limits, es[0], o, n);
      EventNeverChanges(Apply(s, limits, es[0]), limits, es[1..], o, n);
    }
  }
}
