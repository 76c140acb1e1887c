/**
 The platform outbox: replies are queued, claimed under a lease, handed to an adapter and finished, by any
 number of workers that may stop at any point. One function is one transaction.
 */
module Deliveries {
  import opened Prelude

  /** The text of a reply is part of its key; a keyed event is named by its command and event id alone. */
  datatype Key = Reply(command: nat, isError: bool, text: string) | Keyed(command: nat, event: nat)

  datatype Phase = Pending | Sending | Sent | Uncertain

  /** `serial` tells a row from an earlier row of the same key that has been deleted. */
  datatype Row = Row(serial: nat, phase: Phase, lease: Time, expires: Time)

  /** The two tables; `keys` holds the fingerprint of every keyed event ever queued. */
  datatype Tables = Tables(rows: map<Key, Row>, keys: map<Key, string>)

  datatype Limits = Limits(keys: nat, rows: nat, seconds: nat)

  const LEASE_SECONDS := 120

  // ---- queue ------------------------------------------------------------------------

  datatype Queued = Created | Present | Refused | Conflicting | Full

  /** `allowed`: the conversation is active, or this is a cleanup receipt; `roomy`: the byte limits. */
  function QueueOutcome(t: Tables, limits: Limits, key: Key, mark: string, allowed: bool, roomy: bool): Queued {
    if !allowed then Refused
    else if key.Keyed? && key in t.keys then if t.keys[key] == mark then Present else Conflicting
    else if key.Keyed? && |t.keys| >= limits.keys then Full
    else if key in t.rows then Present
    else if |t.rows| >= limits.rows || !roomy then Full
    else Created
  }

  function QueueRow(t: Tables, limits: Limits, key: Key, mark: string, allowed: bool, roomy: bool, serial: nat,
                    now: Time): Tables {
    match QueueOutcome(t, limits, key, mark, allowed, roomy)
    case Created => Tables(t.rows[key := Row(serial, Pending, 0, now + limits.seconds)], Record(t.keys, key, mark))
    case Present => t.(keys := Record(t.keys, key, mark))
    case _ => t
  }

  function Record(keys: map<Key, string>, key: Key, mark: string): map<Key, string> {
    if key.Keyed? && key !in keys then keys[key := mark] else keys
  }

  // ---- cleanup, claim, finish -------------------------------------------------------

  function MarkUncertain(rows: map<Key, Row>, now: Time): map<Key, Row> {
    map k | k in rows ::
      if rows[k].phase == Sending && rows[k].lease <= now then rows[k].(phase := Uncertain) else rows[k]
  }

  predicate Disposable(r: Row, now: Time) {
    r.expires <= now && r.phase in {Sent, Pending}
  }

  function Kept(rows: map<Key, Row>, now: Time): map<Key, Row> {
    map k | k in rows && !Disposable(rows[k], now) :: rows[k]
  }

  /** The clock is read once for the leases and once for the deletion. */
  function CleanupRows(t: Tables, leases: Time, now: Time): Tables {
    t.(rows := Kept(MarkUncertain(t.rows, leases), now))
  }

  predicate CanClaim(t: Tables, key: Key, allowed: bool, now: Time) {
    allowed && key in t.rows && t.rows[key].phase == Pending && t.rows[key].expires > now
  }

  function ClaimRow(t: Tables, key: Key, allowed: bool, now: Time): Tables {
    if CanClaim(t, key, allowed, now)
    then t.(rows := t.rows[key := t.rows[key].(phase := Sending, lease := now + LEASE_SECONDS)])
    else t
  }

  /** Finishing names the row by its key alone and works on any row that is being sent. */
  function FinishRow(t: Tables, key: Key, phase: Phase): Tables {
    if key in t.rows && t.rows[key].phase == Sending then t.(rows := t.rows[key := t.rows[key].(phase := phase)]) else t
  }

  // ---- all workers together ---------------------------------------------------------

  /** A worker between its successful claim and its finish. */
  datatype Sender = Sender(key: Key, called: bool)

  /**
   `owners` names the key of every row ever created, `calls` the serials handed to an adapter, in order, and `confirmed`
   those whose sender called the adapter and reported success.
   */
  datatype State = State(
    t: Tables, owners: seq<Key>, senders: map<nat, Sender>, claimed: set<nat>, calls: seq<nat>, confirmed: set<nat>)

  datatype Event =
    | Queue(key: Key, mark: string, allowed: bool, roomy: bool, now: Time)
    | Cleanup(leases: Time, now: Time)
    | Claim(key: Key, allowed: bool, now: Time)
    | Call(serial: nat)
    | Finish(serial: nat, ok: bool)
    | Crash(serial: nat)

  predicate Next(s: State, e: Event) {
    match e
    case Call(serial) => serial in s.senders && !s.senders[serial].called
    case Finish(serial, ok) => serial in s.senders && (ok ==> s.senders[serial].called)
    case Crash(serial) => serial in s.senders
    case _ => true
  }

  function Apply(s: State, limits: Limits, e: Event): State
    requires Next(s, e)
  {
    match e
    case Queue(key, mark, allowed, roomy, now) =>
      var t' := QueueRow(s.t, limits, key, mark, allowed, roomy, |s.owners|, now);
      if QueueOutcome(s.t, limits, key, mark, allowed, roomy).Created?
      then s.(t := t', owners := s.owners + [key])
      else s.(t := t')
    case Cleanup(leases, now) => s.(t := CleanupRows(s.t, leases, now))
    case Claim(key, allowed, now) =>
      if CanClaim(s.t, key, allowed, now) then
        var serial := s.t.rows[key].serial;
        s.(t := ClaimRow(s.t, key, allowed, now), senders := s.senders[serial := Sender(key, false)],
           claimed := s.claimed + {serial})
      else s
    case Call(serial) =>
      s.(senders := s.senders[serial := s.senders[serial].(called := true)], calls := s.calls + [serial])
    case Finish(serial, ok) =>
      s.(t := FinishRow(s.t, s.senders[serial].key, if ok then Sent else Uncertain), senders := s.senders - {serial},
         confirmed := if ok then s.confirmed + {serial} else s.confirmed)
    case Crash(serial) => s.(senders := s.senders - {serial})
  }

  const START := State(Tables(map[], map[]), [], map[], {}, [], {})

  predicate Runs(s: State, limits: Limits, es: seq<Event>)
    decreases |es|
  {
    es == [] || (Next(s, es[0]) && Runs(Apply(s, limits, es[0]), limits, es[1..]))
  }

  function Run(s: State, limits: Limits, es: seq<Event>): State
    requires Runs(s, limits, es)
    decreases |es|
  {
    if es == [] then s else Run(Apply(s, limits, es[0]), limits, es[1..])
  }

  // ---- the invariant ----------------------------------------------------------------

  predicate RowsOk(s: State) {
    forall k :: k in s.t.rows ==>
      s.t.rows[k].serial < |s.owners| && s.owners[s.t.rows[k].serial] == k
      && (s.t.rows[k].phase == Pending <==> s.t.rows[k].serial !in s.claimed)
  }

  /** A worker that still sends has its row: being sent, or given up as uncertain. */
  predicate SendersOk(s: State) {
    forall n :: n in s.senders ==>
      var k := s.senders[n].key;
      n in s.claimed && k in s.t.rows && s.t.rows[k].serial == n && s.t.rows[k].phase in {Sending, Uncertain}
  }

  predicate CallsOk(s: State) {
    && (forall i :: 0 <= i < |s.calls| ==> s.calls[i] in s.claimed)
    && (forall i :: 0 <= i < |s.calls| && s.calls[i] in s.senders ==> s.senders[s.calls[i]].called)
    && (forall i, j :: 0 <= i < j < |s.calls| ==> s.calls[i] != s.calls[j])
  }

  predicate OwnersOk(s: State) {
    && (forall n :: n in s.claimed ==> n < |s.owners|)
    && (forall n :: 0 <= n < |s.owners| && s.owners[n].Keyed? ==> s.owners[n] in s.t.keys)
    && (forall m, n :: 0 <= m < n < |s.owners| && s.owners[m].Keyed? ==> s.owners[m] != s.owners[n])
  }

  predicate Inv(s: State) {
    RowsOk(s) && SendersOk(s) && CallsOk(s) && OwnersOk(s)
  }

  lemma RowsStayStored(s: State, limits: Limits, e: Event)
    requires Inv(s) && Next(s, e) && (e.Queue? || e.Cleanup?)
    ensures RowsOk(Apply(s, limits, e))
  {
  }

  lemma RowsStaySent(s: State, limits: Limits, e: Event)
    requires Inv(s) && Next(s, e) && !(e.Queue? || e.Cleanup?)
    ensures RowsOk(Apply(s, limits, e))
  {
  }

  lemma SendersStayStored(s: State, limits: Limits, e: Event)
    requires Inv(s) && Next(s, e) && (e.Queue? || e.Cleanup?)
    ensures SendersOk(Apply(s, limits, e))
  {
  }

  lemma SendersStayClaim(s: State, limits: Limits, e: Event)
    requires Inv(s) && Next(s, e) && e.Claim?
    ensures SendersOk(Apply(s, limits, e))
  {
  }

  /** Two workers never send the same row, so finishing one leaves the others theirs. */
  lemma SendersStaySent(s: State, limits: Limits, e: Event)
    requires Inv(s) && Next(s, e) && (e.Call? || e.Finish? || e.Crash?)
    ensures SendersOk(Apply(s, limits, e))
  {
    var s' := Apply(s, limits, e);
    forall n | n in s'.senders
      ensures var k := s'.senders[n].key;
        n in s'.claimed && k in s'.t.rows && s'.t.rows[k].serial == n && s'.t.rows[k].phase in {Sending, Uncertain}
    {
      assert n in s.senders && s'.senders[n].key == s.senders[n].key;
    }
  }

  lemma CallsStay(s: State, limits: Limits, e: Event)
    requires Inv(s) && Next(s, e)
    ensures CallsOk(Apply(s, limits, e))
  {
  }

  lemma OwnersStay(s: State, limits: Limits, e: Event)
    requires Inv(s) && Next(s, e)
    ensures OwnersOk(Apply(s, limits, e))
  {
  }

  lemma InvStep(s: State, limits: Limits, e: Event)
    requires Inv(s) && Next(s, e)
    ensures Inv(Apply(s, limits, e))
  {
    if e.Queue? || e.Cleanup? {
      RowsStayStored(s, limits, e);
      SendersStayStored(s, limits, e);
    } else {
      RowsStaySent(s, limits, e);
      if e.Claim? { SendersStayClaim(s, limits, e); } else { SendersStaySent(s, limits, e); }
    }
    CallsStay(s, limits, e);
    OwnersStay(s, limits, e);
  }

  lemma {:induction false} InvRun(s: State, limits: Limits, es: seq<Event>)
    requires Inv(s) && Runs(s, limits, es)
    ensures Inv(Run(s, limits, es))
    decreases |es|
  {
    if es != [] {
      InvStep(s, limits, es[0]);
      InvRun(Apply(s, limits, es[0]), limits, es[1..]);
    }
  }

  // ---- main results -----------------------------------------------------------------

  /** Main result. In every run each delivery row reaches an adapter at most once. */
  lemma CalledOnce(limits: Limits, es: seq<Event>)
    requires Runs(START, limits, es)
    ensures var calls := Run(START, limits, es).calls; forall i, j :: 0 <= i < j < |calls| ==> calls[i] != calls[j]
  {
    InvRun(START, limits, es);
  }

  /** Main result. A keyed event reaches an adapter at most once ever, although expired rows are deleted. */
  lemma EventCalledOnce(limits: Limits, es: seq<Event>, i: nat, j: nat)
    requires Runs(START, limits, es)
    requires var s := Run(START, limits, es); i < j < |s.calls|
    ensures var s := Run(START, limits, es);
      s.calls[i] < |s.owners| && s.calls[j] < |s.owners| &&
      (s.owners[s.calls[i]].Keyed? ==> s.owners[s.calls[i]] != s.owners[s.calls[j]])
  {
    InvRun(START, limits, es);
    var s := Run(START, limits, es);
    assert s.calls[i] in s.claimed && s.calls[j] in s.claimed && s.calls[i] != s.calls[j];
  }

  /** Rows marked as sent are confirmed, and what is confirmed was called. */
  predicate SentOk(s: State) {
    && (forall k :: k in s.t.rows && s.t.rows[k].phase == Sent ==> s.t.rows[k].serial in s.confirmed)
    && (forall n :: n in s.confirmed ==> n in s.calls)
    && (forall n :: n in s.senders && s.senders[n].called ==> n in s.calls)
  }

  lemma SentStep(s: State, limits: Limits, e: Event)
    requires Inv(s) && SentOk(s) && Next(s, e)
    ensures SentOk(Apply(s, limits, e))
  {
    if e.Finish? {
      var key := s.senders[e.serial].key;
      assert s.t.rows[key].serial == e.serial;
    }
  }

  lemma {:induction false} SentRun(s: State, limits: Limits, es: seq<Event>)
    requires Inv(s) && SentOk(s) && Runs(s, limits, es)
    ensures SentOk(Run(s, limits, es))
    decreases |es|
  {
    if es != [] {
      SentStep(s, limits, es[0]);
      InvStep(s, limits, es[0]);
      SentRun(Apply(s, limits, es[0]), limits, es[1..]);
    }
  }

  /**
   Main result. In every run a row is marked as sent only if its own sender called the adapter and reported
   success.
   */
  lemma SentIsConfirmed(limits: Limits, es: seq<Event>, key: Key)
    requires Runs(START, limits, es)
    requires var s := Run(START, limits, es); key in s.t.rows && s.t.rows[key].phase == Sent
    ensures var s := Run(START, limits, es);
      s.t.rows[key].serial in s.confirmed && s.t.rows[key].serial in s.calls
  {
    SentRun(START, limits, es);
  }

  /** A claim takes exactly a permitted pending row that has not expired, for 120 seconds, and gives it a sender. */
  lemma ClaimExact(s: State, limits: Limits, key: Key, allowed: bool, now: Time)
    ensures var s' := Apply(s, limits, Claim(key, allowed, now));
      if allowed && key in s.t.rows && s.t.rows[key].phase == Pending && s.t.rows[key].expires > now then
        var n := s.t.rows[key].serial;
        && s'.t == s.t.(rows := s.t.rows[key := s.t.rows[key].(phase := Sending, lease := now + 120)])
        && s'.senders == s.senders[n := Sender(key, false)] && s'.claimed == s.claimed + {n}
        && s'.calls == s.calls && s'.confirmed == s.confirmed
      else s' == s
  {
  }

  /** Nobody gives up or finishes row `serial` before `lease`. */
  predicate Undisturbed(es: seq<Event>, serial: nat, lease: Time) {
    forall i :: 0 <= i < |es| ==>
      (es[i].Cleanup? ==> es[i].leases < lease) && (es[i].Finish? ==> es[i].serial != serial)
  }

  lemma LeaseStep(s: State, limits: Limits, e: Event, key: Key)
    requires Inv(s) && Next(s, e) && key in s.t.rows && s.t.rows[key].phase == Sending
    requires e.Cleanup? ==> e.leases < s.t.rows[key].lease
    requires e.Finish? ==> e.serial != s.t.rows[key].serial
    ensures key in Apply(s, limits, e).t.rows && Apply(s, limits, e).t.rows[key] == s.t.rows[key]
  {
  }

  /** While its lease lasts, a row that is being sent stays as it is until its own sender finishes. */
  lemma {:induction false} LeaseProtects(s: State, limits: Limits, es: seq<Event>, key: Key)
    requires Inv(s) && Runs(s, limits, es) && key in s.t.rows && s.t.rows[key].phase == Sending
    requires Undisturbed(es, s.t.rows[key].serial, s.t.rows[key].lease)
    ensures key in Run(s, limits, es).t.rows && Run(s, limits, es).t.rows[key] == s.t.rows[key]
    decreases |es|
  {
    if es != [] {
      LeaseStep(s, limits, es[0], key);
      InvStep(s, limits, es[0]);
      LeaseProtects(Apply(s, limits, es[0]), limits, es[1..], key);
    }
  }

  /** A sender that finishes in time settles its row: sent on success, uncertain otherwise. */
  lemma FinishExact(s: State, limits: Limits, serial: nat, ok: bool)
    requires Inv(s) && Next(s, Finish(serial, ok))
    ensures var k := s.senders[serial].key; var t' := Apply(s, limits, Finish(serial, ok)).t;
      && t'.keys == s.t.keys && t'.rows.Keys == s.t.rows.Keys
      && t'.rows[k] == (if s.t.rows[k].phase == Sending then s.t.rows[k].(phase := if ok then Sent else Uncertain)
                        else s.t.rows[k])
      && forall j :: j in s.t.rows && j != k ==> t'.rows[j] == s.t.rows[j]
  {
  }

  /** A cleanup gives up the senders whose lease ran out, and deletes exactly expired rows that are sent or pending. */
  lemma CleanupExact(t: Tables, leases: Time, now: Time, k: Key)
    requires k in t.rows
    ensures var t' := CleanupRows(t, leases, now);
      && t'.keys == t.keys && t'.rows.Keys <= t.rows.Keys
      && (k !in t'.rows <==> t.rows[k].expires <= now && (t.rows[k].phase == Sent || t.rows[k].phase == Pending))
      && (k in t'.rows && t.rows[k].phase == Sending && t.rows[k].lease <= leases ==>
            t'.rows[k] == t.rows[k].(phase := Uncertain))
      && (k in t'.rows && (t.rows[k].phase != Sending || t.rows[k].lease > leases) ==> t'.rows[k] == t.rows[k])
  {
  }

  /** When a reply or a keyed event is queued, and what each refusal means. */
  lemma QueueExact(t: Tables, limits: Limits, key: Key, mark: string, allowed: bool, roomy: bool, serial: nat,
                   now: Time)
    ensures var q := QueueOutcome(t, limits, key, mark, allowed, roomy);
      var t' := QueueRow(t, limits, key, mark, allowed, roomy, serial, now);
      var known := key.Keyed? && key in t.keys;
      var open := allowed && !known && (key.Keyed? ==> |t.keys| < limits.keys);
      && (q == Refused <==> !allowed)
      && (q == Conflicting <==> allowed && known && t.keys[key] != mark)
      && (q == Present <==> (allowed && known && t.keys[key] == mark) || (open && key in t.rows))
      && (q == Created <==> open && key !in t.rows && |t.rows| < limits.rows && roomy)
      && t'.rows == (if q == Created then t.rows[key := Row(serial, Pending, 0, now + limits.seconds)] else t.rows)
      && t'.keys == (if key.Keyed? && open && (q == Created || q == Present) then t.keys[key := mark] else t.keys)
  {
  }

  lemma UncertainStep(s: State, limits: Limits, e: Event, key: Key)
    requires Next(s, e) && key in s.t.rows && s.t.rows[key].phase == Uncertain
    ensures key in Apply(s, limits, e).t.rows && Apply(s, limits, e).t.rows[key] == s.t.rows[key]
  {
  }

  /** Main result. A row that has become uncertain stays exactly as it is, even if its late sender reports success. */
  lemma {:induction false} UncertainStays(s: State, limits: Limits, es: seq<Event>, key: Key)
    requires Runs(s, limits, es) && key in s.t.rows && s.t.rows[key].phase == Uncertain
    ensures key in Run(s, limits, es).t.rows && Run(s, limits, es).t.rows[key] == s.t.rows[key]
    decreases |es|
  {
    if es != [] {
      UncertainStep(s, limits, es[0], key);
      UncertainStays(Apply(s, limits, es[0]), limits, es[1..], key);
    }
  }

  /**
   A sender whose lease ran out before its finish finds its row uncertain, and the adapter's answer is not
   recorded.
   */
  lemma LateFinishIgnored(s: State, limits: Limits, serial: nat, leases: Time, now: Time, ok: bool)
    requires Inv(s) && serial in s.senders && (ok ==> s.senders[serial].called)
    requires s.t.rows[s.senders[serial].key].lease <= leases
    ensures var s1 := Apply(s, limits, Cleanup(leases, now));
      Next(s1, Finish(serial, ok)) && Apply(s1, limits, Finish(serial, ok)).t == s1.t
      && s1.t.rows[s.senders[serial].key].phase == Uncertain
  {
  }

  /** Main result. Queueing a keyed event again never creates a second row, whatever became of the first. */
  lemma {:induction false} EventQueuedOnce(s: State, limits: Limits, es: seq<Event>, key: Key)
    requires Runs(s, limits, es) && key.Keyed? && key in s.t.keys
    ensures key in Run(s, limits, es).t.keys && Run(s, limits, es).t.keys[key] == s.t.keys[key]
    ensures forall n :: |s.owners| <= n < |Run(s, limits, es).owners| ==> Run(s, limits, es).owners[n] != key
    decreases |es|
  {
    if es != [] {
      OwnersGrow(Apply(s, limits, es[0]), limits, es[1..]);
      EventQueuedOnce(Apply(s, limits, es[0]), limits, es[1..], key);
    }
  }

  lemma {:induction false} OwnersGrow(s: State, limits: Limits, es: seq<Event>)
    requires Runs(s, limits, es)
    ensures s.owners <= Run(s, limits, es).owners
    decreases |es|
  {
    if es != [] {
      OwnersGrow(Apply(s, limits, es[0]), limits, es[1..]);
    }
  }
}
