/**
 The leased counting semaphore that model calls of all processes share. A row is a lease; a holder is a
 process inside its slot. A process that crashes leaves its row behind until it expires, and a holder that
 renews too late loses its row to the next process that asks for a slot.
 */
module ModelSlots {
  import opened Prelude

  type Key = nat  // uuid of one use of a slot

  const SLOT_SECONDS := 65

  function Unexpired(rows: map<Key, Time>, now: Time): map<Key, Time> {
    map k | k in rows && rows[k] > now :: rows[k]
  }

  /** One attempt: clear expired rows, then take a row if fewer than `limit` are left. */
  function AttemptRows(rows: map<Key, Time>, limit: nat, key: Key, now: Time): map<Key, Time> {
    var left := Unexpired(rows, now);
    if |left| < limit then left[key := now + SLOT_SECONDS] else left
  }

  function RenewRows(rows: map<Key, Time>, key: Key, now: Time): map<Key, Time> {
    if key in rows then rows[key := now + SLOT_SECONDS] else rows
  }

  /** One look at the table; `others` is what other processes have done to it since the last one. */
  datatype Tick = Tick(now: Time, budgetOk: bool, cancelled: bool, others: map<Key, Time> -> map<Key, Time>)

  /** Other processes never write a row under `key`. */
  ghost predicate Foreign(t: Tick, key: Key) {
    forall rows {:trigger t.others(rows)} :: key !in rows ==> key !in t.others(rows)
  }

  datatype Entry = Entered(tick: nat) | Refused(tick: nat) | Waiting

  /** How many attempts were made by the time the wait ended. */
  function Ticks(e: Entry, offered: nat): nat {
    match e
    case Entered(tick) => tick + 1
    case Refused(tick) => tick
    case Waiting => offered
  }

  /** The rows after the first `n` attempts. */
  function AfterAttempts(rows: map<Key, Time>, limit: nat, key: Key, ticks: seq<Tick>, n: nat): map<Key, Time>
    requires n <= |ticks|
  {
    if n == 0 then rows
    else AttemptRows(ticks[n - 1].others(AfterAttempts(rows, limit, key, ticks, n - 1)), limit, key, ticks[n - 1].now)
  }

  class SlotTable {
    const limit: nat
    var rows: map<Key, Time>

    constructor (limit: nat)
      ensures this.limit == limit && rows == map[]
    {
      this.limit, rows := limit, map[];
    }

    method TryAcquire(key: Key, now: Time) returns (acquired: bool)
      requires key !in rows
      modifies this
      ensures rows == AttemptRows(old(rows), limit, key, now)
      ensures acquired == (key in rows)
    {
      rows := map k | k in rows && rows[k] > now :: rows[k];
      acquired := |rows| < limit;
      if acquired { rows := rows[key := now + SLOT_SECONDS]; }
    }

    method Look(key: Key, tick: Tick) returns (acquired: bool)
      requires key !in rows && Foreign(tick, key)
      modifies this
      ensures rows == AttemptRows(tick.others(old(rows)), limit, key, tick.now)
      ensures acquired == (key in rows)
    {
      rows := tick.others(rows);
      acquired := TryAcquire(key, tick.now);
    }

    /** Waits for a free slot among other processes; gives up as soon as the budget or the caller says so. */
    method Enter(key: Key, ticks: seq<Tick>) returns (e: Entry)
      requires key !in rows && forall k :: 0 <= k < |ticks| ==> Foreign(ticks[k], key)
      modifies this
      ensures Ticks(e, |ticks|) <= |ticks| && rows == AfterAttempts(old(rows), limit, key, ticks, Ticks(e, |ticks|))
      ensures e.Entered? == (key in rows)
      ensures forall k :: 0 <= k < Ticks(e, |ticks|) ==> ticks[k].budgetOk && !ticks[k].cancelled
      ensures e.Refused? ==> e.tick < |ticks| && (!ticks[e.tick].budgetOk || ticks[e.tick].cancelled)
    {
      ghost var start := rows;
      var k := 0;
      while k < |ticks|
        invariant 0 <= k <= |ticks| && key !in rows
        invariant rows == AfterAttempts(start, limit, key, ticks, k)
        invariant forall j :: 0 <= j < k ==> ticks[j].budgetOk && !ticks[j].cancelled
      {
        if !ticks[k].budgetOk || ticks[k].cancelled { return Refused(k); }
        var acquired := Look(key, ticks[k]);
        if acquired { return Entered(k); }
        k := k + 1;
      }
      return Waiting;
    }

    method Renew(key: Key, now: Time)
      modifies this
      ensures rows == RenewRows(old(rows), key, now)
    {
      if key in rows { rows := rows[key := now + SLOT_SECONDS]; }
    }

    method Release(key: Key)
      modifies this
      ensures rows == old(rows) - {key}
    {
      rows := rows - {key};
    }
  }

  // ---- all processes together -------------------------------------------------------

  /** `holders` are the processes inside a slot; `issued` the keys that ever got one. */
  datatype State = State(limit: nat, clock: Time, rows: map<Key, Time>, holders: set<Key>, issued: set<Key>)

  datatype Event =
    | Attempt(key: Key, now: Time)
    | Renewal(key: Key, now: Time)
    | Leave(key: Key)
    | Crash(key: Key)

  predicate Next(s: State, e: Event) {
    match e
    case Attempt(key, now) => s.clock <= now && key !in s.issued
    case Renewal(_, now) => s.clock <= now
    case Leave(key) => key in s.holders
    case Crash(key) => key in s.holders
  }

  function Apply(s: State, e: Event): State {
    match e
    case Attempt(key, now) =>
      var rows := AttemptRows(s.rows, s.limit, key, now);
      if key in rows then State(s.limit, now, rows, s.holders + {key}, s.issued + {key})
      else s.(clock := now, rows := rows)
    case Renewal(key, now) => s.(clock := now, rows := RenewRows(s.rows, key, now))
    case Leave(key) => s.(rows := s.rows - {key}, holders := s.holders - {key})
    case Crash(key) => s.(holders := s.holders - {key})
  }

  function Run(s: State, es: seq<Event>): State
    decreases |es|
  {
    if es == [] then s else Run(Apply(s, es[0]), es[1..])
  }

  predicate Runs(s: State, es: seq<Event>)
    decreases |es|
  {
    es == [] || (Next(s, es[0]) && Runs(Apply(s, es[0]), es[1..]))
  }

  function Start(limit: nat, clock: Time): State {
    State(limit, clock, map[], {}, {})
  }

  /** Holders whose row another process has taken away. */
  function Evicted(s: State): set<Key> {
    s.holders - s.rows.Keys
  }

  predicate Safe(s: State) {
    && |s.rows| <= s.limit
    && s.rows.Keys <= s.issued && s.holders <= s.issued
    && (forall k :: k in s.rows ==> s.rows[k] <= s.clock + SLOT_SECONDS)
  }

  lemma SubsetSize(a: set<Key>, b: set<Key>)
    requires a <= b
    ensures |a| <= |b|
  {
    assert b == a + (b - a);
  }

  lemma UnexpiredShrinks(rows: map<Key, Time>, now: Time)
    ensures |Unexpired(rows, now)| <= |rows|
  {
    SubsetSize(Unexpired(rows, now).Keys, rows.Keys);
  }

  lemma AttemptWithinLimit(rows: map<Key, Time>, limit: nat, key: Key, now: Time)
    requires |rows| <= limit && key !in rows
    ensures |AttemptRows(rows, limit, key, now)| <= limit
  {
    UnexpiredShrinks(rows, now);
    var left := Unexpired(rows, now);
    assert left[key := now + SLOT_SECONDS].Keys == left.Keys + {key};
  }

  lemma ApplySafe(s: State, e: Event)
    requires Safe(s) && Next(s, e)
    ensures Safe(Apply(s, e)) && Apply(s, e).limit == s.limit
  {
    match e
    case Attempt(key, now) =>
      AttemptWithinLimit(s.rows, s.limit, key, now);
    case Renewal(key, now) =>
      assert RenewRows(s.rows, key, now).Keys == s.rows.Keys;
    case Leave(key) =>
      SubsetSize((s.rows - {key}).Keys, s.rows.Keys);
    case Crash(_) =>
  }

  lemma {:induction false} RunSafe(s: State, es: seq<Event>)
    requires Safe(s) && Runs(s, es)
    ensures Safe(Run(s, es)) && Run(s, es).limit == s.limit
    decreases |es|
  {
    if es != [] {
      ApplySafe(s, es[0]);
      RunSafe(Apply(s, es[0]), es[1..]);
    }
  }

  /**
   Main result. At every moment there are at most `limit` rows, and at most `limit` holders besides those
   that were evicted.
   */
  lemma HoldersWithinLimit(limit: nat, clock: Time, es: seq<Event>)
    requires Runs(Start(limit, clock), es)
    ensures var s := Run(Start(limit, clock), es);
      |s.rows| <= limit && |s.holders| <= limit + |Evicted(s)|
  {
    var s := Run(Start(limit, clock), es);
    RunSafe(Start(limit, clock), es);
    SubsetSize(s.holders - Evicted(s), s.rows.Keys);
    assert s.holders == (s.holders - Evicted(s)) + Evicted(s);
  }

  /**
   Main result. A row disappears only when its holder leaves or when another process finds it expired, and
   until then its expiry never moves back.
   */
  lemma RowKept(s: State, e: Event, key: Key)
    requires Safe(s) && Next(s, e) && key in s.rows
    ensures key !in Apply(s, e).rows <==> e == Leave(key) || (e.Attempt? && s.rows[key] <= e.now)
    ensures key in Apply(s, e).rows ==> s.rows[key] <= Apply(s, e).rows[key]
  {
  }

  /**
   Main result. An attempt is admitted exactly when fewer than `limit` rows are unexpired: so a waiting process gets in
   as soon as 65 seconds have passed since the last step of the others, whoever crashed.
   */
  lemma AdmittedExact(limit: nat, clock: Time, es: seq<Event>, key: Key, now: Time)
    requires Runs(Start(limit, clock), es) && Next(Run(Start(limit, clock), es), Attempt(key, now))
    ensures var s := Run(Start(limit, clock), es); var t := Apply(s, Attempt(key, now));
      && (key in t.holders <==> |set k | k in s.rows && s.rows[k] > now| < limit)
      && (key in t.holders ==> key in t.rows && t.rows[key] == now + 65)
      && (limit > 0 && s.clock + 65 <= now ==> key in t.holders)
  {
    RunSafe(Start(limit, clock), es);
    var s := Run(Start(limit, clock), es);
    var left := Unexpired(s.rows, now);
    assert left.Keys == set k | k in s.rows && s.rows[k] > now;
    assert |left| == |left.Keys|;
    if s.clock + 65 <= now { assert left == map[]; }
  }

  /** A renewal gives a row that is still there 65 seconds more, and no other row anything. */
  lemma RenewedExact(s: State, key: Key, now: Time, k: Key)
    requires Next(s, Renewal(key, now)) && k in s.rows
    ensures var t := Apply(s, Renewal(key, now));
      k in t.rows && t.rows[k] == (if k == key then now + 65 else s.rows[k]) && t.holders == s.holders
    ensures key !in s.rows ==> Apply(s, Renewal(key, now)).rows == s.rows
  {
  }

  /** No attempt of the run meets an expired row of a holder: everybody renews in time. */
  predicate Timely(s: State, es: seq<Event>)
    decreases |es|
  {
    es == [] ||
    ((es[0].Attempt? ==> forall h :: h in s.holders && h in s.rows ==> s.rows[h] > es[0].now)
     && Timely(Apply(s, es[0]), es[1..]))
  }

  /** An attempt evicts exactly the holders whose rows it finds expired; nothing else evicts anybody. */
  lemma EvictedByAttempt(s: State, e: Event)
    requires Safe(s) && Next(s, e)
    ensures e.Attempt? ==>
      Evicted(Apply(s, e)) == Evicted(s) + (set h | h in s.holders && h in s.rows && s.rows[h] <= e.now)
    ensures !e.Attempt? ==> Evicted(Apply(s, e)) <= Evicted(s)
  {
  }

  /** Main result. When every holder renews in time, the semaphore holds: never more than `limit` holders. */
  lemma {:induction false} TimelyHolders(s: State, es: seq<Event>)
    requires Safe(s) && Runs(s, es) && Timely(s, es) && Evicted(s) == {}
    ensures |Run(s, es).holders| <= s.limit
    decreases |es|
  {
    if es == [] {
      assert forall h :: h in s.holders && h !in s.rows ==> h in Evicted(s);
      SubsetSize(s.holders, s.rows.Keys);
    } else {
      ApplySafe(s, es[0]);
      EvictedByAttempt(s, es[0]);
      TimelyHolders(Apply(s, es[0]), es[1..]);
    }
  }

  /** At no moment of the run does a holder lack its row. */
  predicate NeverEvicts(s: State, es: seq<Event>)
    decreases |es|
  {
    Evicted(s) == {} && (es == [] || NeverEvicts(Apply(s, es[0]), es[1..]))
  }

  /** Main result. Timely renewal is exactly the condition under which no holder ever loses its row. */
  lemma {:induction false} TimelyIffNeverEvicts(s: State, es: seq<Event>)
    requires Safe(s) && Runs(s, es) && Evicted(s) == {}
    ensures Timely(s, es) <==> NeverEvicts(s, es)
    decreases |es|
  {
    if es != [] {
      ApplySafe(s, es[0]);
      EvictedByAttempt(s, es[0]);
      var s' := Apply(s, es[0]);
      if Evicted(s') == {} {
        TimelyIffNeverEvicts(s', es[1..]);
        assert forall h :: h in s.holders && h in s.rows && es[0].Attempt? && s.rows[h] <= es[0].now ==>
          h in Evicted(s');
      } else {
        var h :| h in Evicted(s');
        assert h in s.holders && h in s.rows;
      }
    }
  }

  /** Without timely renewal the limit breaks: the first holder misses its expiry and a second one enters. */
  lemma LateRenewalBreaksLimit()
    ensures var es := [Attempt(0, 0), Attempt(1, 65), Renewal(0, 66)];
      Runs(Start(1, 0), es) && |Run(Start(1, 0), es).holders| == 2
  {
    var es := [Attempt(0, 0), Attempt(1, 65), Renewal(0, 66)];
    var s1 := State(1, 0, map[0 := 65], {0}, {0});
    assert Unexpired(map[], 0) == map[];
    assert Apply(Start(1, 0), es[0]) == s1;
    assert Unexpired(s1.rows, 65) == map[];
    var s2 := State(1, 65, map[1 := 130], {0, 1}, {0, 1});
    assert Apply(s1, es[1]) == s2;
    var s3 := s2.(clock := 66);
    assert Apply(s2, es[2]) == s3;
    assert es[1..][1..] == [es[2]];
    assert Run(s2, [es[2]]) == Run(s3, []);
    assert Runs(s2, [es[2]]);
  }
}
