/** The delivery tables as an object, and the worker loop that sends between claim and finish. */
module CommunicationStores {
  import opened Prelude
  import opened Deliveries

  class CommunicationStore {
    const limits: Limits
    var rows: map<Key, Row>
    var keys: map<Key, string>
    var issued: nat

    function Contents(): Tables
      reads this
    {
      Tables(rows, keys)
    }

    constructor (limits: Limits)
      ensures Contents() == Tables(map[], map[]) && issued == 0 && this.limits == limits
    {
      this.limits, rows, keys, issued := limits, map[], map[], 0;
    }

    method QueueDelivery(key: Key, mark: string, allowed: bool, roomy: bool, now: Time) returns (q: Queued)
      modifies this
      ensures q == QueueOutcome(old(Contents()), limits, key, mark, allowed, roomy)
      ensures Contents() == QueueRow(old(Contents()), limits, key, mark, allowed, roomy, old(issued), now)
      ensures issued == if q.Created? then old(issued) + 1 else old(issued)
    {
      if !allowed { return Refused; }
      var saved := keys;
      if key.Keyed? {
        if key in keys { return if keys[key] == mark then Present else Conflicting; }
        if |keys| >= limits.keys { return Full; }
        keys := keys[key := mark];
      }
      if key in rows { return Present; }
      if |rows| >= limits.rows || !roomy {
        keys := saved;
        return Full;
      }
      rows := rows[key := Row(issued, Pending, 0, now + limits.seconds)];
      issued := issued + 1;
      return Created;
    }

    method CleanupExpired(leases: Time, now: Time)
      modifies this
      ensures Contents() == CleanupRows(old(Contents()), leases, now) && issued == old(issued)
    {
      rows := map k | k in rows ::
        if rows[k].phase == Sending && rows[k].lease <= leases then rows[k].(phase := Uncertain) else rows[k];
      rows := map k | k in rows && !(rows[k].expires <= now && rows[k].phase in {Sent, Pending}) :: rows[k];
    }

    method ClaimDelivery(key: Key, allowed: bool, now: Time) returns (claimed: bool)
      modifies this
      ensures claimed == CanClaim(old(Contents()), key, allowed, now)
      ensures Contents() == ClaimRow(old(Contents()), key, allowed, now) && issued == old(issued)
    {
      if !allowed { return false; }
      claimed := key in rows && rows[key].phase == Pending && rows[key].expires > now;
      if claimed { rows := rows[key := rows[key].(phase := Sending, lease := now + LEASE_SECONDS)]; }
    }

    method FinishDelivery(key: Key, phase: Phase)
      modifies this
      ensures Contents() == FinishRow(old(Contents()), key, phase) && issued == old(issued)
    {
      if key in rows && rows[key].phase == Sending { rows := rows[key := rows[key].(phase := phase)]; }
    }

    /** Hands every pending delivery it can claim to its adapter; a failed or doubtful send is not repeated. */
    method DeliverPending(leases: Time, now: Time, attempts: seq<Attempt>) returns (calls: seq<Key>)
      modifies this
      ensures Contents() == AfterAll(CleanupRows(old(Contents()), leases, now), attempts)
      ensures calls == CallsOf(CleanupRows(old(Contents()), leases, now), attempts)
    {
      CleanupExpired(leases, now);
      ghost var start := Contents();
      calls := [];
      var k := 0;
      assert attempts[0..] == attempts;
      while k < |attempts|
        invariant k <= |attempts|
        invariant AfterAll(Contents(), attempts[k..]) == AfterAll(start, attempts)
        invariant calls + CallsOf(Contents(), attempts[k..]) == CallsOf(start, attempts)
      {
        var a := attempts[k];
        assert attempts[k..][1..] == attempts[k + 1..];
        k := k + 1;
        var claimed := ClaimDelivery(a.key, a.allowed, a.now);
        if !claimed { continue; }
        calls := calls + [a.key];
        FinishDelivery(a.key, if a.ok then Sent else Uncertain);
      }
    }
  }

  /** One row the worker looks at: may it be sent, when, and does the adapter succeed? */
  datatype Attempt = Attempt(key: Key, allowed: bool, now: Time, ok: bool)

  function AfterOne(t: Tables, a: Attempt): Tables {
    if CanClaim(t, a.key, a.allowed, a.now)
    then FinishRow(ClaimRow(t, a.key, a.allowed, a.now), a.key, if a.ok then Sent else Uncertain)
    else t
  }

  function AfterAll(t: Tables, attempts: seq<Attempt>): Tables
    decreases |attempts|
  {
    if attempts == [] then t else AfterAll(AfterOne(t, attempts[0]), attempts[1..])
  }

  function CallsOf(t: Tables, attempts: seq<Attempt>): seq<Key>
    decreases |attempts|
  {
    if attempts == [] then []
    else
      (if CanClaim(t, attempts[0].key, attempts[0].allowed, attempts[0].now) then [attempts[0].key] else [])
      + CallsOf(AfterOne(t, attempts[0]), attempts[1..])
  }

  lemma {:induction false} CalledWerePending(t: Tables, attempts: seq<Attempt>, key: Key)
    ensures key in CallsOf(t, attempts) ==> key in t.rows && t.rows[key].phase == Pending
    decreases |attempts|
  {
    if attempts != [] {
      CalledWerePending(AfterOne(t, attempts[0]), attempts[1..], key);
    }
  }

  /** However often a row is listed, one pass hands it over at most once. */
  lemma {:induction false} PassCallsOnce(t: Tables, attempts: seq<Attempt>)
    ensures forall i, j :: 0 <= i < j < |CallsOf(t, attempts)| ==> CallsOf(t, attempts)[i] != CallsOf(t, attempts)[j]
    decreases |attempts|
  {
    if attempts != [] {
      var t', rest := AfterOne(t, attempts[0]), attempts[1..];
      PassCallsOnce(t', rest);
      CalledWerePending(t', rest, attempts[0].key);
    }
  }

  /** Rows that were not handed over are left as they were. */
  lemma {:induction false} UncalledUntouched(t: Tables, attempts: seq<Attempt>, key: Key)
    requires key in t.rows && key !in CallsOf(t, attempts)
    ensures key in AfterAll(t, attempts).rows && AfterAll(t, attempts).rows[key] == t.rows[key]
    decreases |attempts|
  {
    if attempts != [] {
      UncalledUntouched(AfterOne(t, attempts[0]), attempts[1..], key);
    }
  }

  /** The attempt that claims row `key` in a pass, if any: the first permitted one before the row expires. */
  predicate Hands(t: Tables, attempts: seq<Attempt>, key: Key, k: nat) {
    && k < |attempts| && key in t.rows && t.rows[key].phase == Pending
    && attempts[k].key == key && attempts[k].allowed && t.rows[key].expires > attempts[k].now
    && forall j :: 0 <= j < k && attempts[j].key == key && attempts[j].allowed ==>
         t.rows[key].expires <= attempts[j].now
  }

  lemma {:induction false} NobodyHands(t: Tables, attempts: seq<Attempt>, key: Key)
    requires key in t.rows && t.rows[key].phase != Pending
    ensures key !in CallsOf(t, attempts)
    ensures key in AfterAll(t, attempts).rows && AfterAll(t, attempts).rows[key] == t.rows[key]
  {
    CalledWerePending(t, attempts, key);
    UncalledUntouched(t, attempts, key);
  }

  /**
   Main result. A pass hands over exactly the pending rows that some permitted attempt meets before they expire, and
   such a row ends sent if the attempt that claimed it succeeded, and uncertain if it did not.
   */
  lemma {:induction false} HandedOver(t: Tables, attempts: seq<Attempt>, key: Key, k: nat)
    requires Hands(t, attempts, key, k)
    ensures key in CallsOf(t, attempts) && key in AfterAll(t, attempts).rows
    ensures AfterAll(t, attempts).rows[key].phase == Sent <==> attempts[k].ok
    ensures AfterAll(t, attempts).rows[key].phase == Uncertain <==> !attempts[k].ok
    decreases |attempts|
  {
    var t', rest := AfterOne(t, attempts[0]), attempts[1..];
    if k == 0 {
      NobodyHands(t', rest, key);
    } else {
      assert forall j :: 0 <= j < |rest| ==> rest[j] == attempts[j + 1];
      assert t'.rows[key] == t.rows[key];
      HandedOver(t', rest, key, k - 1);
    }
  }

  lemma {:induction false} HandedBySome(t: Tables, attempts: seq<Attempt>, key: Key) returns (k: nat)
    requires key in CallsOf(t, attempts)
    ensures Hands(t, attempts, key, k)
    decreases |attempts|
  {
    var t', rest := AfterOne(t, attempts[0]), attempts[1..];
    CalledWerePending(t, attempts, key);
    if CanClaim(t, attempts[0].key, attempts[0].allowed, attempts[0].now) && attempts[0].key == key {
      return 0;
    }
    k := HandedBySome(t', rest, key);
    assert forall j :: 0 < j < |attempts| ==> attempts[j] == rest[j - 1];
    return k + 1;
  }

  predicate EndsAs(t: Tables, key: Key, ok: bool) {
    key in t.rows && (t.rows[key].phase == Sent <==> ok) && (t.rows[key].phase == Uncertain <==> !ok)
  }

  /** A row that was handed over ends up sent or uncertain, as its attempt reports, and never pending again. */
  lemma CalledSettled(t: Tables, attempts: seq<Attempt>, key: Key)
    requires key in CallsOf(t, attempts)
    ensures exists k: nat :: Hands(t, attempts, key, k) && EndsAs(AfterAll(t, attempts), key, attempts[k].ok)
  {
    var k := HandedBySome(t, attempts, key);
    HandedOver(t, attempts, key, k);
  }
}
