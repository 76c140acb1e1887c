/**
 The session object when nothing interferes between its `await`s: what a handshake replays and what a
 flush sends. `SessionWire` models the same code with every interleaving.
 */
module Sessions {
  import opened EventLog
  import opened EventHistory
  import opened EventStores

  /** The numbers of `listed` above `sent`, in order. */
  function Unsent(listed: seq<nat>, sent: nat): seq<nat> {
    if listed == [] then []
    else if listed[0] > sent then [listed[0]] + Unsent(listed[1..], sent)
    else Unsent(listed[1..], sent)
  }

  lemma {:induction false} UnsentAppend(a: seq<nat>, n: nat, sent: nat)
    ensures Unsent(a + [n], sent) == if n > sent then Unsent(a, sent) + [n] else Unsent(a, sent)
  {
    if a == [] {
      assert a + [n] == [n] && [n][1..] == [];
    } else {
      assert (a + [n])[1..] == a[1..] + [n];
      UnsentAppend(a[1..], n, sent);
    }
  }

  lemma {:induction false} UnsentListed(h: History, from: nat, end: nat)
    ensures Unsent(Listed(h, 0, end), from) == Listed(h, from, end)
    decreases end
  {
    if end > 0 {
      UnsentListed(h, from, end - 1);
      if end in h.events {
        UnsentAppend(Listed(h, 0, end - 1), end, from);
      }
    }
  }

  /** Of `frames`, the first `n` arrive before a send fails. */
  function Delivered(frames: seq<nat>, n: nat): seq<nat> {
    if n < |frames| then frames[..n] else frames
  }

  function LastOf(frames: seq<nat>, otherwise: nat): nat {
    if frames == [] then otherwise else frames[|frames| - 1]
  }

  lemma {:induction false} UnsentConcat(a: seq<nat>, b: seq<nat>, sent: nat)
    ensures Unsent(a + b, sent) == Unsent(a, sent) + Unsent(b, sent)
  {
    if a == [] {
      assert a + b == b;
    } else {
      assert (a + b)[1..] == a[1..] + b;
      UnsentConcat(a[1..], b, sent);
    }
  }

  /** One more element of `s`, and how much of the whole answer the first `k` elements already give. */
  lemma UnsentPrefix(s: seq<nat>, k: nat, sent: nat)
    requires k < |s|
    ensures Unsent(s[..k + 1], sent) == if s[k] > sent then Unsent(s[..k], sent) + [s[k]] else Unsent(s[..k], sent)
    ensures Unsent(s[..k], sent) <= Unsent(s, sent)
    ensures s[k] > sent ==> |Unsent(s[..k], sent)| < |Unsent(s, sent)|
  {
    assert s[..k + 1] == s[..k] + [s[k]];
    UnsentAppend(s[..k], s[k], sent);
    assert s == s[..k] + s[k..] && s == s[..k + 1] + s[k + 1..];
    UnsentConcat(s[..k], s[k..], sent);
    UnsentConcat(s[..k + 1], s[k + 1..], sent);
  }

  class Session {
    const owner: Owner
    const store: EventStore
    var head: nat
    var outbox: seq<nat>
    var sent: nat
    var connected: bool
    var ready: bool
    var frames: seq<nat>  // what the current connection has received

    constructor (owner: Owner, store: EventStore)
      ensures this.owner == owner && this.store == store && !connected && frames == []
    {
      this.owner, this.store := owner, store;
      head, outbox, sent, connected, ready, frames := 0, [], 0, false, true, [];
    }

    /** The loop of a handshake: replays what lies above `last` and returns the highest number replayed. */
    method Replay(last: nat) returns (replayed: nat)
      requires frames == [] && forall i, j :: 0 <= i < j < |outbox| ==> outbox[i] < outbox[j]
      modifies `frames
      ensures frames == Unsent(outbox, last)
      ensures replayed == LastOf(frames, last)
    {
      replayed := last;
      var k := 0;
      while k < |outbox|
        invariant k <= |outbox| && frames == Unsent(outbox[..k], last)
        invariant replayed == LastOf(frames, last)
        invariant k > 0 ==> replayed == if outbox[k - 1] > last then outbox[k - 1] else last
      {
        assert outbox[..k + 1] == outbox[..k] + [outbox[k]];
        UnsentAppend(outbox[..k], outbox[k], last);
        if outbox[k] > last {
          frames := frames + [outbox[k]];
          replayed := Max(replayed, outbox[k]);
        }
        k := k + 1;
      }
      assert outbox[..k] == outbox;
    }

    /**
     A new connection that has seen everything up to `last`: when that lies within the kept history it is
     acknowledged and the rest replayed; otherwise nothing is replayed and sending starts at the head.
     */
    method Resume(last: nat, c: Clock) returns (resumable: bool)
      modifies this, store
      ensures var h := HistoryOf(Cleanup(old(store.Contents()), c), owner);
        && resumable == (h.floor <= last <= h.head)
        && frames == (if resumable then Listed(h, last, h.head) else [])
        && sent == (if resumable then LastOf(frames, last) else h.head)
        && (NoLoss(h) && resumable ==> frames == Numbers(last, h.head) && sent == h.head)
      ensures connected && ready
    {
      ghost var h := HistoryOf(Cleanup(store.Contents(), c), owner);
      connected, ready, frames := true, false, [];
      var floor;
      head, floor, outbox := store.Snapshot(owner, c);
      resumable := floor <= last <= head;
      var replayed := head;
      if resumable {
        var acked := store.Ack(owner, last);
        ListedIncreasing(h, 0, h.head);
        replayed := Replay(last);
        UnsentListed(h, last, h.head);
        if NoLoss(h) { ResumeExact(h, last, h.head); }
      }
      sent, ready := replayed, true;
    }

    /** The loop of `flush`: sends what lies above `sent`, until a send fails. */
    method SendDue(accepts: nat)
      requires connected && forall i, j :: 0 <= i < j < |outbox| ==> outbox[i] < outbox[j]
      modifies `frames, `sent, `connected
      ensures var due := Unsent(outbox, old(sent));
        && frames == old(frames) + Delivered(due, accepts)
        && sent == LastOf(Delivered(due, accepts), old(sent))
        && connected == (accepts >= |due|)
    {
      ghost var due, start := Unsent(outbox, sent), sent;
      ghost var done := [];
      var left := accepts;
      var k := 0;
      while k < |outbox|
        invariant k <= |outbox| && connected && |done| + left == accepts
        invariant done == Unsent(outbox[..k], start) && frames == old(frames) + done
        invariant sent == LastOf(done, start)
        invariant k > 0 ==> sent == if outbox[k - 1] > start then outbox[k - 1] else start
      {
        UnsentPrefix(outbox, k, start);
        if outbox[k] > sent {
          if left == 0 {
            connected := false;
            return;
          }
          frames, sent, left := frames + [outbox[k]], outbox[k], left - 1;
          done := done + [outbox[k]];
        }
        k := k + 1;
      }
      assert outbox[..k] == outbox;
    }

    /**
     Sends what the store holds above `sent`; `accepts` frames get through before a send fails and the
     connection is given up.
     */
    method Flush(c: Clock, accepts: nat)
      modifies this, store
      ensures var h := HistoryOf(Cleanup(old(store.Contents()), c), owner);
        var due := Listed(h, old(sent), h.head);
        if !old(connected) || !old(ready) then frames == old(frames) && store.Contents() == old(store.Contents())
        else
          && frames == old(frames) + Delivered(due, accepts)
          && sent == LastOf(Delivered(due, accepts), old(sent))
          && connected == (accepts >= |due|)
          && (NoLoss(h) && h.floor <= old(sent) && connected ==> frames == old(frames) + Numbers(old(sent), h.head))
    {
      if !connected || !ready { return; }
      ghost var h := HistoryOf(Cleanup(store.Contents(), c), owner);
      var floor;
      head, floor, outbox := store.Snapshot(owner, c);
      UnsentListed(h, sent, h.head);
      ListedIncreasing(h, 0, h.head);
      if NoLoss(h) && h.floor <= sent { ResumeExact(h, sent, h.head); }
      SendDue(accepts);
    }
  }
}
