/** The event store as an object: each method is one transaction on its three tables and the key table. */
module EventStores {
  import opened Prelude
  import opened EventLog

  class EventStore {
    const limits: Limits
    var histories: map<Owner, History>
    var keys: map<(Owner, string), KeyRow>
    var inputs: map<(Owner, string), InputRow>

    function Contents(): Store
      reads this
    {
      Store(histories, keys, inputs)
    }

    constructor (limits: Limits)
      ensures Contents() == EMPTY && this.limits == limits
    {
      this.limits := limits;
      histories, keys, inputs := map[], map[], map[];
    }

    method Clean(c: Clock)
      modifies this
      ensures Contents() == Cleanup(old(Contents()), c)
    {
      histories := map o | o in histories :: histories[o].(floor := NewFloor(histories[o], c.floor));
      histories := map o | o in histories :: histories[o].(events :=
        map k | k in histories[o].events && histories[o].events[k].expires > c.events :: histories[o].events[k]);
      inputs := map i | i in inputs && inputs[i].expires > c.inputs :: inputs[i];
    }

    /** What a reconnecting client is shown: the last number, the floor and the stored events in order. */
    method Snapshot(o: Owner, c: Clock) returns (head: nat, floor: nat, numbers: seq<nat>)
      modifies this
      ensures Contents() == Cleanup(old(Contents()), c)
      ensures head == HistoryOf(Contents(), o).head && floor == HistoryOf(Contents(), o).floor
      ensures numbers == Listed(HistoryOf(Contents(), o), 0, head)
    {
      Clean(c);
      if o !in histories { return 0, 0, []; }
      var h := histories[o];
      head, floor, numbers := h.head, h.floor, [];
      var k := 0;
      while k < head
        invariant k <= head && numbers == Listed(h, 0, k)
      {
        k := k + 1;
        if k in h.events { numbers := numbers + [k]; }
      }
    }

    /** Writes the event row, the session's new number, the key row and the status of the input an ending answers. */
    method Add(o: Owner, m: Message, key: Option<string>, now: Time)
      modifies this
      ensures Contents() == AddEvent(old(Contents()), limits, o, m, key, now)
    {
      var h := if o in histories then histories[o] else FRESH;
      var n := h.head + 1;
      histories := histories[o := History(n, h.floor, h.events[n := Stored(m, now + limits.eventSeconds)])];
      if key.Some? {
        keys := keys[(o, key.value) := KeyRow(m.content, n)];
        var i := (o, m.content.ref);
        if m.content.kind == "chat.end" && i in inputs {
          inputs := inputs[i := inputs[i].(status := ChatEndStatus(m.content.payload))];
        }
      }
    }

    /** Stores an event under the next number, once per key; errors leave everything as it was. */
    method Append(o: Owner, m: Message, key: Option<string>, roomy: bool, c: Clock) returns (r: Appended)
      modifies this
      ensures r == AppendOutcome(Cleanup(old(Contents()), c), limits, o, m, key, roomy)
      ensures Contents() == AppendStore(old(Contents()), limits, o, m, key, roomy, c)
    {
      var savedHistories, savedInputs := histories, inputs;
      Clean(c);
      if key.Some? {
        if (o, key.value) in keys {
          var known := keys[(o, key.value)];
          if known.content == m.content { return Known(known.head); }
          histories, inputs := savedHistories, savedInputs;
          return KeyReused;
        }
        if |keys| >= limits.keys {
          histories, inputs := savedHistories, savedInputs;
          return NoCapacity;
        }
      }
      var h := if o in histories then histories[o] else FRESH;
      if (o !in histories && |histories| >= limits.sessions) || |h.events| >= limits.outbox || !roomy {
        histories, inputs := savedHistories, savedInputs;
        return NoCapacity;
      }
      Add(o, m, key, c.write);
      return Added(h.head + 1);
    }

    method Ack(o: Owner, n: int) returns (ok: bool)
      modifies this
      ensures ok == CanAck(old(Contents()), o, n)
      ensures Contents() == AckStore(old(Contents()), o, n)
    {
      if n < 0 || n > (if o in histories then histories[o].head else 0) { return false; }
      if o in histories {
        var h := histories[o];
        histories := histories[o := History(h.head, Max(h.floor, n), map k | k in h.events && k > n :: h.events[k])];
      }
      return true;
    }

    method AcceptInput(o: Owner, key: string, text: string, c: Clock) returns (r: Accepted)
      modifies this
      ensures r == AcceptOutcome(Cleanup(old(Contents()), c), limits, o, key, text)
      ensures Contents() == AcceptStore(old(Contents()), limits, o, key, text, c)
    {
      var savedHistories, savedInputs := histories, inputs;
      Clean(c);
      if (o, key) in inputs {
        var existing := inputs[(o, key)];
        if existing.text == Some(text) { return Duplicate(existing.status); }
        histories, inputs := savedHistories, savedInputs;
        return Conflicting;
      }
      if |inputs| >= limits.inputs {
        histories, inputs := savedHistories, savedInputs;
        return InputsFull;
      }
      inputs := inputs[(o, key) := InputRow(Some(text), Uncertain, c.write + limits.inputSeconds)];
      return Execute;
    }

    method FinishInput(o: Owner, key: string, status: InputStatus)
      modifies this
      ensures Contents() == FinishStore(old(Contents()), o, key, status)
    {
      if (o, key) in inputs { inputs := inputs[(o, key) := inputs[(o, key)].(status := status)]; }
    }

    method EraseOwner(o: Owner)
      modifies this
      ensures Contents() == EraseStore(old(Contents()), o)
    {
      inputs := map i | i in inputs :: if i.0 == o then inputs[i].(text := None, status := Deleted) else inputs[i];
      if o in histories { histories := histories[o := History(histories[o].head, histories[o].head, map[])]; }
    }
  }
}
