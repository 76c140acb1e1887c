/**
 The durable event log behind a WebSocket session: per-owner sequence numbers with a floor below
 which history is gone, keyed events that are stored once, and inputs that are accepted once. One
 function is one transaction.
 */
module EventLog {
  import opened Prelude

  type Owner = nat

  /** The fields of an event that its fingerprint covers. */
  datatype Content = Content(kind: string, ref: string, payload: Payload)

  datatype Payload = Payload(text: string, uncertain: bool, interrupted: bool, suspended: bool, failed: bool)

  datatype Message = Message(id: nat, content: Content)

  datatype Stored = Stored(message: Message, expires: Time)

  /** A session row (`head` is its column `seq`) with the events stored for it. */
  datatype History = History(head: nat, floor: nat, events: map<nat, Stored>)

  datatype KeyRow = KeyRow(content: Content, head: nat)

  datatype InputStatus = Uncertain | Interrupted | Suspended | Failed | Completed | Deleted

  /** `text` stands for its digest; an erased row has none. */
  datatype InputRow = InputRow(text: Option<string>, status: InputStatus, expires: Time)

  datatype Store = Store(
    histories: map<Owner, History>, keys: map<(Owner, string), KeyRow>, inputs: map<(Owner, string), InputRow>)

  datatype Limits = Limits(keys: nat, sessions: nat, outbox: nat, inputs: nat, eventSeconds: nat, inputSeconds: nat)

  /** The clock readings of one transaction: floor update, event deletion, input deletion, and the row it writes. */
  datatype Clock = Clock(floor: Time, events: Time, inputs: Time, write: Time)

  // ---- cleanup ----------------------------------------------------------------------

  predicate Expired(h: History, k: nat, now: Time) {
    k in h.events && h.events[k].expires <= now
  }

  /** The highest expired sequence number among 1..n, or 0. */
  function HighestExpired(h: History, n: nat, now: Time): (k: nat)
    ensures k <= n && (k > 0 ==> Expired(h, k, now))
    ensures forall j :: k < j <= n ==> !Expired(h, j, now)
  {
    if n == 0 then 0 else if Expired(h, n, now) then n else HighestExpired(h, n - 1, now)
  }

  function Max(a: nat, b: nat): nat {
    if a > b then a else b
  }

  function NewFloor(h: History, now: Time): nat {
    Max(h.floor, HighestExpired(h, h.head, now))
  }

  function CleanHistory(h: History, c: Clock): History {
    h.(floor := NewFloor(h, c.floor),
       events := map k | k in h.events && h.events[k].expires > c.events :: h.events[k])
  }

  function CleanInputs(inputs: map<(Owner, string), InputRow>, now: Time): map<(Owner, string), InputRow> {
    map i | i in inputs && inputs[i].expires > now :: inputs[i]
  }

  function Cleanup(s: Store, c: Clock): Store {
    s.(histories := map o | o in s.histories :: CleanHistory(s.histories[o], c),
       inputs := CleanInputs(s.inputs, c.inputs))
  }

  // ---- append -----------------------------------------------------------------------

  const FRESH := History(0, 0, map[])

  function HistoryOf(s: Store, o: Owner): History {
    if o in s.histories then s.histories[o] else FRESH
  }

  datatype Appended =
    | Added(head: nat)
    | Known(head: nat)  // the key is already taken by the same content: its event, if still stored, is returned
    | KeyReused        // same key, different content
    | NoCapacity

  function ChatEndStatus(p: Payload): InputStatus {
    if p.uncertain then Uncertain
    else if p.interrupted then Interrupted
    else if p.suspended then Suspended
    else if p.failed then Failed
    else Completed
  }

  /** A keyed `chat.end` also settles the input it answers. */
  function EndInput(inputs: map<(Owner, string), InputRow>, o: Owner, key: Option<string>, content: Content)
    : map<(Owner, string), InputRow>
  {
    var i := (o, content.ref);
    if key.Some? && content.kind == "chat.end" && i in inputs
    then inputs[i := inputs[i].(status := ChatEndStatus(content.payload))]
    else inputs
  }

  /** The outcome of an append after cleanup; `roomy` stands for the byte limits. */
  function AppendOutcome(s: Store, limits: Limits, o: Owner, m: Message, key: Option<string>, roomy: bool): Appended {
    if key.Some? && (o, key.value) in s.keys then
      if s.keys[(o, key.value)].content == m.content then Known(s.keys[(o, key.value)].head) else KeyReused
    else if key.Some? && |s.keys| >= limits.keys then NoCapacity
    else if o !in s.histories && |s.histories| >= limits.sessions then NoCapacity
    else if |HistoryOf(s, o).events| >= limits.outbox || !roomy then NoCapacity
    else Added(HistoryOf(s, o).head + 1)
  }

  function AddEvent(s: Store, limits: Limits, o: Owner, m: Message, key: Option<string>, now: Time): Store {
    var h := HistoryOf(s, o);
    var n := h.head + 1;
    Store(
      s.histories[o := History(n, h.floor, h.events[n := Stored(m, now + limits.eventSeconds)])],
      if key.Some? then s.keys[(o, key.value) := KeyRow(m.content, n)] else s.keys,
      EndInput(s.inputs, o, key, m.content))
  }

  /** An error rolls the transaction back, its cleanup included. */
  function AppendStore(s: Store, limits: Limits, o: Owner, m: Message, key: Option<string>, roomy: bool,
                       c: Clock): Store {
    var clean := Cleanup(s, c);
    match AppendOutcome(clean, limits, o, m, key, roomy)
    case Added(_) => AddEvent(clean, limits, o, m, key, c.write)
    case Known(_) => clean
    case KeyReused => s
    case NoCapacity => s
  }

  // ---- ack, snapshot ----------------------------------------------------------------

  predicate CanAck(s: Store, o: Owner, n: int) {
    0 <= n <= HistoryOf(s, o).head
  }

  function AckHistory(h: History, n: nat): History {
    h.(floor := Max(h.floor, n), events := map k | k in h.events && k > n :: h.events[k])
  }

  function AckStore(s: Store, o: Owner, n: int): Store {
    if CanAck(s, o, n) && o in s.histories then s.(histories := s.histories[o := AckHistory(s.histories[o], n)]) else s
  }

  /** The stored events with numbers from+1..end, in order. */
  function Listed(h: History, from: nat, end: nat): seq<nat>
    decreases end
  {
    if end <= from then [] else if end in h.events then Listed(h, from, end - 1) + [end] else Listed(h, from, end - 1)
  }

  // ---- inputs -----------------------------------------------------------------------

  datatype Accepted = Execute | Duplicate(status: InputStatus) | Conflicting | InputsFull

  function AcceptOutcome(s: Store, limits: Limits, o: Owner, key: string, text: string): Accepted {
    if (o, key) in s.inputs then
      if s.inputs[(o, key)].text != Some(text) then Conflicting else Duplicate(s.inputs[(o, key)].status)
    else if |s.inputs| >= limits.inputs then InputsFull
    else Execute
  }

  function AcceptStore(s: Store, limits: Limits, o: Owner, key: string, text: string, c: Clock): Store {
    var clean := Cleanup(s, c);
    match AcceptOutcome(clean, limits, o, key, text)
    case Execute =>
      clean.(inputs := clean.inputs[(o, key) := InputRow(Some(text), Uncertain, c.write + limits.inputSeconds)])
    case Duplicate(_) => clean
    case Conflicting => s
    case InputsFull => s
  }

  function FinishStore(s: Store, o: Owner, key: string, status: InputStatus): Store {
    if (o, key) in s.inputs then s.(inputs := s.inputs[(o, key) := s.inputs[(o, key)].(status := status)]) else s
  }

  // ---- erase ------------------------------------------------------------------------

  function EraseInputs(inputs: map<(Owner, string), InputRow>, o: Owner): map<(Owner, string), InputRow> {
    map i | i in inputs :: if i.0 == o then inputs[i].(text := None, status := Deleted) else inputs[i]
  }

  function EraseStore(s: Store, o: Owner): Store {
    s.(histories := if o in s.histories then s.histories[o := History(s.histories[o].head, s.histories[o].head, map[])]
                    else s.histories,
       inputs := EraseInputs(s.inputs, o))
  }

  // ---- runs -------------------------------------------------------------------------

  datatype Event =
    | Snapshot(c: Clock)
    | Append(owner: Owner, message: Message, key: Option<string>, roomy: bool, c: Clock)
    | Ack(owner: Owner, upTo: int)
    | Accept(owner: Owner, input: string, text: string, c: Clock)
    | Finish(owner: Owner, input: string, status: InputStatus)
    | Erase(owner: Owner)

  function Apply(s: Store, limits: Limits, e: Event): Store {
    match e
    case Snapshot(c) => Cleanup(s, c)
    case Append(o, m, key, roomy, c) => AppendStore(s, limits, o, m, key, roomy, c)
    case Ack(o, n) => AckStore(s, o, n)
    case Accept(o, key, text, c) => AcceptStore(s, limits, o, key, text, c)
    case Finish(o, key, status) => FinishStore(s, o, key, status)
    case Erase(o) => EraseStore(s, o)
  }

  function Run(s: Store, limits: Limits, es: seq<Event>): Store
    decreases |es|
  {
    if es == [] then s else Run(Apply(s, limits, es[0]), limits, es[1..])
  }

  const EMPTY := Store(map[], map[], map[])
}
