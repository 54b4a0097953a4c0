/** The message bus of `agent_bus.rs`, one function per locked method, over its state as a value. */
module BusSpec {
  import opened Wrappers

  type Id = string

  datatype Status = Queued | Delivered | Acknowledged | Completed | Failed | Rejected

  /** `problem` is what validating the envelope finds; the payload itself is opaque. */
  datatype Message = Message(id: Id, key: string, sender: string, recipient: string, status: Status,
      problem: Option<Code>)

  datatype Code = InvalidMessage(detail: string) | Duplicate | Forbidden | UnknownRecipient | QueueFull | InvalidConfig

  datatype Result<T> = Ok(value: T) | Err(code: Code)

  datatype Delivery = Delivery(message: Message, duplicate: bool)

  /** `members` are the registered agents in the order of the session's sorted map. */
  datatype Bus = Bus(
    members: seq<string>, log: seq<Message>, messages: map<Id, Message>, keys: map<string, Id>,
    inbox: map<string, seq<Id>>, queueLimit: nat, messageLimit: nat)

  function New(members: seq<string>, queueLimit: nat, messageLimit: nat): Bus {
    Bus(members, [], map[], map[], map[], queueLimit, messageLimit)
  }

  /** The order of the session's map: strings by their characters. */
  predicate Before(a: string, b: string) {
    b != "" && (a == "" || a[0] < b[0] || (a[0] == b[0] && Before(a[1..], b[1..])))
  }

  function Insert(members: seq<string>, name: string): seq<string> {
    if members == [] || Before(name, members[0]) then [name] + members
    else [members[0]] + Insert(members[1..], name)
  }

  /** `register_instance`: a known name keeps its entry. */
  function Register(b: Bus, name: string): Bus {
    if name in b.members then b else b.(members := Insert(b.members, name))
  }

  function Inbox(b: Bus, r: string): seq<Id> {
    if r in b.inbox then b.inbox[r] else []
  }

  function Full(b: Bus, r: string): bool {
    |Inbox(b, r)| >= b.queueLimit
  }

  /** Opens the inbox, and appends unless it is full. */
  function Enqueue(b: Bus, r: string, id: Id): Bus {
    b.(inbox := b.inbox[r := if Full(b, r) then Inbox(b, r) else Inbox(b, r) + [id]])
  }

  /** One recipient after the other; stops at the first full inbox and takes nothing back. */
  function EnqueueAll(b: Bus, rs: seq<string>, id: Id): (Bus, bool)
    decreases |rs|
  {
    if rs == [] then (b, true)
    else if Full(b, rs[0]) then (Enqueue(b, rs[0], id), false)
    else EnqueueAll(Enqueue(b, rs[0], id), rs[1..], id)
  }

  function Others(members: seq<string>, sender: string): seq<string> {
    if members == [] then []
    else (if members[0] != sender then [members[0]] else []) + Others(members[1..], sender)
  }

  function Recipients(b: Bus, m: Message): seq<string> {
    if m.recipient == "broadcast" then Others(b.members, m.sender)
    else if m.recipient == "user" then []
    else [m.recipient]
  }

  /** Why a message with a new key is refused before any inbox is touched. */
  function Refusal(b: Bus, m: Message): Option<Code> {
    if m.id in b.messages then Some(Duplicate)
    else if !(m.sender == "user" || m.sender == "workflow" || m.sender in b.members) then Some(Forbidden)
    else if m.recipient !in b.members && m.recipient != "broadcast" && m.recipient != "user" then Some(UnknownRecipient)
    else None
  }

  function Ids(log: seq<Message>): (ids: set<Id>)
    ensures forall id :: id in ids <==> exists k :: 0 <= k < |log| && log[k].id == id
  {
    set k | 0 <= k < |log| :: log[k].id
  }

  /** Entries beyond the limit. */
  function Excess(b: Bus): (n: nat)
    ensures n <= |b.log|
  {
    if |b.log| > b.messageLimit then |b.log| - b.messageLimit else 0
  }

  /** Drops the oldest log entries, and with them their messages. */
  function Trim(b: Bus): Bus {
    b.(log := b.log[Excess(b)..], messages := b.messages - Ids(b.log[..Excess(b)]))
  }

  function Record(b: Bus, m: Message): Bus {
    Trim(b.(keys := b.keys[m.key := m.id], messages := b.messages[m.id := m], log := b.log + [m]))
  }

  /** `send`. */
  function Send(b: Bus, m: Message): (Bus, Result<Delivery>) {
    if m.problem.Some? then (b, Err(m.problem.value))
    else if m.key in b.keys then
      (b, if b.keys[m.key] in b.messages then Ok(Delivery(b.messages[b.keys[m.key]], true)) else Err(Duplicate))
    else if Refusal(b, m).Some? then (b, Err(Refusal(b, m).value))
    else
      var (queued, fits) := EnqueueAll(b, Recipients(b, m), m.id);
      if fits then (Record(queued, m), Ok(Delivery(m, false))) else (queued, Err(QueueFull))
  }

  function WithStatus(m: Message, status: Status): Message {
    m.(status := status)
  }

  /** Position of the first entry with this id, or the length of the log. */
  function First(log: seq<Message>, id: Id): (k: nat)
    ensures k <= |log| && (k < |log| ==> log[k].id == id) && forall j :: 0 <= j < k ==> log[j].id != id
    decreases |log|
  {
    if log == [] || log[0].id == id then 0 else First(log[1..], id) + 1
  }

  function Restate(log: seq<Message>, id: Id, status: Status): (r: seq<Message>)
    ensures |r| == |log|
  {
    var k := First(log, id);
    if k < |log| then log[k := WithStatus(log[k], status)] else log
  }

  function RestateAll(log: seq<Message>, ms: seq<Message>): (r: seq<Message>)
    ensures |r| == |log|
    decreases |ms|
  {
    if ms == [] then log else RestateAll(Restate(log, ms[0].id, ms[0].status), ms[1..])
  }

  function Handed(m: Message): Message {
    if m.status == Queued then WithStatus(m, Delivered) else m
  }

  /** The messages these ids still resolve to, marked delivered. */
  function Deliver(b: Bus, ids: seq<Id>): (r: (Bus, seq<Message>))
    ensures r.0 == b.(messages := r.0.messages) && r.0.messages.Keys == b.messages.Keys
    decreases |ids|
  {
    if ids == [] then (b, [])
    else if ids[0] !in b.messages then Deliver(b, ids[1..])
    else
      var m := Handed(b.messages[ids[0]]);
      var (rest, out) := Deliver(b.(messages := b.messages[ids[0] := m]), ids[1..]);
      (rest, [m] + out)
  }

  /** `receive`. */
  function Receive(b: Bus, r: string, limit: nat): (Bus, seq<Message>) {
    if r !in b.inbox then (b, [])
    else
      var n := Min(limit, |b.inbox[r]|);
      var (b1, out) := Deliver(b.(inbox := b.inbox[r := b.inbox[r][n..]]), b.inbox[r][..n]);
      (b1.(log := RestateAll(b1.log, out)), out)
  }

  predicate Final(status: Status) {
    status == Acknowledged || status == Completed || status == Failed || status == Rejected
  }

  /** `acknowledge`. */
  function Acknowledge(b: Bus, id: Id, status: Status): (Bus, Result<()>) {
    if !Final(status) then (b, Err(InvalidMessage("status")))
    else if id !in b.messages then (b, Err(UnknownRecipient))
    else (b.(messages := b.messages[id := WithStatus(b.messages[id], status)], log := Restate(b.log, id, status)),
      Ok(()))
  }

  /** The message part of `finish_activation`: the status changes in the map only. */
  function FinishMessage(b: Bus, id: Option<Id>): Bus {
    if id.Some? && id.value in b.messages
    then b.(messages := b.messages[id.value := WithStatus(b.messages[id.value], Completed)])
    else b
  }
}
