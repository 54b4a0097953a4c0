/** What the bus guarantees over whole histories of calls. */
module BusDelivery {
  import opened Wrappers
  import opened BusSpec

  /** One call; calls of different threads interleave in any order, since each holds the lock. */
  datatype Call =
    | CallRegister(name: string)
    | CallSend(m: Message)
    | CallReceive(r: string, limit: nat)
    | CallAcknowledge(id: Id, status: Status)
    | CallFinish(message: Option<Id>)

  function After(b: Bus, c: Call): Bus {
    match c
    case CallRegister(name) => Register(b, name)
    case CallSend(m) => Send(b, m).0
    case CallReceive(r, limit) => Receive(b, r, limit).0
    case CallAcknowledge(id, status) => Acknowledge(b, id, status).0
    case CallFinish(message) => FinishMessage(b, message)
  }

  function Run(b: Bus, calls: seq<Call>): Bus {
    if calls == [] then b else After(Run(b, calls[..|calls| - 1]), calls[|calls| - 1])
  }

  /** The call is a send that was accepted as new. */
  ghost predicate Accepts(b: Bus, c: Call) {
    c.CallSend? && Send(b, c.m).1.Ok? && !Send(b, c.m).1.value.duplicate
  }

  // ---------------------------------------------------------------- the log and the map

  ghost predicate DistinctIds(log: seq<Message>) {
    forall i, j :: 0 <= i < j < |log| ==> log[i].id != log[j].id
  }

  ghost predicate Logged(log: seq<Message>, id: Id) {
    exists k :: 0 <= k < |log| && log[k].id == id
  }

  /** The log and the map hold the same messages. */
  ghost predicate Matched(b: Bus) {
    && DistinctIds(b.log)
    && (forall k :: 0 <= k < |b.log| ==> b.log[k].id in b.messages)
    && (forall k :: 0 <= k < |b.log| ==> WithStatus(b.messages[b.log[k].id], b.log[k].status) == b.log[k])
    && (forall id :: id in b.messages ==> Logged(b.log, id))
  }

  ghost predicate Roomy(b: Bus) {
    forall r :: |Inbox(b, r)| <= b.queueLimit
  }

  /** Log and map agree, and the log and every inbox are within their limits. */
  ghost predicate Consistent(b: Bus) {
    Matched(b) && |b.log| <= b.messageLimit && Roomy(b)
  }

  lemma EnqueueOne(b: Bus, r: string, id: Id)
    ensures forall o :: Inbox(Enqueue(b, r, id), o) == Inbox(b, o) + if o == r && !Full(b, r) then [id] else []
  {
  }

  lemma {:induction false} EnqueueAllLeaves(b: Bus, rs: seq<string>, id: Id)
    ensures var q := EnqueueAll(b, rs, id).0; q == b.(inbox := q.inbox) && (Roomy(b) ==> Roomy(q))
    decreases |rs|
  {
    if rs != [] {
      EnqueueOne(b, rs[0], id);
      if !Full(b, rs[0]) { EnqueueAllLeaves(Enqueue(b, rs[0], id), rs[1..], id); }
    }
  }

  lemma Pushed(b: Bus, m: Message)
    requires Matched(b) && m.id !in b.messages
    ensures Matched(b.(keys := b.keys[m.key := m.id], messages := b.messages[m.id := m], log := b.log + [m]))
  {
    var log := b.log + [m];
    forall id | id in b.messages || id == m.id ensures Logged(log, id) {
      if id in b.messages {
        var k :| 0 <= k < |b.log| && b.log[k].id == id;
        assert log[k].id == id;
      } else {
        assert log[|b.log|].id == id;
      }
    }
  }

  lemma TrimMatched(b: Bus)
    requires Matched(b)
    ensures Matched(Trim(b)) && |Trim(b).log| <= b.messageLimit
  {
    hide Ids, Logged;
    var n, t := Excess(b), Trim(b);
    var gone := Ids(b.log[..n]);
    forall k | 0 <= k < |t.log| ensures t.log[k].id !in gone {
      assert t.log[k] == b.log[n + k];
      assert forall j :: 0 <= j < n ==> b.log[..n][j] == b.log[j];
    }
    forall id | id in t.messages ensures Logged(t.log, id) {
      TrimLogged(b, n, id);
    }
  }

  lemma TrimLogged(b: Bus, n: nat, id: Id)
    requires n <= |b.log| && Logged(b.log, id) && id !in Ids(b.log[..n])
    ensures Logged(b.log[n..], id)
  {
  }

  lemma SendConsistent(b: Bus, m: Message)
    requires Consistent(b)
    ensures Consistent(Send(b, m).0)
  {
    hide Matched, Refusal, Recipients, EnqueueAll, Trim;
    var q := EnqueueAll(b, Recipients(b, m), m.id).0;
    EnqueueAllLeaves(b, Recipients(b, m), m.id);
    assert Matched(q) by { SameMatch(b, q); }
    if Accepts(b, CallSend(m)) {
      assert m.id !in b.messages by { NotRefused(b, m); }
      Pushed(q, m);
      var b1 := q.(keys := q.keys[m.key := m.id], messages := q.messages[m.id := m], log := q.log + [m]);
      TrimMatched(b1);
      TrimQueues(b1);
      assert Roomy(b1) by { assert forall r :: Inbox(b1, r) == Inbox(q, r); }
    }
  }

  lemma SameMatch(b: Bus, q: Bus)
    requires Matched(b) && q == b.(inbox := q.inbox)
    ensures Matched(q)
  {
  }

  lemma NotRefused(b: Bus, m: Message)
    requires Refusal(b, m).None?
    ensures m.id !in b.messages
  {
  }

  lemma TrimQueues(b: Bus)
    ensures Trim(b) == b.(log := Trim(b).log, messages := Trim(b).messages) && (Roomy(b) ==> Roomy(Trim(b)))
    ensures forall r :: Inbox(Trim(b), r) == Inbox(b, r)
  {
    assert forall r :: Inbox(Trim(b), r) == Inbox(b, r);
  }

  lemma LoggedStays(a: seq<Message>, b: seq<Message>, id: Id)
    requires |a| == |b| && Logged(a, id) && forall k :: 0 <= k < |a| ==> b[k].id == a[k].id
    ensures Logged(b, id)
  {
  }

  /** Changing statuses, on either side, keeps log and map together. */
  lemma StatusConsistent(b: Bus, c: Bus)
    requires Consistent(b) && |c.log| == |b.log| && c.messages.Keys == b.messages.Keys
    requires c == b.(members := c.members, log := c.log, messages := c.messages, inbox := c.inbox)
    requires forall r :: |Inbox(c, r)| <= |Inbox(b, r)|
    requires forall k :: 0 <= k < |b.log| ==> WithStatus(c.log[k], b.log[k].status) == b.log[k]
    requires forall id :: id in b.messages ==> WithStatus(c.messages[id], b.messages[id].status) == b.messages[id]
    ensures Consistent(c)
  {
    hide Logged;
    forall k | 0 <= k < |b.log| ensures c.log[k].id == b.log[k].id && b.log[k].id in b.messages {}
    forall id | id in c.messages ensures Logged(c.log, id) {
      assert id in b.messages.Keys;
      LoggedStays(b.log, c.log, id);
    }
    assert Matched(c);
  }

  lemma {:induction false} RestateAllLeaves(log: seq<Message>, ms: seq<Message>)
    ensures forall k :: 0 <= k < |log| ==> WithStatus(RestateAll(log, ms)[k], log[k].status) == log[k]
    decreases |ms|
  {
    if ms != [] { RestateAllLeaves(Restate(log, ms[0].id, ms[0].status), ms[1..]); }
  }

  lemma {:induction false} DeliverLeaves(b: Bus, ids: seq<Id>)
    ensures forall id :: id in b.messages ==>
      WithStatus(Deliver(b, ids).0.messages[id], b.messages[id].status) == b.messages[id]
    decreases |ids|
  {
    if ids != [] {
      if ids[0] in b.messages {
        DeliverLeaves(b.(messages := b.messages[ids[0] := Handed(b.messages[ids[0]])]), ids[1..]);
      } else {
        DeliverLeaves(b, ids[1..]);
      }
    }
  }

  lemma AfterConsistent(b: Bus, c: Call)
    requires Consistent(b)
    ensures Consistent(After(b, c))
  {
    hide Consistent, Restate;
    match c
    case CallRegister(name) => StatusConsistent(b, After(b, c));
    case CallSend(m) => SendConsistent(b, m);
    case CallReceive(r, limit) =>
      if r in b.inbox {
        var n := Min(limit, |b.inbox[r]|);
        var popped := b.(inbox := b.inbox[r := b.inbox[r][n..]]);
        DeliverLeaves(popped, b.inbox[r][..n]);
        RestateAllLeaves(b.log, Deliver(popped, b.inbox[r][..n]).1);
        StatusConsistent(b, After(b, c));
      }
    case CallAcknowledge(id, status) => RestateLeaves(b.log, id, status); StatusConsistent(b, After(b, c));
    case CallFinish(message) => StatusConsistent(b, After(b, c));
  }

  lemma RestateLeaves(log: seq<Message>, id: Id, status: Status)
    ensures forall k :: 0 <= k < |log| ==> WithStatus(Restate(log, id, status)[k], log[k].status) == log[k]
  {
  }

  /** In every reachable state the log's ids are distinct and are the map's keys, entry and map
      differ at most in status, and log and inboxes are within their limits. */
  lemma {:induction false} EveryStateIsConsistent(members: seq<string>, queueLimit: nat, messageLimit: nat,
      calls: seq<Call>)
    ensures Consistent(Run(New(members, queueLimit, messageLimit), calls))
  {
    if calls != [] {
      EveryStateIsConsistent(members, queueLimit, messageLimit, calls[..|calls| - 1]);
      AfterConsistent(Run(New(members, queueLimit, messageLimit), calls[..|calls| - 1]), calls[|calls| - 1]);
    }
  }

  // ---------------------------------------------------------------- keys and statuses

  /** The messages accepted so far. */
  ghost function Accepted(b: Bus, calls: seq<Call>): seq<Message> {
    if calls == [] then []
    else
      var front, c := calls[..|calls| - 1], calls[|calls| - 1];
      Accepted(b, front) + if Accepts(Run(b, front), c) then [c.m] else []
  }

  lemma {:induction false} KeysStay(b: Bus, calls: seq<Call>)
    requires b.keys == map[]
    ensures forall k :: 0 <= k < |Accepted(b, calls)| ==> Accepted(b, calls)[k].key in Run(b, calls).keys
  {
    hide Receive, Acknowledge, FinishMessage;
    if calls != [] {
      var front, c := calls[..|calls| - 1], calls[|calls| - 1];
      KeysStay(b, front);
      SameKeys(Run(b, front), c);
    }
  }

  lemma SameKeys(b: Bus, c: Call)
    ensures After(b, c).keys == if Accepts(b, c) then b.keys[c.m.key := c.m.id] else b.keys
    ensures Accepts(b, c) ==> c.m.key !in b.keys
  {
    if c.CallSend? { EnqueueAllLeaves(b, Recipients(b, c.m), c.m.id); }
  }

  ghost predicate DistinctKeys(ms: seq<Message>) {
    forall i, j :: 0 <= i < j < |ms| ==> ms[i].key != ms[j].key
  }

  /** From a bus without keys, a key is accepted at most once ever, even after its message left
      the log. */
  lemma {:induction false} EachKeyOnce(b: Bus, calls: seq<Call>)
    requires b.keys == map[]
    ensures DistinctKeys(Accepted(b, calls))
  {
    hide Send, After;
    if calls != [] {
      var front := calls[..|calls| - 1];
      EachKeyOnce(b, front);
      KeysStay(b, front);
      SameKeys(Run(b, front), calls[|calls| - 1]);
    }
  }

  /** Log entry and map entry agree in status as well. */
  ghost predicate InStep(b: Bus) {
    forall k :: 0 <= k < |b.log| ==> b.log[k].id in b.messages && b.messages[b.log[k].id] == b.log[k]
  }

  /** Finishing an activation changes the map only: log and map stay in step exactly when it
      names no message, an unknown one, or one already completed. */
  lemma FinishKeepsStepIff(b: Bus, id: Option<Id>)
    requires Consistent(b) && InStep(b)
    ensures InStep(FinishMessage(b, id)) <==>
      id.None? || id.value !in b.messages || b.messages[id.value].status == Completed
  {
  }

  // ---------------------------------------------------------------- refused sends

  /** The send reaches an inbox with room before it meets a full one. */
  predicate Spills(b: Bus, m: Message) {
    && m.problem.None? && m.key !in b.keys && Refusal(b, m).None?
    && Recipients(b, m) != [] && !Full(b, Recipients(b, m)[0])
  }

  lemma {:induction false} QueuesGrow(b: Bus, rs: seq<string>, id: Id, r: string)
    ensures Inbox(b, r) <= Inbox(EnqueueAll(b, rs, id).0, r)
    decreases |rs|
  {
    if rs != [] {
      EnqueueOne(b, rs[0], id);
      if !Full(b, rs[0]) { QueuesGrow(Enqueue(b, rs[0], id), rs[1..], id, r); }
    }
  }

  /** A refused send changes no message, key or log entry.  It leaves every queue alone exactly
      when it fails a check or the first recipient's inbox is full; a broadcast that fails at a
      later recipient stays in the queues before it. */
  lemma RefusedSend(b: Bus, m: Message)
    requires Send(b, m).1.Err?
    ensures var t := Send(b, m).0;
      && t == b.(inbox := t.inbox)
      && ((forall r :: Inbox(t, r) == Inbox(b, r)) <==> !Spills(b, m))
      && (m.recipient != "broadcast" ==> !Spills(b, m))
  {
    var rs := Recipients(b, m);
    EnqueueAllLeaves(b, rs, m.id);
    if Spills(b, m) {
      EnqueueOne(b, rs[0], m.id);
      QueuesGrow(Enqueue(b, rs[0], m.id), rs[1..], m.id, rs[0]);
      assert |Inbox(Send(b, m).0, rs[0])| > |Inbox(b, rs[0])|;
    } else if rs != [] {
      EnqueueOne(b, rs[0], m.id);
    }
  }

  // ---------------------------------------------------------------- what arrives

  /** `a` is what is left of `s` after striking out some elements. */
  ghost predicate Subsequence(a: seq<Id>, s: seq<Id>) {
    if a == [] then true
    else if s == [] then false
    else (a[|a| - 1] == s[|s| - 1] && Subsequence(a[..|a| - 1], s[..|s| - 1])) || Subsequence(a, s[..|s| - 1])
  }

  lemma {:induction false} SubsequenceTransitive(a: seq<Id>, s: seq<Id>, t: seq<Id>)
    requires Subsequence(a, s) && Subsequence(s, t)
    ensures Subsequence(a, t)
    decreases |t|
  {
    if a != [] && s != [] {
      var s', t' := s[..|s| - 1], t[..|t| - 1];
      if Subsequence(s, t') {
        SubsequenceTransitive(a, s, t');
      } else if a[|a| - 1] == s[|s| - 1] && Subsequence(a[..|a| - 1], s') {
        SubsequenceTransitive(a[..|a| - 1], s', t');
      } else {
        SubsequenceTransitive(a, s', t');
      }
    }
  }

  lemma {:induction false} SubsequenceOfItself(a: seq<Id>)
    ensures Subsequence(a, a)
  {
    if a != [] { SubsequenceOfItself(a[..|a| - 1]); }
  }

  lemma SubsequenceSnoc(a: seq<Id>, s: seq<Id>, x: Id)
    requires Subsequence(a, s)
    ensures Subsequence(a, s + [x]) && Subsequence(a + [x], s + [x])
  {
    assert (s + [x])[..|s|] == s && (a + [x])[..|a|] == a;
  }

  /** The ids that still resolve to a message. */
  ghost function Live(ids: seq<Id>, known: set<Id>): seq<Id> {
    if ids == [] then []
    else Live(ids[..|ids| - 1], known) + if ids[|ids| - 1] in known then [ids[|ids| - 1]] else []
  }

  lemma {:induction false} LiveAppend(a: seq<Id>, c: seq<Id>, known: set<Id>)
    ensures Live(a + c, known) == Live(a, known) + Live(c, known)
  {
    if c == [] {
      assert a + c == a;
    } else {
      assert (a + c)[..|a + c| - 1] == a + c[..|c| - 1];
      LiveAppend(a, c[..|c| - 1], known);
    }
  }

  lemma {:induction false} LiveMembers(a: seq<Id>, known: set<Id>)
    ensures forall id :: id in Live(a, known) <==> id in a && id in known
  {
    if a != [] { LiveMembers(a[..|a| - 1], known); }
  }

  lemma {:induction false} LiveShrinks(got: seq<Id>, a: seq<Id>, more: set<Id>, less: set<Id>)
    requires forall id :: id in a && id in less ==> id in more
    ensures Subsequence(got + Live(a, less), got + Live(a, more))
  {
    hide Subsequence;
    if a == [] {
      SubsequenceOfItself(got);
      assert got + [] == got;
    } else {
      var front, x := a[..|a| - 1], a[|a| - 1];
      var l, m := Live(front, less), Live(front, more);
      LiveShrinks(got, front, more, less);
      SubsequenceSnoc(got + l, got + m, x);
      assert got + (l + [x]) == got + l + [x] && got + (m + [x]) == got + m + [x] && l + [] == l && m + [] == m;
    }
  }

  /** A broadcast is for every registered agent but its sender, in the session's order; another message
      for the agent it names, and one to the user for none. */
  ghost predicate Addressed(b: Bus, m: Message, r: string) {
    if m.recipient == "broadcast" then r in b.members && r != m.sender
    else r == m.recipient && m.recipient != "user"
  }

  lemma {:induction false} OthersAreTheRest(members: seq<string>, sender: string)
    ensures forall r :: r in Others(members, sender) <==> r in members && r != sender
    ensures Subsequence(Others(members, sender), members)
  {
    if members != [] {
      var front, x := members[..|members| - 1], members[|members| - 1];
      OthersAreTheRest(front, sender);
      OthersSnoc(front, x, sender);
      hide Others, Subsequence;
      assert members == front + [x];
      SubsequenceSnoc(Others(front, sender), front, x);
      assert Others(front, sender) + [] == Others(front, sender);
    }
  }

  lemma {:induction false} OthersSnoc(front: seq<string>, x: string, sender: string)
    ensures Others(front + [x], sender) == Others(front, sender) + if x != sender then [x] else []
  {
    if front != [] {
      OthersSnoc(front[1..], x, sender);
      assert (front + [x])[1..] == front[1..] + [x];
    }
  }

  lemma RecipientsAreAddressed(b: Bus, m: Message)
    ensures forall r :: r in Recipients(b, m) <==> Addressed(b, m, r)
  {
    OthersAreTheRest(b.members, m.sender);
  }

  /** Ids accepted for `r`, in order. */
  ghost function Sent(b: Bus, calls: seq<Call>, r: string): seq<Id> {
    if calls == [] then []
    else
      var front, c := calls[..|calls| - 1], calls[|calls| - 1];
      Sent(b, front, r) + if Accepts(Run(b, front), c) && Addressed(Run(b, front), c.m, r) then [c.m.id] else []
  }

  ghost function IdsOf(ms: seq<Message>): seq<Id> {
    seq(|ms|, k requires 0 <= k < |ms| => ms[k].id)
  }

  /** Ids `r` has received, in order. */
  ghost function Got(b: Bus, calls: seq<Call>, r: string): seq<Id> {
    if calls == [] then []
    else
      var front, c := calls[..|calls| - 1], calls[|calls| - 1];
      Got(b, front, r) + if c.CallReceive? && c.r == r then IdsOf(Receive(Run(b, front), r, c.limit).1) else []
  }

  /** No message id is sent twice. */
  ghost predicate FreshIds(calls: seq<Call>) {
    forall i, j :: 0 <= i < j < |calls| && calls[i].CallSend? && calls[j].CallSend? ==> calls[i].m.id != calls[j].m.id
  }

  ghost predicate SentId(calls: seq<Call>, id: Id) {
    exists k :: 0 <= k < |calls| && calls[k].CallSend? && calls[k].m.id == id
  }

  /** What `r` got and what its inbox still resolves to, against what was accepted for it. */
  ghost predicate Accounted(b: Bus, r: string, sent: seq<Id>, got: seq<Id>) {
    && Subsequence(got + Live(Inbox(b, r), b.messages.Keys), sent)
    && (forall id :: id in sent ==> id in got || id in Inbox(b, r) || id !in b.messages)
  }

  /** Every id anywhere was sent. */
  ghost predicate Known(b: Bus, r: string, sent: seq<Id>, calls: seq<Call>) {
    && (forall id :: id in b.messages ==> SentId(calls, id) && b.messages[id].id == id)
    && (forall id :: id in Inbox(b, r) ==> SentId(calls, id))
    && (forall id :: id in sent ==> SentId(calls, id))
  }

  lemma {:induction false} EnqueueAllAdds(b: Bus, rs: seq<string>, id: Id, r: string)
    requires Distinct(rs)
    ensures var (q, fits) := EnqueueAll(b, rs, id);
      && (fits && r in rs ==> Inbox(q, r) == Inbox(b, r) + [id])
      && (r !in rs ==> Inbox(q, r) == Inbox(b, r))
      && (Inbox(q, r) == Inbox(b, r) || Inbox(q, r) == Inbox(b, r) + [id])
    decreases |rs|
  {
    if rs != [] {
      EnqueueOne(b, rs[0], id);
      if !Full(b, rs[0]) { EnqueueAllAdds(Enqueue(b, rs[0], id), rs[1..], id, r); }
    }
  }

  lemma {:induction false} OthersDistinct(members: seq<string>, sender: string)
    requires Distinct(members)
    ensures Distinct(Others(members, sender)) && forall r :: r in Others(members, sender) ==> r in members
  {
    if members != [] {
      OthersDistinct(members[1..], sender);
      assert members[0] !in Others(members[1..], sender);
    }
  }

  lemma {:induction false} DeliverIsLive(b: Bus, ids: seq<Id>)
    requires forall id :: id in b.messages ==> b.messages[id].id == id
    ensures IdsOf(Deliver(b, ids).1) == Live(ids, b.messages.Keys)
    ensures forall id :: id in Deliver(b, ids).0.messages ==> Deliver(b, ids).0.messages[id].id == id
    decreases |ids|
  {
    if ids != [] {
      var rest := ids[1..];
      assert ids == [ids[0]] + rest;
      LiveAppend([ids[0]], rest, b.messages.Keys);
      if ids[0] in b.messages {
        var m := Handed(b.messages[ids[0]]);
        var b1 := b.(messages := b.messages[ids[0] := m]);
        DeliverIsLive(b1, rest);
        assert b1.messages.Keys == b.messages.Keys;
        assert IdsOf([m] + Deliver(b1, rest).1) == [m.id] + IdsOf(Deliver(b1, rest).1);
      } else {
        DeliverIsLive(b, rest);
      }
    }
  }

  /** Dropping messages and queueing one more id keeps the account. */
  lemma AccountedDrop(b: Bus, t: Bus, r: string, sent: seq<Id>, got: seq<Id>)
    requires Accounted(b, r, sent, got) && Inbox(b, r) <= Inbox(t, r)
    requires forall id :: id in Inbox(b, r) && id in t.messages ==> id in b.messages
    requires forall id :: id in sent && id in t.messages ==> id in b.messages
    requires Live(Inbox(t, r)[|Inbox(b, r)|..], t.messages.Keys) == []
    ensures Accounted(t, r, sent, got)
  {
    var q, u := Inbox(b, r), Inbox(t, r);
    assert u == q + u[|q|..];
    LiveAppend(q, u[|q|..], t.messages.Keys);
    assert Live(u, t.messages.Keys) == Live(q, t.messages.Keys);
    LiveShrinks(got, q, b.messages.Keys, t.messages.Keys);
    SubsequenceTransitive(got + Live(u, t.messages.Keys), got + Live(q, b.messages.Keys), sent);
  }

  lemma AccountedSend(b: Bus, r: string, m: Message, sent: seq<Id>, got: seq<Id>)
    requires Accounted(b, r, sent, got) && Distinct(Recipients(b, m))
    requires m.id !in b.messages && m.id !in Inbox(b, r) && m.id !in sent
    ensures var t := Send(b, m).0;
      Accounted(t, r, sent + (if Accepts(b, CallSend(m)) && r in Recipients(b, m) then [m.id] else []), got)
  {
    hide Refusal, Recipients, Subsequence;
    var t, q := Send(b, m).0, EnqueueAll(b, Recipients(b, m), m.id).0;
    EnqueueAllLeaves(b, Recipients(b, m), m.id);
    EnqueueAllAdds(b, Recipients(b, m), m.id, r);
    if Accepts(b, CallSend(m)) {
      var b1 := q.(keys := q.keys[m.key := m.id], messages := q.messages[m.id := m], log := q.log + [m]);
      TrimQueues(b1);
      assert Inbox(t, r) == Inbox(q, r);
      if r in Recipients(b, m) {
        AccountedArrival(b, t, r, m.id, sent, got);
      } else {
        assert Inbox(t, r)[|Inbox(b, r)|..] == [];
        AccountedDrop(b, t, r, sent, got);
        assert sent + [] == sent;
      }
    } else {
      assert sent + [] == sent;
      if t == q {
        var extra := Inbox(t, r)[|Inbox(b, r)|..];
        assert extra == [] || extra == [m.id];
        LiveMembers(extra, t.messages.Keys);
        assert Live(extra, t.messages.Keys) == [];
        AccountedDrop(b, t, r, sent, got);
      }
    }
  }

  lemma AccountedArrival(b: Bus, t: Bus, r: string, id: Id, sent: seq<Id>, got: seq<Id>)
    requires Accounted(b, r, sent, got) && Inbox(t, r) == Inbox(b, r) + [id]
    requires forall o :: o in t.messages ==> o in b.messages || o == id
    requires id !in sent && id !in Inbox(b, r)
    ensures Accounted(t, r, sent + [id], got)
  {
    var q, known := Inbox(b, r), t.messages.Keys;
    LiveAppend(q, [id], known);
    LiveShrinks(got, q, b.messages.Keys, known);
    SubsequenceTransitive(got + Live(q, known), got + Live(q, b.messages.Keys), sent);
    SubsequenceSnoc(got + Live(q, known), sent, id);
    assert got + (Live(q, known) + [id]) == got + Live(q, known) + [id];
    assert Live([id], known) == if id in known then [id] else [];
    assert Live(q, known) + [] == Live(q, known);
  }

  lemma AccountedReceive(b: Bus, r: string, o: string, limit: nat, sent: seq<Id>, got: seq<Id>)
    requires Accounted(b, r, sent, got) && forall id :: id in b.messages ==> b.messages[id].id == id
    ensures var (t, out) := Receive(b, o, limit);
      Accounted(t, r, sent, got + if o == r then IdsOf(out) else [])
  {
    hide Subsequence, Deliver;
    var (t, out) := Receive(b, o, limit);
    assert got + [] == got;
    if o in b.inbox {
      var n := Min(limit, |b.inbox[o]|);
      DeliverIsLive(b.(inbox := b.inbox[o := b.inbox[o][n..]]), b.inbox[o][..n]);
      if o == r { SplitLive(got, b.inbox[o], n, b.messages.Keys); }
    } else {
      assert IdsOf(out) == [];
    }
  }

  lemma SplitLive(got: seq<Id>, q: seq<Id>, n: nat, known: set<Id>)
    requires n <= |q|
    ensures got + Live(q, known) == got + Live(q[..n], known) + Live(q[n..], known)
    ensures forall id :: id in q && id in known ==> id in Live(q[..n], known) || id in q[n..]
  {
    assert q == q[..n] + q[n..];
    LiveAppend(q[..n], q[n..], known);
    LiveMembers(q[..n], known);
  }

  lemma SentIdGrows(front: seq<Call>, c: Call, id: Id)
    ensures SentId(front, id) ==> SentId(front + [c], id)
    ensures c.CallSend? ==> SentId(front + [c], c.m.id)
  {
    if SentId(front, id) {
      var k :| 0 <= k < |front| && front[k].CallSend? && front[k].m.id == id;
      assert (front + [c])[k].m.id == id;
    }
    assert (front + [c])[|front|] == c;
  }

  /** Only a send brings in an id, and only its own. */
  lemma NewIds(b: Bus, c: Call, r: string)
    requires forall id :: id in b.messages ==> b.messages[id].id == id
    requires c.CallSend? ==> Distinct(Recipients(b, c.m))
    ensures var t := After(b, c);
      && (forall id :: id in t.messages ==>
        t.messages[id].id == id && (id in b.messages || (c.CallSend? && id == c.m.id)))
      && (forall id :: id in Inbox(t, r) ==> id in Inbox(b, r) || (c.CallSend? && id == c.m.id))
  {
    hide EnqueueAll, Recipients, Refusal, Deliver, RestateAll, Restate;
    match c
    case CallSend(m) =>
      EnqueueAllLeaves(b, Recipients(b, m), m.id);
      EnqueueAllAdds(b, Recipients(b, m), m.id, r);
      var q := EnqueueAll(b, Recipients(b, m), m.id).0;
      TrimQueues(q.(keys := q.keys[m.key := m.id], messages := q.messages[m.id := m], log := q.log + [m]));
    case CallReceive(o, limit) =>
      if o in b.inbox {
        var n := Min(limit, |b.inbox[o]|);
        DeliverIsLive(b.(inbox := b.inbox[o := b.inbox[o][n..]]), b.inbox[o][..n]);
      }
    case _ =>
  }

  ghost predicate Delivering(b: Bus, r: string, sent: seq<Id>, got: seq<Id>, calls: seq<Call>) {
    Known(b, r, sent, calls) && Accounted(b, r, sent, got) && Distinct(sent) && Distinct(b.members)
  }

  lemma MembersStayDistinct(b: Bus, c: Call)
    requires Distinct(b.members)
    ensures Distinct(After(b, c).members)
  {
    match c
    case CallRegister(name) => if name !in b.members { InsertDistinct(b.members, name); }
    case CallSend(m) => EnqueueAllLeaves(b, Recipients(b, m), m.id);
    case _ =>
  }

  lemma {:induction false} InsertDistinct(members: seq<string>, name: string)
    requires Distinct(members) && name !in members
    ensures Distinct(Insert(members, name))
    ensures forall r :: r in Insert(members, name) <==> r in members || r == name
  {
    if members != [] && !Before(name, members[0]) {
      InsertDistinct(members[1..], name);
      assert members[0] !in members[1..];
    }
  }

  lemma DeliveringStep(b: Bus, r: string, sent: seq<Id>, got: seq<Id>, front: seq<Call>, c: Call)
    requires Delivering(b, r, sent, got, front) && (c.CallSend? ==> !SentId(front, c.m.id))
    ensures Delivering(After(b, c), r,
      sent + (if Accepts(b, c) && Addressed(b, c.m, r) then [c.m.id] else []),
      got + (if c.CallReceive? && c.r == r then IdsOf(Receive(b, r, c.limit).1) else []), front + [c])
  {
    hide Accounted, Send, Receive, Acknowledge, FinishMessage, SentId, Recipients, Addressed;
    if c.CallSend? {
      RecipientsDistinct(b, c.m);
      RecipientsAreAddressed(b, c.m);
    }
    NewIds(b, c, r);
    MembersStayDistinct(b, c);
    forall id ensures SentId(front, id) ==> SentId(front + [c], id)
      ensures c.CallSend? ==> SentId(front + [c], c.m.id)
    {
      SentIdGrows(front, c, id);
    }
    assert sent + [] == sent && got + [] == got;
    match c
    case CallSend(m) =>
      if Refusal(b, m).Some? {
        AccountedStatus(b, After(b, c), r, sent, got, c);
      } else {
        NotRefused(b, m);
        AccountedSend(b, r, m, sent, got);
      }
    case CallReceive(o, limit) => AccountedReceive(b, r, o, limit, sent, got);
    case _ => AccountedStatus(b, After(b, c), r, sent, got, c);
  }

  lemma RecipientsDistinct(b: Bus, m: Message)
    requires Distinct(b.members)
    ensures Distinct(Recipients(b, m))
  {
    OthersDistinct(b.members, m.sender);
  }

  lemma AccountedStatus(b: Bus, t: Bus, r: string, sent: seq<Id>, got: seq<Id>, c: Call)
    requires Accounted(b, r, sent, got) && t == After(b, c) && !c.CallReceive? &&
      (c.CallSend? ==> Refusal(b, c.m).Some?)
    ensures Accounted(t, r, sent, got) && !Accepts(b, c)
  {
    hide Subsequence;
    assert t.messages.Keys == b.messages.Keys;
  }

  lemma {:induction false} EveryHistoryDelivers(members: seq<string>, queueLimit: nat, messageLimit: nat,
      calls: seq<Call>, r: string)
    requires Distinct(members) && FreshIds(calls)
    ensures var b := New(members, queueLimit, messageLimit);
      Delivering(Run(b, calls), r, Sent(b, calls, r), Got(b, calls, r), calls)
  {
    hide Delivering, After, Accepts, Addressed;
    var b := New(members, queueLimit, messageLimit);
    if calls != [] {
      var front, c := calls[..|calls| - 1], calls[|calls| - 1];
      assert front + [c] == calls;
      EveryHistoryDelivers(members, queueLimit, messageLimit, front, r);
      if c.CallSend? {
        assert !SentId(front, c.m.id) by { assert forall k :: 0 <= k < |front| ==> front[k] == calls[k]; }
      }
      DeliveringStep(Run(b, front), r, Sent(b, front, r), Got(b, front, r), front, c);
    } else {
      NothingYet(b, r, calls);
    }
  }

  lemma NothingYet(b: Bus, r: string, calls: seq<Call>)
    requires b.messages == map[] && b.inbox == map[] && Distinct(b.members) && calls == []
    ensures Delivering(b, r, [], [], calls)
  {
    assert [] + Live(Inbox(b, r), b.messages.Keys) == [];
  }

  /** However sends, receives and acknowledgements interleave, if message ids are never reused:
      what `r` has received, followed by what its inbox still resolves to, is an order-preserving,
      duplicate-free subsequence of what was accepted for it, and what is missing from it has
      left the log. */
  lemma DeliveryIsFaithful(members: seq<string>, queueLimit: nat, messageLimit: nat, calls: seq<Call>, r: string)
    requires Distinct(members) && FreshIds(calls)
    ensures var b := New(members, queueLimit, messageLimit);
      var t, sent := Run(b, calls), Sent(b, calls, r);
      var arrives := Got(b, calls, r) + Live(Inbox(t, r), t.messages.Keys);
      && Subsequence(arrives, sent) && Distinct(sent)
      && forall id :: id in sent && id !in arrives ==> !Logged(t.log, id)
  {
    var b := New(members, queueLimit, messageLimit);
    var t, sent := Run(b, calls), Sent(b, calls, r);
    EveryHistoryDelivers(members, queueLimit, messageLimit, calls, r);
    EveryStateIsConsistent(members, queueLimit, messageLimit, calls);
    LiveMembers(Inbox(t, r), t.messages.Keys);
  }

  // ---------------------------------------------------------------- a broadcast sent again

  /** A broadcast refused after it spilled, sent again while its first recipient has not received
      yet, is queued there twice, since nothing was taken back and its key was never recorded. */
  lemma RetryQueuesTwice(b: Bus, t: Bus, m: Message)
    requires Distinct(b.members) && Spills(b, m) && Send(b, m).1.Err?
    requires t.members == b.members && Send(t, m).1.Ok? && Accepts(t, CallSend(m))
    requires var r := Recipients(b, m)[0]; Inbox(t, r) == Inbox(Send(b, m).0, r)
    ensures var r := Recipients(b, m)[0]; Inbox(Send(t, m).0, r) == Inbox(b, r) + [m.id, m.id]
  {
    hide Refusal;
    var rs := Recipients(b, m);
    RecipientsDistinct(b, m);
    EnqueueOne(b, rs[0], m.id);
    EnqueueAllAdds(b, rs, m.id, rs[0]);
    QueuesGrow(Enqueue(b, rs[0], m.id), rs[1..], m.id, rs[0]);
    EnqueueAllAdds(t, rs, m.id, rs[0]);
    var q := EnqueueAll(t, rs, m.id).0;
    EnqueueAllLeaves(t, rs, m.id);
    TrimQueues(q.(keys := q.keys[m.key := m.id], messages := q.messages[m.id := m], log := q.log + [m]));
  }

  const HELLO := Message("m1", "k1", "user", "broadcast", Queued, None)
  const FIRST := Message("m2", "k2", "user", "b", Queued, None)
  const SECOND := Message("m3", "k3", "user", "b", Queued, None)

  /** Agents "a" and "b" with inboxes of two: two messages fill the inbox of "b", the broadcast is
      refused, "b" receives, the user sends the broadcast again, and "a" receives. */
  const RETRY := [CallSend(FIRST), CallSend(SECOND), CallSend(HELLO), CallReceive("b", 2), CallSend(HELLO),
    CallReceive("a", 2)]

  const B0 := New(["a", "b"], 2, 10)
  const B1 := B0.(log := [FIRST], messages := map["m2" := FIRST], keys := map["k2" := "m2"],
    inbox := map["b" := ["m2"]])
  const B2 := B0.(log := [FIRST, SECOND], messages := map["m2" := FIRST, "m3" := SECOND],
                  keys := map["k2" := "m2", "k3" := "m3"], inbox := map["b" := ["m2", "m3"]])
  const B3 := B2.(inbox := map["a" := ["m1"], "b" := ["m2", "m3"]])
  const B4 := B3.(log := [WithStatus(FIRST, Delivered), WithStatus(SECOND, Delivered)],
                  messages := map["m2" := WithStatus(FIRST, Delivered), "m3" := WithStatus(SECOND, Delivered)],
                  inbox := map["a" := ["m1"], "b" := []])
  const B5 := B4.(log := B4.log + [HELLO], messages := B4.messages["m1" := HELLO], keys := B4.keys["k1" := "m1"],
                  inbox := map["a" := ["m1", "m1"], "b" := ["m1"]])

  lemma Names()
    ensures "a" != "b" && "broadcast" != "a" && "broadcast" != "b" && "user" != "a" && "user" != "b" &&
      "broadcast" != "user"
    ensures "m1" != "m2" && "m1" != "m3" && "m2" != "m3" && "k1" != "k2" && "k1" != "k3" && "k2" != "k3"
    ensures Others(["a", "b"], "user") == ["a", "b"]
  {
    assert "a"[0] != "b"[0] && |"broadcast"| == 9 && |"user"| == 4;
    assert "m1"[1] != "m2"[1] && "m1"[1] != "m3"[1] && "m2"[1] != "m3"[1];
    assert "k1"[1] != "k2"[1] && "k1"[1] != "k3"[1] && "k2"[1] != "k3"[1];
    assert ["a", "b"][1..] == ["b"] && ["b"][1..] == [];
  }

  lemma SendTo(b: Bus, m: Message)
    requires m.problem.None? && m.key !in b.keys && Refusal(b, m).None? && Recipients(b, m) == ["b"] && !Full(b, "b")
    requires |b.log| < b.messageLimit
    ensures Send(b, m) == (b.(inbox := b.inbox["b" := Inbox(b, "b") + [m.id]], keys := b.keys[m.key := m.id],
      messages := b.messages[m.id := m], log := b.log + [m]), Ok(Delivery(m, false)))
  {
    var q := Enqueue(b, "b", m.id);
    assert ["b"][1..] == [] && EnqueueAll(q, [], m.id) == (q, true);
    var log := b.log + [m];
    assert log[0..] == log && forall ms: map<Id, Message> :: ms - Ids(log[..0]) == ms;
  }

  lemma TwoSends()
    ensures Send(B0, FIRST) == (B1, Ok(Delivery(FIRST, false))) && Send(B1, SECOND) == (B2, Ok(Delivery(SECOND, false)))
  {
    Names();
    SendTo(B0, FIRST);
    assert [] + ["m2"] == ["m2"] && [] + [FIRST] == [FIRST];
    assert Send(B0, FIRST).0 == B1;
    SendTo(B1, SECOND);
    assert ["m2"] + ["m3"] == ["m2", "m3"] && [FIRST] + [SECOND] == [FIRST, SECOND];
    assert B1.messages["m3" := SECOND] == B2.messages && B1.keys["k3" := "m3"] == B2.keys;
    assert Send(B1, SECOND).0 == B2;
  }

  lemma Refused()
    ensures Send(B2, HELLO) == (B3, Err(QueueFull))
  {
    hide Enqueue, Full, Others;
    Names();
    FirstSpills();
    SecondRefuses();
    assert ["a", "b"][1..] == ["b"];
  }

  lemma FirstSpills()
    ensures !Full(B2, "a") && Enqueue(B2, "a", "m1") == B3
  {
    assert "a"[0] != "b"[0] && [] + ["m1"] == ["m1"];
    assert Enqueue(B2, "a", "m1").inbox == B3.inbox;
  }

  lemma SecondRefuses()
    ensures Full(B3, "b") && Enqueue(B3, "b", "m1") == B3
  {
    assert "a"[0] != "b"[0];
    assert Enqueue(B3, "b", "m1").inbox == B3.inbox;
  }

  lemma Drained()
    ensures Receive(B3, "b", 2).0 == B4
  {
    hide Deliver, RestateAll;
    var ids, popped := ["m2", "m3"], B3.(inbox := B3.inbox["b" := []]);
    Names();
    assert ids[..2] == ids && ids[2..] == [];
    TwoHanded(popped);
    TwoRestated();
    assert B4.inbox == popped.inbox;
  }

  lemma TwoHanded(popped: Bus)
    requires popped.messages == B3.messages
    ensures Deliver(popped, ["m2", "m3"]) == (popped.(messages := B4.messages), [Handed(FIRST), Handed(SECOND)])
  {
    Names();
    var ids := ["m2", "m3"];
    assert ids[1..] == ["m3"] && ["m3"][1..] == [];
    var one := popped.(messages := popped.messages["m2" := Handed(FIRST)]);
    var two := one.(messages := one.messages["m3" := Handed(SECOND)]);
    assert one.messages["m3"] == SECOND && two.messages == B4.messages;
    assert Deliver(two, []) == (two, []) && [Handed(SECOND)] + [] == [Handed(SECOND)];
    assert Deliver(one, ["m3"]) == (two, [Handed(SECOND)]);
    assert popped.messages["m2"] == FIRST && [Handed(FIRST)] + [Handed(SECOND)] == [Handed(FIRST), Handed(SECOND)];
  }

  lemma TwoRestated()
    ensures RestateAll(B3.log, [Handed(FIRST), Handed(SECOND)]) == B4.log
  {
    Names();
    var out, log := [Handed(FIRST), Handed(SECOND)], [Handed(FIRST), SECOND];
    assert out[1..] == [Handed(SECOND)] && out[1..][1..] == [];
    assert Restate(B3.log, "m2", Delivered) == log;
    assert First(log, "m3") == 1 by { assert log[1].id == "m3"; }
    assert RestateAll(log, out[1..]) == B4.log;
  }

  lemma AcceptedAfterAll()
    ensures Send(B4, HELLO) == (B5, Ok(Delivery(HELLO, false)))
  {
    hide Others, EnqueueAll, Record;
    Names();
    BothQueued();
    assert Record(B4.(inbox := B5.inbox), HELLO) == B5 by { BroadcastRecorded(); }
  }

  lemma BothQueued()
    ensures EnqueueAll(B4, ["a", "b"], "m1") == (B4.(inbox := B5.inbox), true)
  {
    FirstQueued();
    SecondQueued();
    assert ["a", "b"][1..] == ["b"];
  }

  const HALFWAY := B4.(inbox := map["a" := ["m1", "m1"], "b" := []])

  lemma FirstQueued()
    ensures !Full(B4, "a") && Enqueue(B4, "a", "m1") == HALFWAY
  {
    assert "a"[0] != "b"[0];
    assert ["m1"] + ["m1"] == ["m1", "m1"];
    assert Enqueue(B4, "a", "m1").inbox == HALFWAY.inbox;
  }

  lemma SecondQueued()
    ensures EnqueueAll(HALFWAY, ["b"], "m1") == (B4.(inbox := B5.inbox), true)
  {
    assert "a"[0] != "b"[0];
    assert [] + ["m1"] == ["m1"] && ["b"][1..] == [];
    var q := Enqueue(HALFWAY, "b", "m1");
    assert q.inbox == B5.inbox;
    assert EnqueueAll(q, [], "m1") == (q, true);
  }

  lemma BroadcastRecorded()
    ensures Record(B4.(inbox := B5.inbox), HELLO) == B5
  {
    assert B5.log[0..] == B5.log && B5.messages - Ids(B5.log[..0]) == B5.messages;
  }

  lemma HandedTwice()
    ensures IdsOf(Receive(B5, "a", 2).1) == ["m1", "m1"]
  {
    hide Deliver, RestateAll, Live;
    var ids, popped := ["m1", "m1"], B5.(inbox := B5.inbox["a" := []]);
    assert ids[..2] == ids && ids[2..] == [];
    DeliverIsLive(popped, ids);
    LiveAppend(["m1"], ["m1"], popped.messages.Keys);
    assert ["m1"] + ["m1"] == ids;
    OneLives("m1", popped.messages.Keys);
  }

  lemma OneLives(id: Id, known: set<Id>)
    requires id in known
    ensures Live([id], known) == [id]
  {
    assert [id][..0] == [];
  }

  lemma Snoc(b: Bus, front: seq<Call>, c: Call, r: string)
    ensures Run(b, front + [c]) == After(Run(b, front), c)
    ensures Sent(b, front + [c], r) ==
      Sent(b, front, r) + if Accepts(Run(b, front), c) && Addressed(Run(b, front), c.m, r) then [c.m.id] else []
    ensures Got(b, front + [c], r) ==
      Got(b, front, r) + if c.CallReceive? && c.r == r then IdsOf(Receive(Run(b, front), r, c.limit).1) else []
  {
    assert (front + [c])[..|front|] == front;
  }

  /** In that history the broadcast is accepted once, yet "a" is handed it twice. */
  lemma RetriedBroadcastArrivesTwice()
    ensures Send(Run(B0, RETRY[..2]), HELLO).1 == Err(QueueFull)
    ensures Sent(B0, RETRY, "a") == ["m1"] && Got(B0, RETRY, "a") == ["m1", "m1"]
  {
    hide Run, Sent, Got, Send, Receive, Others, IdsOf;
    Names();
    TwoSends();
    Refused();
    Drained();
    AcceptedAfterAll();
    HandedTwice();
    assert Run(B0, []) == B0 && Sent(B0, [], "a") == [] && Got(B0, [], "a") == [] by { Empty(B0, "a"); }
    forall k | 0 <= k < 6 ensures RETRY[..k + 1] == RETRY[..k] + [RETRY[k]] {}
    Snoc(B0, RETRY[..0], RETRY[0], "a");
    Snoc(B0, RETRY[..1], RETRY[1], "a");
    Snoc(B0, RETRY[..2], RETRY[2], "a");
    Snoc(B0, RETRY[..3], RETRY[3], "a");
    Snoc(B0, RETRY[..4], RETRY[4], "a");
    Snoc(B0, RETRY[..5], RETRY[5], "a");
    assert RETRY[..6] == RETRY;
  }

  lemma Empty(b: Bus, r: string)
    ensures Run(b, []) == b && Sent(b, [], r) == [] && Got(b, [], r) == []
  {
  }

  const SENT := [CallSend(FIRST)]
  const FINISHED := [CallSend(FIRST), CallFinish(Some("m2"))]

  /** Log and map fall out of step when the activation of the first message finishes. */
  lemma FinishedMessageIsBehind()
    ensures InStep(Run(B0, SENT)) && !InStep(Run(B0, FINISHED))
  {
    hide Run, InStep, FinishMessage, Consistent, Sent, Got, Send;
    TwoSends();
    Empty(B0, "b");
    Snoc(B0, [], CallSend(FIRST), "b");
    Snoc(B0, SENT, CallFinish(Some("m2")), "b");
    assert [] + [CallSend(FIRST)] == SENT && SENT + [CallFinish(Some("m2"))] == FINISHED;
    EveryStateIsConsistent(["a", "b"], 2, 10, SENT);
    assert InStep(B1) by { FirstInStep(); }
    FinishKeepsStepIff(B1, Some("m2"));
  }

  lemma FirstInStep()
    ensures InStep(B1)
  {
  }
}
