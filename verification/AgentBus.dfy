/** The bus as the source has it: an object behind one lock, each method one atomic step. */
module AgentBus {
  import opened Wrappers
  import opened BusSpec
  import S = BusSpec

  class AgentBus {
    const queueLimit: nat
    const messageLimit: nat
    var members: seq<string>
    var log: seq<Message>
    var messages: map<Id, Message>
    var keys: map<string, Id>
    var inbox: map<string, seq<Id>>

    ghost function View(): Bus
      reads this
    {
      Bus(members, log, messages, keys, inbox, queueLimit, messageLimit)
    }

    constructor (members: seq<string>, queueLimit: nat, messageLimit: nat)
      ensures View() == New(members, queueLimit, messageLimit)
    {
      this.queueLimit, this.messageLimit, this.members := queueLimit, messageLimit, members;
      log, messages, keys, inbox := [], map[], map[], map[];
    }

    method RegisterInstance(name: string) returns (added: bool)
      modifies this`members
      ensures View() == Register(old(View()), name) && added == (name !in old(members))
    {
      if name in members { return false; }
      var i := 0;
      while i < |members| && !Before(name, members[i])
        invariant 0 <= i <= |members|
        invariant Insert(members, name) == members[..i] + Insert(members[i..], name)
      {
        assert members[i..][1..] == members[i + 1..];
        i := i + 1;
      }
      assert Insert(members[i..], name) == [name] + members[i..];
      members := members[..i] + [name] + members[i..];
      added := true;
    }

    method Send(m: Message) returns (r: Result<Delivery>)
      modifies this
      ensures (View(), r) == S.Send(old(View()), m)
    {
      if m.problem.Some? { return Err(m.problem.value); }
      if m.key in keys {
        if keys[m.key] !in messages { return Err(Duplicate); }
        return Ok(Delivery(messages[keys[m.key]], true));
      }
      if m.id in messages { return Err(Duplicate); }
      if !(m.sender == "user" || m.sender == "workflow" || m.sender in members) { return Err(Forbidden); }
      if m.recipient !in members && m.recipient != "broadcast" && m.recipient != "user" {
        return Err(UnknownRecipient);
      }
      var recipients := Recipients(m);
      var i := 0;
      while i < |recipients|
        invariant 0 <= i <= |recipients|
        invariant View() == old(View()).(inbox := inbox)
        invariant EnqueueAll(View(), recipients[i..], m.id) == EnqueueAll(old(View()), recipients, m.id)
      {
        assert recipients[i..][1..] == recipients[i + 1..];
        var fits := Enqueue(recipients[i], m.id);
        if !fits { return Err(QueueFull); }
        i := i + 1;
      }
      keys := keys[m.key := m.id];
      messages := messages[m.id := m];
      log := log + [m];
      Trim();
      r := Ok(Delivery(m, false));
    }

    method Recipients(m: Message) returns (recipients: seq<string>)
      ensures recipients == S.Recipients(View(), m)
    {
      if m.recipient == "user" { return []; }
      if m.recipient != "broadcast" { return [m.recipient]; }
      recipients := [];
      for i := 0 to |members|
        invariant recipients + Others(members[i..], m.sender) == Others(members, m.sender)
      {
        assert members[i..][1..] == members[i + 1..];
        if members[i] != m.sender { recipients := recipients + [members[i]]; }
      }
    }

    method Enqueue(r: string, id: Id) returns (fits: bool)
      modifies this`inbox
      ensures View() == S.Enqueue(old(View()), r, id) && fits == !Full(old(View()), r)
    {
      if r !in inbox { inbox := inbox[r := []]; }
      fits := |inbox[r]| < queueLimit;
      if fits { inbox := inbox[r := inbox[r] + [id]]; }
    }

    method Trim()
      modifies this`log, this`messages
      ensures View() == S.Trim(old(View()))
    {
      if |log| > messageLimit {
        var removed := log[..|log| - messageLimit];
        log := log[|log| - messageLimit..];
        for i := 0 to |removed|
          invariant messages == old(messages) - Ids(removed[..i]) && log == S.Trim(old(View())).log
        {
          assert removed[..i + 1] == removed[..i] + [removed[i]];
          assert Ids(removed[..i + 1]) == Ids(removed[..i]) + {removed[i].id};
          messages := messages - {removed[i].id};
        }
        assert removed[..|removed|] == removed == old(log)[..Excess(old(View()))];
      } else {
        assert log[0..] == log && messages - Ids(log[..0]) == messages;
      }
    }

    method Receive(r: string, limit: nat) returns (out: seq<Message>)
      modifies this
      ensures (View(), out) == S.Receive(old(View()), r, limit)
    {
      if r !in inbox { return []; }
      var n := Min(limit, |inbox[r]|);
      var ids := inbox[r][..n];
      inbox := inbox[r := inbox[r][n..]];
      out := [];
      ghost var popped := View();
      for i := 0 to |ids|
        invariant View() == popped.(messages := messages)
        invariant S.Deliver(popped, ids).0 == S.Deliver(View(), ids[i..]).0
        invariant S.Deliver(popped, ids).1 == out + S.Deliver(View(), ids[i..]).1
      {
        assert ids[i..][1..] == ids[i + 1..];
        if ids[i] in messages {
          var message := Handed(messages[ids[i]]);
          messages := messages[ids[i] := message];
          out := out + [message];
        }
      }
      assert ids[|ids|..] == [];
      for i := 0 to |out|
        invariant View() == S.Deliver(popped, ids).0.(log := log)
        invariant RestateAll(log, out[i..]) == RestateAll(popped.log, out)
      {
        assert out[i..][1..] == out[i + 1..];
        RestateLog(out[i].id, out[i].status);
      }
      assert out[|out|..] == [];
      assert out == S.Receive(old(View()), r, limit).1;
      assert log == S.Receive(old(View()), r, limit).0.log;
    }

    method RestateLog(id: Id, status: Status)
      modifies this`log
      ensures log == Restate(old(log), id, status)
    {
      for k := 0 to |log|
        invariant log == old(log) && forall j :: 0 <= j < k ==> log[j].id != id
      {
        if log[k].id == id {
          log := log[k := WithStatus(log[k], status)];
          return;
        }
      }
    }

    method Acknowledge(id: Id, status: Status) returns (r: Result<()>)
      modifies this
      ensures (View(), r) == S.Acknowledge(old(View()), id, status)
    {
      if !Final(status) { return Err(InvalidMessage("status")); }
      if id !in messages { return Err(UnknownRecipient); }
      messages := messages[id := WithStatus(messages[id], status)];
      RestateLog(id, status);
      r := Ok(());
    }

    method FinishMessage(id: Option<Id>)
      modifies this`messages
      ensures View() == S.FinishMessage(old(View()), id)
    {
      if id.Some? && id.value in messages {
        messages := messages[id.value := WithStatus(messages[id.value], Completed)];
      }
    }
  }
}
