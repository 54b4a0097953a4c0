/** Conversation contexts: message lists kept within limits by dropping the oldest turns. */
module Conversation {
  import opened Wrappers

  datatype Role = System | User | Assistant | Tool

  /** `calls` are the printed arguments of the message's tool calls. */
  datatype Message = Message(role: Role, content: string, calls: seq<string>, toolCallId: string, name: string)

  datatype ToolResult = ToolResult(toolCallId: string, name: string, content: string, error: bool)

  datatype Policy = TrimOldest | Error

  datatype Limits = Limits(maxMessages: nat, maxTokens: nat, policy: Policy)

  datatype Code = Overflow | UnknownHandle | InvalidMessages

  datatype Result<T> = Ok(value: T) | Err(code: Code)

  /** What is stored after some pushes, and how many messages they dropped. */
  datatype Kept = Kept(messages: seq<Message>, trimmed: nat)

  function CallTokens(calls: seq<string>): nat {
    if calls == [] then 0 else CallTokens(calls[..|calls| - 1]) + 8 + |calls[|calls| - 1]| / 4
  }

  function Tokens(m: Message): (n: nat)
    ensures n > 0
  {
    4 + |m.content| / 4 + CallTokens(m.calls)
  }

  function EstimateTokens(ms: seq<Message>): nat {
    if ms == [] then 0 else EstimateTokens(ms[..|ms| - 1]) + Tokens(ms[|ms| - 1])
  }

  function AtLeastOne(n: nat): nat {
    if n == 0 then 1 else n
  }

  predicate Fits(ms: seq<Message>, limits: Limits) {
    |ms| <= AtLeastOne(limits.maxMessages) && EstimateTokens(ms) <= AtLeastOne(limits.maxTokens)
  }

  /** Position of the oldest message that may be dropped, or the length. */
  function Removable(ms: seq<Message>): (k: nat)
    ensures k <= |ms| && (k < |ms| ==> ms[k].role != System) && forall j :: 0 <= j < k ==> ms[j].role == System
    decreases |ms|
  {
    if ms == [] || ms[0].role != System then 0 else Removable(ms[1..]) + 1
  }

  function Without(ms: seq<Message>, k: nat): seq<Message>
    requires k < |ms|
  {
    ms[..k] + ms[k + 1..]
  }

  /** `enforce_limits`. */
  function Enforce(ms: seq<Message>, limits: Limits): Result<Kept>
    decreases |ms|
  {
    if Fits(ms, limits) then Ok(Kept(ms, 0))
    else if limits.policy == Error || Removable(ms) == |ms| then Err(Overflow)
    else match Enforce(Without(ms, Removable(ms)), limits)
      case Ok(kept) => Ok(kept.(trimmed := kept.trimmed + 1))
      case Err(code) => Err(code)
  }

  /** `push_message`, one message after the other. */
  function Push(ms: seq<Message>, more: seq<Message>, limits: Limits): Result<Kept> {
    if more == [] then Ok(Kept(ms, 0))
    else match Push(ms, more[..|more| - 1], limits)
      case Err(code) => Err(code)
      case Ok(kept) => Continue(kept, Enforce(kept.messages + [more[|more| - 1]], limits))
  }

  function Continue(kept: Kept, r: Result<Kept>): Result<Kept> {
    if r.Err? then r else Ok(Kept(r.value.messages, kept.trimmed + r.value.trimmed))
  }

  function ResultMessage(r: ToolResult): Message {
    Message(Tool, if r.error then "ERROR: " + r.content else r.content, [], r.toolCallId, r.name)
  }

  function ResultMessages(rs: seq<ToolResult>): seq<Message> {
    seq(|rs|, k requires 0 <= k < |rs| => ResultMessage(rs[k]))
  }

  // ---------------------------------------------------------------- the store

  type Handle = nat

  /** Entries by handle, each node's handle, and the next fresh handle. */
  datatype Store = Store(entries: map<Handle, seq<Message>>, handles: map<string, Handle>, next: Handle)

  /** A snapshot reports its handle, the messages and what the call dropped. */
  datatype Snapshot = Snapshot(handle: Handle, messages: seq<Message>, trimmed: nat)

  function InitStore(s: Store, ms: seq<Message>, limits: Limits): (Store, Result<Snapshot>) {
    if ms == [] then (s, Err(InvalidMessages))
    else match Push([], ms, limits)
      case Err(code) => (s, Err(code))
      case Ok(kept) =>
        (s.(entries := s.entries[s.next := kept.messages], next := s.next + 1),
          Ok(Snapshot(s.next, kept.messages, kept.trimmed)))
  }

  /** The entry is taken out first and put back only on success. */
  function UpdateStore(s: Store, h: Handle, ms: seq<Message>, rs: seq<ToolResult>, limits: Limits)
    : (Store, Result<Snapshot>)
  {
    if h !in s.entries then (s, Err(UnknownHandle))
    else match Push(s.entries[h], ms + ResultMessages(rs), limits)
      case Err(code) => (s.(entries := s.entries - {h}), Err(code))
      case Ok(kept) => (s.(entries := s.entries[h := kept.messages]), Ok(Snapshot(h, kept.messages, kept.trimmed)))
  }

  /** `update_context`: the first activation of a node initialises, later ones append. */
  function UpdateContext(s: Store, node: string, initial: Option<seq<Message>>, ms: seq<Message>, rs: seq<ToolResult>,
      limits: Limits): (Store, Result<Snapshot>)
  {
    if node in s.handles then UpdateStore(s, s.handles[node], ms, rs, limits)
    else if initial.None? then (s, Err(InvalidMessages))
    else
      var (s1, first) := InitStore(s, initial.value, limits);
      if first.Err? then (s1, first)
      else
        var (s2, last) :=
          if ms == [] && rs == [] then (s1, first) else UpdateStore(s1, first.value.handle, ms, rs, limits);
        if last.Err? then (s2, last) else (s2.(handles := s2.handles[node := last.value.handle]), last)
  }

  method EnforceLimits(before: seq<Message>, limits: Limits) returns (r: Result<Kept>)
    ensures r == Enforce(before, limits)
  {
    hide Fits, Removable, Enforce;
    var ms, removed := before, 0;
    while !Fits(ms, limits)
      invariant Enforce(before, limits) == Continue(Kept([], removed), Enforce(ms, limits))
      decreases |ms|
    {
      EnforceStep(ms, limits);
      if limits.policy == Error { return Err(Overflow); }
      var k := 0;
      while k < |ms| && ms[k].role == System
        invariant k <= |ms| && forall j :: 0 <= j < k ==> ms[j].role == System
      {
        k := k + 1;
      }
      if k == |ms| { return Err(Overflow); }
      assert k == Removable(ms);
      ms := ms[..k] + ms[k + 1..];
      removed := removed + 1;
    }
    EnforceStep(ms, limits);
    r := Ok(Kept(ms, removed));
  }

  lemma EnforceStep(ms: seq<Message>, limits: Limits)
    ensures Fits(ms, limits) ==> Enforce(ms, limits) == Ok(Kept(ms, 0))
    ensures !Fits(ms, limits) && (limits.policy == Error || Removable(ms) == |ms|) ==>
      Enforce(ms, limits) == Err(Overflow)
    ensures !Fits(ms, limits) && limits.policy == TrimOldest && Removable(ms) < |ms| ==>
      Enforce(ms, limits) == Continue(Kept([], 1), Enforce(Without(ms, Removable(ms)), limits))
  {
    hide Fits, Removable;
  }

  method PushMessages(before: seq<Message>, more: seq<Message>, limits: Limits) returns (r: Result<Kept>)
    ensures r == Push(before, more, limits)
  {
    var kept := Kept(before, 0);
    for k := 0 to |more|
      invariant Push(before, more[..k], limits) == Ok(kept)
    {
      var pushed := EnforceLimits(kept.messages + [more[k]], limits);
      assert more[..k + 1][..k] == more[..k];
      if pushed.Err? {
        PushFails(before, more, k + 1, limits);
        return pushed;
      }
      kept := Kept(pushed.value.messages, kept.trimmed + pushed.value.trimmed);
    }
    assert more[..|more|] == more;
    r := Ok(kept);
  }

  lemma {:induction false} PushFails(before: seq<Message>, more: seq<Message>, k: nat, limits: Limits)
    requires k <= |more| && Push(before, more[..k], limits).Err?
    ensures Push(before, more, limits) == Push(before, more[..k], limits)
    decreases |more| - k
  {
    if k < |more| {
      assert more[..k + 1][..k] == more[..k];
      PushFails(before, more, k + 1, limits);
    } else {
      assert more[..k] == more;
    }
  }

  class ContextStore {
    var entries: map<Handle, seq<Message>>
    var handles: map<string, Handle>
    var next: Handle

    ghost function View(): Store
      reads this
    {
      Store(entries, handles, next)
    }

    constructor ()
      ensures View() == Store(map[], map[], 0)
    {
      entries, handles, next := map[], map[], 0;
    }

    method Init(ms: seq<Message>, limits: Limits) returns (r: Result<Snapshot>)
      modifies this
      ensures (View(), r) == InitStore(old(View()), ms, limits)
    {
      if ms == [] { return Err(InvalidMessages); }
      var pushed := PushMessages([], ms, limits);
      if pushed.Err? { return Err(pushed.code); }
      r := Ok(Snapshot(next, pushed.value.messages, pushed.value.trimmed));
      entries := entries[next := pushed.value.messages];
      next := next + 1;
    }

    method Update(h: Handle, ms: seq<Message>, rs: seq<ToolResult>, limits: Limits) returns (r: Result<Snapshot>)
      modifies this
      ensures (View(), r) == UpdateStore(old(View()), h, ms, rs, limits)
    {
      if h !in entries { return Err(UnknownHandle); }
      var entry := entries[h];
      entries := entries - {h};
      var pushed := PushMessages(entry, ms + ResultMessages(rs), limits);
      if pushed.Err? { return Err(pushed.code); }
      entries := entries[h := pushed.value.messages];
      assert entries == old(entries)[h := pushed.value.messages];
      r := Ok(Snapshot(h, pushed.value.messages, pushed.value.trimmed));
    }

    method UpdateNode(node: string, initial: Option<seq<Message>>, ms: seq<Message>, rs: seq<ToolResult>,
        limits: Limits) returns (r: Result<Snapshot>)
      modifies this
      ensures (View(), r) == UpdateContext(old(View()), node, initial, ms, rs, limits)
    {
      if node in handles {
        r := Update(handles[node], ms, rs, limits);
        return;
      }
      if initial.None? { return Err(InvalidMessages); }
      r := Init(initial.value, limits);
      if r.Err? { return; }
      if ms != [] || rs != [] {
        r := Update(r.value.handle, ms, rs, limits);
        if r.Err? { return; }
      }
      handles := handles[node := r.value.handle];
    }
  }
}
