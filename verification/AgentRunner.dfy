/** The agent runner: a budgeted loop of model requests and tool calls over one transcript. */
module AgentRunner {
  import opened Wrappers
  import T = Text

  type u32 = x: nat | x < 0x1_0000_0000
  const U64_MAX: nat := 0xFFFF_FFFF_FFFF_FFFF

  type Id = string

  /** A tool call; `submit` marks the submit_result tool, and `valid` says that its payload parses. */
  datatype Call = Call(id: Id, name: string, submit: bool, valid: bool)

  datatype Text = Instruction(text: string) | Directive(text: string) | RepairNote | RejectionNote

  datatype Message = User(text: Text) | Assistant(prose: string, calls: seq<Call>) | Tool(id: Id, ok: bool) | History

  datatype Config = Config(maxIterations: u32, maxToolCalls: u32, maxTotalTokens: nat)

  datatype Usage = Usage(iterations: nat, modelCalls: nat, toolCalls: nat, tokens: nat)

  datatype Code =
    | Cancelled | Timeout | IterationBudget | TokenBudget | ToolBudget | InvalidResult | InvalidConfig
    | Provider(text: string) | Refused(text: string)

  datatype End = Submitted(call: Call) | Failed(code: Code)

  datatype News = Unchanged | Changed(config: Config) | Broken

  datatype Reply = Response(prose: string, calls: seq<Call>, tokens: nat) | Error(reason: string)

  /** `NotRun` is an unknown tool, bad arguments, a denied permission or cancellation: the loop
      ends.  A tool that ran answers, with its result or with its error. */
  datatype ToolReply = NotRun(reason: string) | Answer(ok: bool)

  /** What the loop observes; each observation has its own tick. */
  datatype Env = Env(
    active: nat -> bool,
    safe: nat -> bool,
    news: nat -> News,
    directives: nat -> seq<string>,
    late: nat -> bool,
    prompt: nat -> Option<string>,
    complete: (nat, seq<Message>) -> Reply,
    execute: (nat, Call) -> ToolReply)

  // ---------------------------------------------------------------- well-paired transcripts

  function CallIds(calls: seq<Call>): seq<Id> {
    seq(|calls|, k requires 0 <= k < |calls| => calls[k].id)
  }

  /** Reads a transcript and keeps the replies still owed, in call order; None when a message
      comes out of turn.  The strict reading lets nothing but replies in between; the other one
      lets a rejection note through. */
  ghost function Owed(ms: seq<Message>, strict: bool): Option<seq<Id>> {
    if ms == [] then Some([])
    else
      var before := Owed(ms[..|ms| - 1], strict);
      if before.None? then None else Read(before.value, ms[|ms| - 1], strict)
  }

  ghost function Read(owed: seq<Id>, m: Message, strict: bool): Option<seq<Id>> {
    match m
    case Assistant(_, calls) => if owed == [] then Some(CallIds(calls)) else None
    case Tool(id, _) => if owed != [] && owed[0] == id then Some(owed[1..]) else None
    case User(text) => if owed == [] || (!strict && text == RejectionNote) then Some(owed) else None
    case History => if owed == [] then Some(owed) else None
  }

  lemma OwedSnoc(ms: seq<Message>, m: Message, strict: bool)
    ensures Owed(ms + [m], strict) == if Owed(ms, strict).None? then None else Read(Owed(ms, strict).value, m, strict)
  {
    assert (ms + [m])[..|ms|] == ms;
  }

  /** A rejected submission that is not the last call of its response. */
  ghost predicate Interrupts(calls: seq<Call>) {
    exists k :: 0 <= k < |calls| - 1 && calls[k].submit && !calls[k].valid
  }

  ghost predicate Interrupted(ms: seq<Message>) {
    exists k :: 0 <= k < |ms| && ms[k].Assistant? && Interrupts(ms[k].calls)
  }

  ghost function Count(ms: seq<Message>, text: Text): nat {
    if ms == [] then 0
    else Count(ms[..|ms| - 1], text) + if ms[|ms| - 1] == User(text) then 1 else 0
  }

  lemma CountSnoc(ms: seq<Message>, m: Message, text: Text)
    ensures Count(ms + [m], text) == Count(ms, text) + if m == User(text) then 1 else 0
  {
    assert (ms + [m])[..|ms|] == ms;
  }

  /** Between two turns: all replies are there, in call order, and contiguous unless a response
      went on after a rejected submission. */
  ghost predicate Settled(ms: seq<Message>) {
    && Owed(ms, false) == Some([])
    && (if Interrupted(ms) then Owed(ms, true).None? else Owed(ms, true) == Some([]))
  }

  /** Inside a response whose calls from `k` on are not answered yet. */
  ghost predicate Answering(ms: seq<Message>, before: seq<Message>, calls: seq<Call>, k: nat)
    requires k <= |calls|
  {
    && Owed(ms, false) == Some(CallIds(calls[k..]))
    && (Interrupted(ms) <==> Interrupted(before) || Interrupts(calls))
    && (if Interrupted(before) || InterruptedBy(calls, k) then Owed(ms, true).None?
        else Owed(ms, true) == Some(CallIds(calls[k..])))
  }

  /** One of the first `k` calls was a rejected submission with calls after it. */
  ghost predicate InterruptedBy(calls: seq<Call>, k: nat) {
    exists j :: 0 <= j < k && j < |calls| - 1 && calls[j].submit && !calls[j].valid
  }

  lemma InterruptedSnoc(ms: seq<Message>, m: Message)
    ensures Interrupted(ms + [m]) <==> Interrupted(ms) || (m.Assistant? && Interrupts(m.calls))
  {
    if Interrupted(ms) {
      var k :| 0 <= k < |ms| && ms[k].Assistant? && Interrupts(ms[k].calls);
      assert (ms + [m])[k] == ms[k];
    }
    assert (ms + [m])[|ms|] == m;
  }

  lemma PlainMessage(ms: seq<Message>, m: Message)
    requires Settled(ms) && (m.User? || (m.Assistant? && m.calls == []))
    ensures Settled(ms + [m])
  {
    OwedSnoc(ms, m, false);
    OwedSnoc(ms, m, true);
    InterruptedSnoc(ms, m);
    assert m.Assistant? ==> !Interrupts(m.calls) && CallIds(m.calls) == [];
  }

  lemma ResponseArrives(ms: seq<Message>, prose: string, calls: seq<Call>)
    requires Settled(ms)
    ensures Answering(ms + [Assistant(prose, calls)], ms, calls, 0)
  {
  }

  lemma CallAnswered(ms: seq<Message>, before: seq<Message>, calls: seq<Call>, k: nat, ok: bool)
    requires k < |calls| && Answering(ms, before, calls, k) && !calls[k].submit
    ensures Answering(ms + [Tool(calls[k].id, ok)], before, calls, k + 1)
  {
    var m := Tool(calls[k].id, ok);
    OwedSnoc(ms, m, false);
    OwedSnoc(ms, m, true);
    InterruptedSnoc(ms, m);
    assert CallIds(calls[k..])[1..] == CallIds(calls[k + 1..]);
    assert InterruptedBy(calls, k + 1) <==> InterruptedBy(calls, k);
  }

  lemma CallRejected(ms: seq<Message>, before: seq<Message>, calls: seq<Call>, k: nat)
    requires k < |calls| && Answering(ms, before, calls, k) && calls[k].submit && !calls[k].valid
    ensures Answering(ms + [Tool(calls[k].id, false)] + [User(RejectionNote)], before, calls, k + 1)
  {
    var m, note := Tool(calls[k].id, false), User(RejectionNote);
    OwedSnoc(ms, m, false);
    OwedSnoc(ms, m, true);
    InterruptedSnoc(ms, m);
    OwedSnoc(ms + [m], note, false);
    OwedSnoc(ms + [m], note, true);
    InterruptedSnoc(ms + [m], note);
    assert CallIds(calls[k..])[1..] == CallIds(calls[k + 1..]);
    if k < |calls| - 1 {
      assert InterruptedBy(calls, k + 1);
      assert |CallIds(calls[k + 1..])| > 0;
    } else {
      assert InterruptedBy(calls, k + 1) <==> InterruptedBy(calls, k);
    }
  }

  lemma AllAnswered(ms: seq<Message>, before: seq<Message>, calls: seq<Call>)
    requires Answering(ms, before, calls, |calls|)
    ensures Settled(ms)
  {
    assert InterruptedBy(calls, |calls|) <==> Interrupts(calls);
    assert calls[|calls|..] == [] && CallIds([]) == [];
  }

  const REJECTED := Call("c1", "submit_result", true, false)
  const SEARCH := Call("c2", "search", false, true)

  /** One response with a rejected submission and then a tool call: when both are answered nothing
      is owed, but the note stands between the two replies. */
  lemma NoteBetweenReplies()
    ensures var ms := [Assistant("", [REJECTED, SEARCH]), Tool("c1", false), User(RejectionNote), Tool("c2", true)];
      Settled(ms) && Owed(ms, true).None?
  {
    hide Settled, Answering;
    var calls := [REJECTED, SEARCH];
    NothingSaid();
    assert [] + [Assistant("", calls)] == [Assistant("", calls)];
    ResponseArrives([], "", calls);
    CallRejected([Assistant("", calls)], [], calls, 0);
    var noted := [Assistant("", calls)] + [Tool("c1", false)] + [User(RejectionNote)];
    CallAnswered(noted, [], calls, 1, true);
    var ms := noted + [Tool("c2", true)];
    AllAnswered(ms, [], calls);
    assert Owed(ms, true).None? by { StaysBroken(ms, [], calls); }
    assert ms == [Assistant("", calls), Tool("c1", false), User(RejectionNote), Tool("c2", true)];
  }

  lemma StaysBroken(ms: seq<Message>, before: seq<Message>, calls: seq<Call>)
    requires Answering(ms, before, calls, |calls|) && Interrupts(calls)
    ensures Owed(ms, true).None?
  {
    assert InterruptedBy(calls, |calls|);
  }

  // ---------------------------------------------------------------- the loop

  /** The loop's local variables; `messages` is what this activation appended. */
  datatype Locals = Locals(messages: seq<Message>, usage: Usage, repairs: nat, rejections: nat, executed: seq<Call>,
      tick: nat)

  /** The counters agree with the transcript and the limits hold. */
  ghost predicate Tallied(p: Locals, maxIterations: nat, maxToolCalls: nat) {
    && p.repairs == Count(p.messages, RepairNote) <= 1
    && p.rejections == Count(p.messages, RejectionNote) <= 1
    && p.usage.modelCalls == p.usage.iterations <= maxIterations
    && p.usage.toolCalls == |p.executed| <= maxToolCalls
  }

  lemma Noted(p: Locals, m: Message)
    ensures Count(p.messages + [m], RepairNote) ==
      Count(p.messages, RepairNote) + if m == User(RepairNote) then 1 else 0
    ensures Count(p.messages + [m], RejectionNote) ==
      Count(p.messages, RejectionNote) + if m == User(RejectionNote) then 1 else 0
  {
    CountSnoc(p.messages, m, RepairNote);
    CountSnoc(p.messages, m, RejectionNote);
  }

  function Push(p: Locals, m: Message): Locals {
    p.(messages := p.messages + [m])
  }

  /** Cancellation and pause, looked at between steps. */
  method SafePoint(env: Env, before: Locals) returns (p: Locals, ok: bool)
    ensures p == before.(tick := before.tick + 2)
    ensures ok <==> env.active(before.tick) && env.safe(before.tick + 1)
  {
    p := before.(tick := before.tick + 2);
    ok := env.active(before.tick) && env.safe(before.tick + 1);
  }

  // ---------------------------------------------------------------- what a turn says

  ghost function Directives(texts: seq<string>): (ms: seq<Message>)
    ensures |ms| == |texts| && forall k :: 0 <= k < |ms| ==> ms[k] == User(Directive(texts[k]))
  {
    seq(|texts|, k requires 0 <= k < |texts| => User(Directive(texts[k])))
  }

  ghost function ToolsIn(calls: seq<Call>): (n: nat)
    ensures n <= |calls|
  {
    if calls == [] then 0
    else ToolsIn(calls[..|calls| - 1]) + if calls[|calls| - 1].submit then 0 else 1
  }

  /** The replies to calls that are answered from tick `t` on: a submission is rejected, and noted; a
      tool replies as it answered, at the third observation of its call. */
  ghost function Replies(env: Env, calls: seq<Call>, t: nat): seq<Message> {
    if calls == [] then []
    else
      var front, c := calls[..|calls| - 1], calls[|calls| - 1];
      Replies(env, front, t) +
      if c.submit then [Tool(c.id, false), User(RejectionNote)]
      else [Tool(c.id, Worked(env.execute(t + 3 * ToolsIn(front) + 2, c)))]
  }

  ghost predicate Worked(reply: ToolReply) {
    reply.Answer? && reply.ok
  }

  /** How call `k` ends the run, if it does, once those before it are answered. */
  ghost function Verdict(env: Env, config: Config, before: Locals, calls: seq<Call>, k: nat): Option<End>
    requires k < |calls|
  {
    var c, tools := calls[k], ToolsIn(calls[..k]);
    var t := before.tick + 3 * tools;
    if c.submit then
      if c.valid then Some(Submitted(c))
      else if before.rejections + k - tools >= 1 then Some(Failed(InvalidResult)) else None
    else if before.usage.toolCalls + tools >= config.maxToolCalls then Some(Failed(ToolBudget))
    else if !(env.active(t) && env.safe(t + 1)) then Some(Failed(Cancelled))
    else if env.execute(t + 2, c).NotRun? then Some(Failed(Refused(env.execute(t + 2, c).reason)))
    else None
  }

  /** The calls before the `k`th are answered, and the `k`th, if there is one, ends the run. */
  ghost predicate AnsweredTo(env: Env, config: Config, before: Locals, calls: seq<Call>, p: Locals, end: Option<End>,
      k: nat)
  {
    && k <= |calls| && (forall j :: 0 <= j < k ==> Verdict(env, config, before, calls, j).None?)
    && (if k == |calls| then end.None? else end.Some? && end == Verdict(env, config, before, calls, k))
    && p.messages == before.messages + Replies(env, calls[..k], before.tick)
    && (end.None? ==> p.tick == before.tick + 3 * ToolsIn(calls))
  }

  ghost function Calls(reply: Reply): seq<Call> {
    if reply.Response? then reply.calls else []
  }

  /** What a response adds to the transcript when the run goes on after it. */
  ghost function ResponseAdds(env: Env, reply: Reply, t: nat): seq<Message> {
    if reply.Error? then []
    else if reply.calls == [] then [Assistant(reply.prose, []), User(RepairNote)]
    else [Assistant(reply.prose, reply.calls)] + Replies(env, reply.calls, t)
  }

  ghost function Used(before: Locals, reply: Reply): nat {
    if reply.Error? then before.usage.tokens else Min(before.usage.tokens + reply.tokens, U64_MAX)
  }

  /** The run fails and nothing is added. */
  ghost predicate Stops(before: Locals, p: Locals, end: Option<End>, code: Code) {
    end == Some(Failed(code)) && p.messages == before.messages
  }

  /** One request and what its response leads to. */
  ghost predicate Handled(env: Env, initial: seq<Message>, config: Config, before: Locals, p: Locals,
      end: Option<End>) {
    var reply, t := env.complete(before.tick, initial + before.messages), before.tick;
    && p.usage.tokens == Used(before, reply)
    && (end.None? ==> reply.Response? && p.messages == before.messages + ResponseAdds(env, reply, t + 2))
    && (end.None? ==> p.tick == t + 2 + 3 * ToolsIn(Calls(reply)))
    && if reply.Error? then Stops(before, p, end, Provider(reply.reason))
       else if config.maxTotalTokens > 0 && Used(before, reply) > config.maxTotalTokens then
         Stops(before, p, end, TokenBudget)
       else if !env.safe(t + 1) then Stops(before, p, end, Cancelled)
       else if reply.calls == [] then
         if T.Blank(reply.prose) || before.repairs >= 1 then Stops(before, p, end, InvalidResult) else end.None?
       else
         var asked := before.(messages := before.messages + [Assistant(reply.prose, reply.calls)], tick := t + 2,
           usage := before.usage.(tokens := Used(before, reply)));
         exists k: nat :: AnsweredTo(env, config, asked, reply.calls, p, end, k)
  }

  /** The configuration of the turn that begins at tick `t`. */
  ghost function Current(env: Env, config: Config, t: nat): Config {
    if env.active(t) && env.safe(t + 1) && env.news(t + 2).Changed? then env.news(t + 2).config else config
  }

  /** The directives taken in the turn that begins at tick `t`. */
  ghost function Taken(env: Env, t: nat): seq<Message> {
    if env.active(t) && env.safe(t + 1) && !env.news(t + 2).Broken? then Directives(env.directives(t + 3)) else []
  }

  /** How a turn ends before its request, if it does. */
  ghost function BeforeEnd(env: Env, config: Config, before: Locals): Option<End> {
    var t := before.tick;
    if !(env.active(t) && env.safe(t + 1)) then Some(Failed(Cancelled))
    else if env.news(t + 2).Broken? then Some(Failed(InvalidConfig))
    else if env.late(t + 4) then Some(Failed(Timeout))
    else if before.usage.iterations >= Current(env, config, t).maxIterations then Some(Failed(IterationBudget))
    else None
  }

  /** When request `k` is made: the turn's observations take six ticks. */
  ghost function TickOf(env: Env, initial: seq<Message>, requests: seq<seq<Message>>, k: nat): nat
    requires k < |requests|
  {
    (if k == 0 then 0 else Ready(env, initial, requests, k)) + 6
  }

  /** When turn `k` begins: after the response of the request before is dealt with. */
  ghost function Ready(env: Env, initial: seq<Message>, requests: seq<seq<Message>>, k: nat): nat
    requires k <= |requests|
  {
    if k == 0 then 0
    else
      var t := Ready(env, initial, requests, k - 1) + 6;
      t + 2 + 3 * ToolsIn(Calls(env.complete(t, initial + requests[k - 1])))
  }

  /** The transcript with which turn `k` begins. */
  ghost function Said(env: Env, initial: seq<Message>, requests: seq<seq<Message>>, k: nat): seq<Message>
    requires k <= |requests|
  {
    if k == 0 then []
    else
      var t := TickOf(env, initial, requests, k - 1);
      requests[k - 1] + ResponseAdds(env, env.complete(t, initial + requests[k - 1]), t + 2)
  }

  /** Every request is the one before, the response to it with its replies and notes, and then the
      directives taken between the two. */
  ghost predicate Conversed(env: Env, initial: seq<Message>, requests: seq<seq<Message>>) {
    forall k :: 0 <= k < |requests| ==>
      requests[k] ==
        Said(env, initial, requests, k) + Directives(env.directives(TickOf(env, initial, requests, k) - 3))
  }

  /** Why the run ended: before a request, at its prompt, or by what the last response led to. */
  ghost predicate Ends(env: Env, initial: seq<Message>, requests: seq<seq<Message>>, config: Config, before: Locals,
      p: Locals, end: End)
  {
    var n := |requests|;
    || (before.tick == Ready(env, initial, requests, n) && before.messages == Said(env, initial, requests, n)
        && p.messages == before.messages + Taken(env, before.tick)
        && match BeforeEnd(env, config, before)
           case Some(stop) => end == stop
           case None => env.prompt(before.tick + 5).Some? && end == Failed(InvalidConfig))
    || (n > 0 && before.tick == TickOf(env, initial, requests, n - 1) && before.messages == requests[n - 1]
        && Handled(env, initial, config, before, p, Some(end)))
  }

  // ---------------------------------------------------------------- the loop's steps

  method DrainDirectives(env: Env, before: Locals, ghost maxIterations: nat, ghost maxToolCalls: nat)
      returns (p: Locals)
    requires Settled(before.messages) && Tallied(before, maxIterations, maxToolCalls)
    ensures Settled(p.messages) && Tallied(p, maxIterations, maxToolCalls)
    ensures p == before.(messages := before.messages + Directives(env.directives(before.tick)), tick := before.tick + 1)
  {
    hide Settled, Count;
    p := before;
    var texts := env.directives(p.tick);
    for k := 0 to |texts|
      invariant Settled(p.messages) && Tallied(p, maxIterations, maxToolCalls)
      invariant p == before.(messages := before.messages + Directives(texts)[..k])
    {
      PlainMessage(p.messages, User(Directive(texts[k])));
      Noted(p, User(Directive(texts[k])));
      p := Push(p, User(Directive(texts[k])));
    }
    assert Directives(texts)[..|texts|] == Directives(texts);
    p := p.(tick := p.tick + 1);
  }

  /** Inside a response: the tallies hold and the calls before the `k`th are answered. */
  ghost predicate InResponse(p: Locals, settled: seq<Message>, calls: seq<Call>, k: nat, maxIterations: nat,
      maxToolCalls: nat)
    requires k <= |calls|
  {
    Answering(p.messages, settled, calls, k) && Tallied(p, maxIterations, maxToolCalls)
  }

  /** What answering calls leaves alone. */
  ghost predicate Onward(before: Locals, p: Locals, maxToolCalls: nat) {
    && before.messages <= p.messages && before.executed <= p.executed && p.usage.toolCalls <= maxToolCalls
    && p.usage.iterations == before.usage.iterations && p.usage.modelCalls == before.usage.modelCalls
    && p.usage.tokens == before.usage.tokens
  }

  /** A rejected submission is answered and noted once; a second one ends the run. */
  method RejectSubmission(before: Locals, calls: seq<Call>, k: nat, ghost settled: seq<Message>,
      ghost maxIterations: nat, ghost maxToolCalls: nat)
    returns (p: Locals, end: Option<End>)
    requires k < |calls| && calls[k].submit && !calls[k].valid &&
      InResponse(before, settled, calls, k, maxIterations, maxToolCalls)
    ensures Onward(before, p, maxToolCalls)
    ensures end.None? ==> InResponse(p, settled, calls, k + 1, maxIterations, maxToolCalls)
    ensures end == if before.rejections >= 1 then Some(Failed(InvalidResult)) else None
    ensures p == before.(messages := p.messages, rejections := before.rejections + 1)
    ensures p.messages ==
      before.messages + if end.None? then [Tool(calls[k].id, false), User(RejectionNote)] else []
  {
    hide Answering;
    p := before.(rejections := before.rejections + 1);
    if p.rejections > 1 { return p, Some(Failed(InvalidResult)); }
    CallRejected(p.messages, settled, calls, k);
    Noted(p, Tool(calls[k].id, false));
    Noted(Push(p, Tool(calls[k].id, false)), User(RejectionNote));
    p := Push(Push(p, Tool(calls[k].id, false)), User(RejectionNote));
    assert p.messages == before.messages + [Tool(calls[k].id, false), User(RejectionNote)];
    end := None;
  }

  /** How a tool call ends the run, if it does. */
  ghost function ToolEnd(env: Env, config: Config, before: Locals, call: Call): Option<End> {
    var t := before.tick;
    if before.usage.toolCalls >= config.maxToolCalls then Some(Failed(ToolBudget))
    else if !(env.active(t) && env.safe(t + 1)) then Some(Failed(Cancelled))
    else if env.execute(t + 2, call).NotRun? then Some(Failed(Refused(env.execute(t + 2, call).reason)))
    else None
  }

  /** Runs a tool within the budget and appends its answer. */
  method RunTool(env: Env, config: Config, before: Locals, calls: seq<Call>, k: nat, ghost settled: seq<Message>,
      ghost maxIterations: nat, ghost maxToolCalls: nat)
    returns (p: Locals, end: Option<End>)
    requires k < |calls| && !calls[k].submit && InResponse(before, settled, calls, k, maxIterations, maxToolCalls)
    requires config.maxToolCalls <= maxToolCalls
    ensures Onward(before, p, maxToolCalls)
    ensures end.None? ==>
      InResponse(p, settled, calls, k + 1, maxIterations, maxToolCalls) && p.executed == before.executed + [calls[k]]
    ensures end == ToolEnd(env, config, before, calls[k])
    ensures p.messages ==
      before.messages + if end.None? then [Tool(calls[k].id, env.execute(before.tick + 2, calls[k]).ok)] else []
    ensures p.rejections == before.rejections
    ensures end.None? ==> p.tick == before.tick + 3 && p.usage.toolCalls == before.usage.toolCalls + 1
  {
    hide Answering;
    p := before;
    if p.usage.toolCalls >= config.maxToolCalls { return p, Some(Failed(ToolBudget)); }
    var ok;
    p, ok := SafePoint(env, p);
    if !ok { return p, Some(Failed(Cancelled)); }
    var reply := env.execute(p.tick, calls[k]);
    p := p.(usage := p.usage.(toolCalls := p.usage.toolCalls + 1), executed := p.executed + [calls[k]],
      tick := p.tick + 1);
    if reply.NotRun? { return p, Some(Failed(Refused(reply.reason))); }
    CallAnswered(p.messages, settled, calls, k, reply.ok);
    Noted(p, Tool(calls[k].id, reply.ok));
    p := Push(p, Tool(calls[k].id, reply.ok));
    end := None;
  }

  /** The calls before the `k`th: submissions were not valid, and the tools were run. */
  ghost predicate Tried(calls: seq<Call>, p: Locals, k: nat) {
    k <= |calls| && forall j :: 0 <= j < k ==> if calls[j].submit then !calls[j].valid else calls[j] in p.executed
  }

  lemma OneMoreTried(calls: seq<Call>, entered: Locals, p: Locals, k: nat, maxToolCalls: nat)
    requires k < |calls| && Tried(calls, entered, k) && Onward(entered, p, maxToolCalls)
    requires if calls[k].submit then !calls[k].valid else p.executed == entered.executed + [calls[k]]
    ensures Tried(calls, p, k + 1)
  {
  }

  /** Answers the calls of one response in order, until a valid submission or an error ends the run. */
  method AnswerCalls(env: Env, config: Config, before: Locals, calls: seq<Call>, ghost settled: seq<Message>,
      ghost maxIterations: nat, ghost maxToolCalls: nat)
    returns (p: Locals, end: Option<End>)
    requires InResponse(before, settled, calls, 0, maxIterations, maxToolCalls) && config.maxToolCalls <= maxToolCalls
    ensures Onward(before, p, maxToolCalls)
    ensures end.None? ==> Settled(p.messages) && Tallied(p, maxIterations, maxToolCalls)
    ensures end.None? ==> Tried(calls, p, |calls|)
    ensures end.Some? && end.value.Submitted? ==>
      end.value.call in calls && end.value.call.submit && end.value.call.valid
    ensures exists k: nat :: AnsweredTo(env, config, before, calls, p, end, k)
  {
    hide InResponse, Settled, Verdict, Partway, AnsweredTo, Tried, Onward;
    p, end := before, None;
    NoneAnswered(env, config, before, calls, maxToolCalls, settled, maxIterations);
    for k := 0 to |calls|
      invariant InResponse(p, settled, calls, k, maxIterations, maxToolCalls) && Onward(before, p, maxToolCalls)
      invariant Partway(env, config, before, calls, p, k) && Tried(calls, p, k) && end.None?
    {
      ghost var entered := p;
      p, end := AnswerCall(env, config, p, calls, k, before, settled, maxIterations, maxToolCalls);
      OnwardTwice(before, entered, p, maxToolCalls);
      if end.Some? { return; }
    }
    AllOfThem(env, config, before, calls, p, settled, maxIterations, maxToolCalls);
  }

  /** Answers one call of a response. */
  method AnswerCall(env: Env, config: Config, entered: Locals, calls: seq<Call>, k: nat, ghost before: Locals,
      ghost settled: seq<Message>, ghost maxIterations: nat, ghost maxToolCalls: nat)
    returns (p: Locals, end: Option<End>)
    requires k < |calls| && InResponse(entered, settled, calls, k, maxIterations, maxToolCalls)
    requires config.maxToolCalls <= maxToolCalls
    requires Partway(env, config, before, calls, entered, k) && Tried(calls, entered, k)
    ensures Onward(entered, p, maxToolCalls) && end == Verdict(env, config, before, calls, k)
    ensures end.Some? ==> AnsweredTo(env, config, before, calls, p, end, k)
    ensures end.None? ==> InResponse(p, settled, calls, k + 1, maxIterations, maxToolCalls)
    ensures end.None? ==> Partway(env, config, before, calls, p, k + 1) && Tried(calls, p, k + 1)
    ensures end.Some? && end.value.Submitted? ==> end.value.call == calls[k] && calls[k].submit && calls[k].valid
  {
    NothingDone(entered, calls, k, settled, maxIterations, maxToolCalls);
    hide InResponse, Verdict, Partway, AnsweredTo, Tried, Onward;
    VerdictIs(env, config, before, calls, entered, k);
    if calls[k].submit {
      if calls[k].valid {
        p, end := entered, Some(Submitted(calls[k]));
      } else {
        p, end := RejectSubmission(entered, calls, k, settled, maxIterations, maxToolCalls);
      }
    } else {
      p, end := RunTool(env, config, entered, calls, k, settled, maxIterations, maxToolCalls);
    }
    if end.Some? {
      StoppedAt(env, config, before, calls, entered, p, k, end);
    } else {
      OneMoreAnswered(env, config, before, calls, entered, p, k, maxToolCalls);
      OneMoreTried(calls, entered, p, k, maxToolCalls);
    }
  }

  lemma NothingDone(p: Locals, calls: seq<Call>, k: nat, settled: seq<Message>, maxIterations: nat, maxToolCalls: nat)
    requires k <= |calls| && InResponse(p, settled, calls, k, maxIterations, maxToolCalls)
    ensures Onward(p, p, maxToolCalls)
  {
  }

  lemma OnwardTwice(before: Locals, entered: Locals, p: Locals, maxToolCalls: nat)
    requires Onward(before, entered, maxToolCalls) && Onward(entered, p, maxToolCalls)
    ensures Onward(before, p, maxToolCalls)
  {
  }

  /** The calls before the `k`th are answered and none of them ended the run. */
  ghost predicate Partway(env: Env, config: Config, before: Locals, calls: seq<Call>, p: Locals, k: nat) {
    && k <= |calls| && (forall j :: 0 <= j < k ==> Verdict(env, config, before, calls, j).None?)
    && p.messages == before.messages + Replies(env, calls[..k], before.tick)
    && p.tick == before.tick + 3 * ToolsIn(calls[..k]) && p.usage.tokens == before.usage.tokens
    && p.usage.toolCalls == before.usage.toolCalls + ToolsIn(calls[..k])
    && p.rejections == before.rejections + k - ToolsIn(calls[..k])
  }

  lemma NoneAnswered(env: Env, config: Config, before: Locals, calls: seq<Call>, maxToolCalls: nat,
      settled: seq<Message>, maxIterations: nat)
    requires InResponse(before, settled, calls, 0, maxIterations, maxToolCalls)
    ensures Partway(env, config, before, calls, before, 0) && Tried(calls, before, 0)
    ensures Onward(before, before, maxToolCalls)
  {
    NoCalls(env, before.tick);
    assert calls[..0] == [];
  }

  lemma VerdictIs(env: Env, config: Config, before: Locals, calls: seq<Call>, p: Locals, k: nat)
    requires k < |calls| && Partway(env, config, before, calls, p, k)
    ensures Verdict(env, config, before, calls, k) ==
      if !calls[k].submit then ToolEnd(env, config, p, calls[k])
      else if calls[k].valid then Some(Submitted(calls[k]))
      else if p.rejections >= 1 then Some(Failed(InvalidResult)) else None
    ensures p.usage.tokens == before.usage.tokens
  {
    hide Replies, ToolsIn;
  }

  lemma StoppedAt(env: Env, config: Config, before: Locals, calls: seq<Call>, entered: Locals, p: Locals, k: nat,
      end: Option<End>)
    requires k < |calls| && Partway(env, config, before, calls, entered, k) && p.messages == entered.messages
    requires end.Some? && end == Verdict(env, config, before, calls, k)
    ensures AnsweredTo(env, config, before, calls, p, end, k)
  {
    hide Replies, ToolsIn, Verdict;
  }

  lemma OneMoreAnswered(env: Env, config: Config, before: Locals, calls: seq<Call>, entered: Locals, p: Locals, k: nat,
      maxToolCalls: nat)
    requires k < |calls| && Partway(env, config, before, calls, entered, k)
    requires Verdict(env, config, before, calls, k).None? && Onward(entered, p, maxToolCalls)
    requires var c := calls[k];
      if c.submit then
        && p.messages == entered.messages + [Tool(c.id, false), User(RejectionNote)] && p.tick == entered.tick
        && p.rejections == entered.rejections + 1 && p.usage.toolCalls == entered.usage.toolCalls
      else
        && p.messages == entered.messages + [Tool(c.id, Worked(env.execute(entered.tick + 2, c)))]
        && p.tick == entered.tick + 3 && p.rejections == entered.rejections
        && p.usage.toolCalls == entered.usage.toolCalls + 1
    ensures Partway(env, config, before, calls, p, k + 1)
  {
    OneReply(env, calls, k, before.tick);
    hide Replies, ToolsIn, Verdict;
  }

  lemma AllOfThem(env: Env, config: Config, before: Locals, calls: seq<Call>, p: Locals, settled: seq<Message>,
      maxIterations: nat, maxToolCalls: nat)
    requires Partway(env, config, before, calls, p, |calls|)
    requires InResponse(p, settled, calls, |calls|, maxIterations, maxToolCalls)
    ensures AnsweredTo(env, config, before, calls, p, None, |calls|) && p.usage.tokens == before.usage.tokens
    ensures Settled(p.messages) && Tallied(p, maxIterations, maxToolCalls)
  {
    AllAnswered(p.messages, settled, calls);
    assert calls[..|calls|] == calls;
    hide Replies, ToolsIn, Verdict, Answering, Settled;
  }

  lemma NoCalls(env: Env, t: nat)
    ensures Replies(env, [], t) == [] && ToolsIn([]) == 0
  {
  }

  lemma OneReply(env: Env, calls: seq<Call>, k: nat, t: nat)
    requires k < |calls|
    ensures var c, front, tools := calls[k], calls[..k], ToolsIn(calls[..k]);
      && ToolsIn(calls[..k + 1]) == tools + (if c.submit then 0 else 1)
      && Replies(env, calls[..k + 1], t) == Replies(env, front, t) +
           if c.submit then [Tool(c.id, false), User(RejectionNote)]
           else [Tool(c.id, Worked(env.execute(t + 3 * tools + 2, c)))]
  {
    assert calls[..k + 1][..k] == calls[..k];
  }

  /** No configuration the run sees allows more than this. */
  ghost predicate Capped(env: Env, config: Config, maxIterations: nat, maxToolCalls: nat) {
    && config.maxIterations <= maxIterations && config.maxToolCalls <= maxToolCalls
    && forall t :: env.news(t).Changed? ==>
      env.news(t).config.maxIterations <= maxIterations && env.news(t).config.maxToolCalls <= maxToolCalls
  }

  /** The limits of the field types cap every run. */
  lemma EveryRunIsCapped(env: Env, config: Config)
    ensures Capped(env, config, 0xFFFF_FFFF, 0xFFFF_FFFF)
  {
  }

  /** One turn up to the model request: None, or how the run ends before it. */
  method BeforeRequest(env: Env, config: Config, before: Locals, ghost maxIterations: nat, ghost maxToolCalls: nat)
    returns (p: Locals, current: Config, end: Option<End>)
    requires Settled(before.messages) && Tallied(before, maxIterations, maxToolCalls) &&
      Capped(env, config, maxIterations, maxToolCalls)
    ensures Settled(p.messages) && Tallied(p, maxIterations, maxToolCalls) &&
      Capped(env, current, maxIterations, maxToolCalls)
    ensures p == before.(messages := p.messages, tick := p.tick, usage := p.usage)
    ensures p.messages == before.messages + Taken(env, before.tick)
    ensures p.usage == before.usage.(iterations := p.usage.iterations, modelCalls := p.usage.modelCalls)
    ensures p.usage.iterations == before.usage.iterations + if end.None? then 1 else 0
    ensures end == BeforeEnd(env, config, before)
    ensures end.None? ==> current == Current(env, config, before.tick) && p.tick == before.tick + 5
  {
    current, end := config, None;
    var ok;
    p, ok := SafePoint(env, before);
    if !ok { end := Some(Failed(Cancelled)); return; }
    var news := env.news(p.tick);
    p := p.(tick := p.tick + 1);
    if news.Broken? { end := Some(Failed(InvalidConfig)); return; }
    if news.Changed? { current := news.config; }
    p := DrainDirectives(env, p, maxIterations, maxToolCalls);
    if env.late(p.tick) { end := Some(Failed(Timeout)); return; }
    if p.usage.iterations >= current.maxIterations { end := Some(Failed(IterationBudget)); return; }
    p := p.(usage := p.usage.(iterations := p.usage.iterations + 1, modelCalls := p.usage.modelCalls + 1),
      tick := p.tick + 1);
  }

  /** One model request on a settled transcript, and what its response leads to. */
  method Request(env: Env, initial: seq<Message>, config: Config, before: Locals, ghost maxIterations: nat,
      ghost maxToolCalls: nat)
    returns (p: Locals, end: Option<End>)
    requires Settled(before.messages) && Tallied(before, maxIterations, maxToolCalls) &&
      config.maxToolCalls <= maxToolCalls
    ensures p.usage.toolCalls <= maxToolCalls && p.usage.iterations == before.usage.iterations == p.usage.modelCalls
    ensures end.None? ==> Settled(p.messages) && Tallied(p, maxIterations, maxToolCalls)
    ensures Handled(env, initial, config, before, p, end)
    ensures end.Some? && end.value.Submitted? ==>
      end.value.call.submit && end.value.call.valid && Offered(env, initial + before.messages, end.value.call)
  {
    hide Settled, Answering, Count, Verdict, Replies, ToolsIn;
    var reply := env.complete(before.tick, initial + before.messages);
    p := before.(tick := before.tick + 1);
    if reply.Error? { return p, Some(Failed(Provider(reply.reason))); }
    p := p.(usage := p.usage.(tokens := Min(p.usage.tokens + reply.tokens, U64_MAX)));
    if config.maxTotalTokens > 0 && p.usage.tokens > config.maxTotalTokens { return p, Some(Failed(TokenBudget)); }
    if !env.safe(p.tick) { return p, Some(Failed(Cancelled)); }
    p := p.(tick := p.tick + 1);
    if reply.calls == [] {
      if T.Blank(reply.prose) || p.repairs >= 1 { return p, Some(Failed(InvalidResult)); }
      p := AskForRepair(p, reply.prose, maxIterations, maxToolCalls);
      end := None;
      NoCalls(env, before.tick);
      assert p.messages == before.messages + [Assistant(reply.prose, []), User(RepairNote)];
    } else {
      ResponseArrives(p.messages, reply.prose, reply.calls);
      Noted(p, Assistant(reply.prose, reply.calls));
      p := Push(p, Assistant(reply.prose, reply.calls));
      p, end := AnswerCalls(env, config, p, reply.calls, before.messages, maxIterations, maxToolCalls);
      if end.Some? && end.value.Submitted? {
        assert OfferedAt(env, initial + before.messages, end.value.call, before.tick);
      }
      assert end.None? ==> p.messages == before.messages + ResponseAdds(env, reply, before.tick + 2) by {
        assert reply.calls[..|reply.calls|] == reply.calls;
      }
    }
  }

  /** Prose without a tool call is kept, and a structured result asked for, once. */
  method AskForRepair(before: Locals, prose: string, ghost maxIterations: nat, ghost maxToolCalls: nat)
      returns (p: Locals)
    requires Settled(before.messages) && Tallied(before, maxIterations, maxToolCalls) && before.repairs == 0
    ensures Settled(p.messages) && Tallied(p, maxIterations, maxToolCalls)
    ensures p == before.(messages := before.messages + [Assistant(prose, [])] + [User(RepairNote)], repairs := 1)
  {
    PlainMessage(before.messages, Assistant(prose, []));
    PlainMessage(before.messages + [Assistant(prose, [])], User(RepairNote));
    Noted(before, Assistant(prose, []));
    Noted(Push(before, Assistant(prose, [])), User(RepairNote));
    p := Push(Push(before, Assistant(prose, [])), User(RepairNote)).(repairs := before.repairs + 1);
  }

  /** The model offered this call when asked with this transcript. */
  ghost predicate Offered(env: Env, transcript: seq<Message>, call: Call) {
    exists t :: OfferedAt(env, transcript, call, t)
  }

  ghost predicate OfferedAt(env: Env, transcript: seq<Message>, call: Call, t: nat) {
    var reply := env.complete(t, transcript);
    reply.Response? && call in reply.calls
  }

  /** What every model request looks like. */
  ghost predicate Sound(requests: seq<seq<Message>>) {
    forall k :: 0 <= k < |requests| ==>
      Settled(requests[k]) && Count(requests[k], RepairNote) <= 1 && Count(requests[k], RejectionNote) <= 1
  }

  /** `run_agent` from its first turn: the transcript appended, the requests made, and the end. */
  method RunAgent(env: Env, initial: seq<Message>, start: Config, ghost maxIterations: nat, ghost maxToolCalls: nat)
    returns (p: Locals, requests: seq<seq<Message>>, end: End)
    requires Capped(env, start, maxIterations, maxToolCalls)
    ensures Sound(requests)
    ensures Conversed(env, initial, requests)
    ensures exists config, before :: Ends(env, initial, requests, config, before, p, end)
    ensures p.usage.modelCalls == p.usage.iterations <= maxIterations &&
      |requests| <= p.usage.modelCalls <= |requests| + 1
    ensures p.usage.toolCalls <= maxToolCalls
    ensures end.Submitted? ==> end.call.submit && end.call.valid
    ensures end.Submitted? ==> requests != [] && Offered(env, initial + requests[|requests| - 1], end.call)
  {
    hide Settled, Count, Conversed, Handled, Said, Ready;
    var config := start;
    p, requests := Locals([], Usage(0, 0, 0, 0), 0, 0, [], 0), [];
    assert Settled([]) && Count([], RepairNote) == 0 && Count([], RejectionNote) == 0 by { NothingSaid(); }
    NothingAsked(env, initial);
    while true
      invariant Settled(p.messages) && Tallied(p, maxIterations, maxToolCalls) &&
        Capped(env, config, maxIterations, maxToolCalls)
      invariant |requests| == p.usage.iterations && Sound(requests) && Conversed(env, initial, requests)
      invariant p.tick == Ready(env, initial, requests, |requests|)
      invariant p.messages == Said(env, initial, requests, |requests|)
      decreases maxIterations - p.usage.iterations
    {
      ghost var before, was := p, config;
      var stop;
      p, config, stop := BeforeRequest(env, config, p, maxIterations, maxToolCalls);
      if stop.Some? {
        assert Ends(env, initial, requests, was, before, p, stop.value);
        return p, requests, stop.value;
      }
      if env.prompt(p.tick).Some? {
        assert Ends(env, initial, requests, was, before, p, Failed(InvalidConfig));
        return p, requests, Failed(InvalidConfig);
      }
      p := p.(tick := p.tick + 1);
      OneMoreRequest(env, initial, requests, p.messages);
      requests := requests + [p.messages];
      ghost var asked := p;
      p, stop := Request(env, initial, config, p, maxIterations, maxToolCalls);
      if stop.Some? {
        assert Ends(env, initial, requests, config, asked, p, stop.value);
        return p, requests, stop.value;
      }
      Answered(env, initial, requests, config, asked, p);
    }
  }

  lemma NothingAsked(env: Env, initial: seq<Message>)
    ensures Conversed(env, initial, []) && Ready(env, initial, [], 0) == 0 && Said(env, initial, [], 0) == []
  {
  }

  lemma {:induction false} ReadyKept(env: Env, initial: seq<Message>, requests: seq<seq<Message>>, more: seq<Message>,
      k: nat)
    requires k <= |requests|
    ensures Ready(env, initial, requests + [more], k) == Ready(env, initial, requests, k)
    ensures Said(env, initial, requests + [more], k) == Said(env, initial, requests, k)
  {
    hide Ready, Said, ResponseAdds, ToolsIn;
    NoneReady(env, initial, requests);
    NoneReady(env, initial, requests + [more]);
    if k > 0 {
      ReadyKept(env, initial, requests, more, k - 1);
      assert (requests + [more])[k - 1] == requests[k - 1];
      TurnIs(env, initial, requests, k);
      TurnIs(env, initial, requests + [more], k);
    }
  }

  lemma {:induction false} TurnIs(env: Env, initial: seq<Message>, requests: seq<seq<Message>>, k: nat)
    requires 0 < k <= |requests|
    ensures var t := TickOf(env, initial, requests, k - 1);
      var reply := env.complete(t, initial + requests[k - 1]);
      && Ready(env, initial, requests, k) == t + 2 + 3 * ToolsIn(Calls(reply))
      && Said(env, initial, requests, k) == requests[k - 1] + ResponseAdds(env, reply, t + 2)
  {
    hide ToolsIn, ResponseAdds;
  }

  lemma OneMoreRequest(env: Env, initial: seq<Message>, requests: seq<seq<Message>>, more: seq<Message>)
    requires Conversed(env, initial, requests)
    requires var n := |requests|;
      more == Said(env, initial, requests, n) + Directives(env.directives(Ready(env, initial, requests, n) + 3))
    ensures Conversed(env, initial, requests + [more])
    ensures TickOf(env, initial, requests + [more], |requests|) == Ready(env, initial, requests, |requests|) + 6
  {
    hide Said, Ready;
    var all, n := requests + [more], |requests|;
    ReadyKept(env, initial, requests, more, n);
    NoneReady(env, initial, requests);
    NoneReady(env, initial, all);
    forall k | 0 <= k < |all|
      ensures all[k] == Said(env, initial, all, k) + Directives(env.directives(TickOf(env, initial, all, k) - 3))
    {
      ReadyKept(env, initial, requests, more, k);
    }
  }

  lemma NoneReady(env: Env, initial: seq<Message>, requests: seq<seq<Message>>)
    ensures Ready(env, initial, requests, 0) == 0 && Said(env, initial, requests, 0) == []
  {
  }

  /** After the response the next turn begins where the record says. */
  lemma Answered(env: Env, initial: seq<Message>, requests: seq<seq<Message>>, config: Config, asked: Locals, p: Locals)
    requires requests != [] && asked.messages == requests[|requests| - 1]
    requires asked.tick == TickOf(env, initial, requests, |requests| - 1)
    requires Handled(env, initial, config, asked, p, None)
    ensures p.tick == Ready(env, initial, requests, |requests|)
    ensures p.messages == Said(env, initial, requests, |requests|)
  {
    hide AnsweredTo, ResponseAdds, ToolsIn, Ready, Said;
    TurnIs(env, initial, requests, |requests|);
  }

  /** `run_agent` as its callers have it, without a demand on them: an activation whose configuration
      does not change stays within its budgets, and any activation within those of the field types. */
  method RunActivation(env: Env, initial: seq<Message>, start: Config)
    returns (p: Locals, requests: seq<seq<Message>>, end: End)
    ensures Sound(requests)
    ensures Conversed(env, initial, requests)
    ensures exists config, before :: Ends(env, initial, requests, config, before, p, end)
    ensures p.usage.modelCalls == p.usage.iterations <= 0xFFFF_FFFF && p.usage.toolCalls <= 0xFFFF_FFFF
    ensures (forall t :: !env.news(t).Changed?) ==>
      p.usage.iterations <= start.maxIterations && p.usage.toolCalls <= start.maxToolCalls
    ensures end.Submitted? ==> end.call.submit && end.call.valid
    ensures end.Submitted? ==> requests != [] && Offered(env, initial + requests[|requests| - 1], end.call)
  {
    EveryRunIsCapped(env, start);
    ghost var steady := forall t :: !env.news(t).Changed?;
    ghost var iterations: nat := if steady then start.maxIterations else 0xFFFF_FFFF;
    ghost var calls: nat := if steady then start.maxToolCalls else 0xFFFF_FFFF;
    p, requests, end := RunAgent(env, initial, start, iterations, calls);
  }

  lemma NothingSaid()
    ensures Settled([]) && Count([], RepairNote) == 0 && Count([], RejectionNote) == 0
  {
  }
}
