/** Trimming message by message is trimming the whole conversation at once. */
module ConversationTrimming {
  import opened Wrappers
  import opened Conversation

  function Systems(ms: seq<Message>): seq<Message> {
    if ms == [] then []
    else if ms[|ms| - 1].role == System then Systems(ms[..|ms| - 1]) + [ms[|ms| - 1]]
    else Systems(ms[..|ms| - 1])
  }

  /** All system messages, and every message from position `c` on, in their order. */
  function Cut(all: seq<Message>, c: nat): (kept: seq<Message>)
    requires c <= |all|
    ensures |kept| <= |all|
  {
    SystemsAreSystems(all[..c]);
    Systems(all[..c]) + all[c..]
  }

  /** The least cut from `c` on that fits. */
  function LeastCut(all: seq<Message>, limits: Limits, c: nat): (r: nat)
    requires c <= |all|
    ensures c <= r <= |all| && (r < |all| ==> Fits(Cut(all, r), limits))
    ensures forall k :: c <= k < r ==> !Fits(Cut(all, k), limits)
    decreases |all| - c
  {
    if c == |all| || Fits(Cut(all, c), limits) then c else LeastCut(all, limits, c + 1)
  }

  /** The system messages and the longest suffix of the rest that fits, at one stroke. */
  function Batch(all: seq<Message>, limits: Limits): Result<Kept> {
    if limits.policy == Error then
      if Fits(all, limits) then Ok(Kept(all, 0)) else Err(Overflow)
    else if !Fits(Systems(all), limits) then Err(Overflow)
    else
      var kept := Cut(all, LeastCut(all, limits, 0));
      Ok(Kept(kept, |all| - |kept|))
  }

  // ---------------------------------------------------------------- sizes

  lemma {:induction false} TokensAppend(a: seq<Message>, b: seq<Message>)
    ensures EstimateTokens(a + b) == EstimateTokens(a) + EstimateTokens(b)
  {
    if b == [] {
      assert a + b == a;
    } else {
      assert (a + b)[..|a + b| - 1] == a + b[..|b| - 1];
      TokensAppend(a, b[..|b| - 1]);
    }
  }

  lemma {:induction false} SystemsAppend(a: seq<Message>, b: seq<Message>)
    ensures Systems(a + b) == Systems(a) + Systems(b)
  {
    if b == [] {
      assert a + b == a;
    } else {
      assert (a + b)[..|a + b| - 1] == a + b[..|b| - 1];
      SystemsAppend(a, b[..|b| - 1]);
    }
  }

  lemma {:induction false} SystemsAreSystems(ms: seq<Message>)
    ensures forall k :: 0 <= k < |Systems(ms)| ==> Systems(ms)[k].role == System
    ensures |Systems(ms)| <= |ms| && EstimateTokens(Systems(ms)) <= EstimateTokens(ms)
  {
    if ms != [] {
      SystemsAreSystems(ms[..|ms| - 1]);
      TokensAppend(Systems(ms[..|ms| - 1]), [ms[|ms| - 1]]);
    }
  }

  /** One message further: a system message stays, any other goes. */
  lemma CutStep(all: seq<Message>, c: nat)
    requires c < |all|
    ensures all[c].role == System ==> Cut(all, c + 1) == Cut(all, c)
    ensures all[c].role != System ==> Removable(Cut(all, c)) == |Systems(all[..c])| < |Cut(all, c)|
    ensures all[c].role != System ==> Without(Cut(all, c), |Systems(all[..c])|) == Cut(all, c + 1)
  {
    var s := Systems(all[..c]);
    SystemsAreSystems(all[..c]);
    assert all[..c + 1][..c] == all[..c];
    assert all[c..] == [all[c]] + all[c + 1..];
    assert Cut(all, c)[|s|] == all[c];
    assert s + [all[c]] + all[c + 1..] == s + ([all[c]] + all[c + 1..]);
  }

  lemma CutSizes(all: seq<Message>, c: nat)
    requires c < |all|
    ensures |Cut(all, c + 1)| <= |Cut(all, c)| && EstimateTokens(Cut(all, c + 1)) <= EstimateTokens(Cut(all, c))
  {
    hide Systems, EstimateTokens, Cut, Without;
    CutStep(all, c);
    if all[c].role != System { WithoutSizes(Cut(all, c), |Systems(all[..c])|); }
  }

  lemma WithoutSizes(ms: seq<Message>, k: nat)
    requires k < |ms|
    ensures |Without(ms, k)| < |ms| && EstimateTokens(Without(ms, k)) <= EstimateTokens(ms)
  {
    hide EstimateTokens;
    TokensAppend(ms[..k], ms[k..]);
    TokensAppend([ms[k]], ms[k + 1..]);
    TokensAppend(ms[..k], ms[k + 1..]);
    assert ms == ms[..k] + ms[k..] && ms[k..] == [ms[k]] + ms[k + 1..];
  }

  lemma CutGrows(all: seq<Message>, m: Message, c: nat)
    requires c <= |all|
    ensures Cut(all + [m], c) == Cut(all, c) + [m]
  {
    assert (all + [m])[..c] == all[..c] && (all + [m])[c..] == all[c..] + [m];
  }

  lemma Heavier(ms: seq<Message>, m: Message, limits: Limits)
    ensures Fits(ms + [m], limits) ==> Fits(ms, limits)
  {
    TokensAppend(ms, [m]);
  }

  lemma LeastCutIs(all: seq<Message>, limits: Limits, from: nat, c: nat)
    requires from <= c <= |all| && Fits(Cut(all, c), limits) && forall k :: from <= k < c ==> !Fits(Cut(all, k), limits)
    ensures LeastCut(all, limits, from) == c
  {
  }

  // ---------------------------------------------------------------- one push

  /** Enforcing the limits on a cut moves the cut to the least one that fits. */
  lemma {:induction false} EnforceMovesCut(all: seq<Message>, c: nat, limits: Limits)
    requires c <= |all| && limits.policy == TrimOldest && forall k :: 0 <= k < c ==> !Fits(Cut(all, k), limits)
    ensures var r := Enforce(Cut(all, c), limits);
      if !Fits(Systems(all), limits) then r == Err(Overflow)
      else
        && r.Ok? && r.value.messages == Cut(all, LeastCut(all, limits, 0))
        && r.value.trimmed + |r.value.messages| == |Cut(all, c)|
    decreases |all| - c
  {
    hide Fits, Removable, Systems;
    if Fits(Cut(all, c), limits) {
      LeastCutIs(all, limits, 0, c);
      if !Fits(Systems(all), limits) { SystemsFit(all, c, limits); }
    } else if c == |all| {
      assert Cut(all, c) == Systems(all) by { assert all[..c] == all && all[c..] == []; }
      SystemsAreSystems(all);
      assert Removable(Systems(all)) == |Systems(all)| by { NoneRemovable(Systems(all)); }
    } else {
      CutStep(all, c);
      EnforceMovesCut(all, c + 1, limits);
    }
  }

  lemma NoneRemovable(ms: seq<Message>)
    requires forall k :: 0 <= k < |ms| ==> ms[k].role == System
    ensures Removable(ms) == |ms|
  {
  }

  lemma {:induction false} SystemsFit(all: seq<Message>, c: nat, limits: Limits)
    requires c <= |all| && Fits(Cut(all, c), limits)
    ensures Fits(Systems(all), limits)
    decreases |all| - c
  {
    if c < |all| {
      CutSizes(all, c);
      SystemsFit(all, c + 1, limits);
    } else {
      assert all[..c] == all && Cut(all, c) == Systems(all);
    }
  }

  lemma PushOne(ms: seq<Message>, front: seq<Message>, m: Message, limits: Limits)
    ensures Push(ms, front + [m], limits) ==
      if Push(ms, front, limits).Err? then Push(ms, front, limits)
      else Continue(Push(ms, front, limits).value, Enforce(Push(ms, front, limits).value.messages + [m], limits))
  {
    assert (front + [m])[..|front|] == front;
  }

  lemma {:induction false} TrimmingIsBatch(all: seq<Message>, limits: Limits)
    requires limits.policy == TrimOldest
    ensures Push([], all, limits) == Batch(all, limits)
  {
    hide Fits, Systems, Removable, Enforce, Push;
    if all == [] {
      NothingPushed(limits);
    } else {
      var front, m := all[..|all| - 1], all[|all| - 1];
      assert front + [m] == all;
      TrimmingIsBatch(front, limits);
      PushOne([], front, m, limits);
      SystemsAppend(front, [m]);
      if Fits(Systems(front), limits) {
        var c := LeastCut(front, limits, 0);
        forall k | 0 <= k < c ensures !Fits(Cut(all, k), limits) {
          CutGrows(front, m, k);
          Heavier(Cut(front, k), m, limits);
        }
        CutGrows(front, m, c);
        EnforceMovesCut(all, c, limits);
      } else if Fits(Systems(all), limits) {
        OneMoreSystem(front, m, limits);
      }
    }
  }

  lemma OneMoreSystem(front: seq<Message>, m: Message, limits: Limits)
    requires Fits(Systems(front + [m]), limits)
    ensures Fits(Systems(front), limits)
  {
  }

  lemma NothingPushed(limits: Limits)
    requires limits.policy == TrimOldest
    ensures Push([], [], limits) == Batch([], limits)
  {
  }

  lemma {:induction false} RefusingIsBatch(all: seq<Message>, limits: Limits)
    requires limits.policy == Error
    ensures Push([], all, limits) == Batch(all, limits)
  {
    if all != [] {
      var front, m := all[..|all| - 1], all[|all| - 1];
      assert front + [m] == all;
      RefusingIsBatch(front, limits);
      Heavier(front, m, limits);
    }
  }

  /** Message by message or at one stroke: the same messages stay, or the same error. */
  lemma PushIsBatch(all: seq<Message>, limits: Limits)
    ensures Push([], all, limits) == Batch(all, limits)
  {
    if limits.policy == Error { RefusingIsBatch(all, limits); } else { TrimmingIsBatch(all, limits); }
  }

  // ---------------------------------------------------------------- any split into activations

  lemma {:induction false} PushAppend(ms: seq<Message>, a: seq<Message>, b: seq<Message>, limits: Limits)
    ensures Push(ms, a + b, limits) ==
      if Push(ms, a, limits).Err? then Push(ms, a, limits)
      else Continue(Push(ms, a, limits).value, Push(Push(ms, a, limits).value.messages, b, limits))
  {
    hide Enforce;
    if b == [] {
      assert a + b == a;
    } else {
      assert (a + b)[..|a + b| - 1] == a + b[..|b| - 1];
      PushAppend(ms, a, b[..|b| - 1], limits);
    }
  }

  /** One activation of a context node. */
  datatype Activation = Activation(initial: Option<seq<Message>>, ms: seq<Message>, rs: seq<ToolResult>)

  function Appended(a: Activation): seq<Message> {
    a.ms + ResultMessages(a.rs)
  }

  /** Everything the node was given, in order. */
  function Given(acts: seq<Activation>): seq<Message> {
    if acts == [] then []
    else if |acts| == 1 then (if acts[0].initial.Some? then acts[0].initial.value else []) + Appended(acts[0])
    else Given(acts[..|acts| - 1]) + Appended(acts[|acts| - 1])
  }

  /** The node's activations up to the first that fails: the store, and the drops reported. */
  function Activations(s: Store, node: string, acts: seq<Activation>, limits: Limits): (Store, Result<nat>) {
    if acts == [] then (s, Ok(0))
    else
      var a := acts[|acts| - 1];
      var (t, before) := Activations(s, node, acts[..|acts| - 1], limits);
      if before.Err? then (t, before)
      else
        var (u, r) := UpdateContext(t, node, a.initial, a.ms, a.rs, limits);
        (u, if r.Err? then Err(r.code) else Ok(before.value + r.value.trimmed))
  }

  /** What the first activation drops while initialising and does not report, because the
      snapshot of its append replaces the one of its initialisation. */
  function Unreported(first: Activation, limits: Limits): nat {
    if first.initial.Some? && Appended(first) != [] && Push([], first.initial.value, limits).Ok?
    then Push([], first.initial.value, limits).value.trimmed else 0
  }

  ghost predicate Opened(s: Store, node: string) {
    node in s.handles && s.handles[node] in s.entries
  }

  /** The node keeps a handle whose entry is gone. */
  ghost predicate Lost(s: Store, node: string) {
    node in s.handles && s.handles[node] !in s.entries
  }

  lemma FirstActivation(s: Store, node: string, a: Activation, limits: Limits)
    requires node !in s.handles && a.initial.Some? && a.initial.value != []
    ensures var (t, r) := UpdateContext(s, node, a.initial, a.ms, a.rs, limits);
      var b := Batch(a.initial.value + Appended(a), limits);
      if b.Err? then r == Err(Overflow) && node !in t.handles
      else
        && r.Ok? && Opened(t, node) && t.entries[t.handles[node]] == b.value.messages == r.value.messages
        && r.value.trimmed + Unreported(a, limits) == b.value.trimmed
  {
    hide Batch, Push;
    var x, y := a.initial.value, Appended(a);
    PushIsBatch(x + y, limits);
    PushAppend([], x, y, limits);
    PushIsBatch(x, limits);
    BatchErrs(x, limits);
    BatchErrs(x + y, limits);
    if y == [] { assert x + y == x && a.ms == [] && a.rs == []; }
  }

  lemma BatchErrs(all: seq<Message>, limits: Limits)
    ensures Batch(all, limits).Err? ==> Batch(all, limits).code == Overflow
  {
  }

  lemma LaterActivation(s: Store, node: string, given: seq<Message>, a: Activation, limits: Limits)
    requires Opened(s, node) && Batch(given, limits).Ok? &&
      s.entries[s.handles[node]] == Batch(given, limits).value.messages
    ensures var (t, r) := UpdateContext(s, node, a.initial, a.ms, a.rs, limits);
      var b := Batch(given + Appended(a), limits);
      if b.Err? then r == Err(Overflow) && Lost(t, node)
      else
        && r.Ok? && Opened(t, node) && t.entries[t.handles[node]] == b.value.messages == r.value.messages
        && Batch(given, limits).value.trimmed + r.value.trimmed == b.value.trimmed
  {
    hide Batch, Push;
    PushIsBatch(given + Appended(a), limits);
    PushAppend([], given, Appended(a), limits);
    PushIsBatch(given, limits);
    BatchErrs(given + Appended(a), limits);
  }

  lemma {:induction false} BatchErrStays(a: seq<Message>, b: seq<Message>, limits: Limits)
    requires Batch(a, limits).Err?
    ensures Batch(a + b, limits).Err?
  {
    PushIsBatch(a, limits);
    PushIsBatch(a + b, limits);
    PushAppend([], a, b, limits);
  }

  /** A node given its conversation in any activations stores what the whole conversation at one
      stroke would leave; some activation fails exactly when that would, and then the node has no
      entry, for good if its first activation succeeded; and what the activations report dropped
      adds up to what was dropped, short of what the first one dropped from its initial messages
      and did not report. */
  lemma {:induction false} ActivationsAreBatch(s: Store, node: string, acts: seq<Activation>, limits: Limits)
    requires node !in s.handles && acts != [] && acts[0].initial.Some? && acts[0].initial.value != []
    ensures var (t, total) := Activations(s, node, acts, limits);
      var b := Batch(Given(acts), limits);
      if b.Err? then
        && total == Err(Overflow) && !Opened(t, node)
        && (Lost(t, node) <==> Batch(Given(acts[..1]), limits).Ok?)
      else
        && total.Ok? && Opened(t, node) && t.entries[t.handles[node]] == b.value.messages
        && total.value + Unreported(acts[0], limits) == b.value.trimmed
        && Batch(Given(acts[..1]), limits).Ok?
  {
    hide Batch, UpdateContext, Unreported;
    if |acts| == 1 {
      assert acts[..0] == [] && acts[..1] == acts;
      FirstActivation(s, node, acts[0], limits);
    } else {
      var front, a := acts[..|acts| - 1], acts[|acts| - 1];
      assert front[..1] == acts[..1];
      ActivationsAreBatch(s, node, front, limits);
      var t := Activations(s, node, front, limits).0;
      if Batch(Given(front), limits).Ok? {
        LaterActivation(t, node, Given(front), a, limits);
      } else {
        BatchErrStays(Given(front), Appended(a), limits);
        BatchErrs(Given(front) + Appended(a), limits);
      }
    }
  }

  lemma {:induction false} AllSystems(ms: seq<Message>)
    requires |Systems(ms)| == |ms|
    ensures Systems(ms) == ms
  {
    if ms != [] {
      SystemsAreSystems(ms[..|ms| - 1]);
      AllSystems(ms[..|ms| - 1]);
    }
  }

  lemma NothingDroppedIff(all: seq<Message>, limits: Limits)
    requires Batch(all, limits).Ok?
    ensures Batch(all, limits).value.trimmed == 0 <==> Fits(all, limits)
  {
    hide Fits, Systems;
    assert all[..0] == [] && all[0..] == all;
    assert Cut(all, 0) == all by { NoSystems(); }
    var c := LeastCut(all, limits, 0);
    if limits.policy == TrimOldest && |Cut(all, c)| == |all| {
      SystemsAreSystems(all[..c]);
      AllSystems(all[..c]);
      assert Cut(all, c) == all;
      if c == |all| { assert Cut(all, c) == Systems(all) by { assert all[..c] == all; } }
    }
  }

  lemma NoSystems()
    ensures Systems([]) == []
  {
  }

  /** So the reported drops add up exactly when the first activation's initial messages all fit,
      or nothing was appended with them. */
  lemma ReportsAddUpIff(s: Store, node: string, acts: seq<Activation>, limits: Limits)
    requires node !in s.handles && acts != [] && acts[0].initial.Some? && acts[0].initial.value != []
    requires Batch(Given(acts), limits).Ok?
    ensures Activations(s, node, acts, limits).1 == Ok(Batch(Given(acts), limits).value.trimmed) <==>
      Appended(acts[0]) == [] || Fits(acts[0].initial.value, limits)
  {
    hide Batch, Activations, Fits, Push;
    ActivationsAreBatch(s, node, acts, limits);
    var x := acts[0].initial.value;
    PushIsBatch(x, limits);
    InitialFits(acts, limits);
    NothingDroppedIff(x, limits);
  }

  const ONE := Limits(1, 100, TrimOldest)

  function Said(content: string): Message {
    Message(User, content, [], "", "")
  }

  /** With room for one message, a first activation with two initial messages and one appended
      drops two and reports one. */
  lemma DropGoesUnreported()
    ensures var x, m := [Said("a"), Said("b")], Said("c");
      && UpdateContext(Store(map[], map[], 0), "node", Some(x), [m], [], ONE).1 == Ok(Snapshot(0, [m], 1))
      && Push([], x + [m], ONE) == Ok(Kept([m], 2))
  {
    hide Push;
    var a, b, m := Said("a"), Said("b"), Said("c");
    var x := [a, b];
    TwoPushed(a, b);
    TwoPushed(b, m);
    ThreePushed(a, b, m);
    assert x + [m] == [a, b, m] && [m] + ResultMessages([]) == [m];
  }

  lemma PushOnto(front: seq<Message>, m: Message, limits: Limits)
    requires Push([], front, limits).Ok?
    ensures var kept := Push([], front, limits).value;
      Push([], front + [m], limits) == Continue(kept, Enforce(kept.messages + [m], limits))
  {
    assert (front + [m])[..|front|] == front;
  }

  /** One message is kept, and the next one takes its place. */
  lemma TwoPushed(a: Message, b: Message)
    requires a == Said(a.content) && |a.content| == 1 && b == Said(b.content) && |b.content| == 1
    ensures Push([], [a, b], ONE) == Ok(Kept([b], 1)) && Push([a], [b], ONE) == Ok(Kept([b], 1))
  {
    hide Enforce, Fits;
    OneStays(a);
    OneReplaces(a, b);
    PushOnto([], a, ONE);
    PushOnto([a], b, ONE);
    assert [] + [a] == [a] && [a] + [b] == [a, b] && [b][..0] == [];
    assert Push([], [], ONE) == Ok(Kept([], 0)) && Push([a], [], ONE) == Ok(Kept([a], 0));
  }

  lemma ThreePushed(a: Message, b: Message, m: Message)
    requires a == Said(a.content) && |a.content| == 1 && b == Said(b.content) && |b.content| == 1
    requires m == Said(m.content) && |m.content| == 1
    ensures Push([], [a, b, m], ONE) == Ok(Kept([m], 2))
  {
    hide Enforce, Fits, Push;
    TwoPushed(a, b);
    OneReplaces(b, m);
    PushOnto([a, b], m, ONE);
    assert [a, b] + [m] == [a, b, m];
  }

  lemma OneStays(m: Message)
    requires m == Said(m.content) && |m.content| == 1
    ensures Enforce([m], ONE) == Ok(Kept([m], 0))
  {
    assert [m][..0] == [] && EstimateTokens([]) == 0 && CallTokens([]) == 0;
  }

  lemma OneReplaces(old': Message, m: Message)
    requires m == Said(m.content) && |m.content| == 1 && old'.role == User
    ensures Enforce([old'] + [m], ONE) == Ok(Kept([m], 1))
  {
    OneStays(m);
    var ms := [old'] + [m];
    assert Without(ms, 0) == [m];
    assert Removable(ms) == 0 && !Fits(ms, ONE);
  }

  lemma {:induction false} InitialFits(acts: seq<Activation>, limits: Limits)
    requires acts != [] && acts[0].initial.Some? && Batch(Given(acts), limits).Ok?
    ensures Batch(acts[0].initial.value, limits).Ok?
  {
    hide Batch;
    if |acts| == 1 {
      if Batch(acts[0].initial.value, limits).Err? { BatchErrStays(acts[0].initial.value, Appended(acts[0]), limits); }
    } else {
      var front := acts[..|acts| - 1];
      if Batch(Given(front), limits).Err? { BatchErrStays(Given(front), Appended(acts[|acts| - 1]), limits); }
      InitialFits(front, limits);
    }
  }

  /** What the limits must leave room for: under TrimOldest the system messages alone. */
  function Kernel(all: seq<Message>, limits: Limits): seq<Message> {
    if limits.policy == TrimOldest then Systems(all) else all
  }

  lemma BatchErrIff(all: seq<Message>, limits: Limits)
    ensures Batch(all, limits).Err? <==> !Fits(Kernel(all, limits), limits)
  {
    hide Fits, Systems;
  }

  /** After any activations the node has its context exactly when the limits hold what cannot be
      dropped of everything it was given.  Otherwise the context is lost exactly when they held
      what the first activation gave: the entry was taken out and is not put back, while the node
      keeps its handle, so every later activation fails and changes nothing. */
  lemma OverflowLosesContextIff(s: Store, node: string, acts: seq<Activation>, limits: Limits)
    requires node !in s.handles && acts != [] && acts[0].initial.Some? && acts[0].initial.value != []
    ensures var t := Activations(s, node, acts, limits).0;
      && (Opened(t, node) <==> Fits(Kernel(Given(acts), limits), limits))
      && (Lost(t, node) <==>
            Fits(Kernel(Given(acts[..1]), limits), limits) && !Fits(Kernel(Given(acts), limits), limits))
      && (Lost(t, node) ==> forall later: Activation, more: Limits ::
            UpdateContext(t, node, later.initial, later.ms, later.rs, more) == (t, Err(UnknownHandle)))
  {
    hide Activations, Batch, Kernel, Fits, Given;
    ActivationsAreBatch(s, node, acts, limits);
    BatchErrIff(Given(acts), limits);
    BatchErrIff(Given(acts[..1]), limits);
  }

  /** Under the policy Error, with room for one message: the first activation is stored, the second
      loses it. */
  lemma SecondMessageLosesContext()
    ensures var limits := Limits(1, 100, Policy.Error);
      var acts := [Activation(Some([Said("a")]), [], []), Activation(None, [Said("b")], [])];
      Lost(Activations(Store(map[], map[], 0), "node", acts, limits).0, "node")
  {
    var limits := Limits(1, 100, Policy.Error);
    var acts := [Activation(Some([Said("a")]), [], []), Activation(None, [Said("b")], [])];
    OverflowLosesContextIff(Store(map[], map[], 0), "node", acts, limits);
    assert acts[..1] == [acts[0]];
    assert Given(acts[..1]) == [Said("a")] + Appended(acts[0]) == [Said("a")];
    assert |Given(acts)| == 2;
    assert Fits([Said("a")], limits) by { OneFits(Said("a"), limits); }
  }

  lemma OneFits(m: Message, limits: Limits)
    requires m == Said(m.content) && |m.content| == 1 && limits.maxMessages == 1 && limits.maxTokens == 100
    ensures Fits([m], limits)
  {
    assert [m][..0] == [] && EstimateTokens([]) == 0 && CallTokens([]) == 0;
  }
}
