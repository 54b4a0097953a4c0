/** Configuration revisions of one agent: edits queue a pending configuration, and the runner
    applies it at its next safe point. */
module AgentConfig {
  import opened Wrappers
  import opened BusSpec

  /** `settings` stands for every field `diff` compares; `valid` for what validation finds. */
  datatype Config = Config(revision: nat, settings: int, valid: bool)

  datatype EditStatus = Pending | Applied | Superseded | Rejected

  datatype Revision = Revision(number: nat, status: EditStatus, after: Config)

  /** The agent's active configuration, its history of edits, and its runtime's pending slot. */
  datatype Book = Book(config: Config, revisions: seq<Revision>, pending: Option<Config>)

  function Superseding(revisions: seq<Revision>): (r: seq<Revision>)
    ensures |r| == |revisions| && forall k :: 0 <= k < |r| ==>
      r[k] == revisions[k].(status := if revisions[k].status == Pending then Superseded else revisions[k].status)
  {
    seq(|revisions|, k requires 0 <= k < |revisions| =>
      revisions[k].(status := if revisions[k].status == Pending then Superseded else revisions[k].status))
  }

  /** `apply_config` under the state lock: the edit joins the history. */
  function Push(b: Book, next: Config, expected: nat): (Book, Result<Revision>) {
    if !next.valid || b.config.revision != expected || next.settings == b.config.settings then (b, Err(InvalidConfig))
    else
      var after := next.(revision := b.config.revision + 1);
      var revision := Revision(after.revision, Pending, after);
      (b.(revisions := Superseding(b.revisions) + [revision]), Ok(revision))
  }

  /** `apply_config` as a whole: with the lock dropped, the edit goes into the pending slot. */
  function Edit(b: Book, next: Config, expected: nat): (Book, Result<Revision>) {
    var (t, r) := Push(b, next, expected);
    (if r.Ok? then t.(pending := Some(r.value.after)) else t, r)
  }

  /** Position of the first edit with this number, or the length of the history. */
  function FirstNumbered(revisions: seq<Revision>, number: nat): (k: nat)
    ensures k <= |revisions| && (k < |revisions| ==> revisions[k].number == number)
    ensures forall j :: 0 <= j < k ==> revisions[j].number != number
    decreases |revisions|
  {
    if revisions == [] || revisions[0].number == number then 0 else FirstNumbered(revisions[1..], number) + 1
  }

  /** `mark_config_applied`: takes the first edit with that number, whatever its status. */
  function Mark(b: Book, number: nat): (Book, Result<Config>) {
    var k := FirstNumbered(b.revisions, number);
    if k == |b.revisions| then (b, Err(InvalidConfig))
    else
      var after := b.revisions[k].after;
      (b.(revisions := b.revisions[k := b.revisions[k].(status := Applied)], config := after), Ok(after))
  }

  /** `reject_config`. */
  function Reject(b: Book, number: nat): Book {
    var k := FirstNumbered(b.revisions, number);
    if k == |b.revisions| then b else b.(revisions := b.revisions[k := b.revisions[k].(status := EditStatus.Rejected)])
  }

  /** `apply_pending_config`, at the runner's safe point: takes the slot, then marks its number. */
  function ApplyPending(b: Book): (Book, Option<Config>) {
    if b.pending.None? then (b, None)
    else
      var (t, r) := Mark(b.(pending := None), b.pending.value.revision);
      (t, if r.Ok? then Some(r.value) else None)
  }

  class ConfigBook {
    var config: Config
    var revisions: seq<Revision>
    var pending: Option<Config>

    ghost function View(): Book
      reads this
    {
      Book(config, revisions, pending)
    }

    constructor (initial: Config)
      ensures View() == Book(initial, [], None)
    {
      config, revisions, pending := initial, [], None;
    }

    method PushRevision(next: Config, expected: nat) returns (r: Result<Revision>)
      modifies this
      ensures (View(), r) == Push(old(View()), next, expected)
    {
      if !next.valid || config.revision != expected || next.settings == config.settings { return Err(InvalidConfig); }
      var after := next.(revision := config.revision + 1);
      var revision := Revision(after.revision, Pending, after);
      ghost var done := Superseding(revisions);
      for k := 0 to |revisions|
        invariant |revisions| == |done| && config == old(config) && pending == old(pending)
        invariant forall j :: 0 <= j < |done| ==> revisions[j] == if j < k then done[j] else old(revisions)[j]
      {
        if revisions[k].status == Pending { revisions := revisions[k := revisions[k].(status := Superseded)]; }
      }
      assert revisions == done;
      revisions := revisions + [revision];
      r := Ok(revision);
    }

    method SetPendingConfig(next: Config)
      modifies `pending
      ensures View() == old(View()).(pending := Some(next))
    {
      pending := Some(next);
    }

    method ApplyConfig(next: Config, expected: nat) returns (r: Result<Revision>)
      modifies this
      ensures (View(), r) == Edit(old(View()), next, expected)
    {
      r := PushRevision(next, expected);
      if r.Ok? { SetPendingConfig(r.value.after); }
    }

    method Find(number: nat) returns (k: nat)
      ensures k == FirstNumbered(revisions, number)
    {
      k := 0;
      while k < |revisions| && revisions[k].number != number
        invariant k <= |revisions| && forall j :: 0 <= j < k ==> revisions[j].number != number
      {
        k := k + 1;
      }
    }

    method MarkApplied(number: nat) returns (r: Result<Config>)
      modifies this
      ensures (View(), r) == Mark(old(View()), number)
    {
      var k := Find(number);
      if k == |revisions| { return Err(InvalidConfig); }
      config := revisions[k].after;
      revisions := revisions[k := revisions[k].(status := Applied)];
      r := Ok(config);
    }

    method RejectConfig(number: nat)
      modifies this
      ensures View() == Reject(old(View()), number)
    {
      var k := Find(number);
      if k < |revisions| { revisions := revisions[k := revisions[k].(status := EditStatus.Rejected)]; }
    }

    method TakePendingConfig() returns (taken: Option<Config>)
      modifies `pending
      ensures View() == old(View()).(pending := None) && taken == old(pending)
    {
      taken := pending;
      pending := None;
    }

    method ApplyPendingConfig() returns (applied: Option<Config>)
      modifies this
      ensures (View(), applied) == ApplyPending(old(View()))
    {
      var taken := TakePendingConfig();
      if taken.None? { return None; }
      var r := MarkApplied(taken.value.revision);
      applied := if r.Ok? then Some(r.value) else None;
    }
  }

  // ---------------------------------------------------------------- histories

  /** What one locked step does.  `StepEdit` is a call of `apply_config` that nothing comes
      between; `StepPush` and `StepSet` are its two halves with other calls in between. */
  datatype Step =
    | StepEdit(next: Config, expected: nat)
    | StepPush(next: Config, expected: nat)
    | StepSet(k: nat)
    | StepTake
    | StepMark
    | StepReject(number: nat)

  /** The book with the calls in flight: edits pushed but not in the slot yet, and the number the
      runner has taken out of the slot but not marked yet. */
  datatype World = World(book: Book, late: seq<Config>, taken: Option<nat>)

  function Start(initial: Config): World {
    World(Book(initial, [], None), [], None)
  }

  function After(w: World, s: Step): World {
    match s
    case StepEdit(next, expected) => w.(book := Edit(w.book, next, expected).0)
    case StepPush(next, expected) =>
      var (b, r) := Push(w.book, next, expected);
      w.(book := b, late := if r.Ok? then w.late + [r.value.after] else w.late)
    case StepSet(k) =>
      if k >= |w.late| then w
      else w.(book := w.book.(pending := Some(w.late[k])), late := w.late[..k] + w.late[k + 1..])
    case StepTake =>
      if w.taken.Some? || w.book.pending.None? then w
      else w.(book := w.book.(pending := None), taken := Some(w.book.pending.value.revision))
    case StepMark => if w.taken.None? then w else w.(book := Mark(w.book, w.taken.value).0, taken := None)
    case StepReject(number) => w.(book := Reject(w.book, number))
  }

  function Run(w: World, steps: seq<Step>): World {
    if steps == [] then w else After(Run(w, steps[..|steps| - 1]), steps[|steps| - 1])
  }

  lemma RunOne(w: World, front: seq<Step>, s: Step)
    ensures Run(w, front + [s]) == After(Run(w, front), s)
  {
    assert (front + [s])[..|front|] == front;
  }

  lemma {:induction false} RunAppend(w: World, first: seq<Step>, second: seq<Step>)
    ensures Run(w, first + second) == Run(Run(w, first), second)
  {
    if second == [] {
      assert first + second == first;
    } else {
      var front, s := second[..|second| - 1], second[|second| - 1];
      RunAppend(w, first, front);
      RunOne(w, first + front, s);
      assert first + front + [s] == first + second;
    }
  }

  lemma RunnerCalls(w: World)
    ensures Run(w, [StepTake, StepMark]) == After(After(w, StepTake), StepMark)
  {
    RunOne(w, [StepTake], StepMark);
  }

  ghost predicate OnePending(b: Book) {
    forall i, j :: 0 <= i < j < |b.revisions| ==>
      !(b.revisions[i].status == Pending && b.revisions[j].status == Pending)
  }

  /** Whatever the calls and however they interleave, at most one edit of an agent is pending. */
  lemma {:induction false} AtMostOnePending(initial: Config, steps: seq<Step>)
    ensures OnePending(Run(Start(initial), steps).book)
  {
    hide OnePending, After;
    if steps == [] {
      assert OnePending(Start(initial).book) by { NonePending(initial); }
    } else {
      var front := steps[..|steps| - 1];
      AtMostOnePending(initial, front);
      OnePendingStep(Run(Start(initial), front), steps[|steps| - 1]);
    }
  }

  lemma NonePending(initial: Config)
    ensures OnePending(Start(initial).book)
  {
  }

  lemma OnePendingStep(w: World, s: Step)
    requires OnePending(w.book)
    ensures OnePending(After(w, s).book)
  {
    hide FirstNumbered;
  }

  // ---------------------------------------------------------------- the order of revisions

  ghost predicate Known(b: Book, number: nat) {
    exists k: nat :: k < |b.revisions| && b.revisions[k].number == number
  }

  /** Every edit carries its number, and whatever is in flight is an edit of the history. */
  ghost predicate Recorded(w: World) {
    && (forall k :: 0 <= k < |w.book.revisions| ==> w.book.revisions[k].after.revision == w.book.revisions[k].number)
    && (forall k :: 0 <= k < |w.late| ==> Known(w.book, w.late[k].revision))
    && (w.book.pending.Some? ==> Known(w.book, w.book.pending.value.revision))
    && (w.taken.Some? ==> Known(w.book, w.taken.value))
  }

  lemma KnownStays(w: World, s: Step, number: nat)
    requires Known(w.book, number)
    ensures Known(After(w, s).book, number)
  {
    var k: nat :| k < |w.book.revisions| && w.book.revisions[k].number == number;
    assert After(w, s).book.revisions[k].number == number;
  }

  lemma RecordedStep(w: World, s: Step)
    requires Recorded(w)
    ensures Recorded(After(w, s))
  {
    forall number | Known(w.book, number) ensures Known(After(w, s).book, number) { KnownStays(w, s, number); }
    var t := After(w, s);
    if (s.StepEdit? || s.StepPush?) && |t.book.revisions| > |w.book.revisions| {
      assert t.book.revisions[|w.book.revisions|].number == w.book.config.revision + 1;
    }
  }

  lemma {:induction false} EveryRunIsRecorded(initial: Config, steps: seq<Step>)
    ensures Recorded(Run(Start(initial), steps))
  {
    if steps != [] {
      EveryRunIsRecorded(initial, steps[..|steps| - 1]);
      RecordedStep(Run(Start(initial), steps[..|steps| - 1]), steps[|steps| - 1]);
    }
  }

  /** The revision that is active once the runner has finished the call it is in. */
  function Next(w: World): nat {
    if w.taken.Some? then w.taken.value else w.book.config.revision
  }

  /** The edit `late[k]` comes to the slot too late: a newer one is active or about to be. */
  predicate Late(w: World, s: Step) {
    s.StepSet? && s.k < |w.late| && w.late[s.k].revision < Next(w)
  }

  /** What holds as long as no edit comes to the slot too late. */
  ghost predicate InOrder(w: World) {
    && Recorded(w)
    && (forall k :: 0 <= k < |w.book.revisions| ==> w.book.revisions[k].number <= w.book.config.revision + 1)
    && w.book.config.revision <= Next(w)
    && (w.book.pending.Some? ==> Next(w) <= w.book.pending.value.revision)
  }

  lemma InOrderStep(w: World, s: Step)
    requires InOrder(w) && !Late(w, s)
    ensures InOrder(After(w, s)) && w.book.config.revision <= After(w, s).book.config.revision
  {
    RecordedStep(w, s);
  }

  /** Whatever edits, rejections and the runner's two calls do, and however `apply_config`'s two
      halves interleave with them: as long as no edit comes to the slot too late, the active
      revision number never decreases. */
  lemma {:induction false} RevisionNeverDecreases(initial: Config, steps: seq<Step>, k: nat)
    requires forall j :: 0 <= j < |steps| ==> !Late(Run(Start(initial), steps[..j]), steps[j])
    requires k <= |steps|
    ensures InOrder(Run(Start(initial), steps))
    ensures Run(Start(initial), steps[..k]).book.config.revision <= Run(Start(initial), steps).book.config.revision
    decreases |steps|
  {
    hide InOrder, After, Late;
    var w := Start(initial);
    if k == |steps| { assert steps[..k] == steps; }
    if steps == [] {
      assert InOrder(w) by { InOrderAtStart(initial); }
    } else {
      var front := steps[..|steps| - 1];
      assert forall j :: 0 <= j <= |front| ==> front[..j] == steps[..j];
      RevisionNeverDecreases(initial, front, if k < |steps| then k else 0);
      assert !Late(Run(w, steps[..|front|]), steps[|front|]);
      InOrderStep(Run(w, front), steps[|steps| - 1]);
    }
  }

  lemma InOrderAtStart(initial: Config)
    ensures InOrder(Start(initial))
  {
  }

  /** Nothing is too late when no other call comes between the halves of `apply_config`. */
  ghost predicate Atomic(steps: seq<Step>) {
    forall j :: 0 <= j < |steps| ==> !steps[j].StepPush?
  }

  lemma {:induction false} AtomicIsNeverLate(initial: Config, steps: seq<Step>)
    requires Atomic(steps)
    ensures Run(Start(initial), steps).late == []
    ensures forall j :: 0 <= j < |steps| ==> !Late(Run(Start(initial), steps[..j]), steps[j])
  {
    if steps != [] {
      var front := steps[..|steps| - 1];
      AtomicIsNeverLate(initial, front);
      assert forall j :: 0 <= j <= |front| ==> front[..j] == steps[..j];
    }
  }

  /** After any history, let a pushed edit reach the slot and the runner finish its call, take the
      slot and mark it: that lowers the active revision exactly when the edit came too late. */
  lemma LateWriteLowersIff(initial: Config, steps: seq<Step>, k: nat)
    requires k < |Run(Start(initial), steps).late|
    ensures var w := Run(Start(initial), steps);
      var mid := After(After(w, StepSet(k)), StepMark);
      var t := After(After(mid, StepTake), StepMark);
      && mid.book.config.revision == Next(w)
      && (t.book.config.revision < mid.book.config.revision <==> Late(w, StepSet(k)))
  {
    EveryRunIsRecorded(initial, steps);
    var w := Run(Start(initial), steps);
    var put := After(w, StepSet(k));
    RecordedStep(w, StepSet(k));
    MarkSets(put);
    var mid := After(put, StepMark);
    RecordedStep(put, StepMark);
    RecordedStep(mid, StepTake);
    MarkSets(After(mid, StepTake));
  }

  lemma MarkSets(w: World)
    requires Recorded(w)
    ensures After(w, StepMark).book.config.revision == Next(w)
    ensures After(w, StepMark).book.pending == w.book.pending && After(w, StepMark).taken.None?
  {
    if w.taken.Some? {
      var k: nat :| k < |w.book.revisions| && w.book.revisions[k].number == w.taken.value;
      assert FirstNumbered(w.book.revisions, w.taken.value) <= k;
    }
  }

  // ---------------------------------------------------------------- which edit is activated

  predicate Accepted(w: World, s: Step) {
    (s.StepEdit? || s.StepPush?) && Push(w.book, s.next, s.expected).1.Ok?
  }

  /** The accepted edits that were made while revision `r` was active, in order. */
  function EditsAt(w: World, steps: seq<Step>, r: nat): seq<Config> {
    if steps == [] then []
    else
      var front, s := steps[..|steps| - 1], steps[|steps| - 1];
      var t := Run(w, front);
      EditsAt(w, front, r) + if Accepted(t, s) && t.book.config.revision == r then [s.next.(revision := r + 1)] else []
  }

  /** The history's configurations under one number. */
  function WithNumber(revisions: seq<Revision>, number: nat): seq<Config> {
    if revisions == [] then []
    else
      var last := revisions[|revisions| - 1];
      WithNumber(revisions[..|revisions| - 1], number) + if last.number == number then [last.after] else []
  }

  ghost predicate SameEdits(a: seq<Revision>, b: seq<Revision>) {
    |a| == |b| && forall k :: 0 <= k < |a| ==> a[k].number == b[k].number && a[k].after == b[k].after
  }

  lemma {:induction false} StatusDoesNotMatter(a: seq<Revision>, b: seq<Revision>, number: nat)
    requires SameEdits(a, b)
    ensures WithNumber(a, number) == WithNumber(b, number)
  {
    if a != [] { StatusDoesNotMatter(a[..|a| - 1], b[..|b| - 1], number); }
  }

  lemma {:induction false} FirstIsFirst(revisions: seq<Revision>, number: nat)
    ensures var k, cs := FirstNumbered(revisions, number), WithNumber(revisions, number);
      if k < |revisions| then cs != [] && cs[0] == revisions[k].after else cs == []
  {
    hide FirstNumbered;
    if revisions != [] {
      var front := revisions[..|revisions| - 1];
      FirstIsFirst(front, number);
      FirstOfFront(revisions, number);
    }
  }

  lemma FirstOfFront(revisions: seq<Revision>, number: nat)
    requires revisions != []
    ensures var front := revisions[..|revisions| - 1];
      var k, j := FirstNumbered(revisions, number), FirstNumbered(front, number);
      if j < |front| then k == j else k == if revisions[|front|].number == number then |front| else |front| + 1
  {
    hide FirstNumbered;
    var front := revisions[..|revisions| - 1];
    var k, j := FirstNumbered(revisions, number), FirstNumbered(front, number);
    assert forall i :: 0 <= i < |front| ==> front[i] == revisions[i];
    if j < |front| { assert revisions[j].number == number; }
  }

  lemma HistoryStep(w: World, s: Step, number: nat)
    ensures WithNumber(After(w, s).book.revisions, number) == WithNumber(w.book.revisions, number) +
      if Accepted(w, s) && w.book.config.revision + 1 == number then [s.next.(revision := number)] else []
  {
    hide FirstNumbered;
    var old', new' := w.book.revisions, After(w, s).book.revisions;
    if Accepted(w, s) {
      assert new'[..|new'| - 1] == Superseding(old');
      StatusDoesNotMatter(Superseding(old'), old', number);
    } else {
      StatusDoesNotMatter(new', old', number);
    }
  }

  /** The history holds exactly the accepted edits, numbered by the revision they were made on. */
  lemma {:induction false} HistoryHoldsEdits(initial: Config, steps: seq<Step>, r: nat)
    ensures WithNumber(Run(Start(initial), steps).book.revisions, r + 1) == EditsAt(Start(initial), steps, r)
  {
    hide After, WithNumber, Accepted;
    if steps == [] {
      assert WithNumber([], r + 1) == [] by { NoneAtStart(r + 1); }
    } else {
      HistoryHoldsEdits(initial, steps[..|steps| - 1], r);
      HistoryStep(Run(Start(initial), steps[..|steps| - 1]), steps[|steps| - 1], r + 1);
    }
  }

  lemma NoneAtStart(number: nat)
    ensures WithNumber([], number) == []
  {
  }

  /** In any history, marking activates the first edit made on the revision before the taken one,
      however many were made on it since. */
  lemma MarkActivatesFirstEdit(initial: Config, steps: seq<Step>, r: nat)
    requires Run(Start(initial), steps).taken == Some(r + 1)
    ensures var edits := EditsAt(Start(initial), steps, r);
      edits != [] && Run(Start(initial), steps + [StepMark]).book.config == edits[0]
  {
    var w := Run(Start(initial), steps);
    EveryRunIsRecorded(initial, steps);
    HistoryHoldsEdits(initial, steps, r);
    FirstIsFirst(w.book.revisions, r + 1);
    RunOne(Start(initial), steps, StepMark);
  }

  /** With `apply_config` atomic, the slot holds the newest edit of the history. */
  ghost predicate SlotIsNewest(w: World) {
    && w.late == []
    && (w.book.pending.Some? ==>
          var revisions, c := w.book.revisions, w.book.pending.value;
          && revisions != [] && revisions[|revisions| - 1].after == c
          && revisions[|revisions| - 1].number == c.revision && c.revision > 0)
  }

  lemma {:induction false} AtomicSlot(initial: Config, steps: seq<Step>)
    requires Atomic(steps)
    ensures SlotIsNewest(Run(Start(initial), steps))
  {
    if steps != [] {
      AtomicSlot(initial, steps[..|steps| - 1]);
      SlotStep(Run(Start(initial), steps[..|steps| - 1]), steps[|steps| - 1]);
    }
  }

  lemma SlotStep(w: World, s: Step)
    requires SlotIsNewest(w) && !s.StepPush?
    ensures SlotIsNewest(After(w, s))
  {
  }

  /** With `apply_config` atomic, the runner's next two calls find in the slot the last edit made
      on the revision before, and activate the first one; so the user's last settings become
      active exactly when those edits began with the same settings. */
  lemma AppliesLastEditIff(initial: Config, steps: seq<Step>)
    requires Atomic(steps)
    requires Run(Start(initial), steps).taken.None? && Run(Start(initial), steps).book.pending.Some?
    ensures var c := Run(Start(initial), steps).book.pending.value;
      && c.revision > 0
      && var edits := EditsAt(Start(initial), steps, c.revision - 1);
      var t := Run(Start(initial), steps + [StepTake, StepMark]);
      && edits != [] && edits[|edits| - 1] == c && t.book.config == edits[0]
      && (t.book.config.settings == c.settings <==> edits[0].settings == edits[|edits| - 1].settings)
  {
    hide Run, EditsAt, Push, Mark, WithNumber;
    var w := Run(Start(initial), steps);
    AtomicSlot(initial, steps);
    var r := w.book.pending.value.revision - 1;
    HistoryHoldsEdits(initial, steps, r);
    NewestIsLast(w, r);
    RunOne(Start(initial), steps, StepTake);
    MarkActivatesFirstEdit(initial, steps + [StepTake], r);
    EditsSnoc(Start(initial), steps, StepTake, r);
    assert steps + [StepTake] + [StepMark] == steps + [StepTake, StepMark];
  }

  lemma NewestIsLast(w: World, r: nat)
    requires SlotIsNewest(w) && w.book.pending.Some? && w.book.pending.value.revision == r + 1
    ensures var cs := WithNumber(w.book.revisions, r + 1); cs != [] && cs[|cs| - 1] == w.book.pending.value
  {
  }

  lemma EditsSnoc(w: World, steps: seq<Step>, s: Step, r: nat)
    ensures var t := Run(w, steps);
      EditsAt(w, steps + [s], r) ==
        EditsAt(w, steps, r) + if Accepted(t, s) &&
          t.book.config.revision == r then [s.next.(revision := r + 1)] else []
  {
    assert (steps + [s])[..|steps|] == steps;
  }

  /** In particular it does when only one edit was made on that revision. */
  lemma SingleEditIsApplied(initial: Config, steps: seq<Step>, next: Config)
    requires Atomic(steps) && Run(Start(initial), steps).taken.None?
    requires var w := Run(Start(initial), steps);
      var r := w.book.config.revision;
      EditsAt(Start(initial), steps, r) == [] && Push(w.book, next, r).1.Ok?
    ensures var r := Run(Start(initial), steps).book.config.revision;
      Run(Start(initial), steps + [StepEdit(next, r), StepTake, StepMark]).book.config == next.(revision := r + 1)
  {
    hide Run, EditsAt, Push;
    var w := Run(Start(initial), steps);
    var r := w.book.config.revision;
    var edited := steps + [StepEdit(next, r)];
    RunOne(Start(initial), steps, StepEdit(next, r));
    PushedIs(w.book, next, r);
    EditsSnoc(Start(initial), steps, StepEdit(next, r), r);
    AppliesLastEditIff(initial, edited);
    assert edited + [StepTake, StepMark] == steps + [StepEdit(next, r), StepTake, StepMark];
  }

  lemma PushedIs(b: Book, next: Config, expected: nat)
    requires Push(b, next, expected).1.Ok?
    ensures Push(b, next, expected).1.value.after == next.(revision := expected + 1)
  {
  }

  /** Two edits on one revision before the runner's safe point: the first becomes active, and the
      second is left pending in the history but in no slot. */
  lemma SecondEditIsLost(initial: Config, steps: seq<Step>, first: Config, second: Config)
    requires Atomic(steps) && Run(Start(initial), steps).taken.None?
    requires first.valid && second.valid
    requires var w := Run(Start(initial), steps);
      && EditsAt(Start(initial), steps, w.book.config.revision) == []
      && first.settings != w.book.config.settings && second.settings != w.book.config.settings
    ensures var r := Run(Start(initial), steps).book.config.revision;
      var t := Run(Start(initial), steps + [StepEdit(first, r), StepEdit(second, r), StepTake, StepMark]).book;
      && t.config == first.(revision := r + 1) && t.pending.None? && t.revisions != []
      && t.revisions[|t.revisions| - 1] == Revision(r + 1, Pending, second.(revision := r + 1))
  {
    hide Run, After, Push, Mark, WithNumber, FirstNumbered, EditsAt;
    var w := Run(Start(initial), steps);
    var r := w.book.config.revision;
    HistoryHoldsEdits(initial, steps, r);
    FirstIsFirst(w.book.revisions, r + 1);
    TwoEdits(w, first, second);
    var one := steps + [StepEdit(first, r)];
    var two := one + [StepEdit(second, r)];
    RunOne(Start(initial), steps, StepEdit(first, r));
    RunOne(Start(initial), one, StepEdit(second, r));
    RunOne(Start(initial), two, StepTake);
    RunOne(Start(initial), two + [StepTake], StepMark);
    assert two + [StepTake] + [StepMark] == steps + [StepEdit(first, r), StepEdit(second, r), StepTake, StepMark];
  }

  lemma TwoEdits(w: World, first: Config, second: Config)
    requires w.taken.None? && first.valid && second.valid
    requires first.settings != w.book.config.settings && second.settings != w.book.config.settings
    requires FirstNumbered(w.book.revisions, w.book.config.revision + 1) == |w.book.revisions|
    ensures var r := w.book.config.revision;
      var t := After(After(After(After(w, StepEdit(first, r)), StepEdit(second, r)), StepTake), StepMark).book;
      && t.config == first.(revision := r + 1) && t.pending.None? && t.revisions != []
      && t.revisions[|t.revisions| - 1] == Revision(r + 1, Pending, second.(revision := r + 1))
  {
    var r, n := w.book.config.revision, |w.book.revisions|;
    var two := After(After(w, StepEdit(first, r)), StepEdit(second, r));
    assert two.book.revisions[n].number == r + 1 && two.book.revisions[n].after == first.(revision := r + 1);
    assert FirstNumbered(two.book.revisions, r + 1) == n;
  }

  const OLD := Config(1, 0, true)
  const EDIT_A := Config(1, 1, true)
  const EDIT_B := Config(1, 2, true)
  const EDIT_C := Config(2, 3, true)

  const A2 := EDIT_A.(revision := 2)
  const B2 := EDIT_B.(revision := 2)
  const C3 := EDIT_C.(revision := 3)
  const RA := Revision(2, Applied, A2)
  const RB := Revision(2, Superseded, B2)
  const RC := Revision(3, Applied, C3)
  const W1 := World(Book(OLD, [RA.(status := Pending)], None), [A2], None)
  const W2 := World(Book(OLD, [RA.(status := Superseded), RB.(status := Pending)], Some(B2)), [A2], None)
  const W3 := World(Book(A2, [RA, RB.(status := Pending)], None), [A2], None)
  const W4 := World(Book(A2, [RA, RB, RC.(status := Pending)], Some(C3)), [A2], None)
  const W5 := World(Book(C3, [RA, RB, RC], None), [A2], None)
  const W6 := World(Book(C3, [RA, RB, RC], Some(A2)), [], None)

  const OVERTAKEN := [StepPush(EDIT_A, 1), StepEdit(EDIT_B, 1), StepTake, StepMark, StepEdit(EDIT_C, 2), StepTake,
    StepMark]

  lemma TwoEditors()
    ensures Run(Start(OLD), [StepPush(EDIT_A, 1), StepEdit(EDIT_B, 1)]) == W2
  {
    assert After(Start(OLD), StepPush(EDIT_A, 1)) == W1;
    RunOne(Start(OLD), [StepPush(EDIT_A, 1)], StepEdit(EDIT_B, 1));
  }

  lemma FirstApplied()
    ensures Run(W2, [StepTake, StepMark]) == W3
  {
    RunnerCalls(W2);
  }

  lemma ThirdApplied()
    ensures Run(W3, [StepEdit(EDIT_C, 2)]) == W4 && Run(W4, [StepTake, StepMark]) == W5
  {
    assert W4.book.revisions[2].number == 3;
    RunnerCalls(W4);
  }

  lemma FirstAppliedAgain()
    ensures Run(W5, [StepSet(0)]) == W6 && Run(W6, [StepTake, StepMark]).book.config == A2
  {
    RunnerCalls(W6);
  }

  /** A late edit does occur: with two editors at once, `EDIT_A` is pushed, and before it reaches
      the slot `EDIT_B` is edited and applied (which activates `EDIT_A`), then `EDIT_C`.  When
      `EDIT_A` reaches the slot at last, the runner takes the agent from revision 3 back to 2. */
  lemma LateEditGoesBack()
    ensures Run(Start(OLD), OVERTAKEN).book.config == EDIT_C.(revision := 3)
    ensures Run(Start(OLD), OVERTAKEN + [StepSet(0), StepTake, StepMark]).book.config == EDIT_A.(revision := 2)
  {
    hide Run;
    TwoEditors();
    FirstApplied();
    ThirdApplied();
    FirstAppliedAgain();
    var s1, s2, s3, s4 := [StepPush(EDIT_A, 1), StepEdit(EDIT_B, 1)], [StepTake, StepMark], [StepEdit(EDIT_C, 2)],
      [StepSet(0)];
    RunAppend(Start(OLD), s1, s2);
    RunAppend(Start(OLD), s1 + s2, s3);
    RunAppend(Start(OLD), s1 + s2 + s3, s2);
    RunAppend(Start(OLD), OVERTAKEN, s4);
    RunAppend(Start(OLD), OVERTAKEN + s4, s2);
    assert s1 + s2 + s3 + s2 == OVERTAKEN;
    assert OVERTAKEN + s4 + s2 == OVERTAKEN + [StepSet(0), StepTake, StepMark];
  }
}
