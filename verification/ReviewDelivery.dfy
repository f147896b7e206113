/**
 The status of a stored delivery and the four operations that change it, each of them run through the
 record queue. `sound` is what the routing and workspace checks find when the operation runs.
 */
module ReviewDelivery {
  import opened Options
  import opened RecordQueue

  datatype Status = Pending | Delivering | Delivered | Failed | Ambiguous
  datatype Error = Error(code: Option<string>, message: string, retryable: Option<bool>)
  datatype Identity = Identity(id: string, workspace: string, task: string, request: string, routing: string, conversation: string)

  datatype Delivery = Delivery(identity: Identity, status: Status, attempts: int, lastError: Option<Error>, deliveredAt: Option<int>)

  datatype Change = BeginAttempt | MarkDelivered(at: int) | MarkFailed(error: Error) | MarkAmbiguous(error: Error)
  datatype Operation = Operation(change: Change, sound: bool)

  predicate ValidError(e: Error) {
    1 <= |e.message| <= 4000 && (e.code.Some? ==> 1 <= |e.code.value| <= 128)
  }

  /** `reviewDeliverySchema`. */
  predicate SchemaValid(d: Delivery) {
    && d.attempts >= 0
    && (d.status.Pending? ==> d.attempts == 0)
    && (!d.status.Pending? ==> d.attempts >= 1)
    && (d.status.Failed? || d.status.Ambiguous? <==> d.lastError.Some?)
    && (d.lastError.Some? ==> ValidError(d.lastError.value))
    && (d.status.Delivered? <==> d.deliveredAt.Some?)
  }

  function Parse(d: Delivery): Option<Delivery> { if SchemaValid(d) then Some(d) else None }

  /** What an operation makes of the stored record; None is an operation that throws. */
  function Apply(current: Option<Delivery>, op: Operation): Option<Delivery> {
    if current.None? || Parse(current.value).None? || !op.sound then None
    else
      var d := current.value;
      match op.change
      case BeginAttempt =>
        if d.status.Pending? || d.status.Failed?
        then Parse(d.(lastError := None, deliveredAt := None, status := Delivering, attempts := d.attempts + 1)) else None
      case MarkDelivered(at) =>
        if d.status.Delivering? then Parse(d.(lastError := None, status := Delivered, deliveredAt := Some(at))) else None
      case MarkFailed(e) =>
        if d.status.Delivering? && ValidError(e)
        then Parse(d.(deliveredAt := None, status := Failed, lastError := Some(e))) else None
      case MarkAmbiguous(e) =>
        if d.status.Delivering? && ValidError(e)
        then Parse(d.(deliveredAt := None, status := Ambiguous, lastError := Some(e))) else None
  }

  /** When an operation is carried out: the schema check on the new record never refuses it. */
  lemma AppliesExactlyWhen(d: Delivery, op: Operation)
    requires SchemaValid(d)
    ensures Apply(Some(d), op).Some? <==>
            op.sound &&
            match op.change
            case BeginAttempt => d.status.Pending? || d.status.Failed?
            case MarkDelivered(_) => d.status.Delivering?
            case MarkFailed(e) => d.status.Delivering? && ValidError(e)
            case MarkAmbiguous(e) => d.status.Delivering? && ValidError(e)
  {
  }

  predicate Terminal(d: Delivery) { d.status.Delivered? || d.status.Ambiguous? }

  predicate Begins(t: Task<Delivery, Operation>, f: string) { t.file == f && Published(t) && t.op.change.BeginAttempt? }
  predicate Marks(t: Task<Delivery, Operation>, f: string) { t.file == f && Published(t) && !t.op.change.BeginAttempt? }

  /** Each published operation was carried out on the record the earlier ones had left. */
  ghost predicate Explained(start: Option<Delivery>, tasks: seq<Task<Delivery, Operation>>, f: string) {
    forall t: nat | t < |tasks| && tasks[t].file == f && Published(tasks[t]) ::
      Apply(Replay(Apply, start, tasks[..t], f), tasks[t].op).Some?
  }

  lemma ExplainedPrefix(start: Option<Delivery>, tasks: seq<Task<Delivery, Operation>>, f: string, n: nat)
    requires Explained(start, tasks, f) && n <= |tasks|
    ensures Explained(start, tasks[..n], f)
  {
    assert forall t: nat | t < n :: tasks[..n][..t] == tasks[..t];
  }

  /**
   However many operations are submitted at once, the record stays valid and keeps its identity; its attempt
   count is the number of attempts begun, and every one of them but a running one has been marked.
   */
  lemma {:induction false} AttemptsAreCounted(start: Delivery, tasks: seq<Task<Delivery, Operation>>, f: string)
    requires SchemaValid(start) && start.status.Pending? && Explained(Some(start), tasks, f)
    ensures var d := Replay(Apply, Some(start), tasks, f);
            && d.Some? && SchemaValid(d.value) && d.value.identity == start.identity
            && d.value.attempts == Count(tasks, t => Begins(t, f))
            && d.value.attempts == Count(tasks, t => Marks(t, f)) + if d.value.status.Delivering? then 1 else 0
  {
    if tasks != [] {
      var front := tasks[..|tasks| - 1];
      ExplainedPrefix(Some(start), tasks, f, |tasks| - 1);
      AttemptsAreCounted(start, front, f);
    }
  }

  lemma TerminalRefuses(d: Delivery, op: Operation)
    requires Terminal(d)
    ensures Apply(Some(d), op).None?
  {
  }

  /** Once delivered or ambiguous, a delivery never changes again: no later operation is carried out. */
  lemma {:induction false} TerminalIsAbsorbing(start: Option<Delivery>, tasks: seq<Task<Delivery, Operation>>, f: string, n: nat)
    requires Explained(start, tasks, f) && n <= |tasks|
    requires Replay(Apply, start, tasks[..n], f).Some? && Terminal(Replay(Apply, start, tasks[..n], f).value)
    ensures Replay(Apply, start, tasks, f) == Replay(Apply, start, tasks[..n], f)
    ensures forall t | n <= t < |tasks| && tasks[t].file == f :: !Published(tasks[t])
  {
    hide Apply, Terminal, Explained, Published, Replay;
    if n < |tasks| {
      var front, last := tasks[..|tasks| - 1], tasks[|tasks| - 1];
      ExplainedPrefix(start, tasks, f, |tasks| - 1);
      assert front[..n] == tasks[..n];
      TerminalIsAbsorbing(start, front, f, n);
      TerminalRefuses(Replay(Apply, start, front, f).value, last.op);
      LastIsExplained(start, tasks, f);
      assert forall t | 0 <= t < |front| :: tasks[t] == front[t];
      UnpublishedIsSkipped(start, tasks, f);
    } else {
      assert tasks[..n] == tasks;
    }
  }

  lemma LastIsExplained(start: Option<Delivery>, tasks: seq<Task<Delivery, Operation>>, f: string)
    requires Explained(start, tasks, f) && tasks != []
    ensures tasks[|tasks| - 1].file == f && Published(tasks[|tasks| - 1]) ==>
              Apply(Replay(Apply, start, tasks[..|tasks| - 1], f), tasks[|tasks| - 1].op).Some?
  {
    hide Apply;
  }

  lemma UnpublishedIsSkipped(start: Option<Delivery>, tasks: seq<Task<Delivery, Operation>>, f: string)
    requires tasks != [] && !(tasks[|tasks| - 1].file == f && Published(tasks[|tasks| - 1]))
    ensures Replay(Apply, start, tasks, f) == Replay(Apply, start, tasks[..|tasks| - 1], f)
  {
    hide Apply;
  }

  lemma RunExplains(start: map<string, Delivery>, log: seq<Action<Operation>>, f: string)
    requires Legal(Apply, Idle(start), log)
    ensures Explained(Start(start, f), Run(Apply, Idle(start), log).tasks, f)
    ensures Stored(Run(Apply, Idle(start), log), f) == Replay(Apply, Start(start, f), Run(Apply, Idle(start), log).tasks, f)
  {
    RunKeepsInv(Apply, start, log);
    hide Legal, InOrder, Chained, Tails, AbsentIsIdle, ReadsCurrent, Apply;
  }

  /** The stored file after any run of concurrent operations on a freshly created delivery. */
  lemma ConcurrentOperationsAreSafe(start: map<string, Delivery>, log: seq<Action<Operation>>, f: string)
    requires Legal(Apply, Idle(start), log)
    requires f in start && SchemaValid(start[f]) && start[f].status.Pending?
    ensures var w := Run(Apply, Idle(start), log);
            && f in w.records && SchemaValid(w.records[f]) && w.records[f].identity == start[f].identity
            && w.records[f].attempts == Count(w.tasks, t => Begins(t, f))
  {
    RunExplains(start, log, f);
    AttemptsAreCounted(start[f], Run(Apply, Idle(start), log).tasks, f);
    hide Legal, Explained;
  }

  /** A stored delivery that is delivered or ambiguous at one moment of a run is the same at every later one. */
  lemma {:induction false} TerminalForGood(start: map<string, Delivery>, log: seq<Action<Operation>>, n: nat, f: string)
    requires Legal(Apply, Idle(start), log) && n <= |log| && Legal(Apply, Idle(start), log[..n])
    requires f in Run(Apply, Idle(start), log[..n]).records && Terminal(Run(Apply, Idle(start), log[..n]).records[f])
    ensures Stored(Run(Apply, Idle(start), log), f) == Stored(Run(Apply, Idle(start), log[..n]), f)
  {
    hide Apply, Terminal;
    if n < |log| {
      var front := log[..|log| - 1];
      assert front[..n] == log[..n];
      TerminalForGood(start, front, n, f);
      var w, a := Run(Apply, Idle(start), front), log[|log| - 1];
      RunKeepsInv(Apply, start, front);
      if a.Publish? && w.tasks[a.task].file == f {
        assert w.tasks[a.task].stage.seen == Stored(w, f);
        TerminalRefuses(w.records[f], w.tasks[a.task].op);
      }
    } else {
      assert log[..n] == log;
    }
  }
}
