/**
 The per-file queue every record update goes through: a map from file to the tail of its promise chain,
 which deletes its own entries. An operation reads its record and publishes a new one in separate steps,
 so without the queue two of them could overwrite each other. `apply` says what an operation makes of
 the record it read; None is an operation that throws.
 */
module RecordQueue {
  import opened Options

  datatype Stage<R> = Waiting | Running | Read(seen: Option<R>) | Settled(result: Option<R>)

  /** One submitted operation and the promise it was chained to. */
  datatype Task<R, O> = Task(file: string, op: O, previous: Option<nat>, stage: Stage<R>, cleaned: bool)

  datatype World<R, O> = World(writes: map<string, nat>, tasks: seq<Task<R, O>>, records: map<string, R>)

  datatype Action<O> =
    | Submit(file: string, op: O)
    | Begin(task: nat)
    | ReadRecord(task: nat)
    | Publish(task: nat, saved: bool)
    | CleanUp(task: nat)

  function Stored<R, O>(w: World<R, O>, file: string): Option<R> {
    if file in w.records then Some(w.records[file]) else None
  }

  predicate Done<R, O>(w: World<R, O>, t: nat) { t < |w.tasks| && w.tasks[t].stage.Settled? }

  predicate Enabled<R, O>(w: World<R, O>, a: Action<O>) {
    match a
    case Submit(_, _) => true
    case Begin(t) =>
      t < |w.tasks| && w.tasks[t].stage.Waiting? && (w.tasks[t].previous.Some? ==> Done(w, w.tasks[t].previous.value))
    case ReadRecord(t) => t < |w.tasks| && w.tasks[t].stage.Running?
    case Publish(t, _) => t < |w.tasks| && w.tasks[t].stage.Read?
    case CleanUp(t) => Done(w, t) && !w.tasks[t].cleaned
  }

  function Effect<R, O>(apply: (Option<R>, O) -> Option<R>, w: World<R, O>, a: Action<O>): World<R, O>
    requires Enabled(w, a)
  {
    match a
    case Submit(file, op) =>
      var previous := if file in w.writes then Some(w.writes[file]) else None;
      w.(tasks := w.tasks + [Task(file, op, previous, Waiting, false)], writes := w.writes[file := |w.tasks|])
    case Begin(t) => w.(tasks := w.tasks[t := w.tasks[t].(stage := Running)])
    case ReadRecord(t) => w.(tasks := w.tasks[t := w.tasks[t].(stage := Read(Stored(w, w.tasks[t].file)))])
    case Publish(t, saved) =>
      var next := apply(w.tasks[t].stage.seen, w.tasks[t].op);
      if next.Some? && saved
      then w.(tasks := w.tasks[t := w.tasks[t].(stage := Settled(next))], records := w.records[w.tasks[t].file := next.value])
      else w.(tasks := w.tasks[t := w.tasks[t].(stage := Settled(None))])
    case CleanUp(t) =>
      var file := w.tasks[t].file;
      w.(tasks := w.tasks[t := w.tasks[t].(cleaned := true)],
         writes := if file in w.writes && w.writes[file] == t then w.writes - {file} else w.writes)
  }

  ghost predicate Step<R, O>(apply: (Option<R>, O) -> Option<R>, w: World<R, O>, a: Action<O>, v: World<R, O>) {
    Enabled(w, a) && v == Effect(apply, w, a)
  }

  /** What the file holds after the published operations of `tasks`, in the order they were submitted. */
  function Replay<R, O>(apply: (Option<R>, O) -> Option<R>, start: Option<R>, tasks: seq<Task<R, O>>, file: string): Option<R> {
    if tasks == [] then start
    else
      var before, last := Replay(apply, start, tasks[..|tasks| - 1], file), tasks[|tasks| - 1];
      if last.file == file && last.stage.Settled? && last.stage.result.Some? then apply(before, last.op) else before
  }

  // ---- The invariant ------------------------------------------------------------------------

  /** Operations on one file run one at a time, in the order they were submitted. */
  ghost predicate InOrder<R, O>(w: World<R, O>) {
    forall s: nat, t: nat | s < t < |w.tasks| && w.tasks[s].file == w.tasks[t].file && !w.tasks[t].stage.Waiting? ::
      w.tasks[s].stage.Settled?
  }

  /** Each promise is chained to the one before it on its file, unless all before it have settled. */
  ghost predicate Chained<R, O>(w: World<R, O>) {
    forall t: nat | t < |w.tasks| ::
      match w.tasks[t].previous
      case Some(p) =>
        && p < t && w.tasks[p].file == w.tasks[t].file
        && (forall s: nat | p < s < t :: w.tasks[s].file != w.tasks[t].file)
      case None => forall s: nat | s < t && w.tasks[s].file == w.tasks[t].file :: w.tasks[s].stage.Settled?
  }

  /** The map's entry for a file is its last promise. */
  ghost predicate Tails<R, O>(w: World<R, O>) {
    forall f | f in w.writes ::
      && w.writes[f] < |w.tasks| && w.tasks[w.writes[f]].file == f && !w.tasks[w.writes[f]].cleaned
      && (forall s: nat | w.writes[f] < s < |w.tasks| :: w.tasks[s].file != f)
  }

  /** A file without an entry has nothing outstanding. */
  ghost predicate AbsentIsIdle<R, O>(w: World<R, O>) {
    && (forall t: nat | t < |w.tasks| && w.tasks[t].file !in w.writes :: w.tasks[t].stage.Settled?)
    && (forall t: nat | t < |w.tasks| && w.tasks[t].cleaned :: w.tasks[t].stage.Settled?)
  }

  /** What a running operation has read is what the file still holds. */
  ghost predicate ReadsCurrent<R, O>(w: World<R, O>) {
    forall t: nat | t < |w.tasks| && w.tasks[t].stage.Read? :: w.tasks[t].stage.seen == Stored(w, w.tasks[t].file)
  }

  /** The files hold what the published operations amount to in submission order. */
  ghost predicate Linear<R, O>(apply: (Option<R>, O) -> Option<R>, start: map<string, R>, w: World<R, O>) {
    forall f :: Stored(w, f) == Replay(apply, Start(start, f), w.tasks, f)
  }

  /** A published result is what its operation made of what the earlier ones had left. */
  ghost predicate ResultsExplained<R, O>(apply: (Option<R>, O) -> Option<R>, start: map<string, R>, w: World<R, O>) {
    forall t: nat | t < |w.tasks| && w.tasks[t].stage.Settled? && w.tasks[t].stage.result.Some? ::
      var f := w.tasks[t].file;
      w.tasks[t].stage.result == apply(Replay(apply, Start(start, f), w.tasks[..t], f), w.tasks[t].op)
  }

  ghost predicate Inv<R, O>(apply: (Option<R>, O) -> Option<R>, start: map<string, R>, w: World<R, O>) {
    InOrder(w) && Chained(w) && Tails(w) && AbsentIsIdle(w) && ReadsCurrent(w) && Linear(apply, start, w) && ResultsExplained(apply, start, w)
  }

  lemma InOrderKept<R, O>(apply: (Option<R>, O) -> Option<R>, w: World<R, O>, a: Action<O>, v: World<R, O>)
    requires InOrder(w) && Chained(w) && Step(apply, w, a, v)
    ensures InOrder(v)
  {
  }

  lemma ChainedBySubmit<R, O>(apply: (Option<R>, O) -> Option<R>, w: World<R, O>, a: Action<O>)
    requires Chained(w) && Tails(w) && AbsentIsIdle(w) && a.Submit?
    ensures Chained(Effect(apply, w, a))
  {
  }

  /** The tasks only move on: nobody is chained anew, and what has settled stays settled. */
  ghost predicate Progresses<R, O>(w: World<R, O>, v: World<R, O>) {
    |v.tasks| == |w.tasks| && forall t: nat | t < |w.tasks| ::
      && v.tasks[t].file == w.tasks[t].file && v.tasks[t].previous == w.tasks[t].previous
      && (w.tasks[t].stage.Settled? ==> v.tasks[t].stage.Settled?)
  }

  lemma OthersProgress<R, O>(apply: (Option<R>, O) -> Option<R>, w: World<R, O>, a: Action<O>, v: World<R, O>)
    requires Step(apply, w, a, v) && !a.Submit?
    ensures Progresses(w, v)
  {
  }

  lemma ChainedWithProgress<R, O>(w: World<R, O>, v: World<R, O>)
    requires Chained(w) && Progresses(w, v)
    ensures Chained(v)
  {
    forall t: nat | t < |v.tasks|
      ensures match v.tasks[t].previous
              case Some(p) =>
                && p < t && v.tasks[p].file == v.tasks[t].file
                && (forall s: nat | p < s < t :: v.tasks[s].file != v.tasks[t].file)
              case None => forall s: nat | s < t && v.tasks[s].file == v.tasks[t].file :: v.tasks[s].stage.Settled?
    {
      assert v.tasks[t].previous == w.tasks[t].previous;
    }
  }

  lemma ChainedKept<R, O>(apply: (Option<R>, O) -> Option<R>, w: World<R, O>, a: Action<O>, v: World<R, O>)
    requires Chained(w) && Tails(w) && AbsentIsIdle(w) && Step(apply, w, a, v)
    ensures Chained(v)
  {
    if a.Submit? {
      hide Chained, Tails, AbsentIsIdle, Effect;
      ChainedBySubmit(apply, w, a);
    } else {
      hide *;
      OthersProgress(apply, w, a, v);
      ChainedWithProgress(w, v);
    }
  }

  lemma TailsBySubmit<R, O>(apply: (Option<R>, O) -> Option<R>, w: World<R, O>, a: Action<O>, v: World<R, O>)
    requires Tails(w) && Step(apply, w, a, v) && a.Submit?
    ensures Tails(v)
  {
  }

  lemma TailsByOthers<R, O>(apply: (Option<R>, O) -> Option<R>, w: World<R, O>, a: Action<O>, v: World<R, O>)
    requires Tails(w) && Step(apply, w, a, v) && !a.Submit?
    ensures Tails(v)
  {
  }

  lemma TailsKept<R, O>(apply: (Option<R>, O) -> Option<R>, w: World<R, O>, a: Action<O>, v: World<R, O>)
    requires Tails(w) && Step(apply, w, a, v)
    ensures Tails(v)
  {
    hide *;
    if a.Submit? {
      TailsBySubmit(apply, w, a, v);
    } else {
      TailsByOthers(apply, w, a, v);
    }
  }

  lemma AbsentIsIdleKept<R, O>(apply: (Option<R>, O) -> Option<R>, w: World<R, O>, a: Action<O>, v: World<R, O>)
    requires InOrder(w) && Tails(w) && AbsentIsIdle(w) && Step(apply, w, a, v)
    ensures AbsentIsIdle(v)
  {
  }

  lemma ReadsCurrentKept<R, O>(apply: (Option<R>, O) -> Option<R>, w: World<R, O>, a: Action<O>, v: World<R, O>)
    requires InOrder(w) && ReadsCurrent(w) && Step(apply, w, a, v)
    ensures ReadsCurrent(v)
  {
  }

  // ---- Linearisation ----------------------------------------------------------------------

  function Start<R>(start: map<string, R>, f: string): Option<R> { if f in start then Some(start[f]) else None }

  /** Only published results count in a replay. */
  ghost predicate SameOutcomes<R, O>(s: seq<Task<R, O>>, t: seq<Task<R, O>>) {
    |s| == |t| && forall i | 0 <= i < |s| ::
      s[i].file == t[i].file && s[i].op == t[i].op && Published(s[i]) == Published(t[i])
  }

  predicate Published<R, O>(t: Task<R, O>) { t.stage.Settled? && t.stage.result.Some? }

  lemma {:induction false} ReplaySame<R, O>(apply: (Option<R>, O) -> Option<R>, start: Option<R>,
                                           s: seq<Task<R, O>>, t: seq<Task<R, O>>, f: string)
    requires SameOutcomes(s, t)
    ensures Replay(apply, start, s, f) == Replay(apply, start, t, f)
  {
    if s != [] {
      ReplaySame(apply, start, s[..|s| - 1], t[..|t| - 1], f);
    }
  }

  /** Tasks that have published nothing on `f` do not matter for it. */
  lemma {:induction false} ReplayIdle<R, O>(apply: (Option<R>, O) -> Option<R>, start: Option<R>,
                                           s: seq<Task<R, O>>, n: nat, f: string)
    requires n <= |s| && forall i | n <= i < |s| :: s[i].file == f ==> !Published(s[i])
    ensures Replay(apply, start, s, f) == Replay(apply, start, s[..n], f)
  {
    if n < |s| {
      assert s[..|s| - 1][..n] == s[..n];
      ReplayIdle(apply, start, s[..|s| - 1], n, f);
    } else {
      assert s[..n] == s;
    }
  }

  /** A publication adds its operation to the replay of its file, since it is the last one on it. */
  lemma ReplayPublish<R, O>(apply: (Option<R>, O) -> Option<R>, start: Option<R>, s: seq<Task<R, O>>, t: nat, r: R, f: string)
    requires t < |s| && !Published(s[t])
    requires forall i | t < i < |s| && s[i].file == s[t].file :: !Published(s[i])
    ensures var u := s[t := s[t].(stage := Settled(Some(r)))];
            && Replay(apply, start, u[..t], f) == Replay(apply, start, s[..t], f)
            && Replay(apply, start, u, f) ==
               if f == s[t].file then apply(Replay(apply, start, s, f), s[t].op) else Replay(apply, start, s, f)
  {
    var u := s[t := s[t].(stage := Settled(Some(r)))];
    assert u[..t] == s[..t];
    assert u[..t + 1][..t] == u[..t] && s[..t + 1][..t] == s[..t];
    if f == s[t].file {
      ReplayIdle(apply, start, s, t, f);
      ReplayIdle(apply, start, u, t + 1, f);
    } else {
      ReplaySkips(apply, start, s, t, u[t], f);
    }
  }

  /** A task on another file does not matter. */
  lemma {:induction false} ReplaySkips<R, O>(apply: (Option<R>, O) -> Option<R>, start: Option<R>,
                                            s: seq<Task<R, O>>, t: nat, x: Task<R, O>, f: string)
    requires t < |s| && s[t].file != f && x.file != f
    ensures Replay(apply, start, s[t := x], f) == Replay(apply, start, s, f)
  {
    var u := s[t := x];
    if t < |s| - 1 {
      assert u[..|u| - 1] == s[..|s| - 1][t := x];
      ReplaySkips(apply, start, s[..|s| - 1], t, x, f);
    } else {
      assert u[..|u| - 1] == s[..|s| - 1];
    }
  }

  lemma LinearKept<R, O>(apply: (Option<R>, O) -> Option<R>, start: map<string, R>, w: World<R, O>, a: Action<O>, v: World<R, O>)
    requires InOrder(w) && ReadsCurrent(w) && Linear(apply, start, w) && Step(apply, w, a, v)
    ensures Linear(apply, start, v)
  {
    forall f ensures Stored(v, f) == Replay(apply, Start(start, f), v.tasks, f) {
      assert Stored(w, f) == Replay(apply, Start(start, f), w.tasks, f);
      if a.Submit? {
        assert v.tasks[..|w.tasks|] == w.tasks;
      } else if a.Publish? && Published(v.tasks[a.task]) {
        ReplayPublish(apply, Start(start, f), w.tasks, a.task, v.tasks[a.task].stage.result.value, f);
      } else {
        ReplaySame(apply, Start(start, f), w.tasks, v.tasks, f);
      }
    }
  }

  lemma ResultStaysExplained<R, O>(apply: (Option<R>, O) -> Option<R>, start: map<string, R>, w: World<R, O>, a: Action<O>, v: World<R, O>, t: nat)
    requires InOrder(w) && ReadsCurrent(w) && Linear(apply, start, w) && ResultsExplained(apply, start, w) && Step(apply, w, a, v)
    requires t < |v.tasks| && Published(v.tasks[t])
    ensures v.tasks[t].stage.result ==
            apply(Replay(apply, Start(start, v.tasks[t].file), v.tasks[..t], v.tasks[t].file), v.tasks[t].op)
  {
    hide Replay, Start, Linear;
    var f := v.tasks[t].file;
    if a.Submit? {
      assert t < |w.tasks|;
      assert v.tasks[..t] == w.tasks[..t];
    } else if a.Publish? && Published(v.tasks[a.task]) && t == a.task {
      assert v.tasks[..t] == w.tasks[..t];
      StoredIsReplay(apply, start, w, f);
      ReplayIdle(apply, Start(start, f), w.tasks, t, f);
    } else if a.Publish? && Published(v.tasks[a.task]) && a.task < t {
      assert w.tasks[a.task].file != f;
      assert v.tasks[..t] == w.tasks[..t][a.task := v.tasks[a.task]];
      ReplaySkips(apply, Start(start, f), w.tasks[..t], a.task, v.tasks[a.task], f);
    } else {
      ReplaySame(apply, Start(start, f), w.tasks[..t], v.tasks[..t], f);
    }
  }

  lemma StoredIsReplay<R, O>(apply: (Option<R>, O) -> Option<R>, start: map<string, R>, w: World<R, O>, f: string)
    requires Linear(apply, start, w)
    ensures Stored(w, f) == Replay(apply, Start(start, f), w.tasks, f)
  {
  }

  lemma ResultsExplainedKept<R, O>(apply: (Option<R>, O) -> Option<R>, start: map<string, R>, w: World<R, O>, a: Action<O>, v: World<R, O>)
    requires InOrder(w) && ReadsCurrent(w) && Linear(apply, start, w) && ResultsExplained(apply, start, w) && Step(apply, w, a, v)
    ensures ResultsExplained(apply, start, v)
  {
    forall t: nat | t < |v.tasks| && Published(v.tasks[t])
      ensures v.tasks[t].stage.result ==
              apply(Replay(apply, Start(start, v.tasks[t].file), v.tasks[..t], v.tasks[t].file), v.tasks[t].op)
    {
      ResultStaysExplained(apply, start, w, a, v, t);
    }
    hide InOrder, ReadsCurrent, Linear, Step, Replay, Start;
  }

  lemma StepKeepsInv<R, O>(apply: (Option<R>, O) -> Option<R>, start: map<string, R>, w: World<R, O>, a: Action<O>, v: World<R, O>)
    requires Inv(apply, start, w) && Step(apply, w, a, v)
    ensures Inv(apply, start, v)
  {
    hide InOrder, Chained, Tails, AbsentIsIdle, ReadsCurrent, Linear, ResultsExplained, Step;
    InOrderKept(apply, w, a, v);
    ChainedKept(apply, w, a, v);
    TailsKept(apply, w, a, v);
    AbsentIsIdleKept(apply, w, a, v);
    ReadsCurrentKept(apply, w, a, v);
    LinearKept(apply, start, w, a, v);
    ResultsExplainedKept(apply, start, w, a, v);
  }

  // ---- Runs ---------------------------------------------------------------------------------

  ghost predicate Legal<R, O>(apply: (Option<R>, O) -> Option<R>, w: World<R, O>, log: seq<Action<O>>)
    decreases |log|, 0
  {
    log == [] || (Legal(apply, w, log[..|log| - 1]) && Enabled(Run(apply, w, log[..|log| - 1]), log[|log| - 1]))
  }

  ghost function Run<R, O>(apply: (Option<R>, O) -> Option<R>, w: World<R, O>, log: seq<Action<O>>): World<R, O>
    requires Legal(apply, w, log)
    decreases |log|, 1
  {
    if log == [] then w else Effect(apply, Run(apply, w, log[..|log| - 1]), log[|log| - 1])
  }

  lemma Extend<R, O>(apply: (Option<R>, O) -> Option<R>, w: World<R, O>, log: seq<Action<O>>, a: Action<O>)
    requires Legal(apply, w, log) && Enabled(Run(apply, w, log), a)
    ensures Legal(apply, w, log + [a]) && Run(apply, w, log + [a]) == Effect(apply, Run(apply, w, log), a)
  {
    assert (log + [a])[..|log|] == log;
  }

  function Idle<R, O>(records: map<string, R>): World<R, O> { World(map[], [], records) }

  lemma {:induction false} RunKeepsInv<R, O>(apply: (Option<R>, O) -> Option<R>, start: map<string, R>, log: seq<Action<O>>)
    requires Legal(apply, Idle(start), log)
    ensures Inv(apply, start, Run(apply, Idle(start), log))
  {
    if log != [] {
      RunKeepsInv(apply, start, log[..|log| - 1]);
      var w := Run(apply, Idle(start), log[..|log| - 1]);
      StepKeepsInv(apply, start, w, log[|log| - 1], Effect(apply, w, log[|log| - 1]));
      hide Inv;
    }
  }

  /**
   At every moment of every run: of two operations on one file the later has not begun until the earlier
   has settled, and nobody but the queue's running operation has changed what it read.
   */
  lemma OneAtATime<R, O>(apply: (Option<R>, O) -> Option<R>, start: map<string, R>, log: seq<Action<O>>, s: nat, t: nat)
    requires Legal(apply, Idle(start), log)
    requires var w := Run(apply, Idle(start), log); s < t < |w.tasks| && w.tasks[s].file == w.tasks[t].file
    ensures var w := Run(apply, Idle(start), log);
            && (!w.tasks[s].stage.Settled? ==> w.tasks[t].stage.Waiting?)
            && (w.tasks[s].stage.Read? ==> w.tasks[s].stage.seen == Stored(w, w.tasks[s].file))
  {
    RunKeepsInv(apply, start, log);
    hide Legal, Chained, Tails, AbsentIsIdle, Linear, ResultsExplained;
  }

  /**
   No update is lost: what a file holds is what its published operations make of it one after the other in
   submission order, and each of their callers was given exactly that intermediate record.
   */
  lemma UpdatesLinearise<R, O>(apply: (Option<R>, O) -> Option<R>, start: map<string, R>, log: seq<Action<O>>, f: string, t: nat)
    requires Legal(apply, Idle(start), log)
    ensures var w := Run(apply, Idle(start), log); Stored(w, f) == Replay(apply, Start(start, f), w.tasks, f)
    ensures var w := Run(apply, Idle(start), log);
            t < |w.tasks| && Published(w.tasks[t]) ==>
              w.tasks[t].stage.result ==
              apply(Replay(apply, Start(start, w.tasks[t].file), w.tasks[..t], w.tasks[t].file), w.tasks[t].op)
  {
    RunKeepsInv(apply, start, log);
    hide Legal, Chained, Tails, AbsentIsIdle, InOrder, ReadsCurrent;
  }

  /** The map forgets a file only when nothing on it is outstanding. */
  lemma ForgottenIsIdle<R, O>(apply: (Option<R>, O) -> Option<R>, start: map<string, R>, log: seq<Action<O>>, t: nat)
    requires Legal(apply, Idle(start), log)
    requires t < |Run(apply, Idle(start), log).tasks| && !Run(apply, Idle(start), log).tasks[t].stage.Settled?
    ensures Run(apply, Idle(start), log).tasks[t].file in Run(apply, Idle(start), log).writes
  {
    RunKeepsInv(apply, start, log);
    hide Legal, Chained, Tails, Linear, ResultsExplained, InOrder, ReadsCurrent;
  }

  // ---- Progress ------------------------------------------------------------------------------

  /** What the promise machinery can do next for a task, whatever became of the operations before it. */
  function Next<R, O>(w: World<R, O>, t: nat): Action<O>
    requires t < |w.tasks|
  {
    match w.tasks[t].stage
    case Waiting => Begin(t)
    case Running => ReadRecord(t)
    case Read(_) => Publish(t, true)
    case Settled(_) => CleanUp(t)
  }

  /** As long as any operation has not settled, one can go on: a rejected operation stops nobody. */
  lemma {:induction false} SomeoneCanGoOn<R, O>(apply: (Option<R>, O) -> Option<R>, start: map<string, R>, w: World<R, O>, t: nat)
    returns (s: nat)
    requires Inv(apply, start, w) && t < |w.tasks| && !w.tasks[t].stage.Settled?
    ensures s <= t && w.tasks[s].file == w.tasks[t].file && !w.tasks[s].stage.Settled? && Enabled(w, Next(w, s))
  {
    if w.tasks[t].stage.Waiting? && w.tasks[t].previous.Some? && !Done(w, w.tasks[t].previous.value) {
      s := SomeoneCanGoOn(apply, start, w, w.tasks[t].previous.value) by {
        hide Tails, AbsentIsIdle, InOrder, ReadsCurrent, Linear, ResultsExplained;
      }
    } else {
      s := t;
    }
  }

  function Weight<R, O>(t: Task<R, O>): nat {
    (match t.stage
     case Waiting => 4
     case Running => 3
     case Read(_) => 2
     case Settled(_) => 1)
    - if t.stage.Settled? && t.cleaned then 1 else 0
  }

  function Rank<R, O>(tasks: seq<Task<R, O>>): nat {
    if tasks == [] then 0 else Rank(tasks[..|tasks| - 1]) + Weight(tasks[|tasks| - 1])
  }

  lemma {:induction false} RankChanges<R, O>(s: seq<Task<R, O>>, t: nat, x: Task<R, O>)
    requires t < |s|
    ensures Rank(s[t := x]) == Rank(s) - Weight(s[t]) + Weight(x)
  {
    var u := s[t := x];
    if t < |s| - 1 {
      assert u[..|u| - 1] == s[..|s| - 1][t := x];
      RankChanges(s[..|s| - 1], t, x);
    } else {
      assert u[..|u| - 1] == s[..|s| - 1];
    }
  }

  /** Every step but a new submission brings the queue nearer to rest. */
  lemma StepsWind<R, O>(apply: (Option<R>, O) -> Option<R>, w: World<R, O>, a: Action<O>, v: World<R, O>)
    requires Step(apply, w, a, v) && !a.Submit?
    ensures Rank(v.tasks) < Rank(w.tasks)
  {
    RankChanges(w.tasks, a.task, v.tasks[a.task]);
  }
}
