/**
 The completion half of the background worker: watches claimed for a page are kept in storage, and the
 review text the page finds becomes an acknowledgement in a durable outbox. Unlike deliveries, up to a
 hundred watches are in flight at once, and a watch that is claimed again replaces its entry.
 */
module CompletionLease {
  import opened Options
  import L = LeaseProtocol

  type Page = L.Page

  const MAX_CONTENT := 256 * 1024

  /** A UTF-16 code unit: texts are measured in them and in UTF-8 bytes. */
  newtype Unit = n: int | 0 <= n < 0x1_0000

  datatype Report = Completed(messageId: string, content: seq<Unit>) | CompletionFailed(error: string) | Uncertain(error: string)

  /** `lease` numbers the claims; nothing the extension does reads it. */
  datatype Watch = Watch(lease: nat, completion: string, request: string, message: string, page: Page, deadline: nat)
  datatype Finding = Finding(lease: nat, completion: string, page: Page, report: Report)

  datatype Store = Store(outbox: seq<Finding>, inFlight: seq<Watch>)
  datatype Variables = Gone | Present(outbox: seq<Finding>, inFlight: seq<Watch>, blocked: bool)

  datatype Worker = Worker(
    store: Store,
    variables: Variables,
    now: nat,
    // what has happened so far
    leases: nat,
    found: map<nat, Finding>,
    posted: set<Finding>,
    taken: set<Finding>)          // recorded by the bridge

  /** `utf8Length`; a surrogate without its partner has none. */
  function Utf8Length(s: seq<Unit>): Option<nat> {
    if s == [] then Some(0)
    else if 0xD800 <= s[0] < 0xDC00 then
      if |s| > 1 && 0xDC00 <= s[1] < 0xE000 then More(4, Utf8Length(s[2..])) else None
    else if 0xDC00 <= s[0] < 0xE000 then None
    else More(if s[0] < 0x80 then 1 else if s[0] < 0x800 then 2 else 3, Utf8Length(s[1..]))
  }

  function More(bytes: nat, rest: Option<nat>): Option<nat> {
    if rest.None? then None else Some(bytes + rest.value)
  }

  /** `validCompletionContent`. */
  predicate ValidContent(c: seq<Unit>) {
    0 < |c| <= MAX_CONTENT && Utf8Length(c).Some? && Utf8Length(c).value <= MAX_CONTENT
  }

  lemma {:induction false} BytesCoverUnits(c: seq<Unit>)
    requires Utf8Length(c).Some?
    ensures |c| <= Utf8Length(c).value
  {
    if c != [] {
      BytesCoverUnits(if 0xD800 <= c[0] < 0xDC00 then c[2..] else c[1..]);
    }
  }

  /** The limit on the number of units only spares encoding what the limit on bytes would refuse as well. */
  lemma ContentIsValidByBytes(c: seq<Unit>)
    ensures ValidContent(c) <==> c != [] && Utf8Length(c).Some? && Utf8Length(c).value <= MAX_CONTENT
  {
    if Utf8Length(c).Some? {
      BytesCoverUnits(c);
    }
  }

  predicate ValidReport(r: Report) {
    match r
    case Completed(m, c) => 0 < |m| && ValidContent(c)
    case CompletionFailed(e) => 0 < |e| <= L.MAX_ERROR
    case Uncertain(e) => 0 < |e| <= L.MAX_ERROR
  }

  predicate UniqueFindings(s: seq<Finding>) { forall i, j | 0 <= i < j < |s| :: s[i].completion != s[j].completion }
  predicate UniqueWatches(s: seq<Watch>) { forall i, j | 0 <= i < j < |s| :: s[i].completion != s[j].completion }

  /** What `load` accepts. */
  predicate Accepts(s: Store) {
    && |s.outbox| <= L.MAX_OUTBOX && |s.inFlight| <= L.MAX_IN_FLIGHT
    && UniqueFindings(s.outbox) && UniqueWatches(s.inFlight)
    && (forall k | k in s.outbox :: ValidReport(k.report))
    && (forall k, e | k in s.outbox && e in s.inFlight :: k.completion != e.completion)
  }

  function LoadStore(s: Store): Variables {
    if Accepts(s) then Present(s.outbox, s.inFlight, false) else Present([], [], true)
  }

  function WithoutWatch(s: seq<Watch>, completion: string): (r: seq<Watch>)
    ensures forall e :: e in r <==> e in s && e.completion != completion
    ensures |r| <= |s|
  {
    if s == [] then []
    else if s[|s| - 1].completion == completion then WithoutWatch(s[..|s| - 1], completion)
    else WithoutWatch(s[..|s| - 1], completion) + [s[|s| - 1]]
  }

  function WithoutFinding(s: seq<Finding>, completion: string): (r: seq<Finding>)
    ensures forall k :: k in r <==> k in s && k.completion != completion
    ensures |r| <= |s|
  {
    if s == [] then []
    else if s[|s| - 1].completion == completion then WithoutFinding(s[..|s| - 1], completion)
    else WithoutFinding(s[..|s| - 1], completion) + [s[|s| - 1]]
  }

  function Unexpired(s: seq<Watch>, now: nat): (r: seq<Watch>)
    ensures forall e :: e in r <==> e in s && now < e.deadline
    ensures |r| <= |s|
  {
    if s == [] then []
    else if now < s[|s| - 1].deadline then Unexpired(s[..|s| - 1], now) + [s[|s| - 1]]
    else Unexpired(s[..|s| - 1], now)
  }

  // ---- Actions -------------------------------------------------------------------------------

  datatype Action =
    | Wake
    | Crash
    | Tick(elapsed: nat)
    | PostFinding(finding: Finding)
    | BridgeTakes(finding: Finding)   // whether or not its answer arrives
    | DropFinding(dropped: Finding)
    | DropExpired(before: nat)
    | CommitWatch(page: Page, completion: string, request: string, message: string, deadline: nat)
    | QueueFinding(watch: Watch, report: Report)

  predicate Working(w: Worker) { w.variables.Present? && !w.variables.blocked }

  predicate Enabled(w: Worker, a: Action) {
    match a
    case Wake => w.variables.Gone?
    case Crash => true
    case Tick(_) => true
    case PostFinding(k) => Working(w) && k in w.variables.outbox
    case BridgeTakes(k) => k in w.posted
    case DropFinding(k) => Working(w) && k in w.variables.outbox && k in w.taken
    case DropExpired(before) => Working(w) && w.variables.outbox == [] && before <= w.now
    case CommitWatch(_, completion, _, _, deadline) =>
      && Working(w) && w.variables.outbox == [] && w.now < deadline
      && (|w.variables.inFlight| < L.MAX_IN_FLIGHT || exists e | e in w.variables.inFlight :: e.completion == completion)
    case QueueFinding(e, report) =>
      && Working(w) && e in w.variables.inFlight && w.now < e.deadline && ValidReport(report)
      && |w.variables.outbox| < L.MAX_OUTBOX && (forall k | k in w.variables.outbox :: k.completion != e.completion)
  }

  /** `commitCompletionState`, caps included. */
  function Commit(w: Worker, outbox: seq<Finding>, inFlight: seq<Watch>): Worker {
    var s := Store(Last(outbox, L.MAX_OUTBOX), Last(inFlight, L.MAX_IN_FLIGHT));
    w.(store := s, variables := Present(s.outbox, s.inFlight, false))
  }

  function FindingOf(e: Watch, report: Report): Finding { Finding(e.lease, e.completion, e.page, report) }

  function Effect(w: Worker, a: Action): Worker
    requires Enabled(w, a)
  {
    match a
    case Wake => w.(variables := LoadStore(w.store))
    case Crash => w.(variables := Gone)
    case Tick(n) => w.(now := w.now + n)
    case PostFinding(k) => w.(posted := w.posted + {k})
    case BridgeTakes(k) => w.(taken := w.taken + {k})
    case DropFinding(k) => Commit(w, WithoutFinding(w.variables.outbox, k.completion), w.variables.inFlight)
    case DropExpired(before) => Commit(w, w.variables.outbox, Unexpired(w.variables.inFlight, before))
    case CommitWatch(p, completion, request, message, deadline) =>
      Commit(w, w.variables.outbox,
             WithoutWatch(w.variables.inFlight, completion) + [Watch(w.leases, completion, request, message, p, deadline)])
        .(leases := w.leases + 1)
    case QueueFinding(e, report) =>
      Commit(w, w.variables.outbox + [FindingOf(e, report)], WithoutWatch(w.variables.inFlight, e.completion))
        .(found := w.found[e.lease := FindingOf(e, report)])
  }

  ghost predicate Step(w: Worker, a: Action, v: Worker) { Enabled(w, a) && v == Effect(w, a) }

  // ---- The invariant ---------------------------------------------------------------------------

  /** What is stored always loads, is what the worker has in memory, and never comes near the caps. */
  ghost predicate StoreSound(w: Worker) {
    && Accepts(w.store) && |w.store.outbox| + |w.store.inFlight| <= L.MAX_IN_FLIGHT
    && (w.variables.Present? ==> w.variables == Present(w.store.outbox, w.store.inFlight, false))
  }

  /** A claim has at most one finding, ever, and it is the one stored and posted. */
  ghost predicate FindingsUnique(w: Worker) {
    && (forall e | e in w.store.inFlight :: e.lease < w.leases && e.lease !in w.found)
    && (forall k | k in w.store.outbox || k in w.posted :: k.lease in w.found && w.found[k.lease] == k)
    && (forall l | l in w.found :: l < w.leases && w.found[l].lease == l && ValidReport(w.found[l].report))
  }

  /** A finding is stored until the bridge has acknowledged it. */
  ghost predicate FindingsKept(w: Worker) {
    && (forall l | l in w.found :: w.found[l] in w.store.outbox || w.found[l] in w.taken)
    && w.taken <= w.posted
  }

  ghost predicate LeasesDistinct(s: seq<Watch>) {
    forall i, j | 0 <= i < j < |s| :: s[i].lease != s[j].lease
  }

  ghost predicate Inv(w: Worker) { StoreSound(w) && FindingsUnique(w) && LeasesDistinct(w.store.inFlight) && FindingsKept(w) }

  lemma {:induction false} WithoutWatchAbsent(s: seq<Watch>, completion: string)
    requires forall e | e in s :: e.completion != completion
    ensures WithoutWatch(s, completion) == s
  {
    if s != [] {
      var front, last := s[..|s| - 1], s[|s| - 1];
      assert s == front + [last] && last in s;
      WithoutWatchAbsent(front, completion);
    }
  }

  lemma {:induction false} WithoutWatchAt(s: seq<Watch>, i: nat)
    requires UniqueWatches(s) && i < |s|
    ensures WithoutWatch(s, s[i].completion) == s[..i] + s[i + 1..]
  {
    hide UniqueWatches;
    var front := s[..|s| - 1];
    FrontUnique(s);
    if i == |s| - 1 {
      WithoutWatchAbsent(front, s[i].completion);
    } else {
      assert front[i] == s[i] && s[i] in front;
      WithoutWatchAt(front, i);
      Rejoined(s, i);
    }
  }

  lemma FrontUnique(s: seq<Watch>)
    requires UniqueWatches(s) && s != []
    ensures UniqueWatches(s[..|s| - 1]) && forall e | e in s[..|s| - 1] :: e.completion != s[|s| - 1].completion
  {
  }

  lemma Rejoined<T>(s: seq<T>, i: nat)
    requires i < |s| - 1
    ensures s[..i] + s[i + 1..] == s[..|s| - 1][..i] + s[..|s| - 1][i + 1..] + [s[|s| - 1]]
  {
  }

  lemma WithoutWatchUnique(s: seq<Watch>, completion: string)
    requires UniqueWatches(s)
    ensures UniqueWatches(WithoutWatch(s, completion))
    ensures (exists e | e in s :: e.completion == completion) ==> |WithoutWatch(s, completion)| < |s|
    ensures LeasesDistinct(s) ==> LeasesDistinct(WithoutWatch(s, completion))
  {
    if i :| 0 <= i < |s| && s[i].completion == completion {
      WithoutWatchAt(s, i);
    } else {
      WithoutWatchAbsent(s, completion);
    }
  }

  lemma {:induction false} WithoutFindingUnique(s: seq<Finding>, completion: string)
    requires UniqueFindings(s)
    ensures UniqueFindings(WithoutFinding(s, completion))
  {
    if s != [] {
      var front := s[..|s| - 1];
      WithoutFindingUnique(front, completion);
      assert forall k | k in front :: exists i :: 0 <= i < |front| && s[i] == k;
    }
  }

  lemma {:induction false} UnexpiredUnique(s: seq<Watch>, now: nat)
    requires UniqueWatches(s)
    ensures UniqueWatches(Unexpired(s, now))
  {
    hide UniqueWatches;
    if s == [] {
      NoWatches();
    } else {
      FrontUnique(s);
      UnexpiredUnique(s[..|s| - 1], now);
      OneMoreWatch(Unexpired(s[..|s| - 1], now), s[|s| - 1]);
    }
  }

  lemma NoWatches()
    ensures UniqueWatches([]) && LeasesDistinct([])
  {
  }

  lemma OneMoreWatch(s: seq<Watch>, e: Watch)
    requires forall f | f in s :: f.completion != e.completion
    ensures UniqueWatches(s) ==> UniqueWatches(s + [e])
  {
  }

  lemma {:induction false} UnexpiredLeases(s: seq<Watch>, now: nat)
    requires LeasesDistinct(s)
    ensures LeasesDistinct(Unexpired(s, now))
  {
    hide LeasesDistinct;
    if s == [] {
      NoWatches();
    } else {
      FrontLeases(s);
      UnexpiredLeases(s[..|s| - 1], now);
      OneMoreLease(Unexpired(s[..|s| - 1], now), s[|s| - 1]);
    }
  }

  lemma FrontLeases(s: seq<Watch>)
    requires LeasesDistinct(s) && s != []
    ensures LeasesDistinct(s[..|s| - 1]) && forall e | e in s[..|s| - 1] :: e.lease != s[|s| - 1].lease
  {
  }

  lemma OneMoreLease(s: seq<Watch>, e: Watch)
    requires forall f | f in s :: f.lease != e.lease
    ensures LeasesDistinct(s) ==> LeasesDistinct(s + [e])
  {
  }

  lemma StoreSoundByQueueing(w: Worker, a: Action, v: Worker)
    requires StoreSound(w) && Step(w, a, v) && a.QueueFinding?
    ensures StoreSound(v)
  {
    hide LeasesDistinct, UniqueWatches, ValidReport;
    WithoutWatchUnique(w.store.inFlight, a.watch.completion);
  }

  lemma StoreSoundByClaim(w: Worker, a: Action, v: Worker)
    requires StoreSound(w) && Step(w, a, v) && a.CommitWatch?
    ensures StoreSound(v)
  {
    hide LeasesDistinct, UniqueWatches, UniqueFindings, ValidReport;
    WithoutWatchUnique(w.store.inFlight, a.completion);
    OneMoreWatch(WithoutWatch(w.store.inFlight, a.completion), Watch(w.leases, a.completion, a.request, a.message, a.page, a.deadline));
  }

  lemma StoreSoundByOthers(w: Worker, a: Action, v: Worker)
    requires StoreSound(w) && Step(w, a, v) && !a.QueueFinding? && !a.CommitWatch?
    ensures StoreSound(v)
  {
    hide LeasesDistinct, UniqueWatches, UniqueFindings, ValidReport;
    if a.DropFinding? {
      WithoutFindingUnique(w.store.outbox, a.dropped.completion);
    } else if a.DropExpired? {
      UnexpiredUnique(w.store.inFlight, a.before);
    }
  }

  lemma StoreSoundKept(w: Worker, a: Action, v: Worker)
    requires StoreSound(w) && Step(w, a, v)
    ensures StoreSound(v)
  {
    hide *;
    if a.QueueFinding? {
      StoreSoundByQueueing(w, a, v);
    } else if a.CommitWatch? {
      StoreSoundByClaim(w, a, v);
    } else {
      StoreSoundByOthers(w, a, v);
    }
  }

  lemma OthersHaveOtherLeases(s: seq<Watch>, e: Watch)
    requires UniqueWatches(s) && LeasesDistinct(s) && e in s
    ensures forall f | f in WithoutWatch(s, e.completion) :: f.lease != e.lease
  {
    var k :| 0 <= k < |s| && s[k] == e;
    WithoutWatchAt(s, k);
  }

  lemma FindingsUniqueKept(w: Worker, a: Action, v: Worker)
    requires StoreSound(w) && FindingsUnique(w) && LeasesDistinct(w.store.inFlight) && Step(w, a, v)
    ensures FindingsUnique(v)
  {
    hide UniqueWatches, LeasesDistinct, UniqueFindings;
    if a.QueueFinding? {
      OthersHaveOtherLeases(w.store.inFlight, a.watch);
    }
  }

  lemma LeasesDistinctKept(w: Worker, a: Action, v: Worker)
    requires StoreSound(w) && FindingsUnique(w) && LeasesDistinct(w.store.inFlight) && Step(w, a, v)
    ensures LeasesDistinct(v.store.inFlight)
  {
    hide LeasesDistinct;
    match a
    case DropExpired(before) => UnexpiredLeases(w.store.inFlight, before);
    case CommitWatch(_, completion, _, _, _) =>
      WithoutWatchUnique(w.store.inFlight, completion);
      OneMoreLease(WithoutWatch(w.store.inFlight, completion), v.store.inFlight[|v.store.inFlight| - 1]);
    case QueueFinding(e, _) => WithoutWatchUnique(w.store.inFlight, e.completion);
    case _ =>
  }

  lemma FindingsKeptKept(w: Worker, a: Action, v: Worker)
    requires StoreSound(w) && FindingsUnique(w) && FindingsKept(w) && Step(w, a, v)
    ensures FindingsKept(v)
  {
    if a.DropFinding? {
      forall l | l in w.found && w.found[l] in w.store.outbox && w.found[l].completion == a.dropped.completion
        ensures w.found[l] == a.dropped
      {
        OneFindingEach(w.store.outbox, w.found[l], a.dropped);
      }
    }
  }

  lemma OneFindingEach(s: seq<Finding>, a: Finding, b: Finding)
    requires UniqueFindings(s) && a in s && b in s && a.completion == b.completion
    ensures a == b
  {
  }

  lemma StepKeepsInv(w: Worker, a: Action, v: Worker)
    requires Inv(w) && Step(w, a, v)
    ensures Inv(v)
  {
    StoreSoundKept(w, a, v);
    FindingsUniqueKept(w, a, v);
    LeasesDistinctKept(w, a, v);
    FindingsKeptKept(w, a, v);
    hide Step, StoreSound, FindingsUnique, FindingsKept, LeasesDistinct;
  }

  // ---- Runs --------------------------------------------------------------------------------------

  ghost predicate Legal(w: Worker, log: seq<Action>)
    decreases |log|, 0
  {
    log == [] || (Legal(w, log[..|log| - 1]) && Enabled(Run(w, log[..|log| - 1]), log[|log| - 1]))
  }

  ghost function Run(w: Worker, log: seq<Action>): Worker
    requires Legal(w, log)
    decreases |log|, 1
  {
    if log == [] then w else Effect(Run(w, log[..|log| - 1]), log[|log| - 1])
  }

  lemma Extend(w: Worker, log: seq<Action>, a: Action)
    requires Legal(w, log) && Enabled(Run(w, log), a)
    ensures Legal(w, log + [a]) && Run(w, log + [a]) == Effect(Run(w, log), a)
  {
    assert (log + [a])[..|log|] == log;
  }

  const INSTALLED := Worker(Store([], []), Gone, 0, 0, map[], {}, {})

  lemma {:induction false} RunKeepsInv(w: Worker, log: seq<Action>)
    requires Inv(w) && Legal(w, log)
    ensures Inv(Run(w, log))
  {
    hide Inv, Enabled, Effect;
    if log != [] {
      RunKeepsInv(w, log[..|log| - 1]);
      StepKeepsInv(Run(w, log[..|log| - 1]), log[|log| - 1], Run(w, log));
    }
  }

  /**
   Whatever dies and whenever, every stored image passes the reader's validation, recovery is never blocked, and
   the caps are never reached: at most a hundred watches and findings are stored together.
   */
  lemma ImagesAlwaysLoad(log: seq<Action>)
    requires Legal(INSTALLED, log)
    ensures var w := Run(INSTALLED, log);
            && Accepts(w.store) && |w.store.outbox| + |w.store.inFlight| <= L.MAX_IN_FLIGHT
            && (w.variables.Present? ==> Effect(Effect(w, Crash), Wake) == w)
  {
    RunKeepsInv(INSTALLED, log);
    hide Legal, Accepts, FindingsUnique, FindingsKept, LeasesDistinct;
  }

  /** What has been found, posted or taken stays so. */
  ghost predicate Grown(w: Worker, v: Worker) {
    w.posted <= v.posted && w.taken <= v.taken && forall l | l in w.found :: l in v.found && v.found[l] == w.found[l]
  }

  lemma StepGrows(w: Worker, a: Action, v: Worker)
    requires Inv(w) && Step(w, a, v)
    ensures Grown(w, v)
  {
    hide Accepts, LeasesDistinct, FindingsKept;
  }

  lemma {:induction false} RunGrows(w: Worker, log: seq<Action>)
    requires Inv(w) && Legal(w, log)
    ensures Grown(w, Run(w, log))
  {
    hide Inv, Enabled, Effect;
    if log != [] {
      RunGrows(w, log[..|log| - 1]);
      RunKeepsInv(w, log[..|log| - 1]);
      StepGrows(Run(w, log[..|log| - 1]), log[|log| - 1], Run(w, log));
    }
  }

  /** All findings posted for one claim are the same, at whatever two moments of a run. */
  lemma PostedFindingsAgree(w: Worker, log: seq<Action>, j: Finding, k: Finding)
    requires Inv(w) && Legal(w, log) && j in w.posted && k in Run(w, log).posted && j.lease == k.lease
    ensures j == k
  {
    RunGrows(w, log);
    RunKeepsInv(w, log);
    hide Legal, StoreSound, LeasesDistinct, FindingsKept;
  }

  lemma TakenNow(w: Worker, a: Action, v: Worker, k: Finding)
    requires Step(w, a, v) && k in v.taken && k !in w.taken
    ensures a == BridgeTakes(k) && k in w.posted
  {
  }

  lemma PostedNow(w: Worker, a: Action, v: Worker, k: Finding)
    requires Step(w, a, v) && k in v.posted && k !in w.posted
    ensures a == PostFinding(k)
  {
  }

  lemma {:induction false} PostedByWorker(w: Worker, log: seq<Action>, k: Finding) returns (i: nat)
    requires Legal(w, log) && k in Run(w, log).posted && k !in w.posted
    ensures i < |log| && log[i] == PostFinding(k)
    decreases |log|
  {
    hide Enabled, Effect;
    var n := |log| - 1;
    if k in Run(w, log[..n]).posted {
      i := PostedByWorker(w, log[..n], k);
    } else {
      PostedNow(Run(w, log[..n]), log[n], Run(w, log), k);
      i := n;
    }
  }

  /** The bridge has taken only what the worker posted to it before. */
  lemma {:induction false} TakenByBridge(w: Worker, log: seq<Action>, k: Finding) returns (i: nat, b: nat)
    requires Legal(w, log) && k in Run(w, log).taken && k !in w.taken && k !in w.posted
    ensures i < b < |log| && log[i] == PostFinding(k) && log[b] == BridgeTakes(k)
    decreases |log|
  {
    hide Enabled, Effect;
    var n := |log| - 1;
    if k in Run(w, log[..n]).taken {
      i, b := TakenByBridge(w, log[..n], k);
    } else {
      TakenNow(Run(w, log[..n]), log[n], Run(w, log), k);
      i := PostedByWorker(w, log[..n], k);
      b := n;
    }
  }

  /**
   A stored finding stays stored until the bridge has taken it. One not posted before is gone only after it was
   posted and the bridge then took it, which the worker's own drop does not bring about.
   */
  lemma FindingsStayUntilTaken(w: Worker, log: seq<Action>, k: Finding) returns (i: nat, b: nat)
    requires Inv(w) && Legal(w, log) && k in w.store.outbox
    ensures k in Run(w, log).store.outbox || k in Run(w, log).taken
    ensures k !in Run(w, log).store.outbox && k !in w.posted ==>
              i < b < |log| && log[i] == PostFinding(k) && log[b] == BridgeTakes(k)
  {
    RunGrows(w, log);
    RunKeepsInv(w, log);
    assert k in Run(w, log).store.outbox || k in Run(w, log).taken by { hide Legal, StoreSound, LeasesDistinct; }
    i, b := 0, 0;
    if k !in Run(w, log).store.outbox && k !in w.posted {
      assert w.taken <= w.posted by { hide Legal, StoreSound, LeasesDistinct; }
      hide Inv, Legal;
      i, b := TakenByBridge(w, log, k);
    }
  }
}
