/** The completion half of the background worker as it runs; the ghost `log` is the run so far. */
module CompletionWorker {
  import opened Options
  import L = LeaseProtocol
  import opened LeaseWorker
  import C = CompletionLease

  datatype Offer = Offer(completion: string, request: string, message: string, deadline: nat)

  class CompletionWorker {
    var worker: C.Worker
    ghost var log: seq<C.Action>

    ghost predicate Valid()
      reads this
    {
      C.Legal(C.INSTALLED, log) && worker == C.Run(C.INSTALLED, log) && C.Inv(worker)
    }

    predicate Loaded() reads this { worker.variables.Present? }
    function AckOutbox(): seq<C.Finding> reads this requires Loaded() { worker.variables.outbox }
    function InFlight(): seq<C.Watch> reads this requires Loaded() { worker.variables.inFlight }

    constructor ()
      ensures Valid() && log == [] && worker == C.INSTALLED
    {
      worker, log := C.INSTALLED, [];
    }

    method Happens(a: C.Action)
      requires Valid() && C.Enabled(worker, a)
      modifies this
      ensures Valid() && worker == C.Effect(old(worker), a) && log == old(log) + [a]
    {
      hide C.Inv, C.Enabled, C.Effect;
      C.StepKeepsInv(worker, a, C.Effect(worker, a));
      C.Extend(C.INSTALLED, log, a);
      worker := C.Effect(worker, a);
      log := log + [a];
    }

    /** Time passes and the bridge takes what it was sent, then the awaited operation ends, or the worker dies first. */
    method Await() returns (r: Outcome)
      requires Valid() && Loaded()
      modifies this
      ensures Valid() && old(log) <= log
      ensures !r.Died? ==> worker == old(worker).(now := worker.now, taken := worker.taken) && old(worker.now) <= worker.now
      ensures r.Died? ==> worker == old(worker).(now := worker.now, taken := worker.taken, variables := C.Gone)
      ensures old(worker.taken) <= worker.taken
    {
      hide C.Inv, C.Legal;
      var sent: C.Finding := *;
      if sent in worker.posted {
        Happens(C.BridgeTakes(sent));
      }
      var elapsed: int := *;
      if elapsed > 0 {
        Happens(C.Tick(elapsed));
      }
      r := *;
      if r.Died? {
        Happens(C.Crash);
      }
    }

    /** Recovery is never blocked: the stored image always loads. */
    method Load() returns (r: Outcome)
      requires Valid()
      modifies this
      ensures Valid() && old(log) <= log && worker.store == old(worker.store)
      ensures r.Done? ==> Loaded() && worker == old(worker).(variables := C.Present(worker.store.outbox, worker.store.inFlight, false))
      ensures old(Loaded()) ==> r.Done? && worker == old(worker)
    {
      hide C.Legal, C.FindingsUnique, C.FindingsKept, C.LeasesDistinct, C.Accepts;
      r := Done;
      if Loaded() {
        return;
      }
      r := *;
      if r.Done? {
        Happens(C.Wake);
      }
    }

    static ghost predicate Commits(w: C.Worker, a: C.Action, outbox: seq<C.Finding>, inFlight: seq<C.Watch>) {
      && C.Enabled(w, a)
      && C.Effect(w, a).store == C.Store(Last(outbox, L.MAX_OUTBOX), Last(inFlight, L.MAX_IN_FLIGHT))
    }

    method CommitCompletionState(nextOutbox: seq<C.Finding>, nextInFlight: seq<C.Watch>, a: C.Action, survives: bool)
      returns (r: Outcome)
      requires Valid() && Loaded() && Commits(worker, a, nextOutbox, nextInFlight)
      modifies this
      ensures Valid() && old(log) <= log
      ensures r.Done? ==> worker == C.Effect(old(worker), a)
      ensures r.Threw? ==> worker == old(worker)
      ensures r.Died? ==> worker == C.Effect(old(worker), a).(variables := C.Gone)
    {
      hide C.Inv, C.Legal;
      if * {
        return Threw;
      }
      Happens(a);
      r := Done;
      if !survives {
        Happens(C.Crash);
        r := Died;
      }
    }

    method FindWatch(completion: string) returns (found: Option<C.Watch>)
      requires Loaded()
      ensures found.Some? ==> found.value in InFlight() && found.value.completion == completion
      ensures found.None? ==> forall e | e in InFlight() :: e.completion != completion
    {
      var i := 0;
      while i < |InFlight()|
        invariant i <= |InFlight()| && forall j | 0 <= j < i :: InFlight()[j].completion != completion
      {
        if InFlight()[i].completion == completion {
          return Some(InFlight()[i]);
        }
        i := i + 1;
      }
      found := None;
    }

    method FindFinding(completion: string) returns (found: Option<C.Finding>)
      requires Loaded()
      ensures found.Some? ==> found.value in AckOutbox() && found.value.completion == completion
      ensures found.None? ==> forall k | k in AckOutbox() :: k.completion != completion
    {
      var i := 0;
      while i < |AckOutbox()|
        invariant i <= |AckOutbox()| && forall j | 0 <= j < i :: AckOutbox()[j].completion != completion
      {
        if AckOutbox()[i].completion == completion {
          return Some(AckOutbox()[i]);
        }
        i := i + 1;
      }
      found := None;
    }

    /** Posts the first finding, and drops it once the bridge has answered that it took it. */
    method FlushFirst() returns (r: Outcome, ok: bool)
      requires Valid() && C.Working(worker) && AckOutbox() != []
      modifies this
      ensures Valid() && old(log) <= log
      ensures !r.Died? ==> C.Working(worker) && InFlight() == old(InFlight()) && old(worker.now) <= worker.now
      ensures !r.Died? ==> worker.found == old(worker.found) && worker.leases == old(worker.leases) && old(worker.taken) <= worker.taken
      ensures r.Done? && ok ==> AckOutbox() == old(AckOutbox())[1..] && old(AckOutbox())[0] in worker.taken
      ensures r.Done? && !ok ==> AckOutbox() == old(AckOutbox())
    {
      hide C.Legal, C.FindingsUnique, C.FindingsKept, C.LeasesDistinct, C.Accepts, C.Enabled, C.Effect, C.StoreSound;
      var payload := AckOutbox()[0];
      PostingIsAllowed(worker, payload);
      Happens(C.PostFinding(payload));
      ok := false;
      r := Await();
      if !r.Done? {
        return;
      }
      var taken: bool := *;
      if !taken {
        return;
      }
      TakingIsAllowed(worker, payload);
      Happens(C.BridgeTakes(payload));
      var survives: bool := *;
      NeverBlocked();
      DroppingIsAllowed(worker, payload);
      r := CommitCompletionState(C.WithoutFinding(AckOutbox(), payload.completion), InFlight(), C.DropFinding(payload), survives);
      ok := r.Done?;
    }

    /** The bridge takes the findings one by one; the first it does not take ends the flush. */
    method FlushCompletionAcks() returns (r: Outcome, ok: bool)
      requires Valid() && Loaded()
      modifies this
      ensures Valid() && old(log) <= log
      ensures !r.Died? ==> Loaded() && InFlight() == old(InFlight()) && old(worker.now) <= worker.now && worker.found == old(worker.found)
      ensures !r.Died? ==> worker.leases == old(worker.leases)
      ensures r.Done? ==> (ok <==> AckOutbox() == [])
      ensures r.Done? && ok ==> forall k | k in old(AckOutbox()) :: k in worker.taken
    {
      hide C.Legal, C.FindingsUnique, C.FindingsKept, C.LeasesDistinct, C.Accepts, C.Enabled, C.Effect, C.StoreSound;
      NeverBlocked();
      var pending := AckOutbox();
      var i := 0;
      while i < |pending|
        invariant Valid() && C.Working(worker) && old(log) <= log && i <= |pending|
        invariant InFlight() == old(InFlight()) && AckOutbox() == pending[i..] && old(worker.now) <= worker.now
        invariant worker.found == old(worker.found) && worker.leases == old(worker.leases)
        invariant forall j | 0 <= j < i :: pending[j] in worker.taken
      {
        r, ok := FlushFirst();
        if !r.Done? || !ok {
          return;
        }
        assert pending[i..][1..] == pending[i + 1..];
        i := i + 1;
      }
      r, ok := Done, true;
    }

    /** What would make the worker refuse everything never comes about. */
    lemma NeverBlocked()
      requires Valid() && Loaded()
      ensures C.Working(worker) && C.StoreSound(worker)
    {
    }

    static lemma PostingIsAllowed(w: C.Worker, k: C.Finding)
      requires C.Working(w) && k in w.variables.outbox
      ensures C.Enabled(w, C.PostFinding(k)) && C.Effect(w, C.PostFinding(k)) == w.(posted := w.posted + {k})
    {
    }

    static lemma TakingIsAllowed(w: C.Worker, k: C.Finding)
      requires k in w.posted
      ensures C.Enabled(w, C.BridgeTakes(k)) && C.Effect(w, C.BridgeTakes(k)) == w.(taken := w.taken + {k})
    {
    }

    static lemma DroppingIsAllowed(w: C.Worker, k: C.Finding)
      requires C.StoreSound(w) && w.variables.Present? && w.variables.outbox != [] && w.variables.outbox[0] == k && k in w.taken
      ensures Commits(w, C.DropFinding(k), C.WithoutFinding(w.variables.outbox, k.completion), w.variables.inFlight)
      ensures var v := C.Effect(w, C.DropFinding(k));
              v == w.(store := C.Store(w.variables.outbox[1..], w.variables.inFlight),
                      variables := C.Present(w.variables.outbox[1..], w.variables.inFlight, false))
    {
      WithoutFirst(w.variables.outbox);
    }

    static lemma {:induction false} WithoutOther(s: seq<C.Finding>, completion: string)
      requires forall k | k in s :: k.completion != completion
      ensures C.WithoutFinding(s, completion) == s
    {
      if s != [] {
        var front, last := s[..|s| - 1], s[|s| - 1];
        assert s == front + [last] && last in s;
        WithoutOther(front, completion);
      }
    }

    static lemma {:induction false} WithoutFirst(s: seq<C.Finding>)
      requires s != [] && C.UniqueFindings(s)
      ensures C.WithoutFinding(s, s[0].completion) == s[1..]
    {
      if |s| > 1 {
        WithoutFirst(s[..|s| - 1]);
        assert s[1..] == s[..|s| - 1][1..] + [s[|s| - 1]];
      }
    }

    /** A claim may be posted only once nothing waits to be acknowledged; expired watches are dropped first. */
    method PrepareCompletionClaim() returns (r: Outcome, ready: bool)
      requires Valid()
      modifies this
      ensures Valid() && old(log) <= log
      ensures r.Done? && ready ==> C.Working(worker) && AckOutbox() == []
    {
      hide C.Legal, C.FindingsUnique, C.FindingsKept, C.LeasesDistinct, C.Accepts, C.Enabled, C.Effect, C.StoreSound;
      ready := false;
      r := Load();
      if !r.Done? {
        return;
      }
      var flushed;
      r, flushed := FlushCompletionAcks();
      if !r.Done? || !flushed {
        return;
      }
      NeverBlocked();
      var now := worker.now;
      var live := C.Unexpired(InFlight(), now);
      if |live| != |InFlight()| {
        var survives: bool := *;
        DroppingExpiredIsAllowed(worker, now);
        r := CommitCompletionState(AckOutbox(), live, C.DropExpired(now), survives);
        if !r.Done? {
          return;
        }
      }
      r, ready := Done, true;
    }

    static lemma DroppingExpiredIsAllowed(w: C.Worker, now: nat)
      requires C.StoreSound(w) && C.Working(w) && w.variables.outbox == [] && now <= w.now
      ensures Commits(w, C.DropExpired(now), w.variables.outbox, C.Unexpired(w.variables.inFlight, now))
      ensures var live := C.Unexpired(w.variables.inFlight, now);
              C.Effect(w, C.DropExpired(now)) == w.(store := C.Store([], live), variables := C.Present([], live, false))
    {
    }

    /** A watch the page gets back is stored under a lease of its own, in place of any earlier one of that id. */
    method ClaimCompletion(page: L.Page, reply: Option<Offer>) returns (r: Outcome, command: Option<Offer>)
      requires Valid() && Loaded()
      modifies this
      ensures Valid() && old(log) <= log
      ensures r.Done? && command.Some? ==>
        && command == reply && Loaded() && AckOutbox() == [] && worker.leases > 0
        && C.Watch(worker.leases - 1, reply.value.completion, reply.value.request, reply.value.message, page, reply.value.deadline) in InFlight()
        && forall e | e in InFlight() && e.completion == reply.value.completion :: e.lease == worker.leases - 1
    {
      hide C.Legal, C.FindingsUnique, C.FindingsKept, C.LeasesDistinct, C.Accepts, C.Enabled, C.Effect, C.StoreSound;
      command := None;
      var ready;
      r, ready := PrepareCompletionClaim();
      if !r.Done? || !ready {
        return;
      }
      r := Await();
      if !r.Done? || reply.None? || reply.value.deadline <= worker.now {
        return;
      }
      var o := reply.value;
      var known := FindWatch(o.completion);
      if |InFlight()| >= L.MAX_IN_FLIGHT && known.None? {
        return;
      }
      NeverBlocked();
      var a := C.CommitWatch(page, o.completion, o.request, o.message, o.deadline);
      var next := C.WithoutWatch(InFlight(), o.completion) + [C.Watch(worker.leases, o.completion, o.request, o.message, page, o.deadline)];
      ClaimingIsAllowed(worker, page, o);
      var survives: bool := *;
      r := CommitCompletionState(AckOutbox(), next, a, survives);
      if r.Done? {
        command := reply;
      }
    }

    static lemma ClaimingIsAllowed(w: C.Worker, page: L.Page, o: Offer)
      requires C.StoreSound(w) && C.Working(w) && w.variables.outbox == [] && w.now < o.deadline
      requires |w.variables.inFlight| < L.MAX_IN_FLIGHT || exists e :: e in w.variables.inFlight && e.completion == o.completion
      ensures var a := C.CommitWatch(page, o.completion, o.request, o.message, o.deadline);
              var watch := C.Watch(w.leases, o.completion, o.request, o.message, page, o.deadline);
              var next := C.WithoutWatch(w.variables.inFlight, o.completion) + [watch];
              && Commits(w, a, w.variables.outbox, next)
              && C.Effect(w, a) == w.(store := C.Store([], next), variables := C.Present([], next, false), leases := w.leases + 1)
    {
      C.WithoutWatchUnique(w.variables.inFlight, o.completion);
    }

    /**
     A report is accepted only for an unexpired watch of this page, or as a repeat of the finding stored, and an
     accepted one has been taken by the bridge.
     */
    method ReceiveCompletionAck(page: L.Page, completion: string, report: C.Report) returns (r: Outcome, accepted: bool)
      requires Valid() && Loaded()
      modifies this
      ensures Valid() && old(log) <= log
      ensures r.Done? && accepted ==> Loaded() && AckOutbox() == []
      ensures r.Done? && accepted ==> exists k :: k in worker.taken && k.completion == completion && k.page == page && k.report == report
      ensures r.Done? && accepted ==>
        forall e | e in old(InFlight()) && e.completion == completion ::
          e.page == page && old(worker.now) < e.deadline && C.ValidReport(report) && C.FindingOf(e, report) in worker.taken
    {
      hide C.Legal, C.FindingsUnique, C.FindingsKept, C.LeasesDistinct, C.Accepts, C.Enabled, C.Effect, C.StoreSound;
      accepted := false;
      r := Done;
      var entry := FindWatch(completion);
      var queued := FindFinding(completion);
      if entry.None? {
        if queued.None? || queued.value.page != page || queued.value.report != report {
          return;
        }
        r, accepted := FlushCompletionAcks();
        return;
      }
      var e := entry.value;
      if e.page != page || e.deadline <= worker.now || !C.ValidReport(report) {
        return;
      }
      NeverBlocked();
      NothingConflicts(worker, e);
      assert queued.None?;
      var next := AckOutbox() + [C.FindingOf(e, report)];
      QueueingIsAllowed(worker, e, report);
      var survives: bool := *;
      r := CommitCompletionState(next, C.WithoutWatch(InFlight(), completion), C.QueueFinding(e, report), survives);
      if !r.Done? {
        return;
      }
      assert C.FindingOf(e, report) in AckOutbox();
      r, accepted := FlushCompletionAcks();
    }

    /** A watch in flight is alone under its id, and no finding of that id is waiting. */
    static lemma NothingConflicts(w: C.Worker, e: C.Watch)
      requires C.StoreSound(w) && C.Working(w) && e in w.variables.inFlight
      ensures forall k | k in w.variables.outbox :: k.completion != e.completion
      ensures forall f | f in w.variables.inFlight && f.completion == e.completion :: f == e
      ensures |w.variables.outbox| < L.MAX_IN_FLIGHT
    {
    }

    static lemma QueueingIsAllowed(w: C.Worker, e: C.Watch, report: C.Report)
      requires C.StoreSound(w) && C.Working(w) && e in w.variables.inFlight && w.now < e.deadline && C.ValidReport(report)
      ensures var a, next, rest := C.QueueFinding(e, report), w.variables.outbox + [C.FindingOf(e, report)],
                                   C.WithoutWatch(w.variables.inFlight, e.completion);
              && Commits(w, a, next, rest)
              && C.Effect(w, a) == w.(store := C.Store(next, rest), variables := C.Present(next, rest, false),
                                      found := w.found[e.lease := C.FindingOf(e, report)])
    {
      NothingConflicts(w, e);
    }
  }
}
