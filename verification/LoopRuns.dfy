/**
 Whole runs of the loop: any interleaving of its handlers' durable writes with other
 actors, with the handler abandoned (crash, restart, rethrown error) between any two of them.
 */
module LoopRuns {
  import opened Options
  import opened Identity
  import opened LoopProtocol
  import opened LoopInvariant

  /** The disk before action `i` of the run. */
  function At(w: Disk, log: seq<Action>, i: nat): Disk
    requires Legal(w, log) && i <= |log|
  {
    PrefixLegal(w, log, i);
    Run(w, log[..i])
  }

  lemma {:induction false} PrefixLegal(w: Disk, log: seq<Action>, i: nat)
    requires Legal(w, log) && i <= |log|
    ensures Legal(w, log[..i])
    decreases |log|
  {
    if i == |log| {
      assert log[..i] == log;
    } else {
      PrefixLegal(w, log[..|log| - 1], i);
      assert log[..|log| - 1][..i] == log[..i];
    }
  }

  lemma StepAt(w: Disk, log: seq<Action>, i: nat)
    requires Legal(w, log) && i < |log|
    ensures Step(At(w, log, i), log[i], At(w, log, i + 1))
  {
    PrefixLegal(w, log, i);
    PrefixLegal(w, log, i + 1);
    assert log[..i + 1][..i] == log[..i];
  }

  /** Every checkpoint of every run is well founded, and keeps the loop's binding. */
  lemma {:induction false} RunKeepsInv(w: Disk, log: seq<Action>, i: nat)
    requires Inv(w) && Legal(w, log) && i <= |log|
    ensures Inv(At(w, log, i)) && At(w, log, i).loop.binding == w.loop.binding
  {
    hide Inv, Step;
    if i > 0 {
      RunKeepsInv(w, log, i - 1);
      StepAt(w, log, i - 1);
      StepKeepsInv(At(w, log, i - 1), log[i - 1], At(w, log, i));
    } else {
      assert log[..0] == [];
    }
  }

  /** A new loop on a disk that holds no records yet. */
  ghost predicate Fresh(w: Disk) {
    && w.loop.binding.maxIterations >= 1
    && (exists passed ::
          w.loop == NewLoop(w.loop.binding.id, w.loop.binding.initialExecution, w.loop.binding.owner,
                            w.loop.binding.conversation, w.loop.binding.maxIterations, passed))
    && w.requests == map[] && w.routings == map[] && w.deliveries == map[] && w.results == map[]
    && w.authorizations == map[] && !w.owes
  }

  lemma FreshIsInvariant(w: Disk)
    requires Fresh(w)
    ensures Inv(w)
  {
    assert w.loop.iteration == 1;
  }

  // ---- Records are only ever added -------------------------------------------------

  predicate Grown(w: Disk, v: Disk) {
    && (forall k | k in w.requests :: k in v.requests && v.requests[k] == w.requests[k])
    && (forall k | k in w.routings :: k in v.routings && v.routings[k] == w.routings[k])
    && (forall k | k in w.deliveries ::
          && k in v.deliveries
          && v.deliveries[k] == w.deliveries[k].(status := v.deliveries[k].status, attempts := v.deliveries[k].attempts)
          && w.deliveries[k].attempts <= v.deliveries[k].attempts
          && (w.deliveries[k].status.Delivered? || w.deliveries[k].status.Ambiguous? ==> v.deliveries[k] == w.deliveries[k]))
    && (forall k | k in w.results ::
          && k in v.results && v.results[k].request == w.results[k].request
          && (w.results[k].status.COMPLETED? ==> v.results[k] == w.results[k]))
    && (forall k | k in w.authorizations :: k in v.authorizations && v.authorizations[k] == w.authorizations[k])
  }

  lemma DeliveriesGrow(w: Disk, a: Action, v: Disk, d: Id)
    requires Step(w, a, v) && d in w.deliveries
    ensures d in v.deliveries
    ensures v.deliveries[d] == w.deliveries[d].(status := v.deliveries[d].status, attempts := v.deliveries[d].attempts)
    ensures w.deliveries[d].attempts <= v.deliveries[d].attempts
    ensures w.deliveries[d].status.Delivered? || w.deliveries[d].status.Ambiguous? ==> v.deliveries[d] == w.deliveries[d]
  {
    hide LoopAfter, AfterJudgement, StopAllowed, SeenAfter, OwesAfter;
  }

  lemma OtherRecordsGrow(w: Disk, a: Action, v: Disk)
    requires Step(w, a, v)
    ensures forall k | k in w.requests :: k in v.requests && v.requests[k] == w.requests[k]
    ensures forall k | k in w.routings :: k in v.routings && v.routings[k] == w.routings[k]
    ensures forall k | k in w.authorizations :: k in v.authorizations && v.authorizations[k] == w.authorizations[k]
    ensures forall k | k in w.results :: k in v.results && v.results[k].request == w.results[k].request
              && (w.results[k].status.COMPLETED? ==> v.results[k] == w.results[k])
  {
    hide LoopAfter, AfterJudgement, StopAllowed, DeliveriesAfter, SeenAfter, OwesAfter;
  }

  lemma StepGrows(w: Disk, a: Action, v: Disk)
    requires Step(w, a, v)
    ensures Grown(w, v)
  {
    hide Step;
    OtherRecordsGrow(w, a, v);
    forall d | d in w.deliveries {
      DeliveriesGrow(w, a, v, d);
    }
  }

  /** Records never disappear; a delivered or ambiguous delivery and a completed result never change. */
  lemma {:induction false} RunGrows(w: Disk, log: seq<Action>, i: nat, j: nat)
    requires Legal(w, log) && i <= j <= |log|
    ensures Grown(At(w, log, i), At(w, log, j))
    decreases j
  {
    hide *;
    GrownReflexive(At(w, log, i));
    if i < j {
      RunGrows(w, log, i, j - 1);
      StepAt(w, log, j - 1);
      StepGrows(At(w, log, j - 1), log[j - 1], At(w, log, j));
      GrownTransitive(At(w, log, i), At(w, log, j - 1), At(w, log, j));
    }
  }

  lemma GrownReflexive(w: Disk)
    ensures Grown(w, w)
  {
  }

  lemma GrownTransitive(u: Disk, v: Disk, w: Disk)
    requires Grown(u, v) && Grown(v, w)
    ensures Grown(u, w)
  {
  }

  // ---- Exactly once ------------------------------------------------------------------

  /** Iteration and phase (normal or verdict recovery) the loop is in. */
  function Round(w: Disk): (nat, bool) { (w.loop.iteration, w.loop.recovery.Some?) }

  predicate HasRequestOf(w: Disk, b: Binding, round: (nat, bool)) { RequestId(b, round.0, round.1) in w.requests }

  predicate HasRoutingOf(w: Disk, b: Binding, round: (nat, bool)) { RoutingId(b, round.0, round.1) in w.routings }

  predicate HasDeliveryOf(w: Disk, b: Binding, round: (nat, bool)) {
    exists d | d in w.deliveries :: w.deliveries[d].routing == RoutingId(b, round.0, round.1)
  }

  /** A record is created only in a round that has none of its kind, and that round then has one. */
  lemma CreationIsFirst(w: Disk, a: Action, v: Disk)
    requires NamesDerived(w) && Shaped(w.loop) && Step(w, a, v)
    ensures a.CreateRequest? ==> !HasRequestOf(w, w.loop.binding, Round(w)) && HasRequestOf(v, w.loop.binding, Round(w))
    ensures a.CreateRouting? ==> !HasRoutingOf(w, w.loop.binding, Round(w)) && HasRoutingOf(v, w.loop.binding, Round(w))
    ensures a.CreateDelivery? ==> !HasDeliveryOf(w, w.loop.binding, Round(w)) && HasDeliveryOf(v, w.loop.binding, Round(w))
  {
    hide AfterJudgement, StopAllowed, LoopAfter;
    if a.CreateDelivery? {
      assert v.deliveries[w.loop.delivery.value].routing == CurrentRoutingId(w.loop);
    }
  }

  lemma HavingStays(w: Disk, v: Disk, b: Binding, round: (nat, bool))
    requires Grown(w, v)
    ensures HasRequestOf(w, b, round) ==> HasRequestOf(v, b, round)
    ensures HasRoutingOf(w, b, round) ==> HasRoutingOf(v, b, round)
    ensures HasDeliveryOf(w, b, round) ==> HasDeliveryOf(v, b, round)
  {
    if d :| d in w.deliveries && w.deliveries[d].routing == RoutingId(b, round.0, round.1) {
      assert v.deliveries[d].routing == w.deliveries[d].routing;
    }
  }

  /**
   In one round, however often the handlers are abandoned and re-entered, at most one review
   request, one routing and one delivery are created.
   */
  lemma AtMostOneRecordPerRound(w: Disk, log: seq<Action>, i: nat, j: nat)
    requires Inv(w) && Legal(w, log) && i < j < |log|
    requires Round(At(w, log, i)) == Round(At(w, log, j))
    ensures !(log[i].CreateRequest? && log[j].CreateRequest?)
    ensures !(log[i].CreateRouting? && log[j].CreateRouting?)
    ensures !(log[i].CreateDelivery? && log[j].CreateDelivery?)
  {
    RunKeepsInv(w, log, i);
    RunKeepsInv(w, log, j);
    StepAt(w, log, i);
    StepAt(w, log, j);
    hide At, Legal, Step, Round, Grown, HasRequestOf, HasRoutingOf, HasDeliveryOf;
    CreationIsFirst(At(w, log, i), log[i], At(w, log, i + 1));
    CreationIsFirst(At(w, log, j), log[j], At(w, log, j + 1));
    RunGrows(w, log, i + 1, j);
    HavingStays(At(w, log, i + 1), At(w, log, j), w.loop.binding, Round(At(w, log, i)));
  }

  lemma AuthorizeStep(u: Disk, a: Action, v: Disk)
    requires Inv(u) && Step(u, a, v) && a.Authorize?
    ensures u.loop.actuation == Some(ActuationId(u.loop.binding, u.loop.iteration))
    ensures u.loop.actuation.value !in u.authorizations && u.loop.actuation.value in v.authorizations
  {
    hide AfterJudgement, StopAllowed, DeliveriesAfter, SeenAfter, OwesAfter, SchemaValid, RequestsOwned, RoutingsOwned, DeliveriesOwned,
      ResultsOwned, RecoveryFounded, RecordsPresent, AuthorizationsDistinct, RequestId, RoutingId, DeliveryId;
  }

  /** Each iteration's actuation is authorized at most once, and only while it has no authorization. */
  lemma AtMostOneAuthorization(w: Disk, log: seq<Action>, i: nat, j: nat)
    requires Inv(w) && Legal(w, log) && i < j < |log|
    requires log[i].Authorize? && log[j].Authorize?
    ensures At(w, log, i).loop.iteration != At(w, log, j).loop.iteration
    ensures At(w, log, j).loop.actuation.Some? && At(w, log, j).loop.actuation.value !in At(w, log, j).authorizations
  {
    hide *;
    RunKeepsInv(w, log, i);
    RunKeepsInv(w, log, j);
    StepAt(w, log, i);
    StepAt(w, log, j);
    AuthorizeStep(At(w, log, i), log[i], At(w, log, i + 1));
    AuthorizeStep(At(w, log, j), log[j], At(w, log, j + 1));
    RunGrows(w, log, i + 1, j);
    AuthorizationsStay(At(w, log, i + 1), At(w, log, j));
  }

  lemma AuthorizationsStay(w: Disk, v: Disk)
    requires Grown(w, v)
    ensures w.authorizations.Keys <= v.authorizations.Keys
  {
  }

  /** The records of a round, whenever they were made, carry the loop's identities and that round's execution. */
  lemma RoundRecordsBelong(w: Disk, log: seq<Action>, i: nat, iteration: nat, recovery: bool)
    requires Inv(w) && Legal(w, log) && i <= |log|
    ensures var v, b := At(w, log, i), w.loop.binding;
      && (RequestId(b, iteration, recovery) in v.requests ==>
            var r := v.requests[RequestId(b, iteration, recovery)];
            r.owner == b.owner && r.conversation == b.conversation && r.execution == ExecutionId(b, iteration))
      && (RoutingId(b, iteration, recovery) in v.routings ==>
            v.routings[RoutingId(b, iteration, recovery)]
              == RoutingRecord(b.owner, ExecutionId(b, iteration), RequestId(b, iteration, recovery), b.conversation))
      && (forall d, e | d in v.deliveries && e in v.deliveries
            && v.deliveries[d].routing == RoutingId(b, iteration, recovery) == v.deliveries[e].routing :: d == e)
      && (forall d | d in v.deliveries && v.deliveries[d].routing == RoutingId(b, iteration, recovery) ::
            && v.deliveries[d].owner == b.owner && v.deliveries[d].conversation == b.conversation
            && v.deliveries[d].request == RequestId(b, iteration, recovery))
  {
    RunKeepsInv(w, log, i);
  }

  // ---- Stages over whole runs ----------------------------------------------------------

  /** A terminal loop is never written again. */
  lemma {:induction false} TerminalIsAbsorbing(w: Disk, log: seq<Action>, i: nat, j: nat)
    requires Legal(w, log) && i <= j <= |log| && At(w, log, i).loop.stage.Terminal()
    ensures At(w, log, j).loop == At(w, log, i).loop
    decreases j
  {
    hide *;
    if i < j {
      TerminalIsAbsorbing(w, log, i, j - 1);
      StepAt(w, log, j - 1);
      TerminalStep(At(w, log, j - 1), log[j - 1], At(w, log, j));
    }
  }

  lemma TerminalStep(w: Disk, a: Action, v: Disk)
    requires Step(w, a, v) && w.loop.stage.Terminal()
    ensures v.loop == w.loop
  {
    hide AfterJudgement;
  }

  /**
   The iteration moves exactly when an ITERATE verdict for the current request is judged below
   the cap, and then by one.
   */
  lemma IterationMoves(w: Disk, a: Action, v: Disk)
    requires Inv(w) && Step(w, a, v)
    ensures v.loop.iteration != w.loop.iteration <==>
              a.Judge? && a.judgement.Parsed? && a.judgement.decision.Iterate?
              && w.loop.request == Some(a.judgement.request) && w.loop.iteration < w.loop.binding.maxIterations
    ensures v.loop.iteration != w.loop.iteration ==> v.loop.iteration == w.loop.iteration + 1
  {
    hide RequestsOwned, RoutingsOwned, DeliveriesOwned, ResultsOwned, RecoveryFounded, StageFounded, DeliveryBound,
      ResultBound, DecisionOwed, AuthorizationsDistinct, StopAllowed, DeliveriesAfter, NamesDerived, RecordsPresent;
    if !a.Judge? {
      hide AfterJudgement;
    }
  }

  predicate Approval(a: Action) {
    a.Judge? && a.judgement.Parsed? && a.judgement.decision.Approve?
  }

  lemma CompletingStep(u: Disk, a: Action, v: Disk)
    requires Inv(u) && Step(u, a, v) && !u.loop.stage.Completed? && v.loop.stage.Completed?
    ensures Approval(a) && u.loop.request == Some(a.judgement.request) && v.loop.request == u.loop.request
    ensures HasResult(u) && ResultMatches(u.loop, u.results[u.loop.result.value])
  {
    hide SchemaValid, Shaped, NamesDerived, StageFounded, DeliveryBound, DecisionOwed, RequestsOwned, RoutingsOwned,
      DeliveriesOwned, ResultsOwned, RecoveryFounded, AuthorizationsDistinct;
    if a.Judge? {
      hide StopAllowed, DeliveriesAfter, SeenAfter, OwesAfter;
    } else {
      hide Inv;
      OnlyJudgesComplete(u, a, v);
    }
  }

  lemma OnlyJudgesComplete(u: Disk, a: Action, v: Disk)
    requires Step(u, a, v) && !u.loop.stage.Completed? && v.loop.stage.Completed?
    ensures a.Judge?
  {
    hide AfterJudgement, StopAllowed, DeliveriesAfter, SeenAfter, OwesAfter;
  }

  /**
   A loop that was not completed at the start and is completed now was approved: some step judged an
   APPROVE verdict for the request the loop still names, on that request's own completed result.
   */
  lemma {:induction false} CompletedMeansApproved(w: Disk, log: seq<Action>) returns (k: nat)
    requires Inv(w) && Legal(w, log) && !w.loop.stage.Completed? && Run(w, log).loop.stage.Completed?
    ensures k < |log| && Approval(log[k])
    ensures Run(w, log).loop.request == At(w, log, k).loop.request == Some(log[k].judgement.request)
    ensures HasResult(At(w, log, k))
    ensures ResultMatches(At(w, log, k).loop, At(w, log, k).results[At(w, log, k).loop.result.value])
    decreases |log|
  {
    hide Inv, Step, Enabled, Effect, HasResult, ResultMatches, Approval;
    var n := |log| - 1;
    RunKeepsInv(w, log, n);
    StepAt(w, log, n);
    assert log[..n + 1] == log;
    var u, v := At(w, log, n), Run(w, log);
    if u.loop.stage.Completed? {
      PrefixLegal(w, log, n);
      k := CompletedMeansApproved(w, log[..n]);
      assert log[..n][..k] == log[..k];
      TerminalStep(u, log[n], v);
    } else {
      k := n;
      CompletingStep(u, log[n], v);
    }
  }
}
