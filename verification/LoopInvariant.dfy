/** What every reachable checkpoint of the loop satisfies, and what follows over whole runs. */
module LoopInvariant {
  import opened Options
  import opened Identity
  import opened LoopProtocol

  /** The state schema's own refinements. */
  ghost predicate SchemaValid(l: Loop) {
    && 1 <= l.iteration <= l.binding.maxIterations
    && (l.stage.Terminal() <==> l.decision.Some?)
    && (l.stage.Completed? ==> l.decision == Some(APPROVE))
    && (l.stage.HumanRequired? ==> l.decision == Some(HUMAN_REQUIRED))
    && (l.stage.Failed? ==> l.decision == Some(FAILED))
  }

  /** Which fields a checkpoint carries at which stage: the source's `required(...)` checks cannot fail. */
  ghost predicate Shaped(l: Loop) {
    && (l.delivery.Some? ==> l.routing.Some?)
    && (l.routing.Some? ==> l.request.Some?)
    && (l.stage.AtRouting? ==> l.request.Some?)
    && (l.stage.AtDelivery? ==> l.routing.Some?)
    && (l.stage.AtCompletion? || l.stage.AtVerdict? ==> l.delivery.Some?)
    && (l.stage.AtVerdict? ==> l.result.Some?)
    && (l.stage.AtActuation? ==> l.iteration > 1 && l.actuation.Some? && l.pending.Some?)
    && (l.stage.AtExecution? || l.stage.AtActuation? ==>
          l.request.None? && l.result.None? && l.recovery.None?)
    && (l.recovery.Some? ==> l.delivery.Some?)
    && (l.timeouts > 0 ==> l.stage.AtCompletion? || l.stage.AtVerdict? || l.stage.Terminal())
    && (l.result.Some? ==> l.stage.AtCompletion? || l.stage.AtVerdict? || l.stage.Terminal())
    && (l.retryArmed ==> l.stage.AtDelivery? || l.stage.AtCompletion? || l.stage.Terminal())
  }

  /** The identities a checkpoint names are the ones derived from its loop, iteration and phase. */
  ghost predicate NamesDerived(w: Disk) {
    var l := w.loop;
    && l.execution == ExecutionId(l.binding, l.iteration)
    && (l.request.Some? ==> l.request.value == CurrentRequestId(l))
    && (l.routing.Some? ==> l.routing.value == CurrentRoutingId(l))
    && (l.delivery.Some? ==> l.delivery.value == CurrentDeliveryId(l) || l.delivery.value in w.deliveries)
    && (l.actuation.Some? && l.iteration > 1 ==> l.actuation.value == ActuationId(l.binding, l.iteration))
    && (l.authorization.Some? && l.stage.AtActuation? ==> ActuationBound(w))
  }

  /** The records a stage builds on exist, and have the status the stage relies on. */
  ghost predicate StageFounded(w: Disk) {
    var l := w.loop;
    && (l.stage.AtRouting? || l.stage.AtDelivery? || l.stage.AtCompletion? || l.stage.AtVerdict? ==>
          l.request.Some? && l.request.value in w.requests)
    && (l.stage.AtDelivery? || l.stage.AtCompletion? || l.stage.AtVerdict? ==>
          l.routing.Some? && l.routing.value in w.routings)
    && (l.stage.AtCompletion? || l.stage.AtVerdict? ==> HasDelivery(w) && CurrentDelivery(w).status.Delivered?)
  }

  ghost predicate DeliveryBound(w: Disk) {
    HasDelivery(w) ==> DeliveryMatches(w.loop, CurrentDelivery(w))
  }

  ghost predicate ResultBound(w: Disk) {
    w.loop.result.Some? ==> HasResult(w) && ResultMatches(w.loop, w.results[w.loop.result.value])
  }

  /** A retry is owed or pending only behind a retryable failure, or while waiting for a result. */
  ghost predicate DecisionOwed(w: Disk) {
    && (w.owes ==> !w.loop.retryArmed && (w.loop.stage.AtCompletion? || w.loop.stage.AtDelivery?))
    && (w.loop.stage.AtDelivery? && (w.owes || w.loop.retryArmed) ==>
          HasDelivery(w) && CurrentDelivery(w).status.FailedDelivery? && CurrentDelivery(w).status.retryable)
  }

  ghost predicate RecordsPresent(w: Disk) {
    StageFounded(w) && DeliveryBound(w) && ResultBound(w) && DecisionOwed(w)
  }

  /** Every record of the loop carries the loop's own identities, for its iteration and phase. */
  ghost predicate RequestsOwned(b: Binding, requests: map<Id, RequestRecord>) {
    forall i: nat, p: bool :: RequestId(b, i, p) in requests ==>
      && requests[RequestId(b, i, p)].owner == b.owner
      && requests[RequestId(b, i, p)].conversation == b.conversation
      && requests[RequestId(b, i, p)].execution == ExecutionId(b, i)
  }

  ghost predicate RoutingsOwned(b: Binding, routings: map<Id, RoutingRecord>) {
    && (forall i: nat, p: bool :: RoutingId(b, i, p) in routings ==>
          routings[RoutingId(b, i, p)] == RoutingRecord(b.owner, ExecutionId(b, i), RequestId(b, i, p), b.conversation))
    && (forall r | r in routings :: exists i: nat, p: bool :: r == RoutingId(b, i, p))
  }

  /** Deliveries belong to a routing, each routing has at most one, and attempts stay in budget. */
  ghost predicate DeliveriesOwned(b: Binding, routings: map<Id, RoutingRecord>, deliveries: map<Id, DeliveryRecord>) {
    && (forall d | d in deliveries ::
          && deliveries[d].routing in routings
          && deliveries[d].owner == routings[deliveries[d].routing].owner
          && deliveries[d].request == routings[deliveries[d].routing].request
          && deliveries[d].conversation == routings[deliveries[d].routing].conversation
          && (deliveries[d].status.Pending? <==> deliveries[d].attempts == 0)
          && deliveries[d].attempts <= REVIEW_DELIVERY_MAX_ATTEMPTS)
    && (forall i: nat, p: bool :: DeliveryId(b, i, p) in deliveries ==>
          deliveries[DeliveryId(b, i, p)].routing == RoutingId(b, i, p))
    && (forall d, e | d in deliveries && e in deliveries && deliveries[d].routing == deliveries[e].routing :: d == e)
  }

  /** A result belongs to a delivered delivery of its request, and each request has at most one. */
  ghost predicate ResultsOwned(deliveries: map<Id, DeliveryRecord>, results: map<Id, ResultRecord>) {
    && (forall r | r in results ::
          && results[r].delivery in deliveries
          && deliveries[results[r].delivery].status.Delivered?
          && results[r].request == deliveries[results[r].delivery].request
          && results[r].owner == deliveries[results[r].delivery].owner)
    && (forall r, s | r in results && s in results && results[r].request == results[s].request :: r == s)
  }

  /** A recovery round starts from a completed review of the same iteration's normal round. */
  ghost predicate RecoveryFounded(w: Disk) {
    w.loop.recovery.Some? ==>
      && w.loop.recovery.value in w.results
      && w.results[w.loop.recovery.value].status.COMPLETED?
      && w.results[w.loop.recovery.value].request == RequestId(w.loop.binding, w.loop.iteration, false)
      && w.results[w.loop.recovery.value].request in w.requests
      && w.results[w.loop.recovery.value].owner == w.loop.binding.owner
  }

  ghost predicate AuthorizationsDistinct(authorizations: map<Id, Authorization>) {
    forall a, b | a in authorizations && b in authorizations && authorizations[a].id == authorizations[b].id :: a == b
  }

  ghost predicate Inv(w: Disk) {
    && SchemaValid(w.loop) && Shaped(w.loop) && NamesDerived(w) && RecordsPresent(w)
    && RequestsOwned(w.loop.binding, w.requests) && RoutingsOwned(w.loop.binding, w.routings)
    && DeliveriesOwned(w.loop.binding, w.routings, w.deliveries) && ResultsOwned(w.deliveries, w.results)
    && RecoveryFounded(w) && AuthorizationsDistinct(w.authorizations)
  }

  lemma EffectFrame(w: Disk, a: Action, v: Disk)
    requires Step(w, a, v)
    ensures v.loop.binding == w.loop.binding
  {
  }

  lemma AddRequest(l: Loop, requests: map<Id, RequestRecord>, tool: bool)
    requires RequestsOwned(l.binding, requests) && l.execution == ExecutionId(l.binding, l.iteration)
    ensures RequestsOwned(l.binding, requests[CurrentRequestId(l) := RequestRecord(l.binding.owner, l.execution, l.binding.conversation, tool)])
  {
  }

  lemma AddRouting(l: Loop, routings: map<Id, RoutingRecord>)
    requires RoutingsOwned(l.binding, routings) && l.execution == ExecutionId(l.binding, l.iteration)
    ensures RoutingsOwned(l.binding, routings[CurrentRoutingId(l) :=
              RoutingRecord(l.binding.owner, l.execution, CurrentRequestId(l), l.binding.conversation)])
  {
  }

  lemma AddDelivery(w: Disk, d: Id)
    requires DeliveriesOwned(w.loop.binding, w.routings, w.deliveries)
    requires d !in w.deliveries && w.loop.routing == Some(CurrentRoutingId(w.loop)) && w.loop.routing.value in w.routings
    requires d.External? || d == CurrentDeliveryId(w.loop)
    requires forall k | k in w.deliveries :: w.deliveries[k].routing != w.loop.routing.value
    ensures DeliveriesOwned(w.loop.binding, w.routings, w.deliveries[d := FreshDelivery(w, w.loop.routing.value)])
  {
  }

  /** An attempt and its outcome change nothing a delivery is identified by. */
  lemma ChangeDelivery(b: Binding, routings: map<Id, RoutingRecord>, deliveries: map<Id, DeliveryRecord>, d: Id, next: DeliveryRecord)
    requires DeliveriesOwned(b, routings, deliveries) && d in deliveries
    requires next == deliveries[d].(status := next.status, attempts := next.attempts)
    requires !next.status.Pending? && 1 <= next.attempts <= REVIEW_DELIVERY_MAX_ATTEMPTS
    ensures DeliveriesOwned(b, routings, deliveries[d := next])
  {
  }

  lemma DeliveriesKeptByCreation(w: Disk, a: Action, v: Disk)
    requires NamesDerived(w) && Shaped(w.loop) && Step(w, a, v) && (a.CreateDelivery? || a.ForeignDelivery?)
    requires DeliveriesOwned(w.loop.binding, w.routings, w.deliveries)
    ensures DeliveriesOwned(w.loop.binding, v.routings, v.deliveries)
  {
    hide DeliveriesOwned, LoopAfter, AfterJudgement, StopAllowed, SeenAfter, OwesAfter;
    AddDelivery(w, if a.CreateDelivery? then w.loop.delivery.value else a.id);
  }

  lemma DeliveriesKeptByAttempt(w: Disk, a: Action, v: Disk)
    requires Step(w, a, v) && (a.BeginAttempt? || a.Settle?)
    requires DeliveriesOwned(w.loop.binding, w.routings, w.deliveries)
    ensures DeliveriesOwned(w.loop.binding, v.routings, v.deliveries)
  {
    hide LoopAfter, AfterJudgement, StopAllowed, SeenAfter, OwesAfter;
    var d := w.loop.delivery.value;
    ChangeDelivery(w.loop.binding, w.routings, w.deliveries, d, v.deliveries[d]);
  }

  lemma OtherDeliveriesStay(w: Disk, a: Action, v: Disk)
    requires Step(w, a, v) && !a.CreateDelivery? && !a.ForeignDelivery? && !a.BeginAttempt? && !a.Settle?
    ensures v.deliveries == w.deliveries && w.routings.Keys <= v.routings.Keys
    ensures forall r | r in w.routings :: v.routings[r] == w.routings[r]
  {
    hide LoopAfter, AfterJudgement, StopAllowed, SeenAfter, OwesAfter;
  }

  lemma MoreRoutings(b: Binding, routings: map<Id, RoutingRecord>, more: map<Id, RoutingRecord>, deliveries: map<Id, DeliveryRecord>)
    requires DeliveriesOwned(b, routings, deliveries) && routings.Keys <= more.Keys
    requires forall r | r in routings :: more[r] == routings[r]
    ensures DeliveriesOwned(b, more, deliveries)
  {
  }

  lemma DeliveriesKept(w: Disk, a: Action, v: Disk)
    requires NamesDerived(w) && Shaped(w.loop) && Step(w, a, v)
    requires DeliveriesOwned(w.loop.binding, w.routings, w.deliveries)
    ensures DeliveriesOwned(w.loop.binding, v.routings, v.deliveries)
  {
    hide *;
    if a.CreateDelivery? || a.ForeignDelivery? {
      DeliveriesKeptByCreation(w, a, v);
    } else if a.BeginAttempt? || a.Settle? {
      DeliveriesKeptByAttempt(w, a, v);
    } else {
      OtherDeliveriesStay(w, a, v);
      MoreRoutings(w.loop.binding, w.routings, v.routings, w.deliveries);
    }
  }

  lemma ResultsKeptByReading(w: Disk, a: Action, v: Disk)
    requires Step(w, a, v) && a.RecordResult? && ResultsOwned(w.deliveries, w.results)
    ensures ResultsOwned(v.deliveries, v.results)
  {
    hide LoopAfter, AfterJudgement, StopAllowed, SeenAfter, OwesAfter;
  }

  lemma DeliveredStay(w: Disk, a: Action, v: Disk, d: Id)
    requires Step(w, a, v) && d in w.deliveries && w.deliveries[d].status.Delivered?
    ensures d in v.deliveries && v.deliveries[d] == w.deliveries[d]
  {
    hide LoopAfter, AfterJudgement, StopAllowed, SeenAfter, OwesAfter;
  }

  lemma ResultsStay(w: Disk, a: Action, v: Disk)
    requires Step(w, a, v) && !a.RecordResult?
    ensures v.results == w.results
  {
    hide LoopAfter, AfterJudgement, StopAllowed, DeliveriesAfter, SeenAfter, OwesAfter;
  }

  lemma ResultsKept(w: Disk, a: Action, v: Disk)
    requires Step(w, a, v) && ResultsOwned(w.deliveries, w.results)
    ensures ResultsOwned(v.deliveries, v.results)
  {
    if a.RecordResult? {
      hide *;
      ResultsKeptByReading(w, a, v);
    } else {
      hide Step;
      ResultsStay(w, a, v);
      forall r | r in w.results {
        DeliveredStay(w, a, v, w.results[r].delivery);
      }
    }
  }

  lemma RequestsKept(w: Disk, a: Action, v: Disk)
    requires NamesDerived(w) && Step(w, a, v) && RequestsOwned(w.loop.binding, w.requests)
    ensures RequestsOwned(w.loop.binding, v.requests)
  {
    if a.CreateRequest? {
      AddRequest(w.loop, w.requests, a.toolProtocol);
    }
  }

  lemma RoutingsKept(w: Disk, a: Action, v: Disk)
    requires NamesDerived(w) && Shaped(w.loop) && Step(w, a, v) && RoutingsOwned(w.loop.binding, w.routings)
    ensures RoutingsOwned(w.loop.binding, v.routings)
  {
    if a.CreateRouting? {
      AddRouting(w.loop, w.routings);
    }
  }

  /** A delivery of the loop's routing is a delivery of the loop. */
  lemma RoutedDeliveryMatches(w: Disk, d: Id)
    requires NamesDerived(w) && Shaped(w.loop)
    requires RoutingsOwned(w.loop.binding, w.routings) && DeliveriesOwned(w.loop.binding, w.routings, w.deliveries)
    requires w.loop.routing.Some? && d in w.deliveries && w.deliveries[d].routing == w.loop.routing.value
    ensures DeliveryMatches(w.loop, w.deliveries[d])
  {
  }

  /** The loop enters another stage, or stops. */
  predicate Moves(a: Action) {
    a.StartReview? || a.EnterRouting? || a.EnterDelivery? || a.EnterCompletion? || a.EnterVerdict? || a.EnterExecution?
    || a.StopForHuman? || a.Fail?
  }

  lemma ShapeKeptByMove(w: Disk, a: Action, v: Disk)
    requires SchemaValid(w.loop) && Shaped(w.loop) && Step(w, a, v) && Moves(a)
    ensures SchemaValid(v.loop) && Shaped(v.loop)
  {
    hide AfterJudgement, StopAllowed, DeliveriesAfter, SeenAfter, OwesAfter;
  }

  lemma ShapeKeptByJudge(w: Disk, j: Judgement, v: Disk)
    requires SchemaValid(w.loop) && Shaped(w.loop) && Step(w, Judge(j), v)
    ensures SchemaValid(v.loop) && Shaped(v.loop)
  {
    hide StopAllowed, DeliveriesAfter, SeenAfter, OwesAfter;
  }

  lemma ShapeKeptByOthers(w: Disk, a: Action, v: Disk)
    requires SchemaValid(w.loop) && Shaped(w.loop) && Step(w, a, v) && !Moves(a) && !a.Judge?
    ensures SchemaValid(v.loop) && Shaped(v.loop)
  {
    hide AfterJudgement, StopAllowed, DeliveriesAfter, SeenAfter, OwesAfter;
  }

  lemma ShapeKept(w: Disk, a: Action, v: Disk)
    requires SchemaValid(w.loop) && Shaped(w.loop) && Step(w, a, v)
    ensures SchemaValid(v.loop) && Shaped(v.loop)
  {
    hide *;
    if a.Judge? {
      ShapeKeptByJudge(w, a.judgement, v);
    } else if Moves(a) {
      ShapeKeptByMove(w, a, v);
    } else {
      ShapeKeptByOthers(w, a, v);
    }
  }

  /** A judgement either leaves the names alone, or derives all of them afresh. */
  lemma JudgedNames(l: Loop, r: Id, j: Judgement)
    requires 1 <= l.iteration && l.execution == ExecutionId(l.binding, l.iteration)
    ensures var m := AfterJudgement(l, r, j);
      && m.execution == ExecutionId(m.binding, m.iteration)
      && (m.request != l.request ==> m.request.None? || m.request.value == CurrentRequestId(m))
      && (m.routing != l.routing ==> m.routing.None? || m.routing.value == CurrentRoutingId(m))
      && (m.delivery != l.delivery ==> m.delivery.None? || m.delivery.value == CurrentDeliveryId(m))
      && (m.iteration != l.iteration || m.recovery != l.recovery ==>
            (m.request.None? && m.routing.None? && m.delivery.None?) ||
            (m.request == Some(CurrentRequestId(m)) && m.routing == Some(CurrentRoutingId(m))
             && m.delivery == Some(CurrentDeliveryId(m))))
      && (m.stage.AtActuation? || m.iteration != l.iteration ==>
            m.actuation == Some(ActuationId(m.binding, m.iteration)) && m.authorization.None?)
      && (m.iteration == l.iteration ==> m.actuation == l.actuation)
      && m.binding == l.binding && m.iteration >= l.iteration
  {
    hide RequestId, RoutingId, DeliveryId, ActuationId, ExecutionId;
  }

  lemma NamesKeptByJudge(w: Disk, j: Judgement, v: Disk)
    requires 1 <= w.loop.iteration && NamesDerived(w) && Step(w, Judge(j), v)
    ensures NamesDerived(v)
  {
    hide AfterJudgement;
    JudgedNames(w.loop, w.loop.result.value, j);
  }

  lemma NamesKeptByMove(w: Disk, a: Action, v: Disk)
    requires SchemaValid(w.loop) && Shaped(w.loop) && NamesDerived(w) && Step(w, a, v) && Moves(a)
    ensures NamesDerived(v)
  {
    hide AfterJudgement, StopAllowed, SeenAfter, OwesAfter, RequestId, RoutingId, DeliveryId, ActuationId, ExecutionId;
  }

  lemma NamesKeptByOthers(w: Disk, a: Action, v: Disk)
    requires SchemaValid(w.loop) && Shaped(w.loop) && NamesDerived(w) && Step(w, a, v) && !Moves(a) && !a.Judge?
    ensures NamesDerived(v)
  {
    hide AfterJudgement, StopAllowed, SeenAfter, OwesAfter, RequestId, RoutingId, DeliveryId, ActuationId, ExecutionId;
  }

  lemma NamesKept(w: Disk, a: Action, v: Disk)
    requires SchemaValid(w.loop) && Shaped(w.loop) && NamesDerived(w) && Step(w, a, v)
    ensures NamesDerived(v)
  {
    if a.Judge? {
      assert 1 <= w.loop.iteration;
      hide *;
      NamesKeptByJudge(w, a.judgement, v);
    } else {
      hide *;
      if Moves(a) {
        NamesKeptByMove(w, a, v);
      } else {
        NamesKeptByOthers(w, a, v);
      }
    }
  }

  lemma RecoveryKeptByJudge(w: Disk, j: Judgement, v: Disk)
    requires Shaped(w.loop) && NamesDerived(w) && StageFounded(w) && ResultBound(w) && RecoveryFounded(w) && Step(w, Judge(j), v)
    ensures RecoveryFounded(v)
  {
    hide StopAllowed, DeliveriesAfter, SeenAfter, OwesAfter, RoutingId, DeliveryId, ActuationId;
  }

  /** Only a judgement moves the loop to another round. */
  lemma RoundStays(w: Disk, a: Action, v: Disk)
    requires Step(w, a, v) && !a.Judge?
    ensures v.loop.binding == w.loop.binding && v.loop.iteration == w.loop.iteration && v.loop.recovery == w.loop.recovery
  {
    hide AfterJudgement, StopAllowed, DeliveriesAfter, SeenAfter, OwesAfter;
  }

  lemma CompletedResultsStay(w: Disk, a: Action, v: Disk, r: Id)
    requires Step(w, a, v) && r in w.results && w.results[r].status.COMPLETED?
    ensures r in v.results && v.results[r] == w.results[r]
    ensures w.results[r].request in w.requests ==> w.results[r].request in v.requests
  {
    hide LoopAfter, AfterJudgement, StopAllowed, DeliveriesAfter, SeenAfter, OwesAfter;
  }

  lemma RecoveryKept(w: Disk, a: Action, v: Disk)
    requires Shaped(w.loop) && NamesDerived(w) && StageFounded(w) && ResultBound(w) && RecoveryFounded(w) && Step(w, a, v)
    ensures RecoveryFounded(v)
  {
    if a.Judge? {
      hide *;
      RecoveryKeptByJudge(w, a.judgement, v);
    } else {
      hide Step, StageFounded, ResultBound, NamesDerived, Shaped;
      RoundStays(w, a, v);
      if w.loop.recovery.Some? {
        CompletedResultsStay(w, a, v, w.loop.recovery.value);
      }
    }
  }

  lemma StageFoundedByJudge(w: Disk, j: Judgement, v: Disk)
    requires Shaped(w.loop) && StageFounded(w) && Step(w, Judge(j), v)
    ensures StageFounded(v)
  {
    hide StopAllowed, SeenAfter, OwesAfter;
  }

  lemma StageFoundedByMove(w: Disk, a: Action, v: Disk)
    requires Shaped(w.loop) && StageFounded(w) && Step(w, a, v) && Moves(a)
    ensures StageFounded(v)
  {
    hide AfterJudgement, StopAllowed, SeenAfter, OwesAfter, RequestMatches, RoutingMatches, DeliveryMatches, RequestId, RoutingId, DeliveryId;
  }

  lemma StageFoundedByOthers(w: Disk, a: Action, v: Disk)
    requires Shaped(w.loop) && StageFounded(w) && Step(w, a, v) && !Moves(a) && !a.Judge?
    ensures StageFounded(v)
  {
    hide AfterJudgement, StopAllowed, SeenAfter, OwesAfter;
  }

  lemma StageFoundedKept(w: Disk, a: Action, v: Disk)
    requires Shaped(w.loop) && StageFounded(w) && Step(w, a, v)
    ensures StageFounded(v)
  {
    hide *;
    if a.Judge? {
      StageFoundedByJudge(w, a.judgement, v);
    } else if Moves(a) {
      StageFoundedByMove(w, a, v);
    } else {
      StageFoundedByOthers(w, a, v);
    }
  }

  lemma DeliveryBoundKept(w: Disk, a: Action, v: Disk)
    requires Shaped(w.loop) && NamesDerived(w) && DeliveryBound(w) && Step(w, a, v)
    requires Shaped(v.loop) && NamesDerived(v)
    requires RoutingsOwned(v.loop.binding, v.routings) && DeliveriesOwned(v.loop.binding, v.routings, v.deliveries)
    ensures DeliveryBound(v)
  {
    hide AfterJudgement, StopAllowed;
    if HasDelivery(v) {
      var d := v.loop.delivery.value;
      if d == CurrentDeliveryId(v.loop) || a.AdoptDelivery? {
        assert v.deliveries[d].routing == v.loop.routing.value;
        RoutedDeliveryMatches(v, d);
      } else {
        BindingFrame(w, a, v);
      }
    }
  }

  /** Outside a change of round, a delivery the loop already uses keeps its identity. */
  lemma BindingFrame(w: Disk, a: Action, v: Disk)
    requires NamesDerived(w) && Shaped(w.loop) && Step(w, a, v) && !a.AdoptDelivery?
    requires HasDelivery(v) && v.loop.delivery.value != CurrentDeliveryId(v.loop)
    ensures HasDelivery(w) && v.loop.delivery == w.loop.delivery
    ensures v.loop.request == w.loop.request && v.loop.routing == w.loop.routing
    ensures CurrentDelivery(v) == CurrentDelivery(w).(status := CurrentDelivery(v).status, attempts := CurrentDelivery(v).attempts)
  {
    if a.Judge? {
      hide LoopAfter, AfterJudgement, StopAllowed, SeenAfter, OwesAfter, NamesDerived, Shaped;
      BindingFrameByJudge(w, a.judgement, v);
    } else {
      LoopFrame(w, a, v);
      hide LoopAfter, AfterJudgement, StopAllowed, SeenAfter, OwesAfter;
    }
  }

  lemma LoopFrame(w: Disk, a: Action, v: Disk)
    requires Shaped(w.loop) && Step(w, a, v) && !a.AdoptDelivery? && !a.Judge?
    requires v.loop.delivery.Some? && v.loop.delivery.value != CurrentDeliveryId(v.loop)
    ensures v.loop.delivery == w.loop.delivery && CurrentDeliveryId(v.loop) == CurrentDeliveryId(w.loop)
    ensures v.loop.request == w.loop.request && v.loop.routing == w.loop.routing
  {
    hide AfterJudgement, StopAllowed, DeliveriesAfter, SeenAfter, OwesAfter, RequestId, RoutingId, DeliveryId;
  }

  lemma BindingFrameByJudge(w: Disk, j: Judgement, v: Disk)
    requires Shaped(w.loop) && Step(w, Judge(j), v)
    requires HasDelivery(v) && v.loop.delivery.value != CurrentDeliveryId(v.loop)
    ensures v.loop.delivery == w.loop.delivery && v.loop.request == w.loop.request && v.loop.routing == w.loop.routing
    ensures v.deliveries == w.deliveries
  {
    hide StopAllowed, SeenAfter, OwesAfter, RequestId, RoutingId, DeliveryId;
  }

  lemma ResultBoundByJudge(w: Disk, j: Judgement, v: Disk)
    requires Shaped(w.loop) && ResultBound(w) && Step(w, Judge(j), v)
    ensures ResultBound(v)
  {
    hide StopAllowed, DeliveriesAfter, SeenAfter, OwesAfter;
  }

  /** Once a result is named, the request and delivery it is bound to stay. */
  lemma NamesStayWithResult(w: Disk, a: Action, v: Disk)
    requires Shaped(w.loop) && Step(w, a, v) && !a.Judge? && !a.NameResult?
    ensures v.loop.result == w.loop.result && v.loop.binding == w.loop.binding
    ensures w.loop.result.Some? ==> v.loop.request == w.loop.request && v.loop.delivery == w.loop.delivery
  {
    hide AfterJudgement, StopAllowed, DeliveriesAfter, SeenAfter, OwesAfter, RequestId, RoutingId, DeliveryId;
  }

  lemma ResultBoundByNaming(w: Disk, a: Action, v: Disk)
    requires Step(w, a, v) && a.NameResult?
    ensures ResultBound(v)
  {
    hide AfterJudgement, StopAllowed, DeliveriesAfter, SeenAfter, OwesAfter;
  }

  lemma ResultBoundKept(w: Disk, a: Action, v: Disk)
    requires Shaped(w.loop) && ResultBound(w) && Step(w, a, v)
    ensures ResultBound(v)
  {
    if a.Judge? {
      hide *;
      ResultBoundByJudge(w, a.judgement, v);
    } else if a.NameResult? {
      hide *;
      ResultBoundByNaming(w, a, v);
    } else {
      hide Step, Shaped;
      NamesStayWithResult(w, a, v);
      if w.loop.result.Some? {
        CompletedResultsStay(w, a, v, w.loop.result.value);
      }
    }
  }

  lemma DecisionOwedByJudge(w: Disk, j: Judgement, v: Disk)
    requires DecisionOwed(w) && Step(w, Judge(j), v)
    ensures DecisionOwed(v)
  {
    hide StopAllowed, SeenAfter;
  }

  lemma DecisionOwedByMove(w: Disk, a: Action, v: Disk)
    requires DecisionOwed(w) && Step(w, a, v) && Moves(a)
    ensures DecisionOwed(v)
  {
    hide AfterJudgement, StopAllowed, SeenAfter, RequestMatches, RoutingMatches, DeliveryMatches, RequestId, RoutingId, DeliveryId;
  }

  lemma DecisionOwedByOthers(w: Disk, a: Action, v: Disk)
    requires DecisionOwed(w) && Step(w, a, v) && !Moves(a) && !a.Judge?
    ensures DecisionOwed(v)
  {
    hide AfterJudgement, StopAllowed, SeenAfter, RequestId, RoutingId, DeliveryId;
  }

  lemma DecisionOwedKept(w: Disk, a: Action, v: Disk)
    requires DecisionOwed(w) && Step(w, a, v)
    ensures DecisionOwed(v)
  {
    hide *;
    if a.Judge? {
      DecisionOwedByJudge(w, a.judgement, v);
    } else if Moves(a) {
      DecisionOwedByMove(w, a, v);
    } else {
      DecisionOwedByOthers(w, a, v);
    }
  }

  lemma AuthorizationsKept(w: Disk, a: Action, v: Disk)
    requires AuthorizationsDistinct(w.authorizations) && Step(w, a, v)
    ensures AuthorizationsDistinct(v.authorizations)
  {
  }

  lemma StepKeepsInv(w: Disk, a: Action, v: Disk)
    requires Inv(w) && Step(w, a, v)
    ensures Inv(v) && v.loop.binding == w.loop.binding
  {
    hide Step, SchemaValid, Shaped, NamesDerived, StageFounded, DeliveryBound, ResultBound, DecisionOwed,
      RequestsOwned, RoutingsOwned, DeliveriesOwned, ResultsOwned, RecoveryFounded, AuthorizationsDistinct;
    EffectFrame(w, a, v);
    ShapeKept(w, a, v);
    NamesKept(w, a, v);
    RequestsKept(w, a, v);
    RoutingsKept(w, a, v);
    DeliveriesKept(w, a, v);
    ResultsKept(w, a, v);
    RecoveryKept(w, a, v);
    StageFoundedKept(w, a, v);
    DeliveryBoundKept(w, a, v);
    ResultBoundKept(w, a, v);
    DecisionOwedKept(w, a, v);
    AuthorizationsKept(w, a, v);
  }

  // ---- What a handler may rely on ------------------------------------------------------

  /** A request found under the checkpoint's identity is the loop's own: the identity check cannot fail. */
  lemma RequestIsOurs(w: Disk)
    requires Inv(w) && w.loop.request.Some?
    ensures w.loop.request.value == CurrentRequestId(w.loop)
    ensures w.loop.request.value in w.requests ==> RequestMatches(w.loop, w.requests[w.loop.request.value])
  {
    hide DeliveriesOwned, ResultsOwned, RoutingsOwned, RecordsPresent;
  }

  lemma RoutingIsOurs(w: Disk)
    requires Inv(w) && w.loop.stage.AtRouting?
    ensures w.loop.request.Some? && w.loop.request.value in w.requests
    ensures w.loop.routing.Some? && w.loop.routing.value in w.routings ==> RoutingMatches(w.loop, w.routings[w.loop.routing.value])
  {
    hide DeliveriesOwned, ResultsOwned, RequestsOwned, ResultBound;
  }

  lemma DeliveryIsOurs(w: Disk)
    requires Inv(w) && w.loop.stage.AtDelivery?
    ensures w.loop.request.Some? && w.loop.routing.Some? && w.loop.routing.value in w.routings
    ensures RoutingMatches(w.loop, w.routings[w.loop.routing.value])
    ensures HasDelivery(w) ==> DeliveryMatches(w.loop, CurrentDelivery(w))
    ensures HasDelivery(w) ==> CurrentDelivery(w).attempts <= REVIEW_DELIVERY_MAX_ATTEMPTS
    ensures w.owes ==> HasDelivery(w) && CurrentDelivery(w).status.FailedDelivery? && CurrentDelivery(w).status.retryable
  {
    hide RequestsOwned, ResultsOwned;
  }

  /** What a recovery round asks about is there: a completed review of the iteration's own request. */
  lemma RecoverySourceIsOurs(w: Disk)
    requires Inv(w) && w.loop.recovery.Some?
    ensures w.loop.recovery.value in w.results && w.results[w.loop.recovery.value].status.COMPLETED?
    ensures w.results[w.loop.recovery.value].owner == w.loop.binding.owner
    ensures w.results[w.loop.recovery.value].request in w.requests
    ensures RequestMatches(w.loop, w.requests[w.results[w.loop.recovery.value].request])
  {
    hide SchemaValid, Shaped, RecordsPresent, RoutingsOwned, DeliveriesOwned, ResultsOwned, AuthorizationsDistinct;
  }

  /** One delivery per routing: the scan for it meets no second match. */
  lemma OneDeliveryPerRouting(w: Disk, d: Id, e: Id)
    requires Inv(w) && d in w.deliveries && e in w.deliveries && w.deliveries[d].routing == w.deliveries[e].routing
    ensures d == e
  {
    hide RequestsOwned, RoutingsOwned, ResultsOwned, RecordsPresent;
  }

  lemma OneResultPerRequest(w: Disk, r: Id, s: Id)
    requires Inv(w) && r in w.results && s in w.results && w.results[r].request == w.results[s].request
    ensures r == s
  {
    hide RequestsOwned, RoutingsOwned, DeliveriesOwned, RecordsPresent;
  }

  /** From review_completion on, the delivery is there, delivered, and the loop's own. */
  lemma DeliveryIsConfirmed(w: Disk)
    requires Inv(w) && (w.loop.stage.AtCompletion? || w.loop.stage.AtVerdict?)
    ensures w.loop.request.Some? && w.loop.request.value in w.requests
    ensures RequestMatches(w.loop, w.requests[w.loop.request.value])
    ensures HasDelivery(w) && CurrentDelivery(w).status.Delivered? && DeliveryMatches(w.loop, CurrentDelivery(w))
    ensures w.loop.result.Some? ==> HasResult(w) && ResultMatches(w.loop, w.results[w.loop.result.value])
    ensures w.loop.stage.AtVerdict? ==> w.loop.result.Some?
  {
    RequestIsOurs(w);
    hide RoutingsOwned, DeliveriesOwned, ResultsOwned;
  }

  /** Every result recorded for the loop's request is the loop's own. */
  lemma ResultIsOurs(w: Disk, r: Id)
    requires Inv(w) && (w.loop.stage.AtCompletion? || w.loop.stage.AtVerdict?)
    requires r in w.results && w.loop.request == Some(w.results[r].request)
    ensures ResultMatches(w.loop, w.results[r])
  {
    DeliveryIsConfirmed(w);
    var d, e := w.loop.delivery.value, w.results[r].delivery;
    SameRequestSameRouting(w, d, e);
    OneDeliveryPerRouting(w, d, e);
    hide RequestsOwned, RoutingsOwned, DeliveriesOwned, RecordsPresent;
  }

  lemma SameRequestSameRouting(w: Disk, d: Id, e: Id)
    requires Inv(w) && d in w.deliveries && e in w.deliveries && w.deliveries[d].request == w.deliveries[e].request
    ensures w.deliveries[d].routing == w.deliveries[e].routing
  {
    hide RequestsOwned, ResultsOwned, RecordsPresent;
    var i: nat, p: bool :| w.deliveries[d].routing == RoutingId(w.loop.binding, i, p);
    var j: nat, q: bool :| w.deliveries[e].routing == RoutingId(w.loop.binding, j, q);
  }

  lemma NothingOwed(w: Disk)
    requires Inv(w) && (w.loop.retryArmed || !(w.loop.stage.AtDelivery? || w.loop.stage.AtCompletion?))
    ensures !w.owes
  {
    hide RequestsOwned, RoutingsOwned, DeliveriesOwned, ResultsOwned, StageFounded, NamesDerived, Shaped;
  }

  lemma ActuationIsReady(w: Disk)
    requires Inv(w) && w.loop.stage.AtActuation?
    ensures w.loop.actuation.Some? && w.loop.pending.Some?
    ensures w.loop.authorization.Some? ==> ActuationBound(w)
  {
    hide RequestsOwned, RoutingsOwned, DeliveriesOwned, ResultsOwned, RecordsPresent;
  }
}
