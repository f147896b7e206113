/**
 The loop stops: a natural-number rank that every durable write of a handler lowers, that nobody
 else raises, and that an abandoned handler raises by at most one.
 */
module LoopTermination {
  import opened Options
  import opened Identity
  import opened LoopProtocol
  import opened LoopInvariant
  import opened LoopRuns

  const WRITES_PER_ITERATION := 150

  /** Attempts left, and how far the current attempt's retry-or-stop decision has come. */
  function DeliveryRank(w: Disk): (r: nat)
    ensures r <= 45
  {
    if w.loop.delivery.None? then 45
    else if !HasDelivery(w) then 44
    else
      var d := CurrentDelivery(w);
      var left := if d.attempts < REVIEW_DELIVERY_MAX_ATTEMPTS then REVIEW_DELIVERY_MAX_ATTEMPTS - d.attempts else 0;
      4 * left + if d.status.Delivering? then 3 else if w.owes then 2 else if w.loop.retryArmed then 1 else 0
  }

  /** Timeouts left, and how far the current timeout's decision has come. */
  function CompletionRank(w: Disk): (r: nat)
    ensures r <= 19
  {
    var unnamed := if w.loop.result.None? then 1 else 0;
    if w.loop.timeouts < REVIEW_MAX_TIMEOUTS then
      unnamed + 3 * (REVIEW_MAX_TIMEOUTS - w.loop.timeouts) + if w.owes then 3 else if w.loop.retryArmed then 2 else 1
    else
      unnamed + if w.owes then 0 else if w.loop.retryArmed then 2 else 1
  }

  function RoundRank(w: Disk): (r: nat)
    ensures r < 73
  {
    var l := w.loop;
    match l.stage
    case AtRequest => 70 + if l.request.None? then 2 else if l.request.value !in w.requests then 1 else 0
    case AtRouting => 67 + if l.routing.None? then 2 else if l.routing.value !in w.routings then 1 else 0
    case AtDelivery => 21 + DeliveryRank(w)
    case AtCompletion => 1 + CompletionRank(w)
    case _ => 0
  }

  /** A normal round, then at most one recovery round, each behind the next actuation. */
  function IterationRank(w: Disk): (r: nat)
    ensures r < WRITES_PER_ITERATION
  {
    if w.loop.stage.AtActuation? then
      147 + (if w.loop.authorization.None? then 1 else 0) + if ActuationAuthorized(w) then 0 else 1
    else if w.loop.stage.AtExecution? then 146
    else RoundRank(w) + if w.loop.recovery.None? then 73 else 0
  }

  function Rank(w: Disk): nat
    requires w.loop.iteration <= w.loop.binding.maxIterations
  {
    if w.loop.stage.Terminal() then 0
    else WRITES_PER_ITERATION * (w.loop.binding.maxIterations - w.loop.iteration) + IterationRank(w) + 1
  }

  lemma JudgementLowersRank(w: Disk, j: Judgement, v: Disk)
    requires SchemaValid(w.loop) && SchemaValid(v.loop) && Shaped(w.loop) && Step(w, Judge(j), v)
    ensures Rank(v) < Rank(w)
  {
  }

  /** A write before the first attempt. */
  lemma NamingLowersRank(w: Disk, a: Action, v: Disk)
    requires SchemaValid(w.loop) && SchemaValid(v.loop) && NamesDerived(w) && Step(w, a, v) && w.loop.stage.AtDelivery?
    requires a.NameDelivery? || a.CreateDelivery? || a.AdoptDelivery? || a.EnterCompletion?
    requires DeliveriesOwned(w.loop.binding, w.routings, w.deliveries)
    ensures Rank(v) < Rank(w)
  {
    hide AfterJudgement, StopAllowed, SeenAfter, OwesAfter, NamesDerived, RequestId, RoutingId, DeliveryId;
  }

  lemma AttemptLowersRank(w: Disk, a: Action, v: Disk)
    requires SchemaValid(w.loop) && SchemaValid(v.loop) && Step(w, a, v) && w.loop.stage.AtDelivery?
    requires a.BeginAttempt? || a.Settle?
    requires DeliveriesOwned(w.loop.binding, w.routings, w.deliveries) && DecisionOwed(w)
    ensures Rank(v) < Rank(w)
  {
    hide AfterJudgement, StopAllowed, CompletionRank, SeenAfter, DeliveryMatches, RequestId, RoutingId, DeliveryId;
  }

  lemma RetryLowersRank(w: Disk, a: Action, v: Disk)
    requires SchemaValid(w.loop) && SchemaValid(v.loop) && Step(w, a, v) && w.loop.stage.AtDelivery?
    requires a.ArmRetry? || a.ClearRetry?
    requires DecisionOwed(w)
    ensures Rank(v) < Rank(w)
  {
    hide AfterJudgement, StopAllowed, CompletionRank, SeenAfter;
  }

  lemma DeliveryActions(w: Disk, a: Action, v: Disk)
    requires Step(w, a, v) && w.loop.stage.AtDelivery? && a.Service() && !a.StopForHuman? && !a.Fail?
    ensures a.NameDelivery? || a.CreateDelivery? || a.AdoptDelivery? || a.EnterCompletion? || a.BeginAttempt? || a.Settle?
            || a.ArmRetry? || a.ClearRetry?
  {
    hide AfterJudgement, StopAllowed, Effect;
  }

  lemma DeliveryWriteLowersRank(w: Disk, a: Action, v: Disk)
    requires SchemaValid(w.loop) && SchemaValid(v.loop) && Shaped(w.loop) && NamesDerived(w) && Step(w, a, v)
    requires w.loop.stage.AtDelivery? && a.Service() && !a.StopForHuman? && !a.Fail?
    requires DeliveriesOwned(w.loop.binding, w.routings, w.deliveries) && DecisionOwed(w)
    ensures Rank(v) < Rank(w)
  {
    DeliveryActions(w, a, v);
    hide *;
    if a.BeginAttempt? || a.Settle? {
      AttemptLowersRank(w, a, v);
    } else if a.ArmRetry? || a.ClearRetry? {
      RetryLowersRank(w, a, v);
    } else {
      NamingLowersRank(w, a, v);
    }
  }

  lemma CompletionWriteLowersRank(w: Disk, a: Action, v: Disk)
    requires SchemaValid(w.loop) && SchemaValid(v.loop) && Shaped(w.loop) && Step(w, a, v) && DecisionOwed(w)
    requires w.loop.stage.AtCompletion? && a.Service() && !a.StopForHuman? && !a.Fail?
    ensures Rank(v) < Rank(w)
  {
    hide AfterJudgement, StopAllowed, DeliveryRank, DeliveriesAfter, SeenAfter, RequestId, RoutingId, DeliveryId;
  }

  /** Naming, creating and entering, before there is a delivery. */
  lemma EarlyWriteLowersRank(w: Disk, a: Action, v: Disk)
    requires SchemaValid(w.loop) && SchemaValid(v.loop) && Shaped(w.loop) && DecisionOwed(w) && Step(w, a, v)
    requires w.loop.stage.AtRequest? || w.loop.stage.AtRouting? || w.loop.stage.AtVerdict?
    requires a.Service() && !a.Judge? && !a.StopForHuman? && !a.Fail?
    ensures Rank(v) < Rank(w)
  {
    hide AfterJudgement, StopAllowed, DeliveryRank, CompletionRank, DeliveriesAfter, SeenAfter, OwesAfter, RequestId, RoutingId, DeliveryId;
  }

  lemma RoundWriteLowersRank(w: Disk, a: Action, v: Disk)
    requires SchemaValid(w.loop) && SchemaValid(v.loop) && Shaped(w.loop) && NamesDerived(w) && Step(w, a, v)
    requires w.loop.stage.Review() && a.Service() && !a.Judge? && !a.StopForHuman? && !a.Fail?
    requires DeliveriesOwned(w.loop.binding, w.routings, w.deliveries) && DecisionOwed(w)
    ensures Rank(v) < Rank(w)
  {
    hide Step, SchemaValid, Shaped, NamesDerived, DeliveriesOwned, DecisionOwed, Rank;
    if w.loop.stage.AtDelivery? {
      DeliveryWriteLowersRank(w, a, v);
    } else if w.loop.stage.AtCompletion? {
      CompletionWriteLowersRank(w, a, v);
    } else {
      EarlyWriteLowersRank(w, a, v);
    }
  }

  lemma OtherWriteLowersRank(w: Disk, a: Action, v: Disk)
    requires SchemaValid(w.loop) && SchemaValid(v.loop) && Shaped(w.loop) && NamesDerived(w) && Step(w, a, v)
    requires a.Service() && (!w.loop.stage.Review() || a.StopForHuman? || a.Fail?)
    ensures Rank(v) < Rank(w)
  {
    hide AfterJudgement, StopAllowed, DeliveryRank, CompletionRank, DeliveriesAfter, SeenAfter, OwesAfter, RequestId, RoutingId, DeliveryId;
  }

  lemma OthersKeepLoop(w: Disk, a: Action, v: Disk)
    requires Step(w, a, v) && !a.Service()
    ensures v.loop == w.loop && v.owes == (w.owes && !a.Abandon?)
    ensures forall r | r in w.requests :: r in v.requests
    ensures forall r | r in w.routings :: r in v.routings
    ensures forall k | k in w.authorizations :: k in v.authorizations
  {
    hide AfterJudgement, StopAllowed, DeliveriesAfter, SeenAfter, RequestId, RoutingId, DeliveryId;
  }

  lemma OthersKeepDeliveries(w: Disk, a: Action, v: Disk, d: Id)
    requires Step(w, a, v) && !a.Service() && d in w.deliveries
    ensures d in v.deliveries && v.deliveries[d] == w.deliveries[d]
  {
    hide LoopAfter, AfterJudgement, StopAllowed, SeenAfter, OwesAfter;
  }

  lemma OthersKeepDeliveryRank(w: Disk, a: Action, v: Disk)
    requires DecisionOwed(w) && Step(w, a, v) && !a.Service() && w.loop.stage.AtDelivery?
    ensures DeliveryRank(v) <= DeliveryRank(w) + if a.Abandon? then 1 else 0
  {
    hide Step;
    OthersKeepLoop(w, a, v);
    if w.loop.delivery.Some? && w.loop.delivery.value in w.deliveries {
      OthersKeepDeliveries(w, a, v, w.loop.delivery.value);
    }
  }

  lemma OthersKeepCompletionRank(w: Disk, a: Action, v: Disk)
    requires DecisionOwed(w) && Step(w, a, v) && !a.Service() && w.loop.stage.AtCompletion?
    ensures CompletionRank(v) <= CompletionRank(w) + if a.Abandon? then 1 else 0
  {
    hide Step;
    OthersKeepLoop(w, a, v);
  }

  lemma OthersKeepRank(w: Disk, a: Action, v: Disk)
    requires SchemaValid(w.loop) && SchemaValid(v.loop) && DecisionOwed(w) && Step(w, a, v) && !a.Service()
    ensures Rank(v) <= Rank(w) + if a.Abandon? then 1 else 0
  {
    hide Step, DeliveryRank, CompletionRank, DecisionOwed;
    OthersKeepLoop(w, a, v);
    OthersKeepAuthorization(w, a, v);
    if w.loop.stage.AtDelivery? {
      OthersKeepDeliveryRank(w, a, v);
    } else if w.loop.stage.AtCompletion? {
      OthersKeepCompletionRank(w, a, v);
    }
  }

  lemma OthersKeepAuthorization(w: Disk, a: Action, v: Disk)
    requires Step(w, a, v) && !a.Service()
    ensures ActuationAuthorized(w) ==> ActuationAuthorized(v)
  {
    hide Step;
    OthersKeepLoop(w, a, v);
  }

  lemma StepRank(w: Disk, a: Action, v: Disk)
    requires Inv(w) && Step(w, a, v)
    ensures Inv(v)
    ensures a.Service() ==> Rank(v) < Rank(w)
    ensures a.Environment() || a.Observe? ==> Rank(v) <= Rank(w)
    ensures a.Abandon? ==> Rank(v) <= Rank(w) + 1
  {
    hide Step, Shaped, NamesDerived, RequestsOwned, RoutingsOwned, DeliveriesOwned, ResultsOwned, RecoveryFounded,
      StageFounded, DeliveryBound, ResultBound, DecisionOwed, IterationRank, AuthorizationsDistinct;
    StepKeepsInv(w, a, v);
    if !a.Service() {
      OthersKeepRank(w, a, v);
    } else if a.Judge? {
      JudgementLowersRank(w, a.judgement, v);
    } else if w.loop.stage.Review() && !a.StopForHuman? && !a.Fail? {
      RoundWriteLowersRank(w, a, v);
    } else {
      OtherWriteLowersRank(w, a, v);
    }
  }

  predicate Writes(a: Action) { a.Service() }

  predicate Abandons(a: Action) { a.Abandon? }

  lemma RankIsBounded(w: Disk)
    requires Inv(w)
    ensures Rank(w) <= WRITES_PER_ITERATION * w.loop.binding.maxIterations
  {
    hide Shaped, NamesDerived, RecordsPresent, RequestsOwned, RoutingsOwned, DeliveriesOwned, ResultsOwned, RecoveryFounded,
      AuthorizationsDistinct, IterationRank;
  }

  lemma {:induction false} WritesLowerRank(w: Disk, log: seq<Action>)
    requires Inv(w) && Legal(w, log)
    ensures Inv(Run(w, log)) && Count(log, Writes) + Rank(Run(w, log)) <= Rank(w) + Count(log, Abandons)
    decreases |log|
  {
    hide Inv, Rank, Step, Enabled, Effect;
    if log != [] {
      var n := |log| - 1;
      WritesLowerRank(w, log[..n]);
      StepAt(w, log, n);
      assert log[..n + 1] == log;
      StepRank(Run(w, log[..n]), log[n], Run(w, log));
    }
  }

  /**
   However the loop is driven, it makes at most 150 durable writes per iteration of its cap, plus one
   for every time a handler was abandoned; with nobody abandoning it, it stops.
   */
  lemma WritesAreBounded(w: Disk, log: seq<Action>)
    requires Inv(w) && Legal(w, log)
    ensures Count(log, Writes) <= WRITES_PER_ITERATION * w.loop.binding.maxIterations + Count(log, Abandons)
  {
    WritesLowerRank(w, log);
    RankIsBounded(w);
  }

  // ---- Adapter calls ----------------------------------------------------------------------

  /** What a call of an adapter leads to: a durable write, or a handler abandoned. */
  function Ends(log: seq<Action>): nat { Count(log, Writes) + Count(log, Abandons) }

  lemma EndsSnoc(log: seq<Action>, a: Action)
    ensures Ends(log + [a]) == Ends(log) + if a.Service() || a.Abandon? then 1 else 0
  {
    assert (log + [a])[..|log|] == log;
  }

  lemma {:induction false} EndsGrow(log: seq<Action>, longer: seq<Action>)
    requires log <= longer
    ensures Ends(log) <= Ends(longer)
    decreases |longer|
  {
    if log == longer {
    } else {
      var front := longer[..|longer| - 1];
      assert longer == front + [longer[|longer| - 1]] && log <= front;
      EndsGrow(log, front);
      hide Ends;
      EndsSnoc(front, longer[|longer| - 1]);
    }
  }

  lemma EndsMonotone()
    ensures forall log: seq<Action>, longer: seq<Action> {:trigger Ends(log), Ends(longer)} | log <= longer ::
              Ends(log) <= Ends(longer)
  {
    forall log: seq<Action>, longer: seq<Action> | log <= longer ensures Ends(log) <= Ends(longer) {
      EndsGrow(log, longer);
    }
  }

  // ---- The completion budget --------------------------------------------------------------

  /** A handler dies after it has counted a timeout at the limit and before its decision to stop is stored. */
  predicate LosesDecision(w: Disk, a: Action) {
    a.Abandon? && w.owes && w.loop.stage.AtCompletion? && w.loop.timeouts >= REVIEW_MAX_TIMEOUTS
  }

  /** Decisions lost so since the counter was last at zero. */
  function Losses(w: Disk, log: seq<Action>): nat
    requires Legal(w, log)
    decreases |log|
  {
    if log == [] || Run(w, log).loop.timeouts == 0 then 0
    else
      var n := |log| - 1;
      Losses(w, log[..n]) + if LosesDecision(Run(w, log[..n]), log[n]) then 1 else 0
  }

  /** At the limit the counter is five more than the decisions lost, or four if the last of them is still to be recounted. */
  predicate Accounted(w: Disk, losses: nat) {
    if w.loop.timeouts < REVIEW_MAX_TIMEOUTS then losses == 0
    else if w.loop.stage.Terminal() then REVIEW_MAX_TIMEOUTS - 1 <= w.loop.timeouts - losses <= REVIEW_MAX_TIMEOUTS
    else w.loop.timeouts - losses == REVIEW_MAX_TIMEOUTS - if w.owes then 0 else 1
  }

  lemma InvShapes(w: Disk)
    requires Inv(w)
    ensures Shaped(w.loop) && DecisionOwed(w)
  {
    hide SchemaValid, Shaped, NamesDerived, StageFounded, DeliveryBound, ResultBound, DecisionOwed, RequestsOwned, RoutingsOwned,
      DeliveriesOwned, ResultsOwned, RecoveryFounded, AuthorizationsDistinct;
  }

  /** What an action does to the counter, and to whether the loop has ended. */
  lemma CounterStep(w: Disk, a: Action, v: Disk)
    requires Step(w, a, v) && !a.Judge?
    ensures v.loop.timeouts == w.loop.timeouts + if a.CountTimeout? then 1 else 0
    ensures v.loop.stage.Terminal() <==> w.loop.stage.Terminal() || a.StopForHuman? || a.Fail?
  {
    hide AfterJudgement, StopAllowed, DeliveriesAfter, SeenAfter, OwesAfter, RequestId, RoutingId, DeliveryId;
  }

  /** And to the decision owed. */
  lemma DecisionStep(w: Disk, a: Action, v: Disk)
    requires Step(w, a, v) && !a.Judge?
    ensures a.CountTimeout? ==> v.owes && !w.owes && !w.loop.stage.Terminal()
    ensures a.Abandon? || a.ArmRetry? || a.StopForHuman? ==> !v.owes
    ensures a.ArmRetry? ==> w.loop.timeouts < REVIEW_MAX_TIMEOUTS || w.loop.stage.AtDelivery?
    ensures a.Settle? ==> w.loop.stage.AtDelivery?
    ensures a.Fail? ==> !w.owes
    ensures !a.CountTimeout? && !a.Abandon? && !a.ArmRetry? && !a.StopForHuman? && !a.Settle? ==> v.owes == w.owes
  {
    hide LoopAfter, AfterJudgement, StopAllowed, DeliveriesAfter, SeenAfter, RequestId, RoutingId, DeliveryId;
  }

  lemma JudgeAccounted(w: Disk, j: Judgement, v: Disk, losses: nat)
    requires Step(w, Judge(j), v) && Accounted(w, losses)
    ensures Accounted(v, if v.loop.timeouts == 0 then 0 else losses)
  {
    hide StopAllowed, DeliveriesAfter, SeenAfter, RequestId, RoutingId, DeliveryId, ActuationId, ExecutionId;
  }

  lemma StepAccounted(w: Disk, a: Action, v: Disk, losses: nat)
    requires Step(w, a, v) && Shaped(w.loop) && DecisionOwed(w) && Accounted(w, losses)
    ensures Accounted(v, if v.loop.timeouts == 0 then 0 else losses + if LosesDecision(w, a) then 1 else 0)
  {
    hide Step;
    if a.Judge? {
      JudgeAccounted(w, a.judgement, v, losses);
    } else {
      CounterStep(w, a, v);
      DecisionStep(w, a, v);
    }
  }

  /**
   The persisted timeout counter exceeds the budget of five by at most the number of decisions lost since it
   was last at zero; while none is lost it stays within the budget.
   */
  lemma {:induction false} TimeoutsWithinBudget(w: Disk, log: seq<Action>)
    requires Inv(w) && Legal(w, log) && w.loop.timeouts == 0
    ensures Inv(Run(w, log)) && Accounted(Run(w, log), Losses(w, log))
    ensures Run(w, log).loop.timeouts <= REVIEW_MAX_TIMEOUTS + Losses(w, log)
    ensures Losses(w, log) > 0 ==> Run(w, log).loop.timeouts >= REVIEW_MAX_TIMEOUTS - 1 + Losses(w, log)
    decreases |log|
  {
    hide Inv, Step, Enabled, Effect, LosesDecision;
    if log != [] {
      var n := |log| - 1;
      TimeoutsWithinBudget(w, log[..n]);
      StepAt(w, log, n);
      assert log[..n + 1] == log;
      InvShapes(Run(w, log[..n]));
      StepAccounted(Run(w, log[..n]), log[n], Run(w, log), Losses(w, log[..n]));
      StepKeepsInv(Run(w, log[..n]), log[n], Run(w, log));
    }
  }

  /** At `i` the decision due at the limit is lost, and at `j`, the counter untouched in between, a timeout is counted again. */
  ghost predicate RecountsAfterLoss(w: Disk, log: seq<Action>, i: nat, j: nat)
    requires Legal(w, log) && i < j < |log|
  {
    && LosesDecision(At(w, log, i), log[i]) && log[j].CountTimeout?
    && forall k: nat | i <= k <= j :: At(w, log, k).loop.timeouts == REVIEW_MAX_TIMEOUTS
  }

  lemma AtTheLimit(w: Disk, a: Action, v: Disk)
    requires Step(w, a, v) && Shaped(w.loop) && DecisionOwed(w)
    requires v.loop.timeouts == REVIEW_MAX_TIMEOUTS && !v.owes && !v.loop.stage.Terminal()
    ensures w.loop.timeouts == REVIEW_MAX_TIMEOUTS && !w.loop.stage.Terminal() && (w.owes ==> LosesDecision(w, a))
  {
    hide StopAllowed;
  }

  lemma CrossesTheLimit(w: Disk, a: Action, v: Disk)
    requires Step(w, a, v) && w.loop.timeouts <= REVIEW_MAX_TIMEOUTS < v.loop.timeouts
    ensures a.CountTimeout? && w.loop.timeouts == REVIEW_MAX_TIMEOUTS && !w.owes && !w.loop.stage.Terminal()
  {
    hide StopAllowed;
  }

  lemma CountsOne(w: Disk, a: Action, v: Disk)
    requires Step(w, a, v) && a.CountTimeout?
    ensures v.loop.timeouts == w.loop.timeouts + 1
  {
  }

  lemma AtStart(w: Disk, log: seq<Action>)
    requires Legal(w, log)
    ensures At(w, log, 0) == w
  {
    assert log[..0] == [];
  }

  lemma BeforeTheLimit(w: Disk, log: seq<Action>, j: nat)
    requires Inv(w) && Legal(w, log) && j < |log|
    requires var v := At(w, log, j + 1); v.loop.timeouts == REVIEW_MAX_TIMEOUTS && !v.owes && !v.loop.stage.Terminal()
    ensures var u := At(w, log, j);
            u.loop.timeouts == REVIEW_MAX_TIMEOUTS && !u.loop.stage.Terminal() && (u.owes ==> LosesDecision(u, log[j]))
  {
    hide At, Step, Legal, LosesDecision, SchemaValid, NamesDerived, RequestsOwned, RoutingsOwned, DeliveriesOwned,
      ResultsOwned, RecoveryFounded, AuthorizationsDistinct;
    RunKeepsInv(w, log, j);
    StepAt(w, log, j);
    AtTheLimit(At(w, log, j), log[j], At(w, log, j + 1));
  }

  /** A loop at the limit that owes nothing has lost its decision, and the counter has not moved since. */
  lemma {:induction false} LimitWithoutDecision(w: Disk, log: seq<Action>, j: nat) returns (i: nat)
    requires Inv(w) && Legal(w, log) && w.loop.timeouts == 0 && j <= |log|
    requires var u := At(w, log, j); u.loop.timeouts == REVIEW_MAX_TIMEOUTS && !u.owes && !u.loop.stage.Terminal()
    ensures i < j && LosesDecision(At(w, log, i), log[i])
    ensures forall k: nat | i <= k <= j :: At(w, log, k).loop.timeouts == REVIEW_MAX_TIMEOUTS
    decreases j
  {
    hide At, Inv, Legal, LosesDecision;
    AtStart(w, log);
    if j > 0 {
      BeforeTheLimit(w, log, j - 1);
      if At(w, log, j - 1).owes {
        i := j - 1;
      } else {
        i := LimitWithoutDecision(w, log, j - 1);
      }
    }
  }

  lemma {:induction false} FirstCrossing(w: Disk, log: seq<Action>, n: nat) returns (j: nat)
    requires Legal(w, log) && w.loop.timeouts == 0 && n <= |log| && At(w, log, n).loop.timeouts > REVIEW_MAX_TIMEOUTS
    ensures j < n && Step(At(w, log, j), log[j], At(w, log, j + 1))
    ensures At(w, log, j).loop.timeouts <= REVIEW_MAX_TIMEOUTS < At(w, log, j + 1).loop.timeouts
  {
    hide At, Step, Legal;
    AtStart(w, log);
    if n > 0 {
      StepAt(w, log, n - 1);
      if At(w, log, n - 1).loop.timeouts <= REVIEW_MAX_TIMEOUTS {
        j := n - 1;
      } else {
        j := FirstCrossing(w, log, n - 1);
      }
    }
  }

  ghost predicate Recounts(w: Disk, log: seq<Action>)
    requires Legal(w, log)
  {
    exists i: nat, j: nat | i < j < |log| :: RecountsAfterLoss(w, log, i, j)
  }

  ghost predicate Exceeds(w: Disk, log: seq<Action>)
    requires Legal(w, log)
  {
    exists n: nat | n <= |log| :: At(w, log, n).loop.timeouts > REVIEW_MAX_TIMEOUTS
  }

  /**
   A run exceeds the budget if and only if on it a handler dies between the fifth count and the decision to stop,
   and a later one counts again.
   */
  lemma TimeoutsExceedExactlyWhen(w: Disk, log: seq<Action>)
    requires Inv(w) && Legal(w, log) && w.loop.timeouts == 0
    ensures Exceeds(w, log) <==> Recounts(w, log)
  {
    hide Legal, At, Inv, Step;
    if Exceeds(w, log) {
      var n: nat :| n <= |log| && At(w, log, n).loop.timeouts > REVIEW_MAX_TIMEOUTS;
      var j := FirstCrossing(w, log, n);
      CrossesTheLimit(At(w, log, j), log[j], At(w, log, j + 1));
      var i := LimitWithoutDecision(w, log, j);
      assert RecountsAfterLoss(w, log, i, j);
    }
    if Recounts(w, log) {
      var i: nat, j: nat :| i < j < |log| && RecountsAfterLoss(w, log, i, j);
      StepAt(w, log, j);
      CountsOne(At(w, log, j), log[j], At(w, log, j + 1));
      assert At(w, log, j).loop.timeouts == REVIEW_MAX_TIMEOUTS;
    }
  }

  /** Counting a timeout, dying before the decision, and reading the execution again. */
  function AbandonedTimeouts(n: nat): (log: seq<Action>)
    ensures |log| == 3 * n
  {
    if n == 0 then [] else AbandonedTimeouts(n - 1) + [CountTimeout, Abandon, Observe]
  }

  lemma CountingChanges(u: Disk)
    requires Reviewing(u, AtCompletion)
    ensures Step(u, CountTimeout, u.(loop := u.loop.(timeouts := u.loop.timeouts + 1), owes := true))
  {
    hide StopAllowed, AfterJudgement, RequestId, RoutingId, DeliveryId;
  }

  lemma AbandoningChanges(u: Disk)
    ensures Step(u, Abandon, u.(seen := Unseen, owes := false))
  {
    hide StopAllowed, AfterJudgement, RequestId, RoutingId, DeliveryId;
  }

  lemma ObservingChanges(u: Disk)
    requires u.loop.execution in u.executions && u.executions[u.loop.execution].Passed?
    ensures Step(u, Observe, u.(seen := Saw(Passed)))
  {
    hide StopAllowed, AfterJudgement, RequestId, RoutingId, DeliveryId;
  }

  lemma AbandonedTimeout(u: Disk)
    requires Reviewing(u, AtCompletion) && u.loop.execution in u.executions && u.executions[u.loop.execution].Passed?
    ensures Enabled(u, CountTimeout)
    ensures var v := Effect(u, CountTimeout); Enabled(v, Abandon) && Enabled(Effect(v, Abandon), Observe)
    ensures Effect(Effect(Effect(u, CountTimeout), Abandon), Observe) == u.(loop := u.loop.(timeouts := u.loop.timeouts + 1))
  {
    hide Enabled, Effect;
    CountingChanges(u);
    var v := u.(loop := u.loop.(timeouts := u.loop.timeouts + 1), owes := true);
    AbandoningChanges(v);
    ObservingChanges(v.(seen := Unseen, owes := false));
  }

  /**
   And it does exceed it: the count is durable before the decision to stop is, so every crash between
   the two lets the next run count one more. No number bounds the counter over all runs.
   */
  lemma {:induction false} TimeoutsAreUnbounded(w: Disk, n: nat)
    requires Reviewing(w, AtCompletion) && w.loop.execution in w.executions && w.executions[w.loop.execution].Passed?
    ensures Legal(w, AbandonedTimeouts(n))
    ensures Run(w, AbandonedTimeouts(n)) == w.(loop := w.loop.(timeouts := w.loop.timeouts + n))
  {
    if n > 0 {
      hide Enabled, Effect;
      TimeoutsAreUnbounded(w, n - 1);
      AbandonedTimeout(Run(w, AbandonedTimeouts(n - 1)));
      hide Legal, Reviewing;
      ExtendByThree(w, AbandonedTimeouts(n - 1), CountTimeout, Abandon, Observe);
    }
  }

  lemma ExtendByThree(w: Disk, log: seq<Action>, a: Action, b: Action, c: Action)
    requires Legal(w, log) && Enabled(Run(w, log), a) && Enabled(Effect(Run(w, log), a), b)
    requires Enabled(Effect(Effect(Run(w, log), a), b), c)
    ensures Legal(w, log + [a, b, c]) && Run(w, log + [a, b, c]) == Effect(Effect(Effect(Run(w, log), a), b), c)
  {
    hide Enabled, Effect, Legal, Run;
    Extend(w, log, a);
    Extend(w, log + [a], b);
    Extend(w, log + [a] + [b], c);
    assert log + [a] + [b] + [c] == log + [a, b, c];
  }

  // ---- The recovery detour ------------------------------------------------------------------

  /** Requests as this version creates them: the normal round's always use the tool protocol. */
  predicate CurrentVersion(w: Disk, log: seq<Action>)
    requires Legal(w, log)
  {
    forall i | 0 <= i < |log| && log[i].CreateRequest? && At(w, log, i).loop.recovery.None? :: log[i].toolProtocol
  }

  ghost predicate NoDetour(w: Disk) {
    w.loop.recovery.None? && forall k | k in w.requests :: w.requests[k].toolProtocol
  }

  lemma StepNoDetour(w: Disk, a: Action, v: Disk)
    requires Step(w, a, v) && NoDetour(w) && (a.CreateRequest? ==> a.toolProtocol)
    ensures NoDetour(v)
  {
    hide StopAllowed;
  }

  /**
   The recovery detour reads text verdicts, and a request created by this version asks for a tool
   verdict: a loop started fresh never takes it. Only checkpoints left by an earlier version do.
   */
  lemma {:induction false} FreshLoopsNeverDetour(w: Disk, log: seq<Action>)
    requires NoDetour(w) && Legal(w, log) && CurrentVersion(w, log)
    ensures NoDetour(Run(w, log))
    decreases |log|
  {
    if log != [] {
      var n := |log| - 1;
      PrefixLegal(w, log, n);
      forall i | 0 <= i < n && log[..n][i].CreateRequest? && At(w, log[..n], i).loop.recovery.None?
        ensures log[..n][i].toolProtocol
      {
        assert log[..n][..i] == log[..i];
      }
      FreshLoopsNeverDetour(w, log[..n]);
      StepAt(w, log, n);
      assert log[..n + 1] == log;
      StepNoDetour(Run(w, log[..n]), log[n], Run(w, log));
    }
  }
}
