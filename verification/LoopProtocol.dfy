/**
 The auto-iteration loop as a protocol: what is durable, which single durable writes
 (`Action`s) are legal in which state, and what each of them leaves behind. One `Disk`
 holds one loop together with the records that belong to it; other loops write under
 other identities (`Identity.NamesAreFaithful`).
 */
module LoopProtocol {
  import opened Options
  import opened Identity

  const REVIEW_DELIVERY_MAX_ATTEMPTS := 10
  const REVIEW_MAX_TIMEOUTS := 5

  datatype Stage =
    | AtExecution | AtRequest | AtRouting | AtDelivery | AtCompletion | AtVerdict | AtActuation
    | Completed | HumanRequired | Failed
  {
    predicate Terminal() { Completed? || HumanRequired? || Failed? }
    predicate Review() { AtRequest? || AtRouting? || AtDelivery? || AtCompletion? || AtVerdict? }
  }

  datatype TerminalDecision = APPROVE | HUMAN_REQUIRED | FAILED

  datatype Reason =
    | REVIEW_APPROVED
    | EXECUTION_FAILED | ACTUATION_FAILED
    | EXECUTION_MISSING | EXECUTION_TERMINATED
    | REVIEW_REQUEST_UNAVAILABLE | ROUTING_UNAVAILABLE | DELIVERY_UNAVAILABLE
    | DELIVERY_UNCERTAIN | REVIEW_TRANSPORT_EXCEPTION | TransportError(code: string)
    | REVIEW_COMPLETION_TIMEOUT_RETRY_EXHAUSTED | REVIEW_COMPLETION_FAILED | REVIEW_COMPLETION_UNAVAILABLE
    | VERDICT_CONFIRMATION_TIMEOUT | InvalidVerdict(code: string) | INVALID_VERDICT_SCHEMA
    | REVIEW_REQUIRES_HUMAN | MAX_ITERATIONS_REACHED | VERDICT_UNAVAILABLE
    | INITIAL_AUTHORIZATION_UNAVAILABLE | INITIAL_AUTHORIZATION_MISSING | INITIAL_AUTHORIZATION_IDENTITY_INVALID
    | AUTHORIZATION_IDENTITY_INVALID | INITIAL_EXECUTION_NOT_CONTINUABLE
    | ACTUATION_UNCERTAIN | ACTUATION_IDENTITY_INVALID | ACTUATION_UNAVAILABLE

  /** The workspace and task every record of a loop carries. */
  datatype Owner = Owner(workspace: string, task: string)

  type Payload = string

  /** What a loop is bound to for its whole life. */
  datatype Binding = Binding(
    id: string, initialExecution: Id, owner: Owner, conversation: string, maxIterations: nat)

  datatype Loop = Loop(
    binding: Binding,
    iteration: nat, execution: Id,
    request: Option<Id>, routing: Option<Id>, delivery: Option<Id>, result: Option<Id>,
    recovery: Option<Id>,            // verdict_recovery.original_result_id
    actuation: Option<Id>, authorization: Option<Id>, pending: Option<Payload>,
    retryArmed: bool,                // retry_at is set
    timeouts: nat,                   // completion_attempt_count
    stage: Stage, decision: Option<TerminalDecision>, reason: Option<Reason>)

  datatype ExecutionStatus = Running | Passed | ExecutionFailed | Terminated
  datatype Observation = Unseen | Missing | Saw(status: ExecutionStatus)

  datatype RequestRecord = RequestRecord(owner: Owner, execution: Id, conversation: string, toolProtocol: bool)
  datatype RoutingRecord = RoutingRecord(owner: Owner, execution: Id, request: Id, conversation: string)

  datatype DeliveryStatus =
    | Pending | Delivering | Delivered | FailedDelivery(code: Option<string>, retryable: bool)
    | Ambiguous(error: Option<string>)
  datatype DeliveryRecord = DeliveryRecord(
    owner: Owner, request: Id, routing: Id, conversation: string, status: DeliveryStatus, attempts: nat)

  datatype ResultStatus = COMPLETED | TIMEOUT | RESULT_FAILED
  datatype ResultRecord = ResultRecord(owner: Owner, request: Id, delivery: Id, status: ResultStatus)

  /** The backend an iteration must be continued on, and what the first authorization fixed. */
  datatype Configuration = Configuration(baseline: string, thread: Option<string>)
  datatype Authorization = Authorization(
    id: Id, owner: Owner, execution: Id, instruction: Payload, configuration: Configuration)

  datatype Disk = Disk(
    loop: Loop,
    executions: map<Id, ExecutionStatus>,
    requests: map<Id, RequestRecord>,
    routings: map<Id, RoutingRecord>,
    deliveries: map<Id, DeliveryRecord>,
    results: map<Id, ResultRecord>,
    authorizations: map<Id, Authorization>,  // by actuation id
    durableResume: bool,                     // the adapter can resume a `delivering` record
    // volatile: what the running handler holds in memory
    seen: Observation,                       // its last reading of the execution's status
    owes: bool)                              // it still has to decide between a retry and a hand-over

  // ---- Identities --------------------------------------------------------------

  function RequestId(b: Binding, iteration: nat, recovery: bool): Id {
    Stable(if recovery then "verdict-review" else "review", b.id, iteration)
  }

  function RoutingId(b: Binding, iteration: nat, recovery: bool): Id {
    Stable(if recovery then "verdict-routing" else "routing", b.id, iteration)
  }

  function DeliveryId(b: Binding, iteration: nat, recovery: bool): Id {
    Stable(if recovery then "verdict-delivery" else "delivery", b.id, iteration)
  }

  function ActuationId(b: Binding, iteration: nat): Id {
    Stable("actuation", b.id, iteration)
  }

  function ExecutionId(b: Binding, iteration: nat): Id {
    if iteration == 1 then b.initialExecution else Stable("execution", b.id, iteration)
  }

  function CurrentRequestId(l: Loop): Id { RequestId(l.binding, l.iteration, l.recovery.Some?) }
  function CurrentRoutingId(l: Loop): Id { RoutingId(l.binding, l.iteration, l.recovery.Some?) }
  function CurrentDeliveryId(l: Loop): Id { DeliveryId(l.binding, l.iteration, l.recovery.Some?) }

  // ---- Identity checks of the source --------------------------------------------

  predicate RequestMatches(l: Loop, r: RequestRecord) {
    r.owner == l.binding.owner && r.execution == l.execution && r.conversation == l.binding.conversation
  }

  predicate RoutingMatches(l: Loop, r: RoutingRecord) {
    l.request == Some(r.request) && r.owner == l.binding.owner && r.execution == l.execution && r.conversation == l.binding.conversation
  }

  predicate DeliveryMatches(l: Loop, d: DeliveryRecord) {
    && l.request == Some(d.request) && l.routing == Some(d.routing)
    && d.owner == l.binding.owner && d.conversation == l.binding.conversation
  }

  predicate ResultMatches(l: Loop, r: ResultRecord) {
    r.owner == l.binding.owner && l.request == Some(r.request) && l.delivery == Some(r.delivery)
  }

  predicate AuthorizationMatches(l: Loop, a: Authorization, c: Configuration) {
    && a.owner == l.binding.owner && a.execution == l.execution
    && l.pending == Some(a.instruction) && a.configuration == c
  }

  // ---- Verdicts -----------------------------------------------------------------

  datatype Decision = Approve | AskHuman | Iterate(payload: Payload)

  /** What the verdict source returned for the completed result. */
  datatype Judgement =
    | Unconfirmed                    // tool protocol, confirmation window closed
    | Unparsable(code: string)       // text protocol
    | Malformed                      // rejected by the verdict schema
    | Parsed(request: Id, decision: Decision)

  function Stop(l: Loop, reason: Reason): Loop {
    l.(stage := HumanRequired, decision := Some(HUMAN_REQUIRED), reason := Some(reason))
  }

  function AfterJudgement(l: Loop, resultId: Id, j: Judgement): Loop {
    match j
    case Unconfirmed => Stop(l, VERDICT_CONFIRMATION_TIMEOUT)
    case Unparsable(code) =>
      if code == "VERDICT_BLOCK_MISSING" && l.recovery.None? then
        l.(recovery := Some(resultId),
           request := Some(RequestId(l.binding, l.iteration, true)),
           routing := Some(RoutingId(l.binding, l.iteration, true)),
           delivery := Some(DeliveryId(l.binding, l.iteration, true)),
           result := None, timeouts := 0, stage := AtRequest)
      else Stop(l, InvalidVerdict(code))
    case Malformed => Stop(l, INVALID_VERDICT_SCHEMA)
    case Parsed(request, decision) =>
      if l.request != Some(request) then Stop(l, INVALID_VERDICT_SCHEMA)
      else match decision
        case Approve => l.(stage := Completed, decision := Some(APPROVE), reason := Some(REVIEW_APPROVED))
        case AskHuman => Stop(l, REVIEW_REQUIRES_HUMAN)
        case Iterate(payload) =>
          if l.iteration >= l.binding.maxIterations then Stop(l, MAX_ITERATIONS_REACHED)
          else
            l.(iteration := l.iteration + 1, execution := ExecutionId(l.binding, l.iteration + 1),
               request := None, routing := None, delivery := None, result := None, recovery := None,
               timeouts := 0, actuation := Some(ActuationId(l.binding, l.iteration + 1)), authorization := None,
               pending := Some(payload), stage := AtActuation)
  }

  // ---- Actions ------------------------------------------------------------------

  datatype Action =
    // durable writes of the loop's own handlers
    | StartReview
    | NameRequest | CreateRequest(toolProtocol: bool) | EnterRouting
    | NameRouting | CreateRouting | EnterDelivery
    | NameDelivery | CreateDelivery | AdoptDelivery(delivery: Id)
    | BeginAttempt | Settle(outcome: DeliveryStatus) | EnterCompletion
    | ArmRetry | ClearRetry
    | CountTimeout | NameResult(result: Id) | EnterVerdict
    | Judge(judgement: Judgement)
    | Authorize(authorization: Id, configuration: Configuration) | NameAuthorization(id: Id) | EnterExecution
    | StopForHuman(reason: Reason) | Fail(reason: Reason)
    // the handler reads the execution's status
    | Observe
    // the handler stops without a write: a crash, or a transient error rethrown
    | Abandon
    // everybody else
    | SetExecution(execution: Id, status: Option<ExecutionStatus>)
    | RecordResult(resultId: Id, record: ResultRecord)
    | ForeignDelivery(id: Id)
  {
    predicate Environment() { SetExecution? || RecordResult? || ForeignDelivery? }
    predicate Service() { !Environment() && !Abandon? && !Observe? }
  }

  predicate CanBegin(d: DeliveryRecord) {
    d.status.Pending? || (d.status.FailedDelivery? && d.status.retryable && d.attempts < REVIEW_DELIVERY_MAX_ATTEMPTS)
  }

  predicate HasDelivery(w: Disk) {
    w.loop.delivery.Some? && w.loop.delivery.value in w.deliveries
  }

  function CurrentDelivery(w: Disk): DeliveryRecord
    requires HasDelivery(w)
  {
    w.deliveries[w.loop.delivery.value]
  }

  /** A finished review for the loop's request: the result the verdict is read from. */
  predicate HasResult(w: Disk) {
    && w.loop.result.Some? && w.loop.result.value in w.results
    && w.results[w.loop.result.value].status.COMPLETED?
  }

  /** When each of the source's hand-over reasons may be recorded. */
  predicate StopAllowed(w: Disk, reason: Reason) {
    var l := w.loop;
    match reason
    case EXECUTION_MISSING => (l.stage.Review() || l.stage.AtExecution?) && w.seen.Missing?
    case EXECUTION_TERMINATED => (l.stage.Review() || l.stage.AtExecution?) && w.seen == Saw(Terminated)
    case REVIEW_REQUEST_UNAVAILABLE => l.stage.AtRequest?
    case ROUTING_UNAVAILABLE => l.stage.AtRouting?
    case DELIVERY_UNAVAILABLE => l.stage.AtDelivery?
    case REVIEW_TRANSPORT_EXCEPTION => l.stage.AtDelivery? && HasDelivery(w)
    case DELIVERY_UNCERTAIN =>
      l.stage.AtDelivery? && HasDelivery(w) && CurrentDelivery(w).status.Delivering? && !w.durableResume
    case TransportError(_) =>
      && l.stage.AtDelivery? && HasDelivery(w)
      && (CurrentDelivery(w).status.Ambiguous?
          || (CurrentDelivery(w).status.FailedDelivery?
              && (!CurrentDelivery(w).status.retryable || CurrentDelivery(w).attempts >= REVIEW_DELIVERY_MAX_ATTEMPTS)))
    case REVIEW_COMPLETION_TIMEOUT_RETRY_EXHAUSTED => l.stage.AtCompletion? && w.owes && l.timeouts >= REVIEW_MAX_TIMEOUTS
    case REVIEW_COMPLETION_FAILED => l.stage.AtCompletion?
    case REVIEW_COMPLETION_UNAVAILABLE => l.stage.AtCompletion?
    case VERDICT_UNAVAILABLE => l.stage.AtVerdict?
    case INITIAL_AUTHORIZATION_UNAVAILABLE => l.stage.AtActuation?
    case INITIAL_AUTHORIZATION_MISSING => l.stage.AtActuation?
    case INITIAL_AUTHORIZATION_IDENTITY_INVALID => l.stage.AtActuation?
    case AUTHORIZATION_IDENTITY_INVALID => l.stage.AtActuation? && ActuationAuthorized(w)
    case INITIAL_EXECUTION_NOT_CONTINUABLE => l.stage.AtActuation? && ActuationAuthorized(w)
    case ACTUATION_UNCERTAIN => l.stage.AtActuation? && ActuationBound(w)
    case ACTUATION_IDENTITY_INVALID => l.stage.AtActuation? && ActuationBound(w)
    case ACTUATION_UNAVAILABLE => l.stage.AtActuation?
    case _ => false
  }

  /** The current actuation has its authorization. */
  predicate ActuationAuthorized(w: Disk) {
    w.loop.actuation.Some? && w.loop.actuation.value in w.authorizations
  }

  /** ... and the loop has persisted which one it is. */
  predicate ActuationBound(w: Disk) {
    ActuationAuthorized(w) && w.loop.authorization == Some(w.authorizations[w.loop.actuation.value].id)
  }

  predicate Active(w: Disk) {
    !w.loop.stage.Terminal() && !w.owes
  }

  /** A review stage's handler runs with no retry pending, and only after it has read the execution as passed. */
  predicate Reviewing(w: Disk, stage: Stage) {
    Active(w) && w.loop.stage == stage && !w.loop.retryArmed && w.seen == Saw(Passed)
  }

  predicate Enabled(w: Disk, a: Action) {
    var l := w.loop;
    match a
    case StartReview => Active(w) && l.stage.AtExecution? && w.seen == Saw(Passed)
    case NameRequest => Reviewing(w, AtRequest) && l.request.None?
    case CreateRequest(tool) =>
      && Reviewing(w, AtRequest) && l.request.Some? && l.request.value !in w.requests
      && (l.recovery.Some? ==> !tool)
    case EnterRouting =>
      && Reviewing(w, AtRequest) && l.request.Some?
      && l.request.value in w.requests && RequestMatches(l, w.requests[l.request.value])
    case NameRouting => Reviewing(w, AtRouting) && l.routing.None?
    case CreateRouting =>
      && Reviewing(w, AtRouting) && l.routing.Some? && l.routing.value !in w.routings
      && l.request.Some? && l.request.value in w.requests
    case EnterDelivery =>
      && Reviewing(w, AtRouting) && l.routing.Some?
      && l.routing.value in w.routings && RoutingMatches(l, w.routings[l.routing.value])
    case NameDelivery => Reviewing(w, AtDelivery) && l.delivery.None?
    case CreateDelivery =>
      && Reviewing(w, AtDelivery) && l.delivery.Some? && l.delivery.value !in w.deliveries
      && l.request.Some? && l.routing.Some? && l.routing.value in w.routings
      && RoutingMatches(l, w.routings[l.routing.value])
      && (forall d | d in w.deliveries :: w.deliveries[d].routing != l.routing.value)
    case AdoptDelivery(d) =>
      && Reviewing(w, AtDelivery) && l.delivery.Some? && l.delivery.value !in w.deliveries
      && d in w.deliveries && l.routing == Some(w.deliveries[d].routing)
    case BeginAttempt =>
      && Reviewing(w, AtDelivery) && HasDelivery(w) && CanBegin(CurrentDelivery(w))
      && DeliveryMatches(l, CurrentDelivery(w))
    case Settle(outcome) =>
      && Reviewing(w, AtDelivery) && HasDelivery(w) && CurrentDelivery(w).status.Delivering?
      && (outcome.Delivered? || outcome.FailedDelivery? || outcome.Ambiguous?)
    case EnterCompletion =>
      && Reviewing(w, AtDelivery) && HasDelivery(w) && CurrentDelivery(w).status.Delivered?
      && DeliveryMatches(l, CurrentDelivery(w))
    case ArmRetry =>
      && (l.stage.AtDelivery? || l.stage.AtCompletion?) && w.owes && !l.retryArmed
      && (l.stage.AtCompletion? ==> l.timeouts < REVIEW_MAX_TIMEOUTS)
      && (l.stage.AtDelivery? ==> HasDelivery(w) && CurrentDelivery(w).attempts < REVIEW_DELIVERY_MAX_ATTEMPTS)
    case ClearRetry => Active(w) && l.retryArmed
    case CountTimeout => Reviewing(w, AtCompletion)
    case NameResult(r) =>
      && Reviewing(w, AtCompletion) && l.result.None?
      && r in w.results && ResultMatches(l, w.results[r]) && w.results[r].status.COMPLETED?
    case EnterVerdict => Reviewing(w, AtCompletion) && HasResult(w)
    case Judge(j) =>
      && Reviewing(w, AtVerdict) && HasResult(w)
      && l.request.Some? && l.request.value in w.requests
      && (j.Unparsable? ==> !w.requests[l.request.value].toolProtocol)
      && (j.Unconfirmed? ==> w.requests[l.request.value].toolProtocol)
    case Authorize(id, c) =>
      && Active(w) && l.stage.AtActuation? && l.actuation.Some? && l.actuation.value !in w.authorizations
      && l.pending.Some?
      && (forall k | k in w.authorizations :: w.authorizations[k].id != id)
    case NameAuthorization(id) =>
      && Active(w) && l.stage.AtActuation? && ActuationAuthorized(w) && l.authorization.None?
      && w.authorizations[l.actuation.value].id == id
    case EnterExecution => Active(w) && l.stage.AtActuation? && ActuationBound(w)
    case StopForHuman(reason) => !l.stage.Terminal() && StopAllowed(w, reason)
    case Fail(reason) =>
      && Active(w)
      && ((reason.EXECUTION_FAILED? && (l.stage.Review() || l.stage.AtExecution?) && w.seen == Saw(ExecutionFailed))
          || (reason.ACTUATION_FAILED? && l.stage.AtActuation? && ActuationBound(w)))
    case Observe => true
    case Abandon => true
    case SetExecution(_, _) => true
    case RecordResult(id, r) =>
      && r.delivery in w.deliveries && w.deliveries[r.delivery].status.Delivered?
      && r.request == w.deliveries[r.delivery].request && r.owner == w.deliveries[r.delivery].owner
      && (forall k | k in w.results && w.results[k].request == r.request :: k == id && !w.results[k].status.COMPLETED?)
      && (id in w.results ==> w.results[id].request == r.request)
    case ForeignDelivery(d) =>
      && d.External? && d !in w.deliveries && l.routing.Some? && l.routing.value in w.routings
      && (forall k | k in w.deliveries :: w.deliveries[k].routing != l.routing.value)
  }

  function FreshDelivery(w: Disk, routing: Id): DeliveryRecord
    requires routing in w.routings
  {
    var r := w.routings[routing];
    DeliveryRecord(r.owner, r.request, routing, r.conversation, Pending, 0)
  }

  function LoopAfter(w: Disk, a: Action): Loop
    requires Enabled(w, a)
  {
    var l := w.loop;
    match a
    case StartReview => l.(stage := AtRequest)
    case NameRequest => l.(request := Some(RequestId(l.binding, l.iteration, false)))
    case EnterRouting => l.(stage := AtRouting)
    case NameRouting => l.(routing := Some(RoutingId(l.binding, l.iteration, false)))
    case EnterDelivery => l.(stage := AtDelivery)
    case NameDelivery => l.(delivery := Some(DeliveryId(l.binding, l.iteration, false)))
    case AdoptDelivery(d) => l.(delivery := Some(d))
    case EnterCompletion => l.(stage := AtCompletion)
    case ArmRetry => l.(retryArmed := true)
    case ClearRetry => l.(retryArmed := false)
    case CountTimeout => l.(timeouts := l.timeouts + 1)
    case NameResult(r) => l.(result := Some(r))
    case EnterVerdict => l.(stage := AtVerdict)
    case Judge(j) => AfterJudgement(l, l.result.value, j)
    case NameAuthorization(id) => l.(authorization := Some(id))
    case EnterExecution => l.(stage := AtExecution, pending := None)
    case StopForHuman(reason) => Stop(l, reason)
    case Fail(reason) => l.(stage := Failed, decision := Some(FAILED), reason := Some(reason))
    case _ => l
  }

  function DeliveriesAfter(w: Disk, a: Action): map<Id, DeliveryRecord>
    requires Enabled(w, a)
  {
    var l := w.loop;
    match a
    case CreateDelivery => w.deliveries[l.delivery.value := FreshDelivery(w, l.routing.value)]
    case ForeignDelivery(d) => w.deliveries[d := FreshDelivery(w, l.routing.value)]
    case BeginAttempt =>
      var d := CurrentDelivery(w);
      w.deliveries[l.delivery.value := d.(status := Delivering, attempts := d.attempts + 1)]
    case Settle(outcome) => w.deliveries[l.delivery.value := CurrentDelivery(w).(status := outcome)]
    case _ => w.deliveries
  }

  function SeenAfter(w: Disk, a: Action): Observation
    requires Enabled(w, a)
  {
    match a
    case Observe => if w.loop.execution in w.executions then Saw(w.executions[w.loop.execution]) else Missing
    case Abandon => Unseen
    case EnterExecution => Unseen
    case Judge(j) => if LoopAfter(w, a).execution == w.loop.execution then w.seen else Unseen
    case _ => w.seen
  }

  function OwesAfter(w: Disk, a: Action): bool {
    match a
    case Settle(outcome) => outcome.FailedDelivery? && outcome.retryable
    case CountTimeout => true
    case ArmRetry => false
    case StopForHuman(_) => false
    case Abandon => false
    case _ => w.owes
  }

  function Effect(w: Disk, a: Action): Disk
    requires Enabled(w, a)
  {
    var l := w.loop;
    Disk(
      LoopAfter(w, a),
      if a.SetExecution? then
        if a.status.Some? then w.executions[a.execution := a.status.value] else w.executions - {a.execution}
      else w.executions,
      if a.CreateRequest? then
        w.requests[l.request.value := RequestRecord(l.binding.owner, l.execution, l.binding.conversation, a.toolProtocol)]
      else w.requests,
      if a.CreateRouting? then
        w.routings[l.routing.value := RoutingRecord(l.binding.owner, l.execution, l.request.value, l.binding.conversation)]
      else w.routings,
      DeliveriesAfter(w, a),
      if a.RecordResult? then w.results[a.resultId := a.record] else w.results,
      if a.Authorize? then
        w.authorizations[l.actuation.value :=
          Authorization(a.authorization, l.binding.owner, l.execution, l.pending.value, a.configuration)]
      else w.authorizations,
      w.durableResume, SeenAfter(w, a), OwesAfter(w, a))
  }

  predicate Step(w: Disk, a: Action, v: Disk) {
    Enabled(w, a) && v == Effect(w, a)
  }

  // ---- Runs ---------------------------------------------------------------------

  /** `log` can be carried out from `w`, action by action. */
  predicate Legal(w: Disk, log: seq<Action>)
    decreases |log|, 0
  {
    log == [] || (Legal(w, log[..|log| - 1]) && Enabled(Run(w, log[..|log| - 1]), log[|log| - 1]))
  }

  function Run(w: Disk, log: seq<Action>): Disk
    requires Legal(w, log)
    decreases |log|, 1
  {
    if log == [] then w else Effect(Run(w, log[..|log| - 1]), log[|log| - 1])
  }

  /** What `start` persists for a new loop. */
  function NewLoop(id: string, execution: Id, owner: Owner, conversation: string, maxIterations: nat, passed: bool): Loop {
    Loop(Binding(id, execution, owner, conversation, maxIterations), 1, execution,
      None, None, None, None, None, None, None, None, false, 0,
      if passed then AtRequest else AtExecution, None, None)
  }

  /** One more enabled action extends a run. */
  lemma Extend(w: Disk, log: seq<Action>, a: Action)
    requires Legal(w, log) && Enabled(Run(w, log), a)
    ensures Legal(w, log + [a]) && Run(w, log + [a]) == Effect(Run(w, log), a)
  {
    assert (log + [a])[..|log|] == log;
  }
}
