/**
 The loop's handlers as the service runs them. Every durable write is one action of `LoopProtocol`;
 between any two awaits other actors may write, an operation may fail, and the process may die.
 The ghost `log` is the run so far: no handler can write anything the protocol does not allow.
 */
module LoopService {
  import opened Options
  import opened Identity
  import opened LoopProtocol
  import opened LoopInvariant
  import opened LoopRuns
  import opened LoopTermination

  /** How an awaited operation ended. `Transient` is the source's EPERM / EACCES / EBUSY. */
  datatype Fault = Healthy | Transient | Permanent | Crashed {
    predicate IsFailure() { !Healthy? }
    function PropagateFailure(): Fault { this }
  }

  datatype Continuation = NoContinuation | Verified(thread: string) | Unverified

  datatype Actuated = Started | WrongIdentity | NotContinuable | Uncertain | FailedExecution

  const STEP_LIMIT := 32

  /** Other actors write execution records, results and deliveries; never what the loop's handlers write. */
  lemma OthersDisturbNothing(w: Disk, a: Action, v: Disk)
    requires Step(w, a, v) && a.Environment()
    ensures v.loop == w.loop && v.seen == w.seen && v.owes == w.owes && v.durableResume == w.durableResume
    ensures v.requests == w.requests && v.routings == w.routings && v.authorizations == w.authorizations
    ensures forall d | d in w.deliveries :: d in v.deliveries && v.deliveries[d] == w.deliveries[d]
  {
  }

  /** Nothing to do before the execution ends. */
  predicate Waiting(w: Disk) {
    (w.loop.stage.Review() || w.loop.stage.AtExecution?) && w.seen == Saw(Running)
  }

  class AutoIterationService {
    var disk: Disk
    ghost const initial: Disk
    ghost var log: seq<Action>
    // calls of the delivery and completion adapters so far
    ghost var asked: nat

    ghost predicate Valid()
      reads this
    {
      Inv(initial) && Legal(initial, log) && disk == Run(initial, log) && Inv(disk)
    }

    /** `start` for a loop id that is not stored yet. */
    constructor Start(id: string, execution: Id, owner: Owner, conversation: string, maxIterations: nat,
                      passed: bool, executions: map<Id, ExecutionStatus>, durableResume: bool)
      requires maxIterations >= 1
      ensures Valid() && log == [] && asked == 0 && Fresh(disk)
      ensures disk.loop == NewLoop(id, execution, owner, conversation, maxIterations, passed)
    {
      var d := Disk(NewLoop(id, execution, owner, conversation, maxIterations, passed),
                    executions, map[], map[], map[], map[], map[], durableResume, Unseen, false);
      disk, initial, log, asked := d, d, [], 0;
      FreshIsInvariant(d);
    }

    /** A restarted process takes over whatever checkpoint the last one left. */
    constructor Restore(checkpoint: Disk)
      requires Inv(checkpoint)
      ensures Valid() && log == [] && asked == 0 && disk == checkpoint
    {
      disk, initial, log, asked := checkpoint, checkpoint, [], 0;
    }

    /** Every adapter call has led to an end, but for the one of a handler that fails now. */
    ghost predicate Paid(before: nat, was: seq<Action>, f: Fault)
      reads this
    {
      asked - before <= Ends(log) - Ends(was) + if f.Healthy? then 0 else 1
    }

    // ---- Writes, waits, and everybody else --------------------------------------------

    method Write(a: Action)
      requires Valid() && Enabled(disk, a)
      modifies this`disk, this`log
      ensures Valid() && disk == Effect(old(disk), a) && log == old(log) + [a]
    {
      hide Inv, Enabled, Effect;
      StepKeepsInv(disk, a, Effect(disk, a));
      Extend(initial, log, a);
      disk := Effect(disk, a);
      log := log + [a];
    }

    /** An atomic replace of a stored file: it took place, or it failed and did not, or the process died. */
    method Put(a: Action) returns (f: Fault)
      requires Valid() && Enabled(disk, a)
      modifies this`disk, this`log
      ensures Valid() && old(log) <= log
      ensures f.Healthy? ==> disk == Effect(old(disk), a)
      ensures f.Healthy? && a.Service() ==> Ends(log) == Ends(old(log)) + 1
      ensures f.Transient? || f.Permanent? ==> disk == old(disk)
      ensures f.Crashed? ==> disk == old(disk) || disk == Effect(old(disk), a)
    {
      hide Enabled, Effect, Inv, Legal, Ends;
      EndsSnoc(log, a);
      f := *;
      var reached: bool := *;
      if f.Healthy? || (f.Crashed? && reached) {
        Write(a);
      }
    }

    /** An exclusive create: it may have taken place even though it reports a failure. */
    method Create(a: Action) returns (f: Fault)
      requires Valid() && Enabled(disk, a)
      modifies this`disk, this`log
      ensures Valid() && old(log) <= log
      ensures disk == Effect(old(disk), a) || (!f.Healthy? && disk == old(disk))
    {
      hide Enabled, Effect, Inv;
      f := *;
      var reached: bool := *;
      if f.Healthy? || reached {
        Write(a);
      }
    }

    /** What the handler holds in memory or has written itself survives any wait. */
    ghost predicate Undisturbed(was: Disk)
      reads this
    {
      && disk.loop == was.loop && disk.seen == was.seen && disk.owes == was.owes
      && disk.durableResume == was.durableResume
      && disk.requests == was.requests && disk.routings == was.routings && disk.authorizations == was.authorizations
      && (forall d | d in was.deliveries :: d in disk.deliveries && disk.deliveries[d] == was.deliveries[d])
      && Grown(was, disk)
    }

    /** Any number of writes by other actors, then the awaited operation's own end. */
    method Await() returns (f: Fault)
      requires Valid()
      modifies this`disk, this`log
      ensures Valid() && old(log) <= log && Undisturbed(old(disk))
    {
      hide Inv, Enabled, Effect, Grown, Legal;
      ghost var was := disk;
      GrownReflexive(disk);
      var writes: nat := *;
      while writes > 0
        invariant Valid() && old(log) <= log && Undisturbed(was)
      {
        var a: Action := *;
        if a.Environment() && Enabled(disk, a) {
          ghost var before := disk;
          StepGrows(before, a, Effect(before, a));
          OthersDisturbNothing(before, a, Effect(before, a));
          GrownTransitive(was, before, Effect(before, a));
          Write(a);
        }
        writes := writes - 1;
      }
      f := *;
    }

    // ---- Reading ----------------------------------------------------------------------

    /** `findDelivery` by routing. The scan never meets a second match. */
    method FindDelivery(routing: Id) returns (found: Option<Id>)
      requires Valid()
      ensures found.Some? ==> found.value in disk.deliveries && disk.deliveries[found.value].routing == routing
      ensures found.None? ==> forall d | d in disk.deliveries :: disk.deliveries[d].routing != routing
    {
      hide Inv;
      found := None;
      var entries := disk.deliveries.Keys;
      while entries != {}
        invariant entries <= disk.deliveries.Keys
        invariant found.Some? ==> found.value in disk.deliveries.Keys - entries && disk.deliveries[found.value].routing == routing
        invariant found.None? ==> forall d | d in disk.deliveries.Keys - entries :: disk.deliveries[d].routing != routing
        decreases |entries|
      {
        var entry :| entry in entries;
        entries := entries - {entry};
        if disk.deliveries[entry].routing == routing {
          assert found.None? by {
            if found.Some? {
              OneDeliveryPerRouting(disk, entry, found.value);
            }
          }
          found := Some(entry);
        }
      }
    }

    /** `getReviewResultByRequest`. */
    method FindResult(request: Id) returns (found: Option<Id>)
      requires Valid()
      ensures found.Some? ==> found.value in disk.results && disk.results[found.value].request == request
      ensures found.None? ==> forall r | r in disk.results :: disk.results[r].request != request
    {
      hide Inv;
      found := None;
      var entries := disk.results.Keys;
      while entries != {}
        invariant entries <= disk.results.Keys
        invariant found.Some? ==> found.value in disk.results.Keys - entries && disk.results[found.value].request == request
        invariant found.None? ==> forall r | r in disk.results.Keys - entries :: disk.results[r].request != request
        decreases |entries|
      {
        var entry :| entry in entries;
        entries := entries - {entry};
        if disk.results[entry].request == request {
          assert found.None? by {
            if found.Some? {
              OneResultPerRequest(disk, entry, found.value);
            }
          }
          found := Some(entry);
        }
      }
    }

    // ---- Handlers ---------------------------------------------------------------------

    /** The loop as it is handed over. */
    static function HandedOver(w: Disk, reason: Reason): Disk { w.(loop := Stop(w.loop, reason), owes := false) }

    static lemma HandingOver(w: Disk, reason: Reason)
      requires !w.loop.stage.Terminal() && StopAllowed(w, reason)
      ensures Step(w, StopForHuman(reason), HandedOver(w, reason))
    {
      hide StopAllowed, AfterJudgement, RequestId, RoutingId, DeliveryId;
    }

    /** `humanRequired`. */
    method HumanRequired(reason: Reason) returns (f: Fault)
      requires Valid() && !disk.loop.stage.Terminal() && StopAllowed(disk, reason)
      modifies this`disk, this`log
      ensures Valid() && old(log) <= log
      ensures f.Healthy? ==> disk == HandedOver(old(disk), reason) && Ends(log) > Ends(old(log))
      ensures f.Transient? || f.Permanent? ==> disk == old(disk)
      ensures f.Crashed? ==> disk == old(disk) || disk == HandedOver(old(disk), reason)
    {
      hide Inv, Legal, StopAllowed, Enabled, Effect, Ends;
      HandingOver(disk, reason);
      f := Put(StopForHuman(reason));
    }

    static lemma AbandoningForgets(w: Disk)
      ensures Step(w, Abandon, w.(seen := Unseen, owes := false))
    {
      hide StopAllowed, AfterJudgement, RequestId, RoutingId, DeliveryId;
    }

    /** Where a handler leaves the loop when it was interrupted: still in its stage, or (by a crash) just past it. */
    method Catch(f: Fault, reason: Reason) returns (g: Fault)
      requires Valid()
      requires f.Permanent? ==> !disk.loop.stage.Terminal() && StopAllowed(disk, reason)
      modifies this`disk, this`log
      ensures Valid() && old(log) <= log
      ensures f.Healthy? ==> g.Healthy? && disk == old(disk)
      ensures f.Permanent? && g.Healthy? ==> disk.loop == Stop(old(disk.loop), reason) && !disk.owes
      ensures f.Transient? || f.Crashed? ==> g == f && disk.loop == old(disk.loop)
      ensures !g.Healthy? ==> !disk.owes
      ensures !f.Healthy? ==> Ends(log) > Ends(old(log))
    {
      hide Inv, Legal, StopAllowed, Ends, Enabled, Effect;
      EndsMonotone();
      g := f;
      if f.Permanent? {
        g := HumanRequired(reason);
      }
      if !g.Healthy? {
        EndsSnoc(log, Abandon);
        AbandoningForgets(disk);
        Write(Abandon);
      }
    }

    /** Find the round's request, or create it. */
    method ObtainRequest() returns (f: Fault)
      requires Valid() && Reviewing(disk, AtRequest) && disk.loop.request.Some?
      modifies this`disk, this`log
      ensures Valid() && old(log) <= log
      ensures disk.loop == old(disk.loop) && disk.seen == old(disk.seen) && disk.owes == old(disk.owes)
      ensures f.Healthy? ==> disk.loop.request.value in disk.requests
    {
      hide Inv, Legal, StopAllowed, AfterJudgement, DeliveriesAfter, Grown;
      :- Await();
      f := Healthy;
      var id := disk.loop.request.value;
      if id !in disk.requests {
        RequestIsOurs(disk);
        f := Create(CreateRequest(disk.loop.recovery.None?));
        if f.Transient? || f.Permanent? {
          var failure := f;
          :- Await();
          f := if id in disk.requests then Healthy else failure;
        }
      }
    }

    method RememberRequest() returns (f: Fault)
      requires Valid() && Reviewing(disk, AtRequest) && disk.loop.request.None?
      modifies this`disk, this`log
      ensures Valid() && old(log) <= log
      ensures f.Permanent? ==> disk.loop == old(disk.loop)
      ensures f.Healthy? ==> Reviewing(disk, AtRequest)
      ensures f.Healthy? ==> disk.loop == old(disk.loop).(request := Some(RequestId(disk.loop.binding, disk.loop.iteration, false)))
    {
      hide Inv, Legal, StopAllowed, AfterJudgement, DeliveriesAfter, Grown, RequestId, RoutingId, DeliveryId;
      f := Put(NameRequest);
    }

    method LeaveRequest() returns (f: Fault)
      requires Valid() && Reviewing(disk, AtRequest) && disk.loop.request.Some?
      requires disk.loop.request.value in disk.requests && RequestMatches(disk.loop, disk.requests[disk.loop.request.value])
      modifies this`disk, this`log
      ensures Valid() && old(log) <= log
      ensures f.Permanent? ==> disk == old(disk)
      ensures f.Healthy? ==> disk.loop == old(disk.loop).(stage := AtRouting)
    {
      hide Inv, Legal, StopAllowed, AfterJudgement, DeliveriesAfter, Grown, RequestId, RoutingId, DeliveryId;
      f := Put(EnterRouting);
    }

    method ReviewRequestSteps() returns (f: Fault)
      requires Valid() && Reviewing(disk, AtRequest)
      modifies this`disk, this`log
      ensures Valid() && old(log) <= log
      ensures f.Healthy? ==> disk.loop == old(disk.loop).(request := Some(CurrentRequestId(old(disk.loop))), stage := AtRouting)
      ensures f.Permanent? ==> disk.loop.stage.AtRequest?
    {
      hide Inv, Legal, Enabled, Effect, Grown;
      if disk.loop.request.None? {
        :- RememberRequest();
      }
      RequestIsOurs(disk);
      :- ObtainRequest();
      RequestIsOurs(disk);
      assert RequestMatches(disk.loop, disk.requests[disk.loop.request.value]);
      :- Await();
      f := LeaveRequest();
    }

    method AdvanceReviewRequest() returns (f: Fault)
      requires Valid() && Reviewing(disk, AtRequest)
      modifies this`disk, this`log
      ensures Valid() && old(log) <= log
      ensures f.Healthy? ==> disk.loop.stage.AtRouting? || disk.loop.reason == Some(REVIEW_REQUEST_UNAVAILABLE)
      ensures !disk.owes
    {
      hide Inv, Legal, Grown;
      f := ReviewRequestSteps();
      f := Catch(f, REVIEW_REQUEST_UNAVAILABLE);
      if f.Healthy? && disk.loop.stage.AtRouting? { NothingOwed(disk); }
    }

    method ObtainRouting() returns (f: Fault)
      requires Valid() && Reviewing(disk, AtRouting) && disk.loop.routing.Some?
      modifies this`disk, this`log
      ensures Valid() && old(log) <= log
      ensures disk.loop == old(disk.loop) && disk.seen == old(disk.seen) && disk.owes == old(disk.owes)
      ensures f.Healthy? ==> disk.loop.routing.value in disk.routings
    {
      hide Inv, Legal, StopAllowed, AfterJudgement, DeliveriesAfter, Grown;
      :- Await();
      f := Healthy;
      var id := disk.loop.routing.value;
      if id !in disk.routings {
        RoutingIsOurs(disk);
        f := Create(CreateRouting);
        if f.Transient? || f.Permanent? {
          var failure := f;
          :- Await();
          f := if id in disk.routings then Healthy else failure;
        }
      }
    }

    method RoutingSteps() returns (f: Fault)
      requires Valid() && Reviewing(disk, AtRouting)
      modifies this`disk, this`log
      ensures Valid() && old(log) <= log
      ensures f.Healthy? ==> disk.loop == old(disk.loop).(routing := disk.loop.routing, stage := AtDelivery) && !disk.owes
      ensures f.Permanent? ==> disk.loop.stage.AtRouting?
    {
      hide Inv, Legal, StopAllowed, AfterJudgement, DeliveriesAfter, Grown;
      RoutingIsOurs(disk);
      assert disk.loop.request.Some?;
      if disk.loop.routing.None? {
        :- Put(NameRouting);
      }
      :- ObtainRouting();
      RoutingIsOurs(disk);
      assert RoutingMatches(disk.loop, disk.routings[disk.loop.routing.value]);
      f := Put(EnterDelivery);
    }

    method AdvanceRouting() returns (f: Fault)
      requires Valid() && Reviewing(disk, AtRouting)
      modifies this`disk, this`log
      ensures Valid() && old(log) <= log
      ensures f.Healthy? ==> disk.loop.stage.AtDelivery? || disk.loop.reason == Some(ROUTING_UNAVAILABLE)
      ensures !disk.owes
    {
      hide Inv, Legal, Grown;
      f := RoutingSteps();
      f := Catch(f, ROUTING_UNAVAILABLE);
    }

    /** `createDelivery`: refused when the routing already has one. */
    method CreateDeliveryRecord() returns (f: Fault)
      requires Valid() && Reviewing(disk, AtDelivery) && disk.loop.delivery.Some?
      modifies this`disk, this`log
      ensures Valid() && old(log) <= log
      ensures disk.loop == old(disk.loop) && disk.seen == old(disk.seen) && disk.owes == old(disk.owes)
      ensures f.Healthy? ==> HasDelivery(disk)
    {
      hide Inv, Legal, StopAllowed, AfterJudgement, Grown;
      DeliveryIsOurs(disk);
      var existing := FindDelivery(disk.loop.routing.value);
      if existing.Some? {
        return Permanent;
      }
      f := Create(CreateDelivery);
    }

    /** Find the round's delivery by id, then by routing, or create it. */
    method ObtainDelivery() returns (f: Fault)
      requires Valid() && Reviewing(disk, AtDelivery) && disk.loop.delivery.Some?
      modifies this`disk, this`log
      ensures Valid() && old(log) <= log
      ensures disk.seen == old(disk.seen) && disk.owes == old(disk.owes)
      ensures f.Healthy? ==> HasDelivery(disk)
      ensures disk.loop == old(disk.loop).(delivery := disk.loop.delivery) && disk.loop.delivery.Some?
    {
      hide Inv, Legal, StopAllowed, AfterJudgement, Grown, Enabled, Effect;
      :- Await();
      f := Healthy;
      if disk.loop.delivery.value !in disk.deliveries {
        DeliveryIsOurs(disk);
        :- Await();
        var byRouting := FindDelivery(disk.loop.routing.value);
        if byRouting.None? {
          f := CreateDeliveryRecord();
          if f.Healthy? || f.Crashed? {
            return;
          }
          var failure := f;
          :- Await();
          byRouting := FindDelivery(disk.loop.routing.value);
          if byRouting.None? {
            return failure;
          }
        }
        f := Healthy;
        if disk.loop.delivery.value !in disk.deliveries {
          f := Adopt(byRouting.value);
        }
      }
    }

    /** The loop takes over the delivery another actor created for its routing. */
    method Adopt(d: Id) returns (f: Fault)
      requires Valid() && Reviewing(disk, AtDelivery) && disk.loop.delivery.Some? && disk.loop.delivery.value !in disk.deliveries
      requires d in disk.deliveries && disk.loop.routing == Some(disk.deliveries[d].routing)
      modifies this`disk, this`log
      ensures Valid() && old(log) <= log && disk.seen == old(disk.seen) && disk.owes == old(disk.owes)
      ensures f.Healthy? ==> HasDelivery(disk)
      ensures disk.loop == old(disk.loop).(delivery := disk.loop.delivery) && disk.loop.delivery.Some?
    {
      hide Inv, Legal, StopAllowed, AfterJudgement, Grown;
      f := Put(AdoptDelivery(d));
    }

    /** `BrowserRouter.deliver`: one attempt begun at most, and its outcome recorded. */
    method Deliver() returns (f: Fault)
      requires Valid() && Reviewing(disk, AtDelivery) && HasDelivery(disk)
      requires CanBegin(CurrentDelivery(disk)) || CurrentDelivery(disk).status.Delivering?
      modifies this
      ensures Valid() && old(log) <= log
      ensures disk.loop == old(disk.loop) && disk.seen == old(disk.seen) && HasDelivery(disk)
      ensures CurrentDelivery(disk).attempts <= old(CurrentDelivery(disk).attempts) + 1
      ensures f.Healthy? ==>
                CurrentDelivery(disk).attempts
                  == old(CurrentDelivery(disk).attempts) + if old(CurrentDelivery(disk).status.Delivering?) then 0 else 1
      ensures f.Healthy? ==>
                && !CurrentDelivery(disk).status.Pending? && !CurrentDelivery(disk).status.Delivering?
                && disk.owes == (CurrentDelivery(disk).status.FailedDelivery? && CurrentDelivery(disk).status.retryable)
      ensures Paid(old(asked), old(log), f)
    {
      hide Inv, Legal, StopAllowed, AfterJudgement, Grown, Ends;
      EndsMonotone();
      if !CurrentDelivery(disk).status.Delivering? {
        :- BeginDeliveryAttempt();
      }
      hide Enabled, Effect;
      asked := asked + 1;
      :- Await();
      f := SettleAttempt();
    }

    /** `beginDeliveryAttempt`: the attempt is counted before the adapter is called. */
    method BeginDeliveryAttempt() returns (f: Fault)
      requires Valid() && Reviewing(disk, AtDelivery) && HasDelivery(disk) && CanBegin(CurrentDelivery(disk))
      modifies this`disk, this`log
      ensures Valid() && old(log) <= log
      ensures disk.loop == old(disk.loop) && disk.seen == old(disk.seen) && HasDelivery(disk)
      ensures CurrentDelivery(disk).attempts <= old(CurrentDelivery(disk).attempts) + 1
      ensures f.Healthy? ==> CurrentDelivery(disk).status.Delivering? && Reviewing(disk, AtDelivery)
                             && CurrentDelivery(disk).attempts == old(CurrentDelivery(disk).attempts) + 1
    {
      hide Inv, Legal, StopAllowed, AfterJudgement, Grown;
      DeliveryIsOurs(disk);
      f := Put(BeginAttempt);
    }

    /** The adapter's answer, whatever it is, ends the attempt. */
    method SettleAttempt() returns (f: Fault)
      requires Valid() && Reviewing(disk, AtDelivery) && HasDelivery(disk) && CurrentDelivery(disk).status.Delivering?
      modifies this`disk, this`log
      ensures Valid() && old(log) <= log
      ensures disk.loop == old(disk.loop) && disk.seen == old(disk.seen) && HasDelivery(disk)
      ensures CurrentDelivery(disk).attempts == old(CurrentDelivery(disk).attempts)
      ensures f.Healthy? ==>
                && !CurrentDelivery(disk).status.Pending? && !CurrentDelivery(disk).status.Delivering?
                && disk.owes == (CurrentDelivery(disk).status.FailedDelivery? && CurrentDelivery(disk).status.retryable)
      ensures f.Healthy? ==> Ends(log) > Ends(old(log))
    {
      hide Inv, Legal, StopAllowed, AfterJudgement, Grown, Ends;
      var outcome: DeliveryStatus := *;
      if !outcome.Delivered? && !outcome.FailedDelivery? && !outcome.Ambiguous? {
        // the adapter threw
        outcome := FailedDelivery(Some("BROWSER_WORKER_ADAPTER_FAILED"), false);
      }
      f := Put(Settle(outcome));
    }

    static lemma Arming(w: Disk)
      requires Enabled(w, ArmRetry)
      ensures Effect(w, ArmRetry) == w.(loop := w.loop.(retryArmed := true), owes := false)
    {
      hide StopAllowed, AfterJudgement, RequestId, RoutingId, DeliveryId;
    }

    /** A new `retry_at`: the handler is to run again later. */
    method Rearmed() returns (f: Fault)
      requires Valid() && disk.owes && !disk.loop.retryArmed && (disk.loop.stage.AtDelivery? || disk.loop.stage.AtCompletion?)
      requires disk.loop.stage.AtCompletion? ==> disk.loop.timeouts < REVIEW_MAX_TIMEOUTS
      requires disk.loop.stage.AtDelivery? ==> HasDelivery(disk) && CurrentDelivery(disk).attempts < REVIEW_DELIVERY_MAX_ATTEMPTS
      modifies this`disk, this`log
      ensures Valid() && old(log) <= log
      ensures f.Permanent? ==> disk == old(disk)
      ensures f.Healthy? ==> disk.loop == old(disk.loop).(retryArmed := true) && !disk.owes
    {
      hide Inv, Legal, StopAllowed, Effect;
      assert Enabled(disk, ArmRetry);
      hide Enabled;
      Arming(disk);
      f := Put(ArmRetry);
    }

    /** `retryDelivery`. */
    method RetryDelivery() returns (f: Fault)
      requires Valid() && disk.loop.stage.AtDelivery? && HasDelivery(disk) && !disk.loop.retryArmed
      requires CurrentDelivery(disk).status.FailedDelivery? && CurrentDelivery(disk).status.retryable
      requires disk.owes || CurrentDelivery(disk).attempts >= REVIEW_DELIVERY_MAX_ATTEMPTS
      modifies this`disk, this`log
      ensures Valid() && old(log) <= log
      ensures f.Permanent? ==> disk == old(disk)
      ensures f.Healthy? ==>
                disk.loop == if old(CurrentDelivery(disk).attempts) >= REVIEW_DELIVERY_MAX_ATTEMPTS
                             then Stop(old(disk.loop), TransportError(old(CurrentDelivery(disk).status.code).GetOr("REVIEW_TRANSPORT_FAILED")))
                             else old(disk.loop).(retryArmed := true)
      ensures f.Healthy? ==> !disk.owes
    {
      hide Inv, Legal, Enabled, Effect;
      if CurrentDelivery(disk).attempts >= REVIEW_DELIVERY_MAX_ATTEMPTS {
        f := HumanRequired(TransportError(CurrentDelivery(disk).status.code.GetOr("REVIEW_TRANSPORT_FAILED")));
      } else {
        f := Rearmed();
      }
    }

    /** Why an undelivered, unretryable delivery is handed over. */
    function HandOver(status: DeliveryStatus): Reason {
      match status
      case Delivering => DELIVERY_UNCERTAIN
      case FailedDelivery(code, _) => TransportError(code.GetOr("REVIEW_TRANSPORT_FAILED"))
      case Ambiguous(code) => TransportError(code.GetOr("REVIEW_TRANSPORT_FAILED"))
      case _ => TransportError("REVIEW_TRANSPORT_FAILED")
    }

    static lemma SettledIsHandedOver(s: DeliveryStatus, durableResume: bool)
      requires s.Ambiguous? || (s.FailedDelivery? && !s.retryable)
      ensures MustHandOver(s, durableResume)
    {
    }

    /** What follows a `deliver` call, by its outcome. */
    method AfterDeliver() returns (f: Fault)
      requires Valid() && disk.loop.stage.AtDelivery? && HasDelivery(disk) && !disk.loop.retryArmed && disk.seen == Saw(Passed)
      requires !CurrentDelivery(disk).status.Pending? && !CurrentDelivery(disk).status.Delivering?
      requires disk.owes == (CurrentDelivery(disk).status.FailedDelivery? && CurrentDelivery(disk).status.retryable)
      modifies this`disk, this`log
      ensures Valid() && old(log) <= log
      ensures f.Permanent? ==> disk == old(disk)
      ensures f.Healthy? ==> disk.loop.stage.AtCompletion? == old(CurrentDelivery(disk).status.Delivered?)
      ensures f.Healthy? ==> !disk.owes && (disk.loop.stage.AtDelivery? ==> disk.loop.retryArmed)
    {
      hide Inv, Legal, Enabled, Effect, MustHandOver;
      DeliveryIsOurs(disk);
      if CurrentDelivery(disk).status.Delivered? {
        f := ConfirmDelivery();
      } else if disk.owes {
        f := RetryDelivery();
      } else {
        assert MustHandOver(CurrentDelivery(disk).status, disk.durableResume) by { SettledIsHandedOver(CurrentDelivery(disk).status, disk.durableResume); }
        f := HandOverDelivery();
      }
    }

    method DeliverySteps() returns (f: Fault)
      requires Valid() && Reviewing(disk, AtDelivery)
      modifies this
      ensures Valid() && old(log) <= log
      ensures f.Permanent? ==> disk.loop.stage.AtDelivery?
      ensures f.Healthy? ==> !disk.owes && (disk.loop.stage.AtDelivery? ==> disk.loop.retryArmed)
      ensures Paid(old(asked), old(log), f)
    {
      hide Inv, Legal, AfterJudgement, DeliveriesAfter, Grown, Ends;
      EndsMonotone();
      DeliveryIsOurs(disk);
      assert disk.loop.routing.Some? && disk.loop.request.Some?;
      if disk.loop.delivery.None? {
        :- Put(NameDelivery);
      }
      :- ObtainDelivery();
      DeliveryIsOurs(disk);
      assert DeliveryMatches(disk.loop, CurrentDelivery(disk));
      f := DispatchDelivery();
    }

    method DispatchDelivery() returns (f: Fault)
      requires Valid() && Reviewing(disk, AtDelivery) && HasDelivery(disk) && DeliveryMatches(disk.loop, CurrentDelivery(disk))
      modifies this
      ensures Valid() && old(log) <= log
      ensures f.Permanent? ==> disk.loop.stage.AtDelivery?
      ensures f.Healthy? ==> !disk.owes && (disk.loop.stage.AtDelivery? ==> disk.loop.retryArmed)
      ensures f.Healthy? && old(CurrentDelivery(disk).status.Delivered?) ==> disk.loop.stage.AtCompletion?
      ensures f.Healthy? && old(MustHandOver(CurrentDelivery(disk).status, disk.durableResume)) ==>
                disk.loop == Stop(old(disk.loop), HandOver(old(CurrentDelivery(disk).status)))
      ensures Paid(old(asked), old(log), f)
    {
      hide Inv, Legal, AfterJudgement, DeliveriesAfter, Grown, Enabled, Effect, Ends;
      EndsMonotone();
      :- Await();
      var d := CurrentDelivery(disk);
      if d.status.Delivered? {
        f := ConfirmDelivery();
      } else if MustHandOver(d.status, disk.durableResume) {
        f := HandOverDelivery();
      } else if d.status.FailedDelivery? && d.attempts >= REVIEW_DELIVERY_MAX_ATTEMPTS {
        f := RetryDelivery();
      } else {
        f := AttemptDelivery();
      }
    }

    /** What no attempt of the loop may follow by itself. */
    static predicate MustHandOver(s: DeliveryStatus, durableResume: bool) {
      s.Ambiguous? || (s.Delivering? && !durableResume) || (s.FailedDelivery? && !s.retryable)
    }

    method ConfirmDelivery() returns (f: Fault)
      requires Valid() && Reviewing(disk, AtDelivery) && HasDelivery(disk) && DeliveryMatches(disk.loop, CurrentDelivery(disk))
      requires CurrentDelivery(disk).status.Delivered?
      modifies this`disk, this`log
      ensures Valid() && old(log) <= log
      ensures f.Permanent? ==> disk == old(disk)
      ensures f.Healthy? ==> disk.loop.stage.AtCompletion? && !disk.owes
    {
      hide Inv, Legal, AfterJudgement, DeliveriesAfter, Grown, StopAllowed;
      f := Put(EnterCompletion);
    }

    /** An outcome the loop must not retry by itself. */
    method HandOverDelivery() returns (f: Fault)
      requires Valid() && Reviewing(disk, AtDelivery) && HasDelivery(disk)
      requires MustHandOver(CurrentDelivery(disk).status, disk.durableResume)
      modifies this`disk, this`log
      ensures Valid() && old(log) <= log
      ensures f.Permanent? ==> disk == old(disk)
      ensures f.Healthy? ==> disk.loop == Stop(old(disk.loop), HandOver(old(CurrentDelivery(disk).status))) && !disk.owes
    {
      hide Inv, Legal, Enabled, Effect, Grown;
      f := HumanRequired(HandOver(CurrentDelivery(disk).status));
    }

    /** The completed review a recovery asks about is read again; it is always there and consistent. */
    method ReadRecoverySource() returns (f: Fault)
      requires Valid() && disk.loop.recovery.Some?
      modifies this`disk, this`log
      ensures Valid() && old(log) <= log && Undisturbed(old(disk))
    {
      hide Inv, Legal, Enabled, Effect, Grown, RequestMatches;
      ghost var was := disk;
      :- Await();
      RecoverySourceIsOurs(disk);
      var original := disk.results[disk.loop.recovery.value];
      ghost var between := disk;
      f := Await();
      GrownTransitive(was, between, disk);
      if f.Healthy? {
        if !original.status.COMPLETED? || original.owner != disk.loop.binding.owner || original.request !in disk.requests {
          // the source's "Verdict recovery source is unavailable or inconsistent"
          assert false;
        } else if !RequestMatches(disk.loop, disk.requests[original.request]) {
          assert false;
        }
      }
    }

    method AttemptDelivery() returns (f: Fault)
      requires Valid() && Reviewing(disk, AtDelivery) && HasDelivery(disk)
      requires CanBegin(CurrentDelivery(disk)) || CurrentDelivery(disk).status.Delivering?
      modifies this
      ensures Valid() && old(log) <= log
      ensures f.Permanent? ==> disk.loop.stage.AtDelivery?
      ensures f.Healthy? ==> !disk.owes && (disk.loop.stage.AtDelivery? ==> disk.loop.retryArmed)
      ensures Paid(old(asked), old(log), f)
    {
      hide Inv, Legal, Enabled, Effect, Ends;
      EndsMonotone();
      f := Healthy;
      if disk.loop.recovery.Some? {
        f := ReadRecoverySource();
      }
      if f.Healthy? {
        f := Deliver();
      }
      if f.Permanent? {
        f := HumanRequired(REVIEW_TRANSPORT_EXCEPTION);
      } else if f.Healthy? {
        f := AfterDeliver();
      }
    }

    method AdvanceDelivery() returns (f: Fault)
      requires Valid() && Reviewing(disk, AtDelivery)
      modifies this
      ensures Valid() && old(log) <= log
      ensures !disk.owes
      ensures f.Healthy? ==> (disk.loop.stage.AtDelivery? ==> disk.loop.retryArmed)
      ensures Paid(old(asked), old(log), Healthy)
    {
      hide Inv, Legal, Grown, Ends;
      EndsMonotone();
      f := DeliverySteps();
      f := Catch(f, DELIVERY_UNAVAILABLE);
    }

    /** `ReviewCompletionRouter.collect`: one more reading of the review, recorded under the request's one result. */
    method Collect() returns (f: Fault, id: Id, status: ResultStatus)
      requires Valid() && Reviewing(disk, AtCompletion)
      modifies this
      ensures Valid() && old(log) <= log
      ensures disk.loop == old(disk.loop) && disk.seen == old(disk.seen) && disk.owes == old(disk.owes)
      ensures f.Healthy? ==> id in disk.results && disk.loop.request == Some(disk.results[id].request)
      ensures f.Healthy? && status.COMPLETED? ==> disk.results[id].status.COMPLETED?
      ensures asked <= old(asked) + 1
    {
      hide Inv, Legal, StopAllowed, AfterJudgement, Grown;
      id, status := disk.loop.execution, *;
      :- Await();
      f := Healthy;
      DeliveryIsConfirmed(disk);
      var existing := FindResult(disk.loop.request.value);
      if existing.Some? && disk.results[existing.value].status.COMPLETED? {
        return Healthy, existing.value, COMPLETED;
      }
      asked := asked + 1;
      id := *;
      if existing.Some? {
        id := existing.value;
      } else if id in disk.results {
        return Permanent, id, status;
      }
      forall k | k in disk.results && disk.results[k].request == disk.loop.request.value
        ensures k == id && !disk.results[k].status.COMPLETED?
      {
        OneResultPerRequest(disk, k, existing.value);
      }
      hide Enabled, Effect;
      f := StoreResult(id, status);
    }

    static lemma Recording(w: Disk, id: Id, r: ResultRecord)
      requires r.delivery in w.deliveries && w.deliveries[r.delivery].status.Delivered?
      requires r.request == w.deliveries[r.delivery].request && r.owner == w.deliveries[r.delivery].owner
      requires forall k | k in w.results && w.results[k].request == r.request :: k == id && !w.results[k].status.COMPLETED?
      requires id in w.results ==> w.results[id].request == r.request
      ensures Enabled(w, RecordResult(id, r)) && Effect(w, RecordResult(id, r)) == w.(results := w.results[id := r])
    {
      hide StopAllowed, AfterJudgement, RequestId, RoutingId, DeliveryId;
    }

    /** Creates the request's result, or overwrites the one it has. */
    method StoreResult(id: Id, status: ResultStatus) returns (f: Fault)
      requires Valid() && Reviewing(disk, AtCompletion)
      requires HasDelivery(disk) && CurrentDelivery(disk).status.Delivered? && DeliveryMatches(disk.loop, CurrentDelivery(disk))
      requires id in disk.results ==> disk.results[id].request == disk.loop.request.value
      requires forall k | k in disk.results && disk.results[k].request == disk.loop.request.value ::
                 k == id && !disk.results[k].status.COMPLETED?
      modifies this`disk, this`log
      ensures Valid() && old(log) <= log
      ensures disk.loop == old(disk.loop) && disk.seen == old(disk.seen) && disk.owes == old(disk.owes)
      ensures f.Healthy? ==> id in disk.results && disk.loop.request == Some(disk.results[id].request) && disk.results[id].status == status
    {
      var d := CurrentDelivery(disk);
      var record := ResultRecord(d.owner, d.request, disk.loop.delivery.value, status);
      hide Inv, Legal, Effect, Enabled, Grown;
      Recording(disk, id, record);
      f := Put(RecordResult(id, record));
    }

    /** `retryReview`. */
    method RetryReview() returns (f: Fault)
      requires Valid() && disk.loop.stage.AtCompletion? && disk.owes && !disk.loop.retryArmed
      modifies this`disk, this`log
      ensures Valid() && old(log) <= log
      ensures f.Permanent? ==> disk == old(disk)
      ensures f.Healthy? ==>
                disk.loop == if old(disk.loop).timeouts >= REVIEW_MAX_TIMEOUTS
                             then Stop(old(disk.loop), REVIEW_COMPLETION_TIMEOUT_RETRY_EXHAUSTED)
                             else old(disk.loop).(retryArmed := true)
      ensures f.Healthy? ==> !disk.owes
    {
      hide Inv, Legal, Enabled, Effect;
      if disk.loop.timeouts >= REVIEW_MAX_TIMEOUTS {
        f := HumanRequired(REVIEW_COMPLETION_TIMEOUT_RETRY_EXHAUSTED);
      } else {
        f := Rearmed();
      }
    }

    /** The stored result, or a fresh collection when there is none yet or it timed out. */
    method ObtainResult() returns (f: Fault, id: Id, status: ResultStatus)
      requires Valid() && Reviewing(disk, AtCompletion)
      modifies this
      ensures Valid() && old(log) <= log
      ensures disk.loop == old(disk.loop) && disk.seen == old(disk.seen) && disk.owes == old(disk.owes)
      ensures f.Healthy? ==> id in disk.results && disk.loop.request == Some(disk.results[id].request)
      ensures f.Healthy? && status.COMPLETED? ==> disk.results[id].status.COMPLETED?
      ensures asked <= old(asked) + 1
    {
      hide Inv, Legal, StopAllowed, AfterJudgement, Grown, Enabled, Effect;
      id, status := disk.loop.execution, *;
      :- Await();
      DeliveryIsConfirmed(disk);
      var stored := disk.loop.result;
      if stored.None? {
        stored := FindResult(disk.loop.request.value);
      }
      if stored.None? || disk.results[stored.value].status.TIMEOUT? {
        f, id, status := Collect();
      } else {
        f, id, status := Healthy, stored.value, disk.results[stored.value].status;
      }
    }

    /** The timeout is counted first; the decision follows. */
    method TimeOut() returns (f: Fault)
      requires Valid() && Reviewing(disk, AtCompletion)
      modifies this`disk, this`log
      ensures Valid() && old(log) <= log
      ensures f.Permanent? ==> disk.loop.stage.AtCompletion?
      ensures f.Healthy? ==> !disk.owes && !disk.loop.stage.AtVerdict? && (disk.loop.stage.AtCompletion? ==> disk.loop.retryArmed)
      ensures f.Healthy? ==> Ends(log) > Ends(old(log))
    {
      hide Inv, Legal, AfterJudgement, DeliveriesAfter, Grown, StopAllowed, Ends;
      EndsMonotone();
      :- Put(CountTimeout);
      hide Enabled, Effect;
      f := RetryReview();
    }

    /** What follows a result, by its status. */
    method AfterResult(id: Id, status: ResultStatus) returns (f: Fault)
      requires Valid() && Reviewing(disk, AtCompletion)
      requires id in disk.results && disk.loop.request == Some(disk.results[id].request)
      requires status.COMPLETED? ==> disk.results[id].status.COMPLETED?
      modifies this`disk, this`log
      ensures Valid() && old(log) <= log
      ensures f.Permanent? ==> disk.loop.stage.AtCompletion?
      ensures f.Healthy? ==> (disk.loop.stage.AtVerdict? <==> status.COMPLETED?)
      ensures f.Healthy? ==> !disk.owes && (disk.loop.stage.AtCompletion? ==> disk.loop.retryArmed && status.TIMEOUT?)
      ensures f.Healthy? && status.RESULT_FAILED? ==> disk.loop == Stop(old(disk.loop), REVIEW_COMPLETION_FAILED)
      ensures f.Healthy? ==> Ends(log) > Ends(old(log))
    {
      hide Inv, Legal, AfterJudgement, Grown, Ends, Enabled, Effect;
      EndsMonotone();
      ResultIsOurs(disk, id);
      if status.TIMEOUT? {
        f := TimeOut();
      } else if status.RESULT_FAILED? {
        f := HumanRequired(REVIEW_COMPLETION_FAILED);
      } else {
        f := AcceptResult(id);
      }
    }

    method AcceptResult(id: Id) returns (f: Fault)
      requires Valid() && Reviewing(disk, AtCompletion)
      requires id in disk.results && disk.results[id].status.COMPLETED? && ResultMatches(disk.loop, disk.results[id])
      modifies this`disk, this`log
      ensures Valid() && old(log) <= log
      ensures f.Permanent? ==> disk.loop.stage.AtCompletion?
      ensures f.Healthy? ==> disk.loop.stage.AtVerdict? && !disk.owes
      ensures f.Healthy? ==> Ends(log) > Ends(old(log))
    {
      hide Ends, Inv, Legal, AfterJudgement, DeliveriesAfter, StopAllowed, Enabled, Effect;
      EndsMonotone();
      if disk.loop.result.None? {
        :- RememberResult(id);
      }
      f := BeginVerdict(id);
    }

    method RememberResult(id: Id) returns (f: Fault)
      requires Valid() && Reviewing(disk, AtCompletion) && disk.loop.result.None?
      requires id in disk.results && disk.results[id].status.COMPLETED? && ResultMatches(disk.loop, disk.results[id])
      modifies this`disk, this`log
      ensures Valid() && old(log) <= log
      ensures f.Permanent? ==> disk == old(disk)
      ensures f.Healthy? ==> disk.loop == old(disk.loop).(result := Some(id)) && Reviewing(disk, AtCompletion)
      ensures disk.results == old(disk.results)
    {
      hide Inv, Legal, AfterJudgement, DeliveriesAfter, StopAllowed;
      f := Put(NameResult(id));
    }

    method BeginVerdict(id: Id) returns (f: Fault)
      requires Valid() && Reviewing(disk, AtCompletion) && disk.loop.result.Some?
      requires id in disk.results && disk.results[id].status.COMPLETED? && ResultMatches(disk.loop, disk.results[id])
      modifies this`disk, this`log
      ensures Valid() && old(log) <= log
      ensures f.Permanent? ==> disk == old(disk)
      ensures f.Healthy? ==> disk.loop.stage.AtVerdict? && !disk.owes
      ensures f.Healthy? ==> Ends(log) > Ends(old(log))
    {
      hide Inv, Legal, AfterJudgement, DeliveriesAfter, StopAllowed;
      DeliveryIsConfirmed(disk);
      f := Put(EnterVerdict);
    }

    method CompletionSteps() returns (f: Fault)
      requires Valid() && Reviewing(disk, AtCompletion)
      modifies this
      ensures Valid() && old(log) <= log
      ensures f.Permanent? ==> disk.loop.stage.AtCompletion?
      ensures f.Healthy? ==> !disk.owes && (disk.loop.stage.AtCompletion? ==> disk.loop.retryArmed)
      ensures Paid(old(asked), old(log), f)
    {
      hide Inv, Legal, AfterJudgement, DeliveriesAfter, Grown, Ends;
      EndsMonotone();
      DeliveryIsConfirmed(disk);
      assert HasDelivery(disk) && CurrentDelivery(disk).status.Delivered? && DeliveryMatches(disk.loop, CurrentDelivery(disk));
      var id, status;
      f, id, status := ObtainResult();
      hide Enabled, Effect;
      if f.Permanent? {
        f := HumanRequired(REVIEW_COMPLETION_FAILED);
      } else if f.Healthy? {
        f := AfterResult(id, status);
      }
    }

    method AdvanceReviewCompletion() returns (f: Fault)
      requires Valid() && Reviewing(disk, AtCompletion)
      modifies this
      ensures Valid() && old(log) <= log
      ensures !disk.owes
      ensures f.Healthy? ==> (disk.loop.stage.AtCompletion? ==> disk.loop.retryArmed)
      ensures Paid(old(asked), old(log), Healthy)
    {
      hide Inv, Legal, Grown, Ends;
      EndsMonotone();
      f := CompletionSteps();
      f := Catch(f, REVIEW_COMPLETION_UNAVAILABLE);
    }

    /** The verdict source of the request's protocol; what it answers is unknown here. */
    method ReadVerdict() returns (j: Judgement)
      requires disk.loop.request.Some? && disk.loop.request.value in disk.requests
      ensures j.Unparsable? ==> !disk.requests[disk.loop.request.value].toolProtocol
      ensures j.Unconfirmed? ==> disk.requests[disk.loop.request.value].toolProtocol
    {
      j := *;
      if disk.requests[disk.loop.request.value].toolProtocol && j.Unparsable? {
        j := Unconfirmed;
      } else if !disk.requests[disk.loop.request.value].toolProtocol && j.Unconfirmed? {
        j := Malformed;
      }
    }

    method VerdictSteps() returns (f: Fault, j: Judgement)
      requires Valid() && Reviewing(disk, AtVerdict)
      modifies this`disk, this`log
      ensures Valid() && old(log) <= log
      ensures f.Permanent? ==> disk.loop.stage.AtVerdict?
      ensures f.Healthy? ==>
                old(disk.loop).result.Some? && disk.loop == AfterJudgement(old(disk.loop), old(disk.loop).result.value, j)
    {
      hide Inv, Legal, AfterJudgement, DeliveriesAfter, Grown;
      j := Malformed;
      :- Await();
      DeliveryIsConfirmed(disk);
      assert HasResult(disk) && ResultMatches(disk.loop, disk.results[disk.loop.result.value]);
      assert RequestMatches(disk.loop, disk.requests[disk.loop.request.value]);
      j := ReadVerdict();
      :- Await();
      DeliveryIsConfirmed(disk);
      f := Put(Judge(j));
    }

    /** The loop after a verdict is exactly the one `AfterJudgement` prescribes. */
    method AdvanceVerdict() returns (f: Fault, j: Judgement)
      requires Valid() && Reviewing(disk, AtVerdict)
      modifies this`disk, this`log
      ensures Valid() && old(log) <= log
      ensures f.Healthy? && disk.loop.reason != Some(VERDICT_UNAVAILABLE) ==>
                old(disk.loop).result.Some? && disk.loop == AfterJudgement(old(disk.loop), old(disk.loop).result.value, j)
      ensures f.Healthy? ==> !disk.loop.stage.AtVerdict?
      ensures !disk.owes
    {
      hide Inv, Legal, Grown;
      f, j := VerdictSteps();
      f := Catch(f, VERDICT_UNAVAILABLE);
      if f.Healthy? { NothingOwed(disk); }
    }

    /** Find the actuation's authorization, or request one: only when there is none. */
    method ObtainAuthorization(configuration: Configuration) returns (f: Fault)
      requires Valid() && Active(disk) && disk.loop.stage.AtActuation?
      modifies this`disk, this`log
      ensures Valid() && old(log) <= log
      ensures disk.loop == old(disk.loop) && disk.owes == old(disk.owes)
      ensures f.Healthy? ==> ActuationAuthorized(disk)
    {
      hide Inv, Legal, StopAllowed, AfterJudgement, DeliveriesAfter, Grown;
      ActuationIsReady(disk);
      :- Await();
      f := Healthy;
      if disk.loop.actuation.value !in disk.authorizations {
        var id: Id := *;
        if exists k | k in disk.authorizations :: disk.authorizations[k].id == id {
          return Permanent;
        }
        f := Create(Authorize(id, configuration));
        if f.Transient? || f.Permanent? {
          var failure := f;
          :- Await();
          f := if disk.loop.actuation.value in disk.authorizations then Healthy else failure;
        }
      }
    }

    /** Persist the authorization and start the backend; what the backend answers is unknown here. */
    method Actuate() returns (f: Fault)
      requires Valid() && Active(disk) && disk.loop.stage.AtActuation? && ActuationAuthorized(disk)
      modifies this`disk, this`log
      ensures Valid() && old(log) <= log
      ensures f.Permanent? || f.Transient? ==> disk.loop.stage.AtActuation?
      ensures f.Healthy? ==> disk.loop.stage.AtExecution? || disk.loop.stage.Terminal()
    {
      hide Inv, Legal, AfterJudgement, DeliveriesAfter, Grown;
      ActuationIsReady(disk);
      if disk.loop.authorization.None? {
        :- Put(NameAuthorization(disk.authorizations[disk.loop.actuation.value].id));
      }
      :- Await();
      f := Launch();
    }

    method Launch() returns (f: Fault)
      requires Valid() && Active(disk) && disk.loop.stage.AtActuation? && ActuationBound(disk)
      modifies this`disk, this`log
      ensures Valid() && old(log) <= log
      ensures f.Permanent? || f.Transient? ==> disk.loop.stage.AtActuation?
      ensures f.Healthy? ==> disk.loop.stage.AtExecution? || disk.loop.stage.Terminal()
    {
      hide Inv, Legal, AfterJudgement, DeliveriesAfter, Enabled, Effect, Grown;
      var outcome: Actuated := *;
      match outcome {
        case Started => f := FinishActuation(EnterExecution);
        case WrongIdentity => f := StopActuation(ACTUATION_IDENTITY_INVALID);
        case NotContinuable => f := StopActuation(INITIAL_EXECUTION_NOT_CONTINUABLE);
        case Uncertain => f := StopActuation(ACTUATION_UNCERTAIN);
        case FailedExecution => f := FinishActuation(Fail(ACTUATION_FAILED));
      }
    }

    method FinishActuation(a: Action) returns (f: Fault)
      requires Valid() && Active(disk) && disk.loop.stage.AtActuation? && ActuationBound(disk)
      requires a.EnterExecution? || a == Fail(ACTUATION_FAILED)
      modifies this`disk, this`log
      ensures Valid() && old(log) <= log
      ensures f.Permanent? || f.Transient? ==> disk == old(disk)
      ensures f.Healthy? ==> if a.EnterExecution? then disk.loop.stage.AtExecution? else disk.loop.stage.Failed?
    {
      hide Inv, Legal, AfterJudgement, DeliveriesAfter, StopAllowed;
      f := Put(a);
    }

    method StopActuation(reason: Reason) returns (f: Fault)
      requires Valid() && disk.loop.stage.AtActuation? && StopAllowed(disk, reason)
      modifies this`disk, this`log
      ensures Valid() && old(log) <= log
      ensures f.Permanent? || f.Transient? ==> disk == old(disk)
      ensures f.Healthy? ==> disk.loop == Stop(old(disk.loop), reason)
    {
      hide Inv, Legal, AfterJudgement, DeliveriesAfter, StopAllowed, Enabled, Effect;
      f := HumanRequired(reason);
    }

    /** Nothing is started unless the stored authorization agrees with the loop and the first execution's backend. */
    method ActuationSteps() returns (f: Fault)
      requires Valid() && Active(disk) && disk.loop.stage.AtActuation?
      modifies this`disk, this`log
      ensures Valid() && old(log) <= log
      ensures f.Permanent? || f.Transient? ==> disk.loop.stage.AtActuation?
      ensures f.Healthy? ==> disk.loop.stage.AtExecution? || disk.loop.stage.Terminal()
    {
      hide Inv, Legal, Enabled, Effect, Grown;
      ActuationIsReady(disk);
      assert disk.loop.actuation.Some? && disk.loop.pending.Some?;
      var baseline: Option<string> := *;
      var identityValid: bool := *;
      var continuation: Continuation := *;
      f := Await();
      if f.Crashed? {
        return;
      } else if !f.Healthy? {
        f := StopActuation(INITIAL_AUTHORIZATION_UNAVAILABLE);
      } else if !baseline.Some? {
        f := StopActuation(INITIAL_AUTHORIZATION_MISSING);
      } else if !identityValid {
        f := StopActuation(INITIAL_AUTHORIZATION_IDENTITY_INVALID);
      } else {
        var configuration := Configuration(baseline.value,
          if continuation.Verified? then Some(continuation.thread) else None);
        :- ObtainAuthorization(configuration);
        f := Decide(configuration, continuation);
      }
    }

    method Decide(configuration: Configuration, continuation: Continuation) returns (f: Fault)
      requires Valid() && Active(disk) && disk.loop.stage.AtActuation? && ActuationAuthorized(disk)
      modifies this`disk, this`log
      ensures Valid() && old(log) <= log
      ensures f.Permanent? || f.Transient? ==> disk.loop.stage.AtActuation?
      ensures f.Healthy? ==> disk.loop.stage.AtExecution? || disk.loop.stage.Terminal()
      ensures f.Healthy? && disk.loop.stage.AtExecution? ==>
                !continuation.Unverified?
                && AuthorizationMatches(old(disk.loop), old(disk.authorizations[disk.loop.actuation.value]), configuration)
    {
      hide Inv, Legal, Enabled, Effect, Grown;
      var authorization := disk.authorizations[disk.loop.actuation.value];
      if continuation.Unverified? {
        f := StopActuation(
          if authorization.configuration != configuration then AUTHORIZATION_IDENTITY_INVALID
          else INITIAL_EXECUTION_NOT_CONTINUABLE);
      } else if !AuthorizationMatches(disk.loop, authorization, configuration) {
        f := StopActuation(AUTHORIZATION_IDENTITY_INVALID);
      } else {
        f := Actuate();
      }
    }

    /** Unlike the review handlers, this one hands a transient error over instead of rethrowing it. */
    method AdvanceActuation() returns (f: Fault)
      requires Valid() && Active(disk) && disk.loop.stage.AtActuation?
      modifies this`disk, this`log
      ensures Valid() && old(log) <= log
      ensures !disk.owes
      ensures f.Healthy? ==> (disk.loop.stage.AtExecution? || disk.loop.stage.Terminal())
    {
      hide Inv, Legal, Grown;
      f := ActuationSteps();
      if f.Transient? {
        f := Permanent;
      }
      f := Catch(f, ACTUATION_UNAVAILABLE);
      if f.Healthy? { NothingOwed(disk); }
    }

    method FailExecution() returns (f: Fault)
      requires Valid() && Active(disk) && (disk.loop.stage.Review() || disk.loop.stage.AtExecution?) && disk.seen == Saw(ExecutionFailed)
      modifies this`disk, this`log
      ensures Valid() && old(log) <= log && !disk.owes
      ensures f.Healthy? ==> disk.loop.stage.Failed? && disk.loop.reason == Some(EXECUTION_FAILED)
    {
      hide Inv, Legal, AfterJudgement, DeliveriesAfter, StopAllowed, RequestId, RoutingId, DeliveryId;
      f := Put(Fail(EXECUTION_FAILED));
    }

    /** An execution that is missing, failed or terminated ends the loop; a running one leaves it alone. */
    method StopWithExecution() returns (f: Fault)
      requires Valid() && Active(disk) && (disk.loop.stage.Review() || disk.loop.stage.AtExecution?)
      requires !disk.seen.Unseen? && disk.seen != Saw(Passed)
      modifies this`disk, this`log
      ensures Valid() && old(log) <= log
      ensures f.Healthy? ==>
                match old(disk.seen)
                case Missing => disk.loop == Stop(old(disk.loop), EXECUTION_MISSING)
                case Saw(ExecutionFailed) => disk.loop.stage.Failed? && disk.loop.reason == Some(EXECUTION_FAILED)
                case Saw(Terminated) => disk.loop == Stop(old(disk.loop), EXECUTION_TERMINATED)
                case _ => disk == old(disk)
      ensures !disk.owes
    {
      hide Inv, Legal, Enabled, Effect;
      if disk.seen.Missing? {
        f := HumanRequired(EXECUTION_MISSING);
      } else if disk.seen == Saw(Terminated) {
        f := HumanRequired(EXECUTION_TERMINATED);
      } else if disk.seen == Saw(ExecutionFailed) {
        f := FailExecution();
      } else {
        f := Healthy;
      }
    }

    /** Reads the execution's status; everything later in the step acts on this reading. */
    method ReadExecution() returns (f: Fault)
      requires Valid() && Active(disk)
      modifies this`disk, this`log
      ensures Valid() && old(log) <= log
      ensures disk.loop == old(disk.loop) && disk.owes == old(disk.owes)
      ensures f.Healthy? ==> !disk.seen.Unseen?
    {
      hide Inv, Legal, AfterJudgement, StopAllowed, Grown;
      :- Await();
      f := Healthy;
      Write(Observe);
    }

    method AdvanceExecution() returns (f: Fault)
      requires Valid() && Active(disk) && disk.loop.stage.AtExecution?
      modifies this`disk, this`log
      ensures Valid() && old(log) <= log
      ensures !disk.owes
      ensures f.Healthy? ==> disk.loop.stage.AtRequest? || disk.loop.stage.Terminal() || Waiting(disk)
      ensures f.Healthy? && disk.loop.stage.AtRequest? ==>
                disk.seen == Saw(Passed) && disk.loop == old(disk.loop).(stage := AtRequest)
    {
      hide Inv, Legal, AfterJudgement, DeliveriesAfter, StopAllowed, Grown;
      :- ReadExecution();
      if disk.seen == Saw(Passed) {
        f := Put(StartReview);
      } else {
        f := StopWithExecution();
      }
    }

    /** The check in front of every review stage. */
    method CheckExecution() returns (f: Fault, proceed: bool)
      requires Valid() && Active(disk) && disk.loop.stage.Review()
      modifies this`disk, this`log
      ensures Valid() && old(log) <= log
      ensures !disk.owes
      ensures proceed ==> f.Healthy? && disk.loop == old(disk.loop) && disk.seen == Saw(Passed)
      ensures f.Healthy? && !proceed ==> disk.loop.stage.Terminal() || Waiting(disk)
    {
      hide Inv, Legal, AfterJudgement, DeliveriesAfter, StopAllowed, Enabled, Effect, Grown;
      proceed := false;
      :- ReadExecution();
      if disk.seen == Saw(Passed) {
        f, proceed := Healthy, true;
      } else {
        f := StopWithExecution();
      }
    }

    /** One handler, by stage. */
    method Dispatch() returns (f: Fault)
      requires Valid() && Active(disk)
      requires disk.loop.stage.Review() ==> Reviewing(disk, disk.loop.stage)
      modifies this
      ensures Valid() && old(log) <= log
      ensures !disk.owes
      ensures f.Healthy? && old(disk.loop.stage.AtExecution?) && !disk.loop.stage.AtRequest? ==>
                disk.loop.stage.Terminal() || Waiting(disk)
      ensures Paid(old(asked), old(log), Healthy)
    {
      hide Inv, Legal, AfterJudgement, StopAllowed, Enabled, Effect, Ends;
      EndsMonotone();
      var judged;
      match disk.loop.stage {
        case AtExecution => f := AdvanceExecution();
        case AtRequest => f := AdvanceReviewRequest();
        case AtRouting => f := AdvanceRouting();
        case AtDelivery => f := AdvanceDelivery();
        case AtCompletion => f := AdvanceReviewCompletion();
        case AtVerdict => f, judged := AdvanceVerdict();
        case AtActuation => f := AdvanceActuation();
      }
    }

    /**
     `advanceOnce`: at most 32 handlers, until the loop has ended, waits for a retry, or waits for its
     execution. `stable` is unset where the source gives up after the 32nd.
     */
    method AdvanceOnce() returns (f: Fault, stable: bool)
      requires Valid() && !disk.owes
      modifies this
      ensures Valid() && old(log) <= log
      ensures !disk.owes
      ensures f.Healthy? && stable ==> disk.loop.stage.Terminal() || disk.loop.retryArmed || Waiting(disk)
      ensures old(disk.loop.stage.Terminal()) ==> f.Healthy? && stable && disk == old(disk) && log == old(log)
      ensures Paid(old(asked), old(log), Healthy)
    {
      hide Inv, Legal, AfterJudgement, StopAllowed, Enabled, Effect, Grown, Ends;
      EndsMonotone();
      f, stable := Healthy, false;
      for step := 0 to STEP_LIMIT
        invariant Valid() && old(log) <= log && !disk.owes && f.Healthy? && !stable
        invariant step == 0 ==> disk == old(disk) && log == old(log)
        invariant old(disk.loop.stage.Terminal()) ==> step == 0
        invariant Paid(old(asked), old(log), Healthy)
      {
        if disk.loop.stage.Terminal() {
          return Healthy, true;
        }
        f, stable := OneStep();
        if f.IsFailure() || stable { return; }
      }
    }

    /** One turn of `advanceOnce`. */
    method OneStep() returns (f: Fault, stable: bool)
      requires Valid() && !disk.owes && !disk.loop.stage.Terminal()
      modifies this
      ensures Valid() && old(log) <= log
      ensures !disk.owes
      ensures f.Healthy? && stable ==> disk.loop.stage.Terminal() || disk.loop.retryArmed || Waiting(disk)
      ensures Paid(old(asked), old(log), Healthy)
    {
      hide Inv, Legal, AfterJudgement, StopAllowed, Enabled, Effect, Grown, Ends;
      EndsMonotone();
      stable := false;
      if disk.loop.retryArmed {
        var due: bool := *;
        if !due {
          return Healthy, true;
        }
        :- Rearm();
      }
      if disk.loop.stage.Review() {
        var proceed;
        f, proceed := CheckExecution();
        if f.IsFailure() || !proceed {
          return f, true;
        }
      }
      var was := disk.loop.stage;
      f := Dispatch();
      stable := was.AtExecution? && !disk.loop.stage.AtRequest?;
    }

    /** A due retry is cleared before its handler runs. */
    method Rearm() returns (f: Fault)
      requires Valid() && Active(disk) && disk.loop.retryArmed
      modifies this`disk, this`log
      ensures Valid() && old(log) <= log
      ensures !disk.owes
      ensures f.Healthy? ==> disk.loop == old(disk.loop).(retryArmed := false)
    {
      hide Inv, Legal, AfterJudgement, DeliveriesAfter, StopAllowed;
      f := Put(ClearRetry);
    }

    /** Any number of `advance` calls, each after whatever became of the last one. */
    method Live(turns: nat)
      requires Valid() && !disk.owes
      modifies this
      ensures Valid() && old(log) <= log
      ensures Count(log, Writes) <= WRITES_PER_ITERATION * initial.loop.binding.maxIterations + Count(log, Abandons)
      ensures initial.loop.timeouts == 0 ==> disk.loop.timeouts <= REVIEW_MAX_TIMEOUTS + Losses(initial, log)
      ensures Paid(old(asked), old(log), Healthy)
      ensures old(asked) <= Ends(old(log)) ==>
                asked <= WRITES_PER_ITERATION * initial.loop.binding.maxIterations + 2 * Count(log, Abandons)
    {
      hide Inv, Legal, Enabled, Effect, Grown;
      EndsMonotone();
      for turn := 0 to turns
        invariant Valid() && old(log) <= log && !disk.owes && Paid(old(asked), old(log), Healthy)
      {
        var f, stable := AdvanceOnce();
        f := Await();
      }
      WritesAreBounded(initial, log);
      if initial.loop.timeouts == 0 {
        TimeoutsWithinBudget(initial, log);
      }
    }
  }
}
