/**
 Recording the outcome of a review. Calls for one request are queued behind each other; calls for
 different requests run side by side over the same directory, and between a call's look-up and its
 write anything else may be written. Requests, deliveries and their statuses are other services' records.
 */
module ReviewResult {
  import opened Options

  datatype Status = Completed | Timeout | Failed
  datatype Delivery = Delivery(request: string, task: string, delivered: bool)
  datatype Result = Result(request: string, delivery: string, task: string, status: Status,
                           content: Option<string>, error: Option<string>, created: int, completed: Option<int>)

  /** What a caller asks to record. */
  datatype Input = Input(id: Option<string>, request: string, delivery: string, task: Option<string>, status: Status,
                         content: Option<string>, error: Option<string>)

  datatype Call = Entered(input: Input) | LookedUp(input: Input, existing: Option<string>)

  datatype World = World(requests: map<string, string>, deliveries: map<string, Delivery>, results: map<string, Result>,
                         calls: map<string, Call>)

  predicate SchemaValid(r: Result) {
    && (r.completed.Some? ==> r.status.Completed? && r.created <= r.completed.value)
    && (r.status.Completed? <==> r.content.Some?)
    && (!r.status.Completed? <==> r.error.Some?)
  }

  /** The request and delivery the result is for, as the call finds them. */
  predicate Sound(w: World, i: Input) {
    && i.request in w.requests
    && i.delivery in w.deliveries && w.deliveries[i.delivery].delivered
    && w.deliveries[i.delivery].request == i.request && w.deliveries[i.delivery].task == w.requests[i.request]
    && (i.task.Some? ==> i.task.value == w.deliveries[i.delivery].task)
  }

  datatype Found = One(id: string) | Nothing | Conflict

  predicate For(results: map<string, Result>, request: string, id: string) {
    id in results && results[id].request == request
  }

  /** What `getReviewResultByRequest` answers. */
  predicate Answers(results: map<string, Result>, request: string, asked: Option<string>, found: Found) {
    if asked.Some? && asked.value in results
    then found == if results[asked.value].request == request then One(asked.value) else Conflict
    else match found
      case One(id) => For(results, request, id) && forall o | o in results :: For(results, request, o) ==> o == id
      case Nothing => forall o | o in results :: !For(results, request, o)
      case Conflict => exists o, p | o in results && p in results :: o != p && For(results, request, o) && For(results, request, p)
  }

  /** The record a call writes over `existing`, or as a new one. */
  function Written(w: World, i: Input, existing: Option<Result>, now: int): Result
    requires i.delivery in w.deliveries
  {
    Result(i.request, i.delivery, w.deliveries[i.delivery].task, i.status, i.content, i.error,
           if existing.Some? then existing.value.created else now, if i.status.Completed? then Some(now) else None)
  }

  function Existing(w: World, id: Option<string>): Option<Result> {
    if id.Some? && id.value in w.results then Some(w.results[id.value]) else None
  }

  datatype Action =
    | Enter(input: Input)
    | LookUp(request: string, found: Found)
    | Write(request: string, id: string, now: int)
    | Leave(request: string)
    // other services
    | NewRequest(request: string, task: string)
    | NewDelivery(delivery: string, record: Delivery)
    | Delivered(delivery: string)

  predicate MayWrite(w: World, request: string, id: string, now: int) {
    && request in w.calls && w.calls[request].LookedUp?
    && var i, was := w.calls[request].input, Existing(w, w.calls[request].existing);
       && i.delivery in w.deliveries
       && SchemaValid(Written(w, i, was, now))
       && (match was
           case Some(r) => w.calls[request].existing == Some(id) && !r.status.Completed?
           case None => w.calls[request].existing.None? && id !in w.results)
  }

  predicate Enabled(w: World, a: Action) {
    match a
    case Enter(i) => i.request !in w.calls
    case LookUp(q, found) =>
      && q in w.calls && w.calls[q].Entered? && Sound(w, w.calls[q].input)
      && Answers(w.results, q, w.calls[q].input.id, found) && !found.Conflict?
      && (found.One? ==> w.results[found.id].delivery == w.calls[q].input.delivery
                         && w.results[found.id].task == w.deliveries[w.calls[q].input.delivery].task)
    case Write(q, id, now) => MayWrite(w, q, id, now)
    case Leave(q) => q in w.calls
    case NewRequest(q, _) => q !in w.requests
    case NewDelivery(d, r) => d !in w.deliveries && !r.delivered
    case Delivered(d) => d in w.deliveries
  }

  function Effect(w: World, a: Action): World
    requires Enabled(w, a)
  {
    match a
    case Enter(i) => w.(calls := w.calls[i.request := Entered(i)])
    case LookUp(q, found) =>
      w.(calls := w.calls[q := LookedUp(w.calls[q].input, if found.One? then Some(found.id) else None)])
    case Write(q, id, now) =>
      var call := w.calls[q];
      w.(results := w.results[id := Written(w, call.input, Existing(w, call.existing), now)], calls := w.calls - {q})
    case Leave(q) => w.(calls := w.calls - {q})
    case NewRequest(q, task) => w.(requests := w.requests[q := task])
    case NewDelivery(d, r) => w.(deliveries := w.deliveries[d := r])
    case Delivered(d) => w.(deliveries := w.deliveries[d := w.deliveries[d].(delivered := true)])
  }

  ghost predicate Step(w: World, a: Action, v: World) { Enabled(w, a) && v == Effect(w, a) }

  // ---- The invariant ----------------------------------------------------------------------

  ghost predicate OnePerRequest(w: World) {
    forall i, j | i in w.results && j in w.results && w.results[i].request == w.results[j].request :: i == j
  }

  /** A stored result is of a delivered delivery of the same request and task. */
  ghost predicate Founded(w: World) {
    forall i | i in w.results ::
      var r := w.results[i];
      && SchemaValid(r) && r.request in w.requests && w.requests[r.request] == r.task
      && r.delivery in w.deliveries && w.deliveries[r.delivery] == Delivery(r.request, r.task, true)
  }

  /** What a call has looked up still holds, since nobody else writes results of its request. */
  ghost predicate LooksHold(w: World) {
    forall q | q in w.calls ::
      && w.calls[q].input.request == q
      && (w.calls[q].LookedUp? ==>
            && Sound(w, w.calls[q].input)
            && match w.calls[q].existing
               case Some(id) => For(w.results, q, id) && w.results[id].delivery == w.calls[q].input.delivery
               case None => forall o :: !For(w.results, q, o))
  }

  ghost predicate Inv(w: World) { OnePerRequest(w) && Founded(w) && LooksHold(w) }

  lemma OnePerRequestKept(w: World, a: Action, v: World)
    requires Inv(w) && Step(w, a, v)
    ensures OnePerRequest(v)
  {
    hide Founded;
    if a.Write? {
      assert forall o | o in w.results && w.results[o].request == a.request :: For(w.results, a.request, o);
    }
  }

  lemma FoundedKept(w: World, a: Action, v: World)
    requires Founded(w) && LooksHold(w) && Step(w, a, v)
    ensures Founded(v)
  {
  }

  lemma LooksHoldKept(w: World, a: Action, v: World)
    requires LooksHold(w) && Step(w, a, v)
    ensures LooksHold(v)
  {
    assert forall q, o | For(v.results, q, o) && (a.Write? ==> a.request != q) :: For(w.results, q, o);
    assert forall q, o | For(w.results, q, o) && (a.Write? ==> a.request != q) :: For(v.results, q, o);
  }

  lemma StepKeepsInv(w: World, a: Action, v: World)
    requires Inv(w) && Step(w, a, v)
    ensures Inv(v)
  {
    OnePerRequestKept(w, a, v);
    FoundedKept(w, a, v);
    LooksHoldKept(w, a, v);
    hide Step, OnePerRequest, Founded, LooksHold;
  }

  /** With one result per request, the error about several results of a request cannot arise. */
  lemma NeverSeveral(w: World, request: string)
    requires Inv(w)
    ensures !Answers(w.results, request, None, Conflict)
  {
    hide Founded, LooksHold;
  }

  // ---- Runs -------------------------------------------------------------------------------

  ghost predicate Legal(w: World, log: seq<Action>)
    decreases |log|, 0
  {
    log == [] || (Legal(w, log[..|log| - 1]) && Enabled(Run(w, log[..|log| - 1]), log[|log| - 1]))
  }

  ghost function Run(w: World, log: seq<Action>): World
    requires Legal(w, log)
    decreases |log|, 1
  {
    if log == [] then w else Effect(Run(w, log[..|log| - 1]), log[|log| - 1])
  }

  lemma Extend(w: World, log: seq<Action>, a: Action)
    requires Legal(w, log) && Enabled(Run(w, log), a)
    ensures Legal(w, log + [a]) && Run(w, log + [a]) == Effect(Run(w, log), a)
  {
    assert (log + [a])[..|log|] == log;
  }

  /** Results are never removed, keep their identity and creation time, and a completed one never changes. */
  ghost predicate Evolved(w: World, v: World) {
    forall i | i in w.results ::
      && i in v.results
      && v.results[i].request == w.results[i].request && v.results[i].delivery == w.results[i].delivery
      && v.results[i].task == w.results[i].task && v.results[i].created == w.results[i].created
      && (w.results[i].status.Completed? ==> v.results[i] == w.results[i])
  }

  lemma StepEvolves(w: World, a: Action, v: World)
    requires Inv(w) && Step(w, a, v)
    ensures Evolved(w, v)
  {
  }

  /** From any state the invariant holds in, the empty directory first of all, along every run. */
  lemma {:induction false} ResultsEvolve(w: World, log: seq<Action>)
    requires Inv(w) && Legal(w, log)
    ensures Inv(Run(w, log)) && Evolved(w, Run(w, log))
  {
    hide Inv, Enabled, Effect;
    if log != [] {
      var front := log[..|log| - 1];
      ResultsEvolve(w, front);
      StepKeepsInv(Run(w, front), log[|log| - 1], Run(w, log));
      StepEvolves(Run(w, front), log[|log| - 1], Run(w, log));
    }
  }

  const EMPTY := World(map[], map[], map[], map[])

  /**
   Every review request has at most one result, whatever calls race for it; what it says is of a delivered
   delivery of that request and task, and once it is completed it stays as it is.
   */
  lemma OneResultPerRequest(log: seq<Action>, n: nat, i: string, j: string)
    requires n <= |log| && Legal(EMPTY, log[..n]) && Legal(Run(EMPTY, log[..n]), log[n..])
    requires var w := Run(EMPTY, log[..n]); i in w.results
    requires var v := Run(Run(EMPTY, log[..n]), log[n..]); j in v.results && v.results[j].request == Run(EMPTY, log[..n]).results[i].request
    ensures var w, v := Run(EMPTY, log[..n]), Run(Run(EMPTY, log[..n]), log[n..]);
            && i == j && v.results[j].created == w.results[i].created
            && (w.results[i].status.Completed? ==> v.results[j] == w.results[i])
            && v.results[j].delivery in v.deliveries
            && v.deliveries[v.results[j].delivery] == Delivery(v.results[j].request, v.results[j].task, true)
  {
    var w := Run(EMPTY, log[..n]);
    ResultsEvolve(EMPTY, log[..n]);
    ResultsEvolve(w, log[n..]);
    hide Legal, LooksHold;
  }

  // ---- Side by side --------------------------------------------------------------------------

  /** The request whose call an action moves. */
  function Subject(a: Action): Option<string> {
    match a
    case Enter(i) => Some(i.request)
    case LookUp(q, _) => Some(q)
    case Write(q, _, _) => Some(q)
    case Leave(q) => Some(q)
    case _ => None
  }

  /** The results of this request are as they were. */
  ghost predicate OnlyElsewhere(w: World, v: World, request: string) {
    && (forall d | d in w.deliveries && w.deliveries[d].delivered :: d in v.deliveries && v.deliveries[d] == w.deliveries[d])
    && (forall o :: For(v.results, request, o) <==> For(w.results, request, o))
    && (forall o | For(w.results, request, o) :: v.results[o] == w.results[o])
  }

  lemma NothingElsewhere(w: World, request: string)
    ensures OnlyElsewhere(w, w, request)
  {
  }

  lemma OthersStayElsewhere(u: World, w: World, a: Action, request: string)
    requires Inv(w) && Enabled(w, a) && Subject(a) != Some(request) && OnlyElsewhere(u, w, request)
    ensures OnlyElsewhere(u, Effect(w, a), request)
    ensures request in w.calls ==> request in Effect(w, a).calls && Effect(w, a).calls[request] == w.calls[request]
  {
    hide Founded, OnePerRequest;
    var v := Effect(w, a);
    assert forall o :: For(v.results, request, o) <==> For(w.results, request, o);
  }

  // ---- The service ---------------------------------------------------------------------------

  datatype Reply = Recorded(result: Result) | Refused

  class ReviewResultService {
    var world: World
    ghost const initial: World
    ghost var log: seq<Action>

    ghost predicate Valid()
      reads this
    {
      Inv(initial) && Legal(initial, log) && world == Run(initial, log) && Inv(world)
    }

    constructor ()
      ensures Valid() && world == EMPTY
    {
      world, initial, log := EMPTY, EMPTY, [];
    }

    method Happens(a: Action, after: World)
      requires Valid() && Step(world, a, after)
      modifies this
      ensures Valid() && world == after && log == old(log) + [a]
    {
      hide Inv, Enabled, Effect;
      StepKeepsInv(world, a, after);
      Extend(initial, log, a);
      world := after;
      log := log + [a];
    }

    /** The scan over the stored results, after the direct look at the id asked for. */
    method GetReviewResultByRequest(request: string, asked: Option<string>) returns (found: Found)
      ensures Answers(world.results, request, asked, found)
    {
      if asked.Some? && asked.value in world.results {
        if world.results[asked.value].request != request {
          return Conflict;
        }
        return One(asked.value);
      }
      found := Nothing;
      var left := world.results.Keys;
      while left != {}
        invariant left <= world.results.Keys
        invariant found.Nothing? ==> forall o :: For(world.results, request, o) ==> o in left
        invariant found.One? ==> For(world.results, request, found.id) && found.id !in left
                                 && forall o :: For(world.results, request, o) ==> o == found.id || o in left
        invariant !found.Conflict?
        decreases left
      {
        var id :| id in left;
        left := left - {id};
        if world.results[id].request == request {
          if found.One? {
            assert For(world.results, request, found.id) && For(world.results, request, id) && id != found.id;
            return Conflict;
          }
          found := One(id);
        }
      }
    }

    /** Calls for other requests and other services move; the queue keeps calls for this request away. */
    method Others(request: string)
      requires Valid() && request in world.calls
      modifies this
      ensures Valid() && old(log) <= log && request in world.calls && world.calls[request] == old(world.calls[request])
      ensures OnlyElsewhere(old(world), world, request)
    {
      hide Inv, Enabled, Effect, OnlyElsewhere;
      NothingElsewhere(world, request);
      var turns: nat := *;
      while turns > 0
        invariant Valid() && old(log) <= log && request in world.calls && world.calls[request] == old(world.calls[request])
        invariant OnlyElsewhere(old(world), world, request)
      {
        var a: Action := *;
        if Enabled(world, a) && Subject(a) != Some(request) {
          OthersStayElsewhere(old(world), world, a, request);
          Happens(a, Effect(world, a));
        }
        turns := turns - 1;
      }
    }

    /** The call ends without a write. */
    method Withdraw(request: string)
      requires Valid() && request in world.calls
      modifies this
      ensures Valid() && old(log) <= log && world == old(world).(calls := old(world).calls - {request})
    {
      hide Inv, Legal, SchemaValid;
      Happens(Leave(request), world.(calls := world.calls - {request}));
    }

    /**
     `createReviewResultOnce`: `now` is the clock, `newId` a new random id. A recorded result is stored for the
     request; unless one was there before, it is the caller's.
     */
    method CreateReviewResultOnce(input: Input, now: int, newId: string) returns (reply: Reply)
      requires Valid() && input.request !in world.calls
      modifies this
      ensures Valid() && input.request !in world.calls && old(log) <= log
      ensures reply.Recorded? ==> exists id :: For(world.results, input.request, id) && world.results[id] == reply.result
      ensures reply.Recorded? && !reply.result.status.Completed? ==> reply.result.status == input.status
      ensures reply.Recorded? && (forall id :: !For(old(world.results), input.request, id)) ==>
                reply.result.status == input.status && reply.result.delivery == input.delivery && reply.result.created == now
      ensures reply.Refused? ==> forall id :: For(world.results, input.request, id) ==> For(old(world.results), input.request, id)
    {
      hide Inv, Legal, SchemaValid;
      var q := input.request;
      Happens(Enter(input), world.(calls := world.calls[q := Entered(input)]));
      Others(q);
      var found := GetReviewResultByRequest(q, input.id);
      reply := Refused;
      if !Sound(world, input) || found.Conflict? {
        Withdraw(q);
        return;
      }
      var existing := None;
      if found.One? {
        var r := world.results[found.id];
        if r.delivery != input.delivery || r.task != world.deliveries[input.delivery].task {
          Withdraw(q);
          return;
        }
        existing := Some(found.id);
        assert For(world.results, q, found.id);
      }
      Happens(LookUp(q, found), world.(calls := world.calls[q := LookedUp(input, existing)]));
      reply := Record(input, existing, now, newId);
    }

    /** The second half: an unfinished result is overwritten, a missing one created, a completed one returned. */
    method Record(input: Input, existing: Option<string>, now: int, newId: string) returns (reply: Reply)
      requires Valid() && input.request in world.calls && world.calls[input.request] == LookedUp(input, existing)
      requires existing.Some? ==> For(world.results, input.request, existing.value)
      modifies this
      ensures Valid() && input.request !in world.calls && old(log) <= log
      ensures reply.Recorded? ==> exists id :: For(world.results, input.request, id) && world.results[id] == reply.result
      ensures reply.Recorded? && !reply.result.status.Completed? ==> reply.result.status == input.status
      ensures reply.Recorded? && existing.None? ==>
                reply.result.status == input.status && reply.result.delivery == input.delivery && reply.result.created == now
      ensures reply.Refused? ==> forall id :: For(world.results, input.request, id) ==> For(old(world.results), input.request, id)
    {
      hide Inv, Legal, SchemaValid, Answers, Sound;
      var q := input.request;
      reply := Refused;
      Others(q);
      if existing.Some? && world.results[existing.value].status.Completed? {
        assert For(world.results, q, existing.value);
        reply := Recorded(world.results[existing.value]);
        Happens(Leave(q), world.(calls := world.calls - {q}));
        return;
      }
      var id := if existing.Some? then existing.value else input.id.GetOr(newId);
      if !MayWrite(world, q, id, now) {
        Happens(Leave(q), world.(calls := world.calls - {q}));
        return;
      }
      var result := Written(world, input, Existing(world, existing), now);
      Happens(Write(q, id, now), world.(results := world.results[id := result], calls := world.calls - {q}));
      assert For(world.results, q, id);
      reply := Recorded(result);
    }
  }
}
