/**
 The negotiator over all executions, as it runs: contexts and starts in flight by id, one shared
 timeline, and other starts, clicks, reconnects and time moving at every await. The ghost `histories`
 hold each execution's run, so the run theorems of `NegotiationRuns` hold of this code.
 */
module CapabilityNegotiator {
  import opened Options
  import opened Negotiation
  import N = Negotiation
  import opened NegotiationRuns
  import opened CapabilityTimeline

  /** What an execution's context is bound to. */
  datatype Binding = Binding(workspace: string, task: string, actuation: Option<string>)
  datatype StartRequest = StartRequest(execution: string, binding: Binding, backend: Request)

  /** `start`'s answer: a new or joined outcome, or the error for an execution bound elsewhere. */
  datatype StartReply = New(outcome: Outcome) | Existing(outcome: Outcome) | Unsettled | BoundElsewhere

  /** What Desktop shows: a non-empty conversation when connected. */
  type Conversation = Option<string>
  datatype DesktopState = Unknown | Known(current: Conversation)

  function Final(h: History): Negotiation
    requires Possible(h)
  {
    Run(h.config, Begin(h.config, h.request, h.start, h.seen), h.log)
  }

  lemma FinalIsAt(h: History)
    requires Possible(h)
    ensures Final(h) == At(h, |h.log|)
  {
    assert h.log[..|h.log|] == h.log;
  }

  function Next(h: History, m: Move): History { h.(log := h.log + [m]) }

  lemma NextIsPossible(h: History, m: Move)
    requires Possible(h) && Enabled(Final(h), m)
    ensures Possible(Next(h, m)) && Final(Next(h, m)) == Effect(h.config, Final(h), m)
  {
    Extend(h.config, Begin(h.config, h.request, h.start, h.seen), h.log, m);
  }

  predicate ByUser(a: Action) { a.ClickRecheck? || a.ClickStandalone? || a.Reconnect? }

  /** A click or reconnect leaves `startOnce` where it is, and never meets a recovered Desktop. */
  lemma UsersLeavePhase(h: History, m: Move)
    requires Possible(h) && Enabled(Final(h), m) && ByUser(m.action)
    ensures Effect(h.config, Final(h), m).phase == Final(h).phase && !Recovered(Final(h))
    ensures m.action.ClickRecheck? || Effect(h.config, Final(h), m).requested != Some(Recheck)
  {
    hide Possible, Final, Traced, N.SetState;
    FinalIsAt(h);
  }

  lemma NewIsPossible(h: History)
    requires h.log == []
    ensures Possible(h) && Final(h) == Begin(h.config, h.request, h.start, h.seen)
  {
  }

  /** The recorded entries, execution by execution, are the contexts' traces. */
  ghost predicate Faithful(recorded: seq<Entry>, contexts: map<string, Negotiation>) {
    forall id :: EventsOf(recorded, id) == if id in contexts then contexts[id].trace else []
  }

  lemma FaithfulStays(recorded: seq<Entry>, contexts: map<string, Negotiation>, id: string, n: Negotiation)
    requires Faithful(recorded, contexts) && id in contexts && n.trace == contexts[id].trace
    ensures Faithful(recorded, contexts[id := n])
  {
    hide EventsOf;
  }

  lemma FaithfulGrows(recorded: seq<Entry>, contexts: map<string, Negotiation>, id: string, n: Negotiation, event: Event)
    requires Faithful(recorded, contexts)
    requires n.trace == (if id in contexts then contexts[id].trace else []) + [event]
    ensures Faithful(recorded + [Entry(id, event)], contexts[id := n])
  {
    forall o ensures EventsOf(recorded + [Entry(id, event)], o) ==
                     if o in contexts[id := n] then contexts[id := n][o].trace else [] {
      EventsAppend(recorded, Entry(id, event), o);
    }
  }

  class CapabilityNegotiator {
    const config: Config
    const timeline: CapabilityTimeline
    var contexts: map<string, Negotiation>
    var bindings: map<string, Binding>
    var inFlight: set<string>
    var clock: int
    // how many more times users will click "recheck": any number, but not for ever
    var clicksLeft: nat
    ghost var histories: map<string, History>

    /** The timeline has exactly the events of every context. */
    ghost predicate Coherent()
      reads this, timeline
    {
      && timeline.Valid() && config.poll >= 1
      && contexts.Keys == bindings.Keys == histories.Keys
      && Faithful(timeline.recorded, contexts)
    }

    /** The context is where its history leads. */
    ghost predicate Told(id: string)
      reads this
    {
      && id in contexts && id in histories && id in inFlight
      && Possible(histories[id]) && histories[id].config == config
      && contexts[id] == Final(histories[id]) && contexts[id].latest <= clock
    }

    ghost predicate Valid()
      reads this, timeline
    {
      Coherent() && (forall id | id in contexts :: Told(id)) && inFlight <= contexts.Keys
    }

    constructor (config: Config, maxEvents: nat)
      requires config.poll >= 1 && maxEvents >= 1
      ensures Valid() && contexts == map[]
      ensures fresh(timeline)
    {
      this.config := config;
      timeline := new CapabilityTimeline(maxEvents);
      contexts, bindings, histories, inFlight := map[], map[], map[], {};
      clock, clicksLeft := 0, *;
    }

    // ---- Between awaits ---------------------------------------------------------------------

    /** In the middle of a synchronous stretch of `id`, whose end `goal` tells. */
    ghost predicate Midway(id: string, goal: History)
      reads this, timeline
    {
      && Coherent() && id in contexts && id in inFlight && inFlight <= contexts.Keys
      && (forall o | o in contexts && o != id :: Told(o))
      && Possible(goal) && goal.config == config && contexts[id].latest == clock
    }

    /** `context` fields no one is shown an event for. */
    method Assign(id: string, context: Negotiation, ghost goal: History)
      requires Midway(id, goal) && id in contexts && context.trace == contexts[id].trace && context.latest == contexts[id].latest
      modifies this`contexts
      ensures Midway(id, goal) && contexts == old(contexts)[id := context]
    {
      hide EventsOf, Possible, Final, Traced, Last, IsTail, Enabled, Effect, Begin, Faithful;
      FaithfulStays(timeline.recorded, contexts, id, context);
      contexts := contexts[id := context];
    }

    /** `emit`: a context whose event the timeline records. */
    method Emit(id: string, context: Negotiation, event: Event, ghost goal: History)
      requires Midway(id, goal) && id in contexts
      requires context.trace == contexts[id].trace + [event] && context.latest == contexts[id].latest
      modifies this`contexts, timeline
      ensures Midway(id, goal) && contexts == old(contexts)[id := context]
    {
      hide EventsOf, Possible, Final, Traced, Last, IsTail, Enabled, Effect, Begin, Faithful;
      FaithfulGrows(timeline.recorded, contexts, id, context, event);
      timeline.Record(Entry(id, event));
      contexts := contexts[id := context];
    }

    method SetState(id: string, state: State, source: Option<Source>, reason: Option<Reason>, actions: set<Click>,
                    code: Option<string>, name: Option<EventName>, ghost goal: History)
      requires Midway(id, goal) && id in contexts
      modifies this`contexts, timeline
      ensures Midway(id, goal)
      ensures contexts == old(contexts)[id := N.SetState(old(contexts[id]), state, source, reason, actions, code, name)]
    {
      hide Traced, Midway, Coherent, Told;
      var previous := contexts[id];
      var context := previous.(state := state, source := source, reason := reason, actions := actions, code := code);
      if name.Some? || previous.state != state || previous.source != source || previous.reason != reason
         || previous.code != code {
        var event := Event(Some(previous.state), state, source, reason, code, name.GetOr(Became(state)));
        Emit(id, context.(trace := context.trace + [event]), event, goal);
      } else {
        Assign(id, context, goal);
      }
    }

    /** `consumeAction`. */
    method ConsumeAction(id: string, action: Click, ghost goal: History) returns (consumed: bool)
      requires Midway(id, goal) && id in contexts
      modifies this`contexts
      ensures Midway(id, goal) && (consumed <==> old(contexts[id].requested) == Some(action))
      ensures contexts == if consumed then old(contexts)[id := old(contexts[id]).(requested := None)] else old(contexts)
    {
      hide Midway, Valid, Coherent, Told;
      consumed := contexts[id].requested == Some(action);
      if consumed {
        Assign(id, contexts[id].(requested := None), goal);
      }
    }

    lemma MidwayFacts(id: string, goal: History)
      requires Midway(id, goal)
      ensures id in contexts && Possible(goal) && goal.config == config && contexts[id].latest == clock && config.poll >= 1
    {
    }

    /** The stretch ends: `startOnce` is suspended where the goal says. */
    method Suspend(id: string, phase: Phase, ghost goal: History)
      requires Midway(id, goal) && id in contexts && Final(goal) == contexts[id].(phase := phase)
      modifies this`contexts, this`histories
      ensures Valid() && contexts == old(contexts)[id := old(contexts[id]).(phase := phase)]
      ensures histories == old(histories)[id := goal]
    {
      hide EventsOf, Possible, Final, Traced, Last, IsTail, Enabled, Effect, Begin, Faithful, CapabilityTimeline.Valid;
      FaithfulStays(timeline.recorded, contexts, id, contexts[id].(phase := phase));
      contexts := contexts[id := contexts[id].(phase := phase)];
      histories := histories[id := goal];
      assert Coherent();
      hide Coherent, Midway;
      assert Told(id);
    }

    /** `startOnce` comes back from its await. */
    method Resume(id: string, action: Action, seen: Conversation) returns (ghost goal: History)
      requires Valid() && id in contexts && Enabled(contexts[id], Move(clock, seen, action))
      modifies this`contexts
      ensures Midway(id, goal) && contexts == old(contexts)[id := old(contexts[id]).(latest := clock)]
      ensures goal == Next(histories[id], Move(clock, seen, action))
      ensures Final(goal) == Effect(config, old(contexts[id]), Move(clock, seen, action))
    {
      hide EventsOf, Effect, Enabled, Possible, Final, Faithful;
      FaithfulStays(timeline.recorded, contexts, id, contexts[id].(latest := clock));
      goal := Next(histories[id], Move(clock, seen, action));
      NextIsPossible(histories[id], Move(clock, seen, action));
      contexts := contexts[id := contexts[id].(latest := clock)];
    }

    // ---- Users and Desktop -------------------------------------------------------------------

    /** Only `id` changed, by the move if it was possible. */
    twostate predicate Moved(id: string, a: Action)
      reads this
    {
      && contexts.Keys == old(contexts).Keys && inFlight == old(inFlight) && clock == old(clock)
      && (forall o | o in old(contexts) && o != id :: contexts[o] == old(contexts)[o])
      && (id in old(contexts) ==>
            var m := Move(clock, None, a);
            contexts[id] == if Enabled(old(contexts)[id], m) then Effect(config, old(contexts)[id], m) else old(contexts)[id])
    }

    lemma InTime(id: string)
      requires Valid() && id in contexts
      ensures Told(id) && contexts[id].latest <= clock
    {
    }

    /** The "recheck" button: honoured exactly while it is shown. */
    method RecheckDesktop(id: string) returns (shown: Option<Negotiation>)
      requires Valid()
      modifies this`contexts, this`histories, timeline
      ensures Valid() && Moved(id, ClickRecheck)
      ensures shown == if id in contexts then Some(contexts[id]) else None
    {
      hide EventsOf, Possible, Final, Traced, N.SetState, Valid, Midway, Coherent, Told;
      if id !in contexts {
        return None;
      }
      if Recheck !in contexts[id].actions {
        return Some(contexts[id]);
      }
      InTime(id);
      ghost var goal := Resume(id, ClickRecheck, None);
      Assign(id, contexts[id].(requested := Some(Recheck), rechecks := contexts[id].rechecks + 1), goal);
      SetState(id, Initializing, None, None, BOTH, None, None, goal);
      Suspend(id, contexts[id].phase, goal);
      shown := Some(contexts[id]);
    }

    /** The "standalone" button: honoured exactly while it is shown. */
    method UseStandalone(id: string) returns (shown: Option<Negotiation>)
      requires Valid()
      modifies this`contexts, this`histories, timeline
      ensures Valid() && Moved(id, ClickStandalone)
      ensures shown == if id in contexts then Some(contexts[id]) else None
    {
      hide EventsOf, Possible, Final, Traced, N.SetState, Valid, Midway, Coherent, Told;
      if id !in contexts {
        return None;
      }
      if SelectStandalone !in contexts[id].actions {
        return Some(contexts[id]);
      }
      InTime(id);
      ghost var goal := Resume(id, ClickStandalone, None);
      Assign(id, contexts[id].(requested := Some(SelectStandalone)), goal);
      SetState(id, FallbackReady, Some(Standalone), Some(UserSelectedStandalone), {Recheck}, None,
               Some(FallbackUserSelected), goal);
      Suspend(id, contexts[id].phase, goal);
      shown := Some(contexts[id]);
    }

    /** The one context a connected Desktop's conversation can be restored to; more than one match is none. */
    method ContextFor(current: string) returns (found: Option<string>)
      requires Valid()
      ensures found.Some? ==> found.value in contexts && MayRestore(contexts[found.value], current)
      ensures found.Some? <==> exists id :: id in contexts && MayRestore(contexts[id], current) &&
                                 forall o | o in contexts && MayRestore(contexts[o], current) :: o == id
    {
      hide Valid;
      var ids := contexts.Keys;
      var matches: set<string> := {};
      while ids != {}
        invariant ids <= contexts.Keys
        invariant forall id :: id in matches <==> id in contexts && id !in ids && MayRestore(contexts[id], current)
        decreases ids
      {
        var id :| id in ids;
        if MayRestore(contexts[id], current) {
          matches := matches + {id};
        }
        ids := ids - {id};
      }
      if |matches| == 1 {
        var id :| id in matches;
        OnlyOne(matches, id);
        return Some(id);
      }
      forall id | id in matches ensures exists o :: o in matches && o != id {
        NotOne(matches, id);
      }
      found := None;
    }

    static lemma NotOne<T>(s: set<T>, x: T)
      requires |s| != 1 && x in s
      ensures exists y :: y in s && y != x
    {
      assert |s - {x}| == |s| - 1;
      var y :| y in s - {x};
    }

    static lemma OnlyOne<T>(s: set<T>, x: T)
      requires |s| == 1 && x in s
      ensures s == {x}
    {
      assert |s - {x}| == 0;
    }

    /**
     A reconnected Desktop takes over the execution whose conversation it shows, if it still may and its
     tools pipe resolves; nothing is started or handed off by it.
     */
    method ReconcileDesktopCapability(execution: Option<string>, desktop: DesktopState, pipe: bool) returns (shown: Option<Negotiation>)
      requires Valid()
      modifies this`contexts, this`histories, timeline
      ensures Valid()
      ensures shown.Some? ==> desktop.Known?
      ensures shown.None? || desktop.current.None? || !pipe ==> contexts == old(contexts)
      ensures shown.Some? && execution.Some? && desktop.current.Some? && pipe ==>
        Moved(execution.value, Reconnect(desktop.current.value))
      ensures shown.Some? && execution.None? ==> desktop.current.Some?
      ensures shown.Some? && execution.None? && pipe ==>
        exists id :: id in old(contexts) && MayRestore(old(contexts)[id], desktop.current.value)
                     && Moved(id, Reconnect(desktop.current.value))
    {
      hide EventsOf, Possible, Final, Traced, N.SetState, Valid, Midway, Coherent, Told;
      if desktop.Unknown? {
        return None;
      }
      var current := desktop.current;
      var id;
      if execution.Some? {
        id := execution.value;
      } else {
        if current.None? {
          return None;
        }
        var found := ContextFor(current.value);
        if found.None? {
          return None;
        }
        id := found.value;
      }
      if id !in contexts {
        return None;
      }
      if current.None? || !MayRestore(contexts[id], current.value) || !pipe {
        return Some(contexts[id]);
      }
      InTime(id);
      ghost var goal := Resume(id, Reconnect(current.value), None);
      Assign(id, contexts[id].(requested := None), goal);
      SetState(id, DesktopReady, Some(Desktop), Some(BindingRecovered), {}, None, Some(CapabilityRestored), goal);
      Suspend(id, contexts[id].phase, goal);
      shown := Some(contexts[id]);
    }

    // ---- Awaits ---------------------------------------------------------------------------------

    /** Records the events by which `after` is ahead of the context, then suspends there. */
    method CatchUp(id: string, after: Negotiation, ghost goal: History)
      requires Midway(id, goal) && id in contexts && Final(goal) == after
      requires contexts[id].trace <= after.trace && after.latest == contexts[id].latest
      modifies this`contexts, this`histories, timeline
      ensures Valid() && contexts == old(contexts)[id := after] && histories == old(histories)[id := goal]
    {
      hide Valid, Midway, Coherent, Told, Final, Possible;
      while |contexts[id].trace| < |after.trace|
        invariant Midway(id, goal) && id in contexts && contexts == old(contexts)[id := contexts[id]]
        invariant histories == old(histories)
        invariant contexts[id].trace <= after.trace && after.latest == contexts[id].latest
        decreases |after.trace| - |contexts[id].trace|
      {
        var event := after.trace[|contexts[id].trace|];
        Emit(id, contexts[id].(trace := contexts[id].trace + [event]), event, goal);
      }
      Assign(id, after, goal);
      Suspend(id, after.phase, goal);
    }

    static lemma EffectGrows(c: Config, n: Negotiation, m: Move)
      requires Enabled(n, m)
      ensures n.trace <= Effect(c, n, m).trace && Effect(c, n, m).latest == m.now
    {
      hide Traced, N.SetState;
    }

    static lemma BeginsNow(c: Config, request: Request, now: int, seen: Conversation)
      ensures Begin(c, request, now, seen).latest == now
    {
      hide Traced, N.SetState;
    }

    /** The start or another move of some other execution. */
    method Elsewhere(id: string)
      requires Valid() && id in contexts
      modifies this`contexts, this`histories, this`bindings, this`inFlight, timeline
      ensures Valid() && id in contexts && contexts[id] == old(contexts)[id]
    {
      hide Valid, Midway, Coherent, Told, Final, Possible, Effect, Enabled, Begin, Traced;
      var other: string, a: Action, seen: Conversation := *, *, *;
      if other in contexts && other != id {
        InTime(other);
        var m := Move(clock, seen, a);
        if Enabled(contexts[other], m) {
          var after := Effect(config, contexts[other], m);
          EffectGrows(config, contexts[other], m);
          ghost var goal := Resume(other, a, seen);
          CatchUp(other, after, goal);
        }
      } else if other !in contexts {
        var binding: Binding, request: Request := *, *;
        ghost var goal := CreateContext(other, binding, request, seen);
        BeginsNow(config, request, clock, seen);
        CatchUp(other, Begin(config, request, clock, seen), goal);
      }
    }

    /** `ensureContext` for an execution it does not know, whose start is then in flight. */
    method CreateContext(id: string, binding: Binding, request: Request, seen: Conversation) returns (ghost goal: History)
      requires Valid() && id !in contexts
      modifies this`contexts, this`histories, this`bindings, this`inFlight, timeline
      ensures Midway(id, goal) && contexts == old(contexts)[id := Born(request, clock, seen)]
      ensures bindings == old(bindings)[id := binding]
      ensures goal == History(config, request, clock, seen, []) && Possible(goal)
      ensures Final(goal) == Begin(config, request, clock, seen)
    {
      hide EventsOf, Begin, Traced, Last, IsTail, Possible, Final, Faithful;
      goal := History(config, request, clock, seen, []);
      NewIsPossible(goal);
      var context := Born(request, clock, seen);
      FaithfulGrows(timeline.recorded, contexts, id, context, context.trace[0]);
      timeline.Record(Entry(id, context.trace[0]));
      AddContext(id, binding, context, goal);
    }

    method AddContext(id: string, binding: Binding, context: Negotiation, ghost goal: History)
      requires timeline.Valid() && config.poll >= 1 && contexts.Keys == bindings.Keys == histories.Keys && inFlight <= contexts.Keys
      requires id !in contexts && (forall o | o in contexts :: Told(o)) && Faithful(timeline.recorded, contexts[id := context])
      requires Possible(goal) && goal.config == config && context.latest == clock
      modifies this`contexts, this`bindings, this`histories, this`inFlight
      ensures Midway(id, goal) && contexts == old(contexts)[id := context] && bindings == old(bindings)[id := binding]
    {
      hide EventsOf, Possible, Final, Traced, Last, IsTail, Enabled, Effect, Begin, Faithful, CapabilityTimeline.Valid;
      contexts := contexts[id := context];
      bindings := bindings[id := binding];
      histories := histories[id := goal];
      inFlight := inFlight + {id};
      assert Coherent();
      hide Coherent;
      assert forall o | o in contexts && o != id :: Told(o);
    }

    /** Clicks on "recheck" that `id` may still have to answer. */
    ghost function Credit(id: string): nat
      reads this
      requires id in contexts
    {
      clicksLeft + if contexts[id].requested == Some(Recheck) then 1 else 0
    }

    /** An await of `id`'s start: users, Desktop, other executions and time move. */
    method Interleave(id: string)
      requires Valid() && id in contexts
      modifies this, timeline
      ensures Valid() && id in contexts && contexts[id].phase == old(contexts[id]).phase && clock >= old(clock)
      ensures Recovered(old(contexts[id])) ==> Recovered(contexts[id])
      ensures Credit(id) <= old(Credit(id))
    {
      hide Valid, Midway, Coherent, Told, Final, Possible, Effect, Enabled, Traced;
      var turns: nat := *;
      while turns > 0
        invariant Valid() && id in contexts && contexts[id].phase == old(contexts[id]).phase && clock >= old(clock)
        invariant Recovered(old(contexts[id])) ==> Recovered(contexts[id])
        invariant Credit(id) <= old(Credit(id))
      {
        var who: nat := *;
        if who == 0 {
          var elapsed: int := *;
          if elapsed > 0 {
            Tick(elapsed);
          }
        } else if who == 1 && clicksLeft > 0 {
          UserMoves(id, ClickRecheck);
          SpendClick();
          var shown := RecheckDesktop(id);
        } else if who == 2 {
          UserMoves(id, ClickStandalone);
          var shown := UseStandalone(id);
        } else if who == 3 {
          var execution: Option<string>, current: string, pipe: bool := *, *, *;
          UserMoves(id, Reconnect(current));
          var shown := ReconcileDesktopCapability(execution, Known(Some(current)), pipe);
        } else {
          Elsewhere(id);
        }
        turns := turns - 1;
      }
    }

    method SpendClick()
      requires Valid() && clicksLeft > 0
      modifies this`clicksLeft
      ensures Valid() && clicksLeft == old(clicksLeft) - 1
    {
      hide EventsOf, Possible, Final, Traced, Last, IsTail, Enabled, Effect, Begin;
      clicksLeft := clicksLeft - 1;
    }

    method Tick(elapsed: nat)
      requires Valid()
      modifies this`clock
      ensures Valid() && clock == old(clock) + elapsed
    {
      hide EventsOf, Possible, Final, Traced, Last, IsTail, Enabled, Effect, Begin;
      clock := clock + elapsed;
    }

    lemma UserMoves(id: string, a: Action)
      requires Valid() && id in contexts && ByUser(a)
      ensures var n, m := contexts[id], Move(clock, None, a);
              Enabled(n, m) ==> Effect(config, n, m).phase == n.phase && !Recovered(n) &&
                                (a.ClickRecheck? || Effect(config, n, m).requested != Some(Recheck))
    {
      hide EventsOf, Possible, Final, Effect, Enabled;
      InTime(id);
      if Enabled(contexts[id], Move(clock, None, a)) {
        UsersLeavePhase(histories[id], Move(clock, None, a));
      }
    }

    // ---- Providers: whatever they answer ----------------------------------------------------------

    method Prepare() returns (preparation: Preparation) {
      preparation := *;
    }

    method Provider() returns (reply: Reply)
      ensures !reply.NotReady?
    {
      reply := *;
      if reply.NotReady? {
        reply := Fine;
      }
    }

    // ---- The start ---------------------------------------------------------------------------------

    /** `wait`: it takes at least as long as asked. */
    method Wait(id: string)
      requires Valid() && id in contexts && (contexts[id].phase.Polling? || contexts[id].phase.Choosing?)
      modifies this, timeline
      ensures Valid() && id in contexts && contexts[id].phase == old(contexts[id]).phase
      ensures clock >= old(clock) && clock >= contexts[id].phase.wake && Credit(id) <= old(Credit(id))
      ensures Recovered(old(contexts[id])) ==> Recovered(contexts[id])
    {
      hide Valid, Midway, Coherent, Told;
      Interleave(id);
      if clock < contexts[id].phase.wake {
        Tick(contexts[id].phase.wake - clock);
      }
    }

    /** What `waitForDesktop` makes of one preparation: a result, or another pause. */
    method Consider(id: string, preparation: Preparation, deadline: int, ghost goal: History) returns (result: Option<WaitResult>)
      requires Midway(id, goal) && id in contexts && Possible(goal)
      requires Final(goal) == AfterPrepare(config, contexts[id], deadline, preparation)
      modifies this`contexts, this`histories
      ensures Valid() && id in contexts && Credit(id) <= old(Credit(id))
      ensures result.Some? ==> contexts[id].phase == Waited(result.value)
      ensures result == Some(Rechecked) ==> Credit(id) < old(Credit(id))
      ensures result.None? ==> contexts[id].phase.Polling? && contexts[id].phase.deadline == deadline
      ensures result.None? ==> clock < contexts[id].phase.wake && clock < deadline
    {
      hide Valid, Midway, Coherent, Told, Final, Possible;
      MidwayFacts(id, goal);
      if preparation.PrepareThrew? {
        result := Some(Unready(HandoffFailed, "desktop_handoff_failed"));
        Suspend(id, Waited(result.value), goal);
        return;
      }
      if Recovered(contexts[id]) || preparation.PreparedReady? {
        Suspend(id, Waited(Ready), goal);
        return Some(Ready);
      }
      if preparation.reason != Some(PipeUnavailable) {
        var reason := preparation.reason.GetOr(HandoffFailed);
        result := Some(Unready(reason, preparation.code.GetOr(ReasonCode(reason))));
        Suspend(id, Waited(result.value), goal);
        return;
      }
      var consumed := ConsumeAction(id, SelectStandalone, goal);
      if consumed {
        Suspend(id, Waited(Selected), goal);
        return Some(Selected);
      }
      consumed := ConsumeAction(id, Recheck, goal);
      if consumed {
        Suspend(id, Waited(Rechecked), goal);
        return Some(Rechecked);
      }
      var remaining := deadline - clock;
      if remaining <= 0 {
        result := Some(Unready(HandoffTimeout, "desktop_handoff_timeout"));
        Suspend(id, Waited(result.value), goal);
        return;
      }
      var pause := Min(config.poll, remaining);
      Assign(id, contexts[id].(waited := contexts[id].waited + pause, pauses := contexts[id].pauses + 1), goal);
      Suspend(id, Polling(deadline, clock + pause), goal);
      result := None;
    }

    /** The top of the polling loop: a recovered Desktop or a click ends it, otherwise Desktop is prepared. */
    method LookFirst(id: string, deadline: int, seen: Conversation, ghost goal: History) returns (result: Option<WaitResult>)
      requires Midway(id, goal) && id in contexts && Possible(goal)
      requires Final(goal) == PollDesktop(contexts[id], deadline, seen)
      modifies this`contexts, this`histories
      ensures Valid() && id in contexts && Credit(id) <= old(Credit(id))
      ensures result.Some? ==> contexts[id].phase == Waited(result.value)
      ensures result == Some(Rechecked) ==> Credit(id) < old(Credit(id))
      ensures result.None? ==> contexts[id].phase == Preparing(deadline)
    {
      hide Valid, Midway, Coherent, Told, Final, Possible;
      if Recovered(contexts[id]) {
        Suspend(id, Waited(Ready), goal);
        return Some(Ready);
      }
      var consumed := ConsumeAction(id, SelectStandalone, goal);
      if consumed {
        Suspend(id, Waited(Selected), goal);
        return Some(Selected);
      }
      consumed := ConsumeAction(id, Recheck, goal);
      if consumed {
        Suspend(id, Waited(Rechecked), goal);
        return Some(Rechecked);
      }
      Assign(id, Capture(contexts[id], seen), goal);
      Suspend(id, Preparing(deadline), goal);
      result := None;
    }

    /** One preparation of Desktop, and what is made of it. */
    method PrepareDesktop(id: string, deadline: int) returns (result: Option<WaitResult>)
      requires Valid() && id in contexts && contexts[id].phase == Preparing(deadline)
      modifies this, timeline
      ensures Valid() && id in contexts && Credit(id) <= old(Credit(id)) && clock >= old(clock)
      ensures result.Some? ==> contexts[id].phase == Waited(result.value)
      ensures result == Some(Rechecked) ==> Credit(id) < old(Credit(id))
      ensures result.None? ==> contexts[id].phase.Polling? && contexts[id].phase.deadline == deadline
      ensures result.None? ==> clock < contexts[id].phase.wake && clock < deadline
    {
      hide Valid, Midway, Coherent, Told, Final, Possible, Traced, N.SetState, AfterPrepare, AfterWait, AfterChoice, AfterProvider, PollDesktop;
      Interleave(id);
      var preparation := Prepare();
      InTime(id);
      ghost var goal := Resume(id, PrepareReturns(preparation), None);
      MidwayFacts(id, goal);
      result := Consider(id, preparation, deadline, goal);
    }

    /** Polls Desktop until it is ready, a user decides otherwise, it fails, or the time is up. */
    method WaitForDesktop(id: string, looks: Conversation, ghost stretch: History) returns (result: WaitResult)
      requires Midway(id, stretch) && id in contexts
      requires Final(stretch) == N.WaitForDesktop(config, contexts[id], looks)
      modifies this, timeline
      ensures Valid() && id in contexts && contexts[id].phase == Waited(result)
      ensures Credit(id) <= old(Credit(id)) && (result.Rechecked? ==> Credit(id) < old(Credit(id)))
      ensures old(Recovered(contexts[id])) ==> result.Ready?
    {
      hide Valid, Midway, Coherent, Told, Final, Possible, Traced, N.SetState, AfterPrepare, AfterWait, AfterChoice, AfterProvider, PollDesktop;
      ghost var goal := stretch;
      var seen := looks;
      if Recovered(contexts[id]) {
        Suspend(id, Waited(Ready), goal);
        return Ready;
      }
      MidwayFacts(id, goal);
      var deadline := clock + config.desktopTimeout;
      SetState(id, DesktopPending, Some(Desktop), None, BOTH, None, None, goal);
      while true
        invariant Midway(id, goal) && id in contexts && Possible(goal)
        invariant Final(goal) == PollDesktop(contexts[id], deadline, seen)
        invariant Credit(id) <= old(Credit(id))
        decreases deadline - clock
      {
        var looked := LookFirst(id, deadline, seen, goal);
        if looked.Some? {
          return looked.value;
        }
        var considered := PrepareDesktop(id, deadline);
        if considered.Some? {
          return considered.value;
        }
        Wait(id);
        seen := *;
        InTime(id);
        goal := Resume(id, Wakes, seen);
        MidwayFacts(id, goal);
      }
    }

    /** The top of the waiting loop: a recovered Desktop, a click or the end of the window decides, otherwise it pauses. */
    method LookForChoice(id: string, deadline: int, ghost goal: History) returns (choice: Option<Choice>)
      requires Midway(id, goal) && id in contexts && Possible(goal)
      requires Final(goal) == PollChoice(config, contexts[id], deadline)
      modifies this`contexts, this`histories
      ensures Valid() && id in contexts && Credit(id) <= old(Credit(id))
      ensures choice.Some? ==> contexts[id].phase == Chosen(choice.value)
      ensures choice == Some(TryDesktop) ==> Credit(id) < old(Credit(id)) || Recovered(contexts[id])
      ensures choice.None? ==> contexts[id].phase.Choosing? && contexts[id].phase.deadline == deadline
      ensures choice.None? ==> clock < contexts[id].phase.wake && clock < deadline
    {
      hide Valid, Midway, Coherent, Told, Final, Possible;
      MidwayFacts(id, goal);
      if Recovered(contexts[id]) {
        Suspend(id, Chosen(TryDesktop), goal);
        return Some(TryDesktop);
      }
      var consumed := ConsumeAction(id, Recheck, goal);
      if consumed {
        Suspend(id, Chosen(TryDesktop), goal);
        return Some(TryDesktop);
      }
      consumed := ConsumeAction(id, SelectStandalone, goal);
      if consumed {
        Suspend(id, Chosen(TakeStandalone(false)), goal);
        return Some(TakeStandalone(false));
      }
      var remaining := deadline - clock;
      if remaining <= 0 {
        Suspend(id, Chosen(TakeStandalone(true)), goal);
        return Some(TakeStandalone(true));
      }
      var pause := Min(config.poll, remaining);
      Assign(id, contexts[id].(waited := contexts[id].waited + pause, pauses := contexts[id].pauses + 1), goal);
      Suspend(id, Choosing(deadline, clock + pause), goal);
      choice := None;
    }

    /** Waits for a user to choose, Desktop to come back, or the AFK window to end. */
    method WaitForFallbackChoice(id: string, ghost stretch: History) returns (choice: Choice)
      requires Midway(id, stretch) && id in contexts
      requires Final(stretch) == N.WaitForFallbackChoice(config, contexts[id])
      modifies this, timeline
      ensures Valid() && id in contexts && contexts[id].phase == Chosen(choice)
      ensures Credit(id) <= old(Credit(id))
      ensures choice.TryDesktop? ==> Credit(id) < old(Credit(id)) || Recovered(contexts[id])
    {
      hide Valid, Midway, Coherent, Told, Final, Possible, Traced, N.SetState, AfterPrepare, AfterWait, AfterChoice, AfterProvider, PollChoice;
      ghost var goal := stretch;
      MidwayFacts(id, goal);
      var deadline := clock + config.fallbackTimeout;
      var n := contexts[id];
      var waiting := Event(Some(n.state), n.state, n.source, n.reason, n.code, FallbackWaiting);
      Emit(id, n.(trace := n.trace + [waiting]), waiting, goal);
      while true
        invariant Midway(id, goal) && id in contexts && Possible(goal)
        invariant Final(goal) == PollChoice(config, contexts[id], deadline)
        invariant Credit(id) <= old(Credit(id))
        decreases deadline - clock
      {
        var looked := LookForChoice(id, deadline, goal);
        if looked.Some? {
          return looked.value;
        }
        Wait(id);
        InTime(id);
        goal := Resume(id, Wakes, None);
        MidwayFacts(id, goal);
      }
    }

    /** The fallback is shown before the standalone provider is even prepared. */
    method SelectStandaloneProvider(id: string, because: Option<Reason>, code: Option<string>, name: Option<EventName>, ghost goal: History)
      requires Midway(id, goal) && id in contexts
      requires Final(goal) == N.SetState(contexts[id].(requested := None), FallbackReady, Some(Standalone), because, {}, code, name)
                                .(phase := PreparingStandalone(because, code))
      modifies this`contexts, this`histories, timeline
      ensures Valid() && id in contexts && contexts[id].phase == PreparingStandalone(because, code)
    {
      hide Valid, Midway, Coherent, Told, Final, Possible, Traced, N.SetState;
      Assign(id, contexts[id].(requested := None), goal);
      SetState(id, FallbackReady, Some(Standalone), because, {}, code, name, goal);
      Suspend(id, PreparingStandalone(because, code), goal);
    }

    method StartStandalone(id: string, reason: Option<Reason>, code: Option<string>, name: Option<EventName>, ghost stretch: History)
      returns (outcome: Outcome)
      requires Midway(id, stretch) && id in contexts
      requires Final(stretch) == BeginStandalone(contexts[id], reason, code, name)
      modifies this, timeline
      ensures Valid() && id in contexts && contexts[id].phase == Settled(outcome)
    {
      hide Valid, Midway, Coherent, Told, Final, Possible, Traced, N.SetState, AfterPrepare, AfterWait, AfterChoice,
           PollDesktop, PollChoice, AfterDesktop, AfterStandalone, AfterContinuation, N.WaitForDesktop, N.WaitForFallbackChoice;
      ghost var goal := stretch;
      var because := if reason.None? then contexts[id].reason else reason;
      SelectStandaloneProvider(id, because, code, name, goal);
      Interleave(id);
      var reply := Provider();
      if * {
        reply := NotReady(None);
      }
      InTime(id);
      goal := Resume(id, ProviderReturns(reply), None);
      if reply.NotReady? {
        SetState(id, FallbackReady, Some(Standalone), Some(StandaloneExecutionFailed), {}, None, None, goal);
        Suspend(id, Settled(Failed(Standalone, None)), goal);
        return Failed(Standalone, None);
      }
      if reply.Fine? {
        reply := CallStandalone(id, because, code, goal);
        InTime(id);
        goal := Resume(id, ProviderReturns(reply), None);
      }
      outcome := SettleStandalone(id, because, code, reply, goal);
    }

    /** The provider's answer settles the start; an error that was a capability error already has been shown. */
    method SettleStandalone(id: string, because: Option<Reason>, code: Option<string>, reply: Reply, ghost goal: History)
      returns (outcome: Outcome)
      requires Midway(id, goal) && id in contexts && !reply.NotReady?
      requires Final(goal) == AfterStandalone(contexts[id], because, code, reply)
      modifies this`contexts, this`histories, timeline
      ensures Valid() && id in contexts && contexts[id].phase == Settled(outcome)
    {
      hide Valid, Midway, Coherent, Told, Final, Possible, Traced, N.SetState;
      if reply.Fine? {
        SetState(id, FallbackRunning, Some(Standalone), because, {}, code, None, goal);
        outcome := Started(Standalone);
      } else {
        if !reply.wrapped {
          SetState(id, FallbackReady, Some(Standalone), Some(StandaloneExecutionFailed), {}, reply.coded, None, goal);
        }
        outcome := Failed(Standalone, reply.coded);
      }
      Suspend(id, Settled(outcome), goal);
    }

    /** The one call of the standalone provider's `start`. */
    method CallStandalone(id: string, because: Option<Reason>, code: Option<string>, ghost goal: History) returns (reply: Reply)
      requires Midway(id, goal) && id in contexts
      requires Final(goal) == contexts[id].(phase := StartingStandalone(because, code), standaloneStarts := contexts[id].standaloneStarts + 1)
      modifies this, timeline
      ensures Valid() && id in contexts && contexts[id].phase == StartingStandalone(because, code) && !reply.NotReady?
    {
      hide Valid, Midway, Coherent, Told, Final, Possible;
      Assign(id, contexts[id].(standaloneStarts := contexts[id].standaloneStarts + 1), goal);
      Suspend(id, StartingStandalone(because, code), goal);
      Interleave(id);
      reply := Provider();
    }

    /** A continuation goes to the backend it names, and to no other. */
    method StartContinuation(id: string, backend: Source, ghost stretch: History) returns (outcome: Outcome)
      requires Midway(id, stretch) && id in contexts && contexts[id].phase.Preparing?
      requires Final(stretch) == (if backend.Desktop? then contexts[id].(phase := Continuing(backend), desktopStarts := 1)
                                  else contexts[id].(phase := Continuing(backend), standaloneStarts := 1))
      modifies this, timeline
      ensures Valid() && id in contexts && contexts[id].phase == Settled(outcome)
    {
      hide Valid, Midway, Coherent, Told, Final, Possible, Traced, N.SetState, AfterPrepare, AfterWait, AfterChoice,
           PollDesktop, PollChoice, AfterDesktop, AfterStandalone, FailStandalone, N.WaitForDesktop, N.WaitForFallbackChoice;
      ghost var goal := stretch;
      if backend.Desktop? {
        Assign(id, contexts[id].(desktopStarts := 1), goal);
      } else {
        Assign(id, contexts[id].(standaloneStarts := 1), goal);
      }
      Suspend(id, Continuing(backend), goal);
      Interleave(id);
      var reply := Provider();
      InTime(id);
      goal := Resume(id, ProviderReturns(reply), None);
      if reply.Fine? {
        SetState(id, FallbackRunning, Some(backend), None, {}, None, None, goal);
        outcome := Started(backend);
      } else {
        var reason := if backend.Desktop? then DesktopExecutionFailed else StandaloneExecutionFailed;
        SetState(id, FallbackReady, Some(backend), Some(reason), {}, reply.coded, Some(ContinuationRefused), goal);
        outcome := Failed(backend, reply.coded);
      }
      Suspend(id, Settled(outcome), goal);
    }

    /** Desktop is chosen: the one call of its `start`, and the fallback if it failed before dispatching. */
    method StartDesktop(id: string, ghost stretch: History) returns (outcome: Outcome)
      requires Midway(id, stretch) && id in contexts
      requires Final(stretch) == AfterWait(config, contexts[id], Ready, None)
      modifies this, timeline
      ensures Valid() && id in contexts && contexts[id].phase == Settled(outcome)
    {
      hide Valid, Midway, Coherent, Told, Final, Possible, Traced, N.SetState, AfterPrepare, AfterChoice, Bootstrap, BeginStandalone,
           PollDesktop, PollChoice, AfterStandalone, AfterContinuation, FailStandalone, N.WaitForDesktop, N.WaitForFallbackChoice;
      ghost var goal := stretch;
      if !Recovered(contexts[id]) {
        SetState(id, DesktopReady, Some(Desktop), None, {}, None, None, goal);
      }
      Assign(id, contexts[id].(desktopStarts := contexts[id].desktopStarts + 1), goal);
      Suspend(id, StartingDesktop, goal);
      Interleave(id);
      var reply := Provider();
      InTime(id);
      goal := Resume(id, ProviderReturns(reply), None);
      if reply.Fine? {
        Suspend(id, Settled(Started(Desktop)), goal);
        return Started(Desktop);
      }
      SetState(id, DesktopFailed, Some(Desktop), Some(DesktopExecutionFailed), {}, reply.coded, None, goal);
      if Bootstrap(reply.coded) {
        outcome := StartStandalone(id, Some(HandoffFailed), reply.coded, None, goal);
      } else {
        outcome := Failed(Desktop, reply.coded);
        Suspend(id, Settled(outcome), goal);
      }
    }

    /** Desktop failed: the fallback is offered, and Desktop tried again only for a click or a Desktop that came back. */
    method OfferFallback(id: string, reason: Reason, code: string, ghost stretch: History)
      returns (ended: Option<Outcome>, looks: Conversation, ghost goal: History)
      requires Midway(id, stretch) && id in contexts
      requires Final(stretch) == N.WaitForFallbackChoice(config,
                 N.SetState(contexts[id], DesktopFailed, Some(Desktop), Some(reason), BOTH, Some(code), None))
      modifies this, timeline
      ensures id in contexts
      ensures ended.Some? ==> Valid() && contexts[id].phase == Settled(ended.value)
      ensures ended.None? ==> Midway(id, goal) && Possible(goal) && Final(goal) == N.WaitForDesktop(config, contexts[id], looks)
      ensures ended.None? ==> Credit(id) < old(Credit(id)) || (Credit(id) == old(Credit(id)) && Recovered(contexts[id]))
    {
      hide Valid, Midway, Coherent, Told, Final, Possible, Traced, N.SetState, AfterPrepare, BeginStandalone,
           PollDesktop, PollChoice, AfterProvider, AfterWait, N.WaitForDesktop, N.WaitForFallbackChoice;
      SetState(id, DesktopFailed, Some(Desktop), Some(reason), BOTH, Some(code), None, stretch);
      var choice := WaitForFallbackChoice(id, stretch);
      Interleave(id);
      looks := *;
      InTime(id);
      goal := Resume(id, ChoiceReturns, looks);
      MidwayFacts(id, goal);
      ended := None;
      if choice.TakeStandalone? {
        var outcome;
        if choice.automatic {
          outcome := StartStandalone(id, Some(AfkFallbackTimeout), Some("afk_fallback_timeout"), Some(FallbackAfkTimeout), goal);
        } else {
          outcome := StartStandalone(id, None, None, None, goal);
        }
        ended := Some(outcome);
      }
    }

    method StartOnce(id: string, request: Request, looks: Conversation, ghost stretch: History) returns (outcome: Outcome)
      requires Midway(id, stretch) && id in contexts && contexts[id] == Born(request, clock, looks)
      requires Final(stretch) == Begin(config, request, clock, looks)
      modifies this, timeline
      ensures Valid() && id in contexts && contexts[id].phase == Settled(outcome)
    {
      hide Valid, Midway, Coherent, Told, Final, Possible, Traced, N.SetState, AfterPrepare, BeginStandalone,
           PollDesktop, PollChoice, AfterProvider, N.WaitForDesktop, N.WaitForFallbackChoice;
      if request.Continue? {
        if !request.complete {
          SetState(id, FallbackReady, Some(Standalone), Some(StandaloneExecutionFailed), {}, None, Some(ContinuationRefused), stretch);
          outcome := Failed(Standalone, None);
          Suspend(id, Settled(outcome), stretch);
        } else {
          outcome := StartContinuation(id, request.backend, stretch);
        }
        return;
      }
      // no user can have clicked before the context existed
      assert contexts[id].requested != Some(SelectStandalone);
      MidwayFacts(id, stretch);
      ghost var goal := stretch;
      var seen := looks;
      while true
        invariant Midway(id, goal) && id in contexts && Possible(goal)
        invariant Final(goal) == N.WaitForDesktop(config, contexts[id], seen)
        decreases Credit(id), if Recovered(contexts[id]) then 0 else 1
      {
        var result := WaitForDesktop(id, seen, goal);
        Interleave(id);
        seen := *;
        InTime(id);
        goal := Resume(id, WaitReturns, seen);
        MidwayFacts(id, goal);
        if result.Selected? {
          outcome := StartStandalone(id, None, None, None, goal);
          return;
        }
        if result.Ready? {
          outcome := StartDesktop(id, goal);
          return;
        }
        if result.Unready? {
          var ended;
          ended, seen, goal := OfferFallback(id, result.reason, result.code, goal);
          if ended.Some? {
            return ended.value;
          }
        }
      }
    }

    /**
     A new execution is started once; a repeated call joins the start in flight or the outcome it had; one
     whose execution is bound to another workspace, task or actuation is refused.
     */
    method Start(request: StartRequest, seen: Conversation) returns (reply: StartReply)
      requires Valid()
      modifies this, timeline
      ensures Valid()
      ensures reply.BoundElsewhere? <==>
              request.execution in old(bindings) && old(bindings)[request.execution] != request.binding
      ensures reply.New? ==> request.execution !in old(contexts)
      ensures reply.New? || reply.Existing? ==>
              request.execution in contexts && contexts[request.execution].phase == Settled(reply.outcome)
      ensures reply.BoundElsewhere? ==> contexts == old(contexts)
    {
      hide Midway, Told, Final, Possible, Traced, N.SetState, Begin, Effect, EventsOf;
      var id := request.execution;
      if id in contexts {
        if bindings[id] != request.binding {
          return BoundElsewhere;
        }
        Interleave(id);
        var phase := contexts[id].phase;
        return if phase.Settled? then Existing(phase.outcome) else Unsettled;
      }
      ghost var goal := CreateContext(id, request.binding, request.backend, seen);
      var outcome := StartOnce(id, request.backend, seen, goal);
      CleanUp(id);
      reply := New(outcome);
    }

    /** The start's `finally`: its buttons are already gone, only a forgotten click is left to clear. */
    method CleanUp(id: string)
      requires Valid() && id in contexts && contexts[id].phase.Settled?
      modifies this, timeline
      ensures Valid() && id in contexts && contexts[id].phase == old(contexts[id]).phase
    {
      hide Valid, Midway, Coherent, Told, Final, Possible, Traced, N.SetState;
      Interleave(id);
      InTime(id);
      SettledShowsNoButton(id);
      ghost var goal := Resume(id, Cleanup, None);
      assert contexts[id].actions == {};
      Assign(id, contexts[id].(requested := None), goal);
      Suspend(id, contexts[id].phase, goal);
    }

    lemma SettledShowsNoButton(id: string)
      requires Valid() && id in contexts && contexts[id].phase.Settled?
      ensures contexts[id].actions == {}
    {
      hide EventsOf, Possible, Final, Traced, Last, IsTail, Enabled, Effect, Begin;
      InTime(id);
      FinalIsAt(histories[id]);
    }
  }
}
