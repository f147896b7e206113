/**
 Choosing between the Desktop and the standalone provider for one execution. Between two awaits the
 negotiator runs without interruption, so one action is what it does from one await to the next; user
 clicks and Desktop reconnects come in between. Fields below the line in `Negotiation` record what has
 happened and influence nothing.
 */
module Negotiation {
  import opened Options

  datatype State = Initializing | DesktopPending | DesktopReady | DesktopFailed | FallbackReady | FallbackRunning
  datatype Source = Desktop | Standalone
  datatype Click = Recheck | SelectStandalone
  datatype Reason =
    | DesktopDisconnected | IdentityUnavailable | PipeUnavailable
    | HandoffFailed | HandoffTimeout | BindingRecovered
    | DesktopExecutionFailed | StandaloneExecutionFailed
    | UserSelectedStandalone | AfkFallbackTimeout

  /** What the timeline calls an event: the new state, or the decision behind it. */
  datatype EventName = Became(state: State) | FallbackWaiting | FallbackUserSelected | FallbackAfkTimeout
                     | ContinuationRefused | CapabilityRestored
  datatype Event = Event(previous: Option<State>, current: State, source: Option<Source>, reason: Option<Reason>,
                         code: Option<string>, name: EventName)

  /** A request names a backend only when it continues an earlier execution. */
  datatype Request = Negotiate | Continue(backend: Source, complete: bool)

  /** `Failed.code` is the wrapped error's code, if it has one. */
  datatype Outcome = Started(provider: Source) | Failed(provider: Source, error: Option<string>)

  /** `DesktopWaitResult` and `FallbackChoice`. */
  datatype WaitResult = Ready | Rechecked | Selected | Unready(reason: Reason, code: string)
  datatype Choice = TryDesktop | TakeStandalone(automatic: bool)

  /** Where `startOnce` is suspended. */
  datatype Phase =
    | Preparing(deadline: int)
    | Polling(deadline: int, wake: int)
    | Waited(result: WaitResult)
    | Choosing(deadline: int, wake: int)
    | Chosen(choice: Choice)
    | StartingDesktop
    | PreparingStandalone(because: Option<Reason>, error: Option<string>)
    | StartingStandalone(because: Option<Reason>, error: Option<string>)
    | Continuing(backend: Source)
    | Settled(outcome: Outcome)

  datatype Config = Config(desktopTimeout: nat, fallbackTimeout: nat, poll: nat)

  datatype Negotiation = Negotiation(
    state: State,
    requested: Option<Click>,
    source: Option<Source>,
    reason: Option<Reason>,
    actions: set<Click>,
    code: Option<string>,
    conversation: Option<string>,
    phase: Phase,
    latest: int,
    // --------
    request: Request,
    desktopStarts: nat,
    standaloneStarts: nat,
    waited: nat,
    pauses: nat,
    rechecks: nat,
    trace: seq<Event>)

  const BOTH := {Recheck, SelectStandalone}

  predicate Recovered(n: Negotiation) {
    n.state.DesktopReady? && n.reason == Some(BindingRecovered)
  }

  /** Failures that occur before Desktop can have dispatched any work. */
  predicate Bootstrap(code: Option<string>) {
    code.Some? && code.value in ["desktop_disconnected", "executor_identity_unavailable",
      "desktop_tools_pipe_unavailable", "runtime_connect_failed", "tools_contract_incompatible"]
  }

  function ReasonCode(r: Reason): string {
    match r
    case DesktopDisconnected => "desktop_disconnected"
    case IdentityUnavailable => "executor_identity_unavailable"
    case PipeUnavailable => "desktop_tools_pipe_unavailable"
    case HandoffFailed => "desktop_handoff_failed"
    case HandoffTimeout => "desktop_handoff_timeout"
    case BindingRecovered => "desktop_binding_recovered"
    case DesktopExecutionFailed => "desktop_execution_failed"
    case StandaloneExecutionFailed => "standalone_execution_failed"
    case UserSelectedStandalone => "user_selected_standalone"
    case AfkFallbackTimeout => "afk_fallback_timeout"
  }

  /** Each event starts where the one before it ended, from nothing to the present state. */
  ghost predicate Traced(n: Negotiation) {
    && n.trace != [] && n.trace[0].previous == None && n.trace[0].current == Initializing
    && (forall i | 0 < i < |n.trace| :: n.trace[i].previous == Some(n.trace[i - 1].current))
    && n.trace[|n.trace| - 1].current == n.state
  }

  // ---- State changes ---------------------------------------------------------------------

  /** What a change of state does not touch. */
  predicate SameProgress(n: Negotiation, m: Negotiation) {
    && m.phase == n.phase && m.requested == n.requested && m.latest == n.latest && m.conversation == n.conversation
    && m.request == n.request && m.desktopStarts == n.desktopStarts && m.standaloneStarts == n.standaloneStarts
    && m.waited == n.waited && m.pauses == n.pauses && m.rechecks == n.rechecks
  }

  /** `setState`: an event is recorded when it is named, or when anything it would show changed. */
  function SetState(n: Negotiation, state: State, source: Option<Source>, reason: Option<Reason>, actions: set<Click>,
                    code: Option<string>, name: Option<EventName>): (m: Negotiation)
    ensures n.trace <= m.trace && (Traced(n) ==> Traced(m))
    ensures SameProgress(n, m) && m.state == state && m.source == source && m.reason == reason
    ensures m.actions == actions && m.code == code
  {
    var m := n.(state := state, source := source, reason := reason, actions := actions, code := code);
    if name.Some? || n.state != state || n.source != source || n.reason != reason || n.code != code
    then m.(trace := n.trace + [Event(Some(n.state), state, source, reason, code, name.GetOr(Became(state)))])
    else m
  }

  /** `captureDesktopConversation`: the first conversation seen is kept. */
  function Capture(n: Negotiation, seen: Option<string>): (m: Negotiation)
    ensures n.trace <= m.trace && (Traced(n) ==> Traced(m))
  {
    if n.conversation.None? then n.(conversation := seen) else n
  }

  function Min(a: int, b: int): int { if a < b then a else b }

  // ---- `startOnce` between its awaits ---------------------------------------------------------

  /** The top of the polling loop in `waitForDesktop`, down to `prepare`. */
  function PollDesktop(n: Negotiation, deadline: int, seen: Option<string>): (m: Negotiation)
    ensures n.trace <= m.trace && (Traced(n) ==> Traced(m))
  {
    if Recovered(n) then n.(phase := Waited(Ready))
    else if n.requested == Some(SelectStandalone) then n.(requested := None, phase := Waited(Selected))
    else if n.requested == Some(Recheck) then n.(requested := None, phase := Waited(Rechecked))
    else Capture(n, seen).(phase := Preparing(deadline))
  }

  function WaitForDesktop(c: Config, n: Negotiation, seen: Option<string>): (m: Negotiation)
    ensures n.trace <= m.trace && (Traced(n) ==> Traced(m))
  {
    if Recovered(n) then n.(phase := Waited(Ready))
    else PollDesktop(SetState(n, DesktopPending, Some(Desktop), None, BOTH, None, None), n.latest + c.desktopTimeout, seen)
  }

  /** `preparation`, once `prepare` has returned or thrown. */
  datatype Preparation = PreparedReady | PreparedNot(reason: Option<Reason>, code: Option<string>) | PrepareThrew

  function AfterPrepare(c: Config, n: Negotiation, deadline: int, p: Preparation): (m: Negotiation)
    ensures n.trace <= m.trace && (Traced(n) ==> Traced(m))
  {
    if p.PrepareThrew? then n.(phase := Waited(Unready(HandoffFailed, "desktop_handoff_failed")))
    else if Recovered(n) || p.PreparedReady? then n.(phase := Waited(Ready))
    else if p.reason != Some(PipeUnavailable) then
      var reason := p.reason.GetOr(HandoffFailed);
      n.(phase := Waited(Unready(reason, p.code.GetOr(ReasonCode(reason)))))
    else if n.requested == Some(SelectStandalone) then n.(requested := None, phase := Waited(Selected))
    else if n.requested == Some(Recheck) then n.(requested := None, phase := Waited(Rechecked))
    else if deadline - n.latest <= 0 then n.(phase := Waited(Unready(HandoffTimeout, "desktop_handoff_timeout")))
    else
      var pause := Min(c.poll, deadline - n.latest);
      n.(phase := Polling(deadline, n.latest + pause), waited := n.waited + pause, pauses := n.pauses + 1)
  }

  /** The loop of `waitForFallbackChoice`, down to its wait. */
  function PollChoice(c: Config, n: Negotiation, deadline: int): (m: Negotiation)
    ensures n.trace <= m.trace && (Traced(n) ==> Traced(m))
  {
    if Recovered(n) then n.(phase := Chosen(TryDesktop))
    else if n.requested == Some(Recheck) then n.(requested := None, phase := Chosen(TryDesktop))
    else if n.requested == Some(SelectStandalone) then n.(requested := None, phase := Chosen(TakeStandalone(false)))
    else if deadline - n.latest <= 0 then n.(phase := Chosen(TakeStandalone(true)))
    else
      var pause := Min(c.poll, deadline - n.latest);
      n.(phase := Choosing(deadline, n.latest + pause), waited := n.waited + pause, pauses := n.pauses + 1)
  }

  function WaitForFallbackChoice(c: Config, n: Negotiation): (m: Negotiation)
    ensures n.trace <= m.trace && (Traced(n) ==> Traced(m))
  {
    var waiting := Event(Some(n.state), n.state, n.source, n.reason, n.code, FallbackWaiting);
    PollChoice(c, n.(trace := n.trace + [waiting]), n.latest + c.fallbackTimeout)
  }

  /** `startStandalone` down to its `prepare`; `reason` None keeps the reason there is. */
  function BeginStandalone(n: Negotiation, reason: Option<Reason>, code: Option<string>, name: Option<EventName>): (m: Negotiation)
    ensures n.trace <= m.trace && (Traced(n) ==> Traced(m))
  {
    var because := if reason.None? then n.reason else reason;
    SetState(n.(requested := None), FallbackReady, Some(Standalone), because, {}, code, name)
      .(phase := PreparingStandalone(because, code))
  }

  /** `startOnce` after `waitForDesktop`, whose result it may see only after others have moved. */
  function AfterWait(c: Config, n: Negotiation, r: WaitResult, seen: Option<string>): (m: Negotiation)
    ensures n.trace <= m.trace && (Traced(n) ==> Traced(m))
  {
    match r
    case Selected => BeginStandalone(n, None, None, None)
    case Rechecked => WaitForDesktop(c, n, seen)
    case Unready(reason, code) =>
      WaitForFallbackChoice(c, SetState(n, DesktopFailed, Some(Desktop), Some(reason), BOTH, Some(code), None))
    case Ready =>
      var m := if Recovered(n) then n else SetState(n, DesktopReady, Some(Desktop), None, {}, None, None);
      m.(phase := StartingDesktop, desktopStarts := m.desktopStarts + 1)
  }

  function AfterChoice(c: Config, n: Negotiation, choice: Choice, seen: Option<string>): (m: Negotiation)
    ensures n.trace <= m.trace && (Traced(n) ==> Traced(m))
  {
    match choice
    case TryDesktop => WaitForDesktop(c, n, seen)
    case TakeStandalone(false) => BeginStandalone(n, None, None, None)
    case TakeStandalone(true) =>
      BeginStandalone(n, Some(AfkFallbackTimeout), Some("afk_fallback_timeout"), Some(FallbackAfkTimeout))
  }

  /** What a provider's `start` or `prepare` gave back; `coded` is an error's code. */
  datatype Reply = Fine | NotReady(why: Option<Reason>) | Threw(coded: Option<string>, wrapped: bool)

  function AfterDesktop(n: Negotiation, r: Reply): (m: Negotiation)
    requires !r.NotReady?
    ensures n.trace <= m.trace && (Traced(n) ==> Traced(m))
  {
    if r.Fine? then n.(phase := Settled(Started(Desktop)))
    else
      var m := SetState(n, DesktopFailed, Some(Desktop), Some(DesktopExecutionFailed), {}, r.coded, None);
      if Bootstrap(r.coded) then BeginStandalone(m, Some(HandoffFailed), r.coded, None)
      else m.(phase := Settled(Failed(Desktop, r.coded)))
  }

  function FailStandalone(n: Negotiation, code: Option<string>): (m: Negotiation)
    ensures n.trace <= m.trace && (Traced(n) ==> Traced(m))
  {
    SetState(n, FallbackReady, Some(Standalone), Some(StandaloneExecutionFailed), {}, code, None)
      .(phase := Settled(Failed(Standalone, code)))
  }

  /** An error that is already a capability error is rethrown as it is. */
  function AfterStandalone(n: Negotiation, because: Option<Reason>, error: Option<string>, r: Reply): (m: Negotiation)
    requires !r.NotReady?
    ensures n.trace <= m.trace && (Traced(n) ==> Traced(m))
  {
    if r.Fine? then
      SetState(n, FallbackRunning, Some(Standalone), because, {}, error, None).(phase := Settled(Started(Standalone)))
    else if r.wrapped then n.(phase := Settled(Failed(Standalone, r.coded)))
    else FailStandalone(n, r.coded)
  }

  function AfterContinuation(n: Negotiation, backend: Source, r: Reply): (m: Negotiation)
    requires !r.NotReady?
    ensures n.trace <= m.trace && (Traced(n) ==> Traced(m))
  {
    if r.Fine? then
      SetState(n, FallbackRunning, Some(backend), None, {}, None, None).(phase := Settled(Started(backend)))
    else
      var reason := if backend.Desktop? then DesktopExecutionFailed else StandaloneExecutionFailed;
      SetState(n, FallbackReady, Some(backend), Some(reason), {}, r.coded, Some(ContinuationRefused))
        .(phase := Settled(Failed(backend, r.coded)))
  }

  /** `ensureContext` for a new execution. */
  function Born(request: Request, now: int, seen: Option<string>): Negotiation {
    Negotiation(Initializing, None, None, None, BOTH, None, seen, Preparing(now), now,
                request, 0, 0, 0, 0, 0, [Event(None, Initializing, None, None, None, Became(Initializing))])
  }

  /** `startOnce` of a new context, up to its first await. */
  function Begin(c: Config, request: Request, now: int, seen: Option<string>): (m: Negotiation)
    ensures Born(request, now, seen).trace <= m.trace
  {
    var n := Born(request, now, seen);
    match request
    case Negotiate => WaitForDesktop(c, n, seen)
    case Continue(_, false) =>
      SetState(n, FallbackReady, Some(Standalone), Some(StandaloneExecutionFailed), {}, None, Some(ContinuationRefused))
        .(phase := Settled(Failed(Standalone, None)))
    case Continue(Desktop, true) => n.(phase := Continuing(Desktop), desktopStarts := 1)
    case Continue(Standalone, true) => n.(phase := Continuing(Standalone), standaloneStarts := 1)
  }

  // ---- Actions ------------------------------------------------------------------------------

  datatype Action =
    // startOnce comes back from an await
    | PrepareReturns(preparation: Preparation)
    | Wakes
    | WaitReturns
    | ChoiceReturns
    | ProviderReturns(reply: Reply)
    | Cleanup
    // users and Desktop
    | ClickRecheck
    | ClickStandalone
    | Reconnect(current: string)

  /** An action at a time, with the Desktop conversation the negotiator can see then. */
  datatype Move = Move(now: int, seen: Option<string>, action: Action)

  predicate MayRestore(n: Negotiation, current: string) {
    && n.conversation == Some(current)
    && !(n.state.DesktopFailed? && n.reason == Some(DesktopExecutionFailed))
    && (n.state.Initializing? || n.state.DesktopPending? || n.state.DesktopFailed?)
  }

  predicate Enabled(n: Negotiation, m: Move) {
    && n.latest <= m.now
    && match m.action
       case PrepareReturns(_) => n.phase.Preparing?
       case Wakes => (n.phase.Polling? || n.phase.Choosing?) && n.phase.wake <= m.now
       case WaitReturns => n.phase.Waited?
       case ChoiceReturns => n.phase.Chosen?
       case ProviderReturns(r) =>
         || n.phase.PreparingStandalone?
         || (!r.NotReady? && (n.phase.StartingDesktop? || n.phase.StartingStandalone? || n.phase.Continuing?))
       case Cleanup => n.phase.Settled?
       case ClickRecheck => Recheck in n.actions
       case ClickStandalone => SelectStandalone in n.actions
       case Reconnect(current) => MayRestore(n, current)
  }

  function AfterProvider(n: Negotiation, r: Reply): (m: Negotiation)
    requires n.phase.PreparingStandalone? || (!r.NotReady? && (n.phase.StartingDesktop? || n.phase.StartingStandalone? || n.phase.Continuing?))
    ensures n.trace <= m.trace && (Traced(n) ==> Traced(m))
  {
    match n.phase
    case PreparingStandalone(because, error) =>
      if r.Fine? then n.(phase := StartingStandalone(because, error), standaloneStarts := n.standaloneStarts + 1)
      else if r.NotReady? then FailStandalone(n, None)
      else AfterStandalone(n, because, error, r)
    case StartingDesktop => AfterDesktop(n, r)
    case StartingStandalone(because, error) => AfterStandalone(n, because, error, r)
    case Continuing(backend) => AfterContinuation(n, backend, r)
  }

  function Effect(c: Config, before: Negotiation, m: Move): Negotiation
    requires Enabled(before, m)
  {
    var n := before.(latest := m.now);
    match m.action
    case PrepareReturns(p) => AfterPrepare(c, n, n.phase.deadline, p)
    case Wakes => if n.phase.Polling? then PollDesktop(n, n.phase.deadline, m.seen) else PollChoice(c, n, n.phase.deadline)
    case WaitReturns => AfterWait(c, n, n.phase.result, m.seen)
    case ChoiceReturns => AfterChoice(c, n, n.phase.choice, m.seen)
    case ProviderReturns(r) => AfterProvider(n, r)
    case Cleanup =>
      var done := n.(requested := None);
      if done.actions != {} then SetState(done, done.state, done.source, done.reason, {}, done.code, None) else done
    case ClickRecheck =>
      SetState(n.(requested := Some(Recheck), rechecks := n.rechecks + 1), Initializing, None, None, BOTH, None, None)
    case ClickStandalone =>
      SetState(n.(requested := Some(SelectStandalone)), FallbackReady, Some(Standalone), Some(UserSelectedStandalone),
               {Recheck}, None, Some(FallbackUserSelected))
    case Reconnect(_) =>
      SetState(n.(requested := None), DesktopReady, Some(Desktop), Some(BindingRecovered), {}, None, Some(CapabilityRestored))
  }

  predicate Step(c: Config, n: Negotiation, m: Move, n': Negotiation) {
    Enabled(n, m) && n' == Effect(c, n, m)
  }

  // ---- Runs -----------------------------------------------------------------------------------

  predicate Legal(c: Config, n: Negotiation, log: seq<Move>)
    decreases |log|, 0
  {
    log == [] || (Legal(c, n, log[..|log| - 1]) && Enabled(Run(c, n, log[..|log| - 1]), log[|log| - 1]))
  }

  function Run(c: Config, n: Negotiation, log: seq<Move>): Negotiation
    requires Legal(c, n, log)
    decreases |log|, 1
  {
    if log == [] then n else Effect(c, Run(c, n, log[..|log| - 1]), log[|log| - 1])
  }

  lemma Extend(c: Config, n: Negotiation, log: seq<Move>, m: Move)
    requires Legal(c, n, log) && Enabled(Run(c, n, log), m)
    ensures Legal(c, n, log + [m]) && Run(c, n, log + [m]) == Effect(c, Run(c, n, log), m)
  {
    assert (log + [m])[..|log|] == log;
  }
}
