/** What holds in every run of a negotiation, whoever moves between its awaits. */
module NegotiationRuns {
  import opened Options
  import opened Negotiation
  import N = Negotiation

  // ---- The invariant -----------------------------------------------------------------------

  predicate Undecided(n: Negotiation) {
    n.phase.Preparing? || n.phase.Polling? || n.phase.Waited? || n.phase.Choosing? || n.phase.Chosen?
  }

  /** No button is shown and no reconnect is accepted. */
  predicate Closed(n: Negotiation) {
    && n.actions == {}
    && !n.state.Initializing? && !n.state.DesktopPending?
    && (n.state.DesktopFailed? ==> n.reason == Some(DesktopExecutionFailed))
  }

  /** How often each provider's `start` has been called, by where the negotiation is. */
  ghost predicate StartsCounted(n: Negotiation) {
    && (Undecided(n) ==> n.request.Negotiate? && n.desktopStarts == 0 && n.standaloneStarts == 0)
    && (n.phase.StartingDesktop? ==> n.request.Negotiate? && n.desktopStarts == 1 && n.standaloneStarts == 0)
    && (n.phase.PreparingStandalone? ==> n.request.Negotiate? && n.desktopStarts <= 1 && n.standaloneStarts == 0)
    && (n.phase.StartingStandalone? ==> n.request.Negotiate? && n.desktopStarts <= 1 && n.standaloneStarts == 1)
    && (n.phase.Continuing? ==>
          && n.request == Continue(n.phase.backend, true)
          && n.desktopStarts == (if n.phase.backend.Desktop? then 1 else 0)
          && n.standaloneStarts == (if n.phase.backend.Standalone? then 1 else 0))
    && (n.phase.Settled? ==> n.desktopStarts <= 1 && n.standaloneStarts <= 1)
    && (n.request.Continue? ==> n.desktopStarts + n.standaloneStarts == if n.request.complete then 1 else 0)
  }

  ghost predicate ButtonsShut(n: Negotiation) {
    && (n.state.DesktopReady? ==> n.actions == {})
    && (Undecided(n) || n.phase.Continuing? || Closed(n))
  }

  function Round(c: Config): nat { c.desktopTimeout + c.fallbackTimeout }

  function Left(deadline: int, now: int): nat { if now < deadline then deadline - now else 0 }

  /** How long the negotiation may still ask to wait before a user has to click `recheck` again. */
  function Allowance(c: Config, n: Negotiation): nat {
    (if n.requested == Some(Recheck) then Round(c) else 0) +
    match n.phase
    case Preparing(deadline) => Left(deadline, n.latest) + c.fallbackTimeout
    case Polling(deadline, wake) => Left(deadline, wake) + c.fallbackTimeout
    case Waited(Rechecked) => Round(c)
    case Waited(Unready(_, _)) => c.fallbackTimeout
    case Choosing(deadline, wake) => Left(deadline, wake)
    case Chosen(TryDesktop) => if Recovered(n) then 0 else Round(c)
    case _ => 0
  }

  /** Pauses left until the deadline, each counted as a whole one: all but the last are. */
  function PausesLeft(c: Config, deadline: int, now: int): nat {
    if now < deadline then deadline - now + c.poll else 0
  }

  function LongRound(c: Config): nat { c.desktopTimeout + c.fallbackTimeout + 2 * c.poll }

  /** The same for the number of pauses, each counted as a whole one. */
  function PauseAllowance(c: Config, n: Negotiation): nat {
    (if n.requested == Some(Recheck) then LongRound(c) else 0) +
    match n.phase
    case Preparing(deadline) => PausesLeft(c, deadline, n.latest) + c.fallbackTimeout + c.poll
    case Polling(deadline, wake) => PausesLeft(c, deadline, wake) + c.fallbackTimeout + c.poll
    case Waited(Rechecked) => LongRound(c)
    case Waited(Unready(_, _)) => c.fallbackTimeout + c.poll
    case Choosing(deadline, wake) => PausesLeft(c, deadline, wake)
    case Chosen(TryDesktop) => if Recovered(n) then 0 else LongRound(c)
    case _ => 0
  }

  function Times(pauses: nat, poll: nat): nat {
    if pauses == 0 then 0 else Times(pauses - 1, poll) + poll
  }

  function LongRounds(c: Config, rechecks: nat): nat {
    if rechecks == 0 then 0 else LongRounds(c, rechecks - 1) + LongRound(c)
  }

  ghost predicate PausesCounted(c: Config, n: Negotiation) {
    Times(n.pauses, c.poll) + PauseAllowance(c, n) <= LongRound(c) + LongRounds(c, n.rechecks)
  }

  /** Every accepted `recheck` allows one more round. */
  ghost predicate WaitsCounted(c: Config, n: Negotiation) {
    && n.waited + Allowance(c, n) <= Round(c) + Rounds(c, n.rechecks)
    && (n.phase.Polling? || n.phase.Choosing? ==> n.phase.wake <= n.phase.deadline)
  }

  function Rounds(c: Config, rechecks: nat): nat {
    if rechecks == 0 then 0 else Rounds(c, rechecks - 1) + Round(c)
  }

  ghost predicate Inv(c: Config, n: Negotiation) {
    StartsCounted(n) && ButtonsShut(n) && Traced(n) && WaitsCounted(c, n) && PausesCounted(c, n)
  }

  lemma BeginsCounted(c: Config, request: Request, now: int, seen: Option<string>)
    ensures StartsCounted(Begin(c, request, now, seen)) && ButtonsShut(Begin(c, request, now, seen))
  {
    hide Traced, SetState;
  }

  lemma BeginsWaiting(c: Config, request: Request, now: int, seen: Option<string>)
    ensures WaitsCounted(c, Begin(c, request, now, seen)) && PausesCounted(c, Begin(c, request, now, seen))
  {
    hide Traced, SetState;
  }

  lemma BeginsTraced(c: Config, request: Request, now: int, seen: Option<string>)
    ensures Traced(Begin(c, request, now, seen))
  {
    assert Traced(Born(request, now, seen));
    hide Traced, SetState, PollDesktop, N.WaitForDesktop;
  }

  lemma BeginsInvariant(c: Config, request: Request, now: int, seen: Option<string>)
    ensures Inv(c, Begin(c, request, now, seen))
  {
    hide StartsCounted, ButtonsShut, Traced, WaitsCounted, PausesCounted, Begin;
    BeginsCounted(c, request, now, seen);
    BeginsWaiting(c, request, now, seen);
    BeginsTraced(c, request, now, seen);
  }

  lemma StartsKeptByPrepare(c: Config, n: Negotiation, m: Move)
    requires StartsCounted(n) && Enabled(n, m) && m.action.PrepareReturns?
    ensures StartsCounted(Effect(c, n, m))
  {
    hide Traced, SetState, AfterWait, AfterChoice, AfterProvider, PollDesktop, PollChoice;
  }

  lemma StartsKeptByWake(c: Config, n: Negotiation, m: Move)
    requires StartsCounted(n) && Enabled(n, m) && m.action.Wakes?
    ensures StartsCounted(Effect(c, n, m))
  {
    hide Traced, SetState, AfterWait, AfterChoice, AfterProvider, AfterPrepare;
  }

  lemma StartsKeptByWait(c: Config, n: Negotiation, m: Move)
    requires StartsCounted(n) && Enabled(n, m) && m.action.WaitReturns?
    ensures StartsCounted(Effect(c, n, m))
  {
    hide Traced, SetState, AfterChoice, AfterProvider, AfterPrepare;
  }

  lemma StartsKeptByChoice(c: Config, n: Negotiation, m: Move)
    requires StartsCounted(n) && Enabled(n, m) && m.action.ChoiceReturns?
    ensures StartsCounted(Effect(c, n, m))
  {
    hide Traced, SetState, AfterWait, AfterProvider, AfterPrepare;
  }

  lemma StartsKeptByProvider(c: Config, n: Negotiation, m: Move)
    requires StartsCounted(n) && Enabled(n, m) && m.action.ProviderReturns?
    ensures StartsCounted(Effect(c, n, m))
  {
    hide Traced, SetState, AfterWait, AfterChoice, AfterPrepare, PollDesktop, PollChoice;
  }

  lemma StartsKeptByOthers(c: Config, n: Negotiation, m: Move)
    requires StartsCounted(n) && Enabled(n, m) && (m.action.Cleanup? || m.action.ClickRecheck? || m.action.ClickStandalone? || m.action.Reconnect?)
    ensures StartsCounted(Effect(c, n, m))
  {
    hide Traced, SetState, AfterWait, AfterChoice, AfterProvider, AfterPrepare, PollDesktop, PollChoice;
  }

  lemma StartsKept(c: Config, n: Negotiation, m: Move, v: Negotiation)
    requires StartsCounted(n) && Step(c, n, m, v)
    ensures StartsCounted(v)
  {
    hide StartsCounted, Enabled, Effect;
    match m.action
    case PrepareReturns(_) => StartsKeptByPrepare(c, n, m);
    case Wakes => StartsKeptByWake(c, n, m);
    case WaitReturns => StartsKeptByWait(c, n, m);
    case ChoiceReturns => StartsKeptByChoice(c, n, m);
    case ProviderReturns(_) => StartsKeptByProvider(c, n, m);
    case _ => StartsKeptByOthers(c, n, m);
  }

  lemma ButtonsKeptByPrepare(c: Config, n: Negotiation, m: Move)
    requires StartsCounted(n) && ButtonsShut(n) && Enabled(n, m) && m.action.PrepareReturns?
    ensures ButtonsShut(Effect(c, n, m))
  {
    hide Traced, SetState, AfterWait, AfterChoice, AfterProvider, PollDesktop, PollChoice;
  }

  lemma ButtonsKeptByWake(c: Config, n: Negotiation, m: Move)
    requires StartsCounted(n) && ButtonsShut(n) && Enabled(n, m) && m.action.Wakes?
    ensures ButtonsShut(Effect(c, n, m))
  {
    hide Traced, SetState, AfterWait, AfterChoice, AfterProvider, AfterPrepare;
  }

  lemma ButtonsKeptByWait(c: Config, n: Negotiation, m: Move)
    requires StartsCounted(n) && ButtonsShut(n) && Enabled(n, m) && m.action.WaitReturns?
    ensures ButtonsShut(Effect(c, n, m))
  {
    hide Traced, SetState, AfterChoice, AfterProvider, AfterPrepare;
  }

  lemma ButtonsKeptByChoice(c: Config, n: Negotiation, m: Move)
    requires StartsCounted(n) && ButtonsShut(n) && Enabled(n, m) && m.action.ChoiceReturns?
    ensures ButtonsShut(Effect(c, n, m))
  {
    hide Traced, SetState, AfterWait, AfterProvider, AfterPrepare;
  }

  lemma ButtonsKeptByProvider(c: Config, n: Negotiation, m: Move)
    requires StartsCounted(n) && ButtonsShut(n) && Enabled(n, m) && m.action.ProviderReturns?
    ensures ButtonsShut(Effect(c, n, m))
  {
    hide Traced, SetState, AfterWait, AfterChoice, AfterPrepare, PollDesktop, PollChoice;
  }

  lemma ButtonsKeptByOthers(c: Config, n: Negotiation, m: Move)
    requires StartsCounted(n) && ButtonsShut(n) && Enabled(n, m) && (m.action.Cleanup? || m.action.ClickRecheck? || m.action.ClickStandalone? || m.action.Reconnect?)
    ensures ButtonsShut(Effect(c, n, m))
  {
    hide Traced, SetState, AfterWait, AfterChoice, AfterProvider, AfterPrepare, PollDesktop, PollChoice;
  }

  lemma ButtonsKept(c: Config, n: Negotiation, m: Move, v: Negotiation)
    requires StartsCounted(n) && ButtonsShut(n) && Step(c, n, m, v)
    ensures ButtonsShut(v)
  {
    hide StartsCounted, ButtonsShut, Enabled, Effect;
    match m.action
    case PrepareReturns(_) => ButtonsKeptByPrepare(c, n, m);
    case Wakes => ButtonsKeptByWake(c, n, m);
    case WaitReturns => ButtonsKeptByWait(c, n, m);
    case ChoiceReturns => ButtonsKeptByChoice(c, n, m);
    case ProviderReturns(_) => ButtonsKeptByProvider(c, n, m);
    case _ => ButtonsKeptByOthers(c, n, m);
  }

  lemma TraceKeptByOthers(c: Config, n: Negotiation, m: Move)
    requires Traced(n) && Enabled(n, m) && (m.action.Cleanup? || m.action.ClickRecheck? || m.action.ClickStandalone? || m.action.Reconnect?)
    ensures Traced(Effect(c, n, m))
  {
    hide SetState, AfterPrepare, AfterWait, AfterChoice, AfterProvider, PollDesktop, PollChoice;
  }

  lemma TraceKept(c: Config, n: Negotiation, m: Move, v: Negotiation)
    requires Traced(n) && Step(c, n, m, v)
    ensures Traced(v)
  {
    if m.action.Cleanup? || m.action.ClickRecheck? || m.action.ClickStandalone? || m.action.Reconnect? {
      hide *;
      StepIs(c, n, m, v);
      TraceKeptByOthers(c, n, m);
    } else {
      assert Traced(n.(latest := m.now));
      hide Traced, SetState, PollDesktop, WaitForDesktop, AfterPrepare, PollChoice, WaitForFallbackChoice, BeginStandalone,
           AfterWait, AfterChoice, AfterProvider, MayRestore;
    }
  }

  lemma StepIs(c: Config, n: Negotiation, m: Move, v: Negotiation)
    requires Step(c, n, m, v)
    ensures Enabled(n, m) && v == Effect(c, n, m)
  {
    hide Enabled, Effect;
  }

  lemma WaitsKeptByPrepare(c: Config, n: Negotiation, m: Move)
    requires WaitsCounted(c, n) && Enabled(n, m) && m.action.PrepareReturns?
    ensures WaitsCounted(c, Effect(c, n, m))
  {
    hide Traced, SetState, AfterWait, AfterChoice, AfterProvider, PollDesktop, PollChoice;
  }

  lemma WaitsKeptByWake(c: Config, n: Negotiation, m: Move)
    requires WaitsCounted(c, n) && Enabled(n, m) && m.action.Wakes?
    ensures WaitsCounted(c, Effect(c, n, m))
  {
    hide Traced, SetState, AfterWait, AfterChoice, AfterProvider, AfterPrepare;
  }

  lemma FailureIsPaid(c: Config, n: Negotiation, m: Move)
    requires Enabled(n, m) && m.action.WaitReturns? && n.phase.result.Unready?
    ensures var v := Effect(c, n, m);
            && v.rechecks == n.rechecks && v.waited + Allowance(c, v) <= n.waited + Allowance(c, n)
            && (v.phase.Polling? || v.phase.Choosing? ==> v.phase.wake <= v.phase.deadline)
  {
    hide Traced, SetState, AfterChoice, AfterProvider, AfterPrepare, WaitForDesktop, PollDesktop, BeginStandalone;
  }

  lemma WaitIsPaid(c: Config, n: Negotiation, m: Move)
    requires Enabled(n, m) && m.action.WaitReturns?
    ensures var v := Effect(c, n, m);
            && v.rechecks == n.rechecks && v.waited + Allowance(c, v) <= n.waited + Allowance(c, n)
            && (v.phase.Polling? || v.phase.Choosing? ==> v.phase.wake <= v.phase.deadline)
  {
    if n.phase.result.Unready? {
      hide *;
      FailureIsPaid(c, n, m);
    } else {
      hide Traced, SetState, AfterChoice, AfterProvider, AfterPrepare, WaitForFallbackChoice, PollChoice;
    }
  }

  lemma WaitsKeptByWait(c: Config, n: Negotiation, m: Move)
    requires WaitsCounted(c, n) && Enabled(n, m) && m.action.WaitReturns?
    ensures WaitsCounted(c, Effect(c, n, m))
  {
    hide Enabled, Effect, Allowance, Round, Rounds;
    WaitIsPaid(c, n, m);
  }

  lemma WaitsKeptByChoice(c: Config, n: Negotiation, m: Move)
    requires ButtonsShut(n) && WaitsCounted(c, n) && Enabled(n, m) && m.action.ChoiceReturns?
    ensures WaitsCounted(c, Effect(c, n, m))
  {
    hide Traced, SetState, AfterWait, AfterProvider, AfterPrepare;
  }

  /** Nothing is waited for once a provider has been decided for. */
  lemma ProviderWaitsForNothing(c: Config, n: Negotiation, m: Move)
    requires Enabled(n, m) && m.action.ProviderReturns?
    ensures var v := Effect(c, n, m);
            v.waited == n.waited && v.rechecks == n.rechecks && !v.phase.Polling? && !v.phase.Choosing? && Allowance(c, v) <= Allowance(c, n)
  {
    hide Traced, SetState, AfterWait, AfterChoice, AfterPrepare, PollDesktop, PollChoice, Round;
  }

  lemma WaitsKeptByProvider(c: Config, n: Negotiation, m: Move)
    requires WaitsCounted(c, n) && Enabled(n, m) && m.action.ProviderReturns?
    ensures WaitsCounted(c, Effect(c, n, m))
  {
    hide Enabled, Effect, Allowance, Round, Rounds;
    ProviderWaitsForNothing(c, n, m);
  }

  lemma WaitsKeptByOthers(c: Config, n: Negotiation, m: Move)
    requires ButtonsShut(n) && WaitsCounted(c, n) && Enabled(n, m)
    requires m.action.Cleanup? || m.action.ClickRecheck? || m.action.ClickStandalone? || m.action.Reconnect?
    ensures WaitsCounted(c, Effect(c, n, m))
  {
    hide Traced, SetState, AfterWait, AfterChoice, AfterProvider, AfterPrepare, PollDesktop, PollChoice;
  }

  lemma WaitsKept(c: Config, n: Negotiation, m: Move, v: Negotiation)
    requires ButtonsShut(n) && WaitsCounted(c, n) && Step(c, n, m, v)
    ensures WaitsCounted(c, v)
  {
    hide ButtonsShut, WaitsCounted, Enabled, Effect;
    match m.action
    case PrepareReturns(_) => WaitsKeptByPrepare(c, n, m);
    case Wakes => WaitsKeptByWake(c, n, m);
    case WaitReturns => WaitsKeptByWait(c, n, m);
    case ChoiceReturns => WaitsKeptByChoice(c, n, m);
    case ProviderReturns(_) => WaitsKeptByProvider(c, n, m);
    case _ => WaitsKeptByOthers(c, n, m);
  }

  /** A pause is paid for by the allowance, and nothing else but a recheck raises it. */
  ghost predicate PausesPaid(c: Config, n: Negotiation, v: Negotiation) {
    && v.rechecks == n.rechecks
    && ((v.pauses == n.pauses && PauseAllowance(c, v) <= PauseAllowance(c, n))
        || (v.pauses == n.pauses + 1 && PauseAllowance(c, v) + c.poll <= PauseAllowance(c, n)))
  }

  lemma PaidIsCounted(c: Config, n: Negotiation, v: Negotiation)
    requires PausesCounted(c, n) && PausesPaid(c, n, v)
    ensures PausesCounted(c, v)
  {
    hide PauseAllowance, LongRounds, LongRound;
  }

  lemma PausesPaidByWait(c: Config, n: Negotiation, m: Move)
    requires Enabled(n, m) && m.action.WaitReturns?
    ensures PausesPaid(c, n, Effect(c, n, m))
  {
    hide Traced, SetState, AfterChoice, AfterProvider, AfterPrepare;
  }

  lemma PausesPaidByChoice(c: Config, n: Negotiation, m: Move)
    requires ButtonsShut(n) && Enabled(n, m) && m.action.ChoiceReturns?
    ensures PausesPaid(c, n, Effect(c, n, m))
  {
    hide Traced, SetState, AfterWait, AfterProvider, AfterPrepare;
  }

  lemma PausesPaidByProvider(c: Config, n: Negotiation, m: Move)
    requires ButtonsShut(n) && Enabled(n, m) && m.action.ProviderReturns?
    ensures PausesPaid(c, n, Effect(c, n, m))
  {
    hide Traced, SetState, AfterWait, AfterChoice, AfterPrepare, PollDesktop, PollChoice;
  }

  lemma PausesPaidByWake(c: Config, n: Negotiation, m: Move)
    requires WaitsCounted(c, n) && Enabled(n, m) && m.action.Wakes?
    ensures PausesPaid(c, n, Effect(c, n, m))
  {
    hide Traced, SetState, AfterWait, AfterChoice, AfterProvider, AfterPrepare, Allowance, Rounds;
  }

  lemma PausesPaidByPrepare(c: Config, n: Negotiation, m: Move)
    requires WaitsCounted(c, n) && Enabled(n, m) && m.action.PrepareReturns?
    ensures PausesPaid(c, n, Effect(c, n, m))
  {
    hide WaitsCounted, Traced, SetState, AfterWait, AfterChoice, AfterProvider, PollDesktop, PollChoice;
  }

  lemma PausesPaidByOthers(c: Config, n: Negotiation, m: Move)
    requires ButtonsShut(n) && Enabled(n, m) && (m.action.Cleanup? || m.action.ClickStandalone? || m.action.Reconnect?)
    ensures PausesPaid(c, n, Effect(c, n, m))
  {
    hide Traced, SetState, AfterWait, AfterChoice, AfterProvider, AfterPrepare, PollDesktop, PollChoice;
  }

  lemma RecheckAllowsRound(c: Config, n: Negotiation, m: Move)
    requires ButtonsShut(n) && Enabled(n, m) && m.action.ClickRecheck?
    ensures var v := Effect(c, n, m);
            v.pauses == n.pauses && v.rechecks == n.rechecks + 1 && PauseAllowance(c, v) <= PauseAllowance(c, n) + LongRound(c)
  {
    hide Traced, SetState, AfterWait, AfterChoice, AfterProvider, AfterPrepare, PollDesktop, PollChoice, LongRound;
  }

  lemma PausesKeptByRecheck(c: Config, n: Negotiation, m: Move)
    requires ButtonsShut(n) && PausesCounted(c, n) && Enabled(n, m) && m.action.ClickRecheck?
    ensures PausesCounted(c, Effect(c, n, m))
  {
    RecheckAllowsRound(c, n, m);
    hide ButtonsShut, Enabled, Effect, PauseAllowance, LongRound, Times;
    assert LongRounds(c, n.rechecks + 1) == LongRounds(c, n.rechecks) + LongRound(c);
  }

  lemma PausesKept(c: Config, n: Negotiation, m: Move, v: Negotiation)
    requires ButtonsShut(n) && WaitsCounted(c, n) && PausesCounted(c, n) && Step(c, n, m, v)
    ensures PausesCounted(c, v)
  {
    hide ButtonsShut, WaitsCounted, PausesCounted, PausesPaid, Enabled, Effect;
    match m.action
    case PrepareReturns(_) => PausesPaidByPrepare(c, n, m); PaidIsCounted(c, n, v);
    case Wakes => PausesPaidByWake(c, n, m); PaidIsCounted(c, n, v);
    case WaitReturns => PausesPaidByWait(c, n, m); PaidIsCounted(c, n, v);
    case ChoiceReturns => PausesPaidByChoice(c, n, m); PaidIsCounted(c, n, v);
    case ProviderReturns(_) => PausesPaidByProvider(c, n, m); PaidIsCounted(c, n, v);
    case ClickRecheck => PausesKeptByRecheck(c, n, m);
    case _ => PausesPaidByOthers(c, n, m); PaidIsCounted(c, n, v);
  }

  lemma StepKeepsInv(c: Config, n: Negotiation, m: Move, v: Negotiation)
    requires Inv(c, n) && Step(c, n, m, v)
    ensures Inv(c, v)
  {
    hide Traced, Step, StartsCounted, ButtonsShut, WaitsCounted, PausesCounted;
    StartsKept(c, n, m, v);
    ButtonsKept(c, n, m, v);
    TraceKept(c, n, m, v);
    WaitsKept(c, n, m, v);
    PausesKept(c, n, m, v);
  }

  // ---- Runs --------------------------------------------------------------------------------

  /** A run: a request, the moment it arrives, and everything that happens afterwards. */
  datatype History = History(config: Config, request: Request, start: int, seen: Option<string>, log: seq<Move>)

  predicate Possible(h: History) {
    Legal(h.config, Begin(h.config, h.request, h.start, h.seen), h.log)
  }

  ghost function At(h: History, t: nat): (n: Negotiation)
    requires Possible(h) && t <= |h.log|
    ensures Inv(h.config, n)
  {
    BeginsInvariant(h.config, h.request, h.start, h.seen);
    RunReaches(h.config, Begin(h.config, h.request, h.start, h.seen), h.log, t);
    Run(h.config, Begin(h.config, h.request, h.start, h.seen), h.log[..t])
  }

  lemma {:induction false} RunReaches(c: Config, n: Negotiation, log: seq<Move>, t: nat)
    requires Inv(c, n) && Legal(c, n, log) && t <= |log|
    ensures Legal(c, n, log[..t]) && Inv(c, Run(c, n, log[..t]))
    decreases |log|
  {
    hide Inv, Enabled, Effect;
    if log == [] {
    } else if t < |log| {
      assert log[..|log| - 1][..t] == log[..t];
      RunReaches(c, n, log[..|log| - 1], t);
    } else {
      RunReaches(c, n, log[..|log| - 1], |log| - 1);
      assert log[..|log| - 1][..|log| - 1] == log[..|log| - 1] && log[..t] == log;
      StepKeepsInv(c, Run(c, n, log[..|log| - 1]), log[|log| - 1], Run(c, n, log));
    }
  }

  lemma StepAt(h: History, t: nat)
    requires Possible(h) && t < |h.log|
    ensures Step(h.config, At(h, t), h.log[t], At(h, t + 1))
  {
    hide Inv, Enabled, Effect;
    var n := Begin(h.config, h.request, h.start, h.seen);
    BeginsInvariant(h.config, h.request, h.start, h.seen);
    RunReaches(h.config, n, h.log, t + 1);
    assert h.log[..t + 1][..t] == h.log[..t];
  }

  // ---- At most one dispatch ----------------------------------------------------------------

  /** Neither provider is started twice, and a continuation never starts both. */
  lemma AtMostOneStartEach(h: History, t: nat)
    requires Possible(h) && t <= |h.log|
    ensures At(h, t).desktopStarts <= 1 && At(h, t).standaloneStarts <= 1
    ensures At(h, t).request.Continue? ==> At(h, t).desktopStarts + At(h, t).standaloneStarts <= 1
  {
    hide ButtonsShut, Traced, WaitsCounted, PausesCounted, Possible, Legal;
    StartsOnly(At(h, t));
  }

  lemma StartsOnly(n: Negotiation)
    requires StartsCounted(n)
    ensures n.desktopStarts <= 1 && n.standaloneStarts <= 1
  {
  }

  /** The run's own evidence that Desktop failed before it could have dispatched anything. */
  ghost predicate BootstrapFailure(h: History, t: nat, i: nat)
    requires Possible(h) && t <= |h.log|
  {
    && i < t && At(h, i).phase.StartingDesktop?
    && h.log[i].action.ProviderReturns? && h.log[i].action.reply.Threw? && Bootstrap(h.log[i].action.reply.coded)
  }

  /** Desktop has been started and the standalone provider may be or has been. */
  ghost predicate FellBack(n: Negotiation) {
    n.desktopStarts == 1 && (n.phase.PreparingStandalone? || n.standaloneStarts == 1)
  }

  lemma FallingBackNeedsFailure(c: Config, n: Negotiation, m: Move, v: Negotiation)
    requires Inv(c, n) && Step(c, n, m, v) && FellBack(v) && !FellBack(n)
    ensures n.phase.StartingDesktop? && m.action.ProviderReturns? && m.action.reply.Threw? && Bootstrap(m.action.reply.coded)
  {
    hide ButtonsShut, Traced, WaitsCounted, PausesCounted, SetState;
    match m.action
    case PrepareReturns(p) => hide AfterWait, AfterChoice, AfterProvider, PollDesktop, PollChoice;
    case Wakes => hide AfterWait, AfterChoice, AfterProvider, AfterPrepare;
    case WaitReturns => hide AfterChoice, AfterProvider, AfterPrepare;
    case ChoiceReturns => hide AfterWait, AfterProvider, AfterPrepare;
    case ProviderReturns(r) => hide AfterWait, AfterChoice, AfterPrepare, PollDesktop, PollChoice;
    case _ => hide AfterWait, AfterChoice, AfterProvider, AfterPrepare, PollDesktop, PollChoice;
  }

  /** The work is handed to both providers only after Desktop failed with one of the five bootstrap codes. */
  lemma {:induction false} BothOnlyAfterBootstrapFailure(h: History, t: nat)
    requires Possible(h) && t <= |h.log| && FellBack(At(h, t))
    ensures exists i :: BootstrapFailure(h, t, i)
    decreases t
  {
    hide Inv, Step, Possible, Bootstrap;
    if t == 0 {
      NothingHasFallenBack(h);
    } else {
      StepAt(h, t - 1);
      if FellBack(At(h, t - 1)) {
        BothOnlyAfterBootstrapFailure(h, t - 1);
        var i :| BootstrapFailure(h, t - 1, i);
        assert BootstrapFailure(h, t, i);
      } else {
        FallingBackNeedsFailure(h.config, At(h, t - 1), h.log[t - 1], At(h, t));
        assert BootstrapFailure(h, t, t - 1);
      }
    }
  }

  lemma NothingHasFallenBack(h: History)
    requires Possible(h)
    ensures !FellBack(At(h, 0))
  {
    assert h.log[..0] == [];
  }

  // ---- Settled for good -----------------------------------------------------------------------

  /** What callers and users see. */
  predicate SameShown(n: Negotiation, v: Negotiation) {
    && v.state == n.state && v.source == n.source && v.reason == n.reason && v.actions == n.actions
    && v.code == n.code && v.trace == n.trace && v.desktopStarts == n.desktopStarts && v.standaloneStarts == n.standaloneStarts
  }

  lemma SettledStays(c: Config, n: Negotiation, m: Move, v: Negotiation)
    requires Inv(c, n) && Step(c, n, m, v) && n.phase.Settled?
    ensures v.phase == n.phase && SameShown(n, v) && m.action.Cleanup?
  {
    hide StartsCounted, Traced, WaitsCounted, PausesCounted, SetState, AfterPrepare, AfterWait, AfterChoice, AfterProvider, PollDesktop, PollChoice;
  }

  /** Once the start has settled, no click, reconnect or repeated call changes its outcome or its state. */
  lemma {:induction false} SettledIsFrozen(h: History, t: nat, u: nat)
    requires Possible(h) && t <= u <= |h.log| && At(h, t).phase.Settled?
    ensures At(h, u).phase == At(h, t).phase && SameShown(At(h, t), At(h, u))
    decreases u
  {
    hide Inv, Step, Possible, At;
    if t < u {
      SettledIsFrozen(h, t, u - 1);
      StepAt(h, u - 1);
      SettledStays(h.config, At(h, u - 1), h.log[u - 1], At(h, u));
    }
  }

  /** From the moment a negotiated start decides for a provider, clicks and reconnects are refused. */
  lemma DecidedIsClosed(h: History, t: nat)
    requires Possible(h) && t < |h.log| && !Undecided(At(h, t)) && !At(h, t).phase.Continuing?
    ensures h.log[t].action.ProviderReturns? || h.log[t].action.Cleanup?
  {
    StepAt(h, t);
    hide StartsCounted, Traced, WaitsCounted, PausesCounted, Effect, Possible, Legal;
  }

  // ---- The timeline ----------------------------------------------------------------------------

  /** The events of an execution are a connected path from nothing to the state it shows. */
  lemma TraceIsPath(h: History, t: nat, i: nat)
    requires Possible(h) && t <= |h.log|
    ensures At(h, t).trace != [] && At(h, t).trace[0].previous == None && At(h, t).trace[|At(h, t).trace| - 1].current == At(h, t).state
    ensures 0 < i < |At(h, t).trace| ==> At(h, t).trace[i].previous == Some(At(h, t).trace[i - 1].current)
  {
    hide StartsCounted, ButtonsShut, WaitsCounted, PausesCounted, Possible, Legal;
    assert Traced(At(h, t));
  }

  // ---- Waiting -----------------------------------------------------------------------------------

  lemma RoundsMultiply(c: Config, k: nat)
    ensures Round(c) + Rounds(c, k) == (1 + k) * (c.desktopTimeout + c.fallbackTimeout)
  {
  }

  lemma WaitedWithin(c: Config, n: Negotiation)
    requires WaitsCounted(c, n)
    ensures n.waited <= Round(c) + Rounds(c, n.rechecks)
  {
  }

  /** The waits asked for add up to at most the two timeouts, once per round a user asked for. */
  lemma WaitsAreBounded(h: History, t: nat)
    requires Possible(h) && t <= |h.log|
    ensures At(h, t).waited <= (1 + At(h, t).rechecks) * (h.config.desktopTimeout + h.config.fallbackTimeout)
    ensures At(h, t).rechecks == 0 ==> At(h, t).waited <= h.config.desktopTimeout + h.config.fallbackTimeout
  {
    hide StartsCounted, ButtonsShut, Traced, WaitsCounted, PausesCounted, Possible, At, Round, Rounds;
    RoundsMultiply(h.config, At(h, t).rechecks);
    WaitedWithin(h.config, At(h, t));
  }

  lemma TimesMultiplies(pauses: nat, poll: nat)
    ensures Times(pauses, poll) == pauses * poll
  {
  }

  lemma LongRoundsMultiply(c: Config, k: nat)
    ensures LongRound(c) + LongRounds(c, k) == (1 + k) * (c.desktopTimeout + c.fallbackTimeout + 2 * c.poll)
  {
  }

  lemma PausedWithin(c: Config, n: Negotiation)
    requires PausesCounted(c, n)
    ensures Times(n.pauses, c.poll) <= LongRound(c) + LongRounds(c, n.rechecks)
  {
  }

  /** And they are few: in each round at most the two timeouts divided by the poll interval, plus two. */
  lemma PausesAreBounded(h: History, t: nat)
    requires Possible(h) && t <= |h.log|
    ensures At(h, t).pauses * h.config.poll
            <= (1 + At(h, t).rechecks) * (h.config.desktopTimeout + h.config.fallbackTimeout + 2 * h.config.poll)
  {
    hide StartsCounted, ButtonsShut, Traced, WaitsCounted, PausesCounted, Possible, At, LongRound, LongRounds, Times;
    TimesMultiplies(At(h, t).pauses, h.config.poll);
    LongRoundsMultiply(h.config, At(h, t).rechecks);
    PausedWithin(h.config, At(h, t));
  }

  // ---- The user's choice -------------------------------------------------------------------------

  /** A click on "standalone" that is still to be seen, or has been seen, by code that will act on it. */
  ghost predicate Honoured(n: Negotiation) {
    || n.phase == Waited(Selected)
    || (n.phase.Chosen? && n.phase.choice.TakeStandalone?)
    || (n.requested == Some(SelectStandalone) && n.state.FallbackReady?
        && (n.phase.Polling? || n.phase.Choosing? || n.phase == Chosen(TryDesktop) || n.phase == Waited(Rechecked)
            || (n.phase.Waited? && n.phase.result.Unready?)))
  }

  lemma HonouredStays(c: Config, n: Negotiation, m: Move, v: Negotiation)
    requires Honoured(n) && Step(c, n, m, v) && !m.action.ClickRecheck?
    ensures Honoured(v) || v.phase.PreparingStandalone?
  {
    hide Traced, SetState;
    match m.action
    case Wakes => hide AfterWait, AfterChoice, AfterProvider, AfterPrepare;
    case WaitReturns => hide AfterChoice, AfterProvider, AfterPrepare;
    case ChoiceReturns => hide AfterWait, AfterProvider, AfterPrepare;
    case _ => hide AfterWait, AfterChoice, AfterProvider, AfterPrepare, PollDesktop, PollChoice;
  }

  /** Once `waitForDesktop` has answered "ready", no click or reconnect keeps Desktop from being started. */
  lemma ReadyStays(c: Config, n: Negotiation, m: Move, v: Negotiation)
    requires n.phase == Waited(Ready) && Step(c, n, m, v)
    ensures v.phase == if m.action.WaitReturns? then StartingDesktop else n.phase
  {
    hide Traced, SetState, AfterChoice, AfterProvider, AfterPrepare, PollDesktop, PollChoice;
  }

  /** What a click finds: only code that is waiting for a preparation, or about to start Desktop, may not honour it. */
  lemma ClickIsHeard(c: Config, n: Negotiation, m: Move, v: Negotiation)
    requires Undecided(n) && Step(c, n, m, v) && m.action.ClickStandalone?
    ensures v.phase == n.phase && v.requested == Some(SelectStandalone) && v.state.FallbackReady? && v.actions == {Recheck}
    ensures Honoured(v) || v.phase.Preparing? || v.phase == Waited(Ready)
  {
    hide Traced, SetState;
  }

  /** A click during a preparation is followed by the preparation's return, unless "recheck" comes first. */
  lemma PreparationDecides(c: Config, n: Negotiation, m: Move, v: Negotiation)
    requires n.phase.Preparing? && n.requested == Some(SelectStandalone) && n.state.FallbackReady? && n.actions == {Recheck}
    requires Step(c, n, m, v) && !m.action.ClickRecheck?
    ensures m.action.PrepareReturns?
    ensures if m.action.preparation.PreparedReady? then v.phase == Waited(Ready) else Honoured(v)
  {
    hide Traced, SetState, AfterWait, AfterChoice, AfterProvider, PollDesktop, PollChoice;
  }

  /** From the click at `i` up to `j` no recheck is clicked and no provider is decided for. */
  ghost predicate AwaitsDecision(h: History, i: nat, j: nat)
    requires Possible(h) && i < j <= |h.log|
  {
    && h.log[i].action.ClickStandalone?
    && (forall k | i < k < j :: !h.log[k].action.ClickRecheck?)
    && (forall k: nat | i <= k < j :: Undecided(At(h, k)))
  }

  lemma {:induction false} HonouredUntilDecided(h: History, i: nat, k: nat, j: nat)
    requires Possible(h) && i < k <= j <= |h.log| && AwaitsDecision(h, i, j) && Honoured(At(h, k))
    ensures Honoured(At(h, j)) || At(h, j).phase.PreparingStandalone?
    decreases j - k
  {
    hide Honoured, Possible, Step, At, Inv;
    if k < j {
      StepAt(h, k);
      HonouredStays(h.config, At(h, k), h.log[k], At(h, k + 1));
      if k + 1 < j {
        NotYet(At(h, k + 1));
        HonouredUntilDecided(h, i, k + 1, j);
      }
    }
  }

  lemma NotYet(n: Negotiation)
    requires Undecided(n)
    ensures !n.phase.PreparingStandalone?
  {
  }

  lemma {:induction false} ReadyUntilDecided(h: History, i: nat, k: nat, j: nat)
    requires Possible(h) && i <= k <= j <= |h.log| && i < j && AwaitsDecision(h, i, j) && At(h, k).phase == Waited(Ready)
    ensures At(h, j).phase == Waited(Ready) || At(h, j).phase.StartingDesktop?
    decreases j - k
  {
    hide Possible, Step, At, Inv;
    if k < j {
      StepAt(h, k);
      ReadyStays(h.config, At(h, k), h.log[k], At(h, k + 1));
      if k + 1 < j {
        assert Undecided(At(h, k + 1));
        ReadyUntilDecided(h, i, k + 1, j);
      }
    }
  }

  /** Desktop had come back ready when the user clicked, or is the next thing to do so. */
  ghost predicate DesktopWins(h: History, i: nat)
    requires Possible(h) && i < |h.log|
  {
    || At(h, i).phase == Waited(Ready)
    || (At(h, i).phase.Preparing? && i + 1 < |h.log| && h.log[i + 1].action == PrepareReturns(PreparedReady))
  }

  /**
   The decision after any accepted click on "standalone", unless "recheck" is clicked first, is for the
   standalone provider, with one exception: Desktop is started if and only if `waitForDesktop` has already
   answered "ready" at the click, or is waiting for a preparation that then comes back ready.
   */
  lemma SelectionLosesToReadyDesktop(h: History, i: nat, j: nat)
    requires Possible(h) && i < j <= |h.log| && AwaitsDecision(h, i, j) && !Undecided(At(h, j))
    ensures At(h, j).phase.StartingDesktop? <==> DesktopWins(h, i)
    ensures At(h, j).phase.PreparingStandalone? <==> !DesktopWins(h, i)
  {
    StepAt(h, i);
    hide Possible, Step, At, Inv, Honoured, AwaitsDecision;
    assert Undecided(At(h, i)) && h.log[i].action.ClickStandalone? by { ClickedUndecided(h, i, j); }
    ClickIsHeard(h.config, At(h, i), h.log[i], At(h, i + 1));
    if i + 1 == j {
      assert false;
    } else if At(h, i).phase == Waited(Ready) {
      ReadyUntilDecided(h, i, i, j);
    } else if At(h, i).phase.Preparing? {
      StepAt(h, i + 1);
      NoRecheck(h, i, j, i + 1);
      PreparationDecides(h.config, At(h, i + 1), h.log[i + 1], At(h, i + 2));
      if h.log[i + 1].action.preparation.PreparedReady? {
        ReadyUntilDecided(h, i, i + 2, j);
      } else {
        HonouredUntilDecided(h, i, i + 2, j);
        HonouredIsUndecided(At(h, j));
      }
    } else {
      HonouredUntilDecided(h, i, i + 1, j);
      HonouredIsUndecided(At(h, j));
    }
  }

  lemma ClickedUndecided(h: History, i: nat, j: nat)
    requires Possible(h) && i < j <= |h.log| && AwaitsDecision(h, i, j)
    ensures Undecided(At(h, i)) && h.log[i].action.ClickStandalone?
  {
    hide Possible, At;
  }

  lemma NoRecheck(h: History, i: nat, j: nat, k: nat)
    requires Possible(h) && i < k < j <= |h.log| && AwaitsDecision(h, i, j)
    ensures !h.log[k].action.ClickRecheck?
  {
    hide Possible, At;
  }

  lemma HonouredIsUndecided(n: Negotiation)
    ensures Honoured(n) ==> Undecided(n)
  {
  }

  /** A continuation has its provider already: a click is accepted and changes nothing about it. */
  lemma ContinuationIgnoresClicks(c: Config, n: Negotiation, m: Move, v: Negotiation)
    requires n.phase.Continuing? && Step(c, n, m, v)
    ensures v.phase == n.phase
            || (v.phase.Settled? && m.action.ProviderReturns? && v.phase.outcome.provider == n.phase.backend)
    ensures v.desktopStarts == n.desktopStarts && v.standaloneStarts == n.standaloneStarts
  {
    hide Traced, SetState, AfterWait, AfterChoice, AfterPrepare, PollDesktop, PollChoice;
  }

  /** Both ways to lose: the click just before Desktop comes back ready, and the click just after. */
  function ClickThenReady(): seq<Move> {
    [Move(0, None, ClickStandalone), Move(0, None, PrepareReturns(PreparedReady)), Move(0, None, WaitReturns)]
  }

  function ReadyThenClick(): seq<Move> {
    [Move(0, None, PrepareReturns(PreparedReady)), Move(0, None, ClickStandalone), Move(0, None, WaitReturns)]
  }

  lemma ClickedAndDesktopStarted(c: Config, log: seq<Move>)
    requires log == ClickThenReady() || log == ReadyThenClick()
    ensures var n := Begin(c, Negotiate, 0, None); Legal(c, n, log) && Run(c, n, log).phase.StartingDesktop?
  {
    var n := Begin(c, Negotiate, 0, None);
    ThreeMoves(c, n, log[0], log[1], log[2]);
    assert [log[0], log[1], log[2]] == log;
  }

  lemma ThreeMoves(c: Config, n: Negotiation, a: Move, b: Move, d: Move)
    requires Enabled(n, a) && Enabled(Effect(c, n, a), b) && Enabled(Effect(c, Effect(c, n, a), b), d)
    ensures Legal(c, n, [a, b, d]) && Run(c, n, [a, b, d]) == Effect(c, Effect(c, Effect(c, n, a), b), d)
  {
    NothingYet(c, n);
    hide Legal, Run, Enabled, Effect;
    Extend(c, n, [], a);
    Extend(c, n, [] + [a], b);
    Extend(c, n, [] + [a] + [b], d);
    assert [] + [a] + [b] + [d] == [a, b, d];
  }

  lemma NothingYet(c: Config, n: Negotiation)
    ensures Legal(c, n, []) && Run(c, n, []) == n
  {
  }
}
