/**
 Who may use which workspace, and the one time the migration decides it: as long as neither its marker nor
 a grants file exists. Every write may fail.
 */
module WorkspaceGrants {
  import opened Options
  import opened Tokens
  import opened Migration

  type Grant = (string, string)

  /** `reload`: a file that cannot be read grants nothing. */
  function Granted(f: File<set<Grant>>): set<Grant> { if f.Holds? then f.content else {} }

  /** `grant`: refused on an unreadable file; a grant that exists is not written again. */
  function GrantIn(f: File<set<Grant>>, g: Grant, saved: bool): File<set<Grant>> {
    if f.Corrupt? || g in Granted(f) || !saved then f else Holds(Granted(f) + {g})
  }

  function RevokeIn(f: File<set<Grant>>, g: Grant, saved: bool): File<set<Grant>> {
    if f.Corrupt? || g !in Granted(f) || !saved then f else Holds(Granted(f) - {g})
  }

  /** What a run of the migration is given, and which of its writes the file system takes. */
  datatype Run = Run(present: seq<string>, active: Option<string>, applyGrants: bool, applyCredentials: bool, now: int,
                     clientsSaved: bool, tokensSaved: bool, refused: set<string>, markerSaved: bool)

  predicate Used(d: Disk, workspace: string, now: int) {
    Usable(d, workspace) && (ClientsOf(d, workspace) != map[] || TokensOf(d, workspace, now) != map[])
  }

  predicate HasTokens(d: Disk, workspace: string, now: int) {
    var t := ReadTokens(Scoped(d, workspace), now);
    t.Some? && t.value != map[]
  }

  /** The single global token set of old was valid for the workspace that was active. */
  predicate ActiveInherits(d: Disk, o: Run) {
    && (BaseClients(d) != map[] || BaseTokens(d, o.now) != map[])
    && o.active.Some? && o.active.value in o.present
    && forall w | w in o.present :: !HasTokens(d, w, o.now)
  }

  function Derived(d: Disk, o: Run): set<string> {
    (set w | w in o.present && Used(d, w, o.now)) + if ActiveInherits(d, o) then {o.active.value} else {}
  }

  function Owned(workspaces: set<string>): set<Grant> { set w | w in workspaces :: (OWNER, w) }

  /** The credentials: clients are written first, so they may be replaced although the tokens are not. */
  function CredentialsAfter(d: Disk, o: Run): Place {
    if !Changed(d, o.present, o.now) || !o.applyCredentials || !o.clientsSaved then d.instance
    else if !o.tokensSaved then d.instance.(clients := Migrated(d, o.present, o.now).instance.clients)
    else Migrated(d, o.present, o.now).instance
  }

  function GrantsAfter(d: Disk, o: Run): File<set<Grant>> {
    var given := Derived(d, o) - o.refused;
    if d.marker || !o.applyGrants || !d.grants.Absent? || given == {} then d.grants else Holds(Owned(given))
  }

  function MarkerAfter(d: Disk, o: Run): bool {
    d.marker || (o.applyGrants && o.markerSaved && !d.grants.Corrupt? && (d.grants.Absent? ==> Derived(d, o) !! o.refused))
  }

  function AfterRun(d: Disk, o: Run): Disk {
    Disk(CredentialsAfter(d, o), d.workspaces, GrantsAfter(d, o), MarkerAfter(d, o))
  }

  // ---- Histories ----------------------------------------------------------------------------------

  datatype Event =
    | Migrates(run: Run)
    | Grants(subject: string, workspace: string, saved: bool)
    | Revokes(subject: string, workspace: string, saved: bool)

  function After(d: Disk, e: Event): Disk {
    match e
    case Migrates(o) => AfterRun(d, o)
    case Grants(s, w, saved) => d.(grants := GrantIn(d.grants, (s, w), saved))
    case Revokes(s, w, saved) => d.(grants := RevokeIn(d.grants, (s, w), saved))
  }

  function AfterAll(d: Disk, events: seq<Event>): Disk {
    if events == [] then d else After(AfterAll(d, events[..|events| - 1]), events[|events| - 1])
  }

  /** The migration has decided: nothing is derived any more. */
  predicate Decided(d: Disk) { d.marker || !d.grants.Absent? }

  /** Once decided, always decided, and no run of the migration changes a grant. */
  lemma {:induction false} DecidedForGood(d: Disk, events: seq<Event>, o: Run)
    requires Decided(d)
    ensures Decided(AfterAll(d, events))
    ensures AfterRun(AfterAll(d, events), o).grants == AfterAll(d, events).grants
  {
    RunStaysDecided(AfterAll(d, []), o);
    if events != [] {
      DecidedForGood(d, events[..|events| - 1], o);
      hide AfterRun, Derived, CredentialsAfter;
      match events[|events| - 1]
      case Migrates(run) =>
        RunStaysDecided(AfterAll(d, events[..|events| - 1]), run);
      case _ =>
    }
  }

  lemma RunStaysDecided(d: Disk, o: Run)
    requires Decided(d)
    ensures Decided(AfterRun(d, o)) && AfterRun(d, o).grants == d.grants
  {
  }

  /**
   An access that is not there, a revoked one in particular, comes back after the decision only by somebody
   granting it: over every sequence of runs, grants and revocations, failed writes included.
   */
  lemma {:induction false} RevocationStays(d: Disk, events: seq<Event>, g: Grant)
    requires Decided(d) && g !in Granted(d.grants)
    requires forall e | e in events && e.Grants? :: (e.subject, e.workspace) != g
    ensures g !in Granted(AfterAll(d, events).grants)
  {
    if events != [] {
      var front, last := events[..|events| - 1], events[|events| - 1];
      RevocationStays(d, front, g);
      assert last in events;
      if last.Migrates? {
        DecidedForGood(d, front, last.run);
      }
    }
  }

  /**
   A derived grant whose write was refused is derived again by the next run exactly if none of the others was
   written either: one written grant, and the rest are forgotten.
   */
  lemma RefusedGrantIsRetried(d: Disk, o: Run, workspace: string)
    requires !Decided(d) && o.applyGrants && workspace in Derived(d, o) && workspace in o.refused
    ensures !Decided(AfterRun(d, o)) <==> Derived(d, o) <= o.refused
    ensures (OWNER, workspace) !in Granted(AfterRun(d, o).grants)
  {
    hide Derived, CredentialsAfter;
    var derived := Derived(d, o);
    assert derived <= o.refused + (derived - o.refused);
  }

  lemma {:induction false} ForgottenGrantStaysForgotten(d: Disk, o: Run, workspace: string, events: seq<Event>)
    requires !Decided(d) && o.applyGrants && workspace in Derived(d, o) && workspace in o.refused
    requires !(Derived(d, o) <= o.refused)
    requires forall e | e in events && e.Grants? :: (e.subject, e.workspace) != (OWNER, workspace)
    ensures (OWNER, workspace) !in Granted(AfterAll(AfterRun(d, o), events).grants)
  {
    RefusedGrantIsRetried(d, o, workspace);
    RevocationStays(AfterRun(d, o), events, (OWNER, workspace));
  }

  /** A first run whose writes succeed grants the owner exactly the workspaces derived, and decides. */
  lemma FirstRunGrantsDerived(d: Disk, o: Run)
    requires !Decided(d) && o.applyGrants && o.refused == {} && o.markerSaved
    ensures var v := AfterRun(d, o);
            && v.marker && Granted(v.grants) == Owned(Derived(d, o))
            && forall w :: (OWNER, w) in Granted(v.grants) <==> w in Derived(d, o)
  {
    hide Derived, CredentialsAfter;
    assert Derived(d, o) - {} == Derived(d, o);
  }
}
