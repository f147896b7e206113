/** What holds in every run of the delivery lease protocol, from installation on. */
module LeaseRuns {
  import opened LeaseProtocol

  lemma StepKeepsInv(w: System, a: Action, v: System)
    requires Inv(w) && Step(w, a, v)
    ensures Inv(v)
  {
    ImageKept(w, a, v);
    LeasesAccountedKept(w, a, v);
    AcksUniqueKept(w, a, v);
    ClicksHonouredKept(w, a, v);
    PollOwnsKept(w, a, v);
    PollsDistinctKept(w, a, v);
    PollClicksKept(w, a, v);
    PollAcksKept(w, a, v);
    hide Step, ImageInv, LeasesAccounted, AcksUnique, ClicksHonoured, PollOwns, PollsDistinct, PollClicks, PollAcks;
  }

  /** The system after the first `i` actions of a run from installation. */
  ghost function At(log: seq<Action>, i: nat): (w: System)
    requires Legal(INSTALLED, log) && i <= |log|
    ensures Inv(w)
  {
    RunReaches(log, i);
    Run(INSTALLED, log[..i])
  }

  lemma {:induction false} RunReaches(log: seq<Action>, i: nat)
    requires Legal(INSTALLED, log) && i <= |log|
    ensures Legal(INSTALLED, log[..i]) && Inv(Run(INSTALLED, log[..i]))
    decreases |log|
  {
    hide Inv, Enabled, Effect;
    if log == [] {
      InstalledIsInvariant();
    } else if i < |log| {
      assert log[..|log| - 1][..i] == log[..i];
      RunReaches(log[..|log| - 1], i);
    } else {
      RunReaches(log[..|log| - 1], |log| - 1);
      assert log[..|log| - 1][..|log| - 1] == log[..|log| - 1] && log[..i] == log;
      StepKeepsInv(Run(INSTALLED, log[..|log| - 1]), log[|log| - 1], Run(INSTALLED, log));
    }
  }

  lemma InstalledIsInvariant()
    ensures Inv(INSTALLED)
  {
  }

  lemma PostedIsStored(w: System, a: Action, v: System)
    requires Inv(w) && Step(w, a, v) && a.PostAck?
    ensures a.ack in v.posted && a.ack.lease in v.acked && v.acked[a.ack.lease] == a.ack
  {
    hide LeasesAccounted, ClicksHonoured, PollInv;
  }

  lemma ArmStores(w: System, a: Action, v: System)
    requires Inv(w) && Step(w, a, v) && a.Arm?
    ensures a.entry.(submitting := true) in v.image.inFlight
  {
    hide LeaseInv, PollInv;
    var k :| 0 <= k < |w.memory.inFlight| && w.memory.inFlight[k] == a.entry;
    assert MarkSubmitting(w.memory.inFlight, a.entry.delivery)[k] == a.entry.(submitting := true);
  }

  lemma StepAt(log: seq<Action>, i: nat)
    requires Legal(INSTALLED, log) && i < |log|
    ensures Step(At(log, i), log[i], At(log, i + 1))
  {
    hide Inv, Enabled, Effect;
    RunReaches(log, i + 1);
    assert log[..i + 1][..i] == log[..i];
  }

  /** What has been armed, clicked, acknowledged, posted or taken stays so. */
  ghost predicate Grown(w: System, v: System) {
    && w.armed <= v.armed && w.clicked <= v.clicked && w.posted <= v.posted && w.taken <= v.taken
    && (forall l | l in w.acked :: l in v.acked && v.acked[l] == w.acked[l])
  }

  lemma StepGrows(w: System, a: Action, v: System)
    requires Inv(w) && Step(w, a, v)
    ensures Grown(w, v)
  {
    hide PollOwns, PollsDistinct, PollClicks, PollAcks, AcksUnique, ClicksHonoured;
  }

  lemma {:induction false} RunGrows(log: seq<Action>, i: nat, j: nat)
    requires Legal(INSTALLED, log) && i <= j <= |log|
    ensures Grown(At(log, i), At(log, j))
    decreases j
  {
    hide Inv, Step;
    if i < j {
      RunGrows(log, i, j - 1);
      StepAt(log, j - 1);
      StepGrows(At(log, j - 1), log[j - 1], At(log, j));
    }
  }

  /** The click spends the lease its page was armed with. */
  predicate Spends(w: System, a: Action, lease: nat) {
    a.Click? && PollOf(w, a.page).Armed? && PollOf(w, a.page).lease == lease
  }

  lemma ClickSpends(w: System, a: Action, v: System, lease: nat)
    requires Step(w, a, v) && Spends(w, a, lease)
    ensures lease in v.clicked
  {
  }

  // ---- Clicks ---------------------------------------------------------------------------

  lemma NothingAtInstallation(log: seq<Action>)
    requires Legal(INSTALLED, log)
    ensures At(log, 0).armed == {} && At(log, 0).posted == {} && At(log, 0).taken == {}
  {
    assert log[..0] == [];
  }

  lemma ArmedNow(w: System, a: Action, v: System, lease: nat)
    requires Step(w, a, v) && lease in v.armed && lease !in w.armed
    ensures a.Arm? && a.entry.lease == lease
  {
  }

  /** An armed lease was stored as submitting by some earlier action. */
  lemma {:induction false} ArmedWasStored(log: seq<Action>, j: nat, lease: nat) returns (i: nat)
    requires Legal(INSTALLED, log) && j <= |log| && lease in At(log, j).armed
    ensures i < j && log[i].Arm? && log[i].entry.lease == lease
    decreases j
  {
    hide *;
    NothingAtInstallation(log);
    StepAt(log, j - 1);
    if lease in At(log, j - 1).armed {
      i := ArmedWasStored(log, j - 1, lease);
    } else {
      ArmedNow(At(log, j - 1), log[j - 1], At(log, j), lease);
      i := j - 1;
    }
  }

  /**
   Every click comes after the lease it spends was stored as submitting, and at every later time that
   entry is still stored or its acknowledgement, which does not say "not sent", is stored or was taken by the bridge.
   */
  lemma ClickedIsAccounted(log: seq<Action>, c: nat, t: nat) returns (i: nat)
    requires Legal(INSTALLED, log) && c < t <= |log| && log[c].Click?
    ensures i < c && log[i].Arm? && Spends(At(log, c), log[c], log[i].entry.lease)
    ensures log[i].entry.(submitting := true) in At(log, i + 1).image.inFlight
    ensures var lease, v := log[i].entry.lease, At(log, t);
            || (exists e :: e in v.image.inFlight && e.lease == lease && e.submitting)
            || (lease in v.acked && !v.acked[lease].status.NotSent? &&
                (v.acked[lease] in v.image.outbox || v.acked[lease] in v.taken))
  {
    hide *;
    StepAt(log, c);
    RunGrows(log, c + 1, t);
    ClickIsOfArmed(At(log, c), log[c], At(log, c + 1), At(log, t));
    var lease := PollOf(At(log, c), log[c].page).lease;
    i := ArmedWasStored(log, c, lease);
    StepAt(log, i);
    ArmStores(At(log, i), log[i], At(log, i + 1));
    ClickedHasEntryOrAck(At(log, t), lease);
  }

  lemma ClickIsOfArmed(w: System, a: Action, v: System, later: System)
    requires Inv(w) && Step(w, a, v) && a.Click? && Grown(v, later)
    ensures PollOf(w, a.page).Armed? && PollOf(w, a.page).lease in w.armed && PollOf(w, a.page).lease in later.clicked
    ensures Spends(w, a, PollOf(w, a.page).lease)
  {
    hide ImageInv, LeaseInv, PollOwns, PollsDistinct, PollAcks;
  }

  lemma ClickedHasEntryOrAck(v: System, lease: nat)
    requires Inv(v) && lease in v.clicked
    ensures || (exists e :: e in v.image.inFlight && e.lease == lease && e.submitting)
            || (lease in v.acked && !v.acked[lease].status.NotSent? &&
                (v.acked[lease] in v.image.outbox || v.acked[lease] in v.taken))
  {
    hide ImageInv, PollInv;
  }

  /** A stored submitting entry leaves the in-flight list only as an acknowledgement in the outbox. */
  lemma SubmittingLeavesAsAck(w: System, a: Action, v: System, e: Entry)
    requires Inv(w) && Step(w, a, v) && e in w.image.inFlight && e.submitting
    ensures e in v.image.inFlight ||
            exists k :: k in v.image.outbox && k !in w.image.outbox && k.lease == e.lease
                        && k.delivery == e.delivery && k.page == e.page
  {
    hide PollInv;
    if a.ExpireSubmitting? {
      assert AckFor(a.entry, LOST) in v.image.outbox;
    } else if a.QueueAck? {
      assert AckFor(a.entry, PollOf(w, a.page).status) in v.image.outbox;
    } else if a.Arm? {
      var k :| 0 <= k < |w.image.inFlight| && w.image.inFlight[k] == e;
      assert v.image.inFlight[k] == e;
    }
  }

  // ---- What the bridge sees ----------------------------------------------------------------

  /** All acknowledgements posted for one lease are the same, however often the worker restarts. */
  lemma PostedAcksAgree(log: seq<Action>, i: nat, j: nat)
    requires Legal(INSTALLED, log) && i <= j < |log| && log[i].PostAck? && log[j].PostAck?
    requires log[i].ack.lease == log[j].ack.lease
    ensures log[i].ack == log[j].ack
  {
    hide At, Legal, Step, Inv;
    StepAt(log, i);
    StepAt(log, j);
    PostedIsStored(At(log, i), log[i], At(log, i + 1));
    PostedIsStored(At(log, j), log[j], At(log, j + 1));
    RunGrows(log, i + 1, j + 1);
  }

  /** The lease of a click, before or after it, is never reported to the bridge as not sent. */
  lemma ClickedIsNeverNotSent(log: seq<Action>, c: nat, i: nat)
    requires Legal(INSTALLED, log) && c < |log| && i < |log| && log[c].Click? && log[i].PostAck?
    requires Spends(At(log, c), log[c], log[i].ack.lease)
    ensures !log[i].ack.status.NotSent?
  {
    hide At, Legal, Step, Spends, PollInv, LeasesAccounted, AcksUnique;
    StepAt(log, c);
    StepAt(log, i);
    ClickSpends(At(log, c), log[c], At(log, c + 1), log[i].ack.lease);
    PostedIsStored(At(log, i), log[i], At(log, i + 1));
    RunGrows(log, c + 1, |log|);
    RunGrows(log, i + 1, |log|);
  }

  /**
   A claim is posted only when nothing is in flight and nothing waits to be acknowledged; every lease
   armed until then has had its acknowledgement taken by the bridge.
   */
  lemma ClaimsArePostedAlone(log: seq<Action>, i: nat)
    requires Legal(INSTALLED, log) && i < |log| && log[i].PostClaim?
    ensures At(log, i).image == Image([], [])
    ensures forall l | l in At(log, i).armed :: l in At(log, i).acked && At(log, i).acked[l] in At(log, i).taken
  {
    StepAt(log, i);
    hide PollInv;
  }

  lemma TakenNow(w: System, a: Action, v: System, k: Ack)
    requires Step(w, a, v) && k in v.taken && k !in w.taken
    ensures a == BridgeTakes(k) && k in w.posted
  {
  }

  lemma PostedNow(w: System, a: Action, v: System, k: Ack)
    requires Inv(w) && Step(w, a, v) && k in v.posted && k !in w.posted
    ensures a == PostAck(k) && k in w.image.outbox
  {
    hide LeaseInv, PollInv;
  }

  lemma {:induction false} PostedByWorker(log: seq<Action>, j: nat, k: Ack) returns (i: nat)
    requires Legal(INSTALLED, log) && j <= |log| && k in At(log, j).posted
    ensures i < j && log[i] == PostAck(k) && k in At(log, i).image.outbox
    decreases j
  {
    hide *;
    NothingAtInstallation(log);
    StepAt(log, j - 1);
    if k in At(log, j - 1).posted {
      i := PostedByWorker(log, j - 1, k);
    } else {
      PostedNow(At(log, j - 1), log[j - 1], At(log, j), k);
      i := j - 1;
    }
  }

  lemma {:induction false} TakenByBridge(log: seq<Action>, j: nat, k: Ack) returns (i: nat, b: nat)
    requires Legal(INSTALLED, log) && j <= |log| && k in At(log, j).taken
    ensures i < b < j && log[i] == PostAck(k) && log[b] == BridgeTakes(k)
    decreases j
  {
    hide *;
    NothingAtInstallation(log);
    StepAt(log, j - 1);
    if k in At(log, j - 1).taken {
      i, b := TakenByBridge(log, j - 1, k);
    } else {
      TakenNow(At(log, j - 1), log[j - 1], At(log, j), k);
      i := PostedByWorker(log, j - 1, k);
      b := j - 1;
    }
  }

  /** A stored acknowledgement is gone only after it was posted and the bridge then took it. */
  lemma AcksStayUntilTaken(log: seq<Action>, s: nat, t: nat, k: Ack) returns (i: nat, b: nat)
    requires Legal(INSTALLED, log) && s <= t <= |log| && k in At(log, s).image.outbox && k !in At(log, t).image.outbox
    ensures i < b < t && log[i] == PostAck(k) && log[b] == BridgeTakes(k)
  {
    RunGrows(log, s, t);
    assert k in At(log, t).taken by { hide PollInv, LeasesAccounted, ClicksHonoured, ImageInv, Legal; }
    hide At, Legal;
    i, b := TakenByBridge(log, t, k);
  }

  // ---- Crashes and the stored image -----------------------------------------------------------

  /** At most one lease or acknowledgement is ever stored, so the caps of the commit drop nothing. */
  lemma CapsNeverDrop(log: seq<Action>, t: nat)
    requires Legal(INSTALLED, log) && t <= |log|
    ensures |At(log, t).image.outbox| + |At(log, t).image.inFlight| <= 1
    ensures t < |log| && log[t].CommitClaim? ==> |At(log, t + 1).image.inFlight| == 1
    ensures t < |log| && (log[t].QueueAck? || log[t].ExpireSubmitting?) ==> |At(log, t + 1).image.outbox| == 1
  {
    if t < |log| {
      StepAt(log, t);
    }
    hide LeaseInv, PollInv;
  }

  predicate HasText(s: Status) {
    match s
    case Sent(m) => m != ""
    case NotSent(e) => e != ""
    case Ambiguous(e) => e != ""
  }

  /** An acknowledgement queued by this action carries a text. */
  predicate ReportsText(w: System, a: Action) {
    a.QueueAck? ==> PollOf(w, a.page).Answering? && HasText(PollOf(w, a.page).status)
  }

  /** Queueing an acknowledgement stores an image the next start accepts exactly if its text is not empty. */
  lemma QueuedImageLoads(w: System, p: Page, e: Entry)
    requires Inv(w) && Enabled(w, QueueAck(p, e))
    ensures Loads(Effect(w, QueueAck(p, e)).image) <==> HasText(PollOf(w, p).status)
  {
    hide LeaseInv, PollInv, Loads;
    assert Effect(w, QueueAck(p, e)).image.outbox == [AckFor(e, PollOf(w, p).status)];
    assert Effect(w, QueueAck(p, e)).image.inFlight == [];
    SingleAckLoads(e, PollOf(w, p).status);
  }

  lemma SingleAckLoads(e: Entry, s: Status)
    ensures Loads(Image([AckFor(e, s)], [])) <==> HasText(s)
  {
    assert AckFor(e, s) in [AckFor(e, s)];
  }

  lemma StepKeepsLoading(w: System, a: Action, v: System)
    requires Inv(w) && Step(w, a, v) && Loads(w.image)
    requires ReportsText(w, a)
    ensures Loads(v.image)
  {
    hide LeaseInv, PollInv;
    if a.QueueAck? {
      QueuedImageLoads(w, a.page, a.entry);
    } else if a.ExpireSubmitting? {
      assert v.image.outbox == [AckFor(a.entry, LOST)] && v.image.inFlight == [];
    } else if a.CommitClaim? {
      assert |v.image.inFlight| == 1 && v.image.outbox == [];
    } else if a.Arm? {
      assert |v.image.inFlight| == 1 && v.image.outbox == [];
    } else if a.DropAck? {
      assert forall k | k in v.image.outbox :: k in w.image.outbox;
    }
  }

  /**
   As long as every acknowledgement queued so far carried a text, which the page's own messages do,
   the stored image always loads and recovery is never blocked.
   */
  lemma {:induction false} RecoveryNeverBlocks(log: seq<Action>, t: nat)
    requires Legal(INSTALLED, log) && t <= |log|
    requires forall i | 0 <= i < t :: ReportsText(At(log, i), log[i])
    ensures Loads(At(log, t).image) && (At(log, t).memory.Alive? ==> !At(log, t).memory.blocked)
    decreases t
  {
    if t == 0 {
      assert log[..0] == [];
    } else {
      RecoveryNeverBlocks(log, t - 1);
      StepAt(log, t - 1);
      StepKeepsLoading(At(log, t - 1), log[t - 1], At(log, t));
      hide Step, LeaseInv, PollInv, Loads;
    }
  }

  /** Once a start has found the image malformed no action repairs it: recovery stays blocked. */
  lemma {:induction false} BlockedIsForever(w: System, log: seq<Action>)
    requires !Loads(w.image) && !Working(w) && Legal(w, log)
    ensures Run(w, log).image == w.image && !Working(Run(w, log))
  {
    hide Loads;
    if log != [] {
      BlockedIsForever(w, log[..|log| - 1]);
    }
  }

  /** The page's report is accepted and stored although its text is empty. */
  lemma EmptyTextIsStored(p: Page)
    ensures var log := [Wake, CommitClaim(p, "d", 1, true), Answer(p, NotSent("")), QueueAck(p, Entry(0, "d", p, 1, false))];
            Legal(INSTALLED, log) && AckFor(Entry(0, "d", p, 1, false), NotSent("")) in Run(INSTALLED, log).image.outbox
  {
    hide *;
    var e := Entry(0, "d", p, 1, false);
    var a, b, c, d := Wake, CommitClaim(p, "d", 1, true), Answer(p, NotSent("")), QueueAck(p, e);
    ClaimAfterWaking(p);
    var claimed := Effect(Effect(INSTALLED, a), b);
    EmptyTextIsQueued(p, e, claimed);
    NothingYet();
    Extend(INSTALLED, [], a);
    Extend(INSTALLED, [] + [a], b);
    Extend(INSTALLED, [] + [a] + [b], c);
    Extend(INSTALLED, [] + [a] + [b] + [c], d);
    assert [] + [a] + [b] + [c] + [d] == [a, b, c, d];
  }

  lemma NothingYet()
    ensures Legal(INSTALLED, []) && Run(INSTALLED, []) == INSTALLED
  {
  }

  lemma ClaimAfterWaking(p: Page)
    ensures Enabled(INSTALLED, Wake) && Enabled(Effect(INSTALLED, Wake), CommitClaim(p, "d", 1, true))
    ensures var w := Effect(Effect(INSTALLED, Wake), CommitClaim(p, "d", 1, true));
            && w.memory == Alive([], [Entry(0, "d", p, 1, false)], false) && PollOf(w, p) == Holding(0, "d")
  {
  }

  lemma EmptyTextIsQueued(p: Page, e: Entry, w: System)
    requires e == Entry(0, "d", p, 1, false) && w.memory == Alive([], [e], false) && PollOf(w, p) == Holding(0, "d")
    ensures Enabled(w, Answer(p, NotSent(""))) && Enabled(Effect(w, Answer(p, NotSent(""))), QueueAck(p, e))
    ensures AckFor(e, NotSent("")) in Effect(Effect(w, Answer(p, NotSent(""))), QueueAck(p, e)).image.outbox
  {
  }

  /** An acknowledgement without a text does block: it is accepted, and the next start refuses it. */
  lemma EmptyTextBlocks(p: Page)
    ensures var log := [Wake, CommitClaim(p, "d", 1, true), Answer(p, NotSent("")),
                        QueueAck(p, Entry(0, "d", p, 1, false)), Crash, Wake];
            Legal(INSTALLED, log) && Run(INSTALLED, log).memory == Alive([], [], true)
  {
    hide Legal, Run;
    var e := Entry(0, "d", p, 1, false);
    var queued := [Wake, CommitClaim(p, "d", 1, true), Answer(p, NotSent("")), QueueAck(p, e)];
    EmptyTextIsStored(p);
    assert !ValidStatus(AckFor(e, NotSent("")).status);
    RestartLoads(queued);
    assert queued + [Crash] + [Wake] == [Wake, CommitClaim(p, "d", 1, true), Answer(p, NotSent("")),
                                         QueueAck(p, e), Crash, Wake];
  }

  lemma RestartLoads(log: seq<Action>)
    requires Legal(INSTALLED, log)
    ensures Legal(INSTALLED, log + [Crash] + [Wake])
    ensures Run(INSTALLED, log + [Crash] + [Wake]) == Run(INSTALLED, log).(memory := Load(Run(INSTALLED, log).image))
  {
    hide Legal, Loads;
    Extend(INSTALLED, log, Crash);
    Extend(INSTALLED, log + [Crash], Wake);
  }

  /** A restart at any await of a worker whose image loads gives back exactly the memory it had. */
  lemma RestartRebuilds(w: System)
    requires Inv(w) && Working(w)
    ensures Effect(Effect(w, Crash), Wake) == w <==> Loads(w.image)
  {
    hide LeaseInv, PollInv, Loads;
    assert Effect(Effect(w, Crash), Wake) == w.(memory := Load(w.image));
  }
}
