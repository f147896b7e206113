/**
 The delivery half of the background worker, and the page that drives it, as they run. `system` holds
 the storage, the worker's variables (lost when it dies) and the pages; each storage commit, bridge
 call and click is one action of `LeaseProtocol`. The ghost `log` is the run so far, so every run
 theorem holds of this code, whatever crashes, expiries and other pages come in between.
 */
module LeaseWorker {
  import opened Options
  import opened LeaseProtocol
  import opened LeaseRuns

  /** How an awaited operation ended: storage may reject, and the worker may die. */
  datatype Outcome = Done | Threw | Died {
    predicate IsFailure() { !Done? }
    function PropagateFailure(): Outcome { this }
  }

  datatype Ready = Refused | Blocked | Free
  datatype Command = Command(delivery: string, deadline: nat)

  /** Actions that need no turn of the worker. */
  predicate Outside(a: Action) { a.Click? || a.Answer? || a.Leave? || a.BridgeTakes? || a.Tick? }

  /** The page whose poll an action moves. */
  function Subject(a: Action): Option<Page> {
    match a
    case Click(p) => Some(p)
    case Answer(p, _) => Some(p)
    case Leave(p) => Some(p)
    case CommitClaim(p, _, _, _) => Some(p)
    case QueueAck(p, _) => Some(p)
    case Arm(e, _) => Some(e.page)
    case _ => None
  }

  /** What an operation of the worker finds unchanged after a wait it survives. */
  ghost predicate Undisturbed(w: System, v: System) {
    && v.image == w.image && v.memory == w.memory && w.now <= v.now
    && v.leases == w.leases && v.armed == w.armed && v.acked == w.acked && v.posted == w.posted
    && w.taken <= v.taken
  }

  /** Nobody moved the poll of page `p`, and no idle page has started one. */
  ghost predicate Aside(w: System, v: System, p: Page) {
    PollOf(v, p) == PollOf(w, p) && forall q :: PollOf(w, q).Idle? ==> PollOf(v, q).Idle?
  }

  lemma OutsideDisturbsNothing(w: System, a: Action, v: System, p: Page)
    requires Step(w, a, v) && Outside(a) && Subject(a) != Some(p)
    ensures Undisturbed(w, v) && Aside(w, v, p)
  {
  }

  lemma OthersStayAside(w: System, a: Action, v: System, p: Page)
    requires Step(w, a, v) && Subject(a) != Some(p)
    ensures PollOf(v, p) == PollOf(w, p)
  {
  }

  class DeliveryWorker {
    var system: System
    ghost var log: seq<Action>

    ghost predicate Valid()
      reads this
    {
      Legal(INSTALLED, log) && system == Run(INSTALLED, log) && Inv(system)
    }

    predicate Loaded() reads this { system.memory.Alive? }
    predicate RecoveryBlocked() reads this requires Loaded() { system.memory.blocked }
    function AckOutbox(): seq<Ack> reads this requires Loaded() { system.memory.outbox }
    function InFlight(): seq<Entry> reads this requires Loaded() { system.memory.inFlight }

    constructor ()
      ensures Valid() && log == [] && system == INSTALLED
    {
      system, log := INSTALLED, [];
      InstalledIsInvariant();
    }

    method Happens(a: Action)
      requires Valid() && Enabled(system, a)
      modifies this
      ensures Valid() && system == Effect(old(system), a) && log == old(log) + [a]
    {
      hide Inv, Enabled, Effect;
      StepKeepsInv(system, a, Effect(system, a));
      Extend(INSTALLED, log, a);
      system := Effect(system, a);
      log := log + [a];
    }

    // ---- Awaits ------------------------------------------------------------------------

    /** Pages other than `page` click, answer and leave, and time passes. */
    method Outsiders(page: Page)
      requires Valid()
      modifies this
      ensures Valid() && old(log) <= log && Undisturbed(old(system), system) && Aside(old(system), system, page)
    {
      hide Inv, Enabled, Effect, Legal;
      var turns: nat := *;
      while turns > 0
        invariant Valid() && old(log) <= log && Undisturbed(old(system), system) && Aside(old(system), system, page)
      {
        var a: Action := *;
        if Enabled(system, a) && Outside(a) && Subject(a) != Some(page) {
          OutsideDisturbsNothing(system, a, Effect(system, a), page);
          Happens(a);
        }
        turns := turns - 1;
      }
    }

    /** An await inside the worker: others move, then the awaited operation ends, or the worker dies first. */
    method Await(page: Page) returns (r: Outcome)
      requires Valid() && Loaded()
      modifies this
      ensures Valid() && old(log) <= log && Aside(old(system), system, page)
      ensures !r.Died? ==> Undisturbed(old(system), system)
      ensures r.Died? ==> !Loaded()
    {
      hide Inv, Legal;
      Outsiders(page);
      r := *;
      if r.Died? {
        Happens(Crash);
      }
    }

    /** Everybody but `page` does anything the protocol allows, the worker's other tasks included. */
    method Others(page: Page)
      requires Valid()
      modifies this
      ensures Valid() && old(log) <= log && PollOf(system, page) == PollOf(old(system), page)
    {
      hide Inv, Enabled, Effect, Legal;
      var turns: nat := *;
      while turns > 0
        invariant Valid() && old(log) <= log && PollOf(system, page) == PollOf(old(system), page)
      {
        var a: Action := *;
        if Enabled(system, a) && Subject(a) != Some(page) {
          OthersStayAside(system, a, Effect(system, a), page);
          Happens(a);
        }
        turns := turns - 1;
      }
    }

    // ---- Storage -----------------------------------------------------------------------

    method Load(page: Page) returns (r: Outcome)
      requires Valid()
      modifies this
      ensures Valid() && old(log) <= log && Aside(old(system), system, page)
      ensures system.image == old(system.image) && old(system.now) <= system.now
      ensures r.Done? ==> Loaded()
      ensures old(Loaded()) ==> r.Done? && system == old(system)
    {
      hide Inv, Legal, Loads;
      if Loaded() {
        return Done;
      }
      Outsiders(page);
      r := *;
      if r.Done? {
        Happens(Wake);
      }
    }

    /** The action `a` is a commit of these two lists. */
    static ghost predicate Commits(w: System, a: Action, nextOutbox: seq<Ack>, nextInFlight: seq<Entry>) {
      && Enabled(w, a)
      && Effect(w, a).image == Image(Last(nextOutbox, MAX_OUTBOX), Last(nextInFlight, MAX_IN_FLIGHT))
      && Effect(w, a).memory == Alive(Last(nextOutbox, MAX_OUTBOX), Last(nextInFlight, MAX_IN_FLIGHT), false)
    }

    /** The storage takes the lists or rejects; a worker that does not survive dies before it learns which. */
    method CommitDeliveryState(nextOutbox: seq<Ack>, nextInFlight: seq<Entry>, a: Action, survives: bool)
      returns (r: Outcome)
      requires Valid() && Loaded() && Commits(system, a, nextOutbox, nextInFlight)
      modifies this
      ensures Valid() && old(log) <= log
      ensures r.Done? ==> survives && system == Effect(old(system), a)
      ensures r.Threw? ==> system == old(system)
      ensures r.Died? ==> !survives && !Loaded() && system == Effect(old(system), a).(memory := Dead)
    {
      hide Inv, Legal;
      if * {
        return Threw;
      }
      Happens(a);
      r := Done;
      if !survives {
        Happens(Crash);
        r := Died;
      }
    }

    method FindEntry(delivery: string) returns (found: Option<Entry>)
      requires Loaded()
      ensures found.Some? ==> found.value in InFlight() && found.value.delivery == delivery
      ensures found.None? ==> forall e | e in InFlight() :: e.delivery != delivery
    {
      var i := 0;
      while i < |InFlight()|
        invariant i <= |InFlight()| && forall j | 0 <= j < i :: InFlight()[j].delivery != delivery
      {
        if InFlight()[i].delivery == delivery {
          return Some(InFlight()[i]);
        }
        i := i + 1;
      }
      found := None;
    }

    method FindAck(delivery: string) returns (found: Option<Ack>)
      requires Loaded()
      ensures found.Some? ==> found.value in AckOutbox() && found.value.delivery == delivery
      ensures found.None? ==> forall k | k in AckOutbox() :: k.delivery != delivery
    {
      var i := 0;
      while i < |AckOutbox()|
        invariant i <= |AckOutbox()| && forall j | 0 <= j < i :: AckOutbox()[j].delivery != delivery
      {
        if AckOutbox()[i].delivery == delivery {
          return Some(AckOutbox()[i]);
        }
        i := i + 1;
      }
      found := None;
    }

    // ---- Acknowledgements ----------------------------------------------------------------

    /** While an entry is in flight the outbox is empty, so no acknowledgement conflicts and none is refused. */
    method QueueDeliveryAck(entry: Entry, status: Status, a: Action) returns (r: Outcome)
      requires Valid() && Working(system) && entry in InFlight() && Enabled(system, a)
      requires || (a == ExpireSubmitting(entry) && status == LOST)
               || (a == QueueAck(entry.page, entry) && status == PollOf(system, entry.page).status)
      modifies this
      ensures Valid() && old(log) <= log
      ensures r.Done? ==> system == Effect(old(system), a)
      ensures r.Done? ==> Working(system) && AckOutbox() == [AckFor(entry, status)] && InFlight() == []
      ensures r.Threw? ==> system == old(system)
      ensures r.Died? ==> !Loaded() && system.pages == Effect(old(system), a).pages
    {
      hide LeaseInv, PollInv, Legal, Loads;
      var payload := AckFor(entry, status);
      var previous := FindAck(entry.delivery);
      assert previous.None?;
      assert |AckOutbox()| < MAX_OUTBOX;
      var nextOutbox := AckOutbox() + [payload];
      var nextInFlight := WithoutEntry(InFlight(), entry.delivery);
      var survives: bool := *;
      r := CommitDeliveryState(nextOutbox, nextInFlight, a, survives);
    }

    /** Every queued acknowledgement is posted and, once the bridge has it, dropped. */
    method FlushDeliveryAcks(page: Page) returns (r: Outcome, ok: bool)
      requires Valid() && Loaded()
      modifies this
      ensures Valid() && old(log) <= log && Aside(old(system), system, page)
      ensures !r.Died? ==> Loaded() && InFlight() == old(InFlight()) && RecoveryBlocked() == old(RecoveryBlocked())
      ensures !r.Died? ==> system.acked == old(system.acked) && old(system.now) <= system.now
      ensures r.Done? && ok ==> !RecoveryBlocked() && AckOutbox() == []
      ensures r.Done? && ok ==> forall k | k in old(AckOutbox()) :: k in system.taken
      ensures r.Died? ==> !Loaded()
    {
      hide LeaseInv, PollInv, Legal, Loads, Enabled, Effect;
      if RecoveryBlocked() {
        return Done, false;
      }
      var pending := AckOutbox();
      var i := 0;
      while i < |pending|
        invariant i <= |pending| && Valid() && Working(system) && old(log) <= log
        invariant Aside(old(system), system, page)
        invariant InFlight() == old(InFlight()) && AckOutbox() == pending[i..]
        invariant system.acked == old(system.acked) && old(system.now) <= system.now
        invariant forall j | 0 <= j < i :: pending[j] in system.taken
      {
        var payload := pending[i];
        PostingIsAllowed(system, payload);
        Happens(PostAck(payload));
        r := Await(page);
        if !r.Done? {
          return r, false;
        }
        var taken: bool := *;
        if !taken {
          return Done, false;
        }
        TakingIsAllowed(system, payload);
        ghost var sent := system;
        Happens(BridgeTakes(payload));
        AsideStays(old(system), sent, system, page);
        var survives: bool := *;
        DroppingIsAllowed(system, payload);
        ghost var before := system;
        r := CommitDeliveryState(WithoutAck(AckOutbox(), payload.delivery), InFlight(), DropAck(payload), survives);
        assert system.pages == before.pages;
        AsideStays(old(system), before, system, page);
        if !r.Done? {
          return r, false;
        }
        i := i + 1;
      }
      r, ok := Done, true;
    }

    static lemma AsideStays(u: System, w: System, v: System, p: Page)
      requires Aside(u, w, p) && v.pages == w.pages
      ensures Aside(u, v, p)
    {
      assert forall q :: PollOf(v, q) == PollOf(w, q);
    }

    static lemma PostingIsAllowed(w: System, k: Ack)
      requires Working(w) && k in w.memory.outbox
      ensures Enabled(w, PostAck(k)) && Effect(w, PostAck(k)) == w.(posted := w.posted + {k})
    {
    }

    static lemma TakingIsAllowed(w: System, k: Ack)
      requires k in w.posted
      ensures Enabled(w, BridgeTakes(k)) && Effect(w, BridgeTakes(k)) == w.(taken := w.taken + {k})
    {
    }

    static lemma DroppingIsAllowed(w: System, k: Ack)
      requires ImageInv(w) && Working(w) && k in w.memory.outbox && k in w.taken
      ensures Commits(w, DropAck(k), WithoutAck(w.memory.outbox, k.delivery), w.memory.inFlight)
      ensures WithoutAck(w.memory.outbox, k.delivery) == []
      ensures var v := Effect(w, DropAck(k));
              v == w.(image := Image([], w.memory.inFlight), memory := Alive([], w.memory.inFlight, false))
    {
    }

    // ---- Claims ----------------------------------------------------------------------------

    /** Expired submissions are acknowledged and everything is flushed before a new claim may be posted. */
    method PrepareDeliveryClaim(page: Page) returns (r: Outcome, ready: Ready)
      requires Valid()
      modifies this
      ensures Valid() && old(log) <= log && Aside(old(system), system, page)
      ensures r.Done? && ready.Free? ==> MayClaim(system)
      ensures r.Done? && ready.Blocked? ==>
        Working(system) && AckOutbox() == [] && exists e :: e in InFlight() && old(system.now) < e.deadline
    {
      hide LeaseInv, PollInv, Legal, Loads, Enabled, Effect;
      ready := Refused;
      r := Load(page);
      if !r.Done? {
        return;
      }
      if RecoveryBlocked() {
        return Done, Refused;
      }
      var now := system.now;
      var entries := InFlight();
      var i := 0;
      while i < |entries|
        invariant i <= |entries| <= 1 && Valid() && Working(system) && old(log) <= log
        invariant Aside(old(system), system, page) && old(system.now) <= now <= system.now
        invariant forall e | e in entries[i..] :: e in InFlight()
        invariant forall e | e in InFlight() :: e in entries
        invariant forall j | 0 <= j < i && entries[j].submitting && entries[j].deadline <= now :: entries[j] !in InFlight()
      {
        var entry := entries[i];
        if entry.submitting && entry.deadline <= now {
          assert entry in entries[i..];
          ExpiringIsAllowed(system, entry);
          ghost var before := system;
          r := QueueDeliveryAck(entry, LOST, ExpireSubmitting(entry));
          AsideStays(old(system), before, system, page);
          if !r.Done? {
            return;
          }
        }
        i := i + 1;
      }
      ghost var before := system;
      var flushed;
      r, flushed := FlushDeliveryAcks(page);
      AsideChains(old(system), before, system, page);
      if !r.Done? {
        return;
      }
      if !flushed || AckOutbox() != [] {
        return Done, Refused;
      }
      var j := 0;
      while j < |InFlight()|
        invariant j <= |InFlight()| && forall k | 0 <= k < j :: InFlight()[k].deadline <= now
      {
        if InFlight()[j].deadline > now {
          return Done, Blocked;
        }
        j := j + 1;
      }
      if |InFlight()| > 0 {
        var survives: bool := *;
        DroppingStaleIsAllowed(system, now);
        before := system;
        r := CommitDeliveryState(AckOutbox(), [], DropStale, survives);
        AsideStays(old(system), before, system, page);
        if !r.Done? {
          return;
        }
      }
      r, ready := Done, Free;
    }

    static lemma AsideChains(u: System, w: System, v: System, p: Page)
      requires Aside(u, w, p) && Aside(w, v, p)
      ensures Aside(u, v, p)
    {
    }

    static lemma ExpiringIsAllowed(w: System, e: Entry)
      requires ImageInv(w) && Working(w) && e in w.memory.inFlight && e.submitting && e.deadline <= w.now
      ensures Enabled(w, ExpireSubmitting(e))
      ensures Effect(w, ExpireSubmitting(e)).pages == w.pages && Effect(w, ExpireSubmitting(e)).now == w.now
    {
    }

    static lemma DroppingStaleIsAllowed(w: System, now: nat)
      requires ImageInv(w) && Working(w) && w.memory.outbox == [] && now <= w.now
      requires forall e | e in w.memory.inFlight :: !e.submitting && e.deadline <= now
      ensures Commits(w, DropStale, w.memory.outbox, [])
      ensures Effect(w, DropStale).pages == w.pages && MayClaim(Effect(w, DropStale))
    {
    }

    /**
     A command the page gets back is stored as claimed, under a lease of its own and nothing else stored.
     `reply` is the bridge's answer.
     */
    method ClaimDelivery(page: Page, reply: Option<Command>) returns (r: Outcome, command: Option<Command>)
      requires Valid() && Loaded() && PollOf(system, page).Idle?
      modifies this
      ensures Valid() && old(log) <= log
      ensures r.Done? && command.Some? ==> command == reply
      ensures r.Done? && command.Some? ==>
        exists lease ::
          && PollOf(system, page) == Holding(lease, reply.value.delivery)
          && system.image == Image([], [Entry(lease, reply.value.delivery, page, reply.value.deadline, false)])
      ensures !(r.Done? && command.Some?) ==> PollOf(system, page).Idle?
    {
      hide LeaseInv, PollInv, Legal, Loads, Enabled, Effect;
      command := None;
      if RecoveryBlocked() {
        return Done, None;
      }
      var ready;
      r, ready := PrepareDeliveryClaim(page);
      if !r.Done? || !ready.Free? {
        return;
      }
      ClaimingIsAllowed(system);
      Happens(PostClaim(page));
      r := Await(page);
      if !r.Done? {
        return;
      }
      if reply.None? || reply.value.deadline <= system.now {
        return Done, None;
      }
      var claim := Entry(system.leases, reply.value.delivery, page, reply.value.deadline, false);
      var survives: bool := *;
      var a := CommitClaim(page, reply.value.delivery, reply.value.deadline, survives);
      CommittingIsAllowed(system, page, reply.value.delivery, reply.value.deadline, survives);
      r := CommitDeliveryState(AckOutbox(), InFlight() + [claim], a, survives);
      if r.Done? {
        command := reply;
      }
    }

    static lemma ClaimingIsAllowed(w: System)
      requires MayClaim(w)
      ensures forall p :: Enabled(w, PostClaim(p)) && Effect(w, PostClaim(p)) == w
    {
    }

    static lemma CommittingIsAllowed(w: System, p: Page, d: string, deadline: nat, survives: bool)
      requires MayClaim(w) && w.now < deadline && PollOf(w, p).Idle?
      ensures var a, e := CommitClaim(p, d, deadline, survives), Entry(w.leases, d, p, deadline, false);
              && Commits(w, a, w.memory.outbox, w.memory.inFlight + [e])
              && Effect(w, a).image == Image([], [e])
              && PollOf(Effect(w, a), p) == if survives then Holding(w.leases, d) else Idle
    {
    }

    /** The click may go ahead exactly if the lease is this page's, unexpired, and now stored as submitting. */
    method DeliverySubmitStarted(page: Page, delivery: string) returns (r: Outcome, ok: bool)
      requires Valid() && Loaded()
      modifies this
      ensures Valid() && old(log) <= log
      ensures r.Done? ==> (ok <==> !old(RecoveryBlocked()) && exists e :: e in old(InFlight()) && e.delivery == delivery
                                                                && e.page == page && old(system.now) < e.deadline)
      ensures r.Done? && ok ==>
        exists e :: e in system.image.inFlight && e.delivery == delivery && e.page == page && e.submitting
      ensures r.Done? && ok && old(PollOf(system, page).Holding?) && old(PollOf(system, page).delivery) == delivery ==>
        PollOf(system, page) == Armed(old(PollOf(system, page)).lease, delivery)
      ensures !(r.Done? && ok) ==> PollOf(system, page) == old(PollOf(system, page)) || PollOf(system, page).Idle?
      ensures r.Done? && !ok ==> system == old(system)
      ensures ok ==> r.Done?
    {
      hide LeaseInv, PollInv, Legal, Loads, Enabled, Effect;
      ok := false;
      if RecoveryBlocked() {
        return Done, false;
      }
      var entry := FindEntry(delivery);
      if entry.None? || entry.value.page != page {
        OneAtATime(system);
        return Done, false;
      }
      if entry.value.deadline <= system.now {
        OneAtATime(system);
        return Done, false;
      }
      var survives: bool := *;
      ArmingIsAllowed(system, entry.value, survives);
      r := CommitDeliveryState(AckOutbox(), MarkSubmitting(InFlight(), delivery), Arm(entry.value, survives), survives);
      ok := r.Done?;
    }

    static lemma OneAtATime(w: System)
      requires ImageInv(w) && Working(w)
      ensures forall e, f | e in w.memory.inFlight && f in w.memory.inFlight :: e == f
    {
    }

    static lemma ArmingIsAllowed(w: System, e: Entry, survives: bool)
      requires ImageInv(w) && Working(w) && e in w.memory.inFlight && w.now < e.deadline
      ensures var a := Arm(e, survives);
              && Commits(w, a, w.memory.outbox, MarkSubmitting(w.memory.inFlight, e.delivery))
              && e.(submitting := true) in Effect(w, a).image.inFlight
              && PollOf(Effect(w, a), e.page) ==
                 (if PollOf(w, e.page).Holding? && PollOf(w, e.page).delivery == e.delivery
                  then if survives then Armed(PollOf(w, e.page).lease, e.delivery) else Idle
                  else PollOf(w, e.page))
    {
      assert w.memory.inFlight == [e];
    }

    /** A report on a lease the page still owns is stored; an accepted one has been taken by the bridge. */
    method ReceiveDeliveryAck(page: Page, delivery: string, status: Status) returns (r: Outcome, accepted: bool)
      requires Valid() && Loaded()
      requires PollOf(system, page).Answering? && PollOf(system, page).delivery == delivery && PollOf(system, page).status == status
      modifies this
      ensures Valid() && old(log) <= log
      ensures r.Done? && accepted ==> Working(system) && AckOutbox() == []
      ensures r.Done? && accepted ==>
        forall e | e in old(InFlight()) && e.delivery == delivery :: AckFor(e, status) in system.taken && InFlight() == []
      ensures r.Done? && accepted && (forall e | e in old(InFlight()) :: e.delivery != delivery) ==>
        exists k :: k in old(AckOutbox()) && k.delivery == delivery && k in system.taken
      ensures PollOf(system, page).Idle? || PollOf(system, page) == old(PollOf(system, page))
    {
      hide LeaseInv, PollInv, Legal, Loads, Enabled, Effect;
      accepted := false;
      if RecoveryBlocked() {
        return Done, false;
      }
      var entry := FindEntry(delivery);
      if entry.None? {
        var queued := FindAck(delivery);
        if queued.None? {
          return Done, false;
        }
        r, accepted := FlushDeliveryAcks(page);
        return;
      }
      OneAtATime(system);
      if entry.value.page != page {
        return Done, false;
      }
      if status.Sent? && status.messageId == "" {
        return Done, false;
      }
      QueueingIsAllowed(system, page, entry.value);
      r := QueueDeliveryAck(entry.value, status, QueueAck(page, entry.value));
      if !r.Done? {
        return;
      }
      r, accepted := FlushDeliveryAcks(page);
    }

    static lemma QueueingIsAllowed(w: System, p: Page, e: Entry)
      requires ImageInv(w) && Working(w) && e in w.memory.inFlight && e.page == p
      requires PollOf(w, p).Answering? && PollOf(w, p).delivery == e.delivery
      requires PollOf(w, p).status.Sent? ==> 0 < |PollOf(w, p).status.messageId|
      ensures Enabled(w, QueueAck(p, e)) && PollOf(Effect(w, QueueAck(p, e)), p).Idle?
    {
    }

    // ---- The page ------------------------------------------------------------------------------

    method AnswerPage(page: Page, status: Status)
      requires Valid() && !PollOf(system, page).Idle? && !PollOf(system, page).Answering?
      requires PollOf(system, page).Clicked? <==> !status.NotSent?
      modifies this
      ensures Valid() && old(log) <= log
      ensures PollOf(system, page) == Answering(PollOf(old(system), page).lease, PollOf(old(system), page).delivery, status)
    {
      hide Inv, Legal;
      Happens(Answer(page, status));
    }

    method LeavePage(page: Page)
      requires Valid()
      modifies this
      ensures Valid() && old(log) <= log && PollOf(system, page).Idle?
    {
      hide Inv, Legal;
      Happens(Leave(page));
    }

    /** The page's report; whatever comes of it, the poll is over. */
    method Acknowledge(page: Page, delivery: string, status: Status)
      requires Valid() && !PollOf(system, page).Idle? && PollOf(system, page).delivery == delivery
      requires HasText(status) && (PollOf(system, page).Clicked? <==> !status.NotSent?) && !PollOf(system, page).Answering?
      modifies this
      ensures Valid() && old(log) <= log && PollOf(system, page).Idle?
    {
      hide Inv, Legal, Enabled, Effect, HasText;
      AnswerPage(page, status);
      Others(page);
      var r := Load(page);
      if r.Done? {
        var accepted;
        r, accepted := ReceiveDeliveryAck(page, delivery, status);
      }
      LeavePage(page);
    }

    /**
     One poll: claim, insert the text, have the lease stored as submitting, click, report. `reply` is the
     bridge's answer to the claim; the DOM and the page's own navigation decide the rest.
     */
    method PollDelivery(page: Page, reply: Option<Command>)
      requires Valid() && PollOf(system, page).Idle?
      modifies this
      ensures Valid() && old(log) <= log && PollOf(system, page).Idle?
    {
      hide Inv, Legal, Enabled, Effect, Loads;
      var r := Load(page);
      if !r.Done? {
        return;
      }
      var command;
      r, command := ClaimDelivery(page, reply);
      if !r.Done? || command.None? {
        return;
      }
      var delivery := command.value.delivery;
      Others(page);
      var stillCurrent: bool, composerReady: bool, inserted: bool := *, *, *;
      if !stillCurrent {
        Acknowledge(page, delivery, NotSent("document identity changed before send"));
        return;
      }
      if !composerReady {
        Acknowledge(page, delivery, NotSent("composer_busy"));
        return;
      }
      if !inserted {
        Acknowledge(page, delivery, NotSent("composer refused exact message"));
        return;
      }
      r := Load(page);
      var armed := false;
      if r.Done? {
        r, armed := DeliverySubmitStarted(page, delivery);
      }
      if !armed {
        PageMayTurn(system, page);
        Happens(Leave(page));
        return;
      }
      Submit(page, delivery);
    }

    /** The armed half of the poll: the last look at the page, the click, the report. */
    method Submit(page: Page, delivery: string)
      requires Valid() && PollOf(system, page).Armed? && PollOf(system, page).delivery == delivery
      modifies this
      ensures Valid() && old(log) <= log && PollOf(system, page).Idle?
    {
      hide Inv, Legal, Enabled, Effect, Loads;
      Others(page);
      PageMayTurn(system, page);
      var stillCurrent: bool := *;
      if !stillCurrent {
        Acknowledge(page, delivery, NotSent("document identity changed before submit"));
        return;
      }
      var clicked: bool, messageId: string := *, *;
      if !clicked {
        Acknowledge(page, delivery, NotSent("send control unavailable"));
        return;
      }
      Happens(Click(page));
      Others(page);
      if messageId != "" {
        Acknowledge(page, delivery, Sent(messageId));
      } else {
        Acknowledge(page, delivery, Ambiguous("submit occurred without a stable message receipt"));
      }
    }

    /** What a page may do at each point of its poll. */
    static lemma PageMayTurn(w: System, p: Page)
      ensures Enabled(w, Leave(p)) && PollOf(Effect(w, Leave(p)), p).Idle?
      ensures PollOf(w, p).Armed? ==> Enabled(w, Click(p))
      ensures PollOf(w, p).Armed? ==>
                PollOf(Effect(w, Click(p)), p) == Clicked(PollOf(w, p).lease, PollOf(w, p).delivery)
    {
    }
  }
}
