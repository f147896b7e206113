/**
 The browser extension's delivery lease: the background worker claims a message for a page, stores
 "submitting" before the page may click, and keeps an acknowledgement in a durable outbox until the
 bridge has it. Memory and stored image are separate; a worker can die at any await.
 */
module LeaseProtocol {
  import opened Options

  const MAX_OUTBOX := 200
  const MAX_IN_FLIGHT := 100
  const MAX_ERROR := 500

  /** A document at a navigation epoch, showing a conversation. */
  datatype Page = Page(document: string, epoch: nat, conversation: string)

  datatype Status = Sent(messageId: string) | NotSent(error: string) | Ambiguous(error: string)

  /** `lease` numbers the claims; it is not stored by the extension and nothing it does reads it. */
  datatype Ack = Ack(lease: nat, delivery: string, page: Page, status: Status)
  datatype Entry = Entry(lease: nat, delivery: string, page: Page, deadline: nat, submitting: bool)

  datatype Image = Image(outbox: seq<Ack>, inFlight: seq<Entry>)
  datatype Memory = Dead | Alive(outbox: seq<Ack>, inFlight: seq<Entry>, blocked: bool)

  /** How far one poll of a page has come. `Answering` includes its acknowledgement still under way. */
  datatype Poll =
    | Idle
    | Holding(lease: nat, delivery: string)
    | Armed(lease: nat, delivery: string)
    | Clicked(lease: nat, delivery: string)
    | Answering(lease: nat, delivery: string, status: Status)

  // ---- The stored image -----------------------------------------------------------------

  /** `validStoredAck`, on the fields that vary. */
  predicate ValidStatus(s: Status) {
    match s
    case Sent(m) => 0 < |m|
    case NotSent(e) => 0 < |e| <= MAX_ERROR
    case Ambiguous(e) => 0 < |e| <= MAX_ERROR
  }

  predicate DistinctAcks(s: seq<Ack>) {
    forall i, j | 0 <= i < j < |s| :: s[i].delivery != s[j].delivery
  }

  predicate DistinctEntries(s: seq<Entry>) {
    forall i, j | 0 <= i < j < |s| :: s[i].delivery != s[j].delivery
  }

  /** What `load` accepts. */
  predicate Loads(image: Image) {
    && |image.outbox| <= MAX_OUTBOX && |image.inFlight| <= MAX_IN_FLIGHT
    && DistinctAcks(image.outbox) && DistinctEntries(image.inFlight)
    && (forall a | a in image.outbox :: ValidStatus(a.status))
    && (forall a, e | a in image.outbox && e in image.inFlight :: a.delivery != e.delivery)
  }

  function Load(image: Image): Memory {
    if Loads(image) then Alive(image.outbox, image.inFlight, false) else Alive([], [], true)
  }

  function WithoutEntry(s: seq<Entry>, delivery: string): (r: seq<Entry>)
    ensures forall e :: e in r <==> e in s && e.delivery != delivery
    ensures |r| <= |s|
  {
    if s == [] then []
    else if s[0].delivery == delivery then WithoutEntry(s[1..], delivery)
    else [s[0]] + WithoutEntry(s[1..], delivery)
  }

  function WithoutAck(s: seq<Ack>, delivery: string): (r: seq<Ack>)
    ensures forall a :: a in r <==> a in s && a.delivery != delivery
    ensures |r| <= |s|
  {
    if s == [] then []
    else if s[0].delivery == delivery then WithoutAck(s[1..], delivery)
    else [s[0]] + WithoutAck(s[1..], delivery)
  }

  function MarkSubmitting(s: seq<Entry>, delivery: string): (r: seq<Entry>)
    ensures |r| == |s|
    ensures forall i | 0 <= i < |s| :: r[i] == if s[i].delivery == delivery then s[i].(submitting := true) else s[i]
  {
    seq(|s|, i requires 0 <= i < |s| => if s[i].delivery == delivery then s[i].(submitting := true) else s[i])
  }

  /** `message.error.slice(0, 500)`. */
  function Slice(s: Status): Status {
    match s
    case Sent(_) => s
    case NotSent(e) => NotSent(if |e| > MAX_ERROR then e[..MAX_ERROR] else e)
    case Ambiguous(e) => Ambiguous(if |e| > MAX_ERROR then e[..MAX_ERROR] else e)
  }

  function AckFor(e: Entry, s: Status): Ack { Ack(e.lease, e.delivery, e.page, Slice(s)) }

  /** `queueDeliveryAck` on the image: the entry leaves in-flight as an acknowledgement in the outbox. */
  function Queued(image: Image, e: Entry, s: Status): Image {
    Image(image.outbox + [AckFor(e, s)], WithoutEntry(image.inFlight, e.delivery))
  }

  // ---- The system -----------------------------------------------------------------------

  datatype System = System(
    image: Image,
    memory: Memory,
    pages: map<Page, Poll>,
    now: nat,
    // what has happened so far
    leases: nat,                 // claims stored
    armed: set<nat>,             // leases ever stored as submitting
    clicked: set<nat>,           // leases whose send button was clicked
    acked: map<nat, Ack>,        // leases whose acknowledgement was stored
    posted: set<Ack>,            // acknowledgements sent to the bridge
    taken: set<Ack>)             // and those it has recorded

  function PollOf(w: System, p: Page): Poll {
    if p in w.pages then w.pages[p] else Idle
  }

  predicate Working(w: System) { w.memory.Alive? && !w.memory.blocked }

  /** A claim may be posted only with nothing in flight and nothing to acknowledge. */
  predicate MayClaim(w: System) { Working(w) && w.memory.outbox == [] && w.memory.inFlight == [] }

  datatype Action =
    // the worker
    | Wake
    | Crash
    | ExpireSubmitting(entry: Entry)
    | PostAck(ack: Ack)
    | DropAck(ack: Ack)
    | DropStale
    | PostClaim(page: Page)
    | CommitClaim(page: Page, delivery: string, deadline: nat, replied: bool)
    | Arm(entry: Entry, replied: bool)
    | QueueAck(page: Page, entry: Entry)
    // a page
    | Click(page: Page)
    | Answer(page: Page, status: Status)
    | Leave(page: Page)
    // the bridge records what it was sent; its answer may be lost
    | BridgeTakes(ack: Ack)
    // time
    | Tick(elapsed: nat)

  const LOST := Ambiguous("submit result lost before receipt")

  predicate Enabled(w: System, a: Action) {
    match a
    case Wake => w.memory.Dead?
    case Crash => true
    case ExpireSubmitting(e) =>
      && Working(w) && e in w.memory.inFlight && e.submitting && e.deadline <= w.now
      && |w.memory.outbox| < MAX_OUTBOX && (forall k | k in w.memory.outbox :: k.delivery != e.delivery)
    case PostAck(k) => Working(w) && k in w.memory.outbox
    case DropAck(k) => Working(w) && k in w.memory.outbox && k in w.taken
    case DropStale =>
      && Working(w) && w.memory.outbox == []
      && (forall e | e in w.memory.inFlight :: !e.submitting && e.deadline <= w.now)
    case PostClaim(_) => MayClaim(w)
    case CommitClaim(p, d, deadline, replied) => MayClaim(w) && w.now < deadline && PollOf(w, p).Idle?
    case Arm(e, replied) => Working(w) && e in w.memory.inFlight && w.now < e.deadline
    case QueueAck(p, e) =>
      && Working(w) && e in w.memory.inFlight && e.page == p
      && PollOf(w, p).Answering? && PollOf(w, p).delivery == e.delivery
      && (PollOf(w, p).status.Sent? ==> 0 < |PollOf(w, p).status.messageId|)
      && |w.memory.outbox| < MAX_OUTBOX && (forall k | k in w.memory.outbox :: k.delivery != e.delivery)
    case Click(p) => PollOf(w, p).Armed?
    case Answer(p, s) =>
      || ((PollOf(w, p).Holding? || PollOf(w, p).Armed?) && s.NotSent?)
      || (PollOf(w, p).Clicked? && !s.NotSent?)
    case Leave(_) => true
    case BridgeTakes(k) => k in w.posted
    case Tick(_) => true
  }

  /** `commitDeliveryState`: the capped lists are stored, then become the memory. */
  function Commit(w: System, next: Image): System {
    var stored := Image(Last(next.outbox, MAX_OUTBOX), Last(next.inFlight, MAX_IN_FLIGHT));
    w.(image := stored, memory := Alive(stored.outbox, stored.inFlight, false))
  }

  function Effect(w: System, a: Action): System
    requires Enabled(w, a)
  {
    var image := if w.memory.Alive? then Image(w.memory.outbox, w.memory.inFlight) else w.image;
    match a
    case Wake => w.(memory := Load(w.image))
    case Crash => w.(memory := Dead)
    case ExpireSubmitting(e) =>
      Commit(w, Queued(image, e, LOST)).(acked := w.acked[e.lease := AckFor(e, LOST)])
    case PostAck(k) => w.(posted := w.posted + {k})
    case DropAck(k) => Commit(w, Image(WithoutAck(image.outbox, k.delivery), image.inFlight))
    case DropStale => Commit(w, Image(image.outbox, []))
    case PostClaim(_) => w
    case CommitClaim(p, d, deadline, replied) =>
      Commit(w, Image(image.outbox, image.inFlight + [Entry(w.leases, d, p, deadline, false)]))
        .(leases := w.leases + 1, pages := if replied then w.pages[p := Holding(w.leases, d)] else w.pages)
    case Arm(e, replied) =>
      var poll := PollOf(w, e.page);
      Commit(w, Image(image.outbox, MarkSubmitting(image.inFlight, e.delivery)))
        .(armed := w.armed + {e.lease},
          pages := if poll.Holding? && poll.delivery == e.delivery
                   then w.pages[e.page := if replied then Armed(poll.lease, poll.delivery) else Idle] else w.pages)
    case QueueAck(p, e) =>
      var s := PollOf(w, p).status;
      Commit(w, Queued(image, e, s)).(acked := w.acked[e.lease := AckFor(e, s)], pages := w.pages[p := Idle])
    case Click(p) =>
      var poll := PollOf(w, p);
      w.(clicked := w.clicked + {poll.lease}, pages := w.pages[p := Clicked(poll.lease, poll.delivery)])
    case Answer(p, s) => w.(pages := w.pages[p := Answering(PollOf(w, p).lease, PollOf(w, p).delivery, s)])
    case Leave(p) => w.(pages := w.pages[p := Idle])
    case BridgeTakes(k) => w.(taken := w.taken + {k})
    case Tick(n) => w.(now := w.now + n)
  }

  predicate Step(w: System, a: Action, v: System) {
    Enabled(w, a) && v == Effect(w, a)
  }

  predicate Legal(w: System, log: seq<Action>)
    decreases |log|, 0
  {
    log == [] || (Legal(w, log[..|log| - 1]) && Enabled(Run(w, log[..|log| - 1]), log[|log| - 1]))
  }

  function Run(w: System, log: seq<Action>): System
    requires Legal(w, log)
    decreases |log|, 1
  {
    if log == [] then w else Effect(Run(w, log[..|log| - 1]), log[|log| - 1])
  }

  lemma Extend(w: System, log: seq<Action>, a: Action)
    requires Legal(w, log) && Enabled(Run(w, log), a)
    ensures Legal(w, log + [a]) && Run(w, log + [a]) == Effect(Run(w, log), a)
  {
    assert (log + [a])[..|log|] == log;
  }

  const INSTALLED := System(Image([], []), Dead, map[], 0, 0, {}, {}, map[], {}, {})

  // ---- The invariant ----------------------------------------------------------------------

  /** One lease or one acknowledgement at a time, and the worker's memory is what is stored. */
  ghost predicate ImageInv(w: System) {
    && |w.image.outbox| + |w.image.inFlight| <= 1
    && (Working(w) ==> w.memory.outbox == w.image.outbox && w.memory.inFlight == w.image.inFlight)
    && (w.memory.Alive? && w.memory.blocked ==> !Loads(w.image))
  }

  /** Every lease is pending, acknowledged or dropped; one stored as submitting is never dropped. */
  ghost predicate LeasesAccounted(w: System) {
    && (forall e | e in w.image.inFlight ::
          e.lease < w.leases && e.lease !in w.acked && (e.submitting <==> e.lease in w.armed))
    && (forall l | l in w.armed :: l < w.leases && (l in w.acked || exists e :: e in w.image.inFlight && e.lease == l))
    && w.clicked <= w.armed
  }

  /** An acknowledgement, once stored, is the only one ever stored or posted for its lease, and stays until it is taken. */
  ghost predicate AcksUnique(w: System) {
    && (forall k | k in w.image.outbox :: k.lease in w.acked && w.acked[k.lease] == k)
    && (forall k | k in w.posted :: k.lease in w.acked && w.acked[k.lease] == k)
    && (forall l | l in w.acked ::
          l < w.leases && w.acked[l].lease == l && (w.acked[l] in w.image.outbox || w.acked[l] in w.taken))
    && w.taken <= w.posted
  }

  /** A clicked lease is never acknowledged as not sent. */
  ghost predicate ClicksHonoured(w: System) {
    forall l | l in w.acked && l in w.clicked :: !w.acked[l].status.NotSent?
  }

  ghost predicate LeaseInv(w: System) { LeasesAccounted(w) && AcksUnique(w) && ClicksHonoured(w) }

  /** A poll under way holds a lease of its own, the one its page has in flight if any. */
  ghost predicate PollOwns(w: System) {
    forall p | p in w.pages && !w.pages[p].Idle? ::
      && w.pages[p].lease < w.leases
      && (forall e | e in w.image.inFlight && e.page == p :: e.lease == w.pages[p].lease)
  }

  ghost predicate PollsDistinct(w: System) {
    forall p, q | p in w.pages && q in w.pages && !w.pages[p].Idle? && !w.pages[q].Idle? && w.pages[p].lease == w.pages[q].lease :: p == q
  }

  /** Armed polls were armed, and a poll's lease was clicked exactly when the poll says so. */
  ghost predicate PollClicks(w: System) {
    forall p | p in w.pages && !w.pages[p].Idle? ::
      && (w.pages[p].Armed? || w.pages[p].Clicked? ==> w.pages[p].lease in w.armed)
      && (w.pages[p].lease in w.clicked <==>
            w.pages[p].Clicked? || (w.pages[p].Answering? && !w.pages[p].status.NotSent?))
  }

  /** Only an expired lease is acknowledged while its poll is still under way. */
  ghost predicate PollAcks(w: System) {
    forall p | p in w.pages && !w.pages[p].Idle? && w.pages[p].lease in w.acked ::
      w.acked[w.pages[p].lease].status.Ambiguous?
  }

  ghost predicate PollInv(w: System) { PollOwns(w) && PollsDistinct(w) && PollClicks(w) && PollAcks(w) }

  ghost predicate Inv(w: System) { ImageInv(w) && LeaseInv(w) && PollInv(w) }

  lemma ImageKept(w: System, a: Action, v: System)
    requires ImageInv(w) && Step(w, a, v)
    ensures ImageInv(v)
  {
    hide Slice;
  }

  lemma LeasesAccountedByClick(w: System, a: Action, v: System)
    requires LeasesAccounted(w) && PollClicks(w) && Step(w, a, v) && a.Click?
    ensures LeasesAccounted(v)
  {
    hide Loads, ValidStatus, DistinctAcks, DistinctEntries;
  }

  lemma LeasesAccountedByOthers(w: System, a: Action, v: System)
    requires ImageInv(w) && LeasesAccounted(w) && AcksUnique(w) && Step(w, a, v) && !a.Click?
    ensures LeasesAccounted(v)
  {
    hide Loads, ValidStatus, DistinctAcks, DistinctEntries, Slice;
  }

  lemma LeasesAccountedKept(w: System, a: Action, v: System)
    requires ImageInv(w) && LeasesAccounted(w) && AcksUnique(w) && PollClicks(w) && Step(w, a, v)
    ensures LeasesAccounted(v)
  {
    hide *;
    if a.Click? {
      LeasesAccountedByClick(w, a, v);
    } else {
      LeasesAccountedByOthers(w, a, v);
    }
  }

  lemma AcksUniqueKept(w: System, a: Action, v: System)
    requires ImageInv(w) && LeasesAccounted(w) && AcksUnique(w) && Step(w, a, v)
    ensures AcksUnique(v)
  {
    hide Loads, ValidStatus, DistinctAcks, DistinctEntries;
  }

  lemma ClicksHonouredKept(w: System, a: Action, v: System)
    requires ImageInv(w) && LeasesAccounted(w) && ClicksHonoured(w) && PollInv(w) && Step(w, a, v)
    ensures ClicksHonoured(v)
  {
    hide Loads, ValidStatus, DistinctAcks, DistinctEntries;
  }

  lemma PollOwnsKept(w: System, a: Action, v: System)
    requires ImageInv(w) && PollOwns(w) && Step(w, a, v)
    ensures PollOwns(v)
  {
    hide Loads, ValidStatus, DistinctAcks, DistinctEntries;
  }

  lemma PollsDistinctKept(w: System, a: Action, v: System)
    requires PollOwns(w) && PollsDistinct(w) && Step(w, a, v)
    ensures PollsDistinct(v)
  {
    hide Loads, ValidStatus, DistinctAcks, DistinctEntries;
  }

  lemma PollClicksKept(w: System, a: Action, v: System)
    requires ImageInv(w) && LeasesAccounted(w) && PollOwns(w) && PollsDistinct(w) && PollClicks(w) && Step(w, a, v)
    ensures PollClicks(v)
  {
    hide Loads, ValidStatus, Slice, DistinctAcks, DistinctEntries;
  }

  lemma PollAcksKept(w: System, a: Action, v: System)
    requires ImageInv(w) && LeasesAccounted(w) && AcksUnique(w) && PollOwns(w) && PollsDistinct(w) && PollAcks(w) && Step(w, a, v)
    ensures PollAcks(v)
  {
    hide Loads, ValidStatus, DistinctAcks, DistinctEntries;
  }
}
