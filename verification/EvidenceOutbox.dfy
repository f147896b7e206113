/**
 Evidence that a request belongs to a conversation, kept in storage until the bridge has it durably or it is
 five minutes old. The worker keeps no copy in memory; its operations on the outbox run one at a time.
 */
module EvidenceOutbox {
  import opened Options

  const TTL := 5 * 60 * 1000
  const MAX_ENTRIES := 1000

  /** `proof` is the verdict evidence, which must agree in full; without it the conversation decides. */
  datatype Evidence = Evidence(request: string, conversation: string, document: string, epoch: nat, proof: Option<string>)
  datatype Entry = Entry(evidence: Evidence, received: int, expires: int)

  /** The bridge's answer: accepted durably, accepted otherwise, a conflict (409), or no success. */
  datatype Reply = Durable | NotDurable | Conflicting | Failed
  datatype Outcome = Ok | Conflict | Full | Corrupt | BridgeFailed | AckNotDurable

  predicate Unique(s: seq<Entry>) {
    forall i, j | 0 <= i < j < |s| :: s[i].evidence.request != s[j].evidence.request
  }

  /** What the reader of the outbox accepts. */
  predicate Readable(s: seq<Entry>) {
    |s| <= MAX_ENTRIES && Unique(s) && forall e | e in s :: 0 <= e.received && e.expires - e.received == TTL
  }

  /** The entries of these requests, in their order. */
  function Keep(s: seq<Entry>, requests: set<string>): (r: seq<Entry>)
    ensures forall e :: e in r <==> e in s && e.evidence.request in requests
    ensures |r| <= |s|
  {
    if s == [] then []
    else if s[|s| - 1].evidence.request in requests then Keep(s[..|s| - 1], requests) + [s[|s| - 1]]
    else Keep(s[..|s| - 1], requests)
  }

  function Requests(s: seq<Entry>): set<string> { set e | e in s :: e.evidence.request }

  function Fresh(s: seq<Entry>, now: int): set<string> { set e | e in s && now < e.expires :: e.evidence.request }

  /** `pruneEvidenceOutbox`. */
  function Current(s: seq<Entry>, now: int): seq<Entry> { Keep(s, Fresh(s, now)) }

  lemma {:induction false} KeepReadable(s: seq<Entry>, requests: set<string>)
    requires Unique(s)
    ensures Unique(Keep(s, requests))
    ensures Readable(s) ==> Readable(Keep(s, requests))
  {
    if s != [] {
      KeepReadable(s[..|s| - 1], requests);
      assert forall e | e in s[..|s| - 1] :: e.evidence.request != s[|s| - 1].evidence.request;
    }
  }

  lemma {:induction false} KeepTwice(s: seq<Entry>, a: set<string>, b: set<string>)
    ensures Keep(Keep(s, a), b) == Keep(s, a * b)
  {
    if s != [] {
      KeepTwice(s[..|s| - 1], a, b);
      if s[|s| - 1].evidence.request in a {
        assert Keep(s, a)[..|Keep(s, a)| - 1] == Keep(s[..|s| - 1], a);
      }
    }
  }

  lemma {:induction false} KeepAll(s: seq<Entry>, requests: set<string>)
    requires Requests(s) <= requests
    ensures Keep(s, requests) == s
  {
    if s != [] {
      assert s[|s| - 1] in s;
      assert Requests(s[..|s| - 1]) <= Requests(s);
      KeepAll(s[..|s| - 1], requests);
    }
  }

  function Find(s: seq<Entry>, request: string): (r: Option<Entry>)
    ensures r.Some? ==> r.value in s && r.value.evidence.request == request
    ensures r.None? ==> request !in Requests(s)
  {
    if s == [] then None else if s[0].evidence.request == request then Some(s[0]) else Find(s[1..], request)
  }

  predicate Identical(previous: Evidence, e: Evidence) {
    if previous.proof.Some? || e.proof.Some? then previous == e else previous.conversation == e.conversation
  }

  // ---- What an operation leaves in storage -------------------------------------------------------

  /** Queueing keeps what is current and adds the new evidence at the end, once. */
  function Queued(s: seq<Entry>, e: Evidence, now: int): (seq<Entry>, Outcome) {
    var entries := Current(s, now);
    match Find(entries, e.request)
    case Some(p) => (entries, if Identical(p.evidence, e) then Ok else Conflict)
    case None =>
      if |entries| >= MAX_ENTRIES then (entries, Full) else (entries + [Entry(e, now, now + TTL)], Ok)
  }

  datatype Event =
    | Queues(evidence: Evidence, at: int)
    | Flushes(durable: set<string>, at: int)

  /** A flush prunes first; then what the bridge took durably goes, and nothing else. */
  function After(s: seq<Entry>, event: Event): seq<Entry> {
    match event
    case Queues(e, now) => Queued(s, e, now).0
    case Flushes(durable, now) => Keep(Current(s, now), Requests(s) - durable)
  }

  function Run(s: seq<Entry>, events: seq<Event>): seq<Entry> {
    if events == [] then s else After(Run(s, events[..|events| - 1]), events[|events| - 1])
  }

  lemma AfterIsReadable(s: seq<Entry>, event: Event)
    requires Readable(s) && event.at >= 0
    ensures Readable(After(s, event))
  {
    KeepReadable(s, Fresh(s, event.at));
    KeepReadable(Current(s, event.at), if event.Flushes? then Requests(s) - event.durable else {});
    if event.Queues? && Find(Current(s, event.at), event.evidence.request).None? {
      assert forall e | e in Current(s, event.at) :: e.evidence.request in Requests(Current(s, event.at));
    }
  }

  /** What can take an entry out of the outbox. */
  predicate Settles(event: Event, e: Entry) {
    e.expires <= event.at || (event.Flushes? && e.evidence.request in event.durable)
  }

  lemma EntryStays(s: seq<Entry>, event: Event, e: Entry)
    requires e in s && !Settles(event, e)
    ensures e in After(s, event)
  {
    assert e.evidence.request in Fresh(s, event.at) && e.evidence.request in Requests(s);
  }

  /**
   Over every run of queueing and flushing every stored image passes the reader's validation, and an entry once
   stored stays until the bridge has it durably or it expires.
   */
  lemma {:induction false} EntriesStayUntilSettled(s: seq<Entry>, events: seq<Event>, e: Entry)
    requires Readable(s) && e in s && forall x | x in events :: x.at >= 0
    ensures Readable(Run(s, events))
    ensures e in Run(s, events) || exists x :: x in events && Settles(x, e)
  {
    if events != [] {
      var front, last := events[..|events| - 1], events[|events| - 1];
      assert last in events;
      EntriesStayUntilSettled(s, front, e);
      AfterIsReadable(Run(s, front), last);
      if e in Run(s, front) && !Settles(last, e) {
        EntryStays(Run(s, front), last, e);
      } else if e !in Run(s, front) {
        var x :| x in front && Settles(x, e);
        assert x in events;
      }
    }
  }

  predicate Precedes(s: seq<Entry>, a: Entry, b: Entry) {
    exists i, j | 0 <= i < j < |s| :: s[i] == a && s[j] == b
  }

  lemma {:induction false} KeepOrders(s: seq<Entry>, requests: set<string>, a: Entry, b: Entry)
    requires Precedes(s, a, b) && a.evidence.request in requests && b.evidence.request in requests
    ensures Precedes(Keep(s, requests), a, b)
  {
    var n := |s| - 1;
    var i, j :| 0 <= i < j < |s| && s[i] == a && s[j] == b;
    if j < n {
      assert s[..n][i] == a && s[..n][j] == b;
      KeepOrders(s[..n], requests, a, b);
      PrecedesStill(Keep(s[..n], requests), if s[n].evidence.request in requests then [s[n]] else [], a, b);
    } else {
      assert a in s[..n];
      var kept := Keep(s[..n], requests);
      var k :| 0 <= k < |kept| && kept[k] == a;
      assert Keep(s, requests)[k] == a && Keep(s, requests)[|kept|] == b;
    }
  }

  lemma PrecedesStill(s: seq<Entry>, more: seq<Entry>, a: Entry, b: Entry)
    requires Precedes(s, a, b)
    ensures Precedes(s + more, a, b)
  {
    var i, j :| 0 <= i < j < |s| && s[i] == a && s[j] == b;
    assert (s + more)[i] == a && (s + more)[j] == b;
  }

  lemma StepOrders(s: seq<Entry>, event: Event, a: Entry, b: Entry)
    requires Precedes(s, a, b) && a in After(s, event) && b in After(s, event)
    ensures Precedes(After(s, event), a, b)
  {
    var unexpired := Fresh(s, event.at);
    StaysInCurrent(s, event, a);
    StaysInCurrent(s, event, b);
    KeepOrders(s, unexpired, a, b);
    var current := Current(s, event.at);
    match event
    case Flushes(durable, _) => KeepOrders(current, Requests(s) - durable, a, b);
    case Queues(e, now) =>
      PrecedesStill(current, if Find(current, e.request).None? && |current| < MAX_ENTRIES then [Entry(e, now, now + TTL)] else [], a, b);
  }

  lemma StaysInCurrent(s: seq<Entry>, event: Event, a: Entry)
    requires a in s && a in After(s, event)
    ensures a.evidence.request in Fresh(s, event.at)
  {
  }

  /** Along every run two entries keep their order for as long as both are stored. */
  lemma {:induction false} OrderStays(s: seq<Entry>, events: seq<Event>, i: nat, j: nat, a: Entry, b: Entry)
    requires i <= j <= |events| && Precedes(Run(s, events[..i]), a, b)
    requires forall k: nat | i <= k <= j :: a in Run(s, events[..k]) && b in Run(s, events[..k])
    ensures Precedes(Run(s, events[..j]), a, b)
    decreases j
  {
    hide After, Precedes;
    if i < j {
      OrderStays(s, events, i, j - 1, a, b);
      assert events[..j][..j - 1] == events[..j - 1];
      assert a in Run(s, events[..j]) && b in Run(s, events[..j]);
      StepOrders(Run(s, events[..j - 1]), events[j - 1], a, b);
    }
  }

  // ---- The worker ---------------------------------------------------------------------------------

  class EvidenceWorker {
    var stored: seq<Entry>
    var clock: nat

    constructor ()
      ensures stored == []
    {
      stored, clock := [], 0;
    }

    method Await()
      modifies this`clock
      ensures clock >= old(clock)
    {
      var elapsed: int := *;
      if elapsed > 0 {
        clock := clock + elapsed;
      }
    }

    method QueueEvidence(evidence: Evidence) returns (outcome: Outcome)
      requires Readable(stored)
      modifies this
      ensures Readable(stored)
      ensures (stored, outcome) == Queued(old(stored), evidence, clock) && clock >= old(clock)
    {
      Await();
      AfterIsReadable(stored, Queues(evidence, clock));
      var entries := Current(stored, clock);
      stored := entries;
      var previous := Find(entries, evidence.request);
      if previous.Some? {
        return if Identical(previous.value.evidence, evidence) then Ok else Conflict;
      }
      if |entries| >= MAX_ENTRIES {
        return Full;
      }
      stored := entries + [Entry(evidence, clock, clock + TTL)];
      outcome := Ok;
    }

    /**
     Posts the current entries in order. One the bridge refuses as conflicting stays and blocks nobody; any
     other failure ends the flush. Exactly what was taken durably is gone, and `died` may cut it short anywhere.
     */
    method FlushEvidenceOutbox() returns (outcome: Outcome, died: bool, ghost start: int, ghost posted: seq<Entry>, ghost answers: seq<Reply>)
      requires Readable(stored)
      modifies this
      ensures Readable(stored) && old(clock) <= start <= clock && |posted| == |answers|
      ensures stored == After(old(stored), Flushes(Taken(posted, answers), start))
      ensures forall e | e in posted :: e in Current(old(stored), start)
      ensures !died && outcome in {Ok, Conflict} ==>
                (forall e | e in Current(old(stored), start) :: e in posted || e.expires <= clock)
                && forall r | r in answers :: r in {Durable, Conflicting}
      ensures !died && outcome == Ok ==> forall r | r in answers :: r.Durable?
    {
      hide Keep, Fresh, Requests, Taken, Readable, Unique;
      Await();
      start := clock;
      ghost var was := stored;
      var pending := Current(stored, clock);
      PruningStarts(stored, clock);
      stored := pending;
      outcome, died, posted, answers := Ok, false, [], [];
      var i := 0;
      while i < |pending|
        invariant i <= |pending| && start <= clock && |posted| == |answers| && !died
        invariant Readable(stored) && stored == Keep(pending, Requests(was) - Taken(posted, answers))
        invariant forall e | e in posted :: e in pending
        invariant forall e | e in pending[..i] :: e in posted || e.expires <= clock
        invariant forall r | r in answers :: r in {Durable, Conflicting}
        invariant outcome in {Ok, Conflict} && (outcome == Ok ==> forall r | r in answers :: r.Durable?)
      {
        var entry := pending[i];
        i := i + 1;
        if entry.expires <= clock {
          continue;
        }
        Await();
        died := *;
        if died {
          return;
        }
        var reply := Post();
        TakenGrows(posted, answers, entry, reply);
        ghost var taken := Taken(posted, answers);
        posted, answers := posted + [entry], answers + [reply];
        if reply.Conflicting? {
          outcome := Conflict;
          continue;
        }
        if reply.Failed? {
          outcome := BridgeFailed;
          return;
        }
        if reply.NotDurable? {
          outcome := AckNotDurable;
          return;
        }
        DroppingTaken(pending, Requests(was), taken, entry.evidence.request);
        stored := Keep(stored, Requests(stored) - {entry.evidence.request});
      }
      assert pending[..i] == pending;
    }

    method Post() returns (reply: Reply) {
      reply := *;
    }
  }

  ghost function Taken(posted: seq<Entry>, answers: seq<Reply>): set<string>
    requires |posted| == |answers|
  {
    set i | 0 <= i < |posted| && answers[i].Durable? :: posted[i].evidence.request
  }

  lemma TakenGrows(posted: seq<Entry>, answers: seq<Reply>, e: Entry, r: Reply)
    requires |posted| == |answers|
    ensures Taken(posted + [e], answers + [r]) ==
            if r.Durable? then Taken(posted, answers) + {e.evidence.request} else Taken(posted, answers)
  {
    var p, a := posted + [e], answers + [r];
    forall x ensures x in Taken(p, a) <==> x in Taken(posted, answers) || (r.Durable? && x == e.evidence.request) {
      if x in Taken(posted, answers) {
        var i :| 0 <= i < |posted| && answers[i].Durable? && posted[i].evidence.request == x;
        assert a[i].Durable? && p[i].evidence.request == x;
      }
      if r.Durable? && x == e.evidence.request {
        assert a[|posted|].Durable? && p[|posted|].evidence.request == x;
      }
    }
  }

  lemma PruningStarts(s: seq<Entry>, now: int)
    requires Readable(s)
    ensures Readable(Current(s, now)) && Taken([], []) == {}
    ensures Keep(Current(s, now), Requests(s) - {}) == Current(s, now)
  {
    KeepReadable(s, Fresh(s, now));
    KeepAll(Current(s, now), Requests(s) - {});
  }

  /** Dropping one more request from what is kept. */
  lemma DroppingTaken(s: seq<Entry>, all: set<string>, taken: set<string>, request: string)
    requires Readable(Keep(s, all - taken))
    ensures var kept := Keep(s, all - taken);
            var next := Keep(kept, Requests(kept) - {request});
            Readable(next) && next == Keep(s, all - (taken + {request}))
  {
    var kept := Keep(s, all - taken);
    KeepReadable(kept, Requests(kept) - {request});
    KeepTwice(s, all - taken, Requests(kept) - {request});
    SameKept(s, (all - taken) * (Requests(kept) - {request}), all - (taken + {request}));
  }

  lemma {:induction false} SameKept(s: seq<Entry>, a: set<string>, b: set<string>)
    requires forall e | e in s :: e.evidence.request in a <==> e.evidence.request in b
    ensures Keep(s, a) == Keep(s, b)
  {
    if s != [] {
      assert s[|s| - 1] in s;
      SameKept(s[..|s| - 1], a, b);
    }
  }
}
