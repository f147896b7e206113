/**
 Which conversation a request was seen in. An insertion-ordered map serves as a bounded list of the most
 recently observed requests; a request keeps its first conversation; a write is skipped when nothing changed.
 */
module Correlation {
  import opened Options

  const MAX_CORRELATIONS := 50_000

  datatype Evidence = Evidence(request: string, conversation: string, document: string, epoch: nat, proof: string)
  datatype Entry = Entry(request: string, conversation: string, document: string, epoch: nat, proof: string,
                         first: nat, last: nat)
  datatype Answer = Stored | Same | Refused

  /** `byRequest` in insertion order, `freshestRequestId`, the queued snapshots and the file. */
  datatype Registry = Registry(entries: seq<Entry>, freshest: Option<string>, queue: seq<seq<Entry>>, file: seq<Entry>)

  // ---- An insertion-ordered map ---------------------------------------------------------------

  predicate Distinct(s: seq<Entry>) {
    forall i, j | 0 <= i < j < |s| :: s[i].request != s[j].request
  }

  function Ids(s: seq<Entry>): (r: seq<string>)
    ensures |r| == |s| && forall i | 0 <= i < |s| :: r[i] == s[i].request
  {
    seq(|s|, i requires 0 <= i < |s| => s[i].request)
  }

  function Get(s: seq<Entry>, request: string): (r: Option<Entry>)
    ensures r.Some? ==> r.value in s && r.value.request == request
    ensures r.None? ==> forall e | e in s :: e.request != request
  {
    if s == [] then None else if s[0].request == request then Some(s[0]) else Get(s[1..], request)
  }

  function Delete(s: seq<Entry>, request: string): (r: seq<Entry>)
    ensures forall e :: e in r <==> e in s && e.request != request
    ensures |r| <= |s|
  {
    if s == [] then []
    else if s[|s| - 1].request == request then Delete(s[..|s| - 1], request)
    else Delete(s[..|s| - 1], request) + [s[|s| - 1]]
  }

  // ---- Observing ---------------------------------------------------------------------------------

  function Max(a: nat, b: nat): nat { if a < b then b else a }

  function Observed(previous: Option<Entry>, e: Evidence, now: nat): Entry {
    match previous
    case None => Entry(e.request, e.conversation, e.document, e.epoch, e.proof, now, now)
    case Some(p) => p.(last := Max(p.last, now), document := e.document, epoch := e.epoch)
  }

  predicate Changed(r: Registry, previous: Option<Entry>, e: Evidence, now: nat) {
    previous.None? || previous.value.last != now || previous.value.document != e.document
    || previous.value.epoch != e.epoch || r.freshest != Some(e.request)
  }

  function AnswerTo(r: Registry, e: Evidence): Answer {
    match Get(r.entries, e.request)
    case None => Stored
    case Some(p) => if p.conversation != e.conversation then Refused else Same
  }

  function Observe(r: Registry, max: nat, e: Evidence, now: nat): Registry {
    if AnswerTo(r, e).Refused? then r
    else
      var previous := Get(r.entries, e.request);
      var entries := Last(Delete(r.entries, e.request) + [Observed(previous, e, now)], max);
      Registry(entries, Some(e.request), if Changed(r, previous, e, now) then r.queue + [entries] else r.queue, r.file)
  }

  // ---- Restoring -----------------------------------------------------------------------------------

  /** One stored entry; `valid` is what the schema finds. */
  datatype Line = Line(entry: Entry, valid: bool)

  function RestoreLine(r: Registry, line: Line): Registry {
    if !line.valid || line.entry.first > line.entry.last then r
    else
      match Get(r.entries, line.entry.request)
      case None => r.(entries := r.entries + [line.entry], freshest := Some(line.entry.request))
      case Some(p) =>
        if p.conversation == line.entry.conversation && line.entry.last > p.last then
          r.(entries := Delete(r.entries, p.request)
                        + [p.(last := line.entry.last, document := line.entry.document, epoch := line.entry.epoch)],
             freshest := Some(p.request))
        else r
  }

  function RestoreLines(r: Registry, lines: seq<Line>): Registry {
    if lines == [] then r else RestoreLine(RestoreLines(r, lines[..|lines| - 1]), lines[|lines| - 1])
  }

  function Restore(r: Registry, max: nat, lines: seq<Line>): Registry {
    var restored := RestoreLines(r, Last(lines, max));
    restored.(entries := Last(restored.entries, max))
  }

  // ---- Well-formed memory ----------------------------------------------------------------------------

  predicate WellFormed(s: seq<Entry>, max: nat) {
    Distinct(s) && |s| <= max && forall e | e in s :: e.first <= e.last
  }

  /** The freshest request is the last one in the map. */
  predicate Fresh(r: Registry) {
    r.freshest == if r.entries == [] then None else Some(r.entries[|r.entries| - 1].request)
  }

  ghost predicate Inv(r: Registry, max: nat) {
    max >= 1 && WellFormed(r.entries, max) && Fresh(r)
  }

  lemma {:induction false} DeleteAbsent(s: seq<Entry>, request: string)
    requires forall e | e in s :: e.request != request
    ensures Delete(s, request) == s
  {
    if s != [] {
      var front, last := s[..|s| - 1], s[|s| - 1];
      assert s == front + [last] && last in s;
      DeleteAbsent(front, request);
    }
  }

  lemma {:induction false} DeleteAt(s: seq<Entry>, i: nat)
    requires Distinct(s) && i < |s|
    ensures Delete(s, s[i].request) == s[..i] + s[i + 1..]
  {
    hide Distinct;
    var front := s[..|s| - 1];
    FrontDistinct(s);
    if i == |s| - 1 {
      DeleteAbsent(front, s[i].request);
    } else {
      assert front[i] == s[i] && s[i] in front;
      DeleteAt(front, i);
      RemovedFromFront(s, i);
    }
  }

  lemma RemovedFromFront<T>(s: seq<T>, i: nat)
    requires i < |s| - 1
    ensures s[..i] + s[i + 1..] == s[..|s| - 1][..i] + s[..|s| - 1][i + 1..] + [s[|s| - 1]]
  {
  }

  lemma FrontDistinct(s: seq<Entry>)
    requires Distinct(s) && s != []
    ensures Distinct(s[..|s| - 1]) && forall e | e in s[..|s| - 1] :: e.request != s[|s| - 1].request
  {
  }

  lemma DeleteDistinct(s: seq<Entry>, request: string)
    requires Distinct(s)
    ensures Distinct(Delete(s, request))
  {
    if i :| 0 <= i < |s| && s[i].request == request {
      DeleteAt(s, i);
    } else {
      DeleteAbsent(s, request);
    }
  }

  // ---- One observation ------------------------------------------------------------------------

  lemma TouchWellFormed(s: seq<Entry>, max: nat, e: Entry)
    requires WellFormed(s, max) && max >= 1 && e.first <= e.last
    ensures WellFormed(Last(Delete(s, e.request) + [e], max), max)
  {
    DeleteDistinct(s, e.request);
    var touched := Delete(s, e.request) + [e];
    assert Distinct(touched) && forall x | x in touched :: x.first <= x.last;
  }

  lemma ObserveKeepsInv(r: Registry, max: nat, e: Evidence, now: nat)
    requires Inv(r, max)
    ensures Inv(Observe(r, max, e, now), max)
  {
    if !AnswerTo(r, e).Refused? {
      TouchWellFormed(r.entries, max, Observed(Get(r.entries, e.request), e, now));
    }
  }

  lemma {:induction false} GetAt(s: seq<Entry>, i: nat)
    requires Distinct(s) && i < |s|
    ensures Get(s, s[i].request) == Some(s[i])
  {
    if i > 0 {
      GetAt(s[1..], i - 1);
    }
  }

  /** An observation that changes nothing leaves the memory as it is: the write it skips would repeat the last one. */
  lemma SkippedWriteLosesNothing(r: Registry, max: nat, e: Evidence, now: nat)
    requires Inv(r, max)
    ensures var v := Observe(r, max, e, now);
            v.queue == r.queue ==> v.entries == r.entries && v.freshest == r.freshest
    ensures var v := Observe(r, max, e, now);
            v.queue != r.queue ==> v.queue == r.queue + [v.entries]
  {
    var v := Observe(r, max, e, now);
    if v.queue == r.queue && !AnswerTo(r, e).Refused? {
      var previous := Get(r.entries, e.request);
      assert !Changed(r, previous, e, now);
      var n := |r.entries| - 1;
      GetAt(r.entries, n);
      DeleteAt(r.entries, n);
      assert r.entries == r.entries[..n] + [r.entries[n]];
    }
  }

  /** While a request is retained it keeps the conversation, time and proof of its first observation. */
  lemma FirstBindingWins(r: Registry, max: nat, e: Evidence, now: nat, request: string)
    requires Inv(r, max) && Get(r.entries, request).Some? && Get(Observe(r, max, e, now).entries, request).Some?
    ensures var p, q := Get(r.entries, request).value, Get(Observe(r, max, e, now).entries, request).value;
            p.conversation == q.conversation && p.first == q.first && p.proof == q.proof && p.last <= q.last
  {
    var v := Observe(r, max, e, now);
    ObserveKeepsInv(r, max, e, now);
    var p, q := Get(r.entries, request).value, Get(v.entries, request).value;
    if request != e.request {
      assert q in r.entries;
    }
  }

  // ---- Least recently observed ------------------------------------------------------------------

  function Without(s: seq<string>, x: string): (r: seq<string>)
    ensures forall y :: y in r <==> y in s && y != x
    ensures |r| <= |s|
  {
    if s == [] then []
    else if s[|s| - 1] == x then Without(s[..|s| - 1], x)
    else Without(s[..|s| - 1], x) + [s[|s| - 1]]
  }

  /** The requests of a log of observations, each once, by their latest observation, oldest first. */
  function Recency(log: seq<string>): seq<string> {
    if log == [] then [] else Without(Recency(log[..|log| - 1]), log[|log| - 1]) + [log[|log| - 1]]
  }

  lemma {:induction false} WithoutAbsent(s: seq<string>, x: string)
    requires x !in s
    ensures Without(s, x) == s
  {
    if s != [] {
      WithoutAbsent(s[..|s| - 1], x);
    }
  }

  lemma {:induction false} WithoutAt(s: seq<string>, i: nat)
    requires NoRepeats(s) && i < |s|
    ensures Without(s, s[i]) == s[..i] + s[i + 1..]
  {
    var front := s[..|s| - 1];
    if i == |s| - 1 {
      WithoutAbsent(front, s[i]);
    } else {
      WithoutAt(front, i);
      hide NoRepeats;
      assert front[i] == s[i] && front[..i] == s[..i];
      assert s[i + 1..] == front[i + 1..] + [s[|s| - 1]];
    }
  }

  lemma {:induction false} RecencyHasNoRepeats(log: seq<string>)
    ensures NoRepeats(Recency(log))
  {
    if log != [] {
      var front := Recency(log[..|log| - 1]);
      RecencyHasNoRepeats(log[..|log| - 1]);
      if i :| 0 <= i < |front| && front[i] == log[|log| - 1] {
        WithoutAt(front, i);
      } else {
        WithoutAbsent(front, log[|log| - 1]);
      }
    }
  }

  /** Observing `x` in the list cut to `max` and cutting again is observing it in the whole list and cutting. */
  lemma TouchTrims(whole: seq<string>, x: string, max: nat)
    requires NoRepeats(whole) && max >= 1
    ensures Last(Without(Last(whole, max), x) + [x], max) == Last(Without(whole, x) + [x], max)
  {
    hide NoRepeats, Without;
    if |whole| > max {
      if i :| 0 <= i < |whole| && whole[i] == x {
        if i >= |whole| - max {
          TouchKept(whole, i, max);
        } else {
          TouchDropped(whole, i, max);
        }
      } else {
        TouchNew(whole, x, max);
      }
    }
  }

  lemma TouchKept(whole: seq<string>, i: nat, max: nat)
    requires NoRepeats(whole) && 1 <= max < |whole| && |whole| - max <= i < |whole|
    ensures Last(Without(Last(whole, max), whole[i]) + [whole[i]], max) == Last(Without(whole, whole[i]) + [whole[i]], max)
  {
    var k := |whole| - max;
    hide NoRepeats, Without, Last;
    WithoutAt(whole, i);
    assert NoRepeats(whole[k..]) && whole[k..][i - k] == whole[i] && Last(whole, max) == whole[k..] by {
      KeptHasNoRepeats(whole, k);
      TrimDrops(whole, max);
    }
    WithoutAt(whole[k..], i - k);
    RemovedFromBoth(whole, i, k, whole[i]);
    TrimDrops(whole[k..][..i - k] + whole[k..][i - k + 1..] + [whole[i]], max);
    TrimDrops(whole[..i] + whole[i + 1..] + [whole[i]], max);
  }

  lemma KeptHasNoRepeats(s: seq<string>, k: nat)
    requires NoRepeats(s) && k <= |s|
    ensures NoRepeats(s[k..])
  {
  }

  lemma TrimDrops<T>(s: seq<T>, max: nat)
    requires max <= |s|
    ensures Last(s, max) == s[|s| - max..]
  {
    assert |s| == max ==> s[0..] == s;
  }

  lemma RemovedFromBoth<T>(s: seq<T>, i: nat, k: nat, x: T)
    requires k <= i < |s|
    ensures s[k..][..i - k] + s[k..][i - k + 1..] + [x] == (s[..i] + s[i + 1..] + [x])[k..]
    ensures |s[k..][..i - k] + s[k..][i - k + 1..] + [x]| == |s| - k
  {
  }

  lemma TouchDropped(whole: seq<string>, i: nat, max: nat)
    requires NoRepeats(whole) && 1 <= max < |whole| && i < |whole| - max
    ensures Last(Without(Last(whole, max), whole[i]) + [whole[i]], max) == Last(Without(whole, whole[i]) + [whole[i]], max)
  {
    var k := |whole| - max;
    hide NoRepeats, Without, Last;
    DroppedIsGone(whole, i, k);
    WithoutAt(whole, i);
    WithoutAbsent(whole[k..], whole[i]);
    TrimDrops(whole, max);
    RemovedBefore(whole, i, k, whole[i]);
    TrimDrops(whole[k..] + [whole[i]], max);
    TrimDrops(whole[..i] + whole[i + 1..] + [whole[i]], max);
  }

  lemma DroppedIsGone(s: seq<string>, i: nat, k: nat)
    requires NoRepeats(s) && i < k <= |s|
    ensures s[i] !in s[k..]
  {
  }

  lemma RemovedBefore<T>(s: seq<T>, i: nat, k: nat, x: T)
    requires i < k < |s|
    ensures (s[k..] + [x])[1..] == (s[..i] + s[i + 1..] + [x])[k..]
    ensures |s[k..] + [x]| == |s| - k + 1
  {
  }

  lemma TouchNew(whole: seq<string>, x: string, max: nat)
    requires 1 <= max < |whole| && x !in whole
    ensures Last(Without(Last(whole, max), x) + [x], max) == Last(Without(whole, x) + [x], max)
  {
    var k := |whole| - max;
    hide Without, Last;
    WithoutAbsent(whole, x);
    WithoutAbsent(whole[k..], x);
    TrimDrops(whole, max);
    TrimDrops(whole[k..] + [x], max);
    TrimDrops(whole + [x], max);
    assert (whole[k..] + [x])[1..] == (whole + [x])[k + 1..];
  }

  lemma {:induction false} IdsDelete(s: seq<Entry>, request: string)
    ensures Ids(Delete(s, request)) == Without(Ids(s), request)
  {
    if s != [] {
      IdsDelete(s[..|s| - 1], request);
      assert Ids(s)[..|s| - 1] == Ids(s[..|s| - 1]);
    }
  }

  lemma IdsTrim(s: seq<Entry>, x: Entry, max: nat)
    ensures Ids(Last(s + [x], max)) == Last(Ids(s) + [x.request], max)
  {
    assert Ids(s + [x]) == Ids(s) + [x.request];
    var k := if |s| < max then 0 else |s| + 1 - max;
    assert Ids((s + [x])[k..]) == Ids(s + [x])[k..];
  }

  /** The registry holds the most recently observed requests and no others, in the order of their observation. */
  ghost predicate HoldsRecent(r: Registry, max: nat, log: seq<string>) {
    Ids(r.entries) == Last(Recency(log), max)
  }

  lemma ObserveHoldsRecent(r: Registry, max: nat, e: Evidence, now: nat, log: seq<string>)
    requires Inv(r, max) && HoldsRecent(r, max, log) && !AnswerTo(r, e).Refused?
    ensures HoldsRecent(Observe(r, max, e, now), max, log + [e.request])
  {
    hide Last, Delete, Without, Get, WellFormed, Fresh, NoRepeats, Changed;
    var x := Observed(Get(r.entries, e.request), e, now);
    IdsDelete(r.entries, e.request);
    IdsTrim(Delete(r.entries, e.request), x, max);
    RecencyHasNoRepeats(log);
    TouchTrims(Recency(log), e.request, max);
    assert (log + [e.request])[..|log|] == log;
  }

  // ---- Saving and restoring -------------------------------------------------------------------------

  /** What the file will hold when the writes queued so far have been made. */
  function Saved(r: Registry): seq<Entry> { if r.queue == [] then r.file else r.queue[|r.queue| - 1] }

  /** An observation, a queued write being made, or the restore from the file. */
  datatype Event = Seen(evidence: Evidence, now: nat) | Wrote | Restored(lines: seq<Line>)

  predicate Possible(r: Registry, e: Event) { e.Wrote? ==> r.queue != [] }

  function After(r: Registry, max: nat, e: Event): Registry
    requires Possible(r, e)
  {
    match e
    case Seen(evidence, now) => Observe(r, max, evidence, now)
    case Wrote => r.(file := r.queue[0], queue := r.queue[1..])
    case Restored(lines) => Restore(r, max, lines)
  }

  predicate Legal(r: Registry, max: nat, events: seq<Event>)
    decreases |events|, 0
  {
    events == [] || (Legal(r, max, events[..|events| - 1]) && Possible(Run(r, max, events[..|events| - 1]), events[|events| - 1]))
  }

  function Run(r: Registry, max: nat, events: seq<Event>): Registry
    requires Legal(r, max, events)
    decreases |events|, 1
  {
    if events == [] then r else After(Run(r, max, events[..|events| - 1]), max, events[|events| - 1])
  }

  predicate Accepts(r: Registry, e: Event) { e.Seen? && !AnswerTo(r, e.evidence).Refused? }

  predicate Changes(r: Registry, e: Event) {
    Accepts(r, e) && Changed(r, Get(r.entries, e.evidence.request), e.evidence, e.now)
  }

  /** The requests observed along a run, in that order, after `log`; a restore begins with what it leaves. */
  function Order(r: Registry, max: nat, log: seq<string>, events: seq<Event>): seq<string>
    requires Legal(r, max, events)
  {
    if events == [] then log
    else
      var front, last := events[..|events| - 1], events[|events| - 1];
      if last.Restored? then Ids(Run(r, max, events).entries)
      else Order(r, max, log, front) + if Accepts(Run(r, max, front), last) then [last.evidence.request] else []
  }

  /** Memory was what is saved at the start or right after the last restore, or some observation since changed it. */
  predicate UpToDate(r: Registry, max: nat, events: seq<Event>)
    requires Legal(r, max, events)
  {
    if events == [] then Saved(r) == r.entries
    else
      var front, last := events[..|events| - 1], events[|events| - 1];
      if last.Restored? then Saved(Run(r, max, front)) == Run(r, max, events).entries
      else Changes(Run(r, max, front), last) || UpToDate(r, max, front)
  }

  predicate NoRestore(events: seq<Event>) { forall e | e in events :: !e.Restored? }

  /**
   Along every run, restores included: the registry holds exactly the most recently observed requests, in that
   order, and once the queued writes are made the file is the memory if and only if memory is up to date, as it
   always is when it was at the start and nothing has been restored.
   */
  lemma {:induction false} RegistryIsRecentAndSaved(r: Registry, max: nat, log: seq<string>, events: seq<Event>)
    requires Inv(r, max) && HoldsRecent(r, max, log) && Legal(r, max, events)
    ensures var v := Run(r, max, events);
            && Inv(v, max) && HoldsRecent(v, max, Order(r, max, log, events))
            && (Saved(v) == v.entries <==> UpToDate(r, max, events))
            && (v.queue == [] ==> (v.file == v.entries <==> UpToDate(r, max, events)))
    ensures Saved(r) == r.entries && NoRestore(events) ==> UpToDate(r, max, events)
  {
    hide Observe, Restore, Inv, HoldsRecent, Accepts, Changes;
    if events != [] {
      var front, last := events[..|events| - 1], events[|events| - 1];
      assert events == front + [last];
      RegistryIsRecentAndSaved(r, max, log, front);
      var u := Run(r, max, front);
      match last
      case Seen(evidence, now) => ObserveSaves(u, max, last, Order(r, max, log, front));
      case Wrote =>
        WriteKeepsRest(u, max, Order(r, max, log, front));
        assert Order(r, max, log, front) + [] == Order(r, max, log, front);
      case Restored(lines) => RestoreHoldsItself(u, max, lines);
    }
  }

  lemma WriteKeepsRest(r: Registry, max: nat, log: seq<string>)
    requires Inv(r, max) && HoldsRecent(r, max, log) && r.queue != []
    ensures var v := After(r, max, Wrote);
            Inv(v, max) && HoldsRecent(v, max, log) && Saved(v) == Saved(r) && v.entries == r.entries
    ensures !Accepts(r, Wrote) && !Changes(r, Wrote)
  {
    hide WellFormed, Recency;
  }

  lemma ObserveSaves(r: Registry, max: nat, e: Event, log: seq<string>)
    requires Inv(r, max) && HoldsRecent(r, max, log) && e.Seen?
    ensures var v := After(r, max, e);
            && Inv(v, max) && HoldsRecent(v, max, log + if Accepts(r, e) then [e.evidence.request] else [])
            && (Saved(v) == v.entries <==> Changes(r, e) || Saved(r) == r.entries)
  {
    ObserveKeepsInv(r, max, e.evidence, e.now);
    SkippedWriteLosesNothing(r, max, e.evidence, e.now);
    if Accepts(r, e) {
      ObserveHoldsRecent(r, max, e.evidence, e.now, log);
    } else {
      assert log + [] == log;
    }
    hide Inv, HoldsRecent, Last, Delete, Changed;
  }

  /** A restore queues no write, and what it leaves counts as observed in the order it is left in. */
  lemma RestoreHoldsItself(r: Registry, max: nat, lines: seq<Line>)
    requires Inv(r, max)
    ensures var v := Restore(r, max, lines);
            Inv(v, max) && HoldsRecent(v, max, Ids(v.entries)) && Saved(v) == Saved(r)
  {
    var v := Restore(r, max, lines);
    RestoreKeepsInv(r, max, lines);
    RestoreWritesNothing(r, Last(lines, max));
    hide Restore, RestoreLines, Fresh;
    DistinctIds(v.entries);
    RecencyOfDistinct(Ids(v.entries));
  }

  lemma DistinctIds(s: seq<Entry>)
    requires Distinct(s)
    ensures NoRepeats(Ids(s))
  {
  }

  lemma {:induction false} RestoreWritesNothing(r: Registry, lines: seq<Line>)
    ensures var v := RestoreLines(r, lines); v.queue == r.queue && v.file == r.file
  {
    if lines != [] {
      RestoreWritesNothing(r, lines[..|lines| - 1]);
    }
  }

  /** The request is in the map at every moment from `i` to `j`. */
  predicate RetainedThroughout(r: Registry, max: nat, events: seq<Event>, request: string, i: nat, j: nat)
    requires Legal(r, max, events) && i <= j <= |events|
  {
    forall k: nat | i <= k <= j :: Get(At(r, max, events, k).entries, request).Some?
  }

  function At(r: Registry, max: nat, events: seq<Event>, k: nat): Registry
    requires Legal(r, max, events) && k <= |events|
  {
    PrefixLegal(r, max, events, k);
    Run(r, max, events[..k])
  }

  lemma {:induction false} PrefixLegal(r: Registry, max: nat, events: seq<Event>, k: nat)
    requires Legal(r, max, events) && k <= |events|
    ensures Legal(r, max, events[..k])
    decreases |events|
  {
    if k == |events| {
      assert events[..k] == events;
    } else {
      PrefixLegal(r, max, events[..|events| - 1], k);
      assert events[..|events| - 1][..k] == events[..k];
    }
  }

  lemma StepAt(r: Registry, max: nat, events: seq<Event>, k: nat)
    requires Legal(r, max, events) && k < |events|
    ensures Possible(At(r, max, events, k), events[k])
    ensures At(r, max, events, k + 1) == After(At(r, max, events, k), max, events[k])
  {
    PrefixLegal(r, max, events, k);
    PrefixLegal(r, max, events, k + 1);
    assert events[..k + 1][..k] == events[..k];
  }

  lemma {:induction false} InvAt(r: Registry, max: nat, events: seq<Event>, k: nat)
    requires Inv(r, max) && Legal(r, max, events) && k <= |events|
    ensures Inv(At(r, max, events, k), max)
  {
    hide Legal, Observe, Inv, At;
    if k == 0 {
      AtStart(r, max, events);
    } else {
      InvAt(r, max, events, k - 1);
      StepAt(r, max, events, k - 1);
      AfterKeepsInv(At(r, max, events, k - 1), max, events[k - 1]);
    }
  }

  lemma AtStart(r: Registry, max: nat, events: seq<Event>)
    requires Legal(r, max, events)
    ensures At(r, max, events, 0) == r
  {
    assert events[..0] == [];
  }

  lemma AfterIs(r: Registry, max: nat, e: Event)
    requires Possible(r, e)
    ensures e.Seen? ==> After(r, max, e) == Observe(r, max, e.evidence, e.now)
    ensures e.Restored? ==> After(r, max, e) == Restore(r, max, e.lines)
  {
    hide Observe, Restore;
  }

  lemma AfterKeepsInv(r: Registry, max: nat, e: Event)
    requires Inv(r, max) && Possible(r, e)
    ensures Inv(After(r, max, e), max)
  {
    match e
    case Seen(evidence, now) => hide *; ObserveKeepsInv(r, max, evidence, now); AfterIs(r, max, e);
    case Restored(lines) => hide *; RestoreKeepsInv(r, max, lines); AfterIs(r, max, e);
    case Wrote => hide WellFormed;
  }

  predicate SameBinding(p: Entry, q: Entry) {
    p.conversation == q.conversation && p.first == q.first && p.proof == q.proof && p.last <= q.last
  }

  /** A restore brings a request it finds up to date, but binds it to nothing else. */
  lemma {:induction false} RestoreLinesKeepBinding(r: Registry, lines: seq<Line>, request: string)
    requires WellFormed(r.entries, |r.entries|) && Fresh(r) && Get(r.entries, request).Some?
    ensures Get(RestoreLines(r, lines).entries, request).Some?
    ensures SameBinding(Get(r.entries, request).value, Get(RestoreLines(r, lines).entries, request).value)
  {
    if lines != [] {
      var front, line := lines[..|lines| - 1], lines[|lines| - 1];
      RestoreLinesKeepBinding(r, front, request);
      RestoreLinesKeep(r, front);
      hide WellFormed, Fresh, RestoreLine, Get;
      RestoreLineKeepsBinding(RestoreLines(r, front), line, request);
    }
  }

  lemma RestoreLineKeepsBinding(r: Registry, line: Line, request: string)
    requires WellFormed(r.entries, |r.entries|) && Fresh(r) && Get(r.entries, request).Some?
    ensures Get(RestoreLine(r, line).entries, request).Some?
    ensures SameBinding(Get(r.entries, request).value, Get(RestoreLine(r, line).entries, request).value)
  {
    var v, p := RestoreLine(r, line), Get(r.entries, request).value;
    RestoreLineKeeps(r, line);
    if p in v.entries {
      GetIn(v.entries, p);
    } else {
      var q := v.entries[|v.entries| - 1];
      assert q in v.entries && q.request == request && SameBinding(p, q);
      GetIn(v.entries, q);
    }
  }

  lemma RestoreKeepsBinding(r: Registry, max: nat, lines: seq<Line>, request: string)
    requires Inv(r, max) && Get(r.entries, request).Some? && Get(Restore(r, max, lines).entries, request).Some?
    ensures SameBinding(Get(r.entries, request).value, Get(Restore(r, max, lines).entries, request).value)
  {
    var all := RestoreLines(r, Last(lines, max));
    RestoreLinesKeepBinding(r, Last(lines, max), request);
    RestoreLinesKeep(r, Last(lines, max));
    var q := Get(Last(all.entries, max), request).value;
    assert q in all.entries;
    GetIn(all.entries, q);
  }

  /**
   Along every run, restores included, a request keeps the binding of its first observation for as long as it is
   retained.
   */
  lemma {:induction false} BindingStays(r: Registry, max: nat, events: seq<Event>, request: string, i: nat, j: nat)
    requires Inv(r, max) && Legal(r, max, events) && i <= j <= |events| && RetainedThroughout(r, max, events, request, i, j)
    ensures Get(At(r, max, events, i).entries, request).Some? && Get(At(r, max, events, j).entries, request).Some?
    ensures SameBinding(Get(At(r, max, events, i).entries, request).value, Get(At(r, max, events, j).entries, request).value)
    decreases j
  {
    hide Legal, At, Observe, Restore, Inv, Get;
    if i < j {
      BindingStays(r, max, events, request, i, j - 1);
      var e := events[j - 1];
      StepAt(r, max, events, j - 1);
      InvAt(r, max, events, j - 1);
      if e.Seen? {
        FirstBindingWins(At(r, max, events, j - 1), max, e.evidence, e.now, request);
      } else if e.Restored? {
        RestoreKeepsBinding(At(r, max, events, j - 1), max, e.lines, request);
      }
    }
  }

  function Lines(s: seq<Entry>): (r: seq<Line>)
    ensures |r| == |s|
  {
    seq(|s|, i requires 0 <= i < |s| => Line(s[i], true))
  }

  const NEW := Registry([], None, [], [])

  lemma LastIsNew(s: seq<Entry>, x: Entry, max: nat)
    requires WellFormed(s + [x], max)
    ensures WellFormed(s, max) && x.first <= x.last && forall e | e in s :: e.request != x.request
  {
    var all := s + [x];
    assert all[|s|] == x && x in all;
    assert forall i | 0 <= i < |s| :: all[i] == s[i];
  }

  lemma {:induction false} RestoreLinesBack(r: Registry, s: seq<Entry>, max: nat)
    requires WellFormed(r.entries + s, max) && Fresh(r)
    ensures var v := RestoreLines(r, Lines(s)); v == r.(entries := r.entries + s, freshest := v.freshest) && Fresh(v)
  {
    if s == [] {
      assert r.entries + s == r.entries;
    } else {
      var front, last := s[..|s| - 1], s[|s| - 1];
      assert r.entries + s == (r.entries + front) + [last];
      assert Lines(s)[..|s| - 1] == Lines(front);
      LastIsNew(r.entries + front, last, max);
      RestoreLinesBack(r, front, max);
    }
  }

  /** A restart that reads the file a registry wrote gives back the same entries in the same order. */
  lemma RestoreGivesBack(s: seq<Entry>, max: nat)
    requires max >= 1 && WellFormed(s, max)
    ensures var v := Restore(NEW.(file := s), max, Lines(s));
            v.entries == s && Saved(v) == s && Inv(v, max) && HoldsRecent(v, max, Ids(s))
  {
    var r := NEW.(file := s);
    assert r.entries + s == s;
    RestoreLinesBack(r, s, max);
    RecencyOfDistinct(Ids(s));
  }

  lemma {:induction false} RecencyOfDistinct(s: seq<string>)
    requires NoRepeats(s)
    ensures Recency(s) == s
  {
    if s != [] {
      RecencyOfDistinct(s[..|s| - 1]);
      WithoutAbsent(s[..|s| - 1], s[|s| - 1]);
    }
  }

  lemma RestoreLineKeeps(r: Registry, line: Line)
    requires WellFormed(r.entries, |r.entries|) && Fresh(r)
    ensures var v := RestoreLine(r, line); WellFormed(v.entries, |v.entries|) && Fresh(v)
  {
    if Get(r.entries, line.entry.request).Some? {
      DeleteDistinct(r.entries, line.entry.request);
    }
  }

  lemma {:induction false} RestoreLinesKeep(r: Registry, lines: seq<Line>)
    requires WellFormed(r.entries, |r.entries|) && Fresh(r)
    ensures var v := RestoreLines(r, lines); WellFormed(v.entries, |v.entries|) && Fresh(v)
  {
    if lines != [] {
      RestoreLinesKeep(r, lines[..|lines| - 1]);
      RestoreLineKeeps(RestoreLines(r, lines[..|lines| - 1]), lines[|lines| - 1]);
    }
  }

  /** Whatever the file holds, invalid and repeated entries included, restoring it leaves a well-formed registry. */
  lemma RestoreKeepsInv(r: Registry, max: nat, lines: seq<Line>)
    requires Inv(r, max)
    ensures Inv(Restore(r, max, lines), max)
  {
    RestoreLinesKeep(r, Last(lines, max));
    hide RestoreLines;
  }

  // ---- Observations before the restore ------------------------------------------------------------

  /** The file has a later observation of the same binding. */
  predicate Outdates(x: Entry, e: Entry) { x.conversation == e.conversation && x.last > e.last }

  /** An entry observed early that the file leaves where it is. */
  predicate Stays(s: seq<Entry>, e: Entry) {
    match Get(s, e.request)
    case None => true
    case Some(x) => !Outdates(x, e)
  }

  function Stay(early: seq<Entry>, s: seq<Entry>): seq<Entry> {
    if early == [] then []
    else
      var n := |early| - 1;
      Stay(early[..n], s) + if Stays(s, early[n]) then [early[n]] else []
  }

  /** What a stored entry adds at the end: itself, what it brings up to date, or nothing. */
  function Added(early: seq<Entry>, x: Entry): (r: Option<Entry>)
    ensures r.Some? ==> r.value.request == x.request
  {
    match Get(early, x.request)
    case None => Some(x)
    case Some(p) => if Outdates(x, p) then Some(p.(last := x.last, document := x.document, epoch := x.epoch)) else None
  }

  function Follow(early: seq<Entry>, s: seq<Entry>): (r: seq<Entry>)
    ensures |r| <= |s|
  {
    if s == [] then []
    else
      var n := |s| - 1;
      var m := Added(early, s[n]);
      Follow(early, s[..n]) + if m.Some? then [m.value] else []
  }

  lemma {:induction false} StayHas(early: seq<Entry>, s: seq<Entry>, e: Entry)
    ensures e in Stay(early, s) <==> e in early && Stays(s, e)
  {
    if early != [] {
      var n := |early| - 1;
      StayHas(early[..n], s, e);
      assert early == early[..n] + [early[n]];
      hide Stays;
    }
  }

  lemma {:induction false} FollowLacks(early: seq<Entry>, s: seq<Entry>, request: string)
    requires forall x | x in s :: x.request != request
    ensures forall m | m in Follow(early, s) :: m.request != request
  {
    if s != [] {
      var n := |s| - 1;
      assert s == s[..n] + [s[n]] && s[n] in s;
      FollowLacks(early, s[..n], request);
    }
  }

  lemma DeleteSnoc(s: seq<Entry>, x: Entry, request: string)
    ensures Delete(s + [x], request) == Delete(s, request) + if x.request == request then [] else [x]
  {
    assert (s + [x])[..|s + [x]| - 1] == s;
  }

  lemma Associative<T>(a: seq<T>, b: seq<T>, c: seq<T>)
    ensures a + b + c == a + (b + c)
  {
  }

  lemma {:induction false} DeleteSplit(a: seq<Entry>, b: seq<Entry>, request: string)
    ensures Delete(a + b, request) == Delete(a, request) + Delete(b, request)
  {
    if b == [] {
      assert a + b == a && Delete(b, request) == [];
    } else {
      hide Delete;
      var front, x := b[..|b| - 1], b[|b| - 1];
      assert b == front + [x];
      Associative(a, front, [x]);
      DeleteSplit(a, front, request);
      DeleteSnoc(a + front, x, request);
      DeleteSnoc(front, x, request);
      Associative(Delete(a, request), Delete(front, request), if x.request == request then [] else [x]);
    }
  }

  lemma GetIn(s: seq<Entry>, e: Entry)
    requires Distinct(s) && e in s
    ensures Get(s, e.request) == Some(e)
  {
    var i :| 0 <= i < |s| && s[i] == e;
    GetAt(s, i);
  }

  lemma GetSnoc(s: seq<Entry>, x: Entry, request: string)
    requires Distinct(s + [x])
    ensures Get(s + [x], request) == if request == x.request then Some(x) else Get(s, request)
  {
    var all := s + [x];
    assert all[|s|] == x && x in all;
    assert forall e | e in s :: e in all;
    if request == x.request {
      GetIn(all, x);
    } else if Get(all, request).Some? {
      var e := Get(all, request).value;
      assert e in s;
      assert Distinct(s) by { assert s == all[..|all| - 1]; FrontDistinct(all); }
      GetIn(s, e);
    }
  }

  ghost predicate AllOutdated(early: seq<Entry>, x: Entry) {
    forall e | e in early && e.request == x.request :: Outdates(x, e)
  }

  ghost predicate NoneOutdated(early: seq<Entry>, x: Entry) {
    forall e | e in early && e.request == x.request :: !Outdates(x, e)
  }

  lemma StaysSnoc(s: seq<Entry>, x: Entry, e: Entry)
    requires Distinct(s + [x])
    ensures e.request == x.request ==> Stays(s, e) && (Stays(s + [x], e) <==> !Outdates(x, e))
    ensures e.request != x.request ==> (Stays(s + [x], e) <==> Stays(s, e))
  {
    FrontLacks(s, x);
    GetSnoc(s, x, e.request);
    hide Distinct, Get, Outdates;
  }

  /** One more stored entry leaves what it does not outdate where it is. */
  lemma {:induction false} StaySame(early: seq<Entry>, s: seq<Entry>, x: Entry)
    requires Distinct(s + [x]) && NoneOutdated(early, x)
    ensures Stay(early, s + [x]) == Stay(early, s)
  {
    hide Distinct, Outdates, Stays;
    if early != [] {
      var n := |early| - 1;
      assert early == early[..n] + [early[n]] && early[n] in early;
      StaysSnoc(s, x, early[n]);
      StaySame(early[..n], s, x);
    }
  }

  /** And moves what it does. */
  lemma {:induction false} StayMoves(early: seq<Entry>, s: seq<Entry>, x: Entry)
    requires Distinct(s + [x]) && AllOutdated(early, x)
    ensures Stay(early, s + [x]) == Delete(Stay(early, s), x.request)
  {
    hide Distinct, Outdates, Stays, Delete;
    if early == [] {
      DeleteAbsent([], x.request);
    } else {
      var n := |early| - 1;
      assert early == early[..n] + [early[n]] && early[n] in early;
      StaysSnoc(s, x, early[n]);
      StayMoves(early[..n], s, x);
      if Stays(s, early[n]) {
        DeleteSnoc(Stay(early[..n], s), early[n], x.request);
        assert Stay(early, s) == Stay(early[..n], s) + [early[n]];
      } else {
        assert Stay(early, s) == Stay(early[..n], s);
      }
    }
  }

  lemma FrontLacks(s: seq<Entry>, x: Entry)
    requires Distinct(s + [x])
    ensures Distinct(s) && Get(s, x.request).None?
  {
    var all := s + [x];
    assert s == all[..|all| - 1];
    FrontDistinct(all);
  }

  lemma LineGathers(r: Registry, early: seq<Entry>, front: seq<Entry>, x: Entry)
    requires Distinct(early) && Distinct(front + [x]) && x.first <= x.last
    requires Distinct(r.entries) && r.entries == Stay(early, front) + Follow(early, front)
    ensures RestoreLine(r, Line(x, true)).entries == Stay(early, front + [x]) + Follow(early, front + [x])
  {
    hide Distinct, Stay, Follow, Get, Delete;
    FoundAsBefore(early, front, x);
    OneMoreLine(early, front, x);
  }

  /** While the file is restored, its entries gather behind those observed early. */
  lemma {:induction false} FileGathersBehind(r: Registry, s: seq<Entry>)
    requires WellFormed(r.entries, |r.entries|) && Fresh(r) && WellFormed(s, |s|)
    ensures RestoreLines(r, Lines(s)).entries == Stay(r.entries, s) + Follow(r.entries, s)
  {
    if s == [] {
      StayAll(r.entries);
    } else {
      var front, x := s[..|s| - 1], s[|s| - 1];
      assert s == front + [x] && x in s && WellFormed(front, |front|);
      LinesSnoc(front, x);
      FileGathersBehind(r, front);
      RestoreLinesKeep(r, Lines(front));
      hide Distinct, Fresh, Stay, Follow, RestoreLine, Lines;
      LineGathers(RestoreLines(r, Lines(front)), r.entries, front, x);
    }
  }

  lemma LinesSnoc(front: seq<Entry>, x: Entry)
    ensures Lines(front + [x]) == Lines(front) + [Line(x, true)]
    ensures (Lines(front) + [Line(x, true)])[..|front|] == Lines(front)
  {
  }

  lemma {:induction false} StayAll(early: seq<Entry>)
    ensures Stay(early, []) == early
  {
    if early != [] {
      assert Stays([], early[|early| - 1]);
      hide Stays;
      StayAll(early[..|early| - 1]);
    }
  }

  lemma FoundAsBefore(early: seq<Entry>, front: seq<Entry>, x: Entry)
    requires Distinct(early) && Distinct(front + [x]) && Distinct(Stay(early, front) + Follow(early, front))
    ensures Get(Stay(early, front) + Follow(early, front), x.request) == Get(early, x.request)
  {
    var cur := Stay(early, front) + Follow(early, front);
    FrontLacks(front, x);
    FollowLacks(early, front, x.request);
    var p, q := Get(early, x.request), Get(cur, x.request);
    hide Stay, Follow, Distinct, Get;
    if p.Some? {
      StayHas(early, front, p.value);
      GetIn(cur, p.value);
    } else if q.Some? {
      StayHas(early, front, q.value);
    }
  }

  lemma OneMoreLine(early: seq<Entry>, front: seq<Entry>, x: Entry)
    requires Distinct(early) && Distinct(front + [x])
    ensures var s, cur := front + [x], Stay(early, front) + Follow(early, front);
            Stay(early, s) + Follow(early, s) ==
            match Get(early, x.request)
            case None => cur + [x]
            case Some(p) =>
              if Outdates(x, p)
              then Delete(cur, x.request) + [p.(last := x.last, document := x.document, epoch := x.epoch)]
              else cur
  {
    OnlyOne(early, x.request);
    FollowSnoc(early, front, x);
    hide Follow, Stay, Distinct, Get, Outdates, Delete;
    var p := Get(early, x.request);
    if p.Some? && Outdates(x, p.value) {
      StayMoves(early, front, x);
      MovedOut(early, front, x);
    } else {
      StaySame(early, front, x);
    }
    var more := if Added(early, x).Some? then [Added(early, x).value] else [];
    hide Added;
    Associative(Stay(early, front + [x]), Follow(early, front), more);
  }

  lemma MovedOut(early: seq<Entry>, front: seq<Entry>, x: Entry)
    requires Distinct(front + [x])
    ensures Delete(Stay(early, front) + Follow(early, front), x.request) == Delete(Stay(early, front), x.request) + Follow(early, front)
  {
    hide Follow, Stay, Delete;
    FrontLacks(front, x);
    hide Distinct;
    FollowLacks(early, front, x.request);
    DeleteAbsent(Follow(early, front), x.request);
    DeleteSplit(Stay(early, front), Follow(early, front), x.request);
  }

  lemma FollowSnoc(early: seq<Entry>, front: seq<Entry>, x: Entry)
    ensures Follow(early, front + [x]) == Follow(early, front) + if Added(early, x).Some? then [Added(early, x).value] else []
  {
    assert (front + [x])[..|front + [x]| - 1] == front;
  }

  lemma OnlyOne(s: seq<Entry>, request: string)
    requires Distinct(s)
    ensures forall e | e in s && e.request == request :: Get(s, request) == Some(e)
  {
    forall e | e in s && e.request == request ensures Get(s, request) == Some(e) {
      GetIn(s, e);
    }
  }

  lemma {:induction false} StaySplit(a: seq<Entry>, b: seq<Entry>, s: seq<Entry>)
    ensures Stay(a + b, s) == Stay(a, s) + Stay(b, s)
  {
    hide Stays;
    if b == [] {
      assert a + b == a;
    } else {
      var n := |b| - 1;
      StaySplit(a, b[..n], s);
      assert (a + b)[..|a + b| - 1] == a + b[..n] && (a + b)[|a + b| - 1] == b[n];
    }
  }

  lemma {:induction false} AddedFollows(early: seq<Entry>, s: seq<Entry>, x: Entry)
    requires x in s && Added(early, x).Some?
    ensures Added(early, x).value in Follow(early, s)
  {
    var n := |s| - 1;
    if x != s[n] {
      assert x in s[..n];
      AddedFollows(early, s[..n], x);
    }
  }

  lemma KeptByTrim(a: seq<Entry>, x: Entry, b: seq<Entry>, max: nat)
    requires Distinct(a + [x] + b)
    ensures x in Last(a + [x] + b, max) <==> 1 + |b| <= max
  {
    var all := a + [x] + b;
    assert all[|a|] == x;
    if |all| > max && 1 + |b| <= max {
      assert Last(all, max)[|a| - (|all| - max)] == x;
    }
  }

  /** What is restored on top of early observations: those the file does not move, and behind them the file's. */
  lemma RestoredBehindEarly(r: Registry, s: seq<Entry>, max: nat)
    requires Inv(r, max) && WellFormed(s, max)
    ensures Restore(r, max, Lines(s)).entries == Last(Stay(r.entries, s) + Follow(r.entries, s), max)
    ensures Distinct(Stay(r.entries, s) + Follow(r.entries, s))
  {
    assert Last(Lines(s), max) == Lines(s);
    FileGathersBehind(r, s);
    RestoreLinesKeep(r, Lines(s));
  }

  /**
   If observations come before the file has been restored, the file's entries are put behind them although
   they are older. An early entry the file has a later observation of moves to that place and is never lost;
   any other is kept exactly if it, the early ones behind it that stay, and what the file adds fit together.
   */
  lemma EarlyObservationsAreEvictedFirst(r: Registry, s: seq<Entry>, max: nat, i: nat)
    requires Inv(r, max) && WellFormed(s, max) && i < |r.entries|
    ensures var x, v := r.entries[i], Restore(r, max, Lines(s)).entries;
            && (Stays(s, x) ==> (x in v <==> |Stay(r.entries[i..], s)| + |Follow(r.entries, s)| <= max))
            && (!Stays(s, x) ==> Get(v, x.request) == Added(r.entries, Get(s, x.request).value))
    ensures !Stays(s, r.entries[i]) ==> Added(r.entries, Get(s, r.entries[i].request).value).Some?
  {
    RestoredBehindEarly(r, s, max);
    RestoreKeepsInv(r, max, Lines(s));
    if Stays(s, r.entries[i]) {
      StayingIsKeptIfItFits(r.entries, s, max, i);
    } else {
      GetIn(r.entries, r.entries[i]);
      AddedFollows(r.entries, s, Get(s, r.entries[i].request).value);
      TailIsKept(Stay(r.entries, s), Follow(r.entries, s), max);
      hide Stay, Follow, Get;
      GetIn(Restore(r, max, Lines(s)).entries, Added(r.entries, Get(s, r.entries[i].request).value).value);
    }
  }

  lemma StayingIsKeptIfItFits(early: seq<Entry>, s: seq<Entry>, max: nat, i: nat)
    requires i < |early| && Stays(s, early[i]) && Distinct(Stay(early, s) + Follow(early, s))
    ensures early[i] in Last(Stay(early, s) + Follow(early, s), max) <==> |Stay(early[i..], s)| + |Follow(early, s)| <= max
  {
    var x, rest, tail := early[i], early[i + 1..], Follow(early, s);
    StayAround(early, s, i);
    hide Stay, Follow, Distinct, Stays, Last;
    var a, b := Stay(early[..i], s), Stay(rest, s) + tail;
    Associative(a + [x], Stay(rest, s), tail);
    KeptByTrim(a, x, b, max);
  }

  lemma StayAround(early: seq<Entry>, s: seq<Entry>, i: nat)
    requires i < |early| && Stays(s, early[i])
    ensures Stay(early, s) == Stay(early[..i], s) + [early[i]] + Stay(early[i + 1..], s)
    ensures |Stay(early[i..], s)| == 1 + |Stay(early[i + 1..], s)|
  {
    var x, rest := early[i], early[i + 1..];
    assert early[i..] == [x] + rest && early == early[..i] + early[i..];
    assert Stay([x], s) == [x] by { assert [x][..0] == []; }
    hide Stay, Stays;
    StaySplit(early[..i], early[i..], s);
    StaySplit([x], rest, s);
    Associative(Stay(early[..i], s), [x], Stay(rest, s));
  }

  lemma TailIsKept(a: seq<Entry>, b: seq<Entry>, max: nat)
    requires |b| <= max
    ensures forall e | e in b :: e in Last(a + b, max)
  {
    var all := a + b;
    forall e | e in b ensures e in Last(all, max) {
      var i :| 0 <= i < |b| && b[i] == e;
      assert all[|a| + i] == e;
      if |all| > max {
        assert Last(all, max)[|a| + i - (|all| - max)] == e;
      }
    }
  }

  /** So a registry of one request, asked about it before it is restored, ends with the older one of its file. */
  lemma EarlyObservationLost()
    ensures var early, stored := Entry("new", "c", "d", 0, "p", 9, 9), Entry("old", "c", "d", 0, "p", 1, 1);
            var r := Registry([early], Some("new"), [], [stored]);
            Inv(r, 1) && WellFormed([stored], 1) && Restore(r, 1, Lines([stored])).entries == [stored]
  {
    var early, stored := Entry("new", "c", "d", 0, "p", 9, 9), Entry("old", "c", "d", 0, "p", 1, 1);
    var r := Registry([early], Some("new"), [], [stored]);
    assert Lines([stored])[..0] == [] && Get([early], "old") == None;
    assert RestoreLines(r, Lines([stored])) == RestoreLine(RestoreLines(r, []), Line(stored, true));
  }

  /** And what is restored behind an early observation is in no write: a restart would not find it next to the new one. */
  lemma RestoredIsNotSaved()
    ensures var early, stored := Entry("new", "c", "d", 0, "p", 9, 9), Entry("old", "c", "d", 0, "p", 1, 1);
            var r := Registry([early], Some("new"), [[early]], [stored]);
            var v := After(r, 2, Restored(Lines([stored])));
            Inv(r, 2) && Saved(r) == r.entries && v.entries == [early, stored] && Saved(v) == [early]
  {
    var early, stored := Entry("new", "c", "d", 0, "p", 9, 9), Entry("old", "c", "d", 0, "p", 1, 1);
    var r := Registry([early], Some("new"), [[early]], [stored]);
    assert Lines([stored])[..0] == [] && Get([early], "old") == None;
    assert RestoreLines(r, Lines([stored])) == RestoreLine(RestoreLines(r, []), Line(stored, true));
  }
}
