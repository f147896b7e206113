/** The bounded, shared log of negotiation events, and what a reader of it gets. */
module CapabilityTimeline {
  import opened Options
  import opened Negotiation

  datatype Entry = Entry(execution: string, event: Event)

  const DEFAULT_LIMIT := 100

  ghost predicate IsTail<T>(r: seq<T>, whole: seq<T>) {
    |r| <= |whole| && r == whole[|whole| - |r|..]
  }

  /** The entries of one execution, or all of them. */
  function Only(s: seq<Entry>, execution: Option<string>): (r: seq<Entry>)
    ensures |r| <= |s|
  {
    if s == [] then []
    else
      var front, last := Only(s[..|s| - 1], execution), s[|s| - 1];
      if execution.None? || last.execution == execution.value then front + [last] else front
  }

  /** The events of one execution. */
  function EventsOf(s: seq<Entry>, execution: string): (r: seq<Event>)
  {
    if s == [] then []
    else
      var front, last := EventsOf(s[..|s| - 1], execution), s[|s| - 1];
      if last.execution == execution then front + [last.event] else front
  }

  lemma OnlyTake(s: seq<Entry>, i: nat, execution: Option<string>)
    requires i < |s|
    ensures Only(s[..i + 1], execution) ==
            if execution.None? || s[i].execution == execution.value then Only(s[..i], execution) + [s[i]] else Only(s[..i], execution)
  {
    assert s[..i + 1][..i] == s[..i];
  }

  lemma EventsAppend(s: seq<Entry>, e: Entry, execution: string)
    ensures EventsOf(s + [e], execution) ==
            if e.execution == execution then EventsOf(s, execution) + [e.event] else EventsOf(s, execution)
  {
    assert (s + [e])[..|s|] == s;
  }

  /** What an execution's entries say is what its events are. */
  lemma {:induction false} OnlyMatchesEvents(s: seq<Entry>, execution: string)
    ensures |Only(s, Some(execution))| == |EventsOf(s, execution)|
    ensures forall i | 0 <= i < |EventsOf(s, execution)| :: Only(s, Some(execution))[i] == Entry(execution, EventsOf(s, execution)[i])
  {
    if s != [] {
      OnlyMatchesEvents(s[..|s| - 1], execution);
    }
  }

  /** Filtering a suffix gives a suffix of the filtered whole. */
  lemma {:induction false} OnlyTail(s: seq<Entry>, tail: seq<Entry>, execution: Option<string>)
    requires IsTail(tail, s)
    ensures IsTail(Only(tail, execution), Only(s, execution))
    decreases |s|
  {
    if tail != [] {
      OnlyTail(s[..|s| - 1], tail[..|tail| - 1], execution);
    }
  }

  lemma LastIsTail<T>(s: seq<T>, n: nat)
    ensures IsTail(Last(s, n), s)
  {
  }

  lemma TailOfTail<T>(r: seq<T>, tail: seq<T>, whole: seq<T>)
    requires IsTail(r, tail) && IsTail(tail, whole)
    ensures IsTail(r, whole)
  {
  }

  lemma BufferStays<T>(s: seq<T>, buffer: seq<T>, e: T, n: nat)
    requires buffer == Last(s, n) && n >= 1
    ensures Last(s + [e], n) == if |buffer| < n then buffer + [e] else (buffer + [e])[1..]
  {
    if |s| >= n {
      assert s[|s| - n..] + [e] == (s + [e])[|s| - n..];
    }
  }

  lemma AllKept<T>(s: seq<T>, n: nat)
    requires |s| <= n
    ensures Last(s, n) == s
  {
  }

  class CapabilityTimeline {
    const maxEvents: nat
    var events: seq<Entry>
    ghost var recorded: seq<Entry>

    ghost predicate Valid()
      reads this
    {
      maxEvents >= 1 && events == Last(recorded, maxEvents)
    }

    constructor (maxEvents: nat)
      requires maxEvents >= 1
      ensures Valid() && recorded == [] && this.maxEvents == maxEvents
    {
      this.maxEvents := maxEvents;
      events, recorded := [], [];
    }

    /** The buffer is always the last `maxEvents` of everything ever recorded. */
    method Record(e: Entry)
      requires Valid()
      modifies this
      ensures Valid() && recorded == old(recorded) + [e]
    {
      hide Last;
      BufferStays(recorded, events, e, maxEvents);
      events := events + [e];
      if |events| > maxEvents {
        events := events[|events| - maxEvents..];
      }
      recorded := recorded + [e];
    }

    /**
     The newest entries of an execution (or of all), oldest first: a suffix of everything ever recorded
     about it, as long as asked for unless the buffer holds fewer.
     */
    method Recent(execution: Option<string>, limit: Option<int>) returns (r: seq<Entry>)
      requires Valid()
      ensures var whole, kept := Only(recorded, execution), |Only(events, execution)|;
              var count := if limit.Some? && limit.value > 0 then Min(limit.value, maxEvents) else DEFAULT_LIMIT;
              && |r| == Min(count, kept) && IsTail(r, whole)
              && (|recorded| <= maxEvents ==> kept == |whole|)
    {
      hide Only, Last, IsTail;
      var count: nat := if limit.Some? && limit.value > 0 then Min(limit.value, maxEvents) else DEFAULT_LIMIT;
      var matching := Matching(events, execution);
      if |recorded| <= maxEvents {
        AllKept(recorded, maxEvents);
      }
      LastIsTail(recorded, maxEvents);
      OnlyTail(recorded, events, execution);
      r := Last(matching, count);
      LastIsTail(matching, count);
      TailOfTail(r, matching, Only(recorded, execution));
    }

    /** The `filter` over the buffer. */
    static method Matching(events: seq<Entry>, execution: Option<string>) returns (matching: seq<Entry>)
      ensures matching == Only(events, execution)
    {
      matching := [];
      var i := 0;
      while i < |events|
        invariant i <= |events| && matching == Only(events[..i], execution)
      {
        OnlyTake(events, i, execution);
        if execution.None? || events[i].execution == execution.value {
          matching := matching + [events[i]];
        }
        i := i + 1;
      }
      assert events[..i] == events;
    }
  }
}
