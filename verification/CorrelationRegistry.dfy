/** The registry as it runs: a map kept in insertion order, trimmed from its front, saved by queued snapshots. */
module CorrelationRegistry {
  import opened Options
  import opened Correlation

  class ConversationCorrelationRegistry {
    const max: nat
    var byRequest: seq<Entry>
    var freshestRequestId: Option<string>
    var waiters: map<string, set<nat>>
    var writeQueue: seq<seq<Entry>>
    var file: seq<Entry>

    function View(): Registry
      reads this
    {
      Registry(byRequest, freshestRequestId, writeQueue, file)
    }

    ghost predicate Valid()
      reads this
    {
      Inv(View(), max)
    }

    constructor (max: nat, file: seq<Entry>)
      requires max >= 1
      ensures Valid() && this.max == max && View() == Registry([], None, [], file)
    {
      this.max := max;
      byRequest, freshestRequestId, waiters, writeQueue, this.file := [], None, map[], [], file;
    }

    method Trim()
      modifies this`byRequest
      ensures byRequest == Last(old(byRequest), max)
    {
      while |byRequest| > max
        invariant |byRequest| >= Min(|old(byRequest)|, max)
        invariant |byRequest| <= |old(byRequest)| && byRequest == old(byRequest)[|old(byRequest)| - |byRequest|..]
      {
        byRequest := byRequest[1..];
      }
    }

    static function Min(a: nat, b: nat): nat { if a < b then a else b }

    /** The first observation decides; later ones of the same conversation move the request to the end. */
    method Observe(parsed: Evidence, now: nat) returns (result: Answer)
      requires Valid()
      modifies this
      ensures Valid() && View() == Correlation.Observe(old(View()), max, parsed, now)
      ensures result == AnswerTo(old(View()), parsed)
      ensures waiters == if result.Stored? then old(waiters) - {parsed.request} else old(waiters)
    {
      hide Inv, Last, Delete, Get;
      ObserveKeepsInv(View(), max, parsed, now);
      var previous := Get(byRequest, parsed.request);
      if previous.Some? && previous.value.conversation != parsed.conversation {
        return Refused;
      }
      var changed;
      if previous.None? {
        GetNone(byRequest, parsed.request);
        byRequest := byRequest + [Entry(parsed.request, parsed.conversation, parsed.document, parsed.epoch, parsed.proof, now, now)];
        result := Stored;
        changed := true;
        freshestRequestId := Some(parsed.request);
        waiters := waiters - {parsed.request};
      } else {
        var p := previous.value;
        changed := p.last != now || p.document != parsed.document || p.epoch != parsed.epoch
          || freshestRequestId != Some(parsed.request);
        byRequest := Delete(byRequest, parsed.request);
        byRequest := byRequest + [p.(last := Max(p.last, now), document := parsed.document, epoch := parsed.epoch)];
        result := Same;
        freshestRequestId := Some(parsed.request);
      }
      Trim();
      if changed {
        writeQueue := writeQueue + [byRequest];
      }
    }

    static lemma GetNone(s: seq<Entry>, request: string)
      requires Get(s, request).None?
      ensures Delete(s, request) == s
    {
      DeleteAbsent(s, request);
    }

    /** The next queued snapshot replaces the file. */
    method WriteSnapshot()
      requires Valid() && writeQueue != []
      modifies this`writeQueue, this`file
      ensures Valid() && View() == After(old(View()), max, Wrote)
    {
      hide WellFormed;
      file := writeQueue[0];
      writeQueue := writeQueue[1..];
    }

    /** `restoreOnce` over the entries of a readable file. */
    method RestoreOnce(lines: seq<Line>)
      requires Valid()
      modifies this`byRequest, this`freshestRequestId
      ensures Valid() && View() == Restore(old(View()), max, lines)
    {
      RestoreKeepsInv(View(), max, lines);
      hide Inv, Delete, Get, Last;
      var tail := Last(lines, max);
      var i := 0;
      while i < |tail|
        invariant i <= |tail| && View() == RestoreLines(old(View()), tail[..i])
      {
        assert tail[..i + 1][..i] == tail[..i];
        var line := tail[i];
        i := i + 1;
        if !line.valid || line.entry.first > line.entry.last {
          continue;
        }
        var previous := Get(byRequest, line.entry.request);
        if previous.None? {
          byRequest := byRequest + [line.entry];
          freshestRequestId := Some(line.entry.request);
        } else if previous.value.conversation == line.entry.conversation && line.entry.last > previous.value.last {
          byRequest := Delete(byRequest, line.entry.request);
          byRequest := byRequest
            + [previous.value.(last := line.entry.last, document := line.entry.document, epoch := line.entry.epoch)];
          freshestRequestId := Some(line.entry.request);
        }
      }
      assert tail[..i] == tail;
      Trim();
    }
  }
}
