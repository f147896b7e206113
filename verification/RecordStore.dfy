/** `serializeRecord` and the event loop that runs what it queued. */
module RecordStore {
  import opened Options
  import opened RecordQueue

  class RecordStore<R, O> {
    const apply: (Option<R>, O) -> Option<R>
    var writes: map<string, nat>
    var promises: seq<Task<R, O>>
    var records: map<string, R>
    ghost const start: map<string, R>
    ghost var log: seq<Action<O>>

    ghost function View(): World<R, O>
      reads this
    {
      World(writes, promises, records)
    }

    ghost predicate Valid()
      reads this
    {
      Legal(apply, Idle(start), log) && View() == Run(apply, Idle(start), log) && Inv(apply, start, View())
    }

    constructor (apply: (Option<R>, O) -> Option<R>, records: map<string, R>)
      ensures Valid() && this.apply == apply && View() == Idle(records) && start == records
    {
      this.apply := apply;
      writes, promises, this.records := map[], [], records;
      start, log := records, [];
      new;
      RunKeepsInv(apply, records, []);
    }

    /** What follows an action taken by a method's own assignments. */
    ghost method Happened(a: Action<O>, was: World<R, O>)
      requires Legal(apply, Idle(start), log) && was == Run(apply, Idle(start), log) && Inv(apply, start, was)
      requires Step(apply, was, a, View())
      modifies this`log
      ensures Valid() && log == old(log) + [a]
    {
      hide Inv, Effect, Enabled;
      StepKeepsInv(apply, start, was, a, View());
      Extend(apply, Idle(start), log, a);
      log := log + [a];
    }

    /** The operation is chained to the file's last promise, or to nothing, and becomes the last one itself. */
    method SerializeRecord(file: string, op: O) returns (promise: nat)
      requires Valid()
      modifies this
      ensures Valid() && promise == |old(promises)| < |promises| && promises[promise].stage.Waiting?
      ensures View() == Effect(apply, old(View()), Submit(file, op)) && log == old(log) + [Submit(file, op)]
    {
      hide Inv, Legal;
      ghost var was := View();
      var previous := if file in writes then Some(writes[file]) else None;
      promise := |promises|;
      promises := promises + [Task(file, op, previous, Waiting, false)];
      writes := writes[file := promise];
      Happened(Submit(file, op), was);
    }

    predicate Ready(promise: nat)
      requires promise < |promises|
      reads this
    {
      var previous := promises[promise].previous;
      promises[promise].stage.Waiting? && (previous.Some? ==> previous.value < |promises| && promises[previous.value].stage.Settled?)
    }

    method Begin(promise: nat)
      requires Valid() && promise < |promises| && Ready(promise)
      modifies this
      ensures Valid() && View() == Effect(apply, old(View()), RecordQueue.Begin(promise)) && log == old(log) + [RecordQueue.Begin(promise)]
    {
      hide Inv, Legal;
      ghost var was := View();
      promises := promises[promise := promises[promise].(stage := Running)];
      Happened(RecordQueue.Begin(promise), was);
    }

    method ReadRecord(promise: nat)
      requires Valid() && promise < |promises| && promises[promise].stage.Running?
      modifies this
      ensures Valid() && View() == Effect(apply, old(View()), RecordQueue.ReadRecord(promise))
      ensures log == old(log) + [RecordQueue.ReadRecord(promise)]
    {
      hide Inv, Legal;
      ghost var was := View();
      var file := promises[promise].file;
      var seen := if file in records then Some(records[file]) else None;
      promises := promises[promise := promises[promise].(stage := Read(seen))];
      Happened(RecordQueue.ReadRecord(promise), was);
    }

    /** The operation computes its record and replaces the file, or throws; the file system may refuse. */
    method Publish(promise: nat, saved: bool) returns (result: Option<R>)
      requires Valid() && promise < |promises| && promises[promise].stage.Read?
      modifies this
      ensures Valid() && View() == Effect(apply, old(View()), RecordQueue.Publish(promise, saved))
      ensures log == old(log) + [RecordQueue.Publish(promise, saved)]
      ensures promise < |promises| && promises[promise].stage == Settled(result)
      ensures result == if saved then apply(Stored(old(View()), promises[promise].file), promises[promise].op) else None
    {
      hide Legal, Linear, ResultsExplained, Chained, Tails, AbsentIsIdle;
      ghost var was := View();
      var file := promises[promise].file;
      result := apply(promises[promise].stage.seen, promises[promise].op);
      if result.Some? && saved {
        records := records[file := result.value];
      } else {
        result := None;
      }
      promises := promises[promise := promises[promise].(stage := Settled(result))];
      Happened(RecordQueue.Publish(promise, saved), was);
    }

    /** The promise's `finally`: the map forgets the file unless a later operation has taken its place. */
    method CleanUp(promise: nat)
      requires Valid() && promise < |promises| && promises[promise].stage.Settled? && !promises[promise].cleaned
      modifies this
      ensures Valid() && View() == Effect(apply, old(View()), RecordQueue.CleanUp(promise)) && log == old(log) + [RecordQueue.CleanUp(promise)]
    {
      hide Inv, Legal;
      ghost var was := View();
      var file := promises[promise].file;
      if file in writes && writes[file] == promise {
        writes := writes - {file};
      }
      promises := promises[promise := promises[promise].(cleaned := true)];
      Happened(RecordQueue.CleanUp(promise), was);
    }

    /** A promise that can go on, if any has not been settled and cleaned up. */
    method FindNext() returns (next: Option<nat>)
      requires Valid()
      ensures next.Some? ==> next.value < |promises| && Enabled(View(), Next(View(), next.value)) && !promises[next.value].cleaned
      ensures next.None? ==> forall t | 0 <= t < |promises| :: promises[t].stage.Settled? && promises[t].cleaned
    {
      hide Inv, Legal;
      var i := 0;
      while i < |promises|
        invariant i <= |promises|
        invariant forall t: nat | t < i :: !Enabled(View(), Next(View(), t)) || promises[t].cleaned
      {
        if !promises[i].cleaned && (!promises[i].stage.Waiting? || Ready(i)) {
          return Some(i);
        }
        i := i + 1;
      }
      forall t: nat | t < |promises| ensures promises[t].stage.Settled? && promises[t].cleaned {
        NothingStuck(t);
      }
      next := None;
    }

    lemma NothingStuck(t: nat)
      requires Valid() && t < |promises|
      requires forall s: nat | s < |promises| :: !Enabled(View(), Next(View(), s)) || promises[s].cleaned
      ensures promises[t].stage.Settled? && promises[t].cleaned
    {
      hide Legal, Linear, ResultsExplained, Chained, Tails, ReadsCurrent, InOrder;
      if !promises[t].stage.Settled? {
        var s := SomeoneCanGoOn(apply, start, View(), t);
      }
    }

    /** One turn of the event loop: the promise goes on as far as its next await. */
    method Turn(t: nat)
      requires Valid() && t < |promises| && Enabled(View(), Next(View(), t)) && !promises[t].cleaned
      modifies this
      ensures Valid() && |promises| == |old(promises)| && Rank(promises) < old(Rank(promises))
      ensures forall i | 0 <= i < |promises| :: promises[i].op == old(promises)[i].op && promises[i].file == old(promises)[i].file
    {
      hide Inv, Legal, Rank;
      var was := promises;
      match promises[t].stage {
        case Waiting => Begin(t);
        case Running => ReadRecord(t);
        case Read(_) =>
          var saved: bool := *;
          var result := Publish(t, saved);
        case Settled(_) => CleanUp(t);
      }
      RankChanges(was, t, promises[t]);
    }

    /**
     The event loop until nothing is left to do: everything submitted has settled, every file holds its
     operations in submission order, and the map is empty.
     */
    method Drain()
      requires Valid()
      modifies this
      ensures Valid() && |promises| == |old(promises)| && writes == map[]
      ensures forall t | 0 <= t < |promises| :: promises[t].stage.Settled? && promises[t].op == old(promises)[t].op
                                                && promises[t].file == old(promises)[t].file
      ensures forall f :: Stored(View(), f) == Replay(apply, RecordQueue.Start(start, f), promises, f)
    {
      hide Inv, Legal;
      var next: Option<nat> := FindNext();
      while next.Some?
        invariant Valid() && |promises| == |old(promises)|
        invariant forall t | 0 <= t < |promises| ::
                    promises[t].op == old(promises)[t].op && promises[t].file == old(promises)[t].file
        invariant next.Some? ==> next.value < |promises| && Enabled(View(), Next(View(), next.value)) && !promises[next.value].cleaned
        invariant next.None? ==> forall t | 0 <= t < |promises| :: promises[t].stage.Settled? && promises[t].cleaned
        decreases Rank(promises)
      {
        Turn(next.value);
        next := FindNext();
      }
      AllCleanedIsEmpty();
    }

    lemma AllCleanedIsEmpty()
      requires Valid() && forall t | 0 <= t < |promises| :: promises[t].stage.Settled? && promises[t].cleaned
      ensures writes == map[]
      ensures forall f :: Stored(View(), f) == Replay(apply, RecordQueue.Start(start, f), promises, f)
    {
      hide Legal, ResultsExplained, Chained, AbsentIsIdle, ReadsCurrent, InOrder;
      assert forall f :: f !in writes;
    }
  }
}
