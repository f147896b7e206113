/**
 Which document of a tab may speak, and at which navigation epoch. A tab remembers its present document
 and the last eight it replaced; memory is changed first and stored afterwards.
 */
module DocumentEpochs {
  import opened Options

  const MAX_RETIRED := 8

  datatype Tab = Tab(document: Option<string>, epoch: nat, conversation: Option<string>, retired: seq<string>)

  /** The worker's variables and the stored copy they are read from after a restart. */
  datatype World = World(memory: Tab, stored: Tab)

  datatype Request =
    | Register(document: string, epoch: nat, conversation: Option<string>)
    | Authorize(document: string, epoch: nat, conversation: Option<string>)

  /** `Lost`: the worker died, or the storage refused, before the reply. */
  datatype Answer = Accepted(document: string, epoch: nat) | Refused | Lost

  /** What becomes of the write, if there is one. */
  datatype Fate = Saved | Rejected | Killed(written: bool)

  datatype Event = Asks(request: Request, fate: Fate) | Restarts

  /** A document replaced by another joins the retired ones; the oldest is forgotten. */
  function Replace(t: Tab, r: Request): Tab {
    Tab(Some(r.document), r.epoch, r.conversation,
        if t.document.Some? then Last(t.retired + [t.document.value], MAX_RETIRED) else t.retired)
  }

  /** The tab as an accepted request leaves it; None is a refusal. */
  function Handle(t: Tab, r: Request): Option<Tab> {
    if r.document in t.retired then None
    else if t.document == Some(r.document) then
      if r.epoch < t.epoch then None
      else if r.Authorize? && r.epoch == t.epoch && t.conversation.Some? && t.conversation != r.conversation then None
      else Some(t.(epoch := r.epoch, conversation := r.conversation))
    else if r.Authorize? || r.epoch != 0 then None
    else Some(Replace(t, r))
  }

  function After(w: World, e: Event): World {
    match e
    case Restarts => w.(memory := w.stored)
    case Asks(r, fate) =>
      match Handle(w.memory, r)
      case None => w
      case Some(t) =>
        if r.Authorize? && t == w.memory then w
        else match fate
          case Saved => World(t, t)
          case Rejected => World(t, w.stored)
          case Killed(written) => if written then World(t, t) else World(w.stored, w.stored)
  }

  function AnswerTo(w: World, e: Event): Answer {
    if e.Restarts? then Lost
    else
      match Handle(w.memory, e.request)
      case None => Refused
      case Some(t) =>
        if e.fate.Saved? || (e.request.Authorize? && t == w.memory) then Accepted(e.request.document, e.request.epoch) else Lost
  }

  // ---- The invariant -----------------------------------------------------------------------

  predicate Sound(t: Tab) {
    |t.retired| <= MAX_RETIRED && NoRepeats(t.retired) && (t.document.Some? ==> t.document.value !in t.retired)
  }

  lemma HandlingKeepsSound(t: Tab, r: Request)
    requires Sound(t) && Handle(t, r).Some?
    ensures Sound(Handle(t, r).value)
  {
    if t.document != Some(r.document) && t.document.Some? {
      var all := t.retired + [t.document.value];
      assert NoRepeats(all) && r.document !in all;
    }
  }

  predicate Remembers(t: Tab, document: string) { t.document == Some(document) || document in t.retired }

  /** The epoch a remembered document has reached, for as long as it may speak. */
  predicate Reached(t: Tab, document: string, epoch: nat) {
    document in t.retired || (t.document == Some(document) && epoch <= t.epoch)
  }

  /** A remembered document keeps what it has reached until it is forgotten. */
  lemma HandlingKeepsReached(t: Tab, r: Request, document: string, epoch: nat)
    requires Sound(t) && Handle(t, r).Some? && Reached(t, document, epoch)
    ensures Reached(Handle(t, r).value, document, epoch) <==> Remembers(Handle(t, r).value, document)
  {
  }

  /** A document is forgotten exactly when a ninth one is retired and it was the first of them. */
  lemma ForgottenExactlyWhen(t: Tab, r: Request, document: string)
    requires Sound(t) && Handle(t, r).Some? && Remembers(t, document)
    ensures !Remembers(Handle(t, r).value, document) <==>
            t.document.Some? && t.document != Some(r.document) && |t.retired| == MAX_RETIRED && document == t.retired[0]
  {
    if t.document.Some? && t.document != Some(r.document) {
      var all := t.retired + [t.document.value];
      var v := Handle(t, r).value;
      assert all[|t.retired|] == t.document.value;
      assert |t.retired| == MAX_RETIRED ==> v.retired == all[1..];
      if |t.retired| == MAX_RETIRED && document in t.retired && document != t.retired[0] {
        var i :| 0 <= i < |t.retired| && t.retired[i] == document;
        assert all[1..][i - 1] == document;
      }
    }
  }

  // ---- Runs ----------------------------------------------------------------------------------

  const NEW := World(Tab(None, 0, None, []), Tab(None, 0, None, []))

  function Run(events: seq<Event>): World {
    if events == [] then NEW else After(Run(events[..|events| - 1]), events[|events| - 1])
  }

  function Answered(events: seq<Event>, i: nat): Answer
    requires i < |events|
  {
    AnswerTo(Run(events[..i]), events[i])
  }

  predicate NothingRejected(events: seq<Event>) {
    forall e | e in events && e.Asks? :: !e.fate.Rejected?
  }

  /** In every run of a storage that never refuses, memory and store agree whenever the worker is at rest. */
  lemma {:induction false} StoreAgrees(events: seq<Event>)
    requires NothingRejected(events)
    ensures Run(events).memory == Run(events).stored && Sound(Run(events).memory)
  {
    if events != [] {
      var front, last := events[..|events| - 1], events[|events| - 1];
      assert last in events;
      StoreAgrees(front);
      if last.Asks? && Handle(Run(front).memory, last.request).Some? {
        HandlingKeepsSound(Run(front).memory, last.request);
      }
    }
  }

  /** A tab's present document is never one of its retired ones, whatever fails. */
  lemma {:induction false} PresentIsNotRetired(events: seq<Event>)
    ensures Sound(Run(events).memory) && Sound(Run(events).stored)
  {
    if events != [] {
      var front, last := events[..|events| - 1], events[|events| - 1];
      PresentIsNotRetired(front);
      if last.Asks? && Handle(Run(front).memory, last.request).Some? {
        HandlingKeepsSound(Run(front).memory, last.request);
      }
    }
  }

  /** The document was remembered by the tab at every moment from `i` to `j`. */
  predicate RememberedThroughout(events: seq<Event>, document: string, i: nat, j: nat)
    requires i <= j <= |events|
  {
    forall k: nat | i <= k <= j :: Remembers(Run(events[..k]).memory, document)
  }

  lemma AcceptedIsReached(w: World, e: Event)
    requires Sound(w.memory) && AnswerTo(w, e).Accepted?
    ensures Reached(After(w, e).memory, AnswerTo(w, e).document, AnswerTo(w, e).epoch)
  {
  }

  /** The worker is restarted with the stored tab: by the browser, or by dying before its write. */
  predicate FallsBack(w: World, e: Event) {
    match e
    case Restarts => true
    case Asks(r, fate) =>
      Handle(w.memory, r).Some? && !(r.Authorize? && Handle(w.memory, r).value == w.memory) && fate == Killed(false)
  }

  /** Only a fall-back can take a remembered document's epoch away, and it does unless the store has it too. */
  lemma StepKeepsReached(w: World, e: Event, document: string, epoch: nat)
    requires Sound(w.memory) && Reached(w.memory, document, epoch) && Remembers(After(w, e).memory, document)
    ensures Reached(After(w, e).memory, document, epoch) <==> (FallsBack(w, e) ==> Reached(w.stored, document, epoch))
  {
    if e.Asks? && Handle(w.memory, e.request).Some? {
      HandlingKeepsReached(w.memory, e.request, document, epoch);
    }
  }

  /** From `i` on the document keeps the epoch. */
  predicate ReachedThroughout(events: seq<Event>, document: string, epoch: nat, i: nat, j: nat)
    requires i <= j <= |events|
  {
    forall k: nat | i <= k <= j :: Reached(Run(events[..k]).memory, document, epoch)
  }

  /** At every fall-back the stored tab has the document at that epoch. */
  predicate StoredAtFallBacks(events: seq<Event>, document: string, epoch: nat, i: nat, j: nat)
    requires i <= j <= |events|
  {
    forall k: nat | i <= k < j && FallsBack(Run(events[..k]), events[k]) :: Reached(Run(events[..k]).stored, document, epoch)
  }

  /** At every fall-back no refused write is outstanding: memory is what is stored. */
  predicate NothingOutstanding(events: seq<Event>, i: nat, j: nat)
    requires i <= j <= |events|
  {
    forall k: nat | i <= k < j && FallsBack(Run(events[..k]), events[k]) :: Run(events[..k]).memory == Run(events[..k]).stored
  }

  /** While a tab remembers a document it keeps the epoch exactly if the store has it at every fall-back. */
  lemma {:induction false} ReachedExactlyWhile(events: seq<Event>, document: string, epoch: nat, i: nat, j: nat)
    requires i <= j <= |events| && Reached(Run(events[..i]).memory, document, epoch)
    requires RememberedThroughout(events, document, i, j)
    ensures ReachedThroughout(events, document, epoch, i, j) <==> StoredAtFallBacks(events, document, epoch, i, j)
    decreases j
  {
    hide Run, After, Reached, Remembers, FallsBack;
    if i < j {
      ReachedExactlyWhile(events, document, epoch, i, j - 1);
      RunStep(events, j - 1);
      PresentIsNotRetired(events[..j - 1]);
      if Reached(Run(events[..j - 1]).memory, document, epoch) {
        assert Remembers(Run(events[..j]).memory, document);
        StepKeepsReached(Run(events[..j - 1]), events[j - 1], document, epoch);
      }
    }
  }

  lemma {:induction false} ReachedWithNothingOutstanding(events: seq<Event>, document: string, epoch: nat, i: nat, j: nat)
    requires i <= j <= |events| && Reached(Run(events[..i]).memory, document, epoch)
    requires RememberedThroughout(events, document, i, j) && NothingOutstanding(events, i, j)
    ensures Reached(Run(events[..j]).memory, document, epoch)
    decreases j
  {
    hide Run, After, Reached, Remembers, FallsBack;
    if i < j {
      ReachedWithNothingOutstanding(events, document, epoch, i, j - 1);
      RunStep(events, j - 1);
      PresentIsNotRetired(events[..j - 1]);
      assert Remembers(Run(events[..j]).memory, document);
      StepKeepsReached(Run(events[..j - 1]), events[j - 1], document, epoch);
    }
  }

  /**
   The epochs accepted for one document of a tab never decrease for as long as the tab remembers the document,
   over rejected writes, restarts and deaths, provided memory is what is stored whenever the worker falls back.
   */
  lemma EpochsNeverDecrease(events: seq<Event>, i: nat, j: nat)
    requires i < j < |events| && NothingOutstanding(events, i + 1, j)
    requires Answered(events, i).Accepted? && Answered(events, j).Accepted?
    requires Answered(events, i).document == Answered(events, j).document
    requires RememberedThroughout(events, Answered(events, i).document, i + 1, j)
    ensures Answered(events, i).epoch <= Answered(events, j).epoch
  {
    var document, epoch := Answered(events, i).document, Answered(events, i).epoch;
    PresentIsNotRetired(events[..i]);
    assert events[..i + 1][..i] == events[..i];
    AcceptedIsReached(Run(events[..i]), events[i]);
    hide RememberedThroughout, NothingOutstanding;
    ReachedWithNothingOutstanding(events, document, epoch, i + 1, j);
  }

  /**
   And if it is not: a worker that falls back when memory has the present document at a higher epoch than the
   store accepts exactly the epochs from the stored one on again, the ones it had left behind included.
   */
  lemma StaleStoreAcceptsAgain(events: seq<Event>, e: Event, document: string, epoch: nat, conversation: Option<string>)
    requires FallsBack(Run(events), e)
    requires Run(events).memory.document == Some(document) && Run(events).stored.document == Some(document)
    ensures AnswerTo(Run(events + [e]), Asks(Register(document, epoch, conversation), Saved)) == Accepted(document, epoch)
            <==> Run(events).stored.epoch <= epoch
  {
    PresentIsNotRetired(events);
    FallenBack(Run(events), e);
    OneMoreEvent(events, e);
    hide Run, After, FallsBack, Handle, Sound;
    RegisterPresent(Run(events + [e]), document, epoch, conversation);
  }

  lemma OneMoreEvent(events: seq<Event>, e: Event)
    ensures Run(events + [e]) == After(Run(events), e)
  {
    assert (events + [e])[..|events|] == events;
  }

  lemma FallenBack(w: World, e: Event)
    requires FallsBack(w, e)
    ensures After(w, e).memory == w.stored
  {
  }

  lemma RegisterPresent(w: World, document: string, epoch: nat, conversation: Option<string>)
    requires Sound(w.memory) && w.memory.document == Some(document)
    ensures AnswerTo(w, Asks(Register(document, epoch, conversation), Saved)) == Accepted(document, epoch) <==> w.memory.epoch <= epoch
  {
  }

  /** A forgotten document may start again, and only from nothing: epoch zero. */
  lemma ForgottenStartsAgain(w: World, e: Event)
    requires Sound(w.memory) && e.Asks? && !Remembers(w.memory, e.request.document) && e.fate.Saved?
    ensures AnswerTo(w, e).Accepted? <==> e.request.Register? && e.request.epoch == 0
  {
  }

  /**
   A write the storage refuses breaks this: the raised epoch stays in memory, a later authorization that finds
   nothing to change is answered without a write, and a restart falls back behind it.
   */
  lemma RefusedWriteFallsBack(document: string, conversation: Option<string>)
    ensures var events := [Asks(Register(document, 0, conversation), Saved),
                           Asks(Register(document, 5, conversation), Rejected),
                           Asks(Authorize(document, 5, conversation), Saved),
                           Restarts,
                           Asks(Register(document, 3, conversation), Saved)];
            && Answered(events, 2) == Accepted(document, 5) && Answered(events, 4) == Accepted(document, 3)
            && RememberedThroughout(events, document, 3, 4)
  {
    var first := Asks(Register(document, 0, conversation), Saved);
    var raised := Asks(Register(document, 5, conversation), Rejected);
    var again := Asks(Authorize(document, 5, conversation), Saved);
    var events := [first, raised, again, Restarts, Asks(Register(document, 3, conversation), Saved)];
    var at0, at5 := Tab(Some(document), 0, conversation, []), Tab(Some(document), 5, conversation, []);
    RunStep(events, 0);
    RunStep(events, 1);
    assert Run(events[..2]) == World(at5, at0);
    RunStep(events, 2);
    assert Run(events[..3]) == World(at5, at0);
    RunStep(events, 3);
    assert Run(events[..4]) == World(at0, at0);
  }

  lemma RunStep(events: seq<Event>, i: nat)
    requires i < |events|
    ensures Run(events[..i + 1]) == After(Run(events[..i]), events[i])
    ensures Run(events[..0]) == NEW
  {
    assert events[..i + 1][..i] == events[..i];
  }

  // ---- The worker ------------------------------------------------------------------------------

  /** One tab's entries of the worker's four maps, and their stored copies. */
  class TabDocuments {
    var document: Option<string>
    var epoch: nat
    var conversation: Option<string>
    var retired: seq<string>
    var stored: Tab

    function View(): World
      reads this
    {
      World(Tab(document, epoch, conversation, retired), stored)
    }

    constructor ()
      ensures View() == NEW
    {
      document, epoch, conversation, retired := None, 0, None, [];
      stored := Tab(None, 0, None, []);
    }

    /** `persistState`, or what stops it; `load` when the worker has died. */
    method PersistState(fate: Fate) returns (saved: bool)
      modifies this
      ensures var t := old(View()).memory;
              View() == match fate
                case Saved => World(t, t)
                case Rejected => old(View())
                case Killed(written) => if written then World(t, t) else World(old(stored), old(stored))
      ensures saved <==> fate.Saved?
    {
      saved := fate.Saved?;
      if fate.Saved? || (fate.Killed? && fate.written) {
        stored := Tab(document, epoch, conversation, retired);
      } else if fate.Killed? {
        Load();
      }
    }

    method Load()
      modifies this
      ensures View() == After(old(View()), Restarts)
    {
      document, epoch, conversation, retired := stored.document, stored.epoch, stored.conversation, stored.retired;
    }

    method RegisterDocument(source: string, requested: nat, shown: Option<string>, fate: Fate) returns (answer: Answer)
      modifies this
      ensures View() == After(old(View()), Asks(Register(source, requested, shown), fate))
      ensures answer == AnswerTo(old(View()), Asks(Register(source, requested, shown), fate))
    {
      if source in retired {
        return Refused;
      }
      if document == Some(source) {
        if requested < epoch {
          return Refused;
        }
        epoch, conversation := requested, shown;
      } else {
        if requested != 0 {
          return Refused;
        }
        if document.Some? {
          retired := Last(retired + [document.value], MAX_RETIRED);
        }
        document, epoch, conversation := Some(source), requested, shown;
      }
      var saved := PersistState(fate);
      answer := if saved then Accepted(source, requested) else Lost;
    }

    method AuthorizeDocument(source: string, requested: nat, shown: Option<string>, fate: Fate) returns (answer: Answer)
      modifies this
      ensures View() == After(old(View()), Asks(Authorize(source, requested, shown), fate))
      ensures answer == AnswerTo(old(View()), Asks(Authorize(source, requested, shown), fate))
    {
      if source in retired || document != Some(source) || requested < epoch {
        return Refused;
      }
      if requested == epoch && conversation.Some? && conversation != shown {
        return Refused;
      }
      var changed := false;
      if requested > epoch {
        epoch, changed := requested, true;
      }
      if conversation != shown {
        conversation, changed := shown, true;
      }
      if changed {
        var saved := PersistState(fate);
        return if saved then Accepted(source, requested) else Lost;
      }
      answer := Accepted(source, requested);
    }
  }
}
