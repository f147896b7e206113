/**
 OAuth tokens, refresh rotation and authorization codes. Tokens are keyed by their hash, which is taken to
 be one-to-one, so a token stands for its own key; new tokens and codes are random, that is, never seen
 before. `saved` says whether the write of the registry succeeds.
 */
module Tokens {
  import opened Options

  datatype Kind = Access | Refresh
  datatype Token = Token(kind: Kind, client: string, subject: string, resource: string, issued: int, expires: int, revoked: bool)

  /** The live store and its file. */
  datatype Store = Store(tokens: map<string, Token>, file: map<string, Token>)

  datatype Config = Config(accessTtl: int, refreshTtl: int)

  datatype Pair = Pair(access: string, refresh: string)
  datatype Reply = Issued(pair: Pair) | Known(subject: string, client: string) | Denied | Unsaved

  const OWNER := "owner"

  predicate Alive(t: Token, now: int) { !t.revoked && t.expires > now }

  /** The filter both the reader and the writer of the registry apply. */
  function Live(tokens: map<string, Token>, now: int): (r: map<string, Token>)
    ensures forall k :: k in r <==> k in tokens && Alive(tokens[k], now)
    ensures forall k | k in r :: r[k] == tokens[k]
  {
    map k | k in tokens && Alive(tokens[k], now) :: tokens[k]
  }

  /** `isStoredToken`. */
  predicate Readable(t: Token) {
    t.client != "" && t.subject != "" && t.resource != "" && 0 <= t.issued < t.expires
  }

  /** A registry with one unreadable record is refused as a whole. */
  function Load(file: map<string, Token>, now: int): map<string, Token> {
    if forall k | k in file :: Readable(file[k]) then Live(file, now) else map[]
  }

  function Save(s: Store, tokens: map<string, Token>, now: int, saved: bool): Store {
    if saved then Store(tokens, Live(tokens, now)) else s
  }

  function WithPair(c: Config, tokens: map<string, Token>, resource: string, client: string, subject: string, now: int, p: Pair): map<string, Token> {
    tokens[p.access := Token(Access, client, subject, resource, now, now + c.accessTtl * 1000, false)]
          [p.refresh := Token(Refresh, client, subject, resource, now, now + c.refreshTtl * 1000, false)]
  }

  // ---- Operations -----------------------------------------------------------------------------

  datatype Operation =
    | Issue(resource: string, client: string, subject: string, pair: Pair)
    | Authenticate(token: string, asked: string)
    | Rotate(refresh: string, holder: string, wanted: Option<string>, next: Pair)
    | Delete(gone: string)

  predicate Rotatable(tokens: map<string, Token>, op: Operation, now: int)
    requires op.Rotate?
  {
    && op.refresh in tokens && tokens[op.refresh].kind.Refresh? && Alive(tokens[op.refresh], now)
    && tokens[op.refresh].client == op.holder && (op.wanted.Some? ==> op.wanted.value == tokens[op.refresh].resource)
  }

  function Serve(c: Config, s: Store, op: Operation, now: int, saved: bool): (Store, Reply) {
    match op
    case Issue(resource, client, subject, pair) =>
      (Save(s, WithPair(c, s.tokens, resource, client, subject, now, pair), now, saved),
       if saved then Issued(pair) else Unsaved)
    case Authenticate(token, asked) =>
      if token !in s.tokens || s.tokens[token].kind.Refresh? || s.tokens[token].revoked then (s, Denied)
      else if s.tokens[token].expires <= now then
        (Save(s, s.tokens - {token}, now, saved), if saved then Denied else Unsaved)
      else (s, if s.tokens[token].resource == asked then Known(s.tokens[token].subject, s.tokens[token].client) else Denied)
    case Rotate(refresh, _, _, next) =>
      if !Rotatable(s.tokens, op, now) then (s, Denied)
      else
        var was := s.tokens[refresh];
        (Save(s, WithPair(c, s.tokens - {refresh}, was.resource, was.client, was.subject, now, next), now, saved),
         if saved then Issued(next) else Unsaved)
    case Delete(gone) =>
      if gone !in s.tokens then (s, Denied)
      else (Save(s, s.tokens - {gone}, now, saved), if saved then Denied else Unsaved)
  }

  // ---- A restarted store -------------------------------------------------------------------------

  /** From `now` on nobody can tell the two token sets apart. */
  ghost predicate Alike(a: map<string, Token>, b: map<string, Token>, now: int) {
    Live(a, now) == Live(b, now)
  }

  lemma AlikeLater(a: map<string, Token>, b: map<string, Token>, now: int, later: int)
    requires Alike(a, b, now) && now <= later
    ensures Alike(a, b, later)
  {
    forall k ensures k in Live(a, later) <==> k in Live(b, later) {
      assert k in Live(a, now) <==> k in Live(b, now);
    }
    forall k | k in Live(a, later) ensures Live(a, later)[k] == Live(b, later)[k] {
      assert k in Live(a, now) && Live(a, now)[k] == Live(b, now)[k];
    }
  }

  lemma LiveTwice(tokens: map<string, Token>, now: int, later: int)
    requires now <= later
    ensures Live(Live(tokens, now), later) == Live(tokens, later)
  {
  }

  lemma AlikeWithout(a: map<string, Token>, b: map<string, Token>, now: int, gone: set<string>)
    requires Alike(a, b, now)
    ensures Alike(a - gone, b - gone, now)
  {
    forall k ensures k in Live(a - gone, now) <==> k in Live(b - gone, now) {
      assert k in Live(a, now) <==> k in Live(b, now);
    }
    forall k | k in Live(a - gone, now) ensures Live(a - gone, now)[k] == Live(b - gone, now)[k] {
      assert Live(a, now)[k] == Live(b, now)[k];
    }
  }

  lemma AlikeWith(a: map<string, Token>, b: map<string, Token>, now: int, key: string, t: Token)
    requires Alike(a, b, now)
    ensures Alike(a[key := t], b[key := t], now)
  {
    var x, y := Live(a[key := t], now), Live(b[key := t], now);
    forall k ensures k in x <==> k in y {
      assert k in Live(a, now) <==> k in Live(b, now);
    }
    forall k | k in x ensures x[k] == y[k] {
      assert k != key ==> k in Live(a, now) && Live(a, now)[k] == Live(b, now)[k];
    }
  }

  lemma AlikePoint(a: map<string, Token>, b: map<string, Token>, now: int, k: string)
    requires Alike(a, b, now)
    ensures k in a && Alive(a[k], now) <==> k in b && Alive(b[k], now)
    ensures k in a && Alive(a[k], now) ==> a[k] == b[k]
  {
    assert k in Live(a, now) <==> k in Live(b, now);
    assert k in Live(a, now) ==> Live(a, now)[k] == Live(b, now)[k];
  }

  /** Dropping a token that is no longer alive shows nobody anything. */
  lemma AlikeWithoutDead(a: map<string, Token>, now: int, k: string)
    requires k in a ==> !Alive(a[k], now)
    ensures Alike(a - {k}, a, now)
  {
  }

  lemma AlikePair(c: Config, a: map<string, Token>, b: map<string, Token>, resource: string, client: string, subject: string, now: int, p: Pair)
    requires Alike(a, b, now)
    ensures Alike(WithPair(c, a, resource, client, subject, now, p), WithPair(c, b, resource, client, subject, now, p), now)
  {
    var access := Token(Access, client, subject, resource, now, now + c.accessTtl * 1000, false);
    AlikeWith(a, b, now, p.access, access);
    AlikeWith(a[p.access := access], b[p.access := access], now, p.refresh,
              Token(Refresh, client, subject, resource, now, now + c.refreshTtl * 1000, false));
  }

  /** The operation takes a token away that is there, and answers nothing when it has. */
  predicate Drops(tokens: map<string, Token>, op: Operation, now: int) {
    match op
    case Authenticate(k, _) => k in tokens && tokens[k].kind.Access? && !tokens[k].revoked && tokens[k].expires <= now
    case Delete(k) => k in tokens
    case _ => false
  }

  /**
   Stores that are alike stay alike whatever happens, and they answer alike exactly unless a write fails
   that only one of them had to make: the one that remembers a dead token says so.
   */
  lemma AlikeServesAlike(c: Config, s: Store, r: Store, op: Operation, now: int, saved: bool)
    requires Alike(s.tokens, r.tokens, now)
    ensures Serve(c, s, op, now, saved).1 == Serve(c, r, op, now, saved).1
            <==> (saved || (Drops(s.tokens, op, now) <==> Drops(r.tokens, op, now)))
    ensures Alike(Serve(c, s, op, now, saved).0.tokens, Serve(c, r, op, now, saved).0.tokens, now)
  {
    if saved {
      SavedServesAlike(c, s, r, op, now);
    } else {
      FailedServesAlike(c, s, r, op, now);
    }
  }

  lemma FailedServesAlike(c: Config, s: Store, r: Store, op: Operation, now: int)
    requires Alike(s.tokens, r.tokens, now)
    ensures Serve(c, s, op, now, false).0 == s
    ensures Serve(c, s, op, now, false).1 == Serve(c, r, op, now, false).1
            <==> (Drops(s.tokens, op, now) <==> Drops(r.tokens, op, now))
  {
    match op
    case Issue(_, _, _, _) =>
    case Authenticate(token, _) => AlikePoint(s.tokens, r.tokens, now, token);
    case Rotate(refresh, _, _, _) => AlikePoint(s.tokens, r.tokens, now, refresh);
    case Delete(_) =>
  }

  lemma SavedServesAlike(c: Config, s: Store, r: Store, op: Operation, now: int)
    requires Alike(s.tokens, r.tokens, now)
    ensures Serve(c, s, op, now, true).1 == Serve(c, r, op, now, true).1
    ensures Alike(Serve(c, s, op, now, true).0.tokens, Serve(c, r, op, now, true).0.tokens, now)
  {
    hide Live, Alive;
    match op
    case Issue(resource, client, subject, pair) =>
      AlikePair(c, s.tokens, r.tokens, resource, client, subject, now, pair);
    case Authenticate(token, asked) =>
      ExpiredGoesUnseen(c, s, op, now);
      ExpiredGoesUnseen(c, r, op, now);
      AlikePoint(s.tokens, r.tokens, now, token);
      AuthenticateByLife(c, s, op, now);
      AuthenticateByLife(c, r, op, now);
    case Rotate(refresh, _, _, next) =>
      AlikePoint(s.tokens, r.tokens, now, refresh);
      if Rotatable(s.tokens, op, now) {
        AlikeWithout(s.tokens, r.tokens, now, {refresh});
        var was := s.tokens[refresh];
        AlikePair(c, s.tokens - {refresh}, r.tokens - {refresh}, was.resource, was.client, was.subject, now, next);
      }
    case Delete(gone) =>
      AlikeWithout(s.tokens, r.tokens, now, {gone});
      DeleteIsWithout(s.tokens, gone);
      DeleteIsWithout(r.tokens, gone);
  }

  lemma DeleteIsWithout(tokens: map<string, Token>, k: string)
    ensures k !in tokens ==> tokens - {k} == tokens
  {
  }

  /** Authenticating drops a token only once it is dead anyway. */
  lemma ExpiredGoesUnseen(c: Config, s: Store, op: Operation, now: int)
    requires op.Authenticate?
    ensures Alike(Serve(c, s, op, now, true).0.tokens, s.tokens, now)
  {
    if op.token in s.tokens && !Alive(s.tokens[op.token], now) {
      AlikeWithoutDead(s.tokens, now, op.token);
    }
  }

  lemma AuthenticateByLife(c: Config, s: Store, op: Operation, now: int)
    requires op.Authenticate?
    ensures Serve(c, s, op, now, true).1 ==
            if op.token in s.tokens && Alive(s.tokens[op.token], now) && s.tokens[op.token].kind.Access?
               && s.tokens[op.token].resource == op.asked
            then Known(s.tokens[op.token].subject, s.tokens[op.token].client) else Denied
  {
  }

  // ---- Runs -----------------------------------------------------------------------------------------

  datatype Call = Call(op: Operation, now: int, saved: bool)

  /** Time does not run backwards. */
  predicate InTime(start: int, calls: seq<Call>) {
    forall i | 0 <= i < |calls| :: start <= calls[i].now && (i > 0 ==> calls[i - 1].now <= calls[i].now)
  }

  function Clock(start: int, calls: seq<Call>): int { if calls == [] then start else calls[|calls| - 1].now }

  function After(c: Config, s: Store, calls: seq<Call>): Store {
    if calls == [] then s
    else
      var last := calls[|calls| - 1];
      Serve(c, After(c, s, calls[..|calls| - 1]), last.op, last.now, last.saved).0
  }

  function Replies(c: Config, s: Store, calls: seq<Call>): (r: seq<Reply>)
    ensures |r| == |calls|
  {
    if calls == [] then []
    else
      var last, front := calls[|calls| - 1], calls[..|calls| - 1];
      Replies(c, s, front) + [Serve(c, After(c, s, front), last.op, last.now, last.saved).1]
  }

  /** The file always holds what the live store will still honour. */
  lemma {:induction false} FileIsLive(c: Config, s: Store, start: int, calls: seq<Call>)
    requires Alike(s.tokens, s.file, start) && InTime(start, calls)
    ensures Alike(After(c, s, calls).tokens, After(c, s, calls).file, Clock(start, calls))
  {
    hide Live;
    if calls != [] {
      var front, last := calls[..|calls| - 1], calls[|calls| - 1];
      FileIsLive(c, s, start, front);
      var w := After(c, s, front);
      AlikeLater(w.tokens, w.file, Clock(start, front), last.now);
      SavedIsAlike(c, w, last.op, last.now, last.saved);
    }
  }

  lemma SavedIsAlike(c: Config, s: Store, op: Operation, now: int, saved: bool)
    requires Alike(s.tokens, s.file, now)
    ensures var v := Serve(c, s, op, now, saved).0; Alike(v.tokens, v.file, now)
  {
    var v := Serve(c, s, op, now, saved).0;
    if v != s {
      LiveTwice(v.tokens, now, now);
    }
    hide WithPair, Live;
  }

  /** The i-th call has its write refused, and only one of the two stores had to make it. */
  ghost predicate Differs(c: Config, s: Store, r: Store, calls: seq<Call>, i: nat)
    requires i < |calls|
  {
    && !calls[i].saved
    && (Drops(After(c, s, calls[..i]).tokens, calls[i].op, calls[i].now)
        != Drops(After(c, r, calls[..i]).tokens, calls[i].op, calls[i].now))
  }

  ghost predicate NeverDiffers(c: Config, s: Store, r: Store, calls: seq<Call>) {
    forall i | 0 <= i < |calls| :: !Differs(c, s, r, calls, i)
  }

  lemma NeverDiffersSteps(c: Config, s: Store, r: Store, calls: seq<Call>)
    requires calls != []
    ensures NeverDiffers(c, s, r, calls)
            <==> NeverDiffers(c, s, r, calls[..|calls| - 1]) && !Differs(c, s, r, calls, |calls| - 1)
  {
    hide Drops, After;
    var front := calls[..|calls| - 1];
    forall i | 0 <= i < |front| ensures Differs(c, s, r, front, i) <==> Differs(c, s, r, calls, i) {
      assert front[..i] == calls[..i];
    }
  }

  lemma {:induction false} AlikeRepliesAlike(c: Config, s: Store, r: Store, start: int, calls: seq<Call>)
    requires Alike(s.tokens, r.tokens, start) && InTime(start, calls)
    ensures Replies(c, s, calls) == Replies(c, r, calls) <==> NeverDiffers(c, s, r, calls)
    ensures Alike(After(c, s, calls).tokens, After(c, r, calls).tokens, Clock(start, calls))
  {
    hide Alike, Serve, NeverDiffers, Drops;
    if calls == [] {
      NeverDiffersAtFirst(c, s, r);
    } else {
      var front, last := calls[..|calls| - 1], calls[|calls| - 1];
      AlikeRepliesAlike(c, s, r, start, front);
      var v, w := After(c, s, front), After(c, r, front);
      AlikeLater(v.tokens, w.tokens, Clock(start, front), last.now);
      AlikeServesAlike(c, v, w, last.op, last.now, last.saved);
      NeverDiffersSteps(c, s, r, calls);
      SnocEqual(Replies(c, s, front), Replies(c, r, front),
                Serve(c, v, last.op, last.now, last.saved).1, Serve(c, w, last.op, last.now, last.saved).1);
    }
  }

  lemma NeverDiffersAtFirst(c: Config, s: Store, r: Store)
    ensures NeverDiffers(c, s, r, [])
  {
  }

  lemma SnocEqual(a: seq<Reply>, b: seq<Reply>, x: Reply, y: Reply)
    requires |a| == |b|
    ensures a + [x] == b + [y] <==> a == b && x == y
  {
    if a + [x] == b + [y] {
      assert (a + [x])[..|a|] == a && (b + [y])[..|b|] == b;
      assert (a + [x])[|a|] == x && (b + [y])[|b|] == y;
    }
  }

  function Restarted(s: Store, now: int): Store { Store(Load(s.file, now), s.file) }

  /**
   A store restarted from its file at any moment of any run gives every later sequence of calls the same
   replies as the store that kept running, although only the file was filtered, if and only if no failed
   write is asked for by a call that only one of the two has to write for.
   */
  lemma RestartIsInvisible(c: Config, s: Store, start: int, before: seq<Call>, restart: int, after: seq<Call>)
    requires Alike(s.tokens, s.file, start) && InTime(start, before) && Clock(start, before) <= restart && InTime(restart, after)
    requires AllReadable(After(c, s, before).file)
    ensures var live := After(c, s, before);
            Replies(c, Restarted(live, restart), after) == Replies(c, live, after)
            <==> NeverDiffers(c, live, Restarted(live, restart), after)
  {
    hide NeverDiffers;
    var live := After(c, s, before);
    FileIsLive(c, s, start, before);
    AlikeLater(live.tokens, live.file, Clock(start, before), restart);
    LiveTwice(live.file, restart, restart);
    AlikeRepliesAlike(c, live, Restarted(live, restart), restart, after);
  }

  /** A failed call asks for a token that was already dead at the restart and has not been taken out since. */
  ghost predicate AsksForTheDead(c: Config, live: Store, restart: int, calls: seq<Call>, i: nat)
    requires i < |calls|
  {
    var tokens := After(c, live, calls[..i]).tokens;
    && !calls[i].saved && Drops(tokens, calls[i].op, calls[i].now)
    && !Alive(tokens[if calls[i].op.Delete? then calls[i].op.gone else calls[i].op.token], restart)
  }

  /** All that the restart forgot is what was dead then: so it stays, as long as tokens are issued alive. */
  lemma {:induction false} RestartForgetsTheDead(c: Config, s: Store, r: Store, restart: int, calls: seq<Call>)
    requires c.accessTtl > 0 && c.refreshTtl > 0
    requires r.tokens == Live(s.tokens, restart) && InTime(restart, calls)
    ensures After(c, r, calls).tokens == Live(After(c, s, calls).tokens, restart)
  {
    if calls != [] {
      hide Live, Serve;
      var front, last := calls[..|calls| - 1], calls[|calls| - 1];
      RestartForgetsTheDead(c, s, r, restart, front);
      ServeForgetsTheDead(c, After(c, s, front), After(c, r, front), restart, last.op, last.now, last.saved);
    }
  }

  lemma PairIsAlive(c: Config, tokens: map<string, Token>, resource: string, client: string, subject: string, restart: int, now: int, p: Pair)
    requires c.accessTtl > 0 && c.refreshTtl > 0 && restart <= now
    ensures Live(WithPair(c, tokens, resource, client, subject, now, p), restart)
            == WithPair(c, Live(tokens, restart), resource, client, subject, now, p)
  {
  }

  lemma LiveWithout(tokens: map<string, Token>, restart: int, k: string)
    ensures Live(tokens - {k}, restart) == Live(tokens, restart) - {k}
  {
  }

  lemma ServeForgetsTheDead(c: Config, s: Store, r: Store, restart: int, op: Operation, now: int, saved: bool)
    requires c.accessTtl > 0 && c.refreshTtl > 0 && restart <= now && r.tokens == Live(s.tokens, restart)
    ensures Serve(c, r, op, now, saved).0.tokens == Live(Serve(c, s, op, now, saved).0.tokens, restart)
  {
    hide WithPair;
    match op
    case Issue(resource, client, subject, pair) =>
      PairIsAlive(c, s.tokens, resource, client, subject, restart, now, pair);
    case Authenticate(token, _) =>
      LiveWithout(s.tokens, restart, token);
    case Rotate(refresh, _, _, next) =>
      if Rotatable(s.tokens, op, now) {
        LiveWithout(s.tokens, restart, refresh);
        var was := s.tokens[refresh];
        PairIsAlive(c, s.tokens - {refresh}, was.resource, was.client, was.subject, restart, now, next);
      }
    case Delete(gone) =>
      LiveWithout(s.tokens, restart, gone);
  }

  /** Seen from the live store alone: the replies differ exactly when a failed write was asked for a token dead at the restart. */
  lemma RestartShowsOnlyTheDead(c: Config, s: Store, start: int, before: seq<Call>, restart: int, after: seq<Call>)
    requires Alike(s.tokens, s.file, start) && InTime(start, before) && Clock(start, before) <= restart && InTime(restart, after)
    requires AllReadable(After(c, s, before).file) && c.accessTtl > 0 && c.refreshTtl > 0
    ensures var live := After(c, s, before);
            Replies(c, Restarted(live, restart), after) == Replies(c, live, after)
            <==> forall i | 0 <= i < |after| :: !AsksForTheDead(c, live, restart, after, i)
  {
    var live := After(c, s, before);
    RestartIsInvisible(c, s, start, before, restart, after);
    RestartedIsLive(c, s, start, before, restart);
    hide After, Live, Alike, InTime, Load, Differs, AsksForTheDead;
    forall i | 0 <= i < |after|
      ensures Differs(c, live, Restarted(live, restart), after, i) <==> AsksForTheDead(c, live, restart, after, i)
    {
      DiffersOverTheDead(c, live, Restarted(live, restart), restart, after, i);
    }
  }

  lemma DiffersOverTheDead(c: Config, s: Store, r: Store, restart: int, calls: seq<Call>, i: nat)
    requires c.accessTtl > 0 && c.refreshTtl > 0
    requires r.tokens == Live(s.tokens, restart) && InTime(restart, calls) && i < |calls|
    ensures Differs(c, s, r, calls, i) <==> AsksForTheDead(c, s, restart, calls, i)
  {
    PrefixInTime(restart, calls, i);
    RestartForgetsTheDead(c, s, r, restart, calls[..i]);
    hide After, InTime;
  }

  lemma PrefixInTime(start: int, calls: seq<Call>, i: nat)
    requires InTime(start, calls) && i <= |calls|
    ensures InTime(start, calls[..i])
  {
  }

  lemma RestartedIsLive(c: Config, s: Store, start: int, before: seq<Call>, restart: int)
    requires Alike(s.tokens, s.file, start) && InTime(start, before) && Clock(start, before) <= restart
    requires AllReadable(After(c, s, before).file)
    ensures var live := After(c, s, before); Restarted(live, restart).tokens == Live(live.tokens, restart)
  {
    var live := After(c, s, before);
    FileIsLive(c, s, start, before);
    AlikeLater(live.tokens, live.file, Clock(start, before), restart);
  }

  const EXPIRED := Token(Access, "c", "s", "r", 0, 5, false)

  /** And then they do differ: a token expired at 5, a restart at 6, and a write that fails. */
  lemma RestartShows(c: Config)
    ensures var live, ask := Store(map["t" := EXPIRED], map["t" := EXPIRED]), [Call(Authenticate("t", "r"), 6, false)];
            && AllReadable(live.file) && Alike(live.tokens, live.file, 0)
            && Replies(c, live, ask) == [Unsaved] && Replies(c, Restarted(live, 6), ask) == [Denied]
  {
    var live, ask := Store(map["t" := EXPIRED], map["t" := EXPIRED]), [Call(Authenticate("t", "r"), 6, false)];
    assert ask[..0] == [];
    assert Replies(c, live, []) == [] && Replies(c, Restarted(live, 6), []) == [];
  }

  // ---- Readable registries -----------------------------------------------------------------------

  ghost predicate AllReadable(tokens: map<string, Token>) { forall k | k in tokens :: Readable(tokens[k]) }

  predicate Named(op: Operation) { op.Issue? ==> op.resource != "" && op.client != "" && op.subject != "" }

  lemma ReadableStep(c: Config, s: Store, op: Operation, now: int, saved: bool)
    requires c.accessTtl > 0 && c.refreshTtl > 0 && now >= 0 && AllReadable(s.tokens) && AllReadable(s.file)
    ensures var v := Serve(c, s, op, now, saved).0; AllReadable(v.file) <==> (saved ==> Named(op))
    ensures saved ==> Named(op) ==> AllReadable(Serve(c, s, op, now, saved).0.tokens)
  {
    var v := Serve(c, s, op, now, saved).0;
    if op.Issue? && saved {
      assert op.pair.refresh in v.file && v.file[op.pair.refresh] == v.tokens[op.pair.refresh];
    }
  }

  ghost predicate FilesReadable(c: Config, s: Store, calls: seq<Call>) {
    forall n | 0 <= n <= |calls| :: AllReadable(After(c, s, calls[..n]).file)
  }

  predicate AllNamed(calls: seq<Call>) { forall i | 0 <= i < |calls| && calls[i].saved :: Named(calls[i].op) }

  /**
   Every file a store writes on a run can be read by the next start if and only if every token issued on it
   names its resource, client and subject; a start on a file that cannot finds nothing at all.
   */
  lemma {:induction false} ReadableExactlyIfNamed(c: Config, s: Store, start: nat, calls: seq<Call>, restart: int)
    requires c.accessTtl > 0 && c.refreshTtl > 0 && AllReadable(s.tokens) && AllReadable(s.file) && InTime(start, calls)
    ensures FilesReadable(c, s, calls) <==> AllNamed(calls)
    ensures AllNamed(calls) ==> AllReadable(After(c, s, calls).tokens)
    ensures !AllReadable(After(c, s, calls).file) ==> Restarted(After(c, s, calls), restart).tokens == map[]
  {
    if calls == [] {
      assert calls[..0] == [];
    } else {
      var front, last := calls[..|calls| - 1], calls[|calls| - 1];
      hide Serve, AllReadable, Named, InTime;
      PrefixInTime(start, calls, |calls| - 1);
      ReadableExactlyIfNamed(c, s, start, front, restart);
      FilesReadableSteps(c, s, calls);
      AllNamedSteps(calls);
      hide AllNamed;
      if AllNamed(front) {
        LastCallIsLate(start, calls);
        FilesReadableLast(c, s, front);
        hide FilesReadable;
        ReadableStep(c, After(c, s, front), last.op, last.now, last.saved);
      }
    }
  }

  lemma AllNamedSteps(calls: seq<Call>)
    requires calls != []
    ensures AllNamed(calls) <==> AllNamed(calls[..|calls| - 1]) && (calls[|calls| - 1].saved ==> Named(calls[|calls| - 1].op))
  {
  }

  lemma FilesReadableLast(c: Config, s: Store, calls: seq<Call>)
    requires FilesReadable(c, s, calls)
    ensures AllReadable(After(c, s, calls).file)
  {
    hide After, AllReadable;
    assert calls[..|calls|] == calls;
  }

  lemma LastCallIsLate(start: nat, calls: seq<Call>)
    requires InTime(start, calls) && calls != []
    ensures calls[|calls| - 1].now >= 0
  {
  }

  lemma FilesReadableSteps(c: Config, s: Store, calls: seq<Call>)
    requires calls != []
    ensures FilesReadable(c, s, calls) <==> FilesReadable(c, s, calls[..|calls| - 1]) && AllReadable(After(c, s, calls).file)
  {
    hide After, AllReadable;
    var front := calls[..|calls| - 1];
    if FilesReadable(c, s, calls) {
      FilesReadableLast(c, s, calls);
      forall n | 0 <= n <= |front| ensures AllReadable(After(c, s, front[..n]).file) {
        assert front[..n] == calls[..n];
      }
    }
    if FilesReadable(c, s, front) && AllReadable(After(c, s, calls).file) {
      forall n | 0 <= n <= |calls| ensures AllReadable(After(c, s, calls[..n]).file) {
        if n == |calls| {
          assert calls[..n] == calls;
        } else {
          assert front[..n] == calls[..n];
        }
      }
    }
  }

  // ---- Conservation --------------------------------------------------------------------------------

  function RefreshTokens(tokens: map<string, Token>): set<string> {
    set k | k in tokens && tokens[k].kind.Refresh?
  }

  /** A rotation takes one refresh token away and puts one in its place (section 6 of RFC 6749). */
  lemma RotationConserves(c: Config, s: Store, op: Operation, now: int, saved: bool)
    requires op.Rotate? && op.next.access !in s.tokens && op.next.refresh !in s.tokens && op.next.access != op.next.refresh
    ensures var (v, reply) := Serve(c, s, op, now, saved);
            if reply.Issued?
            then RefreshTokens(v.tokens) == RefreshTokens(s.tokens) - {op.refresh} + {op.next.refresh}
                 && op.refresh in RefreshTokens(s.tokens) && |RefreshTokens(v.tokens)| == |RefreshTokens(s.tokens)|
                 && v.tokens[op.next.refresh].client == s.tokens[op.refresh].client
                 && v.tokens[op.next.refresh].subject == s.tokens[op.refresh].subject
                 && v.tokens[op.next.refresh].resource == s.tokens[op.refresh].resource
            else v == s
  {
    var (v, reply) := Serve(c, s, op, now, saved);
    if reply.Issued? {
      var before, after := RefreshTokens(s.tokens), RefreshTokens(v.tokens);
      assert after == before - {op.refresh} + {op.next.refresh};
      assert |before - {op.refresh}| == |before| - 1;
    }
  }

  /** A code's client, redirect, challenge and resource are checked outside; the code keeps what it grants. */
  datatype Code = Code(client: string, resource: string, expires: int)

  datatype Exchange = Exchange(code: string, client: string, known: bool, redirectFits: bool, resourceFits: bool, verified: bool, pair: Pair)

  datatype Request =
    | Create(name: string, code: Code)
    | Redeem(exchange: Exchange)
    | Other(op: Operation)
    | Restart

  /** The tokens, the codes outstanding, and what has happened so far. */
  datatype Authority = Authority(store: Store, codes: map<string, Code>,
                                 seen: set<string>, pairs: nat, redeemed: map<string, nat>, rotated: set<string>)

  predicate NewNames(a: Authority, p: Pair) {
    p.access !in a.seen && p.refresh !in a.seen && p.access != p.refresh
  }

  predicate Random(a: Authority, r: Request) {
    match r
    case Create(name, _) => name !in a.codes && name !in a.redeemed
    case Redeem(e) => NewNames(a, e.pair)
    case Other(Issue(_, _, _, p)) => NewNames(a, p)
    case Other(Rotate(_, _, _, p)) => NewNames(a, p)
    case _ => true
  }

  function Redeemed(a: Authority, name: string): nat { if name in a.redeemed then a.redeemed[name] else 0 }

  /**
   `exchangeAuthorizationCode`: the code is gone before its verifier is even looked at. A restart reads the
   tokens from the file and forgets the codes.
   */
  function Handle(c: Config, a: Authority, r: Request, now: int, saved: bool): Authority
    requires Random(a, r)
  {
    match r
    case Create(name, code) => a.(codes := a.codes[name := code], redeemed := a.redeemed[name := 0])
    case Redeem(e) =>
      if e.code !in a.codes || a.codes[e.code].expires <= now then a.(codes := a.codes - {e.code})
      else if !e.known || a.codes[e.code].client != e.client || !e.redirectFits || !e.resourceFits then a
      else if !e.verified then a.(codes := a.codes - {e.code})
      else
        var code := a.codes[e.code];
        var (v, reply) := Serve(c, a.store, Issue(code.resource, code.client, OWNER, e.pair), now, saved);
        if reply.Issued?
        then a.(store := v, codes := a.codes - {e.code}, seen := a.seen + {e.pair.access, e.pair.refresh},
                pairs := a.pairs + 1, redeemed := a.redeemed[e.code := Redeemed(a, e.code) + 1])
        else a.(codes := a.codes - {e.code})
    case Restart => a.(store := Restarted(a.store, now), codes := map[])
    case Other(op) =>
      var (v, reply) := Serve(c, a.store, op, now, saved);
      if reply.Issued?
      then a.(store := v, seen := a.seen + {reply.pair.access, reply.pair.refresh},
              pairs := if op.Issue? then a.pairs + 1 else a.pairs,
              rotated := if op.Rotate? then a.rotated + {op.refresh} else a.rotated)
      else a.(store := v)
  }

  /** There are at most as many refresh tokens as pairs issued, all known, and none that was rotated. */
  ghost predicate Covered(a: Authority, tokens: map<string, Token>) {
    && |RefreshTokens(tokens)| <= a.pairs
    && (forall k | k in tokens :: k in a.seen && k !in a.rotated)
  }

  /** Memory and file are covered, and no code is redeemed twice. */
  ghost predicate Conserved(a: Authority) {
    && Covered(a, a.store.tokens) && Covered(a, a.store.file)
    && a.rotated <= a.seen
    && (forall k | k in a.codes :: Redeemed(a, k) == 0)
    && (forall k | k in a.redeemed :: a.redeemed[k] <= 1)
  }

  lemma SmallerSet(a: set<string>, b: set<string>)
    requires a <= b
    ensures |a| <= |b|
  {
    assert |b - a| == |b| - |a|;
  }

  lemma TokensShrinkOrGrow(c: Config, s: Store, op: Operation, now: int, saved: bool)
    requires op.Issue? ==> op.pair.access !in s.tokens && op.pair.refresh !in s.tokens && op.pair.access != op.pair.refresh
    requires op.Rotate? ==> op.next.access !in s.tokens && op.next.refresh !in s.tokens && op.next.access != op.next.refresh
    ensures var (v, reply) := Serve(c, s, op, now, saved);
            |RefreshTokens(v.tokens)| <= |RefreshTokens(s.tokens)| + if op.Issue? && reply.Issued? then 1 else 0
  {
    var (v, reply) := Serve(c, s, op, now, saved);
    if op.Rotate? {
      RotationConserves(c, s, op, now, saved);
    } else if op.Issue? && saved {
      assert RefreshTokens(v.tokens) == RefreshTokens(s.tokens) + {op.pair.refresh};
    } else {
      SmallerSet(RefreshTokens(v.tokens), RefreshTokens(s.tokens));
    }
  }

  /** What is left of covered tokens is covered. */
  lemma FewerAreCovered(a: Authority, tokens: map<string, Token>, fewer: map<string, Token>)
    requires Covered(a, tokens) && forall k | k in fewer :: k in tokens && fewer[k] == tokens[k]
    ensures Covered(a, fewer)
  {
    SmallerSet(RefreshTokens(fewer), RefreshTokens(tokens));
  }

  /** What an operation makes of the tokens is covered, and a token it rotates away is in the file no longer. */
  lemma HandledIsCovered(c: Config, a: Authority, op: Operation, now: int, saved: bool)
    requires Conserved(a) && Random(a, Other(op))
    requires var (v, reply) := Serve(c, a.store, op, now, saved);
             |RefreshTokens(v.tokens)| <= |RefreshTokens(a.store.tokens)| + if op.Issue? && reply.Issued? then 1 else 0
    ensures var v := Handle(c, a, Other(op), now, saved);
            && Covered(v, v.store.tokens) && (v.store.file == a.store.file ==> Covered(v, v.store.file))
  {
    hide RefreshTokens;
  }

  lemma FileIsLiveOrOld(c: Config, s: Store, op: Operation, now: int, saved: bool)
    ensures var v := Serve(c, s, op, now, saved).0; v.file == s.file || v.file == Live(v.tokens, now)
  {
    hide WithPair, Live;
  }

  lemma OtherConserves(c: Config, a: Authority, op: Operation, now: int, saved: bool)
    requires Conserved(a) && Random(a, Other(op))
    ensures Conserved(Handle(c, a, Other(op), now, saved))
  {
    var v := Handle(c, a, Other(op), now, saved);
    TokensGrowByOne(c, a, op, now, saved);
    HandledIsCovered(c, a, op, now, saved);
    FileIsLiveOrOld(c, a.store, op, now, saved);
    if v.store.file != a.store.file {
      hide Covered, Serve;
      FewerAreCovered(v, v.store.tokens, v.store.file);
    }
    OthersRotateTheSeen(c, a, op, now, saved);
    hide Covered, Random, Serve;
  }

  lemma TokensGrowByOne(c: Config, a: Authority, op: Operation, now: int, saved: bool)
    requires Conserved(a) && Random(a, Other(op))
    ensures var (v, reply) := Serve(c, a.store, op, now, saved);
            |RefreshTokens(v.tokens)| <= |RefreshTokens(a.store.tokens)| + if op.Issue? && reply.Issued? then 1 else 0
  {
    TokensShrinkOrGrow(c, a.store, op, now, saved);
  }

  lemma OthersRotateTheSeen(c: Config, a: Authority, op: Operation, now: int, saved: bool)
    requires Conserved(a) && Random(a, Other(op))
    ensures var v := Handle(c, a, Other(op), now, saved);
            v.rotated <= v.seen && v.codes == a.codes && v.redeemed == a.redeemed
  {
    hide RefreshTokens, WithPair;
  }

  lemma RedeemConserves(c: Config, a: Authority, e: Exchange, now: int, saved: bool)
    requires Conserved(a) && Random(a, Redeem(e))
    ensures Conserved(Handle(c, a, Redeem(e), now, saved))
  {
    hide RefreshTokens;
    if e.code in a.codes {
      var op := Issue(a.codes[e.code].resource, a.codes[e.code].client, OWNER, e.pair);
      TokensShrinkOrGrow(c, a.store, op, now, saved);
      var v := Handle(c, a, Redeem(e), now, saved);
      if v.store != a.store {
        FewerAreCovered(v, v.store.tokens, v.store.file);
      }
    }
  }

  lemma HandlingConserves(c: Config, a: Authority, r: Request, now: int, saved: bool)
    requires Conserved(a) && Random(a, r)
    ensures Conserved(Handle(c, a, r, now, saved))
  {
    match r
    case Create(_, _) =>
      hide RefreshTokens;
    case Redeem(e) =>
      hide Conserved, Handle, Random;
      RedeemConserves(c, a, e, now, saved);
    case Other(op) =>
      hide Conserved, Handle, Random;
      OtherConserves(c, a, op, now, saved);
    case Restart =>
      hide RefreshTokens;
      var v := Handle(c, a, r, now, saved);
      FewerAreCovered(v, a.store.file, v.store.tokens);
  }

  const NOBODY := Authority(Store(map[], map[]), map[], {}, 0, map[], {})

  datatype Received = Received(request: Request, now: int, saved: bool)

  ghost predicate Legal(c: Config, log: seq<Received>)
    decreases |log|, 0
  {
    log == [] || (Legal(c, log[..|log| - 1]) && Random(Run(c, log[..|log| - 1]), log[|log| - 1].request))
  }

  ghost function Run(c: Config, log: seq<Received>): Authority
    requires Legal(c, log)
    decreases |log|, 1
  {
    if log == [] then NOBODY
    else
      var last := log[|log| - 1];
      Handle(c, Run(c, log[..|log| - 1]), last.request, last.now, last.saved)
  }

  /**
   Over every sequence of requests, failed writes and restarts from the file included: an authorization code yields at most one pair of
   tokens (section 4.1.2 of RFC 6749), a refresh token rotates at most once, and there are never more refresh
   tokens than pairs issued for codes or directly.
   */
  lemma {:induction false} TokensAreConserved(c: Config, log: seq<Received>, code: string, op: Operation, now: int, saved: bool)
    requires Legal(c, log)
    ensures Conserved(Run(c, log)) && Redeemed(Run(c, log), code) <= 1
    ensures |RefreshTokens(Run(c, log).store.tokens)| <= Run(c, log).pairs
    ensures op.Rotate? && op.refresh in Run(c, log).rotated ==> Serve(c, Run(c, log).store, op, now, saved).1 == Denied
  {
    if log != [] {
      var last := log[|log| - 1];
      TokensAreConserved(c, log[..|log| - 1], code, op, now, saved);
      HandlingConserves(c, Run(c, log[..|log| - 1]), last.request, last.now, last.saved);
    }
    hide Handle, Random, WithPair, Load;
  }
}
