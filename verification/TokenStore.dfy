/** The token store and the authorization-code half of the OAuth service as they run. */
module TokenStore {
  import opened Options
  import opened Tokens

  class OAuthTokenStore {
    const config: Config
    var tokens: map<string, Token>
    var file: map<string, Token>
    var loaded: bool

    function View(): Store
      reads this
    {
      Store(tokens, file)
    }

    /** A store starts from its file; an unreadable registry is a store without tokens, not a crash. */
    constructor (config: Config, file: map<string, Token>, now: int)
      ensures View() == Store(Load(file, now), file) && this.config == config
      ensures loaded <==> AllReadable(file)
    {
      this.config, this.file := config, file;
      tokens, loaded := map[], true;
      new;
      var valid := true;
      var left := file.Keys;
      while left != {}
        invariant left <= file.Keys && valid == (forall k | k in file.Keys - left :: Readable(file[k]))
        invariant this.file == file
        decreases left
      {
        var k :| k in left;
        valid := valid && Readable(file[k]);
        left := left - {k};
      }
      loaded := valid;
      if valid {
        tokens := Live(file, now);
      }
    }

    /** The new set is written without its dead tokens and then becomes the live one, dead tokens included. */
    method Save(next: map<string, Token>, now: int, saved: bool)
      modifies this
      ensures View() == Tokens.Save(old(View()), next, now, saved)
    {
      if saved {
        file := Live(next, now);
        tokens := next;
        loaded := true;
      }
    }

    /** `issuePair`: an access and a refresh token, in place of the refresh token they replace. */
    method IssuePair(resource: string, client: string, subject: string, now: int, replaced: Option<string>, random: Pair, saved: bool)
      returns (reply: Reply)
      modifies this
      ensures var next := WithPair(config, if replaced.Some? then old(tokens) - {replaced.value} else old(tokens),
                                   resource, client, subject, now, random);
              View() == Tokens.Save(old(View()), next, now, saved)
      ensures reply == if saved then Issued(random) else Unsaved
    {
      var next := tokens;
      if replaced.Some? {
        next := next - {replaced.value};
      }
      next := next[random.access := Token(Access, client, subject, resource, now, now + config.accessTtl * 1000, false)];
      next := next[random.refresh := Token(Refresh, client, subject, resource, now, now + config.refreshTtl * 1000, false)];
      Save(next, now, saved);
      reply := if saved then Issued(random) else Unsaved;
    }

    method Authenticate(token: Option<string>, resource: string, now: int, saved: bool) returns (reply: Reply)
      modifies this
      ensures token.None? ==> reply == Denied && View() == old(View())
      ensures token.Some? ==> (View(), reply) == Serve(config, old(View()), Operation.Authenticate(token.value, resource), now, saved)
    {
      if token.None? || token.value !in tokens {
        return Denied;
      }
      var stored := tokens[token.value];
      if !stored.kind.Access? || stored.revoked {
        return Denied;
      }
      if stored.expires <= now {
        Save(tokens - {token.value}, now, saved);
        return if saved then Denied else Unsaved;
      }
      reply := if stored.resource == resource then Known(stored.subject, stored.client) else Denied;
    }

    method Rotate(refreshToken: string, client: string, resource: Option<string>, now: int, random: Pair, saved: bool) returns (reply: Reply)
      modifies this
      ensures (View(), reply) == Serve(config, old(View()), Operation.Rotate(refreshToken, client, resource, random), now, saved)
    {
      if refreshToken !in tokens {
        return Denied;
      }
      var stored := tokens[refreshToken];
      if !stored.kind.Refresh? || stored.revoked || stored.expires <= now || stored.client != client
         || (resource.Some? && stored.resource != resource.value) {
        return Denied;
      }
      reply := IssuePair(stored.resource, stored.client, stored.subject, now, Some(refreshToken), random, saved);
    }

    method Delete(token: string, now: int, saved: bool) returns (reply: Reply)
      modifies this
      ensures (View(), reply) == Serve(config, old(View()), Operation.Delete(token), now, saved)
    {
      if token !in tokens {
        return Denied;
      }
      Save(tokens - {token}, now, saved);
      reply := if saved then Denied else Unsaved;
    }
  }

  class OAuthService {
    const tokens: OAuthTokenStore
    var authorizationCodes: map<string, Code>
    ghost var authority: Authority

    /** What has happened agrees with what is held. */
    ghost predicate Valid()
      reads this, tokens
    {
      authority.store == tokens.View() && authority.codes == authorizationCodes && Conserved(authority)
    }

    constructor (config: Config)
      ensures Valid() && fresh(tokens) && authority == NOBODY
    {
      tokens := new OAuthTokenStore(config, map[], 0);
      authorizationCodes := map[];
      authority := NOBODY;
      new;
      assert Load(map[], 0) == map[];
    }

    /** A random code that was never handed out before. */
    method CreateAuthorizationCode(name: string, code: Code, now: int)
      requires Valid() && Random(authority, Create(name, code))
      modifies this
      ensures Valid() && authority == Handle(tokens.config, old(authority), Create(name, code), now, true)
    {
      hide Conserved;
      HandlingConserves(tokens.config, authority, Create(name, code), now, true);
      authorizationCodes := authorizationCodes[name := code];
      authority := Handle(tokens.config, authority, Create(name, code), now, true);
    }

    /** `exchangeAuthorizationCode`. */
    method ExchangeAuthorizationCode(e: Exchange, now: int, saved: bool) returns (reply: Reply)
      requires Valid() && Random(authority, Redeem(e))
      modifies this, tokens
      ensures Valid() && authority == Handle(tokens.config, old(authority), Redeem(e), now, saved)
      ensures reply.Issued? ==> e.code in old(authorizationCodes) && e.code !in authorizationCodes && e.verified && reply.pair == e.pair
    {
      hide Conserved, Serve;
      HandlingConserves(tokens.config, authority, Redeem(e), now, saved);
      ghost var was := authority;
      if e.code !in authorizationCodes || authorizationCodes[e.code].expires <= now {
        authorizationCodes := authorizationCodes - {e.code};
        authority := Handle(tokens.config, was, Redeem(e), now, saved);
        return Denied;
      }
      var stored := authorizationCodes[e.code];
      if !e.known || stored.client != e.client || !e.redirectFits || !e.resourceFits {
        authority := Handle(tokens.config, was, Redeem(e), now, saved);
        return Denied;
      }
      authorizationCodes := authorizationCodes - {e.code};
      if !e.verified {
        authority := Handle(tokens.config, was, Redeem(e), now, saved);
        return Denied;
      }
      IssueServes(tokens.config, tokens.View(), stored.resource, stored.client, e.pair, now, saved);
      reply := tokens.IssuePair(stored.resource, stored.client, OWNER, now, None, e.pair, saved);
      authority := Handle(tokens.config, was, Redeem(e), now, saved);
    }

    static lemma IssueServes(c: Config, s: Store, resource: string, client: string, p: Pair, now: int, saved: bool)
      ensures Serve(c, s, Issue(resource, client, OWNER, p), now, saved) ==
              (Tokens.Save(s, WithPair(c, s.tokens, resource, client, OWNER, now, p), now, saved), if saved then Issued(p) else Unsaved)
    {
    }
  }
}
