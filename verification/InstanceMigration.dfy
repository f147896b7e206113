/** `migrateOAuthStateToInstance` and the grant store as they run over the instance's files. */
module InstanceMigration {
  import opened Options
  import opened Tokens
  import opened Migration
  import opened WorkspaceGrants

  datatype Status = NotNeeded | Merged | ReauthorizationRequired

  predicate SameOwner(a: Token, b: Token) {
    a.client == b.client && a.resource == b.resource && a.subject == b.subject
  }

  predicate NoClash(before: Clients, source: Clients) {
    forall id | id in source && id in before :: source[id] == before[id]
  }

  predicate NoTokenClash(before: TokenSet, source: TokenSet, clients: Clients) {
    forall k | k in source :: if k in before then SameOwner(before[k], source[k]) else source[k].client in clients
  }

  /** Everything could be read and every workspace agrees with what came before it. */
  predicate ClientsAgree(d: Disk, present: seq<string>) {
    if present == [] then !d.instance.clients.Corrupt?
    else
      var front, workspace := present[..|present| - 1], present[|present| - 1];
      ClientsAgree(d, front) && Usable(d, workspace) && NoClash(MergedClients(d, front), ClientsOf(d, workspace))
  }

  predicate TokensAgree(d: Disk, present: seq<string>, clients: Clients, now: int) {
    if present == [] then !d.instance.tokens.Corrupt?
    else
      var front, workspace := present[..|present| - 1], present[|present| - 1];
      TokensAgree(d, front, clients, now)
      && (Usable(d, workspace) ==> NoTokenClash(MergedTokens(d, front, clients, now), TokensOf(d, workspace, now), clients))
  }

  predicate Agrees(d: Disk, o: Run) {
    ClientsAgree(d, o.present) && TokensAgree(d, o.present, MergedClients(d, o.present), o.now)
  }

  /** Agreement means the merge is complete: every workspace finds its own clients in it, as they were. */
  lemma {:induction false} AgreementIsComplete(d: Disk, present: seq<string>)
    ensures ClientsAgree(d, present) <==>
            && !d.instance.clients.Corrupt?
            && forall i | 0 <= i < |present| ::
                 Usable(d, present[i]) && forall id | id in ClientsOf(d, present[i]) ::
                   id in MergedClients(d, present) && MergedClients(d, present)[id] == ClientsOf(d, present[i])[id]
  {
    hide Usable, ClientsOf;
    if present != [] {
      var front, n := present[..|present| - 1], |present| - 1;
      AgreementIsComplete(d, front);
      assert forall i | 0 <= i < n :: front[i] == present[i];
      assert forall id | id in MergedClients(d, front) ::
          id in MergedClients(d, present) && MergedClients(d, present)[id] == MergedClients(d, front)[id];
      forall i, id | 0 <= i < n && Usable(d, present[i]) && id in ClientsOf(d, present[i]) ensures id in MergedClients(d, front) {
        SourcesAreMerged(d, front, map[], 0, i);
      }
    }
  }

  class OAuthInstance {
    var clients: File<Clients>
    var tokens: File<TokenSet>
    var workspaces: map<string, Place>
    var grants: File<set<Grant>>
    var marker: bool

    function View(): Disk
      reads this
    {
      Disk(Place(clients, tokens), workspaces, grants, marker)
    }

    constructor (disk: Disk)
      ensures View() == disk
    {
      clients, tokens, workspaces := disk.instance.clients, disk.instance.tokens, disk.workspaces;
      grants, marker := disk.grants, disk.marker;
    }

    // ---- The grant store ----------------------------------------------------------------------

    method IsGranted(subject: string, workspace: string) returns (granted: bool)
      ensures granted <==> (subject, workspace) in Granted(grants)
    {
      granted := grants.Holds? && (subject, workspace) in grants.content;
    }

    method GrantAccess(subject: string, workspace: string, saved: bool) returns (ok: bool)
      modifies this`grants
      ensures View() == WorkspaceGrants.After(old(View()), Grants(subject, workspace, saved))
      ensures ok <==> (subject, workspace) in Granted(grants)
    {
      if grants.Corrupt? {
        return false;
      }
      var granted := IsGranted(subject, workspace);
      if granted {
        return true;
      }
      if saved {
        grants := Holds(Granted(grants) + {(subject, workspace)});
      }
      ok := saved;
    }

    method Revoke(subject: string, workspace: string, saved: bool) returns (revoked: bool)
      modifies this`grants
      ensures View() == WorkspaceGrants.After(old(View()), Revokes(subject, workspace, saved))
      ensures revoked <==> (subject, workspace) in Granted(old(grants)) && (subject, workspace) !in Granted(grants)
    {
      var granted := IsGranted(subject, workspace);
      revoked := granted && saved;
      if revoked {
        grants := Holds(grants.content - {(subject, workspace)});
      }
    }

    // ---- The migration --------------------------------------------------------------------------

    static method MergeClients(before: Clients, source: Clients) returns (merged: Clients, clashes: nat)
      ensures merged == source + before
      ensures clashes == 0 <==> NoClash(before, source)
    {
      merged, clashes := before, 0;
      var left := source.Keys;
      while left != {}
        invariant left <= source.Keys
        invariant forall id :: id in merged <==> id in before || (id in source && id !in left)
        invariant forall id | id in merged :: merged[id] == if id in before then before[id] else source[id]
        invariant clashes == 0 <==> forall id | id in source && id !in left && id in before :: source[id] == before[id]
        decreases left
      {
        var id :| id in left;
        left := left - {id};
        if id !in merged {
          merged := merged[id := source[id]];
        } else if merged[id] != source[id] {
          clashes := clashes + 1;
        }
      }
    }

    static method MergeTokens(before: TokenSet, source: TokenSet, known: Clients) returns (merged: TokenSet, clashes: nat, strays: bool)
      ensures merged == Importable(source, known) + before
      ensures clashes == 0 && !strays <==> NoTokenClash(before, source, known)
    {
      merged, clashes, strays := before, 0, false;
      var left := source.Keys;
      while left != {}
        invariant left <= source.Keys
        invariant forall k :: k in merged <==> k in before || (k in source && k !in left && source[k].client in known)
        invariant forall k | k in merged :: merged[k] == if k in before then before[k] else source[k]
        invariant clashes == 0 && !strays <==>
                  forall k | k in source && k !in left :: if k in before then SameOwner(before[k], source[k]) else source[k].client in known
        decreases left
      {
        var k :| k in left;
        left := left - {k};
        if k in merged {
          if !SameOwner(merged[k], source[k]) {
            clashes := clashes + 1;
          }
        } else if source[k].client !in known {
          strays := true;
        } else {
          merged := merged[k := source[k]];
        }
      }
    }

    /** The merge over all workspaces: first all clients, then the tokens whose clients are known. */
    method Merge(present: seq<string>, now: int) returns (mergedClients: Clients, mergedTokens: TokenSet, conflicts: nat, unclear: bool)
      ensures mergedClients == MergedClients(View(), present) && mergedTokens == AllTokens(View(), present, now)
      ensures conflicts == 0 && !unclear <==> ClientsAgree(View(), present) && TokensAgree(View(), present, mergedClients, now)
    {
      hide NoClash, NoTokenClash, Usable;
      var d := View();
      mergedClients, mergedTokens, conflicts := BaseClients(d), BaseTokens(d, now), 0;
      unclear := clients.Corrupt? || tokens.Corrupt?;
      var i := 0;
      while i < |present|
        invariant i <= |present| && mergedClients == MergedClients(d, present[..i])
        invariant conflicts == 0 && !unclear <==> ClientsAgree(d, present[..i]) && !tokens.Corrupt?
      {
        assert present[..i + 1][..i] == present[..i];
        if Usable(d, present[i]) {
          var clashes;
          mergedClients, clashes := MergeClients(mergedClients, ClientsOf(d, present[i]));
          conflicts := conflicts + clashes;
        } else {
          unclear := true;
        }
        i := i + 1;
      }
      assert present[..i] == present;
      i := 0;
      while i < |present|
        invariant i <= |present| && mergedTokens == MergedTokens(d, present[..i], mergedClients, now)
        invariant conflicts == 0 && !unclear <==> ClientsAgree(d, present) && TokensAgree(d, present[..i], mergedClients, now)
      {
        assert present[..i + 1][..i] == present[..i];
        if Usable(d, present[i]) {
          var clashes, strays;
          mergedTokens, clashes, strays := MergeTokens(mergedTokens, TokensOf(d, present[i], now), mergedClients);
          conflicts := conflicts + clashes;
          unclear := unclear || strays;
        }
        i := i + 1;
      }
      assert present[..i] == present;
    }

    /** The derived grants are written one by one; a refused one does not stop the others. */
    method WriteGrants(derived: set<string>, refused: set<string>) returns (applied: set<string>, complete: bool)
      requires grants.Absent?
      modifies this`grants
      ensures applied == derived - refused && (complete <==> derived !! refused)
      ensures grants == if applied == {} then Absent else Holds(Owned(applied))
    {
      applied, complete := {}, true;
      var left := derived;
      while left != {}
        invariant left <= derived && applied == (derived - left) - refused
        invariant complete <==> (derived - left) !! refused
        invariant grants == if applied == {} then Absent else Holds(Owned(applied))
        decreases left
      {
        var w :| w in left;
        left := left - {w};
        assert Owned({}) == {} && Granted(grants) == Owned(applied);
        assert (OWNER, w) !in Owned(applied) && Owned(applied + {w}) == Owned(applied) + {(OWNER, w)};
        var ok := GrantAccess(OWNER, w, w !in refused);
        if ok {
          applied := applied + {w};
        } else {
          complete := false;
        }
      }
    }

    /** The clients file is replaced before the tokens file is written. */
    method WriteCredentials(o: Run, mergedClients: Clients, mergedTokens: TokenSet, changed: bool, ghost was: Disk) returns (failed: bool)
      requires was == View() && mergedClients == MergedClients(was, o.present)
      requires mergedTokens == MergedTokens(was, o.present, mergedClients, o.now)
      requires changed <==> mergedClients != BaseClients(was) || mergedTokens != BaseTokens(was, o.now)
      modifies this`clients, this`tokens
      ensures Place(clients, tokens) == CredentialsAfter(was, o)
      ensures !changed ==> Place(clients, tokens) == was.instance
      ensures failed <==> changed && o.applyCredentials && !(o.clientsSaved && o.tokensSaved)
    {
      hide Agrees, ClientsAgree, TokensAgree, Usable, MergedClients, MergedTokens, Live;
      failed := false;
      if changed && o.applyCredentials {
        if o.clientsSaved {
          clients := Holds(mergedClients);
          if o.tokensSaved {
            tokens := Holds(Live(mergedTokens, o.now));
          }
        }
        failed := !o.clientsSaved || !o.tokensSaved;
      }
    }

    /** The derived workspaces are granted as long as nothing has been decided; success decides. */
    method DecideGrants(o: Run, derived: set<string>, ghost was: Disk) returns (applied: set<string>, failed: bool)
      requires was.grants == grants && was.marker == marker && derived == Derived(was, o)
      modifies this`grants, this`marker
      ensures grants == GrantsAfter(was, o) && marker == MarkerAfter(was, o)
      ensures Owned(applied) == Granted(grants) - Granted(was.grants)
      ensures applied == {} ==> grants == was.grants
    {
      hide Derived;
      applied, failed := {}, false;
      if !marker && o.applyGrants {
        var complete := true;
        if grants.Absent? {
          applied, complete := WriteGrants(derived, o.refused);
        }
        failed := !complete || grants.Corrupt?;
        if complete && !grants.Corrupt? {
          marker := o.markerSaved;
          failed := !o.markerSaved;
        }
      }
    }

    /**
     One start of the instance. The files become what `AfterRun` says; `NotNeeded` or `Merged` is reported only
     when every workspace was read and agrees with the merge and every write was taken.
     */
    method MigrateOAuthStateToInstance(o: Run) returns (status: Status, applied: set<string>, conflicts: nat)
      modifies this
      ensures View() == AfterRun(old(View()), o)
      ensures !status.ReauthorizationRequired? ==> Agrees(old(View()), o) && conflicts == 0
      ensures status.NotNeeded? ==> View().instance == old(View()).instance && View().grants == old(View()).grants
      ensures Owned(applied) == Granted(grants) - Granted(old(grants))
    {
      hide Agrees, ClientsAgree, TokensAgree, Usable, MergedClients, MergedTokens, Live;
      var d := View();
      var mergedClients, mergedTokens, unclear;
      mergedClients, mergedTokens, conflicts, unclear := Merge(o.present, o.now);
      var reauthorization := conflicts > 0 || unclear;
      assert reauthorization <==> !Agrees(d, o) by { AgreesMeans(d, o); }
      var changed := mergedClients != BaseClients(d) || mergedTokens != BaseTokens(d, o.now);
      var derived := Derived(d, o);
      var failed := WriteCredentials(o, mergedClients, mergedTokens, changed, d);
      reauthorization := reauthorization || failed;
      applied, failed := DecideGrants(o, derived, d);
      reauthorization := reauthorization || failed;
      status := if reauthorization then ReauthorizationRequired else if changed || applied != {} then Merged else NotNeeded;
    }

    static lemma AgreesMeans(d: Disk, o: Run)
      ensures Agrees(d, o) <==> ClientsAgree(d, o.present) && TokensAgree(d, o.present, MergedClients(d, o.present), o.now)
    {
    }
  }
}
