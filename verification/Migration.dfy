/**
 Merging the OAuth registries of single workspaces into the one of the instance, and deriving workspace
 access from them once. Files are read and written as a whole; a file that cannot be parsed is Corrupt.
 */
module Migration {
  import opened Options
  import opened Tokens

  datatype File<T> = Absent | Corrupt | Holds(content: T)
  datatype Client = Client(secret: string, name: string, issued: int, redirects: seq<string>)

  type Clients = map<string, Client>
  type TokenSet = map<string, Token>

  /** The two registry files of one place: of the instance or of a workspace. */
  datatype Place = Place(clients: File<Clients>, tokens: File<TokenSet>)

  datatype Disk = Disk(instance: Place, workspaces: map<string, Place>, grants: File<set<(string, string)>>, marker: bool)

  function ReadClients(p: Place): Option<Clients> {
    match p.clients
    case Absent => Some(map[])
    case Corrupt => None
    case Holds(c) => Some(c)
  }

  function ReadTokens(p: Place, now: int): Option<TokenSet> {
    match p.tokens
    case Absent => Some(map[])
    case Corrupt => None
    case Holds(t) => Some(Live(t, now))
  }

  function Scoped(d: Disk, workspace: string): Place {
    if workspace in d.workspaces then d.workspaces[workspace] else Place(Absent, Absent)
  }

  /** A workspace counts only if both its files can be read. */
  predicate Usable(d: Disk, workspace: string) {
    !Scoped(d, workspace).clients.Corrupt? && !Scoped(d, workspace).tokens.Corrupt?
  }

  function ClientsOf(d: Disk, workspace: string): Clients
    requires Usable(d, workspace)
  {
    ReadClients(Scoped(d, workspace)).value
  }

  function TokensOf(d: Disk, workspace: string, now: int): TokenSet
    requires Usable(d, workspace)
  {
    ReadTokens(Scoped(d, workspace), now).value
  }

  // ---- The merge -------------------------------------------------------------------------------

  function BaseClients(d: Disk): Clients { ReadClients(d.instance).GetOr(map[]) }
  function BaseTokens(d: Disk, now: int): TokenSet { ReadTokens(d.instance, now).GetOr(map[]) }

  /** What is there already wins. */
  function MergedClients(d: Disk, present: seq<string>): Clients {
    if present == [] then BaseClients(d)
    else
      var before, workspace := MergedClients(d, present[..|present| - 1]), present[|present| - 1];
      if Usable(d, workspace) then ClientsOf(d, workspace) + before else before
  }

  /** Tokens whose client is unknown are left behind. */
  function Importable(tokens: TokenSet, clients: Clients): TokenSet {
    map k | k in tokens && tokens[k].client in clients :: tokens[k]
  }

  function MergedTokens(d: Disk, present: seq<string>, clients: Clients, now: int): TokenSet {
    if present == [] then BaseTokens(d, now)
    else
      var before, workspace := MergedTokens(d, present[..|present| - 1], clients, now), present[|present| - 1];
      if Usable(d, workspace) then Importable(TokensOf(d, workspace, now), clients) + before else before
  }

  function AllTokens(d: Disk, present: seq<string>, now: int): TokenSet {
    MergedTokens(d, present, MergedClients(d, present), now)
  }

  predicate Changed(d: Disk, present: seq<string>, now: int) {
    MergedClients(d, present) != BaseClients(d) || AllTokens(d, present, now) != BaseTokens(d, now)
  }

  /** The instance's files after a run whose writes succeed. */
  function Migrated(d: Disk, present: seq<string>, now: int): Disk {
    if Changed(d, present, now)
    then d.(instance := Place(Holds(MergedClients(d, present)), Holds(Live(AllTokens(d, present, now), now))))
    else d
  }

  /** The first place that has the client: the instance, or else the first usable workspace. */
  ghost predicate FirstSource(d: Disk, present: seq<string>, id: string, c: Client) {
    if id in BaseClients(d) then c == BaseClients(d)[id]
    else exists i :: 0 <= i < |present| && Usable(d, present[i]) && id in ClientsOf(d, present[i])
                     && c == ClientsOf(d, present[i])[id]
                     && forall j | 0 <= j < i && Usable(d, present[j]) :: id !in ClientsOf(d, present[j])
  }

  /** The merge has exactly the readable clients, each as its first source has it. */
  lemma {:induction false} FirstSourceWins(d: Disk, present: seq<string>, id: string)
    ensures id in MergedClients(d, present) <==>
            id in BaseClients(d) || exists i :: 0 <= i < |present| && Usable(d, present[i]) && id in ClientsOf(d, present[i])
    ensures id in MergedClients(d, present) ==> FirstSource(d, present, id, MergedClients(d, present)[id])
  {
    if present != [] {
      var front, n := present[..|present| - 1], |present| - 1;
      FirstSourceWins(d, front, id);
      hide Usable, ClientsOf;
      if id in MergedClients(d, front) {
        if id !in BaseClients(d) {
          var c := MergedClients(d, front)[id];
          var i :| 0 <= i < |front| && Usable(d, front[i]) && id in ClientsOf(d, front[i])
                   && c == ClientsOf(d, front[i])[id]
                   && forall j | 0 <= j < i && Usable(d, front[j]) :: id !in ClientsOf(d, front[j]);
          assert present[i] == front[i];
          assert forall j | 0 <= j < i :: present[j] == front[j];
        }
      } else {
        assert forall j | 0 <= j < n :: present[j] == front[j];
        assert forall j | 0 <= j < n && Usable(d, present[j]) :: id !in ClientsOf(d, present[j]);
        if Usable(d, present[n]) && id in ClientsOf(d, present[n]) {
          assert id in MergedClients(d, present);
        }
      }
    }
  }

  /** Nothing of the instance is lost, and every imported token is alive and belongs to a client that came with it. */
  lemma {:induction false} ImportedTokensHaveClients(d: Disk, present: seq<string>, clients: Clients, now: int)
    ensures var t := MergedTokens(d, present, clients, now);
            && (forall k | k in BaseTokens(d, now) :: k in t && t[k] == BaseTokens(d, now)[k])
            && (forall k | k in t :: Alive(t[k], now) && (k in BaseTokens(d, now) || t[k].client in clients))
  {
    if present != [] {
      ImportedTokensHaveClients(d, present[..|present| - 1], clients, now);
    }
  }

  // ---- Running it again ----------------------------------------------------------------------

  lemma {:induction false} SourcesAreMerged(d: Disk, present: seq<string>, clients: Clients, now: int, i: nat)
    requires i < |present| && Usable(d, present[i])
    ensures forall id | id in ClientsOf(d, present[i]) :: id in MergedClients(d, present)
    ensures forall k | k in Importable(TokensOf(d, present[i], now), clients) :: k in MergedTokens(d, present, clients, now)
  {
    hide Usable, ClientsOf, TokensOf, Importable;
    if i < |present| - 1 {
      assert present[..|present| - 1][i] == present[i];
      SourcesAreMerged(d, present[..|present| - 1], clients, now, i);
    }
  }

  lemma SamePlaces(d: Disk, present: seq<string>, now: int, workspace: string, later: int)
    ensures var e := Migrated(d, present, now);
            && (Usable(e, workspace) <==> Usable(d, workspace))
            && (Usable(d, workspace) ==> ClientsOf(e, workspace) == ClientsOf(d, workspace)
                                         && TokensOf(e, workspace, later) == TokensOf(d, workspace, later))
  {
    hide Changed, MergedClients, AllTokens;
  }

  lemma BasesAfter(d: Disk, present: seq<string>, now: int, later: int)
    requires now <= later
    ensures BaseClients(Migrated(d, present, now)) == MergedClients(d, present)
    ensures BaseTokens(Migrated(d, present, now), later) == Live(AllTokens(d, present, now), later)
  {
    LiveTwice(AllTokens(d, present, now), now, later);
    match d.instance.tokens {
      case Holds(t) => LiveTwice(t, now, later);
      case _ =>
    }
    hide MergedClients, AllTokens, Live;
    assert Live(map[], later) == map[];
  }

  lemma {:induction false} ClientsSettle(d: Disk, present: seq<string>, now: int, p: seq<string>)
    requires p <= present
    ensures MergedClients(Migrated(d, present, now), p) == MergedClients(d, present)
  {
    var e := Migrated(d, present, now);
    if p == [] {
      BasesAfter(d, present, now, now);
    } else {
      var i := |p| - 1;
      ClientsSettle(d, present, now, p[..i]);
      SamePlaces(d, present, now, p[i], now);
      if Usable(d, p[i]) {
        SourcesAreMerged(d, present, map[], now, i);
      }
      hide Usable, ClientsOf, Migrated;
    }
  }

  /** At `later` a workspace's copy of an imported token is still valid and the instance's is not. */
  ghost predicate CopyOutlives(d: Disk, present: seq<string>, now: int, later: int, i: nat, k: string)
    requires i < |present|
  {
    && Usable(d, present[i]) && k in Importable(TokensOf(d, present[i], later), MergedClients(d, present))
    && k !in Live(AllTokens(d, present, now), later)
  }

  lemma {:induction false} TokensSettle(d: Disk, present: seq<string>, now: int, later: int, p: seq<string>)
    requires p <= present && now <= later
    requires forall i: nat, k | i < |present| :: !CopyOutlives(d, present, now, later, i, k)
    ensures MergedTokens(Migrated(d, present, now), p, MergedClients(d, present), later) == Live(AllTokens(d, present, now), later)
  {
    var e := Migrated(d, present, now);
    if p == [] {
      BasesAfter(d, present, now, later);
    } else {
      var i := |p| - 1;
      TokensSettle(d, present, now, later, p[..i]);
      SamePlaces(d, present, now, p[i], later);
      if Usable(d, p[i]) {
        var source := Importable(TokensOf(d, p[i], later), MergedClients(d, present));
        forall k | k in source ensures k in Live(AllTokens(d, present, now), later) {
          assert !CopyOutlives(d, present, now, later, i, k);
        }
      }
      hide Usable, TokensOf, Importable, Migrated, AllTokens, MergedClients, CopyOutlives;
    }
  }

  /**
   After a run whose writes succeed a later run over the same workspaces changes no credentials, exactly as
   long as no workspace's copy of a token outlives the copy the instance took.
   */
  lemma SecondRunChangesNothing(d: Disk, present: seq<string>, now: int, later: int)
    requires now <= later
    ensures Migrated(Migrated(d, present, now), present, later) == Migrated(d, present, now) <==>
            forall i: nat, k | i < |present| :: !CopyOutlives(d, present, now, later, i, k)
  {
    var e := Migrated(d, present, now);
    ClientsSettle(d, present, now, present);
    BasesAfter(d, present, now, later);
    if i: nat, k :| i < |present| && CopyOutlives(d, present, now, later, i, k) {
      CopyIsImported(d, present, now, later, i, k);
    } else {
      TokensSettle(d, present, now, later, present);
    }
    hide Migrated, AllTokens, MergedClients, CopyOutlives, BaseClients, BaseTokens;
  }

  lemma CopyIsImported(d: Disk, present: seq<string>, now: int, later: int, i: nat, k: string)
    requires now <= later && i < |present| && CopyOutlives(d, present, now, later, i, k)
    ensures Migrated(Migrated(d, present, now), present, later) != Migrated(d, present, now)
  {
    var e := Migrated(d, present, now);
    ClientsSettle(d, present, now, present);
    BasesAfter(d, present, now, later);
    SamePlaces(d, present, now, present[i], later);
    SourcesAreMerged(e, present, MergedClients(d, present), later, i);
    ImportedTokensHaveClients(e, present, MergedClients(d, present), later);
    var t := AllTokens(e, present, later);
    assert k in t && Alive(t[k], later) && k !in BaseTokens(e, later);
    StaysDead(e, present, later, k);
  }

  /** A run that imports `k` leaves a registry in which it is alive. */
  lemma StaysDead(e: Disk, present: seq<string>, later: int, k: string)
    requires k in AllTokens(e, present, later) && Alive(AllTokens(e, present, later)[k], later) && k !in BaseTokens(e, later)
    ensures Migrated(e, present, later) != e
  {
    hide AllTokens, MergedClients;
    var v := Migrated(e, present, later);
    assert k in BaseTokens(v, later);
  }

  /** At the same moment, in particular right after a restart, the second run never changes anything. */
  lemma SecondRunAtOnce(d: Disk, present: seq<string>, now: int)
    ensures Migrated(Migrated(d, present, now), present, now) == Migrated(d, present, now)
  {
    forall i: nat, k | i < |present| ensures !CopyOutlives(d, present, now, now, i, k) {
      if Usable(d, present[i]) {
        SourcesAreMerged(d, present, MergedClients(d, present), now, i);
        ImportedTokensHaveClients(d, present, MergedClients(d, present), now);
      }
    }
    SecondRunChangesNothing(d, present, now, now);
    hide Migrated, CopyOutlives;
  }
}
