/**
 * The whole corpus and the two retrieval-side filters over it: documents
 * of one type, and documents about one team.
 */
module Pipeline {
  import opened Optional
  import opened Json
  import opened Text
  import opened Config
  import opened Names
  import opened Records
  import opened Filtering
  import opened TeamFormat
  import opened Processors

  // ---------------------------------------------------------------------------
  // Loading
  // ---------------------------------------------------------------------------

  /** The outcome of reading one source file: its records, or a failure the loader reports and replaces by no records. */
  datatype Loaded<T> = Parsed(records: seq<T>) | NotFound | Malformed

  function RecordsOf<T>(l: Loaded<T>): seq<T>
  {
    if l.Parsed? then l.records else []
  }

  /** What reading the seven sources produced. */
  datatype LoadedFiles = LoadedFiles(
    matches: Loaded<Match>,
    teams: Loaded<Team>,
    coaches: Loaded<Coach>,
    squads: Loaded<Squad>,
    stadiums: Loaded<Stadium>,
    standings: Loaded<Group>,
    bestThirds: Loaded<map<string, Value>>
  )

  /** The keys under which the loader reads its sources, in its order. */
  const SourceKeys: seq<string> := ["matches", "teams", "coaches", "squads", "stadiums", "standings", "best_thirds"]

  /** The configuration names a file for exactly the sources the loader reads. */
  lemma FilesCoverSources()
    ensures forall k :: k in Files <==> k in SourceKeys
    ensures |Files| == |SourceKeys| == 7
  {
  }

  /** The `data_sources` dictionary: every source that failed to load counts as empty. */
  function DataSources(f: LoadedFiles): Sources
  {
    Sources(RecordsOf(f.matches), RecordsOf(f.teams), RecordsOf(f.coaches), RecordsOf(f.squads),
            RecordsOf(f.stadiums), RecordsOf(f.standings), RecordsOf(f.bestThirds))
  }

  /** The sources the formatters accept without raising. */
  predicate Processable(src: Sources)
  {
    (forall k | 0 <= k < |src.matches| :: Summarizable(src.matches[k]))
    && (forall k | 0 <= k < |src.standings| :: GroupFormattable(src.standings[k]))
  }

  /** The corpus: the documents of every processor, in the fixed order matches, teams, players, standings, stadiums. */
  function Corpus(table: AliasTable, src: Sources): seq<Document>
    requires Processable(src)
  {
    MatchDocuments(table, src.matches)
    + TeamDocuments(table, src, src.teams)
    + PlayerDocuments(table, src.squads)
    + StandingDocuments(table, src.standings)
    + StadiumDocuments(src.stadiums)
  }

  /** `load_all_can2025_data`: runs the five processors over the loaded sources and concatenates their documents. */
  method LoadAllCan2025Data(files: LoadedFiles) returns (allDocuments: seq<Document>)
    requires Processable(DataSources(files))
    ensures allDocuments == Corpus(TeamAliases, DataSources(files))
  {
    var dataSources := DataSources(files);
    allDocuments := [];
    var matchDocs := ProcessMatches(TeamAliases, dataSources.matches);
    allDocuments := allDocuments + matchDocs;
    var teamDocs := ProcessTeams(TeamAliases, dataSources);
    allDocuments := allDocuments + teamDocs;
    var playerDocs := ProcessPlayers(TeamAliases, dataSources.squads);
    allDocuments := allDocuments + playerDocs;
    var standingDocs := ProcessStandings(TeamAliases, dataSources.standings);
    allDocuments := allDocuments + standingDocs;
    var stadiumDocs := ProcessStadiums(dataSources.stadiums);
    allDocuments := allDocuments + stadiumDocs;
    assert [] + matchDocs == matchDocs;
  }

  /** The best-thirds ranking is loaded but feeds no document. */
  lemma CorpusIgnoresBestThirds(table: AliasTable, src: Sources, other: seq<map<string, Value>>)
    requires Processable(src)
    ensures Processable(src.(bestThirds := other))
    ensures Corpus(table, src.(bestThirds := other)) == Corpus(table, src)
  {
    var src' := src.(bestThirds := other);
    TeamDocumentsIgnoreBestThirds(table, src, other, src.teams);
  }

  lemma {:induction false} TeamDocumentsIgnoreBestThirds(table: AliasTable, src: Sources, other: seq<map<string, Value>>, ts: seq<Team>)
    ensures TeamDocuments(table, src.(bestThirds := other), ts) == TeamDocuments(table, src, ts)
    decreases |ts|
  {
    if ts != [] {
      TeamDocumentsIgnoreBestThirds(table, src, other, ts[..|ts| - 1]);
    }
  }

  // ---------------------------------------------------------------------------
  // Documents by type
  // ---------------------------------------------------------------------------

  /** `doc.metadata.get('type') == t`. */
  predicate HasType(d: Document, t: string)
  {
    TypeIs(d.metadata, t)
  }

  function TypeQuery(t: string): Document -> bool
  {
    (d: Document) => HasType(d, t)
  }

  /** `get_documents_by_type`: the documents of type `t`, in corpus order. */
  function DocumentsByType(docs: seq<Document>, t: string): seq<Document>
  {
    Filter(docs, TypeQuery(t))
  }

  /** The selection by type keeps exactly the documents of that type, each as often as it occurs, in order. */
  lemma DocumentsByTypeFacts(docs: seq<Document>, t: string, d: Document)
    ensures IsSubsequence(DocumentsByType(docs, t), docs)
    ensures forall k | 0 <= k < |DocumentsByType(docs, t)| :: HasType(DocumentsByType(docs, t)[k], t)
    ensures multiset(DocumentsByType(docs, t))[d] == if HasType(d, t) then multiset(docs)[d] else 0
  {
    var idx := FilterIsSubsequence(docs, TypeQuery(t));
    FilterMultiset(docs, TypeQuery(t), d);
  }

  /** Every match document is a detailed, summary or event document. */
  lemma {:induction false} MatchDocumentsKinds(table: AliasTable, ms: seq<Match>)
    requires forall k | 0 <= k < |ms| :: Summarizable(ms[k])
    ensures forall k | 0 <= k < |MatchDocuments(table, ms)| :: MatchKind(MatchDocuments(table, ms)[k].metadata)
    decreases |ms|
  {
    if ms != [] {
      var init, m := ms[..|ms| - 1], ms[|ms| - 1];
      MatchDocumentsKinds(table, init);
      MatchDocsKinds(table, m);
      KindsAppend(MatchDocuments(table, init), MatchDocs(table, m), MatchKind);
    }
  }

  /** A property of the metadata of every document of two lists holds for their concatenation. */
  lemma KindsAppend(a: seq<Document>, b: seq<Document>, p: Metadata -> bool)
    requires forall k | 0 <= k < |a| :: p(a[k].metadata)
    requires forall k | 0 <= k < |b| :: p(b[k].metadata)
    ensures forall k | 0 <= k < |a + b| :: p((a + b)[k].metadata)
  {
  }

  /** Every team document is a complete or a summary team document. */
  lemma {:induction false} TeamDocumentsKinds(table: AliasTable, src: Sources, ts: seq<Team>)
    ensures forall k | 0 <= k < |TeamDocuments(table, src, ts)| :: TeamKind(TeamDocuments(table, src, ts)[k].metadata)
    decreases |ts|
  {
    if ts != [] {
      var init, t := ts[..|ts| - 1], ts[|ts| - 1];
      TeamDocumentsKinds(table, src, init);
      TeamDocsKinds(table, src, t);
      KindsAppend(TeamDocuments(table, src, init), TeamDocs(table, src, t), TeamKind);
    }
  }

  function PlayerKind(md: Metadata): bool
  {
    TypeIs(md, "player")
  }

  /** Every player document is of type `player`. */
  lemma {:induction false} PlayerDocumentsKinds(table: AliasTable, squads: seq<Squad>)
    ensures forall k | 0 <= k < |PlayerDocuments(table, squads)| :: PlayerKind(PlayerDocuments(table, squads)[k].metadata)
    decreases |squads|
  {
    if squads != [] {
      var init, s := squads[..|squads| - 1], squads[|squads| - 1];
      PlayerDocumentsKinds(table, init);
      SquadDocsFacts(table, s);
      KindsAppend(PlayerDocuments(table, init), SquadDocs(table, s), PlayerKind);
    }
  }

  function StandingKind(md: Metadata): bool
  {
    TypeIs(md, "standings")
  }

  lemma StandingDocumentsKinds(table: AliasTable, gs: seq<Group>)
    requires forall k | 0 <= k < |gs| :: GroupFormattable(gs[k])
    ensures forall k | 0 <= k < |StandingDocuments(table, gs)| :: StandingKind(StandingDocuments(table, gs)[k].metadata)
  {
  }

  function StadiumKind(md: Metadata): bool
  {
    TypeIs(md, "stadium")
  }

  lemma StadiumDocumentsKinds(ss: seq<Stadium>)
    ensures forall k | 0 <= k < |StadiumDocuments(ss)| :: StadiumKind(StadiumDocuments(ss)[k].metadata)
  {
  }

  /** No document of `docs` has type `t`. */
  predicate Lacks(docs: seq<Document>, t: string)
  {
    forall k | 0 <= k < |docs| :: !HasType(docs[k], t)
  }

  /** Every document of `docs` has type `t`. */
  predicate AllOfType(docs: seq<Document>, t: string)
  {
    forall k | 0 <= k < |docs| :: HasType(docs[k], t)
  }

  lemma LacksAppend(a: seq<Document>, b: seq<Document>, t: string)
    requires Lacks(a, t) && Lacks(b, t)
    ensures Lacks(a + b, t)
  {
  }

  /** Selecting by type from three lists of which only the middle one has documents of that type gives the middle one. */
  lemma SelectMiddle(pre: seq<Document>, mid: seq<Document>, post: seq<Document>, t: string)
    requires Lacks(pre, t) && AllOfType(mid, t) && Lacks(post, t)
    ensures DocumentsByType(pre + mid + post, t) == mid
  {
    var p := TypeQuery(t);
    assert forall k | 0 <= k < |pre| :: !p(pre[k]);
    assert forall k | 0 <= k < |mid| :: p(mid[k]);
    assert forall k | 0 <= k < |post| :: !p(post[k]);
    FilterAppend(pre, mid, p);
    FilterAppend(pre + mid, post, p);
    FilterNone(pre, p);
    FilterAll(mid, p);
    FilterNone(post, p);
    assert [] + mid + [] == mid;
  }

  /** Match documents have none of the types of the other processors. */
  lemma MatchKindLacks(docs: seq<Document>)
    requires forall k | 0 <= k < |docs| :: MatchKind(docs[k].metadata)
    ensures Lacks(docs, "player") && Lacks(docs, "standings") && Lacks(docs, "stadium")
  {
  }

  /** Team documents have none of the types of the other processors. */
  lemma TeamKindLacks(docs: seq<Document>)
    requires forall k | 0 <= k < |docs| :: TeamKind(docs[k].metadata)
    ensures Lacks(docs, "player") && Lacks(docs, "standings") && Lacks(docs, "stadium")
  {
  }

  /** Documents all of one type lack every other type. */
  lemma OneTypeLacks(docs: seq<Document>, t: string, u: string)
    requires AllOfType(docs, t) && t != u
    ensures Lacks(docs, u)
  {
  }

  /** The five parts of the corpus, with the types each part has and lacks. */
  lemma CorpusParts(table: AliasTable, src: Sources)
    requires Processable(src)
    ensures Corpus(table, src) == MatchDocuments(table, src.matches) + TeamDocuments(table, src, src.teams)
      + PlayerDocuments(table, src.squads) + StandingDocuments(table, src.standings) + StadiumDocuments(src.stadiums)
    ensures Lacks(MatchDocuments(table, src.matches), "player") && Lacks(MatchDocuments(table, src.matches), "standings")
      && Lacks(MatchDocuments(table, src.matches), "stadium")
    ensures Lacks(TeamDocuments(table, src, src.teams), "player") && Lacks(TeamDocuments(table, src, src.teams), "standings")
      && Lacks(TeamDocuments(table, src, src.teams), "stadium")
    ensures AllOfType(PlayerDocuments(table, src.squads), "player")
    ensures AllOfType(StandingDocuments(table, src.standings), "standings")
    ensures AllOfType(StadiumDocuments(src.stadiums), "stadium")
  {
    MatchDocumentsKinds(table, src.matches);
    MatchKindLacks(MatchDocuments(table, src.matches));
    TeamDocumentsKinds(table, src, src.teams);
    TeamKindLacks(TeamDocuments(table, src, src.teams));
    PlayerDocumentsKinds(table, src.squads);
    StandingDocumentsKinds(table, src.standings);
    StadiumDocumentsKinds(src.stadiums);
  }

  /** Selecting by type from five lists of which only the `n`-th has documents of that type gives that list. */
  lemma SelectPart(a: seq<Document>, b: seq<Document>, c: seq<Document>, d: seq<Document>, e: seq<Document>, t: string, n: nat)
    requires 3 <= n <= 5
    requires Lacks(a, t) && Lacks(b, t)
    requires if n == 3 then AllOfType(c, t) else Lacks(c, t)
    requires if n == 4 then AllOfType(d, t) else Lacks(d, t)
    requires if n == 5 then AllOfType(e, t) else Lacks(e, t)
    ensures DocumentsByType(a + b + c + d + e, t) == (if n == 3 then c else if n == 4 then d else e)
  {
    LacksAppend(a, b, t);
    if n == 3 {
      LacksAppend(d, e, t);
      AppendAssoc(a + b + c, d, e);
      SelectMiddle(a + b, c, d + e, t);
    } else if n == 4 {
      LacksAppend(a + b, c, t);
      SelectMiddle(a + b + c, d, e, t);
    } else {
      LacksAppend(a + b, c, t);
      LacksAppend(a + b + c, d, t);
      SelectMiddle(a + b + c + d, e, [], t);
      assert a + b + c + d + e + [] == a + b + c + d + e;
    }
  }

  /** Selecting the player documents from the corpus gives exactly the player processor's output. */
  lemma CorpusPlayers(table: AliasTable, src: Sources)
    requires Processable(src)
    ensures DocumentsByType(Corpus(table, src), "player") == PlayerDocuments(table, src.squads)
  {
    CorpusParts(table, src);
    var d, e := StandingDocuments(table, src.standings), StadiumDocuments(src.stadiums);
    OneTypeLacks(d, "standings", "player");
    OneTypeLacks(e, "stadium", "player");
    SelectPart(MatchDocuments(table, src.matches), TeamDocuments(table, src, src.teams), PlayerDocuments(table, src.squads), d, e, "player", 3);
  }

  /** Selecting the standings documents from the corpus gives exactly the standings processor's output. */
  lemma CorpusStandings(table: AliasTable, src: Sources)
    requires Processable(src)
    ensures DocumentsByType(Corpus(table, src), "standings") == StandingDocuments(table, src.standings)
  {
    CorpusParts(table, src);
    var c, e := PlayerDocuments(table, src.squads), StadiumDocuments(src.stadiums);
    OneTypeLacks(c, "player", "standings");
    OneTypeLacks(e, "stadium", "standings");
    SelectPart(MatchDocuments(table, src.matches), TeamDocuments(table, src, src.teams), c, StandingDocuments(table, src.standings), e, "standings", 4);
  }

  /** Selecting the stadium documents from the corpus gives exactly the stadium processor's output. */
  lemma CorpusStadiums(table: AliasTable, src: Sources)
    requires Processable(src)
    ensures DocumentsByType(Corpus(table, src), "stadium") == StadiumDocuments(src.stadiums)
  {
    CorpusParts(table, src);
    var c, d := PlayerDocuments(table, src.squads), StandingDocuments(table, src.standings);
    OneTypeLacks(c, "player", "stadium");
    OneTypeLacks(d, "standings", "stadium");
    SelectPart(MatchDocuments(table, src.matches), TeamDocuments(table, src, src.teams), c, d, StadiumDocuments(src.stadiums), "stadium", 5);
  }

  // ---------------------------------------------------------------------------
  // Documents by team
  // ---------------------------------------------------------------------------

  /** A `teams` value that Python's `in` can search: a list of names, or a string searched as text. */
  predicate Searchable(v: MetaVal)
  {
    v.List? || v.v.Str?
  }

  /** `n in md.get('teams', [])`: membership in a list of names, or occurrence in a string. */
  predicate ListsTeam(md: Metadata, n: string)
  {
    Teams in md
    && match md[Teams]
       case List(ns) => n in ns
       case Val(v) => v.Str? && Contains(v.s, n)
  }

  /** The test applied to each document: its team name, its list of teams, or its team is `n`. */
  predicate MentionsTeam(d: Document, n: string)
  {
    TagIs(d.metadata, TeamName, n) || ListsTeam(d.metadata, n) || TagIs(d.metadata, TeamKey, n)
  }

  function TeamQuery(n: string): Document -> bool
  {
    (d: Document) => MentionsTeam(d, n)
  }

  /**
   * The documents the team search can test without raising: each one either
   * matches on its team name, which settles the test, or has a searchable
   * (or no) list of teams.
   */
  predicate SearchableFor(docs: seq<Document>, n: string)
  {
    forall k | 0 <= k < |docs| ::
      TagIs(docs[k].metadata, TeamName, n) || Teams !in docs[k].metadata || Searchable(docs[k].metadata[Teams])
  }

  /** What `get_documents_by_team` returns: the documents about the canonical form of the name, in corpus order. */
  function DocumentsByTeam(table: AliasTable, docs: seq<Document>, teamName: string): seq<Document>
  {
    Filter(docs, TeamQuery(NormalizedName(table, teamName)))
  }

  /** `get_documents_by_team`: normalise the name once, then keep each document that passes one of the three tests. */
  method GetDocumentsByTeam(table: AliasTable, documents: seq<Document>, teamName: string) returns (results: seq<Document>)
    requires SearchableFor(documents, NormalizedName(table, teamName))
    ensures results == DocumentsByTeam(table, documents, teamName)
  {
    var normalized := NormalizeTeamName(table, teamName);
    results := [];
    for i := 0 to |documents|
      invariant results == Filter(documents[..i], TeamQuery(normalized))
    {
      var doc := documents[i];
      FilterStep(documents, TeamQuery(normalized), i);
      var md := doc.metadata;
      if TeamName in md && md[TeamName] == Tag(normalized) {
        results := results + [doc];
      } else if Teams in md && (match md[Teams] case List(ns) => normalized in ns case Val(v) => v.Str? && Contains(v.s, normalized)) {
        results := results + [doc];
      } else if TeamKey in md && md[TeamKey] == Tag(normalized) {
        results := results + [doc];
      }
    }
    assert documents[..|documents|] == documents;
  }

  /**
   * The search keeps exactly the documents that mention the canonical name,
   * each as often as it occurs, in corpus order.
   */
  lemma DocumentsByTeamFacts(table: AliasTable, docs: seq<Document>, teamName: string, d: Document)
    ensures IsSubsequence(DocumentsByTeam(table, docs, teamName), docs)
    ensures forall k | 0 <= k < |DocumentsByTeam(table, docs, teamName)| ::
      MentionsTeam(DocumentsByTeam(table, docs, teamName)[k], NormalizedName(table, teamName))
    ensures multiset(DocumentsByTeam(table, docs, teamName))[d]
      == if MentionsTeam(d, NormalizedName(table, teamName)) then multiset(docs)[d] else 0
  {
    var p := TeamQuery(NormalizedName(table, teamName));
    var idx := FilterIsSubsequence(docs, p);
    FilterMultiset(docs, p, d);
  }

  /** Over a valid table, any two variants of one team find the same documents. */
  lemma VariantsFindSameDocuments(table: AliasTable, docs: seq<Document>, i: nat, k1: nat, k2: nat)
    requires ValidAliasTable(table)
    requires i < |table| && k1 < |table[i].1| && k2 < |table[i].1|
    ensures DocumentsByTeam(table, docs, table[i].1[k1]) == DocumentsByTeam(table, docs, table[i].1[k2])
  {
    SameEntrySameName(table, i, k1, k2);
  }

  /** Searching for "Morocco" or for "Maroc" looks for the same canonical name, so finds the same documents. */
  lemma MoroccoIsMaroc(docs: seq<Document>)
    ensures NormalizedName(TeamAliases, "Morocco") == NormalizedName(TeamAliases, "Maroc") == "Maroc"
    ensures DocumentsByTeam(TeamAliases, docs, "Morocco") == DocumentsByTeam(TeamAliases, docs, "Maroc")
  {
    TeamAliasesShape();
    StripOfTrimmed("Morocco");
    StripOfTrimmed("Maroc");
    FirstEntryIs(TeamAliases, "Morocco", 0);
    FirstEntryIs(TeamAliases, "Maroc", 0);
  }

  /** A document of the list that mentions the canonical name is found. */
  lemma SearchFinds(table: AliasTable, docs: seq<Document>, teamName: string, d: Document)
    requires d in docs && MentionsTeam(d, NormalizedName(table, teamName))
    ensures d in DocumentsByTeam(table, docs, teamName)
  {
    FilterMultiset(docs, TeamQuery(NormalizedName(table, teamName)), d);
  }

  /** Every document of a team record carries the record's canonical name as its team name. */
  lemma TeamMetasMention(table: AliasTable, t: Team)
    ensures forall j | 0 <= j < |TeamMetas(table, t)| ::
      t.name.Some? && TagIs(TeamMetas(table, t)[j], TeamName, NormalizedName(table, t.name.value))
  {
    TeamMetasFacts(table, t);
  }

  lemma TeamDocsMention(table: AliasTable, src: Sources, t: Team)
    ensures forall j | 0 <= j < |TeamDocs(table, src, t)| ::
      t.name.Some? && MentionsTeam(TeamDocs(table, src, t)[j], NormalizedName(table, t.name.value))
  {
    TeamDocsMetas(table, src, t);
    TeamMetasMention(table, t);
  }

  /** Both documents of a named team record are found by searching for the team's name. */
  lemma TeamDocsFound(table: AliasTable, src: Sources, t: Team, j: nat, docs: seq<Document>)
    requires j < |TeamDocs(table, src, t)| && TeamDocs(table, src, t)[j] in docs
    ensures t.name.Some? && TeamDocs(table, src, t)[j] in DocumentsByTeam(table, docs, t.name.value)
  {
    TeamDocsMention(table, src, t);
    SearchFinds(table, docs, t.name.value, TeamDocs(table, src, t)[j]);
  }

  /** Every document of a match lists both of its canonical sides among its teams. */
  lemma MatchMetasMention(table: AliasTable, m: Match)
    ensures forall j | 0 <= j < |MatchMetas(table, m)| ::
      m.home.Some?
      && ListsTeam(MatchMetas(table, m)[j], NormalizedName(table, m.home.value))
      && ListsTeam(MatchMetas(table, m)[j], NormalizedName(table, m.away.GetOr("")))
  {
    MatchMetasFacts(table, m);
  }

  lemma MatchDocsMention(table: AliasTable, m: Match)
    requires Summarizable(m)
    ensures forall j | 0 <= j < |MatchDocs(table, m)| ::
      m.home.Some?
      && MentionsTeam(MatchDocs(table, m)[j], NormalizedName(table, m.home.value))
      && MentionsTeam(MatchDocs(table, m)[j], NormalizedName(table, m.away.GetOr("")))
  {
    MatchDocsMetas(table, m);
    MatchMetasMention(table, m);
  }

  /** Every document of a match is found by searching for either side. */
  lemma MatchDocsFound(table: AliasTable, m: Match, j: nat, docs: seq<Document>)
    requires Summarizable(m)
    requires j < |MatchDocs(table, m)| && MatchDocs(table, m)[j] in docs
    ensures m.home.Some? && MatchDocs(table, m)[j] in DocumentsByTeam(table, docs, m.home.value)
    ensures MatchDocs(table, m)[j] in DocumentsByTeam(table, docs, m.away.GetOr(""))
  {
    MatchDocsMention(table, m);
    SearchFinds(table, docs, m.home.value, MatchDocs(table, m)[j]);
    SearchFinds(table, docs, m.away.GetOr(""), MatchDocs(table, m)[j]);
  }

  /** Every player document of a squad is found by searching for the squad's team. */
  lemma SquadDocsFound(table: AliasTable, s: Squad, j: nat, docs: seq<Document>)
    requires j < |SquadDocs(table, s)| && SquadDocs(table, s)[j] in docs
    ensures s.team.Some? && SquadDocs(table, s)[j] in DocumentsByTeam(table, docs, s.team.value)
  {
    SquadDocsFacts(table, s);
    assert TagIs(SquadDocs(table, s)[j].metadata, TeamKey, NormalizedName(table, s.team.value));
    SearchFinds(table, docs, s.team.value, SquadDocs(table, s)[j]);
  }

  /** The document of a group is found by searching for any team of its table. */
  lemma StandingDocFound(table: AliasTable, g: Group, k: nat, docs: seq<Document>)
    requires GroupFormattable(g)
    requires k < |g.rows| && StandingDoc(table, g) in docs
    ensures StandingDoc(table, g) in DocumentsByTeam(table, docs, g.rows[k].team.GetOr(""))
  {
    var n := NormalizedName(table, g.rows[k].team.GetOr(""));
    assert GroupTeams(table, g)[k] == n;
    assert ListsTeam(StandingDoc(table, g).metadata, n);
    SearchFinds(table, docs, g.rows[k].team.GetOr(""), StandingDoc(table, g));
  }
}
