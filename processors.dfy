/**
 * The processors: one pass over a source list each, turning every record
 * into a fixed number of documents (none for a record without its join
 * key), with metadata tags that carry canonical team names.
 */
module Processors {
  import opened Optional
  import opened Json
  import opened Text
  import opened Config
  import opened Names
  import opened Records
  import opened MatchFormat
  import opened TeamFormat
  import opened ProfileFormat
  import opened StandingsFormat

  // ---------------------------------------------------------------------------
  // Matches
  // ---------------------------------------------------------------------------

  /** A match the summary formatter accepts: one with a home side has its scorers' keys. */
  predicate Summarizable(m: Match)
  {
    m.home.Some? ==> ScorersKnown(m)
  }

  /** The metadata of the detailed match document, given the canonical names of its sides. */
  function MatchMetadata(m: Match, home: string, away: string): Metadata
  {
    map[
      Type := Tag("match_detailed"),
      MatchNumber := Val(ValueOr(m.number, "N/A")),
      Phase := Val(ValueOr(m.phase, "N/A")),
      GroupKey := Tag(m.stage.GetOr("N/A")),
      TeamHome := Tag(home),
      TeamAway := Tag(away),
      Teams := List([home, away]),
      Date := Val(m.dateIso.GetOr(ValueOr(m.date, "N/A"))),
      StadiumKey := Val(ValueOr(m.stadium, "N/A")),
      Score := Val(ValueOr(m.score, "-")),
      Source := Tag("matches.json")
    ]
  }

  /** The metadata of the announcement document of a match at knockout stage `stage`. */
  function EventMetadata(m: Match, stage: string, home: string, away: string): Metadata
  {
    map[
      Type := Tag("event"),
      Event := Tag(EventTag(stage)),
      Phase := Tag(stage),
      Date := Val(ValueOr(m.dateIso, "")),
      Teams := List([home, away]),
      StadiumKey := Val(m.stadium.GetOr(Null)),
      Source := Tag("matches.json")
    ]
  }

  lemma MatchMetadataTeams(m: Match, home: string, away: string)
    ensures Teams in MatchMetadata(m, home, away) && MatchMetadata(m, home, away)[Teams] == List([home, away])
  {
  }

  /** A knockout stage label is never the empty default, so a knockout match has a stage. */
  lemma KnockoutHasStage(m: Match)
    requires IsKnockout(m)
    ensures m.stage.Some?
  {
  }

  /** The metadata of the documents of one match, in document order. */
  function MatchMetas(table: AliasTable, m: Match): seq<Metadata>
  {
    if m.home.None? then []
    else
      var home := NormalizedName(table, m.home.value);
      var away := NormalizedName(table, m.away.GetOr(""));
      var detailed := MatchMetadata(m, home, away);
      var summary := detailed[Type := Tag("match_summary")];
      if IsKnockout(m) then [detailed, summary, EventMetadata(m, m.stage.GetOr(""), home, away)]
      else [detailed, summary]
  }

  /** The documents of one match: none without a home side; else detailed, summary and, for a knockout match, the announcement. */
  function MatchDocs(table: AliasTable, m: Match): seq<Document>
    requires Summarizable(m)
  {
    if m.home.None? then []
    else
      var home := NormalizedName(table, m.home.value);
      var away := NormalizedName(table, m.away.GetOr(""));
      var detailed := MatchMetadata(m, home, away);
      var summary := detailed[Type := Tag("match_summary")];
      if IsKnockout(m) then
        KnockoutHasStage(m);
        [Document(DetailedText(m), detailed), Document(SummaryText(m), summary),
         Document(EventText(m), EventMetadata(m, m.stage.value, home, away))]
      else [Document(DetailedText(m), detailed), Document(SummaryText(m), summary)]
  }

  /** The documents of a match with a home side, spelled out. */
  lemma MatchDocsUnfold(table: AliasTable, m: Match, home: string, away: string)
    requires Summarizable(m) && m.home.Some?
    requires home == NormalizedName(table, m.home.value) && away == NormalizedName(table, m.away.GetOr(""))
    ensures IsKnockout(m) ==> (m.stage.Some? && MatchDocs(table, m) ==
      [Document(DetailedText(m), MatchMetadata(m, home, away)),
       Document(SummaryText(m), MatchMetadata(m, home, away)[Type := Tag("match_summary")]),
       Document(EventText(m), EventMetadata(m, m.stage.value, home, away))])
    ensures !IsKnockout(m) ==> (MatchDocs(table, m) ==
      [Document(DetailedText(m), MatchMetadata(m, home, away)),
       Document(SummaryText(m), MatchMetadata(m, home, away)[Type := Tag("match_summary")])])
  {
  }

  /** The documents of a list of matches, in input order. */
  function MatchDocuments(table: AliasTable, ms: seq<Match>): seq<Document>
    requires forall k | 0 <= k < |ms| :: Summarizable(ms[k])
  {
    if ms == [] then []
    else MatchDocuments(table, ms[..|ms| - 1]) + MatchDocs(table, ms[|ms| - 1])
  }

  lemma MatchDocumentsStep(table: AliasTable, ms: seq<Match>, i: nat)
    requires i < |ms| && forall k | 0 <= k < |ms| :: Summarizable(ms[k])
    ensures MatchDocuments(table, ms[..i + 1]) == MatchDocuments(table, ms[..i]) + MatchDocs(table, ms[i])
  {
    assert ms[..i + 1][..i] == ms[..i];
  }

  /** The body of the loop of `process_matches` for a match with a home side. */
  method ProcessMatch(table: AliasTable, m: Match) returns (docs: seq<Document>)
    requires Summarizable(m) && m.home.Some?
    ensures docs == MatchDocs(table, m)
  {
    var contentDetailed := FormatMatchDetailed(m);
    var home := NormalizeTeamName(table, m.home.GetOr(""));
    var away := NormalizeTeamName(table, m.away.GetOr(""));
    var metadataDetailed := map[
      Type := Tag("match_detailed"),
      MatchNumber := Val(ValueOr(m.number, "N/A")),
      Phase := Val(ValueOr(m.phase, "N/A")),
      GroupKey := Tag(m.stage.GetOr("N/A")),
      TeamHome := Tag(home),
      TeamAway := Tag(away),
      Teams := List([home, away]),
      Date := Val(m.dateIso.GetOr(ValueOr(m.date, "N/A"))),
      StadiumKey := Val(ValueOr(m.stadium, "N/A")),
      Score := Val(ValueOr(m.score, "-")),
      Source := Tag("matches.json")
    ];
    assert metadataDetailed == MatchMetadata(m, home, away);
    var detailed := Document(contentDetailed, metadataDetailed);
    var contentSummary := FormatMatchSummary(m);
    var metadataSummary := metadataDetailed[Type := Tag("match_summary")];
    var summary := Document(contentSummary, metadataSummary);
    assert detailed == Document(DetailedText(m), MatchMetadata(m, home, away));
    assert summary == Document(SummaryText(m), MatchMetadata(m, home, away)[Type := Tag("match_summary")]);
    MatchDocsUnfold(table, m, home, away);
    if !IsKnockout(m) {
      docs := [detailed, summary];
    } else {
      var stage := m.stage.value;
      MatchMetadataTeams(m, home, away);
      assert ReplaceSpaces(Lower(stage)) == EventTag(stage);
      var event := Document(EventText(m), map[
        Type := Tag("event"),
        Event := Tag(ReplaceSpaces(Lower(stage))),
        Phase := Tag(stage),
        Date := Val(ValueOr(m.dateIso, "")),
        Teams := metadataDetailed[Teams],
        StadiumKey := Val(m.stadium.GetOr(Null)),
        Source := Tag("matches.json")
      ]);
      assert event == Document(EventText(m), EventMetadata(m, stage, home, away));
      docs := [detailed, summary, event];
    }
  }

  /** `process_matches`: two or three documents per match that has a home side, in input order. */
  method ProcessMatches(table: AliasTable, data: seq<Match>) returns (documents: seq<Document>)
    requires forall k | 0 <= k < |data| :: Summarizable(data[k])
    ensures documents == MatchDocuments(table, data)
  {
    documents := [];
    for i := 0 to |data|
      invariant documents == MatchDocuments(table, data[..i])
    {
      var m := data[i];
      MatchDocumentsStep(table, data, i);
      if m.home.None? {
        continue;
      }
      var docs := ProcessMatch(table, m);
      documents := documents + docs;
    }
    assert data[..|data|] == data;
  }

  /** The documents of a match carry exactly the metadata listed by `MatchMetas`. */
  lemma MatchDocsMetas(table: AliasTable, m: Match)
    requires Summarizable(m)
    ensures Metas(MatchDocs(table, m)) == MatchMetas(table, m)
  {
    if m.home.Some? {
      var home, away := NormalizedName(table, m.home.value), NormalizedName(table, m.away.GetOr(""));
      MatchDocsUnfold(table, m, home, away);
      var d, s := Document(DetailedText(m), MatchMetadata(m, home, away)), Document(SummaryText(m), MatchMetadata(m, home, away)[Type := Tag("match_summary")]);
      if IsKnockout(m) {
        MetasOfThree(d, s, Document(EventText(m), EventMetadata(m, m.stage.value, home, away)));
      } else {
        MetasOfTwo(d, s);
      }
    }
  }

  /**
   * What one match yields: nothing without a home side; else a detailed
   * and a summary document whose metadata agree except for the type, and
   * for a knockout match an announcement tagged with the stage, all three
   * naming the same two canonical teams.
   */
  lemma MatchMetasFacts(table: AliasTable, m: Match)
    ensures m.home.None? ==> MatchMetas(table, m) == []
    ensures m.home.Some? ==> var metas := MatchMetas(table, m);
      var teams := List([NormalizedName(table, m.home.value), NormalizedName(table, m.away.GetOr(""))]);
      |metas| == (if IsKnockout(m) then 3 else 2)
      && TypeIs(metas[0], "match_detailed")
      && TypeIs(metas[1], "match_summary")
      && SameExceptType(metas[0], metas[1])
      && Teams in metas[0] && metas[0][Teams] == teams
      && (IsKnockout(m) ==> TypeIs(metas[2], "event") && Teams in metas[2] && metas[2][Teams] == teams
                            && m.stage.Some? && TagIs(metas[2], Event, EventTag(m.stage.value)))
  {
    if m.home.Some? {
      RetypeKeepsFields(MatchMetadata(m, NormalizedName(table, m.home.value), NormalizedName(table, m.away.GetOr(""))), "match_summary");
    }
  }

  /** The three kinds of match document. */
  predicate MatchKind(md: Metadata)
  {
    TypeIs(md, "match_detailed") || TypeIs(md, "match_summary") || TypeIs(md, "event")
  }

  /** Every document of a match is of one of the three match kinds. */
  lemma MatchDocsKinds(table: AliasTable, m: Match)
    requires Summarizable(m)
    ensures forall j | 0 <= j < |MatchDocs(table, m)| :: MatchKind(MatchDocs(table, m)[j].metadata)
  {
    MatchDocsMetas(table, m);
    MatchMetasKinds(table, m);
  }

  lemma MatchMetasKinds(table: AliasTable, m: Match)
    ensures forall j | 0 <= j < |MatchMetas(table, m)| :: MatchKind(MatchMetas(table, m)[j])
  {
    MatchMetasFacts(table, m);
  }

  /** Processing two lists one after the other is processing their concatenation. */
  lemma {:induction false} MatchDocumentsAppend(table: AliasTable, a: seq<Match>, b: seq<Match>)
    requires forall k | 0 <= k < |a| :: Summarizable(a[k])
    requires forall k | 0 <= k < |b| :: Summarizable(b[k])
    ensures forall k | 0 <= k < |a + b| :: Summarizable((a + b)[k])
    ensures MatchDocuments(table, a + b) == MatchDocuments(table, a) + MatchDocuments(table, b)
    decreases |b|
  {
    if b == [] {
      assert a + b == a;
    } else {
      var init := b[..|b| - 1];
      assert (a + b)[..|a + b| - 1] == a + init;
      MatchDocumentsAppend(table, a, init);
      AppendAssoc(MatchDocuments(table, a), MatchDocuments(table, init), MatchDocs(table, b[|b| - 1]));
    }
  }

  lemma SkippedMatchDocuments(table: AliasTable, m: Match)
    requires m.home.None?
    ensures MatchDocuments(table, [m]) == []
  {
    assert [m][..0] == [];
  }

  /** A match without a home side leaves no trace: removing it changes nothing. */
  lemma SkippedMatchAddsNothing(table: AliasTable, a: seq<Match>, m: Match, b: seq<Match>)
    requires forall k | 0 <= k < |a| :: Summarizable(a[k])
    requires forall k | 0 <= k < |b| :: Summarizable(b[k])
    requires m.home.None?
    ensures forall k | 0 <= k < |a + [m] + b| :: Summarizable((a + [m] + b)[k])
    ensures MatchDocuments(table, a + [m] + b) == MatchDocuments(table, a + b)
  {
    MatchDocumentsAppend(table, a, [m]);
    SkippedMatchDocuments(table, m);
    assert MatchDocuments(table, a) + [] == MatchDocuments(table, a);
    MatchDocumentsAppend(table, a + [m], b);
    MatchDocumentsAppend(table, a, b);
  }

  // ---------------------------------------------------------------------------
  // Teams
  // ---------------------------------------------------------------------------

  /** The metadata of the complete team document of the team record named `name`. */
  function TeamMetadata(t: Team, canonical: string, aliases: seq<string>): Metadata
  {
    map[
      Type := Tag("team_complete"),
      TeamName := Tag(canonical),
      TeamAliasesKey := List(aliases),
      Participation := Val(ValueOr(t.participation, "N/A")),
      BestResult := Val(ValueOr(t.bestResult, "N/A")),
      Source := Tag("multiple")
    ]
  }

  /** The documents of one team record: none without a name, else the complete and the summary document. */
  function TeamDocs(table: AliasTable, src: Sources, t: Team): seq<Document>
  {
    var name := t.name.GetOr("");
    if name == "" then []
    else
      var complete := TeamMetadata(t, NormalizedName(table, name), AliasesOf(table, name));
      [Document(TeamCompleteText(table, src, name), complete),
       Document(TeamSummaryText(table, src, name), complete[Type := Tag("team_summary")])]
  }

  function TeamDocuments(table: AliasTable, src: Sources, ts: seq<Team>): seq<Document>
  {
    if ts == [] then []
    else TeamDocuments(table, src, ts[..|ts| - 1]) + TeamDocs(table, src, ts[|ts| - 1])
  }

  lemma TeamDocumentsStep(table: AliasTable, src: Sources, ts: seq<Team>, i: nat)
    requires i < |ts|
    ensures TeamDocuments(table, src, ts[..i + 1]) == TeamDocuments(table, src, ts[..i]) + TeamDocs(table, src, ts[i])
  {
    assert ts[..i + 1][..i] == ts[..i];
  }

  /** `process_teams`: two documents per named team record, the lookups joining coach and squad records. */
  method ProcessTeams(table: AliasTable, src: Sources) returns (documents: seq<Document>)
    ensures documents == TeamDocuments(table, src, src.teams)
  {
    documents := [];
    for i := 0 to |src.teams|
      invariant documents == TeamDocuments(table, src, src.teams[..i])
    {
      var teamData := src.teams[i];
      TeamDocumentsStep(table, src, src.teams, i);
      var teamName := teamData.name.GetOr("");
      if teamName == "" {
        continue;
      }
      ghost var before := documents;
      var normalizedName := NormalizeTeamName(table, teamName);
      var contentComplete := FormatTeamComplete(table, src, teamName);
      var aliases := GetTeamAliases(table, teamName);
      var metadataComplete := map[
        Type := Tag("team_complete"),
        TeamName := Tag(normalizedName),
        TeamAliasesKey := List(aliases),
        Participation := Val(ValueOr(teamData.participation, "N/A")),
        BestResult := Val(ValueOr(teamData.bestResult, "N/A")),
        Source := Tag("multiple")
      ];
      var complete := Document(contentComplete, metadataComplete);
      documents := documents + [complete];
      var summary := Document(TeamSummaryText(table, src, teamName), metadataComplete[Type := Tag("team_summary")]);
      documents := documents + [summary];
      SnocTwice(before, complete, summary);
    }
    assert src.teams[..|src.teams|] == src.teams;
  }

  function TeamMetas(table: AliasTable, t: Team): seq<Metadata>
  {
    var name := t.name.GetOr("");
    if name == "" then []
    else
      var complete := TeamMetadata(t, NormalizedName(table, name), AliasesOf(table, name));
      [complete, complete[Type := Tag("team_summary")]]
  }

  /** The documents of a team record carry exactly the metadata listed by `TeamMetas`. */
  lemma TeamDocsMetas(table: AliasTable, src: Sources, t: Team)
    ensures Metas(TeamDocs(table, src, t)) == TeamMetas(table, t)
  {
  }

  /** What one team record yields: nothing without a name, else two documents whose metadata differ only in type. */
  lemma TeamMetasFacts(table: AliasTable, t: Team)
    ensures t.name.GetOr("") == "" ==> TeamMetas(table, t) == []
    ensures t.name.GetOr("") != "" ==> var metas := TeamMetas(table, t);
      |metas| == 2
      && TypeIs(metas[0], "team_complete") && TypeIs(metas[1], "team_summary")
      && SameExceptType(metas[0], metas[1])
      && TagIs(metas[0], TeamName, NormalizedName(table, t.name.value))
      && TeamAliasesKey in metas[0] && metas[0][TeamAliasesKey].List?
      && t.name.value in metas[0][TeamAliasesKey].names
  {
    var name := t.name.GetOr("");
    if name != "" {
      AliasesOfContainsName(table, name);
      RetypeKeepsFields(TeamMetadata(t, NormalizedName(table, name), AliasesOf(table, name)), "team_summary");
    }
  }

  /** The two kinds of team document. */
  predicate TeamKind(md: Metadata)
  {
    TypeIs(md, "team_complete") || TypeIs(md, "team_summary")
  }

  lemma TeamDocsKinds(table: AliasTable, src: Sources, t: Team)
    ensures forall j | 0 <= j < |TeamDocs(table, src, t)| :: TeamKind(TeamDocs(table, src, t)[j].metadata)
  {
    TeamDocsMetas(table, src, t);
    TeamMetasKinds(table, t);
  }

  lemma TeamMetasKinds(table: AliasTable, t: Team)
    ensures forall j | 0 <= j < |TeamMetas(table, t)| :: TeamKind(TeamMetas(table, t)[j])
  {
    TeamMetasFacts(table, t);
  }

  // ---------------------------------------------------------------------------
  // Players
  // ---------------------------------------------------------------------------

  /** The four position labels, in the order the position map lists them. */
  const PositionLabels: seq<string> := ["Gardien", "Défenseur", "Milieu", "Attaquant"]

  function PlayerMetadata(normalizedTeam: string, p: Player, position: string): Metadata
  {
    map[
      Type := Tag("player"),
      PlayerName := Val(ValueOr(p.name, "N/A")),
      TeamKey := Tag(normalizedTeam),
      Position := Tag(position),
      Club := Val(ValueOr(p.club, "N/A")),
      Source := Tag("squads.json")
    ]
  }

  /** The player document: the card shows the team as given, the metadata its canonical name. */
  function PlayerDoc(teamName: string, normalizedTeam: string, p: Player, position: string): Document
  {
    Document(PlayerCard(p, teamName, position), PlayerMetadata(normalizedTeam, p, position))
  }

  function PositionDocs(teamName: string, normalizedTeam: string, players: seq<Player>, position: string): (r: seq<Document>)
    ensures |r| == |players|
    ensures forall k | 0 <= k < |players| :: r[k] == PlayerDoc(teamName, normalizedTeam, players[k], position)
  {
    seq(|players|, k requires 0 <= k < |players| => PlayerDoc(teamName, normalizedTeam, players[k], position))
  }

  /** The documents of one squad record: none without a team, else one per player, position by position. */
  function SquadDocs(table: AliasTable, s: Squad): seq<Document>
  {
    var team := s.team.GetOr("");
    if team == "" then []
    else
      var n := NormalizedName(table, team);
      var l := LineupOf(s);
      PositionDocs(team, n, l.goalkeepers, PositionLabels[0])
      + PositionDocs(team, n, l.defenders, PositionLabels[1])
      + PositionDocs(team, n, l.midfielders, PositionLabels[2])
      + PositionDocs(team, n, l.forwards, PositionLabels[3])
  }

  function PlayerDocuments(table: AliasTable, squads: seq<Squad>): seq<Document>
  {
    if squads == [] then []
    else PlayerDocuments(table, squads[..|squads| - 1]) + SquadDocs(table, squads[|squads| - 1])
  }

  lemma PlayerDocumentsStep(table: AliasTable, squads: seq<Squad>, i: nat)
    requires i < |squads|
    ensures PlayerDocuments(table, squads[..i + 1]) == PlayerDocuments(table, squads[..i]) + SquadDocs(table, squads[i])
  {
    assert squads[..i + 1][..i] == squads[..i];
  }

  /** Appends one document per player of one position list. */
  method AppendPlayers(documents0: seq<Document>, teamName: string, normalizedTeam: string,
                       players: seq<Player>, position: string) returns (documents: seq<Document>)
    ensures documents == documents0 + PositionDocs(teamName, normalizedTeam, players, position)
  {
    documents := documents0;
    ghost var all := PositionDocs(teamName, normalizedTeam, players, position);
    for i := 0 to |players|
      invariant documents == documents0 + all[..i]
    {
      var player := players[i];
      var content := PlayerCard(player, teamName, position);
      var metadata := map[
        Type := Tag("player"),
        PlayerName := Val(ValueOr(player.name, "N/A")),
        TeamKey := Tag(normalizedTeam),
        Position := Tag(position),
        Club := Val(ValueOr(player.club, "N/A")),
        Source := Tag("squads.json")
      ];
      PrefixSnoc(all, i);
      AppendAssoc(documents0, all[..i], [all[i]]);
      documents := documents + [Document(content, metadata)];
    }
    assert all[..|players|] == all;
  }

  /** `process_players`: for each squad with a team, one document per player, in the position map's order. */
  method ProcessPlayers(table: AliasTable, data: seq<Squad>) returns (documents: seq<Document>)
    ensures documents == PlayerDocuments(table, data)
  {
    documents := [];
    for i := 0 to |data|
      invariant documents == PlayerDocuments(table, data[..i])
    {
      var squadData := data[i];
      PlayerDocumentsStep(table, data, i);
      var teamName := squadData.team.GetOr("");
      if teamName == "" {
        continue;
      }
      ghost var before := documents;
      var normalizedTeam := NormalizeTeamName(table, teamName);
      var squad := LineupOf(squadData);
      documents := AppendPlayers(documents, teamName, normalizedTeam, squad.goalkeepers, PositionLabels[0]);
      documents := AppendPlayers(documents, teamName, normalizedTeam, squad.defenders, PositionLabels[1]);
      documents := AppendPlayers(documents, teamName, normalizedTeam, squad.midfielders, PositionLabels[2]);
      documents := AppendPlayers(documents, teamName, normalizedTeam, squad.forwards, PositionLabels[3]);
      ghost var g, d, m, f := PositionDocs(teamName, normalizedTeam, squad.goalkeepers, PositionLabels[0]),
        PositionDocs(teamName, normalizedTeam, squad.defenders, PositionLabels[1]),
        PositionDocs(teamName, normalizedTeam, squad.midfielders, PositionLabels[2]),
        PositionDocs(teamName, normalizedTeam, squad.forwards, PositionLabels[3]);
      AppendAssoc(before, g, d);
      AppendAssoc(before, g + d, m);
      AppendAssoc(before, g + d + m, f);
    }
    assert data[..|data|] == data;
  }

  /** The position label of the `k`-th player of a lineup, counting through the four lists in order. */
  function PositionAt(l: Lineup, k: nat): string
  {
    if k < |l.goalkeepers| then "Gardien"
    else if k < |l.goalkeepers| + |l.defenders| then "Défenseur"
    else if k < |l.goalkeepers| + |l.defenders| + |l.midfielders| then "Milieu"
    else "Attaquant"
  }

  /** The tags of a player document: its type, the canonical team and the position label. */
  predicate PlayerTagged(md: Metadata, normalizedTeam: string, position: string)
  {
    TypeIs(md, "player") && TagIs(md, TeamKey, normalizedTeam) && TagIs(md, Position, position)
  }

  lemma PositionDocsTagged(teamName: string, normalizedTeam: string, players: seq<Player>, position: string)
    ensures forall k | 0 <= k < |players| ::
      PlayerTagged(PositionDocs(teamName, normalizedTeam, players, position)[k].metadata, normalizedTeam, position)
  {
  }

  /**
   * What one squad yields: nothing without a team; else one document per
   * player, goalkeepers first and forwards last, each tagged with the
   * team's canonical name and its position label.
   */
  lemma SquadDocsFacts(table: AliasTable, s: Squad)
    ensures s.team.GetOr("") == "" ==> SquadDocs(table, s) == []
    ensures s.team.GetOr("") != "" ==> var docs := SquadDocs(table, s);
      var l := LineupOf(s);
      |docs| == |l.goalkeepers| + |l.defenders| + |l.midfielders| + |l.forwards|
      && forall k | 0 <= k < |docs| :: PlayerTagged(docs[k].metadata, NormalizedName(table, s.team.value), PositionAt(l, k))
  {
    var team := s.team.GetOr("");
    if team != "" {
      var n := NormalizedName(table, team);
      var l := LineupOf(s);
      var g, d := PositionDocs(team, n, l.goalkeepers, PositionLabels[0]), PositionDocs(team, n, l.defenders, PositionLabels[1]);
      var m, f := PositionDocs(team, n, l.midfielders, PositionLabels[2]), PositionDocs(team, n, l.forwards, PositionLabels[3]);
      PositionDocsTagged(team, n, l.goalkeepers, PositionLabels[0]);
      PositionDocsTagged(team, n, l.defenders, PositionLabels[1]);
      PositionDocsTagged(team, n, l.midfielders, PositionLabels[2]);
      PositionDocsTagged(team, n, l.forwards, PositionLabels[3]);
      var docs := SquadDocs(table, s);
      assert docs == g + d + m + f;
      forall k | 0 <= k < |docs|
        ensures PlayerTagged(docs[k].metadata, n, PositionAt(l, k))
      {
        if k < |g| {
          assert docs[k] == g[k];
        } else if k < |g| + |d| {
          assert docs[k] == d[k - |g|];
        } else if k < |g| + |d| + |m| {
          assert docs[k] == m[k - |g| - |d|];
        } else {
          assert docs[k] == f[k - |g| - |d| - |m|];
        }
      }
    }
  }

  // ---------------------------------------------------------------------------
  // Standings
  // ---------------------------------------------------------------------------

  /** A group the standings formatter accepts: no row has a null in a padded field. */
  predicate GroupFormattable(g: Group)
  {
    forall k | 0 <= k < |g.rows| :: RowFormattable(g.rows[k])
  }

  /** The canonical names of the teams of a group, in table order. */
  function GroupTeams(table: AliasTable, g: Group): (r: seq<string>)
    ensures |r| == |g.rows|
    ensures forall k | 0 <= k < |g.rows| :: r[k] == NormalizedName(table, g.rows[k].team.GetOr(""))
  {
    seq(|g.rows|, k requires 0 <= k < |g.rows| => NormalizedName(table, g.rows[k].team.GetOr("")))
  }

  function StandingDoc(table: AliasTable, g: Group): Document
    requires GroupFormattable(g)
  {
    Document(StandingsText(g), map[
      Type := Tag("standings"),
      GroupKey := Val(ValueOr(g.name, "N/A")),
      Teams := List(GroupTeams(table, g)),
      Source := Tag("classements.json")
    ])
  }

  function StandingDocuments(table: AliasTable, gs: seq<Group>): (r: seq<Document>)
    requires forall k | 0 <= k < |gs| :: GroupFormattable(gs[k])
    ensures |r| == |gs|
    ensures forall k | 0 <= k < |gs| :: r[k] == StandingDoc(table, gs[k])
  {
    seq(|gs|, k requires 0 <= k < |gs| => StandingDoc(table, gs[k]))
  }

  /** `[normalize_team_name(t) for t in teams_in_group]`, one scan per row. */
  method NormalizeGroupTeams(table: AliasTable, g: Group) returns (teams: seq<string>)
    ensures teams == GroupTeams(table, g)
  {
    teams := [];
    ghost var all := GroupTeams(table, g);
    for i := 0 to |g.rows|
      invariant teams == all[..i]
    {
      var n := NormalizeTeamName(table, g.rows[i].team.GetOr(""));
      PrefixSnoc(all, i);
      teams := teams + [n];
    }
    assert all[..|g.rows|] == all;
  }

  /** `process_standings`: one document per group, in input order. */
  method ProcessStandings(table: AliasTable, data: seq<Group>) returns (documents: seq<Document>)
    requires forall k | 0 <= k < |data| :: GroupFormattable(data[k])
    ensures documents == StandingDocuments(table, data)
  {
    documents := [];
    ghost var all := StandingDocuments(table, data);
    for i := 0 to |data|
      invariant documents == all[..i]
    {
      var group := data[i];
      PrefixSnoc(all, i);
      var content := FormatGroupStandings(group);
      var teams := NormalizeGroupTeams(table, group);
      documents := documents + [Document(content, map[
        Type := Tag("standings"),
        GroupKey := Val(ValueOr(group.name, "N/A")),
        Teams := List(teams),
        Source := Tag("classements.json")
      ])];
    }
    assert all[..|data|] == all;
  }

  /** A group document names every team of the table, canonically and in table order. */
  lemma StandingDocTeams(table: AliasTable, g: Group)
    requires ValidAliasTable(table)
    requires GroupFormattable(g)
    ensures var teams := StandingDoc(table, g).metadata[Teams].names;
      |teams| == |g.rows|
      && forall k | 0 <= k < |teams| ::
           teams[k] == NormalizedName(table, g.rows[k].team.GetOr(""))
           && NormalizedName(table, teams[k]) == teams[k]
  {
    forall k | 0 <= k < |g.rows| ensures NormalizedName(table, GroupTeams(table, g)[k]) == GroupTeams(table, g)[k] {
      NormalizeIdempotent(table, g.rows[k].team.GetOr(""));
    }
  }

  // ---------------------------------------------------------------------------
  // Stadiums
  // ---------------------------------------------------------------------------

  function StadiumDoc(s: Stadium): Document
  {
    Document(StadiumInfo(s), map[
      Type := Tag("stadium"),
      StadiumName := Val(ValueOr(s.name, "N/A")),
      City := Val(ValueOr(s.city, "N/A")),
      Capacity := Val(ValueOr(s.capacity, "N/A")),
      Source := Tag("stades.json")
    ])
  }

  function StadiumDocuments(ss: seq<Stadium>): (r: seq<Document>)
    ensures |r| == |ss|
    ensures forall k | 0 <= k < |ss| :: r[k] == StadiumDoc(ss[k])
  {
    seq(|ss|, k requires 0 <= k < |ss| => StadiumDoc(ss[k]))
  }

  /** `process_stadiums`: one document per stadium, in input order. */
  method ProcessStadiums(data: seq<Stadium>) returns (documents: seq<Document>)
    ensures documents == StadiumDocuments(data)
  {
    documents := [];
    for i := 0 to |data|
      invariant |documents| == i
      invariant forall k | 0 <= k < i :: documents[k] == StadiumDoc(data[k])
    {
      var stadium := data[i];
      var content := StadiumInfo(stadium);
      documents := documents + [Document(content, map[
        Type := Tag("stadium"),
        StadiumName := Val(ValueOr(stadium.name, "N/A")),
        City := Val(ValueOr(stadium.city, "N/A")),
        Capacity := Val(ValueOr(stadium.capacity, "N/A")),
        Source := Tag("stades.json")
      ])];
    }
  }
}
