/**
 * The team formatters: the complete team document that joins the team,
 * coach and squad records of one team, and the one-line team summary.
 */
module TeamFormat {
  import opened Optional
  import opened Json
  import opened Text
  import opened Config
  import opened Names
  import opened Records
  import opened Layout
  import opened Lookup

  /** A record's team key (a missing key is "") names the requested team: both normalise alike. */
  predicate NamesTeam(table: AliasTable, key: Option<string>, teamName: string)
  {
    NormalizedName(table, key.GetOr("")) == NormalizedName(table, teamName)
  }

  function TeamTest(table: AliasTable, teamName: string): Team -> bool
  {
    (t: Team) => NamesTeam(table, t.name, teamName)
  }

  function CoachTest(table: AliasTable, teamName: string): Coach -> bool
  {
    (c: Coach) => NamesTeam(table, c.country, teamName)
  }

  function SquadTest(table: AliasTable, teamName: string): Squad -> bool
  {
    (s: Squad) => NamesTeam(table, s.team, teamName)
  }

  /** The first team record naming the team, or the empty record. */
  function FindTeam(table: AliasTable, teams: seq<Team>, teamName: string): (r: Team)
    ensures (exists i :: IsFirstMatch(teams, TeamTest(table, teamName), i) && r == teams[i])
      || (r == NoTeam && forall j | 0 <= j < |teams| :: !NamesTeam(table, teams[j].name, teamName))
  {
    FirstWhere(teams, TeamTest(table, teamName), NoTeam)
  }

  /** The first coach record whose country names the team, or the empty record. */
  function FindCoach(table: AliasTable, coaches: seq<Coach>, teamName: string): (r: Coach)
    ensures (exists i :: IsFirstMatch(coaches, CoachTest(table, teamName), i) && r == coaches[i])
      || (r == NoCoach && forall j | 0 <= j < |coaches| :: !NamesTeam(table, coaches[j].country, teamName))
  {
    FirstWhere(coaches, CoachTest(table, teamName), NoCoach)
  }

  /** The first squad record naming the team, or the empty record. */
  function FindSquad(table: AliasTable, squads: seq<Squad>, teamName: string): (r: Squad)
    ensures (exists i :: IsFirstMatch(squads, SquadTest(table, teamName), i) && r == squads[i])
      || (r == NoSquad && forall j | 0 <= j < |squads| :: !NamesTeam(table, squads[j].team, teamName))
  {
    FirstWhere(squads, SquadTest(table, teamName), NoSquad)
  }

  /** Two spellings of one team ("Morocco", "Maroc") look up the same three records. */
  lemma LookupsFollowNormalization(table: AliasTable, src: Sources, a: string, b: string)
    requires NormalizedName(table, a) == NormalizedName(table, b)
    ensures FindTeam(table, src.teams, a) == FindTeam(table, src.teams, b)
    ensures FindCoach(table, src.coaches, a) == FindCoach(table, src.coaches, b)
    ensures FindSquad(table, src.squads, a) == FindSquad(table, src.squads, b)
  {
    FirstWhereExtensional(src.teams, TeamTest(table, a), TeamTest(table, b), NoTeam);
    FirstWhereExtensional(src.coaches, CoachTest(table, a), CoachTest(table, b), NoCoach);
    FirstWhereExtensional(src.squads, SquadTest(table, a), SquadTest(table, b), NoSquad);
  }

  /** The header, the general facts and the record of the complete team document. */
  function GeneralInfo(teamName: string, aliases: seq<string>, t: Team): string
  {
    Rule + "\n"
    + "🏆 " + Upper(teamName) + " - CAN 2025\n"
    + Rule + "\n\n"
    + "📋 INFORMATIONS GÉNÉRALES\n"
    + "Noms: " + Join(", ", Take(aliases, 3)) + "\n"
    + "Participation: " + Render(t.participation, "N/A") + "\n"
    + "Première participation: " + Render(t.firstParticipation, "N/A") + "\n"
    + "Dernière participation: " + Render(t.lastParticipation, "N/A") + "\n"
    + "Qualification: " + Render(t.qualificationMethod, "N/A") + "\n"
    + "Date de qualification: " + Render(t.qualificationDate, "N/A") + "\n\n"
    + "🏆 PALMARÈS\n"
    + "Meilleur résultat: " + Render(t.bestResult, "N/A") + "\n"
    + "Participations précédentes: " + Truncate(t.previousAppearances.GetOr("N/A"), 200) + "\n\n"
  }

  /** The coach's details line: absent for empty details, otherwise cut to 300 characters. */
  function DetailsLine(details: string): (r: string)
    ensures r == "" <==> details == ""
    ensures |r| <= |"Détails: "| + 300 + |"..."| + 1
  {
    if details != "" then "Détails: " + Truncate(details, 300) + "\n" else ""
  }

  /** The coach section of the complete team document. */
  function CoachSection(c: Coach): string
  {
    "👔 SÉLECTIONNEUR\n"
    + "Nom: " + Render(c.name, "N/A") + "\n"
    + "Catégorie: " + Render(c.category, "N/A") + "\n"
    + DetailsLine(c.details.GetOr(""))
    + "\n"
  }

  /** Line `number` of a position list: "number. name - club". */
  function RosterLine(p: Player, number: nat): string
  {
    NatToString(number) + ". " + Render(p.name, "N/A") + " - " + Render(p.club, "N/A") + "\n"
  }

  /** The lines of one position list, numbered from 1 in list order. */
  function RosterLines(players: seq<Player>): (r: seq<string>)
    ensures |r| == |players|
    ensures forall k | 0 <= k < |players| :: r[k] == RosterLine(players[k], k + 1)
  {
    seq(|players|, k requires 0 <= k < |players| => RosterLine(players[k], k + 1))
  }

  /** The heading of one position list, with the list's length. */
  function PositionHeading(lead: string, title: string, count: nat): string
  {
    lead + "═══ " + title + " (" + NatToString(count) + ") ═══\n"
  }

  function PositionBlock(lead: string, title: string, players: seq<Player>): string
  {
    PositionHeading(lead, title, |players|) + Concat(RosterLines(players))
  }

  function SquadTotal(l: Lineup): nat
  {
    |l.goalkeepers| + |l.defenders| + |l.midfielders| + |l.forwards|
  }

  function SquadHeading(l: Lineup): string
  {
    "👥 EFFECTIF COMPLET (" + NatToString(SquadTotal(l)) + " joueurs)\n\n"
  }

  /** The squad section: the total, then the four position lists in their fixed order. */
  function SquadSection(l: Lineup): string
  {
    SquadHeading(l)
    + PositionBlock("", "GARDIENS", l.goalkeepers)
    + PositionBlock("\n", "DÉFENSEURS", l.defenders)
    + PositionBlock("\n", "MILIEUX", l.midfielders)
    + PositionBlock("\n", "ATTAQUANTS", l.forwards)
    + "\n"
  }

  /** The complete team document for the name `teamName`, from the records the lookups found. */
  function CompleteTextOf(table: AliasTable, teamName: string, t: Team, c: Coach, s: Squad): string
  {
    GeneralInfo(teamName, AliasesOf(table, teamName), t)
    + (if CoachPresent(c) then CoachSection(c) else "")
    + (if SquadPresent(s) then SquadSection(LineupOf(s)) else "")
    + Rule
  }

  /** The complete team document for the name `teamName`. */
  function TeamCompleteText(table: AliasTable, src: Sources, teamName: string): string
  {
    CompleteTextOf(table, teamName, FindTeam(table, src.teams, teamName),
                   FindCoach(table, src.coaches, teamName), FindSquad(table, src.squads, teamName))
  }

  /** Appends one position list, `enumerate(players, 1)`. */
  method AppendRoster(text0: string, players: seq<Player>) returns (text: string)
    ensures text == text0 + Concat(RosterLines(players))
  {
    text := text0;
    ghost var lines := RosterLines(players);
    for i := 0 to |players|
      invariant text == text0 + Concat(lines[..i])
    {
      var line := RosterLine(players[i], i + 1);
      assert text + line == text0 + Concat(lines[..i + 1]) by {
        PrefixSnoc(lines, i);
        ConcatSnoc(lines[..i], lines[i]);
        AppendAssoc(text0, Concat(lines[..i]), line);
      }
      text := text + line;
    }
    assert lines[..|players|] == lines;
  }

  /** Appends the heading and the lines of one position list. */
  method AppendPosition(text0: string, lead: string, title: string, players: seq<Player>) returns (text: string)
    ensures text == text0 + PositionBlock(lead, title, players)
  {
    var heading := PositionHeading(lead, title, |players|);
    text := text0 + heading;
    text := AppendRoster(text, players);
    AppendAssoc(text0, heading, Concat(RosterLines(players)));
  }

  /** Appends the squad section. */
  method AppendSquad(text0: string, l: Lineup) returns (text: string)
    ensures text == text0 + SquadSection(l)
  {
    var total := |l.goalkeepers| + |l.defenders| + |l.midfielders| + |l.forwards|;
    var heading := "👥 EFFECTIF COMPLET (" + NatToString(total) + " joueurs)\n\n";
    assert heading == SquadHeading(l);
    text := text0 + heading;
    text := AppendPosition(text, "", "GARDIENS", l.goalkeepers);
    text := AppendPosition(text, "\n", "DÉFENSEURS", l.defenders);
    text := AppendPosition(text, "\n", "MILIEUX", l.midfielders);
    text := AppendPosition(text, "\n", "ATTAQUANTS", l.forwards);
    text := text + "\n";
    AppendAssoc6(text0, heading, PositionBlock("", "GARDIENS", l.goalkeepers),
      PositionBlock("\n", "DÉFENSEURS", l.defenders), PositionBlock("\n", "MILIEUX", l.midfielders),
      PositionBlock("\n", "ATTAQUANTS", l.forwards), "\n");
  }

  /** `format_team_complete`: the three lookups, then the document section by section. */
  method FormatTeamComplete(table: AliasTable, src: Sources, teamName: string) returns (text: string)
    ensures text == TeamCompleteText(table, src, teamName)
  {
    var teamInfo := FindTeam(table, src.teams, teamName);
    var coachInfo := FindCoach(table, src.coaches, teamName);
    var squadInfo := FindSquad(table, src.squads, teamName);
    var aliases := GetTeamAliases(table, teamName);
    text := GeneralInfo(teamName, aliases, teamInfo);
    AppendEmpty(text);
    if CoachPresent(coachInfo) {
      text := text + CoachSection(coachInfo);
    }
    AppendEmpty(text);
    if SquadPresent(squadInfo) {
      text := AppendSquad(text, LineupOf(squadInfo));
    }
    text := text + Rule;
  }

  /** Each position list is numbered from 1: line `k` opens with the number `k + 1`. */
  lemma RosterNumberedFromOne(players: seq<Player>, k: nat)
    requires k < |players|
    ensures var digits := NatToString(k + 1);
      StartsWith(RosterLines(players)[k], digits) && ParseDecimal(digits) == k + 1
  {
    var digits := NatToString(k + 1);
    var p := players[k];
    assert StartsWith(digits + ". ", digits);
    StartsWithExtend(digits + ". ", digits, Render(p.name, "N/A"));
    StartsWithExtend(digits + ". " + Render(p.name, "N/A"), digits, " - ");
    StartsWithExtend(digits + ". " + Render(p.name, "N/A") + " - ", digits, Render(p.club, "N/A"));
    StartsWithExtend(digits + ". " + Render(p.name, "N/A") + " - " + Render(p.club, "N/A"), digits, "\n");
    NatToStringRoundTrip(k + 1);
  }

  /** The announced squad total is the number of players in the four position lists together. */
  lemma SquadTotalCountsEveryPlayer(l: Lineup)
    ensures var digits := NatToString(SquadTotal(l));
      var lead := "👥 EFFECTIF COMPLET (";
      StartsWith(SquadHeading(l), lead + digits)
      && ParseDecimal(digits) == |l.goalkeepers| + |l.defenders| + |l.midfielders| + |l.forwards|
  {
    var digits := NatToString(SquadTotal(l));
    var lead := "👥 EFFECTIF COMPLET (";
    assert StartsWith(lead + digits, lead + digits);
    StartsWithExtend(lead + digits, lead + digits, " joueurs)\n\n");
    NatToStringRoundTrip(SquadTotal(l));
  }

  /** One to three names of the team are listed, whatever name the sheet is made for. */
  lemma AtMostThreeNames(table: AliasTable, teamName: string)
    ensures var listed := Take(AliasesOf(table, teamName), 3);
      1 <= |listed| <= 3
  {
    AliasesOfContainsName(table, teamName);
  }

  /** For a name without surrounding whitespace, the first name listed is the canonical one. */
  lemma CanonicalNameListedFirst(table: AliasTable, teamName: string)
    requires ValidAliasTable(table) && Trimmed(teamName)
    ensures var listed := Take(AliasesOf(table, teamName), 3);
      |listed| >= 1 && listed[0] == NormalizedName(table, teamName)
  {
    AliasesOfContainsName(table, teamName);
    AliasesOfLeadsWithNormalized(table, teamName);
  }

  /** The one-line team summary, from the records the lookups found. */
  function SummaryTextOf(teamName: string, t: Team, c: Coach): string
  {
    teamName + " - " + Render(t.participation, "N/A") + " participation(s). "
    + "Meilleur résultat: " + Render(t.bestResult, "N/A") + ". "
    + (if CoachPresent(c) then "Sélectionneur: " + Render(c.name, "N/A") + "." else "")
  }

  /** The one-line team summary. */
  function TeamSummaryText(table: AliasTable, src: Sources, teamName: string): string
  {
    SummaryTextOf(teamName, FindTeam(table, src.teams, teamName), FindCoach(table, src.coaches, teamName))
  }

  /**
   * The summary opens with the name as given, and it ends with a full stop
   * (the coach sentence) exactly when a coach record was found.
   */
  lemma TeamSummaryShape(table: AliasTable, src: Sources, teamName: string)
    ensures var r := TeamSummaryText(table, src, teamName);
      StartsWith(r, teamName) && |r| > |teamName|
      && (r[|r| - 1] == '.' <==> CoachPresent(FindCoach(table, src.coaches, teamName)))
  {
    var t := FindTeam(table, src.teams, teamName);
    var c := FindCoach(table, src.coaches, teamName);
    var p, b := Render(t.participation, "N/A"), Render(t.bestResult, "N/A");
    var tail := if CoachPresent(c) then "Sélectionneur: " + Render(c.name, "N/A") + "." else "";
    var base := teamName + " - " + p + " participation(s). " + "Meilleur résultat: " + b + ". ";
    assert StartsWith(teamName, teamName);
    StartsWithExtend(teamName, teamName, " - ");
    StartsWithExtend(teamName + " - ", teamName, p);
    StartsWithExtend(teamName + " - " + p, teamName, " participation(s). ");
    StartsWithExtend(teamName + " - " + p + " participation(s). ", teamName, "Meilleur résultat: ");
    StartsWithExtend(teamName + " - " + p + " participation(s). " + "Meilleur résultat: ", teamName, b);
    StartsWithExtend(teamName + " - " + p + " participation(s). " + "Meilleur résultat: " + b, teamName, ". ");
    StartsWithExtend(base, teamName, tail);
    LastOfAppend(base, tail);
    LastOfAppend(teamName + " - " + p + " participation(s). " + "Meilleur résultat: " + b, ". ");
    if CoachPresent(c) {
      LastOfAppend("Sélectionneur: " + Render(c.name, "N/A"), ".");
    }
  }
}
