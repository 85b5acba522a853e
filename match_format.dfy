/**
 * The match formatters: the detailed match document, the one-line match
 * summary and the announcement text of a knockout-stage match.
 */
module MatchFormat {
  import opened Optional
  import opened Json
  import opened Text
  import opened Records
  import opened Layout

  /** The home side as the texts show it, `match.get("equipe_domicile", "N/A")`. */
  function HomeLabel(m: Match): string
  {
    m.home.GetOr("N/A")
  }

  /** The away side as the texts show it, `match.get("equipe_exterieur", "N/A")`. */
  function AwayLabel(m: Match): string
  {
    m.away.GetOr("N/A")
  }

  /** The final-score line: home side, score (default "-"), away side. */
  function ResultLine(m: Match): string
  {
    HomeLabel(m) + " " + Render(m.score, "-") + " " + AwayLabel(m)
  }

  /** The header and the match facts of the detailed document, up to the final-score heading. */
  function MatchFacts(m: Match): string
  {
    Rule + "\n"
    + "⚽ MATCH CAN 2025 - " + Render(m.number, "N/A") + "\n"
    + Rule + "\n\n"
    + "📅 Date: " + Render(m.date, "N/A") + "\n"
    + "🏆 Phase: " + Render(m.phase, "N/A") + " - " + m.stage.GetOr("") + "\n"
    + "🏟️ Stade: " + Render(m.stadium, "N/A") + "\n"
    + "👥 Affluence: " + Render(m.attendance, "N/A") + " spectateurs\n"
    + "⚖️ Arbitre: " + Render(m.referee, "N/A") + "\n\n"
    + "📊 RÉSULTAT FINAL\n"
  }

  /** The header, the match facts and the final-score line of the detailed document. */
  function HeaderBlock(m: Match): string
  {
    MatchFacts(m) + ResultLine(m) + "\n\n"
  }

  const GoalsHeading := "⚽ BUTS MARQUÉS\n"
  const NoGoalsLine := "  Aucun but marqué (0-0)\n"
  const CardsHeading := "\n🟨 DISCIPLINE\n"
  const NoCardsLine := "  Aucun carton distribué\n"

  /** The assist note of a goal line: present exactly when the assist field is truthy. */
  function AssistSuffix(g: Goal): (r: string)
    ensures r != "" <==> Truthy(g.assist.GetOr(Null))
  {
    if Truthy(g.assist.GetOr(Null)) then " (passe: " + RenderOrNone(g.assist) + ")" else ""
  }

  /** The goal-type note of a goal line: absent exactly for a goal of type "normal". */
  function TypeSuffix(g: Goal): (r: string)
    ensures r == "" <==> g.kind == Some(Str("normal"))
  {
    if g.kind != Some(Str("normal")) then " [" + RenderOrNone(g.kind) + "]" else ""
  }

  /** One goal line of the detailed document, for a goal of the side named `side`. */
  function GoalLine(g: Goal, side: string): string
  {
    "  ⚽ " + RenderOrNone(g.minute) + "' - " + RenderOrNone(g.scorer) + " (" + side + ")"
    + AssistSuffix(g) + TypeSuffix(g) + "\n"
  }

  function GoalLines(goals: seq<Goal>, side: string): (r: seq<string>)
    ensures |r| == |goals|
    ensures forall i | 0 <= i < |goals| :: r[i] == GoalLine(goals[i], side)
  {
    seq(|goals|, i requires 0 <= i < |goals| => GoalLine(goals[i], side))
  }

  /** The goal lines of a match: the home side's goals, then the away side's. */
  function MatchGoalLines(m: Match): seq<string>
  {
    GoalLines(m.homeGoals, HomeLabel(m)) + GoalLines(m.awayGoals, AwayLabel(m))
  }

  /** The body of the goals section: the goal lines, or the "no goal" line when neither side scored. */
  function GoalsSection(m: Match): string
  {
    if m.homeGoals != [] || m.awayGoals != [] then Concat(MatchGoalLines(m)) else NoGoalsLine
  }

  /** A red square for a card of type "rouge", a yellow one for any other card. */
  function CardMarker(c: Card): string
  {
    if c.color == Some(Str("rouge")) then "🟥" else "🟨"
  }

  /** One card line of the detailed document. */
  function CardLine(c: Card, side: string): string
  {
    "  " + CardMarker(c) + " " + RenderOrNone(c.minute) + "' - " + RenderOrNone(c.player) + " (" + side + ")\n"
  }

  function CardLines(cards: seq<Card>, side: string): (r: seq<string>)
    ensures |r| == |cards|
    ensures forall i | 0 <= i < |cards| :: r[i] == CardLine(cards[i], side)
  {
    seq(|cards|, i requires 0 <= i < |cards| => CardLine(cards[i], side))
  }

  /** The card lines of a match: the home side's cards, then the away side's. */
  function MatchCardLines(m: Match): seq<string>
  {
    CardLines(m.homeCards, HomeLabel(m)) + CardLines(m.awayCards, AwayLabel(m))
  }

  /** The body of the discipline section: the card lines, or the "no card" line. */
  function CardsSection(m: Match): string
  {
    if m.homeCards != [] || m.awayCards != [] then Concat(MatchCardLines(m)) else NoCardsLine
  }

  /** The detailed match document. */
  function DetailedText(m: Match): string
  {
    HeaderBlock(m) + GoalsHeading + GoalsSection(m) + CardsHeading + CardsSection(m) + "\n" + Rule
  }

  /** Appends the goal lines of one side, one `+=` per goal. */
  method AppendGoalLines(text0: string, goals: seq<Goal>, side: string) returns (text: string)
    ensures text == text0 + Concat(GoalLines(goals, side))
  {
    text := text0;
    ghost var lines := GoalLines(goals, side);
    for i := 0 to |goals|
      invariant text == text0 + Concat(lines[..i])
    {
      var line := GoalLine(goals[i], side);
      assert text + line == text0 + Concat(lines[..i + 1]) by {
        PrefixSnoc(lines, i);
        ConcatSnoc(lines[..i], lines[i]);
        AppendAssoc(text0, Concat(lines[..i]), line);
      }
      text := text + line;
    }
    assert lines[..|goals|] == lines;
  }

  /** Appends the card lines of one side, one `+=` per card. */
  method AppendCardLines(text0: string, cards: seq<Card>, side: string) returns (text: string)
    ensures text == text0 + Concat(CardLines(cards, side))
  {
    text := text0;
    ghost var lines := CardLines(cards, side);
    for i := 0 to |cards|
      invariant text == text0 + Concat(lines[..i])
    {
      var line := CardLine(cards[i], side);
      assert text + line == text0 + Concat(lines[..i + 1]) by {
        PrefixSnoc(lines, i);
        ConcatSnoc(lines[..i], lines[i]);
        AppendAssoc(text0, Concat(lines[..i]), line);
      }
      text := text + line;
    }
    assert lines[..|cards|] == lines;
  }

  /** `format_match_detailed`: the detailed match document, built section by section. */
  method FormatMatchDetailed(m: Match) returns (text: string)
    ensures text == DetailedText(m)
  {
    var equipeDom, equipeExt := HomeLabel(m), AwayLabel(m);
    text := HeaderBlock(m);
    text := text + GoalsHeading;
    ghost var beforeGoals := text;
    if m.homeGoals != [] || m.awayGoals != [] {
      text := AppendGoalLines(text, m.homeGoals, equipeDom);
      text := AppendGoalLines(text, m.awayGoals, equipeExt);
      ConcatAppend(GoalLines(m.homeGoals, equipeDom), GoalLines(m.awayGoals, equipeExt));
      AppendAssoc(beforeGoals, Concat(GoalLines(m.homeGoals, equipeDom)), Concat(GoalLines(m.awayGoals, equipeExt)));
    } else {
      text := text + NoGoalsLine;
    }
    assert text == beforeGoals + GoalsSection(m);
    text := text + CardsHeading;
    ghost var beforeCards := text;
    if m.homeCards != [] || m.awayCards != [] {
      text := AppendCardLines(text, m.homeCards, equipeDom);
      text := AppendCardLines(text, m.awayCards, equipeExt);
      ConcatAppend(CardLines(m.homeCards, equipeDom), CardLines(m.awayCards, equipeExt));
      AppendAssoc(beforeCards, Concat(CardLines(m.homeCards, equipeDom)), Concat(CardLines(m.awayCards, equipeExt)));
    } else {
      text := text + NoCardsLine;
    }
    assert text == beforeCards + CardsSection(m);
    text := text + "\n" + Rule;
  }

  /** Every goal line opens with two spaces and the ball. */
  lemma GoalLineMarker(g: Goal, side: string)
    ensures CharAt(GoalLine(g, side), 2, '⚽')
  {
  }

  /** Every card line opens with two spaces and a coloured square. */
  lemma CardLineMarker(c: Card, side: string)
    ensures CharAt(CardLine(c, side), 2, CardMarker(c)[0])
  {
  }

  /** The "no goal (0-0)" line is the goals section exactly when neither side has a goal event. */
  lemma NoGoalsLineIff(m: Match)
    ensures GoalsSection(m) == NoGoalsLine <==> m.homeGoals == [] && m.awayGoals == []
  {
    if m.homeGoals != [] || m.awayGoals != [] {
      var lines := MatchGoalLines(m);
      var first := if m.homeGoals != [] then m.homeGoals[0] else m.awayGoals[0];
      var side := if m.homeGoals != [] then HomeLabel(m) else AwayLabel(m);
      assert lines[0] == GoalLine(first, side);
      GoalLineMarker(first, side);
      ConcatFrontChar(lines, 2);
      assert NoGoalsLine[2] == 'A';
    }
  }

  /** The "no card" line is the discipline section exactly when neither side has a card event. */
  lemma NoCardsLineIff(m: Match)
    ensures CardsSection(m) == NoCardsLine <==> m.homeCards == [] && m.awayCards == []
  {
    if m.homeCards != [] || m.awayCards != [] {
      var lines := MatchCardLines(m);
      var first := if m.homeCards != [] then m.homeCards[0] else m.awayCards[0];
      var side := if m.homeCards != [] then HomeLabel(m) else AwayLabel(m);
      assert lines[0] == CardLine(first, side);
      CardLineMarker(first, side);
      ConcatFrontChar(lines, 2);
      assert NoCardsLine[2] == 'A';
    }
  }

  /** Goal lines come home side first, each in record order, then the away side's. */
  lemma GoalLinesInOrder(m: Match)
    ensures |MatchGoalLines(m)| == |m.homeGoals| + |m.awayGoals|
    ensures forall i | 0 <= i < |m.homeGoals| :: MatchGoalLines(m)[i] == GoalLine(m.homeGoals[i], HomeLabel(m))
    ensures forall i | 0 <= i < |m.awayGoals| ::
      MatchGoalLines(m)[|m.homeGoals| + i] == GoalLine(m.awayGoals[i], AwayLabel(m))
  {
  }

  /** Card lines come home side first, each in record order, then the away side's. */
  lemma CardLinesInOrder(m: Match)
    ensures |MatchCardLines(m)| == |m.homeCards| + |m.awayCards|
    ensures forall i | 0 <= i < |m.homeCards| :: MatchCardLines(m)[i] == CardLine(m.homeCards[i], HomeLabel(m))
    ensures forall i | 0 <= i < |m.awayCards| ::
      MatchCardLines(m)[|m.homeCards| + i] == CardLine(m.awayCards[i], AwayLabel(m))
  {
  }

  /** The detailed document shows the final-score line. */
  lemma DetailedShowsResult(m: Match)
    ensures Contains(DetailedText(m), ResultLine(m))
  {
    var t := ResultLine(m);
    ContainsPiece(MatchFacts(m), t, "\n\n");
    ContainsExtend(HeaderBlock(m), t, GoalsHeading);
    ContainsExtend(HeaderBlock(m) + GoalsHeading, t, GoalsSection(m));
    ContainsExtend(HeaderBlock(m) + GoalsHeading + GoalsSection(m), t, CardsHeading);
    ContainsExtend(HeaderBlock(m) + GoalsHeading + GoalsSection(m) + CardsHeading, t, CardsSection(m));
    ContainsExtend(HeaderBlock(m) + GoalsHeading + GoalsSection(m) + CardsHeading + CardsSection(m), t, "\n");
    ContainsExtend(HeaderBlock(m) + GoalsHeading + GoalsSection(m) + CardsHeading + CardsSection(m) + "\n", t, Rule);
  }

  /** Without a goal or card event, the detailed document is fixed by the header facts alone. */
  lemma GoallessDetailedText(m: Match)
    requires m.homeGoals == [] && m.awayGoals == [] && m.homeCards == [] && m.awayCards == []
    ensures DetailedText(m) == HeaderBlock(m) + GoalsHeading + NoGoalsLine + CardsHeading + NoCardsLine + "\n" + Rule
  {
  }

  /** The summary can name the scorers: every goal has its "joueur" and "minute" keys. */
  predicate ScorersKnown(m: Match)
  {
    (forall g | g in m.homeGoals :: g.scorer.Some? && g.minute.Some?)
    && (forall g | g in m.awayGoals :: g.scorer.Some? && g.minute.Some?)
  }

  /** "scorer minute'" for one goal whose keys are present. */
  function ScorerEntry(g: Goal): string
    requires g.scorer.Some? && g.minute.Some?
  {
    Show(g.scorer.value) + " " + Show(g.minute.value) + "'"
  }

  function ScorerEntries(goals: seq<Goal>): (r: seq<string>)
    requires forall g | g in goals :: g.scorer.Some? && g.minute.Some?
    ensures |r| == |goals|
    ensures forall i | 0 <= i < |goals| :: r[i] == ScorerEntry(goals[i])
  {
    seq(|goals|, i requires 0 <= i < |goals| => ScorerEntry(goals[i]))
  }

  /** The scorer list of the summary: home goals, then away goals. */
  function MatchScorers(m: Match): seq<string>
    requires ScorersKnown(m)
  {
    ScorerEntries(m.homeGoals) + ScorerEntries(m.awayGoals)
  }

  /** The scorer part of the summary: present exactly when some side scored. */
  function ScorersPart(scorers: seq<string>): (r: string)
    ensures r == "" <==> scorers == []
  {
    if scorers != [] then " | Buteurs: " + Join(", ", scorers) else ""
  }

  /** The one-line summary of a match. */
  function SummaryText(m: Match): string
    requires ScorersKnown(m)
  {
    "Match CAN 2025 - " + RenderOrNone(m.number) + ": "
    + (ResultLine(m) + " ")
    + ("(" + Render(m.date, "N/A") + ", " + Render(m.stadium, "N/A") + ")")
    + ScorersPart(MatchScorers(m))
  }

  /** `format_match_summary`: collects the scorers of both sides, then joins them into the summary. */
  method FormatMatchSummary(m: Match) returns (text: string)
    requires ScorersKnown(m)
    ensures text == SummaryText(m)
  {
    text := "Match CAN 2025 - " + RenderOrNone(m.number) + ": ";
    text := text + (ResultLine(m) + " ");
    text := text + ("(" + Render(m.date, "N/A") + ", " + Render(m.stadium, "N/A") + ")");
    var buts: seq<string> := [];
    ghost var home, away := ScorerEntries(m.homeGoals), ScorerEntries(m.awayGoals);
    for i := 0 to |m.homeGoals|
      invariant buts == home[..i]
    {
      assert m.homeGoals[i] in m.homeGoals;
      PrefixSnoc(home, i);
      buts := buts + [ScorerEntry(m.homeGoals[i])];
    }
    assert home[..|m.homeGoals|] == home;
    for i := 0 to |m.awayGoals|
      invariant buts == home + away[..i]
    {
      assert m.awayGoals[i] in m.awayGoals;
      PrefixSnoc(away, i);
      buts := buts + [ScorerEntry(m.awayGoals[i])];
    }
    assert away[..|m.awayGoals|] == away;
    if buts != [] {
      text := text + (" | Buteurs: " + Join(", ", buts));
    }
  }

  /** The summary shows the same final-score line as the detailed document. */
  lemma SummaryShowsResult(m: Match)
    requires ScorersKnown(m)
    ensures Contains(SummaryText(m), ResultLine(m))
  {
    var before := "Match CAN 2025 - " + RenderOrNone(m.number) + ": ";
    var after := " " + ("(" + Render(m.date, "N/A") + ", " + Render(m.stadium, "N/A") + ")")
      + ScorersPart(MatchScorers(m));
    assert SummaryText(m) == before + ResultLine(m) + after;
    ContainsPiece(before, ResultLine(m), after);
  }

  /** The stage labels whose matches also get an announcement document. */
  const KnockoutStages: seq<string> := ["finale", "demi-finale", "quart de finale"]

  /** A final, semi-final or quarter-final, whatever the case of the stage label. */
  predicate IsKnockout(m: Match)
  {
    Lower(m.stage.GetOr("")) in KnockoutStages
  }

  /** The `event` tag of an announcement: the stage label lower-cased, spaces made underscores. */
  function EventTag(stage: string): (r: string)
    ensures |r| == |stage| && ' ' !in r
  {
    ReplaceSpaces(Lower(stage))
  }

  /** The knockout stages are tagged "finale", "demi-finale" and "quart_de_finale". */
  lemma KnockoutTags(m: Match)
    requires IsKnockout(m)
    ensures EventTag(m.stage.value) in ["finale", "demi-finale", "quart_de_finale"]
  {
    var l := Lower(m.stage.value);
    assert Lower(l) == l by {
      forall k | 0 <= k < |l| ensures LowerChar(l[k]) == l[k] { }
    }
    assert ReplaceSpaces(l) == EventTag(m.stage.value);
    if l == "quart de finale" {
      assert ReplaceSpaces(l) == "quart_de_finale";
    } else if l == "finale" {
      assert ReplaceSpaces(l) == "finale";
    } else {
      assert ReplaceSpaces(l) == "demi-finale";
    }
  }

  /** The announcement text of a knockout-stage match (its surrounding whitespace stripped). */
  function EventText(m: Match): string
    requires m.stage.Some?
  {
    Strip("\n" + EventHeading(m.stage.value) + EventBody(m))
  }

  /** The announcement's title line, without its line break. */
  function EventHeading(stage: string): string
  {
    "🏆 " + Upper(stage) + " - CAN 2025"
  }

  /** The announcement below its title: date, stadium, sides and match number. */
  function EventBody(m: Match): string
  {
    "\n\n"
    + "📅 Date : " + RenderOrNone(m.date) + "\n"
    + "🏟️ Stade : " + RenderOrNone(m.stadium) + "\n"
    + "⚽ Match : " + m.home.GetOr("None") + " vs " + m.away.GetOr("None") + "\n"
    + "🆔 Match : " + RenderOrNone(m.number) + "\n"
  }

  /**
   * The knockout announcement opens with its title, the upper-cased stage and
   * the tournament name: `strip` only removes the layout around the text.
   */
  lemma EventTextHeading(m: Match)
    requires m.stage.Some?
    ensures StartsWith(EventText(m), EventHeading(m.stage.value))
    ensures Trimmed(EventText(m))
  {
    var h := EventHeading(m.stage.value);
    assert h[0] == '🏆';
    assert h[|h| - 1] == '5';
    StripKeepsHead("\n", h, EventBody(m));
    StripIsTrimmed("\n" + h + EventBody(m));
  }
}
