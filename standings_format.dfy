/**
 * The group-standings formatter: a fixed-width table of one group, one row
 * per team in the order of the group record.
 */
module StandingsFormat {
  import opened Optional
  import opened Json
  import opened Text
  import opened Records
  import opened Layout

  /**
   * Python's `format(v, "<w")` for a table cell: strings and integers are
   * left-aligned in a field of width `w`; a boolean formats as the integer 1
   * or 0. `None` has no such format (Python raises), hence the precondition.
   */
  function Cell(v: Value, w: nat): (r: string)
    requires !v.Null?
    ensures |r| == if |Shown(v)| < w then w else |Shown(v)|
    ensures StartsWith(r, Shown(v))
  {
    PadRight(Shown(v), w)
  }

  /** The text a non-`None` cell value formats to before padding. */
  function Shown(v: Value): string
  {
    match v
    case Bool(b) => if b then "1" else "0"
    case _ => Show(v)
  }

  /** The padded fields of a row hold no JSON null. */
  predicate RowFormattable(r: StandingRow)
  {
    r.rank != Some(Null) && r.points != Some(Null) && r.played != Some(Null) && r.won != Some(Null)
    && r.drawn != Some(Null) && r.lost != Some(Null) && r.goalsFor != Some(Null) && r.goalsAgainst != Some(Null)
  }

  /** The column headings, padded to the widths of the rows below them. */
  const HeaderRow: string :=
    PadRight("Rang", 6) + PadRight("Équipe", 20) + PadRight("Pts", 6) + PadRight("J", 4) + PadRight("G", 4)
    + PadRight("N", 4) + PadRight("P", 4) + PadRight("BP", 5) + PadRight("BC", 5) + "Diff" + "\n"

  const Dashes: string := "---------------------------------------------------------------------------"

  /** One team's row: rank, name, points, played, won, drawn, lost, goals for and against, difference. */
  function StandingLine(r: StandingRow): string
    requires RowFormattable(r)
  {
    Cell(ValueOr(r.rank, ""), 6)
    + PadRight(r.team.GetOr("N/A"), 20)
    + Cell(ValueOr(r.points, "0"), 6)
    + Cell(ValueOr(r.played, "0"), 4)
    + Cell(ValueOr(r.won, "0"), 4)
    + Cell(ValueOr(r.drawn, "0"), 4)
    + Cell(ValueOr(r.lost, "0"), 4)
    + Cell(ValueOr(r.goalsFor, "0"), 5)
    + Cell(ValueOr(r.goalsAgainst, "0"), 5)
    + Show(ValueOr(r.difference, "0")) + "\n"
  }

  function StandingLines(rows: seq<StandingRow>): (r: seq<string>)
    requires forall k | 0 <= k < |rows| :: RowFormattable(rows[k])
    ensures |r| == |rows|
    ensures forall k | 0 <= k < |rows| :: r[k] == StandingLine(rows[k])
  {
    seq(|rows|, k requires 0 <= k < |rows| => StandingLine(rows[k]))
  }

  /** The frame above the rows: the title, the column headings and the dashed rule. */
  function StandingsHead(g: Group): string
  {
    Rule + "\n"
    + "📊 CLASSEMENT CAN 2025 - " + Render(g.name, "N/A") + "\n"
    + Rule + "\n\n"
    + HeaderRow
    + Dashes + "\n"
  }

  /** The standings document of one group. */
  function StandingsText(g: Group): string
    requires forall k | 0 <= k < |g.rows| :: RowFormattable(g.rows[k])
  {
    StandingsHead(g) + Concat(StandingLines(g.rows)) + ("\n" + Rule)
  }

  /** `format_group_standings`: the frame, then one row per team, then the closing rule. */
  method FormatGroupStandings(g: Group) returns (text: string)
    requires forall k | 0 <= k < |g.rows| :: RowFormattable(g.rows[k])
    ensures text == StandingsText(g)
  {
    text := StandingsHead(g);
    ghost var head := text;
    ghost var lines := StandingLines(g.rows);
    for i := 0 to |g.rows|
      invariant text == head + Concat(lines[..i])
    {
      var line := StandingLine(g.rows[i]);
      assert text + line == head + Concat(lines[..i + 1]) by {
        PrefixSnoc(lines, i);
        ConcatSnoc(lines[..i], lines[i]);
        AppendAssoc(head, Concat(lines[..i]), line);
      }
      text := text + line;
    }
    assert lines[..|g.rows|] == lines;
    text := text + ("\n" + Rule);
  }

  /** The heading row: "Équipe" starts at column 6, "Pts" at 26 and "Diff" at 58. */
  lemma HeaderColumns()
    ensures |HeaderRow| == 63
    ensures OccursAt(HeaderRow, "Équipe", 6) && OccursAt(HeaderRow, "Pts", 26) && OccursAt(HeaderRow, "Diff", 58)
  {
  }

  /** A piece found in the first three cells of a row stays where it is once the other cells and the newline follow. */
  lemma StaysInRow(c1: string, c2: string, c3: string, c4: string, c5: string, c6: string, c7: string,
                   c8: string, c9: string, d: string, t: string, k: int)
    requires OccursAt(c1 + c2 + c3, t, k)
    ensures OccursAt(c1 + c2 + c3 + c4 + c5 + c6 + c7 + c8 + c9 + d + "\n", t, k)
  {
    OccursAtExtend(c1 + c2 + c3, t, k, c4);
    OccursAtExtend(c1 + c2 + c3 + c4, t, k, c5);
    OccursAtExtend(c1 + c2 + c3 + c4 + c5, t, k, c6);
    OccursAtExtend(c1 + c2 + c3 + c4 + c5 + c6, t, k, c7);
    OccursAtExtend(c1 + c2 + c3 + c4 + c5 + c6 + c7, t, k, c8);
    OccursAtExtend(c1 + c2 + c3 + c4 + c5 + c6 + c7 + c8, t, k, c9);
    OccursAtExtend(c1 + c2 + c3 + c4 + c5 + c6 + c7 + c8 + c9, t, k, d);
    OccursAtExtend(c1 + c2 + c3 + c4 + c5 + c6 + c7 + c8 + c9 + d, t, k, "\n");
  }

  /**
   * When every padded value fits its width, a row's columns line up under the
   * headings: the team name starts at column 6, the points at 26 and the goal
   * difference at 58, where the row ends.
   */
  lemma RowColumns(r: StandingRow)
    requires RowFormattable(r)
    requires |Shown(ValueOr(r.rank, ""))| <= 6 && |r.team.GetOr("N/A")| <= 20
    requires |Shown(ValueOr(r.points, "0"))| <= 6 && |Shown(ValueOr(r.played, "0"))| <= 4
    requires |Shown(ValueOr(r.won, "0"))| <= 4 && |Shown(ValueOr(r.drawn, "0"))| <= 4
    requires |Shown(ValueOr(r.lost, "0"))| <= 4 && |Shown(ValueOr(r.goalsFor, "0"))| <= 5
    requires |Shown(ValueOr(r.goalsAgainst, "0"))| <= 5
    ensures var line := StandingLine(r);
      OccursAt(line, r.team.GetOr("N/A"), 6)
      && OccursAt(line, Shown(ValueOr(r.points, "0")), 26)
      && OccursAt(line, Show(ValueOr(r.difference, "0")) + "\n", 58)
      && |line| == 58 + |Show(ValueOr(r.difference, "0"))| + 1
  {
    var c1, c2, c3 := Cell(ValueOr(r.rank, ""), 6), PadRight(r.team.GetOr("N/A"), 20), Cell(ValueOr(r.points, "0"), 6);
    var c4, c5, c6 := Cell(ValueOr(r.played, "0"), 4), Cell(ValueOr(r.won, "0"), 4), Cell(ValueOr(r.drawn, "0"), 4);
    var c7, c8, c9 := Cell(ValueOr(r.lost, "0"), 4), Cell(ValueOr(r.goalsFor, "0"), 5), Cell(ValueOr(r.goalsAgainst, "0"), 5);
    var d := Show(ValueOr(r.difference, "0"));
    var team, pts := r.team.GetOr("N/A"), Shown(ValueOr(r.points, "0"));
    // the team name opens its cell, which starts after the 6-wide rank cell
    OccursAtEnd(c1, c2);
    assert OccursAt(c1 + c2, team, 6);
    OccursAtExtend(c1 + c2, team, 6, c3);
    StaysInRow(c1, c2, c3, c4, c5, c6, c7, c8, c9, d, team, 6);
    // the points open the cell after the two first ones
    OccursAtEnd(c1 + c2, c3);
    assert OccursAt(c1 + c2 + c3, pts, 26);
    StaysInRow(c1, c2, c3, c4, c5, c6, c7, c8, c9, d, pts, 26);
    // the difference and the newline close the row
    var front := c1 + c2 + c3 + c4 + c5 + c6 + c7 + c8 + c9;
    assert |front| == 58;
    AppendAssoc(front, d, "\n");
    OccursAtEnd(front, d + "\n");
  }
}
