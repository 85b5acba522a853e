/**
 * The fixed configuration of the pipeline: the names of the seven record
 * sources and the reference table of team-name aliases.
 */
module Config {
  import opened Text

  /** The record sources by key, each with the file it is read from. */
  const Files: map<string, string> := map[
    "matches" := "matches.json",
    "teams" := "equipes_qualifiees.json",
    "coaches" := "coach.json",
    "squads" := "joueurs_equipe.json",
    "stadiums" := "stades.json",
    "standings" := "classement_phase_groupe.json",
    "best_thirds" := "classement_meilleurs_trois.json"
  ]

  /**
   * The reference table of team names, in the order a lookup scans it: each
   * entry is a canonical name and the surface forms (official name,
   * translations, code, nickname) that stand for it.
   */
  const TeamAliases: AliasTable := [
    ("Maroc", ["Maroc", "Morocco", "MAR", "Lions de l'Atlas", "Al Maghrib"]),
    ("Burkina Faso", ["Burkina Faso", "Burkina", "BFA", "Étalons"]),
    ("Cameroun", ["Cameroun", "Cameroon", "CMR", "Lions Indomptables"]),
    ("Algérie", ["Algérie", "Algeria", "ALG", "Fennecs"]),
    ("RD Congo", ["RD Congo", "RDC", "DR Congo", "Congo DR", "COD", "Léopards"]),
    ("Sénégal", ["Sénégal", "Senegal", "SEN", "Lions de la Teranga"]),
    ("Égypte", ["Égypte", "Egypt", "EGY", "Pharaons"]),
    ("Angola", ["Angola", "ANG", "Palancas Negras"]),
    ("Guinée équatoriale", ["Guinée équatoriale", "Equatorial Guinea", "GEQ", "EQG", "Nzalang Nacional"]),
    ("Côte d'Ivoire", ["Côte d'Ivoire", "Ivory Coast", "CIV", "Éléphants"]),
    ("Gabon", ["Gabon", "GAB", "Panthères"]),
    ("Ouganda", ["Ouganda", "Uganda", "UGA", "Cranes"]),
    ("Afrique du Sud", ["Afrique du Sud", "South Africa", "RSA", "Bafana Bafana"]),
    ("Tunisie", ["Tunisie", "Tunisia", "TUN", "Aigles de Carthage"]),
    ("Nigeria", ["Nigeria", "NGA", "Super Eagles"]),
    ("Mali", ["Mali", "MLI", "Aigles du Mali"]),
    ("Zambie", ["Zambie", "Zambia", "ZAM", "Chipolopolo"]),
    ("Zimbabwe", ["Zimbabwe", "ZIM", "Warriors"]),
    ("Comores", ["Comores", "Comoros", "COM", "Cœlacanthes"]),
    ("Soudan", ["Soudan", "Sudan", "SDN", "Faucons de Jediane"]),
    ("Bénin", ["Bénin", "Benin", "BEN", "Guépards"]),
    ("Tanzanie", ["Tanzanie", "Tanzania", "TAN", "Taifa Stars"]),
    ("Botswana", ["Botswana", "BOT", "Zebras"]),
    ("Mozambique", ["Mozambique", "MOZ", "Mambas"])
  ]

  /** An alias table: canonical names with their surface forms, in scan order. */
  type AliasTable = seq<(string, seq<string>)>

  /**
   * What the lookups rely on in a table: every alias list starts with its
   * own canonical name, no alias has surrounding whitespace, and the alias
   * lists of two entries never share a name.
   */
  predicate ValidAliasTable(t: AliasTable)
  {
    (forall i | 0 <= i < |t| :: |t[i].1| > 0 && t[i].1[0] == t[i].0)
    && (forall i, k | 0 <= i < |t| && 0 <= k < |t[i].1| :: Trimmed(t[i].1[k]))
    && (forall i, j | 0 <= i < |t| && 0 <= j < |t| && i != j :: Disjoint(t[i].1, t[j].1))
  }

  /** The alias lists of two entries have no name in common. */
  predicate Disjoint(a: seq<string>, b: seq<string>)
  {
    forall x | x in a :: x !in b
  }

  /** Every alias list is non-empty and starts with its own canonical name. */
  lemma CanonicalLeadsAliases()
    ensures forall i | 0 <= i < |TeamAliases| :: |TeamAliases[i].1| > 0 && TeamAliases[i].1[0] == TeamAliases[i].0
  {
  }

  /** No alias, and so no canonical name, has whitespace at either end. */
  lemma AliasesTrimmed()
    ensures forall i, k | 0 <= i < |TeamAliases| && 0 <= k < |TeamAliases[i].1| :: Trimmed(TeamAliases[i].1[k])
  {
    VisibleAtEnds0To5();
    VisibleAtEnds6To11();
    VisibleAtEnds12To17();
    VisibleAtEnds18To23();
    forall i, k | 0 <= i < |TeamAliases| && 0 <= k < |TeamAliases[i].1|
      ensures Trimmed(TeamAliases[i].1[k])
    {
      var a := TeamAliases[i].1[k];
      VisibleLatinNotSpace(a[0]);
      VisibleLatinNotSpace(a[|a| - 1]);
    }
  }

  /** Every alias of entries 0 to 5 starts and ends with a visible Latin character. */
  lemma VisibleAtEnds0To5()
    ensures forall i, k | 0 <= i < 6 && 0 <= k < |TeamAliases[i].1| ::
      |TeamAliases[i].1[k]| > 0 && VisibleLatin(TeamAliases[i].1[k][0]) && VisibleLatin(TeamAliases[i].1[k][|TeamAliases[i].1[k]| - 1])
  {
  }

  /** Every alias of entries 6 to 11 starts and ends with a visible Latin character. */
  lemma VisibleAtEnds6To11()
    ensures forall i, k | 6 <= i < 12 && 0 <= k < |TeamAliases[i].1| ::
      |TeamAliases[i].1[k]| > 0 && VisibleLatin(TeamAliases[i].1[k][0]) && VisibleLatin(TeamAliases[i].1[k][|TeamAliases[i].1[k]| - 1])
  {
  }

  /** Every alias of entries 12 to 17 starts and ends with a visible Latin character. */
  lemma VisibleAtEnds12To17()
    ensures forall i, k | 12 <= i < 18 && 0 <= k < |TeamAliases[i].1| ::
      |TeamAliases[i].1[k]| > 0 && VisibleLatin(TeamAliases[i].1[k][0]) && VisibleLatin(TeamAliases[i].1[k][|TeamAliases[i].1[k]| - 1])
  {
  }

  /** Every alias of entries 18 to 23 starts and ends with a visible Latin character. */
  lemma VisibleAtEnds18To23()
    ensures forall i, k | 18 <= i < 24 && 0 <= k < |TeamAliases[i].1| ::
      |TeamAliases[i].1[k]| > 0 && VisibleLatin(TeamAliases[i].1[k][0]) && VisibleLatin(TeamAliases[i].1[k][|TeamAliases[i].1[k]| - 1])
  {
  }

  /** No alias of entries 1 to 4 occurs in an earlier entry. */
  lemma FreshAliases1To4()
    ensures forall i, j, k | 0 <= i < j && 1 <= j < 5 && 0 <= k < |TeamAliases[j].1| :: TeamAliases[j].1[k] !in TeamAliases[i].1
  {
  }

  /** No alias of entries 5 to 6 occurs in an earlier entry. */
  lemma FreshAliases5To6()
    ensures forall i, j, k | 0 <= i < j && 5 <= j < 7 && 0 <= k < |TeamAliases[j].1| :: TeamAliases[j].1[k] !in TeamAliases[i].1
  {
  }

  /** No alias of entry 7 occurs in an earlier entry. */
  lemma FreshAliases7()
    ensures forall i, j, k | 0 <= i < j && j == 7 && 0 <= k < |TeamAliases[j].1| :: TeamAliases[j].1[k] !in TeamAliases[i].1
  {
  }

  /** No alias of entry 8 occurs in an earlier entry. */
  lemma FreshAliases8()
    ensures forall i, j, k | 0 <= i < j && j == 8 && 0 <= k < |TeamAliases[j].1| :: TeamAliases[j].1[k] !in TeamAliases[i].1
  {
  }

  /** No alias of entry 9 occurs in an earlier entry. */
  lemma FreshAliases9()
    ensures forall i, j, k | 0 <= i < j && j == 9 && 0 <= k < |TeamAliases[j].1| :: TeamAliases[j].1[k] !in TeamAliases[i].1
  {
  }

  /** No alias of entry 10 occurs in an earlier entry. */
  lemma FreshAliases10()
    ensures forall i, j, k | 0 <= i < j && j == 10 && 0 <= k < |TeamAliases[j].1| :: TeamAliases[j].1[k] !in TeamAliases[i].1
  {
  }

  /** No alias of entry 11 occurs in an earlier entry. */
  lemma FreshAliases11()
    ensures forall i, j, k | 0 <= i < j && j == 11 && 0 <= k < |TeamAliases[j].1| :: TeamAliases[j].1[k] !in TeamAliases[i].1
  {
  }

  /** No alias of entry 12 occurs in an earlier entry. */
  lemma FreshAliases12()
    ensures forall i, j, k | 0 <= i < j && j == 12 && 0 <= k < |TeamAliases[j].1| :: TeamAliases[j].1[k] !in TeamAliases[i].1
  {
  }

  /** No alias of entry 13 occurs in an earlier entry. */
  lemma FreshAliases13()
    ensures forall i, j, k | 0 <= i < j && j == 13 && 0 <= k < |TeamAliases[j].1| :: TeamAliases[j].1[k] !in TeamAliases[i].1
  {
  }

  /** No alias of entry 14 occurs in an earlier entry. */
  lemma FreshAliases14()
    ensures forall i, j, k | 0 <= i < j && j == 14 && 0 <= k < |TeamAliases[j].1| :: TeamAliases[j].1[k] !in TeamAliases[i].1
  {
  }

  /** No alias of entry 15 occurs in an earlier entry. */
  lemma FreshAliases15()
    ensures forall i, j, k | 0 <= i < j && j == 15 && 0 <= k < |TeamAliases[j].1| :: TeamAliases[j].1[k] !in TeamAliases[i].1
  {
  }

  /** No alias of entry 16 occurs in an earlier entry. */
  lemma FreshAliases16()
    ensures forall i, j, k | 0 <= i < j && j == 16 && 0 <= k < |TeamAliases[j].1| :: TeamAliases[j].1[k] !in TeamAliases[i].1
  {
  }

  /** No alias of entry 17 occurs in an earlier entry. */
  lemma FreshAliases17()
    ensures forall i, j, k | 0 <= i < j && j == 17 && 0 <= k < |TeamAliases[j].1| :: TeamAliases[j].1[k] !in TeamAliases[i].1
  {
  }

  /** No alias of entry 18 occurs in an earlier entry. */
  lemma FreshAliases18()
    ensures forall i, j, k | 0 <= i < j && j == 18 && 0 <= k < |TeamAliases[j].1| :: TeamAliases[j].1[k] !in TeamAliases[i].1
  {
  }

  /** No alias of entry 19 occurs in an earlier entry. */
  lemma FreshAliases19()
    ensures forall i, j, k | 0 <= i < j && j == 19 && 0 <= k < |TeamAliases[j].1| :: TeamAliases[j].1[k] !in TeamAliases[i].1
  {
  }

  /** No alias of entry 20 occurs in an earlier entry. */
  lemma FreshAliases20()
    ensures forall i, j, k | 0 <= i < j && j == 20 && 0 <= k < |TeamAliases[j].1| :: TeamAliases[j].1[k] !in TeamAliases[i].1
  {
  }

  /** No alias of entry 21 occurs in an earlier entry. */
  lemma FreshAliases21()
    ensures forall i, j, k | 0 <= i < j && j == 21 && 0 <= k < |TeamAliases[j].1| :: TeamAliases[j].1[k] !in TeamAliases[i].1
  {
  }

  /** No alias of entry 22 occurs in an earlier entry. */
  lemma FreshAliases22()
    ensures forall i, j, k | 0 <= i < j && j == 22 && 0 <= k < |TeamAliases[j].1| :: TeamAliases[j].1[k] !in TeamAliases[i].1
  {
  }

  /** No alias of entry 23 occurs in an earlier entry. */
  lemma FreshAliases23()
    ensures forall i, j, k | 0 <= i < j && j == 23 && 0 <= k < |TeamAliases[j].1| :: TeamAliases[j].1[k] !in TeamAliases[i].1
  {
  }

  /**
   * The alias lists are pairwise disjoint: a name belongs to at most one
   * entry, so the first entry that lists it is the only one.
   */
  lemma AliasListsDisjoint()
    ensures forall i, j | 0 <= i < |TeamAliases| && 0 <= j < |TeamAliases| && i != j :: Disjoint(TeamAliases[i].1, TeamAliases[j].1)
  {
    FreshAliases1To4();
    FreshAliases5To6();
    FreshAliases7();
    FreshAliases8();
    FreshAliases9();
    FreshAliases10();
    FreshAliases11();
    FreshAliases12();
    FreshAliases13();
    FreshAliases14();
    FreshAliases15();
    FreshAliases16();
    FreshAliases17();
    FreshAliases18();
    FreshAliases19();
    FreshAliases20();
    FreshAliases21();
    FreshAliases22();
    FreshAliases23();
    forall i, j | 0 <= i < |TeamAliases| && 0 <= j < |TeamAliases| && i != j
      ensures Disjoint(TeamAliases[i].1, TeamAliases[j].1)
    {
      var lo, hi := if i < j then i else j, if i < j then j else i;
      forall k | 0 <= k < |TeamAliases[hi].1|
        ensures TeamAliases[hi].1[k] !in TeamAliases[lo].1
      {
      }
    }
  }

  /** The configured table has the three properties the lookups rely on. */
  lemma TeamAliasesValid()
    ensures ValidAliasTable(TeamAliases)
  {
    CanonicalLeadsAliases();
    AliasesTrimmed();
    AliasListsDisjoint();
  }

  /** The table has 24 entries, the first of which is Morocco's. */
  lemma TeamAliasesShape()
    ensures |TeamAliases| == 24
    ensures TeamAliases[0] == ("Maroc", ["Maroc", "Morocco", "MAR", "Lions de l'Atlas", "Al Maghrib"])
  {
  }
}
