/**
 * Team-name canonicalisation: resolving a surface form to its canonical
 * name, and listing the known variants of a name, by a first-match scan of
 * an alias table (the pipeline uses `Config.TeamAliases`).
 */
module Names {
  import opened Optional
  import opened Text
  import opened Config

  /**
   * The first entry of `table`, at index `from` or later, whose alias list
   * contains `name` (exact, case- and accent-sensitive comparison).
   */
  function FirstEntryFrom(table: AliasTable, name: string, from: nat): (r: Option<nat>)
    requires from <= |table|
    ensures r.Some? ==> from <= r.value < |table| && name in table[r.value].1
    ensures r.Some? ==> forall j | from <= j < r.value :: name !in table[j].1
    ensures r.None? <==> forall j | from <= j < |table| :: name !in table[j].1
    decreases |table| - from
  {
    if from == |table| then None
    else if name in table[from].1 then Some(from)
    else FirstEntryFrom(table, name, from + 1)
  }

  /** The scan stops at `i` when `i` lists the name and no earlier entry does. */
  lemma FirstEntryIs(table: AliasTable, name: string, i: nat)
    requires i < |table| && name in table[i].1
    requires forall j | 0 <= j < i :: name !in table[j].1
    ensures FirstEntryFrom(table, name, 0) == Some(i)
  {
  }

  /** The first entry of the whole table whose alias list contains `name`. */
  function FirstEntry(table: AliasTable, name: string): Option<nat>
  {
    FirstEntryFrom(table, name, 0)
  }

  /**
   * The canonical name of `raw`: the key of the first entry listing the
   * stripped input, or the stripped input itself when no entry does.
   */
  function NormalizedName(table: AliasTable, raw: string): string
  {
    var clean := Strip(raw);
    match FirstEntry(table, clean)
    case Some(i) => table[i].0
    case None => clean
  }

  /**
   * The known variants of `raw`: the alias list of the first entry listing
   * `raw` as it is (not stripped), or the singleton `[raw]`.
   */
  function AliasesOf(table: AliasTable, raw: string): seq<string>
  {
    match FirstEntry(table, raw)
    case Some(i) => table[i].1
    case None => [raw]
  }

  /** `normalize_team_name`: strip, then scan the table, returning at the first entry that lists the name. */
  method NormalizeTeamName(table: AliasTable, teamName: string) returns (canonical: string)
    ensures canonical == NormalizedName(table, teamName)
    ensures (exists i | 0 <= i < |table| :: Strip(teamName) in table[i].1 && canonical == table[i].0)
            || canonical == Strip(teamName)
  {
    var clean := Strip(teamName);
    var i := 0;
    while i < |table|
      invariant 0 <= i <= |table|
      invariant forall j | 0 <= j < i :: clean !in table[j].1
    {
      var (key, aliases) := table[i];
      if clean in aliases {
        FirstEntryIs(table, clean, i);
        return key;
      }
      i := i + 1;
    }
    return clean;
  }

  /** `get_team_aliases`: scan the table with the name as given; the singleton list when no entry lists it. */
  method GetTeamAliases(table: AliasTable, teamName: string) returns (aliases: seq<string>)
    ensures aliases == AliasesOf(table, teamName)
    ensures teamName in aliases
  {
    var i := 0;
    while i < |table|
      invariant 0 <= i <= |table|
      invariant forall j | 0 <= j < i :: teamName !in table[j].1
    {
      if teamName in table[i].1 {
        FirstEntryIs(table, teamName, i);
        return table[i].1;
      }
      i := i + 1;
    }
    return [teamName];
  }

  /** In a valid table, the entry that lists a name is the only entry that lists it. */
  lemma FirstEntryOfAlias(table: AliasTable, i: nat, k: nat)
    requires ValidAliasTable(table)
    requires i < |table| && k < |table[i].1|
    ensures FirstEntry(table, table[i].1[k]) == Some(i)
  {
    var a := table[i].1[k];
    forall j | 0 <= j < |table| && j != i
      ensures a !in table[j].1
    {
      assert Disjoint(table[i].1, table[j].1);
    }
  }

  /** In a valid table, every alias of an entry normalises to that entry's canonical name. */
  lemma AliasNormalizesToCanonical(table: AliasTable, i: nat, k: nat)
    requires ValidAliasTable(table)
    requires i < |table| && k < |table[i].1|
    ensures NormalizedName(table, table[i].1[k]) == table[i].0
  {
    StripOfTrimmed(table[i].1[k]);
    FirstEntryOfAlias(table, i, k);
  }

  /** A canonical name is its own normal form. */
  lemma CanonicalIsFixedPoint(table: AliasTable, i: nat)
    requires ValidAliasTable(table)
    requires i < |table|
    ensures NormalizedName(table, table[i].0) == table[i].0
  {
    AliasNormalizesToCanonical(table, i, 0);
  }

  /** Over a valid table, normalisation is idempotent for every input string. */
  lemma NormalizeIdempotent(table: AliasTable, raw: string)
    requires ValidAliasTable(table)
    ensures NormalizedName(table, NormalizedName(table, raw)) == NormalizedName(table, raw)
  {
    var clean := Strip(raw);
    match FirstEntry(table, clean)
    case Some(i) => CanonicalIsFixedPoint(table, i);
    case None => StripIdempotent(raw);
  }

  /** Surrounding whitespace never changes the normal form. */
  lemma NormalizeIgnoresPadding(table: AliasTable, raw: string)
    ensures NormalizedName(table, Strip(raw)) == NormalizedName(table, raw)
  {
    StripIdempotent(raw);
  }

  /** The variant list of any name is non-empty and contains the name itself. */
  lemma AliasesOfContainsName(table: AliasTable, raw: string)
    ensures |AliasesOf(table, raw)| > 0 && raw in AliasesOf(table, raw)
  {
  }

  /** For a name without surrounding whitespace, the variant list starts with its normal form. */
  lemma AliasesOfLeadsWithNormalized(table: AliasTable, raw: string)
    requires ValidAliasTable(table)
    requires Trimmed(raw)
    ensures AliasesOf(table, raw)[0] == NormalizedName(table, raw)
  {
    StripOfTrimmed(raw);
  }

  /** Two variants listed in the same entry have the same normal form. */
  lemma SameEntrySameName(table: AliasTable, i: nat, k1: nat, k2: nat)
    requires ValidAliasTable(table)
    requires i < |table| && k1 < |table[i].1| && k2 < |table[i].1|
    ensures NormalizedName(table, table[i].1[k1]) == NormalizedName(table, table[i].1[k2])
  {
    AliasNormalizesToCanonical(table, i, k1);
    AliasNormalizesToCanonical(table, i, k2);
  }
}
