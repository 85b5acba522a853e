/**
 * The loosely typed tournament records, one datatype per entity kind, and the
 * document the pipeline produces. A field is `None` when the record lacks its
 * key; each field's comment gives the record key it stands for. Fields that
 * the pipeline applies string operations to are strings; the others hold any
 * JSON scalar.
 */
module Records {
  import opened Optional
  import opened Json

  /** One goal of a match. */
  datatype Goal = Goal(
    minute: Option<Value>,       // "minute"
    scorer: Option<Value>,       // "joueur"
    assist: Option<Value>,       // "passe_decisive"
    kind: Option<Value>          // "type": "normal" or another goal type
  )

  /** One card shown in a match. */
  datatype Card = Card(
    minute: Option<Value>,       // "minute"
    player: Option<Value>,       // "joueur"
    color: Option<Value>         // "type": "rouge" for a red card
  )

  /** A match record. A missing goal or card list is the empty list. */
  datatype Match = Match(
    number: Option<Value>,       // "match_n"
    date: Option<Value>,         // "date" (display form)
    dateIso: Option<Value>,      // "date_iso"
    phase: Option<Value>,        // "phase"
    stage: Option<string>,       // "etape"
    stadium: Option<Value>,      // "stade"
    attendance: Option<Value>,   // "affluence"
    referee: Option<Value>,      // "arbitre"
    home: Option<string>,        // "equipe_domicile"
    away: Option<string>,        // "equipe_exterieur"
    score: Option<Value>,        // "score"
    homeGoals: seq<Goal>,        // "buteurs_domicile"
    awayGoals: seq<Goal>,        // "buteurs_exterieur"
    homeCards: seq<Card>,        // "cartons_domicile"
    awayCards: seq<Card>         // "cartons_exterieur"
  )

  /** A qualified-team record. */
  datatype Team = Team(
    name: Option<string>,                 // "Equipe"
    participation: Option<Value>,         // "Participation"
    firstParticipation: Option<Value>,    // "Premiere_participation"
    lastParticipation: Option<Value>,     // "Derniere_participation"
    qualificationMethod: Option<Value>,   // "Methode_qualification"
    qualificationDate: Option<Value>,     // "Date_qualification"
    bestResult: Option<Value>,            // "Meilleur_resultat"
    previousAppearances: Option<string>   // "Apparitions_precedentes"
  )

  /** The record `{}` that a failed team lookup stands in with. */
  const NoTeam := Team(None, None, None, None, None, None, None, None)

  /**
   * A coach record. `otherFields` says whether the record holds keys beyond
   * the modelled ones; it matters only for whether the record is empty.
   */
  datatype Coach = Coach(
    country: Option<string>,    // "pays"
    name: Option<Value>,        // "selectionneur"
    category: Option<Value>,    // "categorie"
    details: Option<string>,    // "details"
    otherFields: bool
  )

  const NoCoach := Coach(None, None, None, None, false)

  /** Python truthiness of the coach dictionary: it has at least one key. */
  predicate CoachPresent(c: Coach)
  {
    c.country.Some? || c.name.Some? || c.category.Some? || c.details.Some? || c.otherFields
  }

  /** A squad member. */
  datatype Player = Player(
    name: Option<Value>,   // "name"
    club: Option<Value>    // "club"
  )

  /** The four position groups of a squad; a missing group is the empty list. */
  datatype Lineup = Lineup(
    goalkeepers: seq<Player>,   // "goalkeepers"
    defenders: seq<Player>,     // "defenders"
    midfielders: seq<Player>,   // "midfielders"
    forwards: seq<Player>       // "forwards"
  )

  const NoLineup := Lineup([], [], [], [])

  /** A squad record; `otherFields` as for coaches. */
  datatype Squad = Squad(
    team: Option<string>,     // "team"
    lineup: Option<Lineup>,   // "squad"
    otherFields: bool
  )

  const NoSquad := Squad(None, None, false)

  /** Python truthiness of the squad dictionary. */
  predicate SquadPresent(s: Squad)
  {
    s.team.Some? || s.lineup.Some? || s.otherFields
  }

  /** The position groups of a squad, `squad_data.get('squad', {})`. */
  function LineupOf(s: Squad): Lineup
  {
    s.lineup.GetOr(NoLineup)
  }

  /** One row of a group table. */
  datatype StandingRow = StandingRow(
    rank: Option<Value>,          // "Rang"
    team: Option<string>,         // "Equipe"
    points: Option<Value>,        // "Pts"
    played: Option<Value>,        // "Matchs_joues"
    won: Option<Value>,           // "Gagnes"
    drawn: Option<Value>,         // "Nuls"
    lost: Option<Value>,          // "Perdus"
    goalsFor: Option<Value>,      // "Buts_pour"
    goalsAgainst: Option<Value>,  // "Buts_contre"
    difference: Option<Value>     // "Diff"
  )

  /** A group table; a missing row list is the empty list. */
  datatype Group = Group(
    name: Option<Value>,          // "Nom_Groupe"
    rows: seq<StandingRow>        // "Classement"
  )

  /** A stadium record. */
  datatype Stadium = Stadium(
    name: Option<Value>,      // "Stade"
    city: Option<Value>,      // "Ville"
    capacity: Option<Value>   // "Capacité"
  )

  /**
   * The loaded source lists, one per source key. The best-third-place table
   * is loaded but no document is made from it, so its records stay opaque.
   */
  datatype Sources = Sources(
    matches: seq<Match>,
    teams: seq<Team>,
    coaches: seq<Coach>,
    squads: seq<Squad>,
    stadiums: seq<Stadium>,
    standings: seq<Group>,
    bestThirds: seq<map<string, Value>>
  )

  /** A metadata value: a JSON scalar or a list of team names. */
  datatype MetaVal = Val(v: Value) | List(names: seq<string>)

  /** The metadata keys the pipeline writes; `KeyName` gives the key as it appears in the documents. */
  datatype Key =
    | Type | Source
    | MatchNumber | Phase | GroupKey | TeamHome | TeamAway | Teams | Date | StadiumKey | Score | Event
    | TeamName | TeamAliasesKey | Participation | BestResult
    | PlayerName | TeamKey | Position | Club
    | StadiumName | City | Capacity

  function KeyName(k: Key): string
  {
    match k
    case Type => "type"
    case Source => "source"
    case MatchNumber => "match_number"
    case Phase => "phase"
    case GroupKey => "group"
    case TeamHome => "team_home"
    case TeamAway => "team_away"
    case Teams => "teams"
    case Date => "date"
    case StadiumKey => "stadium"
    case Score => "score"
    case Event => "event"
    case TeamName => "team_name"
    case TeamAliasesKey => "team_aliases"
    case Participation => "participation"
    case BestResult => "best_result"
    case PlayerName => "player_name"
    case TeamKey => "team"
    case Position => "position"
    case Club => "club"
    case StadiumName => "stadium_name"
    case City => "city"
    case Capacity => "capacity"
  }

  type Metadata = map<Key, MetaVal>

  /** The unit of retrieval: rendered text with metadata tags. */
  datatype Document = Document(content: string, metadata: Metadata)

  /** A metadata tag holding the given string. */
  function Tag(s: string): MetaVal
  {
    Val(Str(s))
  }

  /** `md.get(k) == n` for a string `n`: the key is present and holds exactly that string. */
  predicate TagIs(md: Metadata, k: Key, n: string)
  {
    k in md && md[k] == Tag(n)
  }

  /** `metadata.get('type') == t`. */
  predicate TypeIs(md: Metadata, t: string)
  {
    TagIs(md, Type, t)
  }

  /** Two metadata maps are equal except possibly at key `type`. */
  predicate SameExceptType(a: Metadata, b: Metadata)
  {
    (forall k | k in a && k != Type :: k in b && b[k] == a[k])
    && (forall k | k in b && k != Type :: k in a)
  }

  /** Re-tagging a metadata map changes its type and nothing else. */
  lemma RetypeKeepsFields(a: Metadata, t: string)
    requires Type in a
    ensures SameExceptType(a, a[Type := Tag(t)])
    ensures a[Type := Tag(t)][Type] == Tag(t)
  {
  }

  /** The metadata maps of a list of documents, in order. */
  function Metas(docs: seq<Document>): (r: seq<Metadata>)
    ensures |r| == |docs| && forall k | 0 <= k < |docs| :: r[k] == docs[k].metadata
  {
    seq(|docs|, k requires 0 <= k < |docs| => docs[k].metadata)
  }

  lemma MetasOfTwo(a: Document, b: Document)
    ensures Metas([a, b]) == [a.metadata, b.metadata]
  {
  }

  lemma MetasOfThree(a: Document, b: Document, c: Document)
    ensures Metas([a, b, c]) == [a.metadata, b.metadata, c.metadata]
  {
  }
}
