# CAN 2025 document synthesis, in Dafny

This project models the part of the CAN 2025 retrieval assistant that turns tournament records into documents. A document is a rendered text plus a metadata map. The records are matches, qualified teams, coaches, squads, group tables and stadiums; the pipeline takes them from the JSON sources and hands the documents to the retrieval index. The model covers five parts.

- **Team-name canonicalisation** (`Names`, `Text`, `Config`). `normalize_team_name` strips the name, then scans the ordered alias table and stops at the first entry that lists the name. `get_team_aliases` runs the same scan on the name as given. Both take the table as a parameter. `Config.TeamAliases` is the configured table, with its 24 entries in file order. Lemmas prove that it is well formed: every entry lists its canonical name first, no alias has surrounding whitespace, and the alias lists are pairwise disjoint.
- **Formatters**, one per kind of document:
  - `MatchFormat`: detailed match, match summary, knockout announcement;
  - `TeamFormat`: complete team sheet, team summary;
  - `ProfileFormat`: player card, stadium card;
  - `StandingsFormat`: group table.

  The formatters that build their text with `+=` inside loops are methods, each proved equal to a function that specifies its text. The properties the code promises are lemmas about those functions, such as the "no goals" line appearing exactly when no side scored, or the 200- and 300-character cuts.
- **Processors** (`Processors`). Each `process_*` function is a method with the source's loop. It is proved equal to a function that builds that function's part of the corpus. Lemmas state, per record:
  - how many documents it yields and when it is skipped;
  - the metadata tags each document carries;
  - that a summary's metadata equal the detailed document's except for the type;
  - that every team tag is in its canonical form.
- **The corpus and the two retrieval filters** (`Pipeline`):
  - `load_all_can2025_data` concatenates the five processors' outputs in a fixed order;
  - `get_documents_by_type` and `get_documents_by_team` are order-preserving selections (`Filtering`);
  - lemmas show that selecting one type from the corpus gives back exactly one processor's output;
  - lemmas show that every document of a team, a match, a squad or a group is found by searching for a team it concerns.
- **Values** (`Json`, `Records`, `Optional`). A record field value is `Null | Bool | Int | Str`: null, a boolean, an integer or a string. `Render` gives how an f-string interpolates it. A record field absent from the JSON is `None`. `.get(k, d)` becomes `GetOr`, `ValueOr` or `Render`.

The metadata keys are the enumeration `Records.Key`, not strings. `KeyName` gives the string each key stands for. Some record fields get string operations in the code (`strip`, `lower`, `len`, slicing); those fields are typed as strings.

## Model

| member | source | states |
|---|---|---|
| Names.NormalizeTeamName | app2/load_docs.py:31-37 | The scan returns the canonical key of the first entry whose aliases list the stripped name, or the stripped name when no entry does. It equals `NormalizedName`. |
| Names.GetTeamAliases | app2/load_docs.py:24-29 | The scan on the unstripped name returns the first matching entry's alias list, or `[name]`. It equals `AliasesOf`, and the result always contains the name. |
| Names.FirstEntryFrom | app2/load_docs.py:34-36 | The first-match scan: a found entry lists the name and no earlier entry does. Nothing is found exactly when no entry from the start index lists it. |
| Names.FirstEntryIs | app2/load_docs.py:34-36 | An entry that lists the name, with no earlier entry listing it, is the one the scan stops at. |
| Names.FirstEntryOfAlias | app2/config.py:18-43 | In a well-formed table, the scan for any alias of an entry stops at that entry. |
| Names.AliasNormalizesToCanonical | app2/load_docs.py:31-37 | In a well-formed table, every alias of an entry normalises to the entry's canonical key. |
| Names.CanonicalIsFixedPoint | app2/load_docs.py:31-37 | A canonical key normalises to itself. |
| Names.NormalizeIdempotent | app2/load_docs.py:31-37 | Over a well-formed table, normalising twice is normalising once, for every string. |
| Names.NormalizeIgnoresPadding | app2/load_docs.py:33 | Surrounding whitespace never changes the normal form. |
| Names.AliasesOfContainsName | app2/load_docs.py:24-29 | The alias list of any name is non-empty and contains the name. |
| Names.AliasesOfLeadsWithNormalized | app2/load_docs.py:24-37 | For a name without surrounding whitespace, the alias list starts with the name's normal form. |
| Names.SameEntrySameName | app2/load_docs.py:31-37 | Two aliases of one entry have the same normal form. |
| Text.Strip | app2/load_docs.py:33 | `strip()`: characterised by `StripIsTrimmed` (no whitespace left at either end) and `StripDropsOnlySpace` (only whitespace removed, from the two ends). |
| Text.StripDropsOnlySpace | app2/load_docs.py:33 | The stripped text is the piece `s[i..j]` of the input, and everything before `i` and from `j` on is whitespace. |
| Text.TrimStartDropsSpace | app2/load_docs.py:33 | The characters the left strip removes are all whitespace. |
| Text.TrimEndDropsSpace | app2/load_docs.py:33 | The characters the right strip removes are all whitespace. |
| Text.StripKeepsHead | app2/load_docs.py:329-336 | Stripping a text made of whitespace, then a piece without whitespace at its ends, then anything, leaves a text that opens with that piece. |
| Text.StripIsTrimmed | app2/load_docs.py:33 | `strip` leaves no whitespace (Python's `isspace` set) at either end. |
| Text.StripOfTrimmed | app2/load_docs.py:33 | `strip` leaves a string that has no surrounding whitespace unchanged. |
| Text.StripIdempotent | app2/load_docs.py:33 | Stripping twice is stripping once. |
| Text.TrimStartSuffix | app2/load_docs.py:33 | What the left strip keeps is a suffix of its input. |
| Text.TrimEndPrefix | app2/load_docs.py:33 | What the right strip keeps is a prefix of its input. |
| Text.Join | app2/load_docs.py:117 | `sep.join(parts)`: the parts in order, with the separator between consecutive ones. It is definitional; `MatchFormat.ScorerEntries` and `ScorersPart` state what the summary's scorers clause holds. |
| Json.Show | app2/load_docs.py:59-60 | `str()` of a field value: `None`, `True`/`False`, the decimal integer with its sign, or the string itself. It is definitional; `Json.NatToStringRoundTrip` states that the decimal rendering reads back. |
| Json.Truthy | app2/load_docs.py:69 | Python truthiness: `None`, `False`, `0` and `""` are false. It is definitional; `MatchFormat.AssistSuffix` states its use. |
| Text.Truncate | app2/load_docs.py:156-158 | A text longer than the budget becomes its first `n` characters plus `"..."` (length `n + 3`). A text within the budget is unchanged. |
| Text.TruncateBounded | app2/load_docs.py:169-170 | The cut text never exceeds the budget plus the marker, and it keeps the start of the field. |
| Text.Take | app2/load_docs.py:146 | `aliases[:3]` has at most three elements and is a prefix of the list. It is the whole list when that is short enough. |
| Text.ReplaceSpaces | app2/load_docs.py:343 | Every space becomes `_`, every other character stays in place, and no space remains. |
| Text.PadRight | app2/load_docs.py:252 | A left-aligned field is `max(len, w)` wide. It starts with the value and continues with spaces. |
| Text.Lower | app2/load_docs.py:328 | `lower()` maps each character and keeps the length (ASCII letters only). |
| Text.Upper | app2/load_docs.py:140 | `upper()` maps each character and keeps the length (ASCII letters only). |
| Config.CanonicalLeadsAliases | app2/config.py:18-43 | Every alias list of the table starts with its own canonical key. |
| Config.AliasesTrimmed | app2/config.py:18-43 | No canonical key or alias has leading or trailing whitespace. |
| Config.AliasListsDisjoint | app2/config.py:18-43 | No name is listed by two different entries. |
| Config.TeamAliasesValid | app2/config.py:18-43 | The configured table has the three properties the lookups rely on. |
| Config.TeamAliasesShape | app2/config.py:18-19 | The table has 24 entries, the first of which is Morocco's. |
| Pipeline.FilesCoverSources | app2/config.py:7-15 | The file map has exactly the seven source keys the loader reads. |
| Json.NatToStringRoundTrip | app2/load_docs.py:185 | The decimal rendering of a count reads back as that count. |
| MatchFormat.FormatMatchDetailed | app2/load_docs.py:43-97 | The method's text equals `DetailedText`: the header block, the goal section, the card section and the closing rule. |
| MatchFormat.AppendGoalLines | app2/load_docs.py:68-76 | The goal loop appends exactly the goal lines of the list, in order. |
| MatchFormat.AppendCardLines | app2/load_docs.py:86-92 | The card loop appends exactly the card lines of the list, in order. |
| MatchFormat.AssistSuffix | app2/load_docs.py:69 | The assist suffix is present exactly when `passe_decisive` is truthy. |
| MatchFormat.TypeSuffix | app2/load_docs.py:70 | The goal-type suffix is absent exactly when the type is `"normal"`. |
| MatchFormat.NoGoalsLineIff | app2/load_docs.py:67-78 | The goal section is the "Aucun but marqué (0-0)" line exactly when both scorer lists are empty. |
| MatchFormat.NoCardsLineIff | app2/load_docs.py:85-94 | The card section is the "Aucun carton distribué" line exactly when both card lists are empty. |
| MatchFormat.GoalLinesInOrder | app2/load_docs.py:67-76 | One goal line per goal: the home goals first, tagged with the home side, then the away goals. |
| MatchFormat.CardLinesInOrder | app2/load_docs.py:85-92 | One card line per card: the home cards first, then the away cards, each tagged with its side. |
| MatchFormat.GoalLineMarker | app2/load_docs.py:71 | Every goal line carries the ball marker after its indent. |
| MatchFormat.CardLineMarker | app2/load_docs.py:87-88 | Every card line carries its card's colour marker (red for `rouge`) after its indent. |
| MatchFormat.DetailedShowsResult | app2/load_docs.py:59-60 | The detailed text contains the result line "home score away". |
| MatchFormat.GoallessDetailedText | app2/load_docs.py:43-97 | Without goals and cards, the detailed text is the header, the two "none" lines and the closing rule. |
| MatchFormat.ScorerEntries | app2/load_docs.py:110-114 | One "scorer minute'" entry per goal, in list order. |
| MatchFormat.ScorersPart | app2/load_docs.py:116-117 | The scorers clause is present exactly when at least one goal was scored. |
| MatchFormat.FormatMatchSummary | app2/load_docs.py:99-119 | The method's text equals `SummaryText`. |
| MatchFormat.SummaryShowsResult | app2/load_docs.py:106-108 | The summary contains the result line. |
| MatchFormat.EventTag | app2/load_docs.py:343 | The event tag is as long as the stage and has no space. |
| MatchFormat.EventText | app2/load_docs.py:329-336 | The stripped knockout announcement. `EventTextHeading` characterises it. |
| MatchFormat.EventTextHeading | app2/load_docs.py:329-336 | The announcement has no whitespace at either end, and it opens with the title: the trophy, the upper-cased stage and " - CAN 2025". |
| MatchFormat.KnockoutTags | app2/load_docs.py:328-343 | A knockout match's event tag is `finale`, `demi-finale` or `quart_de_finale`. |
| Lookup.FirstWhere | app2/load_docs.py:129-136 | `next(..., {})` returns the first record that passes the test, or the fallback when none does. |
| Lookup.FirstMatchUnique | app2/load_docs.py:129-136 | The lookup returns the record at the first position that passes the test. |
| Lookup.FirstWhereExtensional | app2/load_docs.py:129-136 | Two tests that agree on every record find the same record. |
| TeamFormat.FindTeam | app2/load_docs.py:129-130 | The team record found is the first whose name normalises like the query, or the empty record when none does. |
| TeamFormat.FindCoach | app2/load_docs.py:132-133 | The same for the coach records, matched on `pays`. |
| TeamFormat.FindSquad | app2/load_docs.py:135-136 | The same for the squad records, matched on `team`. |
| TeamFormat.LookupsFollowNormalization | app2/load_docs.py:129-136 | Two names with the same normal form find the same team, coach and squad records. |
| TeamFormat.DetailsLine | app2/load_docs.py:166-171 | The details line is absent exactly when the details are empty, and it is bounded by the 300-character cut. |
| TeamFormat.RosterLines | app2/load_docs.py:189-190 | One line per player, with the `k`-th player numbered `k + 1`. |
| TeamFormat.AppendRoster | app2/load_docs.py:189-205 | The `enumerate` loop appends exactly the numbered roster lines. |
| TeamFormat.AppendPosition | app2/load_docs.py:187-205 | One position block is appended: its heading with the count, then the roster. |
| TeamFormat.AppendSquad | app2/load_docs.py:175-207 | The squad section is appended: the total, then the four position blocks in fixed order. |
| TeamFormat.FormatTeamComplete | app2/load_docs.py:125-210 | The method's text equals `TeamCompleteText`. The coach and squad sections appear only when a record was found. |
| TeamFormat.RosterNumberedFromOne | app2/load_docs.py:189-205 | Roster line `k` opens with the decimal number `k + 1`. |
| TeamFormat.SquadTotalCountsEveryPlayer | app2/load_docs.py:179-185 | The announced squad total is the sum of the four position-list lengths. |
| TeamFormat.AtMostThreeNames | app2/load_docs.py:145-146 | For every name, one to three names are listed. |
| TeamFormat.CanonicalNameListedFirst | app2/load_docs.py:145-146 | For a name without surrounding whitespace, over a well-formed table, the first name listed is the canonical name. |
| TeamFormat.TeamSummaryText | app2/load_docs.py:212-226 | The one-line team summary over the records the lookups find. `TeamSummaryShape` characterises it. |
| TeamFormat.SummaryTextOf | app2/load_docs.py:219-226 | The summary built from a team record and a coach record. The coach sentence appears only for a present coach (see `TeamSummaryShape`). |
| TeamFormat.TeamSummaryShape | app2/load_docs.py:212-226 | The summary opens with the name as given. It ends with a full stop (the coach sentence) exactly when a coach record was found. |
| ProfileFormat.PlayerCard | app2/load_docs.py:232-240 | The player card. `PlayerCardFields` characterises it. |
| ProfileFormat.PlayerCardFields | app2/load_docs.py:232-240 | The player card shows the name, team, position and club fields. |
| ProfileFormat.StadiumInfo | app2/load_docs.py:274-281 | The stadium card. `StadiumInfoFields` characterises it. |
| ProfileFormat.StadiumInfoFields | app2/load_docs.py:274-281 | The stadium card shows the name, city and capacity fields. |
| StandingsFormat.Cell | app2/load_docs.py:256-264 | A padded cell starts with the value's text and is at least the field width. |
| StandingsFormat.FormatGroupStandings | app2/load_docs.py:246-268 | The method's text equals `StandingsText`: the frame, one line per row in order, then the closing rule. |
| StandingsFormat.HeaderColumns | app2/load_docs.py:252 | The heading row puts "Équipe" at column 6, "Pts" at 26 and "Diff" at 58. |
| StandingsFormat.RowColumns | app2/load_docs.py:255-265 | When the values fit their widths, a row's team sits at column 6, its points at 26 and its difference at 58, under the headings. |
| Records.RetypeKeepsFields | app2/load_docs.py:321-322 | Copying the metadata and resetting `type` changes that key and nothing else. |
| Processors.ProcessMatch | app2/load_docs.py:298-351 | The loop body for a match with a home side produces `MatchDocs`: detailed, summary and, for a knockout stage, the announcement. |
| Processors.ProcessMatches | app2/load_docs.py:287-353 | The loop with its `continue` produces `MatchDocuments`, the documents of every match in input order. |
| Processors.MatchDocsMetas | app2/load_docs.py:299-350 | The documents of a match carry exactly the metadata listed by `MatchMetas`. |
| Processors.MatchMetasFacts | app2/load_docs.py:291-351 | No documents without a home side. Otherwise 2, or 3 at a knockout stage. The types are detailed, summary, event. Summary equals detailed except for the type. `teams` is `[normalize(home), normalize(away)]` on all of them. The event tag is the stage tag. |
| Processors.MatchMetadataTeams | app2/load_docs.py:306-309 | The detailed metadata list the two normalised sides in order. |
| Processors.KnockoutHasStage | app2/load_docs.py:328 | A knockout match has an `etape` field. |
| Processors.MatchMetasKinds | app2/load_docs.py:300 | Every match document is detailed, summary or event. |
| Processors.MatchDocsKinds | app2/load_docs.py:300 | The same for the documents themselves. |
| Processors.MatchDocumentsAppend | app2/load_docs.py:291-353 | Processing two lists one after the other is processing their concatenation. |
| Processors.SkippedMatchDocuments | app2/load_docs.py:292-293 | A match without a home side yields nothing. |
| Processors.SkippedMatchAddsNothing | app2/load_docs.py:292-293 | Removing a match without a home side from the input changes no document. |
| Processors.ProcessTeams | app2/load_docs.py:356-385 | The loop produces `TeamDocuments`: two documents per named team record, in input order. |
| Processors.TeamDocsMetas | app2/load_docs.py:369-383 | The documents of a team record carry exactly the metadata listed by `TeamMetas`. |
| Processors.TeamMetasFacts | app2/load_docs.py:360-383 | No documents without a name. Otherwise two, typed complete and summary, equal except for the type. They carry the canonical name, and an alias list that contains the name as given. |
| Processors.TeamMetasKinds | app2/load_docs.py:370 | Every team document is complete or summary. |
| Processors.TeamDocsKinds | app2/load_docs.py:370 | The same for the documents themselves. |
| Processors.ProcessPlayers | app2/load_docs.py:387-422 | The loop produces `PlayerDocuments`: one document per player of every squad with a team. |
| Processors.AppendPlayers | app2/load_docs.py:408-420 | The inner loop appends one player document per player of a position list, in order. |
| Processors.PositionDocs | app2/load_docs.py:408-420 | One player document per player, in list order. |
| Processors.PositionDocsTagged | app2/load_docs.py:411-418 | Each player document is typed `player` and tagged with the canonical team and the position label. |
| Processors.SquadDocsFacts | app2/load_docs.py:391-420 | A squad without a team yields nothing. Otherwise it yields as many documents as the four lists hold together, goalkeepers first. Each carries the canonical team and its position label. |
| Processors.GroupTeams | app2/load_docs.py:431-436 | The `teams` tag of a group lists the normal form of every row's team, in row order. |
| Processors.NormalizeGroupTeams | app2/load_docs.py:431-436 | The comprehension's loop produces `GroupTeams`. |
| Processors.StandingDocuments | app2/load_docs.py:428-440 | One standings document per group, in input order. |
| Processors.ProcessStandings | app2/load_docs.py:424-442 | The loop produces `StandingDocuments`. |
| Processors.StandingDocTeams | app2/load_docs.py:436 | A group document names every team of its table in canonical form, so each team tag is a fixed point of normalisation. |
| Processors.StadiumDocuments | app2/load_docs.py:448-459 | One stadium document per stadium record, in input order. |
| Processors.ProcessStadiums | app2/load_docs.py:444-461 | The loop produces `StadiumDocuments`. |
| Filtering.Filter | app2/load_docs.py:540 | The selection keeps only elements that pass the test, and is no longer than its input. |
| Filtering.FilterIsSubsequence | app2/load_docs.py:540 | The selection is an order-preserving subsequence of the input. |
| Filtering.FilterMultiset | app2/load_docs.py:540 | An element that passes is kept as often as it occurs; one that fails is dropped. |
| Filtering.FilterAppend | app2/load_docs.py:540 | Selecting from a concatenation is concatenating the selections. |
| Pipeline.LoadAllCan2025Data | app2/load_docs.py:467-519 | The loader's result is `Corpus`: matches, teams, players, standings, then stadiums, over the loaded sources. A source that failed to load counts as empty. |
| Pipeline.CorpusIgnoresBestThirds | app2/load_docs.py:482 | The best-thirds table is loaded but changes no document. |
| Pipeline.TeamDocumentsIgnoreBestThirds | app2/load_docs.py:356-385 | The team documents read only the team, coach and squad lists. |
| Pipeline.DocumentsByType | app2/load_docs.py:538-540 | `get_documents_by_type`. `DocumentsByTypeFacts` characterises it. |
| Pipeline.DocumentsByTypeFacts | app2/load_docs.py:538-540 | The selection by type is a subsequence in which every document has that type. It keeps each document of that type as often as it occurs. |
| Pipeline.MatchDocumentsKinds | app2/load_docs.py:287-353 | Every document of the match processor is a detailed, summary or event document. |
| Pipeline.TeamDocumentsKinds | app2/load_docs.py:356-385 | Every document of the team processor is a complete or summary team document. |
| Pipeline.PlayerDocumentsKinds | app2/load_docs.py:387-422 | Every document of the player processor has type `player`. |
| Pipeline.StandingDocumentsKinds | app2/load_docs.py:424-442 | Every document of the standings processor has type `standings`. |
| Pipeline.StadiumDocumentsKinds | app2/load_docs.py:444-461 | Every document of the stadium processor has type `stadium`. |
| Pipeline.CorpusParts | app2/load_docs.py:485-519 | The corpus is the five outputs in order. The player, standings and stadium types each occur in exactly one of them. |
| Pipeline.SelectPart | app2/load_docs.py:538-540 | Selecting a type that only one of five lists has gives that list. |
| Pipeline.SelectMiddle | app2/load_docs.py:538-540 | Selecting a type that only the middle of three lists has gives that list. |
| Pipeline.CorpusPlayers | app2/load_docs.py:538-540 | Selecting `player` from the corpus gives exactly the player processor's output. |
| Pipeline.CorpusStandings | app2/load_docs.py:538-540 | Selecting `standings` from the corpus gives exactly the standings processor's output. |
| Pipeline.CorpusStadiums | app2/load_docs.py:538-540 | Selecting `stadium` from the corpus gives exactly the stadium processor's output. |
| Pipeline.GetDocumentsByTeam | app2/load_docs.py:542-558 | The loop keeps, in order, exactly the documents whose `team_name`, `teams` or `team` mentions the normalised name. It equals `DocumentsByTeam`. |
| Pipeline.DocumentsByTeam | app2/load_docs.py:542-558 | The documents `get_documents_by_team` returns. `GetDocumentsByTeam` computes it and `DocumentsByTeamFacts` characterises it. |
| Pipeline.DocumentsByTeamFacts | app2/load_docs.py:542-558 | The search result is a subsequence in which every document mentions the normalised name. Each such document appears as often as in the input, and no other document appears. |
| Pipeline.VariantsFindSameDocuments | app2/load_docs.py:544 | Over a well-formed table, two aliases of one team find the same documents. |
| Pipeline.MoroccoIsMaroc | app2/load_docs.py:544 | "Morocco" and "Maroc" both normalise to "Maroc" and find the same documents. |
| Pipeline.SearchFinds | app2/load_docs.py:547-556 | A document that mentions the normalised name is found. |
| Pipeline.TeamMetasMention | app2/load_docs.py:371 | Both metadata maps of a named team record carry its canonical name as `team_name`. |
| Pipeline.TeamDocsMention | app2/load_docs.py:549 | Both documents of a named team record pass the `team_name` test for the record's name. |
| Pipeline.TeamDocsFound | app2/load_docs.py:549-550 | Searching for a team record's name finds both of its documents. |
| Pipeline.MatchMetasMention | app2/load_docs.py:306-309 | Every metadata map of a match lists both canonical sides in `teams`. |
| Pipeline.MatchDocsMention | app2/load_docs.py:552 | Every document of a match passes the `teams` test for either side. |
| Pipeline.MatchDocsFound | app2/load_docs.py:552-553 | Searching for either side of a match finds every document of that match. |
| Pipeline.SquadDocsFound | app2/load_docs.py:555-556 | Searching for a squad's team finds every one of its player documents. |
| Pipeline.StandingDocFound | app2/load_docs.py:552-553 | Searching for any team of a group table finds the group's document. |

## Left out

- `load_json_file` reads and parses files and prints warnings. The model takes each source's outcome as input (`Parsed`, `NotFound` or `Malformed`). A source whose file is missing (`FileNotFoundError`) or that does not parse (`JSONDecodeError`) counts as an empty list, as in the code. Other read errors, which propagate in Python, and a top-level JSON object instead of a list are not modelled. The degrade-to-empty behaviour for those two errors is modelled; the reading is not.
- `export_documents_to_txt` writes a diagnostic file. It is I/O only and is not part of this model.
- The progress `print` calls of `load_all_can2025_data` have no effect on the documents and are left out.
- `CHUNK_CONFIG` and `DATA_FOLDER` are read by nothing in the pipeline.
- `app2/rag_chain.py`, `app2/embeddings.py`, `app2/download_faiss.py` and `app2/interface.py` are not part of this model: the web service, the language model, the vector index, cloud storage and the UI.
- Text.Lower and Text.Upper map ASCII letters only. Python's `lower()`/`upper()` also map accented letters. The knockout test compares against lower-case ASCII stage names, so only the upper-cased headings (the team sheet title, the announcement title) could differ.
- Python exceptions on malformed records are preconditions, not modelled error paths:
  - `Processors.Summarizable` requires that every goal of a match with a home side has `joueur` and `minute`, since `but['joueur']` would raise `KeyError`;
  - `StandingsFormat.RowFormattable` requires that no padded column holds `null`, since `format(None, "<6")` raises;
  - `Pipeline.SearchableFor` requires that the `teams` tag, when the team-search test reaches it, is a list or a string, since `in` on another value raises.
- Record fields hold only null, booleans, integers and strings. JSON floats (which Python renders as `1.5` or `1000.0`), arrays and objects (rendered by `repr`) are not modelled.
- The goal and card lists of a match, the four position lists of a squad and the `squad` field are typed as lists and as a position record. A JSON `null` or any other value there would raise in Python (`for but in None`, `None.get`); the model does not represent it.
- Fields the code treats as strings are typed as strings: the stage, team names, coach country and details, previous appearances. A JSON `null` or number there would raise in Python; the model does not represent it.
- The alias table is a parameter of the canonicalisation functions. The pipeline's entry points use `Config.TeamAliases`; the lemmas hold for any well-formed table.
- Metadata keys are the enumeration `Records.Key`, mapped to their strings by `KeyName`, not arbitrary strings. Only the keys the pipeline writes are modelled.
- `process_players` iterates a four-entry position map. The model unrolls that loop into four calls of `AppendPlayers`, in the map's order.
- Processors.ProcessMatch builds the two or three documents of a match and then appends them together. The code appends them one at a time. The resulting list is the same.
- The fixed-width table cells use Python's `format(v, "<w")` for strings and integers, with `True`/`False` shown as `1`/`0`. Other format specifications are not modelled.
- The best-thirds ranking is loaded with opaque records. No document reads it, and `Pipeline.CorpusIgnoresBestThirds` proves that.
