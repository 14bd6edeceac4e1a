# Chess club ratings and tournament participants, modelled in Dafny

This project models the core of a small chess club's tooling. The tooling does three things:

- keeps Elo ratings from the results of past tournaments;
- publishes the standings;
- fills the next tournament's bracket sheet with the players who have paid.

**The rating engine (`Rating/Rating.py`).** `update_ratings` replays the matches in order. For each match:

- both players are seeded into the caller's `per_player_history` dict with `[initial_rating]` if they have no history yet;
- both current ratings are read from a fresh `ratings` dict, with 1400 as the default;
- player1 gets what `new_elo_rating` returns;
- player2 moves by exactly the opposite amount;
- both new values are appended to the histories.

The final items are then sorted by rating, highest first, with Python's stable sort. `process_and_write_ratings` keeps the rows of players not in `players_to_hide_output`.

- Modelled in `rating.dfy`:
  - the dict is `OrderedDict` (`dict.dfy`), an association list that keeps insertion order, because that order decides ties in the sort;
  - `per_player_history` is the class `PlayerHistories`, updated in place;
  - the loop of `update_ratings` is proved equal to `Run`, a left fold of one `Step` per match.
- Proved in `rating_properties.dfy`:
  - zero-sum matches and conservation of the rating total;
  - append-only histories;
  - that the ratings agree with the last history entries.
- Modelled and proved in `ranking.dfy`: the sort and the filter.

Self-play (a match of a player against themselves) is handled as the code does it: the second write overwrites the first. A lemma shows it breaks conservation.

**Alias clean-up (`Rating/excel_to_csv.py`).** `replace_strings` rewrites every cell that is exactly one of 17 known spellings into the player's canonical Cyrillic name. `aliases.dfy` proves:

- the sequential replacements equal a single lookup per cell;
- the lookup is idempotent;
- the alias groups ("Aca" and "Aca Spasojevic", for example) end at one name.

**Slot filling (`code/azuriraj_ucesnike.py`).**

- `get_paid_participants` keeps the rows with a positive payment. A text payment makes the comparison raise, and the handler then returns `[]`.
- `update_tournament_file`:
  1. finds the "Непар" row that ends the player slots;
  2. collects the players already listed above it;
  3. writes each other paid participant into the first remaining "Играч N" placeholder, with that participant's rating in the 'Pocetni poredak' column.

  A participant with no placeholder left is reported as failed.
- `main` picks the tournament folder with the highest year and derives the year label from the folder's name.

`tournament.dfy` holds the sheet as a class over two arrays of cells, with each loop proved against a specification function. `tournament_properties.dfy` proves:

- which rows can change;
- how the participants are accounted for;
- that a failure means the sheet is full;
- the exact number of placements, `min(participants not already listed, placeholders)`, provided no paid participant's own name starts with "Играч ".

`existing_participants` is collected once, before the loop. So a name listed twice among the paid participants fills two slots; a lemma exhibits this.

A paid participant whose own name starts with "Играч " is written into a placeholder and counted as added. But that cell still looks like a placeholder, so the next participant overwrites it. The count then exceeds the names actually in the sheet; a lemma exhibits this too.

`strings.dfy` and `cells.dfy` give the few `str` operations and the spreadsheet cell values the scripts rely on.

## Model

| member | source | states |
|---|---|---|
| OrderedDict.Get | Rating/Rating.py:62-63 | `d.get(k, default)`; no contract of its own: GetFound, GetSet and EntryIsGet state what it returns |
| OrderedDict.Set | Rating/Rating.py:65-71 | `d[k] = v`; no contract of its own: SetShape, GetSet and SetKeepsKeysDistinct state its effect |
| OrderedDict.GetFound | Rating/Rating.py:62-63 | `ratings.get(p, 1400)` yields the default exactly for an absent key, and otherwise a value stored under that key |
| OrderedDict.SetShape | Rating/Rating.py:65-71 | `ratings[p] = v` adds `p` to the keys; an existing key keeps its position; a new key is appended at the end (insertion order) |
| OrderedDict.GetSet | Rating/Rating.py:65-71 | reading after `d[k] = v` gives `v` for `k` and the old value for every other key |
| OrderedDict.SetKeepsKeysDistinct | Rating/Rating.py:65-71 | an assignment never creates a duplicate key |
| OrderedDict.KeysCardinality | Rating/Rating.py:65-71 | a dict without duplicate keys has as many keys as items |
| OrderedDict.EntryIsGet | Rating/Rating.py:122 | each item `(k, v)` of the dict holds the value `get(k)` returns |
| OrderedDict.KeyAt | Rating/Rating.py:122 | the key of every item is in the dict's key set |
| OrderedDict.KeyHasEntry | Rating/Rating.py:122 | every key in the key set is carried by some item |
| Rating.Seed | Rating/Rating.py:48-50 | seeding adds the player; every history already present is untouched; a new player gets `[1400]` |
| Rating.PlayerHistories.constructor | Rating/Rating.py:97 | `per_player_history` starts empty |
| Rating.PlayerHistories.EnsurePlayerInitialRating | Rating/Rating.py:48-50 | the dict becomes `Seed` of the old dict: a lookup-or-insert of `[initial_rating]` |
| Rating.PlayerHistories.Append | Rating/Rating.py:66 | appends one rating to the end of that player's history and changes nothing else |
| Rating.Current | Rating/Rating.py:62-63 | `ratings.get(player, initial_rating)`; no contract of its own: GetFound and PreMatchRating state its meaning |
| Rating.NewRating1 | Rating/Rating.py:65 | player1's new rating, what the Elo rule returns for the two pre-match ratings; no contract of its own: StepReads states that player1 holds it when the players differ, and SelfPlayOverwrites what happens otherwise |
| Rating.NewRating2 | Rating/Rating.py:70 | player2's new rating, moved by exactly the opposite of player1's change; no contract of its own: StepReads states that player2 holds it and that the gain of one side is the loss of the other |
| Rating.StepRatings | Rating/Rating.py:62-70 | the `ratings` dict after one match; no contract of its own: StepReads, StepSurplus and StepRatingKeys state its meaning |
| Rating.StepHistories | Rating/Rating.py:59-71 | `per_player_history` after one match; no contract of its own: StepHistory states its meaning |
| Rating.Step | Rating/Rating.py:58-71 | one loop iteration on both dicts; no contract of its own: ApplyMatch is proved equal to it |
| Rating.Run | Rating/Rating.py:52-73 | the replay of all matches; no contract of its own: UpdateRatings is proved equal to it, and RunKeys, Conservation, HistoryGrowth, HistoryAppendOnly and LastEntryIsRating state its meaning |
| Rating.ApplyMatch | Rating/Rating.py:58-71 | one loop iteration maps (ratings, histories) to `Step` of them |
| Rating.UpdateRatings | Rating/Rating.py:52-73 | the returned dict and the caller's history dict afterwards are exactly the replay `Run` of all matches in order, starting from an empty `ratings` and the caller's histories |
| RatingProperties.StepReads | Rating/Rating.py:62-71 | after a match, player2 holds the complement rating; player1 holds the Elo result when the players differ; every other player keeps their rating; player1's gain equals player2's loss |
| RatingProperties.SelfPlayOverwrites | Rating/Rating.py:65-71 | when player1 is player2, the final rating is `2*before - elo(before, before, r)`, because the second write overwrites the first |
| RatingProperties.SurplusSet | Rating/Rating.py:65-71 | an assignment changes the dict's total by the new value minus the current one |
| RatingProperties.StepSurplus | Rating/Rating.py:68-71 | a match keeps the total over `1400 × players` unchanged, except in self-play, where it moves by `before - new` |
| RatingProperties.SelfPlayBreaksConservation | Rating/Rating.py:68-71 | a concrete self-play match (+20 rule) leaves the total 20 below `1400 × players`, so the "sum is constant" comment needs distinct players |
| RatingProperties.StepRatingKeys | Rating/Rating.py:65-71 | a match adds exactly its two players to the keys and keeps them distinct |
| RatingProperties.StepHistory | Rating/Rating.py:58-71 | a match seeds its players, appends one entry per side a player occupies (two under self-play), keeps every other history and changes no existing entry |
| RatingProperties.RunKeys | Rating/Rating.py:52-73 | the returned keys are exactly the players named in the matches, without duplicates; the history dict gains exactly those players |
| RatingProperties.SurplusZero | Rating/Rating.py:68-71 | without self-play the replay keeps the total at `1400 × players` |
| RatingProperties.Conservation | Rating/Rating.py:68-71 | without self-play, the sum of the final ratings is `1400 ×` the number of players seen |
| RatingProperties.UnnamedHasNoSides | Rating/Rating.py:58 | helper for HistoryGrowth: a player named in no match of the loop occupies no match side |
| RatingProperties.HistoryGrowth | Rating/Rating.py:48-71 | a player's history starts with the caller's history for them (or `[1400]`) and grows by exactly one entry per match side they occupy |
| RatingProperties.OneMoreMatch | Rating/Rating.py:66-71 | one more match keeps every existing history as a prefix |
| RatingProperties.HistoryAppendOnly | Rating/Rating.py:66-71 | the histories after any prefix of the matches are prefixes of the final histories |
| RatingProperties.LastEntryIsRating | Rating/Rating.py:65-71 | the last entry of every rated player's history equals their rating in the returned dict |
| RatingProperties.PreMatchRating | Rating/Rating.py:62-63 | the rating read for a player's next match is the last entry of their history if they have played, else 1400 |
| Ranking.Insert | Rating/Rating.py:122 | one insertion step of the stable descending sort; no contract of its own: InsertPermutes, InsertDescending and InsertWithRating state its meaning |
| Ranking.SortByRatingDesc | Rating/Rating.py:122 | `sorted(..., key=rating, reverse=True)`; no contract of its own: SortFacts and SortIsUnique state its meaning |
| Ranking.InsertPermutes | Rating/Rating.py:122 | inserting into the sorted list adds exactly that item |
| Ranking.InsertDescending | Rating/Rating.py:122 | inserting keeps the list in descending rating order |
| Ranking.InsertWithRating | Rating/Rating.py:122 | the inserted item goes before the items with its rating (stability) |
| Ranking.SortFacts | Rating/Rating.py:122 | `sorted(..., key=rating, reverse=True)` returns a permutation of the items, descending by rating, with items of equal rating kept in dict order |
| Ranking.WithRatingMember | Rating/Rating.py:122 | the items of one rating are items of the list with that rating |
| Ranking.WithRatingHas | Rating/Rating.py:122 | every item appears among the items of its rating |
| Ranking.EmptyGroups | Rating/Rating.py:122 | a list with no item of any rating is empty |
| Ranking.GroupsDetermineOrder | Rating/Rating.py:122 | two descending lists with the same items per rating, in the same order, are equal |
| Ranking.SortIsUnique | Rating/Rating.py:122 | the sort's result is the only descending arrangement that keeps the order of equal ratings |
| Ranking.Shown | Rating/Rating.py:127 | `players_to_hide_output is None or player not in players_to_hide_output`; no contract of its own: VisibleMembers, VisibleNone and WrittenFiles state its meaning |
| Ranking.Visible | Rating/Rating.py:126-128 | the rows kept by the filter, in order; no contract of its own: VisibleMembers, VisibleNone and VisibleDescending state its meaning, and ProcessRatings is proved equal to it |
| Ranking.ProcessRatings | Rating/Rating.py:124-128 | the loop builds `result` as `Visible`: the rows of players not hidden, in order |
| Ranking.VisibleMembers | Rating/Rating.py:126-128 | a row is kept exactly when it is in the input and its player is not hidden (or no hide set is given) |
| Ranking.VisibleNone | Rating/Rating.py:140 | with `players_to_hide_output=None`, every row is written, in the same order |
| Ranking.VisibleDescending | Rating/Rating.py:124-128 | filtering keeps the descending order |
| Ranking.RunItems | Rating/Rating.py:122 | an item of the final dict is exactly a named player with their final rating |
| Ranking.Standings | Rating/Rating.py:122-140 | the written rows are descending, and `(p, r)` is written exactly when `p` played, is not hidden, and `r` is `p`'s final rating |
| Ranking.WrittenFiles | Rating/Rating.py:139-140 | with the script's hide set, no player of `players_to_hide_output` is written to `rating.csv` and every other row of `all_ratings.csv` is; `all_ratings.csv` is the whole sorted list |
| Aliases.ReplaceCell | Rating/excel_to_csv.py:30 | `replace` on one cell; no contract of its own: ReplaceInTable's pointwise ensures states its effect |
| Aliases.Canonical | Rating/excel_to_csv.py:7-30 | a cell's canonical form; no contract of its own: ApplyAllIsCanonical, CanonicalIdempotent and the group lemmas state its meaning |
| Aliases.ApplyAll | Rating/excel_to_csv.py:28-30 | one cell after the 17 replacements applied in order; no contract of its own: ReplaceStrings is proved to compute it, and ApplyAllIsCanonical equates it with one lookup |
| Aliases.ReplaceInTable | Rating/excel_to_csv.py:30 | `df.replace(old, new)` keeps the table's shape and replaces exactly the cells equal to `old` |
| Aliases.Lookup | Rating/excel_to_csv.py:7-25 | the map gives no replacement exactly when no key matches; otherwise the value of a pair with that key |
| Aliases.ReplaceStrings | Rating/excel_to_csv.py:5-31 | the loop over `replacement_map` keeps the table's shape and maps every cell to its canonical form |
| Aliases.ApplyAllIsCanonical | Rating/excel_to_csv.py:28-30 | with distinct keys, and no value that is also a key, the replacements in sequence equal one lookup per cell |
| Aliases.CanonicalIdempotent | Rating/excel_to_csv.py:7-30 | replacing twice gives the same as replacing once |
| Aliases.ValueIsNoKey | Rating/excel_to_csv.py:7-25 | each canonical name in the map differs from every alias |
| Aliases.KeyIsUnique | Rating/excel_to_csv.py:7-25 | each alias differs from every later alias |
| Aliases.AliasKeysDistinct | Rating/excel_to_csv.py:7-25 | the 17 aliases are distinct |
| Aliases.AliasValuesNotKeys | Rating/excel_to_csv.py:7-25 | no canonical name is itself an alias, so one pass suffices |
| Aliases.LookupFirst | Rating/excel_to_csv.py:7-25 | a key finds the value of its first pair |
| Aliases.AcaGroup | Rating/excel_to_csv.py:19-22 | "Aca", "Aca Spasojevic" and "Аца Спасојевић" all end as "Аца Спасојевић" |
| Aliases.MirkoGroup | Rating/excel_to_csv.py:18-23 | "Mirko", "Mirko Spasojevic" and "Мирко Спасојевић" all end as "Мирко Спасојевић" |
| Aliases.VojislavGroup | Rating/excel_to_csv.py:16-24 | "Воја Кокеза", "Vojislav Kokeza" and "Војислав Кокеза" all end as "Војислав Кокеза" |
| Aliases.WholeCellsOnly | Rating/excel_to_csv.py:30 | a cell that only contains an alias ("Aca Petrovic") is not rewritten |
| Strings.StartsWith | code/azuriraj_ucesnike.py:259 | `s.startswith(prefix)`: the first `|prefix|` characters equal `prefix`; no contract of its own: RemoveFirstOccurrence and the tournament lemmas use it |
| Strings.Contains | code/azuriraj_ucesnike.py:406 | `pat in s`: some suffix of `s` starts with `pat`; no contract of its own: RemoveAll's ensures state what it decides |
| Strings.IsDigits | code/azuriraj_ucesnike.py:265 | `s.isdigit()`: non-empty and ASCII digits only; no contract of its own: NatToDigits and IntToText state which texts satisfy it |
| Strings.DigitsValue | code/azuriraj_ucesnike.py:394 | `int(s)` on a digit string; no contract of its own beyond being a natural number: NatToDigits and IntToText state it inverts `str` |
| Strings.RemoveAll | code/azuriraj_ucesnike.py:392 | `s.replace(pat, "")` never lengthens `s`; it is the identity when `pat` does not occur; when `pat` occurs anywhere, the result is at least `|pat|` shorter |
| Strings.DropFirst | code/azuriraj_ucesnike.py:392 | an occurrence at the start is dropped and the removal carries on after it |
| Strings.RemoveFirstOccurrence | code/azuriraj_ucesnike.py:392 | the first occurrence of `pat`, wherever it starts, is removed: the text before it is kept and the removal continues after it |
| Strings.NatToDigits | code/azuriraj_ucesnike.py:250 | `str(n)` of a natural number is a digit string without a leading zero whose value is `n` |
| Strings.IntToText | code/azuriraj_ucesnike.py:250 | `str(n)` is non-empty; digits with value `n` for `n >= 0`; a leading '-' otherwise |
| Strings.NegativeText | code/azuriraj_ucesnike.py:261 | `str(n)` of a negative number is a '-' followed by `str(-n)`: the digits of `-n`, whose value is `-n` |
| Cells.NotNull | code/azuriraj_ucesnike.py:44 | `pd.notna(c)`: the cell is not blank; no contract of its own: Show, IsListedPlayer and the paid-row predicates use it |
| Cells.Show | code/azuriraj_ucesnike.py:259-261 | `str(cell)` of a text is the text; of a number, a string starting with a digit or '-' |
| Tournament.IsSlotsEnd | code/azuriraj_ucesnike.py:250 | a non-empty cell whose text is "Непар"; no contract of its own: SlotsEndOf's ensures state its role |
| Tournament.IsPlaceholder | code/azuriraj_ucesnike.py:285 | a non-empty cell whose text starts with "Играч "; no contract of its own: PlaceholderFrom, FillRows and CountAfterFill state its role |
| Tournament.RatingFor | code/azuriraj_ucesnike.py:290 | `ratings_lookup.get(participant, default_rating)`; no contract of its own: FillRows states the seed written with it |
| Tournament.Existing | code/azuriraj_ucesnike.py:257-267 | the listed players among the first `end` cells; no contract of its own: ExistingHas and ExistingWitness state its members, and ExistingParticipants is proved to compute it |
| Tournament.SlotsEndOf | code/azuriraj_ucesnike.py:247-252 | `player_slots_end` is the index of the first "Непар" cell, or the column length when there is none |
| Tournament.PlaceholderFrom | code/azuriraj_ucesnike.py:283-285 | the search yields the first "Играч …" cell in the range, or nothing when the range holds none |
| Tournament.Place | code/azuriraj_ucesnike.py:277-307 | one participant keeps the sheet's shape |
| Tournament.FillAll | code/azuriraj_ucesnike.py:276-307 | the loop over all participants keeps both columns' lengths |
| Tournament.SetupFor | code/azuriraj_ucesnike.py:247-267 | the slots end found in the sheet is within the sheet |
| Tournament.TournamentSheet.constructor | code/azuriraj_ucesnike.py:239-244 | the sheet holds the name column, the seed column and whether 'Pocetni poredak' exists |
| Tournament.TournamentSheet.SlotsEnd | code/azuriraj_ucesnike.py:247-252 | the scan returns `SlotsEndOf` of the name column |
| Tournament.IsListedPlayer | code/azuriraj_ucesnike.py:259-266 | the test a cell passes to count as an existing participant; no contract of its own: ExistingHas and ExistingWitness state its role |
| Tournament.TournamentSheet.ExistingParticipants | code/azuriraj_ucesnike.py:257-267 | the scan returns the listed-player cells (not a placeholder, not a UI label or note, not all digits, longer than 3) before the slots end |
| Tournament.TournamentSheet.FindPlaceholder | code/azuriraj_ucesnike.py:283-285 | the inner loop finds the first placeholder before the slots end |
| Tournament.TournamentSheet.PlaceParticipant | code/azuriraj_ucesnike.py:277-307 | one iteration does one `Place`: it skips a listed participant; otherwise it fills the first placeholder (name, seed, two `com_updates`, count) or records a failure |
| Tournament.TournamentSheet.UpdateTournamentFile | code/azuriraj_ucesnike.py:236-307 | the columns, `updated_count`, `failed_participants` and `com_updates` afterwards are exactly `FillAll` over the paid participants |
| Tournament.Compared | code/azuriraj_ucesnike.py:44-45 | a row whose `payment_status > 0` is evaluated: name not blank, not "Укупно", payment not blank (Python's `and` short-circuits); no contract of its own: PaidMembers states its effect |
| Tournament.PaidNames | code/azuriraj_ucesnike.py:41-46 | the names of the paid rows, in sheet order; no contract of its own: PaidMembers and PaidNamesAreNames state its members |
| Tournament.AnyRaises | code/azuriraj_ucesnike.py:45-54 | some row reaches a comparison that raises; no contract of its own: PaidMembers states that the result is then `[]` |
| Tournament.Raises | code/azuriraj_ucesnike.py:45 | a row whose `payment_status > 0` raises: a text payment on a named, non-total row; no contract of its own: PaidMembers states its effect |
| Tournament.IsPaid | code/azuriraj_ucesnike.py:44-45 | the row test of the filter; no contract of its own: PaidMembers and PaidNamesAreNames state its meaning |
| Tournament.PaidParticipants | code/azuriraj_ucesnike.py:33-54 | the function's result, `[]` on an exception; no contract of its own: GetPaidParticipants is proved equal to it and PaidMembers states its members |
| Tournament.GetPaidParticipants | code/azuriraj_ucesnike.py:33-54 | the result is the names of rows that are not blank, not "Укупно", and paid a positive amount; it is `[]` when a text payment reaches the comparison |
| Tournament.IsTournamentFolder | code/azuriraj_ucesnike.py:390-393 | a directory matched by `Turnir *` whose year part is a digit string; no contract of its own: LatestTournament states its role |
| Tournament.YearOf | code/azuriraj_ucesnike.py:394 | `int(year_part)`; no contract of its own: LatestTournament and YearLabelOfTournament state its role |
| Tournament.LatestTournament | code/azuriraj_ucesnike.py:390-396 | no folder is chosen exactly when no directory "Turnir <digits>" exists; otherwise the first folder with the highest year |
| Tournament.YearLabel | code/azuriraj_ucesnike.py:405-410 | the year label of the chosen folder; no contract of its own: RemoveAll's contract, YearLabelOfTournament and YearLabelExamples state its meaning |
| TournamentProperties.InPrefix | code/azuriraj_ucesnike.py:276 | helper (a plain sequence fact) used by FillCounts: a participant from a prefix of the list is in the list |
| TournamentProperties.FillRows | code/azuriraj_ucesnike.py:283-297 | every changed row was a placeholder before "Непар"; it now holds a paid participant who was not listed, and, with a seed column, that participant's rating (1400 if unknown) |
| TournamentProperties.FillCounts | code/azuriraj_ucesnike.py:276-307 | updated + failed = the participants not already listed; `com_updates` holds one or two entries per placement; every failed participant was paid and not listed |
| TournamentProperties.FailureMeansFull | code/azuriraj_ucesnike.py:304-307 | once a participant fails, no placeholder is left before "Непар" |
| TournamentProperties.NoPlaceholderCount | code/azuriraj_ucesnike.py:283-285 | the search finds nothing exactly when the placeholder count is zero |
| TournamentProperties.CountBeyond | code/azuriraj_ucesnike.py:283 | writing at or after the slots end does not change the placeholder count before it |
| TournamentProperties.CountAfterFill | code/azuriraj_ucesnike.py:287 | writing a non-placeholder name over a placeholder leaves one placeholder fewer |
| TournamentProperties.FillsMin | code/azuriraj_ucesnike.py:276-307 | when no participant's name starts with "Играч ", exactly `min(unlisted participants, placeholders)` are placed, and each placement uses up one placeholder |
| TournamentProperties.ExistingHas | code/azuriraj_ucesnike.py:257-267 | every listed-player cell before "Непар" counts as existing |
| TournamentProperties.ExistingWitness | code/azuriraj_ucesnike.py:257-267 | only listed-player cells before "Непар" count as existing |
| TournamentProperties.PaidMembers | code/azuriraj_ucesnike.py:33-54 | a text payment on a compared row empties the result; otherwise a name is returned exactly when some row with that name is paid |
| TournamentProperties.PaidNamesAreNames | code/azuriraj_ucesnike.py:44 | a returned name is never blank and never the totals row |
| TournamentProperties.YearLabelOfTournament | code/azuriraj_ucesnike.py:405-407 | for the chosen folder the year label is its digit string, whose value was the one compared |
| TournamentProperties.YearLabelExamples | code/azuriraj_ucesnike.py:405-410 | "Turnir 2025" → "2025"; "Turnir 20Turnir 25" → "2025" (every occurrence is removed); "2025" → "UNKNOWN" |
| TournamentProperties.RepeatedParticipantTakesTwoSlots | code/azuriraj_ucesnike.py:276-300 | a name paid twice fills two placeholders, each with a seed |
| TournamentProperties.PlaceholderNamedParticipantOverwritten | code/azuriraj_ucesnike.py:283-300 | with one slot and paid `["Играч Х", "Ана Анић"]`, the sheet ends holding only "Ана Анић", yet `updated_count` is 2 and nothing failed: the first placement is overwritten |

## Left out

- Rating.UpdateRatings: the caller's history lists are taken to be distinct objects, so an append to one player's list shows under that player only. The script's only call passes a fresh `{}` (Rating/Rating.py:97-98), which guarantees this. A caller dict in which two players share one list object would see every append under both keys, and HistoryGrowth would not describe it.
- `new_elo_rating` (Rating/Rating.py:40-46) is a parameter `elo` of the model. The formula has floating point, `10 **`, `round` and the K factor 40. Every property above holds for any integer-valued rule.
- Reading results from CSV (Rating/Rating.py:76-92), and writing the history CSVs and charts (Rating/Rating.py:100-117): I/O.
- The printed rank numbers and the CSV writer in `process_and_write_ratings` (Rating/Rating.py:130-136): output only. The written rows are `Visible`.
- The rows' `int(rating)` is the identity, because the ratings are already integers.
- `izvoz` and `excel_to_csv` (Rating/excel_to_csv.py:34-94) read spreadsheets and write CSV files. Only `replace_strings` is modelled. The DataFrame is a table of rows of cells.
- `load_ratings_lookup` becomes the `lookup` parameter: a map from cells to ratings. `ratings_file` missing means an empty map.
- Not modelled: `find_tournament_file`, `update_excel_via_com`, `save_with_retry`, the message boxes, and the save step after the loop (code/azuriraj_ucesnike.py:56-233, 309-371). They are file, Excel COM and UI work. `com_updates` is modelled as the list handed to them.
- The command-line folder argument and the file-existence checks in `main` are not modelled; nor is the "Ucesnici" file path. The folder listing is a parameter, in listing order, and the glob's prefix test is modelled case-sensitively.
- The error handlers are modelled only for the one error the in-memory code can raise: a text payment compared with 0 in `get_paid_participants`. Errors reading or writing files are left out.
- Cells are blank, text, or integer. Fractional payments such as 0.5 are not modelled, and neither are float-typed names.
- `isdigit` and `int` are modelled on ASCII digits only. Python also accepts other Unicode digits.
- Printing to the console is left out throughout.
