# osu! double-elimination tournament site — Dafny model

The system is a Flask web site that runs an osu! tournament. Players sign up and are approved.
They play a seeding room, are ranked by seeding score, and are then placed in a
double-elimination bracket. Matches run in osu! multiplayer rooms. Inside a match the two players
ban and pick maps and spend one-shot abilities. Admins record scores and winners. A winner
advances in the upper bracket; a loser drops to the lower bracket. The two bracket champions
meet in a grand final, which is reset once if the lower-bracket player wins the first game.

Three generations of the bracket logic exist side by side, and each is modelled in its own module:

- `app/engine/bracket_engine.py` keeps a table of matches keyed by (bracket, round, slot).
  `Advance` repeats a routing pass until nothing changes. Its pure core is `EngineModel`, its
  proofs are in `EngineProofs` (termination by a lexicographic measure, routing on a settled
  table), and the class is `BracketEngine.DoubleEliminationStrategy`.
- `old/app.py` keeps the bracket as JSON lists of rounds. Its losers are re-collected from the
  upper bracket (`OldApp`).
- `app.py` is the same JSON bracket with a flat `loser_pool` (`PoolApp`). The shared list
  operations of both are in `DictBracket`.

The services and routes around them are modelled as well:

- `MatchService`: finding, scoring and resetting matches, and tallying a multiplayer room's results.
- `HttpEvents`: the "current match" feed.
- `SeedingService`: seeding totals and the seeding order.
- `Streaming`: reducing a Twitch URL to a channel name.
- `PlayerRoutes`: parsing pasted beatmap links.
- `MatchAction`: the ban/pick/ability state machine of `match_action`.
- `AdminRoutes`: permission lists, signup approval, tiebreaker maps and victory.
- `Overlay`: the stream overlay state.

Shared vocabulary lives in `Common`, `Sorting` (Python's stable `sort`), `Text` (substring
search, `str(n)`, `int(digits)`, `re.search(prefix(\d+))`, `str.strip()`) and `SiteData` (the
JSON bracket grid with upper, lower, grand final and previous grand final).

Code that mutates objects or JSON dictionaries in place is modelled as classes whose fields are
`seq`/`map` values, with `modifies` clauses and postconditions that state the new state. The
routing and pairing rules are pure functions, and the properties are lemmas about those functions.

Observations the proofs make explicit:

- In `bracket_engine.py` the branch `not p1 and p2` (lines 69-70) can never run, because the top
  half is always at least as long as the bottom half.
- With two players the engine creates no lower rounds, so the grand final's second seat is never
  filled.
- With five players, both seats of lower match (0, 1) are fed by byes
  (`BracketEngine.FivePlayersStrandLower`). Neither seat is ever filled, and the match stays
  `waiting` through generate and every later advance (`EngineProofs.StrandedMatchWaits`;
  the contracts of `Generate` and `Advance`).
- The guard at `app.py:203` and the one at `app.py:247` (`len(l) == len(l[:-1]) + 1`) always hold.
- The comparison at `old/app.py:251` is made against freshly created ids and never blocks.

## Model

| member | source | states |
|---|---|---|
| Common.Pow2 | app/engine/bracket_engine.py:19 | `1 << k` is at least 1 |
| Common.BitLength | app/engine/bracket_engine.py:19 | `int.bit_length()` is 0 exactly for 0 |
| Common.BitLengthBounds | app/engine/bracket_engine.py:19 | x < 2^bit_length(x), and 2^(bit_length(x)-1) <= x for x >= 1: `1 << (n-1).bit_length()` is the least power of two >= n |
| Common.Reversed | app/engine/bracket_engine.py:57 | `reversed()`: same length, and element j is element len-1-j of the input |
| Sorting.SortBy | app/engine/bracket_engine.py:15 | the result is sorted by the key, is a permutation of the input, and keeps the input order among equal keys (Python's stable sort) |
| Sorting.InsertMultiset | app/engine/bracket_engine.py:15 | one insertion adds exactly that element to the multiset |
| Sorting.InsertSorted | app/engine/bracket_engine.py:15 | inserting into a sorted list keeps it sorted |
| Sorting.SortSorted | app/data_manager.py:16 | sorting a list already in key order leaves it unchanged |
| Text.NatToString | app/services/match_service.py:137 | `str(n)` is a non-empty string of decimal digits |
| Text.DigitsRoundTrip | app/services/match_service.py:137 | `int(str(n)) == n` |
| Text.SearchNumber | app/services/match_service.py:135-137 | `re.search(prefix(\d+))` finds nothing exactly when no position holds the prefix followed by a digit |
| Text.SearchNumberAt | app/services/match_service.py:135-137 | the number found is the greedy digit run after the leftmost match |
| Text.ExtractRoomId | app/services/match_service.py:122-139 | an empty URL has no room id (which URLs yield which id: RoomUrlRoundTrip and NumberAfter; the same code is at app/services/seeding_service.py:11-28) |
| Text.RoomUrlRoundTrip | app/services/match_service.py:122-139 | the canonical room URL `https://osu.ppy.sh/multiplayer/rooms/<n>` yields room n |
| Text.NumberAfter | app/services/match_service.py:135-137 | a number written right after the first occurrence of the prefix is the one found |
| Text.Strip | app/routes/player_routes.py:67 | `str.strip()` is empty iff the input is all whitespace, and otherwise starts and ends with a non-space |
| Text.StripPadding | app/routes/player_routes.py:67 | stripping whitespace padding around an unpadded word gives the word |
| SiteData.WithMatchAt | app/services/match_service.py:33-53 | writing a match at a location changes only that location: the set of locations is kept, and editing the grand final keeps its previous_gf |
| SiteData.FirstInRounds | app/services/match_service.py:24-29 | the first cell, in round order then slot order, that satisfies the query; None means no cell does |
| SiteData.FirstInRoundsIs | app/services/match_service.py:24-29 | conversely, a satisfying cell with none before it is the one returned |
| SiteData.SaveOrder | app/data_manager.py:13-17 | `save_tournament_data` re-sorts competitors by pp, highest first: the result is a permutation of the list, in non-increasing pp |
| SiteData.SaveOrderKept | app/data_manager.py:13-17 | a list already in pp order whose pp values are kept is saved unchanged |
| SiteData.ScanRounds | app/services/match_service.py:24-29 | the nested loop returns exactly FirstInRounds |
| EngineModel.LoserOf | app/engine/bracket_engine.py:88 | the loser is player 2 when player 1 won, and player 1 when player 2 won |
| EngineModel.Promote | app/engine/bracket_engine.py:150-152 | only the status can change, and only to next_up; the result is next_up iff it already was, or it was waiting with both seats filled |
| EngineModel.Fill | app/engine/bracket_engine.py:141-154 | no-op for a missing id or an unchanged seat; the flag is set iff the seat changed; only that seat changes; a waiting match becomes next_up exactly when both seats end up filled |
| EngineModel.FillIdempotent | app/engine/bracket_engine.py:141-154 | filling the same seat twice equals filling it once, and the second fill reports no change |
| EngineModel.FillAt | app/engine/bracket_engine.py:141-154 | `_fill_player` on the table keeps its set of keys |
| EngineModel.UpperWinnerPath | app/engine/bracket_engine.py:90-98 | routing an upper winner keeps the set of keys (where it goes: EngineProofs.SettledUpperRouting) |
| EngineModel.UpperLoserPath | app/engine/bracket_engine.py:100-109 | routing an upper loser keeps the set of keys (where it goes: EngineProofs.SettledUpperRouting) |
| EngineModel.ProcessUpper | app/engine/bracket_engine.py:88-109 | both upper routes keep the set of keys |
| EngineModel.ProcessLower | app/engine/bracket_engine.py:111-127 | routing a lower winner keeps the set of keys (where it goes: EngineProofs.SettledLowerRouting) |
| EngineModel.ProcessGrandFinals | app/engine/bracket_engine.py:129-137 | the reset rule keeps the set of keys (its effect: EngineProofs.ResetRule) |
| EngineModel.Process | app/engine/bracket_engine.py:86-137 | processing one completed match keeps the set of keys |
| EngineModel.Pass | app/engine/bracket_engine.py:84-137 | one `for m in all_matches` pass keeps the set of keys |
| EngineModel.Settled | app/engine/bracket_engine.py:82-84 | definition: a whole pass reports no change, where the `while changed` loop stops (BracketEngine.DoubleEliminationStrategy.Advance ensures it on exit) |
| EngineProofs.ProcessStep | app/engine/bracket_engine.py:86-137 | on a table of the generated shape, processing a match keeps the shape, changes only seats and waiting to next_up, leaves upper round 0 alone, writes a seat only with a player and only when the seat's feeder match is decided (or it is the reset after a decided grand final 0), promotes only a match whose two seats are taken (or the reset), never leaves a waiting match with both seats taken, and strictly lowers a lexicographic measure (wrong upper seats, wrong lower and grand-final seats, waiting matches) whenever it reports a change |
| EngineProofs.PassStep | app/engine/bracket_engine.py:82-137 | the same for a whole pass, so the `while changed` loop terminates |
| EngineProofs.SettledEach | app/engine/bracket_engine.py:82-86 | when a pass reports no change, every single completed match is a no-op |
| EngineProofs.QuietUpper | app/engine/bracket_engine.py:90-109 | a decided upper match that changes nothing has its winner in upper (r+1, i/2) slot i%2 (grand final slot 0 from the last round) and its loser in lower (0, i/2) slot i%2 from round 0 or lower (2r-1, i) slot 1 from a later round |
| EngineProofs.QuietLower | app/engine/bracket_engine.py:111-127 | a decided lower match that changes nothing has its winner in (lr+1, i) slot 0 from an even round, (lr+1, i/2) slot i%2 from an odd round, or grand final slot 1 from the last round |
| EngineProofs.SettledUpperRouting | app/engine/bracket_engine.py:90-109 | once advance has settled, every decided upper match's winner and loser sit in the slots (0 or 1) those rules name |
| EngineProofs.SettledLowerRouting | app/engine/bracket_engine.py:111-127 | once advance has settled, every decided lower match's winner sits where those rules put it |
| EngineProofs.ResetRule | app/engine/bracket_engine.py:129-136 | when player 2 wins grand final 0 and the reset is waiting, the reset gets the same players in the same seats and becomes next_up, nothing else changes; when player 1 wins, or the reset is not waiting, nothing changes |
| EngineProofs.SettledReset | app/engine/bracket_engine.py:129-136 | once advance has settled, a grand final won by player 2 has a reset that is no longer waiting |
| EngineProofs.UnfedSeatStays | app/engine/bracket_engine.py:101-109 | a seat fed only by an upper round-0 match that produces no player (a bye) keeps its content through any pass |
| EngineProofs.StrandedStable | app/engine/bracket_engine.py:141-154 | a match outside the reset whose two seats are unfed, empty and waiting is still all of that after any step that keeps unfed seats, first-round rows and waiting statuses of such matches |
| EngineProofs.StrandedMatchWaits | app/engine/bracket_engine.py:141-154 | such a match is still waiting, with both seats empty, after any pass: `_fill_player` only promotes a match whose two seats are taken |
| EngineProofs.SettledSeatsDemand | app/engine/bracket_engine.py:90-127 | once advance has settled, every seat whose feeder sends a player holds that player (the feeder's winner, or its loser for a lower seat fed from the upper bracket) |
| EngineProofs.JustifiedTrans | app/engine/bracket_engine.py:141-154 | two steps that each write seats only from decided feeders and promote only filled matches compose into one that does the same |
| EngineProofs.ResetStep | app/engine/bracket_engine.py:129-137 | copying grand final 0's players into the waiting reset is a step of the kind above that lowers the measure |
| EngineProofs.UpperFinalFallback | app/engine/bracket_engine.py:92-96 | an upper match with no successor is the upper final (R-1, 0) |
| EngineProofs.LowerFinalFallback | app/engine/bracket_engine.py:117-124 | a lower match with no successor is the lower final (2R-3, 0) |
| BracketEngine.Seeded | app/engine/bracket_engine.py:15 | competitors ordered by placement (9999 when missing) ascending, then pp descending, as a stable permutation |
| BracketEngine.RoundKeys | app/engine/bracket_engine.py:25-41 | one round's keys are its slots 0..n-1 in order |
| BracketEngine.UpperTotal | app/engine/bracket_engine.py:23-30 | the first r upper rounds hold 2^R - 2^(R-r) matches, so all R of them hold 2^R - 1 |
| BracketEngine.LowerTotal | app/engine/bracket_engine.py:33-41 | the first 2q lower rounds hold 2^R - 2·2^(R-1-q) matches, so all 2(R-1) of them hold 2^R - 2 |
| BracketEngine.UpperCountIsSource | app/engine/bracket_engine.py:26 | the round size `P // 2**(r+1)` is 2^(R-1-r) |
| BracketEngine.LowerCountIsSource | app/engine/bracket_engine.py:36 | the lower round size `P // 2**(2 + lr//2)` is 2^(R-2-lr/2) |
| BracketEngine.BracketKeysMembers | app/engine/bracket_engine.py:22-49 | a key is laid out iff it belongs to the skeleton of R upper rounds, 2(R-1) lower rounds and two grand finals |
| BracketEngine.BracketKeysNoDup | app/engine/bracket_engine.py:22-49 | no key is laid out twice |
| BracketEngine.BracketKeysCount | app/engine/bracket_engine.py:22-49 | the bracket has 2·2^R - 1 matches (7 for three or four players) |
| BracketEngine.LayoutFacts | app/engine/bracket_engine.py:22-49 | the created matches are exactly the listed keys, each a fresh waiting match with the next id |
| BracketEngine.LaidOutRows | app/engine/bracket_engine.py:22-49 | the created matches have distinct ids and are all empty and waiting |
| BracketEngine.LaidOutBracket | app/engine/bracket_engine.py:22-49 | the layout has exactly the skeleton's keys and 2·2^R - 1 distinct matches |
| BracketEngine.RoundsFor | app/engine/bracket_engine.py:19-21 | for n >= 2, R = (n-1).bit_length() is at least 1 and 2^(R-1) < n <= 2^R |
| BracketEngine.FiveSeedsThreeRounds | app/engine/bracket_engine.py:19-20 | the only R with 2^(R-1) < 5 <= 2^R is 3: five players get three upper rounds |
| BracketEngine.OpeningSeated | app/engine/bracket_engine.py:53-72 | opening match i seats top[i] against reversed-bottom[i]; with no opponent player 1 wins, the match is completed and scores bo/2+1 |
| BracketEngine.BuiltFrom | app/engine/bracket_engine.py:19-72 | a laid-out skeleton with its opening round seeded is the table advance starts from |
| BracketEngine.BuiltPaired | app/engine/bracket_engine.py:53-72 | on the seeded table no match is waiting with both seats taken: an opening match is next_up or a completed bye, every later match is empty |
| BracketEngine.BuiltDecided | app/engine/bracket_engine.py:53-72 | on the seeded table only opening matches (the byes) are decided, and every seat outside the opening round is empty |
| BracketEngine.UnsentSeatEmpty | app/engine/bracket_engine.py:101-154 | a seat empty before advance whose feeder sends nobody afterwards is still empty: its only possible writer is an opening match, which advance does not change |
| BracketEngine.GeneratedSeat | app/engine/bracket_engine.py:78-154 | after generate's advance, a seat outside the opening round holds exactly what its feeder sends, and nobody when the feeder sends nobody |
| BracketEngine.GeneratedSeats | app/engine/bracket_engine.py:78-154 | the same for every such seat |
| BracketEngine.GeneratedStatuses | app/engine/bracket_engine.py:141-154 | after generate's advance, a match outside the opening round is next_up exactly when both its seats are taken |
| BracketEngine.AfterGenerate | app/engine/bracket_engine.py:17 | advancing that table to a settled state gives a generated bracket: shape, seeded opening round, every other match undecided, each of its seats holding what its feeder sends, and next_up exactly when both seats are taken (waiting otherwise) |
| BracketEngine.FivePlayersStrandLower | app/engine/bracket_engine.py:53-72 | with five seeded players the bracket has three upper rounds, and lower match (0, 1) is stranded: both its feeders, upper matches 2 and 3 of round 0, are byes |
| BracketEngine.AfterPass | app/engine/bracket_engine.py:82-137 | one loop iteration keeps the shape, the frozen results and upper round 0, writes seats only from decided feeders, promotes only full matches, and lowers the measure when it reports a change; unchanged tables stay put |
| BracketEngine.DoubleEliminationStrategy.constructor | app/engine/bracket_engine.py:4-12 | starts with no matches and the given best-of |
| BracketEngine.DoubleEliminationStrategy.AddMatch | app/engine/bracket_engine.py:27-29 | adds one waiting match under its key with the next id |
| BracketEngine.DoubleEliminationStrategy.AddRound | app/engine/bracket_engine.py:25-30 | adds the matches of one round, in slot order |
| BracketEngine.DoubleEliminationStrategy.LayOutUpper | app/engine/bracket_engine.py:23-30 | creates exactly the upper keys |
| BracketEngine.DoubleEliminationStrategy.LayOutLower | app/engine/bracket_engine.py:33-41 | creates exactly the lower keys after them |
| BracketEngine.DoubleEliminationStrategy.LayOutFinals | app/engine/bracket_engine.py:44-49 | creates the grand final and its reset |
| BracketEngine.DoubleEliminationStrategy.LayOut | app/engine/bracket_engine.py:22-49 | the table becomes the layout of the whole skeleton |
| BracketEngine.DoubleEliminationStrategy.BottomHalf | app/engine/bracket_engine.py:56-57 | the reversed bottom half, padded with empty seats to the half size |
| BracketEngine.DoubleEliminationStrategy.SeedOpeningRound | app/engine/bracket_engine.py:53-72 | every opening match is seated as OpeningSeated states, nothing else changes |
| BracketEngine.DoubleEliminationStrategy.Build | app/engine/bracket_engine.py:19-72 | the table becomes the laid-out, seeded bracket for the seeded competitors |
| BracketEngine.DoubleEliminationStrategy.Generate | app/bracket_logic.py:23-28 | fewer than two competitors give no matches; otherwise R = (n-1).bit_length() and the table is the generated bracket after advance (app/engine/bracket_engine.py:17), so every seat past the opening round holds what its feeder sends and a match is next_up exactly when it is full; with five competitors lower match (0, 1) is left empty and waiting |
| BracketEngine.DoubleEliminationStrategy.FillPlayer | app/engine/bracket_engine.py:141-154 | the table and flag are exactly FillAt's |
| BracketEngine.DoubleEliminationStrategy.RouteMatch | app/engine/bracket_engine.py:86-137 | the table and flag are exactly Process's for that match |
| BracketEngine.DoubleEliminationStrategy.Advance | app/engine/bracket_engine.py:78-139 | the loop ends settled, with the same keys, completed results frozen, upper round 0 untouched, unfed seats unchanged and a match with two unfed empty seats still waiting; a seat changes only to a player and only when its feeder match was decided at the start (or it is the reset after a decided grand final 0); a status changes only from waiting to next_up and only for a match whose two seats end up taken (or the reset); if no match started waiting with both seats taken, none ends so; on a table that is already settled it changes nothing, so a second advance is a no-op |
| BracketEngine.DoubleEliminationStrategy.RunPass | app/engine/bracket_engine.py:84-137 | the table and flag are exactly Pass's |
| DictBracket.PairConsecutive | old/app.py:199-206 | pairs winners 2k and 2k+1 into match k with fresh ids; an odd last one meets a BYE and wins |
| DictBracket.PairUp | old/app.py:199-206 | the loop builds exactly PairConsecutive |
| DictBracket.FieldSize | old/app.py:55 | `1 << (n-1).bit_length()` is at least n |
| DictBracket.Padded | old/app.py:55-59 | the seeds, then BYEs up to the field size |
| DictBracket.PadWithByes | old/app.py:55-59 | the loop builds exactly Padded |
| DictBracket.PairHalves | old/app.py:61-76 | P/2 matches, match i seating seeded[i] against seeded[P-1-i], a BYE in player 2 winning for player 1 |
| DictBracket.PairHalvesLoop | old/app.py:61-76 | the loop builds exactly PairHalves |
| DictBracket.Generated | old/app.py:45-80 | fewer than two competitors give empty upper and lower (and no grand final); otherwise upper is the one round of PairHalves over the padded field, lower is emptied and no other key changes (app.py:45-80 is the same) |
| DictBracket.Saved | old/app.py:38-42 | `save_tournament_data` sorts competitors by pp descending, as a permutation; nothing else changes |
| DictBracket.FirstInRow | old/app.py:152-160 | the first match of a round with the id and a seat the winner id names |
| DictBracket.FirstCell | old/app.py:145-165 | the first such match over the rounds; None means none exists |
| DictBracket.FirstCellIs | old/app.py:145-165 | conversely, such a match with none before it is the one found |
| DictBracket.FindCell | old/app.py:145-165 | the nested loop returns exactly FirstCell |
| DictBracket.WithWinner | old/app.py:137-165 | definition: the record with the first qualifying match, if any, decided for the named seat (its effect is stated by DictBracket.WinnerOnlyThere) |
| DictBracket.Decide | old/app.py:153-160 | the named seat becomes the winner; no other field changes |
| DictBracket.PlaceWrites | old/app.py:145-165 | writing the found match changes only that cell |
| DictBracket.WinnerOnlyThere | old/app.py:137-168 | set_winner changes only the first matching match's winner, to the named seat; with no match nothing changes (app.py:135-167 is the same, without grand finals) |
| DictBracket.Winners | old/app.py:188 | the winners of a decided round, in order |
| DictBracket.Loser | old/app.py:193 | the loser is one of the two seats; when the seats have different ids it is the seat that did not win |
| DictBracket.Tagged | old/app.py:190-195 | the loser gets `dropped_from_round`; nothing else changes |
| DictBracket.TagRound | old/app.py:190-195 | matches with two ids get their loser tagged; the others stay as they are |
| DictBracket.Losers | old/app.py:190-195 | every collected loser has an id and the round's tag; none are collected iff no match has two ids |
| DictBracket.CollectLosers | old/app.py:190-195 | the loop builds exactly TagRound and Losers |
| DictBracket.UpperStep | old/app.py:182-206 | runs iff the last upper round is fully decided (and, when corrected, not yet processed); then its losers are collected and tagged, and a new round of PairConsecutive over the winners is appended iff there is more than one winner; nothing else changes (app.py:176-204 is the same) |
| DictBracket.RunUpperStep | old/app.py:182-206 | the loop computes exactly UpperStep as written |
| DictBracket.UpperStepOnce | old/app.py:182-206 | with the corrected guard, the call after an upper step collects nobody |
| DictBracket.PairFlat | old/app.py:199-206 | the paired matches seat the whole pool in order, then a BYE when its size is odd |
| DictBracket.SortedTwo | old/app.py:40 | two competitors with different pp are saved in pp order |
| DictBracket.FirstUpperStep | old/app.py:182-206 | two players, Alice having beaten Bob: the upper step tags and drops Bob and adds no round |
| DictBracket.RepeatedUpperStep | old/app.py:187 | on that state the step as written drops Bob again, and the corrected one does nothing |
| OldApp.LowerStep | old/app.py:214-252 | the lower step appends at most one round, changes nothing but lower and the id counter |
| OldApp.FirstLower | old/app.py:214-224 | on an empty lower bracket at most one round is created |
| OldApp.LaterLower | old/app.py:227-252 | on a non-empty lower bracket at most one round is appended |
| OldApp.FirstLowerRound | old/app.py:214-224 | with no losers nothing happens; otherwise the one new round seats the losers sorted by pp descending (a permutation), paired in order |
| OldApp.LaterLowerRound | old/app.py:227-252 | a new round appears only when the last lower round is decided and at least two players result, and seats the last round's winners plus the new losers sorted by (dropped_from_round or 999, -pp); with fresh ids the check at line 251 never blocks it |
| OldApp.FinalsStep | old/app.py:256-285 | a grand final is created iff none exists, the last upper round is one decided match and the last lower round is one decided match with no loser dropped in this call; it seats the upper champion against the lower champion with no winner; loser_pool is deleted |
| OldApp.DropKey | old/app.py:241 | definition: the lower-bracket sort key, the round a player dropped from (999 when absent), then pp from highest |
| OldApp.UpperChampion | old/app.py:256-263 | definition: the winner of a one-match decided last upper round (used in the contract of OldApp.FinalsStep) |
| OldApp.LowerChampion | old/app.py:264-271 | definition: the winner of a one-match decided last lower round, taken only when this call dropped no loser (used in the contract of OldApp.FinalsStep) |
| OldApp.Advance | old/app.py:173-287 | one call: earlier upper rounds are kept and at most one upper round is added; the lower bracket only gains at most one round at its end; an existing grand final is kept; loser_pool is removed; competitors are saved as a pp-sorted permutation |
| OldApp.OldTournament.constructor | old/app.py:30-36 | holds the loaded tournament data |
| OldApp.OldTournament.GenerateBracket | old/app.py:45-80 | the data becomes Saved(Generated(old)) |
| OldApp.OldTournament.SetWinner | old/app.py:137-171 | the winner is recorded over upper, lower and grand final, then advance runs as written, whether or not a match was found |
| OldApp.OldTournament.RecordWinner | old/app.py:143-165 | the data becomes WithWinner over all three brackets |
| OldApp.OldTournament.AdvanceRoundIfReady | old/app.py:173-287 | upper step, lower step, finals step and save, exactly as written |
| OldApp.OldTournament.RunLowerStep | old/app.py:214-252 | the data becomes LowerStep of the old data |
| OldApp.OldTournament.RunFirstLower | old/app.py:214-224 | the data becomes FirstLower of the old data |
| OldApp.OldTournament.RunLaterLower | old/app.py:227-252 | the data becomes LaterLower of the old data |
| OldApp.OldTournament.RunFinalsStep | old/app.py:256-285 | the data becomes FinalsStep of the old data |
| OldApp.AsWrittenNeverCreatesFinals | old/app.py:187 | as written, once the upper final is a decided match between two ids and there is no grand final, a call creates none and leaves the upper final decided, so no sequence of calls ever creates one |
| OldApp.FirstLowerStep | old/app.py:214-224 | two players: the first lower round seats Bob against a BYE |
| OldApp.AfterFirstCall | old/app.py:173-287 | the state after the first call, the same as written or corrected |
| OldApp.SecondLowerStep | old/app.py:227-252 | as written, the second call seats Bob against Bob |
| OldApp.AsWrittenTwoPlayerRun | old/app.py:187 | as written, after two calls the lower bracket holds Bob against Bob and there is no grand final |
| OldApp.CorrectedDropsOnce | old/app.py:187 | corrected, the call after any call collects no loser again (at most once; that every loser is seated is not claimed, see Left out) |
| OldApp.CorrectedTwoPlayerRun | old/app.py:173-287 | corrected, the second call creates the grand final Alice against Bob, and a further call changes nothing (the idempotence the doc comment at lines 175-176 claims) |
| OldApp.SecondCorrectedCall | old/app.py:256-285 | the corrected second call reaches the finished state |
| OldApp.ThirdCorrectedCall | old/app.py:173-287 | the corrected third call changes nothing |
| OldApp.LaggingSorted | old/app.py:38-42 | the saved four-player records are already in pp order |
| OldApp.LaggingUpperStep | old/app.py:182-206 | the corrected step processes the decided upper final and drops Ben |
| OldApp.CaughtUpUpperStep | old/app.py:187 | once the upper final carries its tag, the corrected step does nothing |
| OldApp.CaughtUpFinals | old/app.py:256-285 | with Cid the lower champion and no loser dropped, the grand final Ann against Cid is created |
| OldApp.CorrectedSkipsLaggingLoser | old/app.py:173-287 | corrected, an upper final decided while the lower round is open drops Ben on a call that cannot seat him; after Cid wins, the grand final is Ann against Cid and Ben never enters the lower bracket |
| OldApp.CaughtUpUpperAsWritten | old/app.py:187 | as written, the step drops Ben again from the tagged upper final |
| OldApp.CaughtUpLowerAsWritten | old/app.py:227-252 | as written, Cid and Ben are paired into a new lower round |
| OldApp.AsWrittenSeatsLaggingLoser | old/app.py:173-287 | as written, the same record seats Ben against Cid in the lower bracket |
| PoolApp.PoolUpperStep | app.py:176-209 | the upper step, then its tagged losers are appended to loser_pool (created when missing); without an upper step nothing changes |
| PoolApp.LowerStep | app.py:216-248 | appends at most one lower round and changes nothing but lower, loser_pool and the id counter |
| PoolApp.FirstLower | app.py:216-224 | on an empty lower bracket at most one round is created |
| PoolApp.LaterLower | app.py:227-248 | on a non-empty lower bracket at most one round is appended |
| PoolApp.FirstLowerFromPool | app.py:216-224 | a first lower round is created iff the pool has at least two players; it seats the whole pool in pool order and pops it; otherwise nothing changes |
| PoolApp.LaterLowerMerge | app.py:227-248 | a new round appears iff the last lower round is decided and its winners plus the pool number at least two; it seats them in that order; the pool is popped whenever the last round is decided; the guard at line 247 never blocks |
| PoolApp.Advance | app.py:169-250 | one call: earlier upper rounds are kept and at most one upper round is added; the lower bracket only gains at most one round at its end; the grand final is untouched; competitors are saved as a pp-sorted permutation |
| PoolApp.PoolTournament.constructor | app.py:30-36 | holds the loaded tournament data |
| PoolApp.PoolTournament.GenerateBracket | app.py:45-80 | the data becomes Saved(Generated(old)) |
| PoolApp.PoolTournament.SetWinner | app.py:137-167 | the winner is recorded over upper and lower only, then advance runs as written, whether or not a match was found |
| PoolApp.PoolTournament.RecordWinner | app.py:143-163 | the data becomes WithWinner over upper and lower |
| PoolApp.PoolTournament.AdvanceRoundIfReady | app.py:169-250 | pool upper step, lower step and save, exactly as written; there is no grand-final step |
| PoolApp.PoolTournament.RunPoolUpper | app.py:176-209 | the data becomes PoolUpperStep of the old data |
| PoolApp.PoolTournament.RunFirstLower | app.py:216-224 | the data becomes FirstLower of the old data |
| PoolApp.PoolTournament.RunLaterLower | app.py:227-248 | the data becomes LaterLower of the old data |
| PoolApp.AfterFirstCall | app.py:169-250 | two players: after the first call Bob alone is in loser_pool |
| PoolApp.AsWrittenPoolRun | app.py:207-209 | as written, the second call seats Bob against Bob in the first lower round |
| PoolApp.SecondPoolUpper | app.py:207-209 | as written, the second call appends Bob to loser_pool again |
| PoolApp.SecondLower | app.py:216-224 | a pool of Bob and Bob is paired into Bob against Bob |
| PoolApp.CorrectedPoolOnce | app.py:207-209 | corrected, the call after any call adds nobody to loser_pool |
| PoolApp.CorrectedPoolRun | app.py:169-250 | corrected, the second call leaves the state of the first (the idempotence the doc comment at line 172 claims) |
| MatchService.Find | app/services/match_service.py:13-31 | the first match with the id in the order upper rounds, lower rounds, grand final, previous_gf; None means no match has it |
| MatchService.FindMatch | app/services/match_service.py:13-31 | the loop returns exactly Find |
| MatchService.ScoreError | app/services/match_service.py:57-67 | no error iff both scores are integers in 0..4 and not 4-4; "Invalid score values." for a non-integer, "Scores must be between 0-4 (Best of 7 format)." for an integer outside 0..4, and "Both players cannot have 4 points." for 4-4 |
| MatchService.Scored | app/services/match_service.py:73-96 | the scores and room are stored; a winner is set iff a score is 4, player 1 first, with status completed; otherwise in_progress when a score is positive, else the old status or next_up |
| MatchService.MatchStore.constructor | app/services/match_service.py:9-11 | holds the loaded brackets |
| MatchService.MatchStore.StartMatch | app/services/match_service.py:33-40 | True iff the match exists; only its status changes, to in_progress |
| MatchService.MatchStore.ResetMatch | app/services/match_service.py:42-53 | True iff the match exists; it becomes next_up with no winner, 0-0 and no room |
| MatchService.MatchStore.SetMatchScore | app/services/match_service.py:55-99 | score errors come first, then "Match not found.", then a non-empty room URL without the rooms path is refused; each refusal changes nothing; otherwise the match becomes Scored and the brackets are what advance makes of them |
| MatchService.MatchStore.SetWinner | app/services/match_service.py:101-120 | an unknown match or a winner id naming neither seat is refused with no change; otherwise the named seat wins 4-0 or 0-4, completed, and advance runs |
| MatchService.MatchStore.SetMatchRoom | app/services/match_service.py:293-308 | an unknown match, or a non-empty URL without the rooms path, is refused with no change; otherwise the URL is stored, an empty one being reported as cleared |
| MatchService.LastScore | app/services/match_service.py:159-163 | a player has a score iff one of the map's scores is theirs, and it is the totalScore of the last such entry (the loop overwrites an earlier one) |
| MatchService.MapPoint | app/services/match_service.py:159-173 | player 1 gets the point iff it has a score and player 2 has none or a lower one, and symmetrically for player 2 (whose scores only count when the ids differ); otherwise nobody does |
| MatchService.Points | app/services/match_service.py:152-177 | the two players' points together never exceed the number of maps whose scores were fetched |
| MatchService.MapPointSwap | app/services/match_service.py:159-173 | for distinct players, swapping them swaps the map's point |
| MatchService.PointsSwap | app/services/match_service.py:152-177 | for distinct players, swapping them swaps the tally |
| MatchService.MatchOutcome | app/services/match_service.py:141-190 | no room is "error", no playlist is "no_playlist"; otherwise the win counts are Points of the playlist, and the status is "completed" iff a player has 4, "in_progress" iff both are below 4 with some point, and "no_scores" iff the tally is 0-0; "completed" names player 1 at 4 first, else player 2 |
| MatchService.OutcomeSwap | app/services/match_service.py:141-190 | for distinct players, unless both reach 4, swapping them keeps the status and winner and swaps the win counts |
| MatchService.KeptScores | app/services/match_service.py:159-163 | the loop keeps exactly the last score of each player (player 2 is not matched when the ids are equal) |
| MatchService.CountMap | app/services/match_service.py:165-173 | the loop awards exactly MapPoint |
| MatchService.GetMatchResults | app/services/match_service.py:141-190 | the loop computes exactly MatchOutcome |
| HttpEvents.LiveLoc | app/http_events.py:18-47 | the live match is the grand final if it is in_progress or next_up, else the first such match in the upper rounds, else in the lower rounds; None means no match is live |
| HttpEvents.GetCurrentMatchData | app/http_events.py:8-64 | reports the LiveLoc match with its label and round index (0 for the grand final), or "No active or upcoming matches found" |
| HttpEvents.EarlierNextUpWins | app/http_events.py:26-35 | an earlier next_up match is chosen over a later in_progress one |
| SeedingService.SeedingTotals | app/services/seeding_service.py:40-69 | no room or an empty playlist gives no totals; otherwise a competitor has a total iff it scored above 0, and the total is the sum of its scores over the maps |
| SeedingService.GetSeedingScores | app/services/seeding_service.py:30-73 | the loops compute exactly SeedingTotals |
| SeedingService.CompetitorIds | app/services/seeding_service.py:109 | the non-zero ids of the competitors |
| SeedingService.Scoring | app/services/seeding_service.py:124-131 | a participant gets its total as seeding_score; a non-participant loses seeding_score and provisional_placement |
| SeedingService.Seeded | app/services/seeding_service.py:124-131 | the participants' positions, each scored one exactly once, in list order |
| SeedingService.Ranked | app/services/seeding_service.py:134 | definition: the participants stably sorted by descending total (stated by RankedMembers, RankedDistinct and RankedDescending) |
| SeedingService.PermutationDistinct | app/services/seeding_service.py:134 | a permutation of a repeat-free list is repeat-free |
| SeedingService.RankedMembers | app/services/seeding_service.py:134 | the sorted participants are exactly the participants |
| SeedingService.RankedDistinct | app/services/seeding_service.py:134 | nobody is ranked twice |
| SeedingService.RankedDescending | app/services/seeding_service.py:134-137 | provisional placements follow descending seeding score |
| SeedingService.ScoreAll | app/services/seeding_service.py:124-131 | the loop applies Scoring to every competitor and collects Seeded |
| SeedingService.PlaceAll | app/services/seeding_service.py:136-137 | the i-th ranked competitor gets provisional placement i+1; nobody else changes |
| SeedingService.Updated | app/services/seeding_service.py:120-139 | definition: each participant carries its total and its rank as provisional placement, every other competitor only Scoring (the contract of UpdateSeedingScores) |
| SeedingService.Finalized | app/services/seeding_service.py:149-154 | a competitor with a provisional placement takes it as placement and loses both temporary keys; others are untouched |
| SeedingService.CountProvisional | app/services/seeding_service.py:149-154 | the count never exceeds the number of competitors |
| SeedingService.SeedingDesk.constructor | app/services/seeding_service.py:7-9 | holds the loaded seeding keys |
| SeedingService.SeedingDesk.StartSeeding | app/services/seeding_service.py:75-98 | an empty URL, a URL without a non-zero room id, or a room that cannot be opened is refused with no change; otherwise the URL, the room id and seeding_in_progress are stored and the reply is "Seeding room set! Players can now play seeding maps." |
| SeedingService.SeedingDesk.UpdateSeedingScores | app/services/seeding_service.py:100-140 | no room id, no competitors or no scores are refused with no change; otherwise the reply is "Updated seeding scores for k players." with k the number of participants, every competitor gets Scoring's score and the ranked participants get provisional placements 1..k in ranked order (descending score, RankedDescending) |
| SeedingService.SeedingDesk.ApplyScores | app/services/seeding_service.py:120-140 | competitors get exactly those scores and placements, and the count returned is the number of ranked participants |
| SeedingService.SeedingDesk.FinalizeSeeding | app/services/seeding_service.py:142-164 | every competitor is Finalized, the count is the number converted, the three seeding keys are removed, and the reply is "Seeding finalized for N players and bracket regenerated." with N that count |
| SeedingService.FinalizeTwiceCountsNothing | app/services/seeding_service.py:149-154 | finalizing again converts nobody |
| SeedingService.NoProvisionalCountsZero | app/services/seeding_service.py:149-154 | with no provisional placement the count is 0 |
| SeedingService.SeedingSavesInPlace | app/data_manager.py:13-17 | the seeding updates change no pp, so a pp-ordered list is saved in the order the desk keeps |
| Streaming.AfterMarker | app/services/streaming_service.py:15-16 | `split('twitch.tv/')[-1]`: the text after the last marker, or the whole input without one |
| Streaming.Clean | app/services/streaming_service.py:19 | only `[A-Za-z0-9_]` characters remain, each as often as in the input; a clean name is kept |
| Streaming.CleanChar | app/services/streaming_service.py:19 | one character is kept iff it is in the class |
| Streaming.CleanFirst | app/services/streaming_service.py:19 | a text's first character is kept iff it is in the class, then the rest is cleaned |
| Streaming.CleanFirstOf | app/services/streaming_service.py:19 | the same for a text followed by another |
| Streaming.CleanConcatStep | app/services/streaming_service.py:19 | cleaning distributes over a text and b when it does over the text's tail and b |
| Streaming.CleanConcat | app/services/streaming_service.py:19 | cleaning a concatenation is the concatenation of the cleaned parts |
| Streaming.ChannelName | app/services/streaming_service.py:9-22 | an empty input is refused as required; any other is refused as invalid iff the cleaned text after the marker is empty, and otherwise that cleaned text is the name, non-empty and clean |
| Streaming.NameHasNoMarker | app/services/streaming_service.py:19 | a clean name never contains the marker |
| Streaming.BareNameKept | app/services/streaming_service.py:9-22 | a bare channel name is accepted unchanged |
| Streaming.UrlMarker | app/services/streaming_service.py:15-16 | the text after the marker of a Twitch URL is the name |
| Streaming.UrlReducedToName | app/services/streaming_service.py:9-22 | `https://www.twitch.tv/<name>` is reduced to the name |
| Streaming.StreamSettings.constructor | app/services/streaming_service.py:5-7 | holds the loaded stream keys |
| Streaming.StreamSettings.SetStreamChannel | app/services/streaming_service.py:9-28 | a refused name changes nothing and returns its message; otherwise the name is stored and reported; the live flag is untouched |
| Streaming.StreamSettings.ToggleStream | app/services/streaming_service.py:30-45 | with no channel it is refused with no change; otherwise stream_live flips (missing counts as False) and the reply says which |
| Streaming.StreamSettings.ClearStream | app/services/streaming_service.py:47-55 | both keys are removed |
| PlayerRoutes.SplitLines | app/routes/player_routes.py:66 | a paste has at least one line |
| PlayerRoutes.BeatmapId | app/routes/player_routes.py:71 | definition: the number after the first `#osu/`, else after the first `/` a digit follows (stated by AnchorLink, SlashLink and StoredLinkRoundTrip) |
| PlayerRoutes.JoinSplit | app/routes/player_routes.py:66 | joining the lines with newlines gives the paste back |
| PlayerRoutes.LineIds | app/routes/player_routes.py:66-75 | never more ids than lines |
| PlayerRoutes.LineIdsMeaning | app/routes/player_routes.py:66-75 | accepted iff every non-blank line yields an id, and then the ids are those of the non-blank lines in order; otherwise the message names the first line without one |
| PlayerRoutes.PastedIds | app/routes/player_routes.py:60-78 | a blank paste falls through to the room branch; otherwise it is accepted iff every line parses and there are exactly 10 ids |
| PlayerRoutes.ParseMapLinks | app/routes/player_routes.py:60-78 | the loop computes exactly PastedIds |
| PlayerRoutes.ReadIds | app/routes/player_routes.py:66-75 | the loop computes exactly LineIds |
| PlayerRoutes.AnchorLink | app/routes/player_routes.py:71 | a link carrying `#osu/<n>` yields n |
| PlayerRoutes.StoredLinkRoundTrip | app/routes/player_routes.py:132-135 | the stored `beatmapsets/<set>#osu/<n>` URL parses back to beatmap n |
| PlayerRoutes.SlashLink | app/routes/player_routes.py:71 | a link ending in `/<n>` without an anchor yields n |
| MatchAction.Opponent | app/routes/player_routes.py:312-313 | the other seat |
| MatchAction.WithUsage | app/routes/player_routes.py:462-550 | records one player's ability usage; the other's is untouched |
| MatchAction.Precheck | app/routes/player_routes.py:349-395 | definition: the pick lock, then the turn check for bans and picks, the counter check, and the ability-timing check (their effect: BanRule, PickRule, CounterRules) |
| MatchAction.ActionCheck | app/routes/player_routes.py:397-582 | definition: the checks inside each action branch (stated by BanRule, PickRule, ForceRules, PersonalModRule, CounterRules) |
| MatchAction.Effect | app/routes/player_routes.py:397-582 | definition: the change each accepted action makes (kept valid: StepKeepsValid) |
| MatchAction.Step | app/routes/player_routes.py:349-582 | definition: refused with 400 at the first failing check, otherwise accepted with Effect (kept valid: StepKeepsValid) |
| MatchAction.Handle | app/routes/player_routes.py:309-591 | definition: 403 for a user in neither seat, else Step on the stored or fresh state (stated by OnlySeatedPlayers and HandleKeepsValid) |
| MatchAction.InitialValid | app/routes/player_routes.py:318-346 | the fresh state is in the ban phase with the first player to move, and satisfies the invariant |
| MatchAction.StepKeepsValid | app/routes/player_routes.py:352-582 | an accepted request keeps the invariant: at most six distinct bans, the ban phase exactly until the sixth, picks distinct, unbanned and numbered 1.., personal mods at most two, a counter never offered to its own personal-mod player |
| MatchAction.BanKeepsValid | app/routes/player_routes.py:378-423 | a ban keeps the invariant |
| MatchAction.PickKeepsValid | app/routes/player_routes.py:425-456 | a pick keeps the invariant |
| MatchAction.OtherKeepsValid | app/routes/player_routes.py:462-582 | the ability actions keep the invariant |
| MatchAction.UsageKeepsValid | app/routes/player_routes.py:462-582 | changing usage, mods and counter within bounds keeps the invariant |
| MatchAction.HandleKeepsValid | app/routes/player_routes.py:273-591 | every accepted request on a valid or fresh state gives a valid state |
| MatchAction.OnlySeatedPlayers | app/routes/player_routes.py:309-313 | only a seated player is ever accepted; anyone else gets 403 |
| MatchAction.BanRule | app/routes/player_routes.py:378-423 | a ban is accepted iff it is the ban phase, the player's turn and the map is not banned; it is appended, the turn passes, and at six bans the pick phase starts with player 1 |
| MatchAction.PickRule | app/routes/player_routes.py:352-357 | a pick is accepted iff the scores have caught up with the picks, it is the pick phase, the player's turn and the map is neither banned nor picked (lines 425-456); it is recorded with the next order and the turn passes |
| MatchAction.ForceRules | app/routes/player_routes.py:462-494 | Force NoMod and Force Mod are each accepted iff it is the player's time and unused (Force Mod also needs a mod); each sets the map's mod and marks only that player's usage |
| MatchAction.PersonalModRule | app/routes/player_routes.py:496-550 | accepted iff it is the player's time, fewer than two were used and a mod is chosen; the counter is opened for the opponent iff the opponent's Force NoMod is unused |
| MatchAction.CounterRules | app/routes/player_routes.py:552-582 | a counter is accepted iff one is pending for the player and their Force NoMod is unused, then the map is NoMod and the counter removed; skip is accepted iff one is pending and only removes it |
| MatchAction.MatchRoom.constructor | app/routes/player_routes.py:318-346 | holds the stored match state, if any |
| MatchAction.MatchRoom.Act | app/routes/player_routes.py:273-591 | the reply is Handle's, and the state is saved iff the request is accepted (line 587) |
| MatchAction.MatchRoom.Start | app/routes/player_routes.py:318-346 | the state becomes the fresh state for the chosen first player |
| MatchAction.MatchRoom.Apply | app/routes/player_routes.py:378-582 | the state becomes the accepted request's effect |
| MatchAction.MatchRoom.ApplyAbility | app/routes/player_routes.py:462-550 | the state becomes the ability's effect |
| MatchAction.MatchRoom.SetUsage | app/routes/player_routes.py:462-550 | the state records the new usage |
| AdminRoutes.MainAdminsRecognised | config.py:19 | both configured main-admin ids are recognised from their integer form |
| AdminRoutes.NegativeNotMainAdmin | config.py:19 | a negative id prints with a minus sign and is never a main admin |
| AdminRoutes.MainAdminDigits | config.py:19 | a natural number whose decimal string is a configured id is that id |
| AdminRoutes.MainAdminsExactly | config.py:19 | `str(user_id) in ADMIN_OSU_ID` holds exactly for the two configured ids, both directions |
| AdminRoutes.Without | app/routes/admin_routes.py:1029-1031 | `list.remove` when present: one entry fewer and no other id affected; otherwise the list itself |
| AdminRoutes.WithoutNoDup | app/routes/admin_routes.py:1029-1031 | removing from a repeat-free list leaves it repeat-free and without the id |
| AdminRoutes.AppendNoDup | app/routes/admin_routes.py:1002-1003 | appending a missing id keeps a list repeat-free |
| AdminRoutes.GrantHost | app/routes/admin_routes.py:990-1005 | a no-op for an existing host or full admin; otherwise the id is appended to the hosts; full admins untouched |
| AdminRoutes.RevokeHost | app/routes/admin_routes.py:1029-1031 | removes the id from the hosts only |
| AdminRoutes.GrantAdmin | app/routes/admin_routes.py:1058-1072 | a no-op for an existing full admin; otherwise the id is moved from the hosts to the full admins |
| AdminRoutes.RevokeAdmin | app/routes/admin_routes.py:1096-1104 | a main admin, or an id not in the list, is never removed; otherwise the id leaves the full admins |
| AdminRoutes.PermissionEditsKeepValid | app/routes/admin_routes.py:976-1114 | every grant and revoke keeps both lists repeat-free and disjoint, and a revoked non-main id is gone |
| AdminRoutes.GrantsGiveAccess | app/routes/admin_routes.py:28-72 | after a grant the user passes host_required, and after an admin grant also full_admin_required |
| AdminRoutes.HostAccess | app/routes/admin_routes.py:28-49 | definition: an admin session with a non-zero id that is a host, a full admin or a main admin |
| AdminRoutes.FullAccess | app/routes/admin_routes.py:52-72 | definition: the same without hosts (FullAccessIsHostAccess relates the two) |
| AdminRoutes.FullAccessIsHostAccess | app/routes/admin_routes.py:28-72 | passing full_admin_required (lines 56-69) implies passing host_required (lines 32-46) |
| AdminRoutes.PermissionLists.constructor | app/routes/admin_routes.py:976-1114 | holds the loaded permission lists |
| AdminRoutes.PermissionLists.GrantHostPerms | app/routes/admin_routes.py:976-1013 | a non-numeric or unknown user is refused with no change; otherwise the lists become GrantHost's, reported as info when already granted |
| AdminRoutes.PermissionLists.RevokeHostPerms | app/routes/admin_routes.py:1016-1041 | a non-numeric id is refused; otherwise the lists become RevokeHost's; the reply is info when the id was not a host, and an error when the user is unknown |
| AdminRoutes.PermissionLists.GrantAdminPerms | app/routes/admin_routes.py:1044-1080 | a non-numeric or unknown user is refused with no change; otherwise the lists become GrantAdmin's |
| AdminRoutes.PermissionLists.RevokeAdminPerms | app/routes/admin_routes.py:1083-1114 | a non-numeric id is refused; otherwise the lists become RevokeAdmin's, an error for the main admin |
| AdminRoutes.FirstSignup | app/routes/admin_routes.py:899-904 | the first pending signup with the id; None means there is none |
| AdminRoutes.SignupDesk.constructor | app/routes/admin_routes.py:892-933 | holds the signup keys |
| AdminRoutes.SignupDesk.ApproveSignup | app/routes/admin_routes.py:892-933 | an unknown signup is an error with no change; an existing competitor is info with nothing saved; otherwise that signup leaves pending_signups and joins competitors, which are then saved in pp order (SaveOrder) |
| AdminRoutes.SignupDesk.ToggleSignups | app/routes/admin_routes.py:959-972 | signups_locked flips (missing counts as unlocked), the message says which, and the save re-sorts competitors by pp |
| AdminRoutes.TieTarget | app/routes/admin_routes.py:715-745 | the first match, upper then lower then grand final, satisfying the query; None means none does |
| AdminRoutes.ScanTieTarget | app/routes/admin_routes.py:715-745 | the loop returns exactly TieTarget |
| AdminRoutes.TiebreakerDesk.constructor | app/routes/admin_routes.py:705-805 | holds the loaded brackets |
| AdminRoutes.TiebreakerDesk.SetTiebreakerMap | app/routes/admin_routes.py:705-755 | an empty id, or no match with the id standing 3-3, is an error with no change; otherwise the URL, stripped of surrounding whitespace (line 710), is stored on the first such match (lines 727-729, 736-738) |
| AdminRoutes.TiebreakerDesk.ClearTiebreakerMap | app/routes/admin_routes.py:758-805 | an empty id, or no match with the id, is an error with no change; otherwise the tiebreaker is removed from the first match with the id (lines 778-779, 786-787) |
| AdminRoutes.TiebreakerOnlyAtThreeAll | app/routes/admin_routes.py:727-738 | a match chosen for a tiebreaker stands 3-3 |
| AdminRoutes.VictoryWinner | app/routes/admin_routes.py:570-576 | player 1 at 4 points or on a tie; for valid scores player 2 wins iff it has more points |
| Overlay.DefaultState | app/overlay_state.py:21-27 | afk_mode False, victory_screen_hidden False, no events, the current time |
| Overlay.LastN | app/overlay_state.py:60 | `s[-n:]`: the last min(len, n) elements |
| Overlay.WithEvent | app/overlay_state.py:59-60 | at most 10 events with the new one last, the survivors being the newest earlier events in order |
| Overlay.Updated | app/overlay_state.py:32-34 | the given keys overwrite the state's, the others are kept, last_updated is the time |
| Overlay.EventAdded | app/overlay_state.py:44-69 | fails only when events is not a list; otherwise events gains the {type, data or {}, timestamp} record through WithEvent and no other key but last_updated changes |
| Overlay.EventsCleared | app/overlay_state.py:74-75 | events is empty and no other key but last_updated changes |
| Overlay.OverlayStore.constructor | app/overlay_state.py:10-27 | holds the state file, if any |
| Overlay.OverlayStore.Current | app/overlay_state.py:12-27 | the stored state, or the default when there is none |
| Overlay.OverlayStore.UpdateOverlayState | app/overlay_state.py:29-42 | True iff the write succeeds, and then the file holds Updated's state; otherwise it is unchanged |
| Overlay.OverlayStore.AddOverlayEvent | app/overlay_state.py:44-69 | True iff the event can be added and written, and then the file holds EventAdded's state |
| Overlay.OverlayStore.ClearOverlayEvents | app/overlay_state.py:71-84 | True iff the write succeeds, and then the file holds EventsCleared's state |

## Left out

- Flask plumbing (sessions, `flash`, `redirect`, templates) is not modelled; replies are values.
- osu! API calls are not modelled. This covers the room branch of `upload_mappool`, `refresh_match_scores`, `cache_all_match_details` and `app/utils/match_utils.py`. Room availability (`roomOpens`) and user lookup (`userKnown`) are parameters.
- `app/websocket_events.py` is not part of this model (event push only).
- Persistence is not modelled: `app/data_manager.py`, `app/models.py` and the ORM. The data is a value held by each class. Of `save_tournament_data` only its stable re-sort of the competitors by pp is modelled (`DictBracket.Saved`, `SiteData.SaveOrder`, applied by the `AdminRoutes.SignupDesk` methods).
- Clocks and the coin flip are parameters (`now`, `first`); uuids are a counter (`next`).
- pp and other floats are modelled as integers.
- The lookup of the match before `match_action`, `action_history`, `map_name` and the counter's display name are not modelled.
- `str.splitlines` is modelled as a split on `'\n'` only; whitespace and digits are ASCII only.
- MatchService.MatchStore.SetMatchScore: the bracket's `advance` is an abstract function parameter rather than one of the engines. The method itself never saves (match_service.py:98 only passes the edited data on, unlike start_match and reset_match at lines 38 and 51), and the `advance_round_if_ready` it imports (app/bracket_logic.py:31-43) takes its argument as a tournament id and works on database rows. The model takes `advance`'s result as the saved state, as old/app.py's `advance_round_if_ready` saves its data; it does not promise that the JSON file is written.
- MatchService.MatchStore.SetWinner: the same as SetMatchScore: the method does not save (match_service.py:119), and the model takes `advance`'s result as the saved state.
- SeedingService.SeedingDesk.FinalizeSeeding: the bracket regeneration that follows is not modelled. The same holds for the regeneration after AdminRoutes.SignupDesk.ApproveSignup.
- SeedingService.SeedingDesk.StartSeeding: when the room cannot be opened, the contract gives only the error kind, not its text, which comes from the osu! API call.
- The overlay's file errors are modelled by the `writable` parameter; a state file that does not parse as JSON is not modelled.
- `reject_signup` and the other admin routes that only render pages or call the osu! API are not modelled.
- `test/routes_backup.py` is an older copy of the routes and is not part of this model.
- Tests that call `set_match_score` with three arguments are stale against the service and are not modelled.
- SeedingService.SeedingDesk: its methods keep the competitors list in the order it holds and do not re-sort it by pp on save. `SeedingService.SeedingSavesInPlace` shows the re-sort would change nothing when the list was pp-ordered before, as every earlier save leaves it, because these methods change no pp.
- OldApp.OldTournament.AdvanceRoundIfReady and PoolApp.PoolTournament.AdvanceRoundIfReady model the code as written. The pure `Advance` with the correction flag models only the corrected guard of the Findings table.
- OldApp.CorrectedDropsOnce: the correction stops an upper round's losers being collected twice, but old/app.py with that guard alone still does not seat every loser. When the upper final is decided while the last lower round is open, its loser is dropped on a call where the lower step cannot use him, and is never collected again (`OldApp.CorrectedSkipsLaggingLoser`: Ben never plays in the lower bracket and the grand final is Ann against Cid). No member states that each loser is seated exactly once; holding losers between calls, as app.py's `loser_pool` does (`PoolApp`), is what that needs.

## Findings

| source | as written | input that shows it | evidently intended | confidence | as-written member | corrected member |
|---|---|---|---|---|---|---|
| old/app.py:187 | the second conjunct `len(upper) == last_index + 1` always holds, so a decided upper round's losers are collected again on every call | two players, Alice beats Bob, then `advance_round_if_ready` is called twice | each upper round's losers are collected once, and the grand final Alice vs Bob is created; seating a loser collected while the lower bracket lags is not covered by this correction (see `OldApp.CorrectedDropsOnce` under Left out) | not executed | OldApp.AsWrittenTwoPlayerRun | OldApp.CorrectedTwoPlayerRun |
| app.py:207-209 | `loser_pool` is extended with the last upper round's losers on every call while that round is complete | two players, Alice beats Bob, then `advance_round_if_ready` is called twice | each loser joins the pool once | not executed | PoolApp.AsWrittenPoolRun | PoolApp.CorrectedPoolRun |
