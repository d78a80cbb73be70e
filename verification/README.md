# Opening fitness: a verified model

This project models, in Dafny, the core of an opening-training application for
chess players. A player keeps playlists of reference lines (opening move
sequences). Each day the application scores the player's finished games by how
far they followed one of those lines. Separately, an opening builder lets the
player assemble a line move by move.

The model covers the following parts:

- **Scorer** (`Scorer`, `LegacyScorer`, in `scorer.dfy`): the Opening Fitness
  Score of app/src/compute_ofs.ts.
  - It combines the depth followed against the reference length, a deviation
    penalty charged to whoever left the line, and the result weight.
  - The score is then rounded half-up to one decimal and clamped to 0..100.
  - The earlier, unused variant in app/ofs.ts measures depth against a fixed
    cap and adds a time component.
  - Arithmetic is over `real`, and `Math.round(x)` is `Floor(x + 0.5)`.
- **Deviation matcher** (`Matcher`, in `matcher.dfy`): `fill_ofs_stats` of
  app/src/util.ts.
  - The game is split on single spaces.
  - A window shrinks from `min(30, plies)` down to 1.
  - At each window, the lines whose first window plies, re-joined, occur
    anywhere in the game are the candidates.
  - The first longest candidate (a stable sort on `moves.length`) gives the
    deviation count, the literal parity rule for `did_you_deviated`, the
    deviator and the score.
  - `FillOfsStats` is the loop. It is proved equal to the function `Fill`,
    and the properties are proved about `Fill`.
  - `is_timestamp_in_today` is `InDay`, with the day's two boundaries passed in
    instead of read from the clock.
- **Daily ledger** (`Ledger`, in `ledger.dfy`): `compute_ofs_and_get_daily` of
  app/src/service.ts, as a method over a class `OfsGameStore` that holds the
  `ofs_games` table.
  - It reads the user's rows.
  - It drops the submitted games it already stores and splits the stored rows
    into today's and older ones.
  - It scores the new games, deletes the older rows and inserts the new ones.
  - It answers with today's games followed by the new ones, plus the ids of the
    lines they matched.
  - The delete and the insert are separate transactions. The primary key is
    the game id alone, so an insert batch that repeats an id (of any user) is
    rolled back as a whole.
  - The proved properties are self-expiry and the untouched rows of other
    users.
  - A repeated call is proved idempotent when every submitted game that is
    already stored has the stored creation time (`SameCreation`). Nothing in
    the source enforces this. A game resubmitted as today's while its stored
    copy is older is dropped by the first call and scored by the second
    (`Ledger.StaleResubmissionScoredLater`).
- **Serialiser** (`ViewJson`, in `view_json.dfy`): the JSON views of
  app/src/view_json.ts.
  - The 0/1 flags are read back as booleans; the round trip with the encoding
    in `insert_many_games` is proved.
  - The pagination page count is `ceil(count / pageSize)`.
- **Notation helpers** (`Steps`, in `steps.dfy`): ui/src/components/steps.ts.
  - Building a chained list of steps from UCI moves.
  - UCI and PGN export.
  - Move-number labels.
  - Reading a single-line PGN.
  - The chess library is the three function fields of `Rules`: the position
    after a move, the SAN of a move, and the move a SAN token reads as.
- **Build history** (`BuildHistory`, in `build_history.dfy`): the opening
  builder's step list, cursor and orientation.
  - This state appears three times in the source: ui/src/state/create_build_store.tsx,
    ui/src/state/OpeningsBuildState.tsx, and the context in
    ui/src/sections/SectionOpenings.tsx.
  - One class, `BuildStore`, models all three.
  - Its `memoCursor` flag tells the writable-memo cursor of create_build_store
    (every replacement of the steps moves the cursor to the last step) from the
    plain-signal cursor of the other two (a replacement leaves the cursor
    alone).
  - It also covers the auto-queen rule for a dragged pawn and the wheel rule.
- Shared pieces: `Text` (in `text.dfy`) holds `split(' ')`, `join(' ')`,
  `slice`, `includes` and the decimal rendering of a number. `Lists` (in
  `lists.dfy`) holds `filter` and `map`. `Types` (in `types.dfy`) holds the records.

Three facts of the code are easy to miss:

- The parity rule (app/src/util.ts:60) flags the user only when the user
  played the last matched ply. White plays odd plies, so a White game that
  follows a line for two plies and then leaves it does not flag the user.
  - The opponent is charged instead.
  - Such a win, two of three plies followed, scores 63.3.
  - The penalty is the same whichever side is charged, so the score is 63.3
    either way.
  - `Matcher.WhiteLeavesAfterTwoPlies` proves this outcome, and
    `Scorer.TwoOfThreeDeviatedWins` proves the score for either deviator.
- The `ofs_games` table's primary key is the game id alone
  (app/src/repository.ts:71), not the pair of user and game.
- The delete and the insert are two transactions (app/src/repository.ts:591
  and 623). A failed insert therefore leaves the deletion applied.

## Model

| member | source | states |
|---|---|---|
| `Scorer.Clamp` | app/src/compute_ofs.ts:4 | The result lies in `[lo, hi]` when `lo <= hi`; it is `v` inside the range, `lo` below it, `hi` above it. |
| `Scorer.Round` | app/src/compute_ofs.ts:33 | `Math.round`: the integer within half a unit of `x`, halves rounded up. |
| `Scorer.RoundTenth` | app/src/compute_ofs.ts:33 | `Math.round(x * 10) / 10` has one decimal and lies within 0.05 of `x`, halves rounded up. |
| `Scorer.Penalty` | app/src/compute_ofs.ts:21-22 | A penalty lies in 0..100. It is the deficit clamped to 0..100 when the named side is the deviator, and 0 otherwise. |
| `Scorer.FinalScore` | app/src/compute_ofs.ts:33 | Round to one decimal, then clamp: the score lies in 0..100 and has at most one decimal. |
| `Scorer.AtLeastOneQuotient` | app/src/compute_ofs.ts:18 | For a positive total, `m / t >= 1` exactly when `m >= t`, and the quotient is non-negative for `m >= 0`. |
| `Scorer.ComputeOFS` | app/src/compute_ofs.ts:6-40 | For `total > 0`: the OFS lies in 0..100 with one decimal; depth lies in 0..100 for `matched >= 0`, is 100 exactly when `matched >= total`, and is `matched / total · 100` below that; each penalty lies in 0..100, is 0 unless its side deviated, and for the deviator is the deficit `(total − matched) / total · 100` clamped to 0..100; win is 100/50/0; raw is `0.6·depth + 0.4·win − 0.5·userDev − 0.5·oppDev`; the OFS is the rounded, clamped raw score. |
| `Scorer.OnePenaltyAtMost` | app/src/compute_ofs.ts:20-22 | At most one of the two deviation penalties is non-zero. |
| `Scorer.RoundMonotone` | app/src/compute_ofs.ts:33 | Rounding preserves order. |
| `Scorer.FinalScoreMonotone` | app/src/compute_ofs.ts:33 | A higher raw score never gives a lower OFS. |
| `Scorer.ResultMonotone` | app/src/compute_ofs.ts:24-33 | With everything else equal, a loss never outscores a draw and a draw never outscores a win. |
| `Scorer.DepthAndPenaltyMonotone` | app/src/compute_ofs.ts:18-22 | More matched plies never lower the depth term and never raise either penalty. |
| `Scorer.MatchedMonotone` | app/src/compute_ofs.ts:18-33 | With the result and deviator fixed, more matched plies never lower the raw score or the OFS. |
| `Scorer.PerfectGame` | app/src/compute_ofs.ts:18-33 | The whole line played, nobody deviating, a win: OFS 100. |
| `Scorer.WorstGame` | app/src/compute_ofs.ts:18-33 | Nothing followed, the user deviating, a loss: OFS 0. |
| `Scorer.TwoOfThreeDeviatedWins` | app/src/compute_ofs.ts:18-33 | Two of three plies followed, either side deviating, a win: OFS 63.3. |
| `LegacyScorer.Factor` | app/ofs.ts:28-29 | `max(0, min(x / scale, 1))` lies in 0..1. |
| `LegacyScorer.LegacyComputeOFS` | app/ofs.ts:6-44 | For `depthCap > 0` (default 30): the OFS lies in 0..100 with one decimal; depth is against the cap: 100 exactly when `matched >= depthCap`, and `matched / depthCap · 100` below that; time lies in 0..100; the deviator's penalty is the deficit `(depthCap − matched) / depthCap · 100` clamped to 0..100, and the other side's is 0; raw is `0.5·depth + 0.2·time + 0.3·win − 0.5·userDev − 0.4·oppDev`. |
| `LegacyScorer.LegacyMatchedMonotone` | app/ofs.ts:22-42 | With the cap, duration, length, result and deviator fixed, more matched plies never lower the raw score or the OFS. |
| `LegacyScorer.DefaultCapDepth` | app/ofs.ts:8 | With the default cap, depth is 100 exactly when 30 or more plies were followed. |
| `LegacyScorer.FullTime` | app/ofs.ts:28-30 | A game of at least 30 minutes and 40 plies earns the full time component. |
| `Matcher.DayIsHalfOpen` | app/src/util.ts:4-11 | The day holds its start and not its end, and two consecutive days share no timestamp. |
| `Matcher.InitialWindow` | app/src/util.ts:19-20 | The first window is `min(30, plies)`, so it lies between 1 and 30 and never exceeds the game's plies. |
| `Matcher.LongestIndexIsFirstLongest` | app/src/util.ts:31 | The sorted head is a longest line, and every line before it is strictly shorter. |
| `Matcher.FirstLongestOfFilter` | app/src/util.ts:24-31 | The chosen candidate sits at a corpus position before which every candidate is strictly shorter. |
| `Matcher.Best` | app/src/util.ts:24-31 | None exactly when no line matches at the window; otherwise a corpus line that matches and is at least as long as every matching line. |
| `Matcher.BestIsEarliest` | app/src/util.ts:24-31 | Ties go to the earliest line in corpus order: every earlier matching line is strictly shorter. |
| `Matcher.SearchFinds` | app/src/util.ts:22-38 | The descending search returns a window between 1 and the start, with no candidate at any larger window; or nothing, with no candidate at any window. |
| `Matcher.NoneAboveAll` | app/src/util.ts:22-38 | A descending check that passed rules out every window of its range. |
| `Matcher.DeviatedMeansPlayedLastMatchedPly` | app/src/util.ts:60 | The literal parity rule flags the user exactly when the user played the last matched ply, that is, exactly when the opponent was to play the next one. |
| `Matcher.Fill` | app/src/util.ts:15-91 | Every submitted field of the game is copied into the result. |
| `Matcher.FillOfsStats` | app/src/util.ts:15-91 | The loop, with `nb_deviation` decremented until some line matches, returns exactly `Fill` of its inputs. |
| `Matcher.JoinedGameIsUcis` | app/src/util.ts:19-25 | Splitting the game on spaces and re-joining gives back the submitted move string. |
| `Matcher.FillNoMatch` | app/src/util.ts:40-53 | When no line matches at any window: OFS 0, depth 0, deviated, 0 plies, no line id, and every submitted field copied. |
| `Matcher.EmptyCorpus` | app/src/util.ts:40-53 | An empty corpus gives the no-match outcome. |
| `Matcher.FillMatchBounds` | app/src/util.ts:33-35 | On a match at window `w`: the line comes from the corpus; its id is reported; `1 <= nb_deviation <= w <= min(30, plies)`; `nb_deviation = min(w, line plies)`; the line's first `w` plies (and its first `nb_deviation`), joined, occur in the game. |
| `Matcher.FillMatchMaximal` | app/src/util.ts:22-38 | On a match at window `w`, no line matches at any larger window up to the start, and no line matching at `w` is longer than the chosen one. |
| `Matcher.FillMatchScore` | app/src/util.ts:55-76 | On a match: the literal deviation rule; the deviator is user, nobody (line completed) or opponent; the OFS and depth are those of the scorer called with `nb_deviation` against the line's length and the game's result; the OFS lies in 0..100 with one decimal. |
| `Matcher.WhiteLeavesAfterTwoPlies` | app/src/util.ts:15-91 | Line `a b c`, a won game as White playing `a b d`: two plies are followed, the user is not flagged, the line is reported and the OFS is 63.3. |
| `ViewJson.CodecRoundTrip` | app/src/view_json.ts:11-16 | Storing a boolean as 0/1 and reading it back with `=== 1` gives it back, and the converse holds for a stored 0/1. |
| `ViewJson.OfsViewJson` | app/src/view_json.ts:3-20 | Each of the three flags is true exactly when its stored value is 1. |
| `ViewJson.ToRow` | app/src/repository.ts:625-626 | The stored row carries the game's id and the user's id. |
| `ViewJson.StoredGameRoundTrip` | app/src/repository.ts:625-626 | A filled game stored and read back through `ofs_view_json` is the same game, every field included. |
| `ViewJson.RowRoundTrip` | app/src/view_json.ts:3-20 | A row rendered as JSON and stored again is the same row. |
| `ViewJson.PlaylistViewJson` | app/src/view_json.ts:24-34 | `_id` is the playlist id, `have_liked` is true exactly when the stored value is 1, and `name`, `author`, `nb_lines`, `nb_likes` and `created_at` are copied unchanged. |
| `ViewJson.PlaylistViewJsonInjective` | app/src/view_json.ts:24-34 | The view is injective: two playlists with the same view are equal. |
| `ViewJson.LineViewJson` | app/src/view_json.ts:36-47 | `_id` is the line id, `_playlist_id` its playlist id, and `name`, `moves`, `orientation`, `slot`, `nb_likes` and `created_at` are copied unchanged. |
| `ViewJson.LineViewJsonInjective` | app/src/view_json.ts:36-47 | The view is injective: two lines with the same view are equal. |
| `ViewJson.PageCount` | app/src/view_json.ts:58 | `ceil(count / pageSize)`: 0 for no items; otherwise `(n − 1)·pageSize < count <= n·pageSize`. |
| `ViewJson.PaginatedViewJson` | app/src/view_json.ts:55-62 | The page count covers the items, and page size, page and list pass through. |
| `ViewJson.PageCountIsLeast` | app/src/view_json.ts:58 | No smaller number of pages holds every item. |
| `Ledger.UserRows` | app/src/repository.ts:578 | The rows of the table whose `user_id` is the user's. |
| `Ledger.NewGames` | app/src/service.ts:324-325 | The submitted games whose id is not among the user's stored ids. |
| `Ledger.Kept` | app/src/service.ts:329 | The stored rows of today. |
| `Ledger.Dropped` | app/src/service.ts:327 | The stored rows not of today. |
| `Ledger.FillAll` | app/src/service.ts:339 | Entry `i` is `fill_ofs_stats` of game `i` against the corpus: one scored game per submitted game, in query order. The `Matcher` lemmas about `Fill` therefore hold of every scored game. |
| `Ledger.FillAllKeepsQueries` | app/src/service.ts:339 | Scored game `i` keeps every submitted field of game `i`. |
| `Ledger.FillAllGames` | app/src/service.ts:339 | The scoring loop returns `FillAll` of the games, one `fill_ofs_stats` call each, in order. |
| `Ledger.AfterDelete` | app/src/repository.ts:587-603 | The rows left are those whose id is not among the deleted games' ids. |
| `Ledger.Rows` | app/src/repository.ts:605-628 | One row per game, in order, with the game's id and the user's id, each reading back as the game. |
| `Ledger.LineIds` | app/src/service.ts:358 | Every id requested is non-empty and is some page's matched line id, and every non-empty matched line id of a page is requested. |
| `Ledger.OfsGameStore.constructor` | app/src/repository.ts:69-92 | The table starts empty. |
| `Ledger.OfsGameStore.DeleteMany` | app/src/repository.ts:587-603 | On a fault nothing changes; otherwise the rows with a deleted id are gone and the rest stay in order; the primary key still holds. |
| `Ledger.OfsGameStore.InsertMany` | app/src/repository.ts:605-636 | It succeeds exactly when there is no fault and the batch's ids are distinct and new to the table; then the batch's rows are appended; otherwise nothing changes; the primary key still holds. |
| `Ledger.FilterKeepsDistinct` | app/src/repository.ts:71 | Removing rows keeps the primary key. |
| `Ledger.InsertKeepsDistinct` | app/src/repository.ts:71 | Appending an insertable batch keeps the primary key. |
| `Ledger.InsertStep` | app/src/repository.ts:623-628 | The next game of the batch goes in exactly when its id is not yet in the table or the batch so far. |
| `Ledger.ComputeOfsAndGetDaily` | app/src/service.ts:313-368 | For an admitted batch (at most 70 games, all of today): a failed load of games or lines answers an error with the table untouched; a failed delete answers an error with the table untouched; a failed or refused insert answers an error with the deletion applied; otherwise the table is the reconciled one, and the answer is today's stored games then the new scored ones, with their line ids, unless the line fetch fails. |
| `Ledger.PlanPartitionsStored` | app/src/service.ts:327-329 | The kept and dropped rows together are the user's stored rows, none lost and none counted twice. |
| `Ledger.FilledAreTodays` | app/src/service.ts:339 | Every newly scored game is of today. |
| `Ledger.PagesAreTodays` | app/src/service.ts:355 | Every page of the answer is of today. |
| `Ledger.DroppedIdIffStale` | app/src/service.ts:327 | A row's id is among the dropped ones exactly when it is an older row of the user. |
| `Ledger.ReconciledUserRows` | app/src/service.ts:342-352 | After a complete call, the user's rows are the kept rows followed by the new ones. |
| `Ledger.OtherUsersUntouched` | app/src/service.ts:342-352 | A complete call leaves every other user's rows as they were, in order. |
| `Ledger.ReconciledKeepsKey` | app/src/service.ts:342-352 | A complete call keeps the primary key. |
| `Ledger.ReconciledIsTodays` | app/src/service.ts:327-352 | Self-expiry: after a complete call, every row of the user is of today. |
| `Ledger.NothingDroppedAgain` | app/src/service.ts:327-329 | After a complete call, a second look drops nothing and keeps every row of the user. |
| `Ledger.StoredGameKept` | app/src/service.ts:324-329 | When its stored copy has the submitted creation time (`SameCreation`), a submitted game already stored is of today, so it is kept. |
| `Ledger.UnseenGameInserted` | app/src/service.ts:325-348 | A submitted game not yet stored is among the inserted rows. |
| `Ledger.SubmittedGameStored` | app/src/service.ts:324-352 | When every stored copy has the submitted creation time (`SameCreation`), every submitted game is stored for the user after a complete call. |
| `Ledger.NothingNewAgain` | app/src/service.ts:324-325 | Under `SameCreation`, no submitted game is new to a second look after a complete call. |
| `Ledger.DailyIsIdempotent` | app/src/service.ts:313-368 | Under `SameCreation`, the same call again drops nothing, scores nothing, can insert its empty batch, leaves the table as it is and gives the same pages. |
| `Ledger.StaleResubmissionScoredLater` | app/src/service.ts:324-342 | A concrete case without `SameCreation`: a stored game from an earlier day, resubmitted as today's, is neither scored nor kept by the first call, and its row is deleted. The second call scores it, so the pages differ. |
| `Steps.StepsAddUci` | ui/src/components/steps.ts:20-34 | The new step records `uci` played from where the steps end (the start for no steps). |
| `Steps.AddKeepsChained` | ui/src/components/steps.ts:20-34 | Appending the next step keeps each step's start equal to the previous step's end. |
| `Steps.ReplaySnoc` | ui/src/components/steps.ts:67-74 | Replaying one more move plays it after the replay of the others. |
| `Steps.MakeSteps` | ui/src/components/steps.ts:67-74 | One step per move, step `i` holding move `i`, chained from the start, ending at the replay of the moves. |
| `Steps.ChainedIsMade` | ui/src/components/steps.ts:67-74 | A chained list of steps is exactly what its moves build. |
| `Steps.MakeStepsPrefix` | ui/src/components/steps.ts:67-74 | Building from a prefix of the moves gives the prefix of the steps. |
| `Steps.StepFenIsReplay` | ui/src/components/steps.ts:20-34 | In a chained list, the position after step `c` is the replay of the first `c + 1` moves. |
| `Steps.StepsMakeFromUcis` | ui/src/components/steps.ts:67-74 | The loop returns `MakeSteps` of the moves. |
| `Steps.ExportOfMade` | ui/src/components/steps.ts:76-78 | The UCI export of the steps built from some moves is those moves joined with single spaces. |
| `Steps.UciRoundTrip` | ui/src/components/steps.ts:76-78 | Exporting a non-empty chained list to UCI and building from the split text gives the list back. |
| `Steps.MoveNumber` | ui/src/components/steps.ts:89 | `ceil(ply / 2)`. |
| `Steps.PlyToIndex` | ui/src/components/steps.ts:88-91 | The move number, followed by `.` for an odd ply and `...` for an even one. |
| `Steps.PlyIndexRoundTrip` | ui/src/components/steps.ts:88-91 | The label reads back as its ply, so no two plies share a label. |
| `Steps.PlyToIndexOmitBlack` | ui/src/components/steps.ts:84-86 | Empty exactly for an even ply; for an odd ply, a label that reads back as the ply. |
| `Steps.PgnTokenShape` | ui/src/components/steps.ts:81 | Token `i` is the move number and a dot for White's plies, nothing for Black's, then the SAN; it holds no space. |
| `Steps.PgnExportTokens` | ui/src/components/steps.ts:80-82 | The PGN export splits back into one token per step, token `i` being `ply_to_index_omit_black(i + 1)` followed by the SAN. |
| `Steps.ParseTokens` | ui/src/components/steps.ts:36-54 | Unreadable tokens are skipped, so there are no more moves than tokens. |
| `Steps.ParsedMovesReplay` | ui/src/components/steps.ts:44-51 | Each move read is the reading of some token in the position the earlier moves lead to. |
| `Steps.AllTokensRead` | ui/src/components/steps.ts:44-51 | When every token reads as a move in turn, the result is exactly those moves. |
| `Steps.SingleLinePgnToUcis` | ui/src/components/steps.ts:36-54 | The loop returns `ParseTokens` of the split PGN from the start. |
| `Steps.StepsMakeFromPgn` | ui/src/components/steps.ts:56-65 | The steps built from the moves read from the PGN. |
| `BuildHistory.Opposite` | ui/src/state/create_build_store.tsx:97 | The opposite colour differs from the colour. |
| `BuildHistory.FlipInvolution` | ui/src/state/create_build_store.tsx:96-98 | Flipping twice restores the orientation. |
| `BuildHistory.LineOrientation` | ui/src/state/create_build_store.tsx:40 | Black exactly when a line is selected and its orientation is `black`. |
| `BuildHistory.GotoStaysInRange` | ui/src/state/create_build_store.tsx:86-92 | A cursor on a step or at -1 stays so after any jump. |
| `BuildHistory.GotoIdempotent` | ui/src/state/create_build_store.tsx:86-92 | Jumping twice to the same place is jumping once. |
| `BuildHistory.PrevThenNext` | ui/src/state/create_build_store.tsx:110-115 | From a step, one back and one forward return to it. |
| `BuildHistory.NextThenPrev` | ui/src/state/create_build_store.tsx:110-115 | Before the last step, one forward and one back return; on the last step, forward changes nothing. |
| `BuildHistory.FenAtIsReplay` | ui/src/state/create_build_store.tsx:46-47 | The board shows the moves up to the cursor replayed from the start, and a cursor past the end shows the start. |
| `BuildHistory.LastMoveAtCursor` | ui/src/state/create_build_store.tsx:50 | A move is highlighted exactly when the cursor is on a step, and it is that step's move. |
| `BuildHistory.UptoCursor` | ui/src/state/create_build_store.tsx:52 | A prefix of the steps, of length cursor + 1 or the whole list. |
| `BuildHistory.UptoCursorKeepsView` | ui/src/state/create_build_store.tsx:52 | Cutting after the cursor keeps the list chained and keeps the position shown. |
| `BuildHistory.AddAfterCursorBranches` | ui/src/state/create_build_store.tsx:101-108 | Adding a move keeps the steps up to the cursor, ends with the new move, and stays chained. |
| `BuildHistory.AddPlaysFromShownPosition` | ui/src/state/OpeningsBuildState.tsx:95-102 | The move is played from the shown position when the cursor is on a step or at -1; from a cursor left past the end, it is played after the last step although the start is shown. |
| `BuildHistory.AutoQueenUci` | ui/src/sections/SectionOpenings.tsx:142-152 | The UCI is `orig + dest`, with `q` appended exactly when a pawn reaches rank 8 with White to move or rank 1 with Black to move. |
| `BuildHistory.AutoQueenOnlyOnLastRank` | ui/src/sections/SectionOpenings.tsx:144-152 | Only a pawn reaching its own side's last rank is promoted; any other piece plays its two squares. |
| `BuildHistory.BuildStore.Plain` | ui/src/state/OpeningsBuildState.tsx:36-39 | A plain-cursor store: no steps, cursor 0, White. |
| `BuildHistory.BuildStore.Memo` | ui/src/state/create_build_store.tsx:40-44 | A memo-cursor store: the selected line's steps, the cursor on the last one, the line's orientation. |
| `BuildHistory.BuildStore.SetSteps` | ui/src/state/create_build_store.tsx:43-44 | New steps; a memo cursor goes to the last step and a plain cursor stays. |
| `BuildHistory.BuildStore.GotoCursorIfExists` | ui/src/state/create_build_store.tsx:86-92 | Below 0 gives -1, onto a step goes there, past the end changes nothing; steps never change. |
| `BuildHistory.BuildStore.GotoNextStep` | ui/src/state/create_build_store.tsx:110-112 | A jump to the cursor + 1; at the last step, nothing changes. |
| `BuildHistory.BuildStore.GotoPrevStep` | ui/src/state/create_build_store.tsx:113-115 | A jump to the cursor − 1; from 0 it gives -1. |
| `BuildHistory.BuildStore.GotoFirstStep` | ui/src/state/create_build_store.tsx:116-118 | Cursor 0 when there are steps; otherwise nothing changes. |
| `BuildHistory.BuildStore.GotoLastStep` | ui/src/state/create_build_store.tsx:119-121 | The cursor goes to the last step, -1 when there are none. |
| `BuildHistory.BuildStore.GotoSetCursor` | ui/src/state/create_build_store.tsx:122-124 | A jump to `n`. |
| `BuildHistory.BuildStore.AddUciAndGotoIt` | ui/src/state/create_build_store.tsx:101-108 | The steps up to the cursor are kept, the new move's step is appended, and the cursor is on it. |
| `BuildHistory.BuildStore.ClearSteps` | ui/src/state/OpeningsBuildState.tsx:119-122 | No steps, cursor 0, the start position shown and no move highlighted. |
| `BuildHistory.BuildStore.DeleteAfter` | ui/src/state/create_build_store.tsx:129-131 | The steps up to the cursor, unchanged; a memo cursor goes to the last one; a cursor on a step stays, showing the same position. |
| `BuildHistory.BuildStore.ImportUcis` | ui/src/state/OpeningsBuildState.tsx:51 | The steps built from the split moves; a plain cursor stays and a memo cursor goes to the last step. |
| `BuildHistory.BuildStore.SelectLine` | ui/src/state/create_build_store.tsx:40-44 | A new selected line rebuilds the steps from its moves, puts the cursor on the last step and takes its orientation. |
| `BuildHistory.BuildStore.Flip` | ui/src/state/OpeningsBuildState.tsx:90-92 | The orientation is flipped and nothing else changes. |
| `BuildHistory.BuildStore.SetOrientation` | ui/src/state/create_build_store.tsx:100 | The orientation is set and nothing else changes. |
| `BuildHistory.BuildStore.PlayOrigKey` | ui/src/sections/SectionOpenings.tsx:140-155 | The drag plays the auto-queened UCI after the cursor and moves the cursor onto it. |
| `BuildHistory.BuildStore.OnWheel` | ui/src/sections/SectionOpenings.tsx:157-163 | A negative delta steps back; any other delta, zero included, steps forward. |
| `Text.Split` | app/src/util.ts:19 | `split(' ')` never gives an empty list, and no token holds a space. |
| `Text.Take` | app/src/util.ts:28 | `slice(0, n)` is a prefix of length `min(n, length)`. |
| `Text.JoinSplit` | app/src/util.ts:19-25 | Joining what `split(' ')` gave returns the original string. |
| `Text.SplitJoin` | ui/src/components/steps.ts:77 | Splitting a join of space-free tokens gives the tokens back. |
| `Text.IncludesIffOccurs` | app/src/util.ts:26 | `includes` holds exactly when the needle occurs at some position. |
| `Text.NatToString` | ui/src/components/steps.ts:90 | The decimal rendering is a non-empty string of digits with no leading zero. |
| `Text.DecimalRoundTrip` | ui/src/components/steps.ts:90 | Reading the decimal rendering back gives the number. |
| `Text.NatToStringInjective` | ui/src/components/steps.ts:90 | Different numbers render differently. |
| `Lists.Filter` | app/src/service.ts:325 | `filter`: no longer than its input, and holding exactly the elements that pass. |
| `Lists.FilterPartition` | app/src/service.ts:327-329 | Two complementary filters split a list without loss or overlap. |
| `Lists.Map` | app/src/service.ts:339 | `Array.prototype.map`: one entry per element, entry `i` being `f` of element `i`. |
| `Types.WithStats` | app/src/util.ts:78-88 | The spread copies every submitted field and sets the five statistics. |

## Left out

- The SQLite storage of app/src/repository.ts is a sequence of rows in insertion order, not a database. Pages keep this order. The query of app/src/repository.ts:578 has no `ORDER BY`, and `user_id` has no index, so SQLite scans the table in rowid order. New rowids always exceed the stored ones, so rowid order is insertion order. Each storage call that can fail takes a fault flag. The two read queries (the user's games, the user's line corpus) are modelled as the table filtered by user and as an optional corpus argument.
- `get_lines_by_ids` is not modelled beyond its failure: the answer holds the requested line ids, not the line records joined with their playlists.
- The clock: `is_timestamp_in_today` takes the day's boundaries as parameters, and the controller's filter to today's games and its limit of 70 are the precondition `TodaysBatch` of the ledger method.
- The HTTP controller, sessions, and concurrent requests of the same user are not modelled.
- Floating point: every score is over `real`, so IEEE rounding and the binary representation of one-decimal values are out.
- The chess library: the position after a move, the SAN of a move and the reading of a SAN token are uninterpreted function fields of `Rules`. `fen_pos`, `fen_turn`, `turn_color` and `san_moves` are not modelled.
- Reactivity: the stores' memos are recomputed in the class methods. The memo cursor's reset after `add_uci_and_goto_it` is followed by the explicit cursor assignment, because the batch applies both updates in order.
- `BuildHistory.LineOrientation`: the source passes the line's orientation string through unchanged. The model reads `black` as Black and any other string as White.
- `BuildHistory.BuildStore.PlayOrigKey`: the moving piece's role and the side to move are inputs. The source reads them from the position shown.
- `BuildHistory.BuildStore.OnWheel`: a JavaScript `NaN` delta is not modelled (it would step forward).
- `Ledger.StoredGameKept`: requires `SameCreation`, i.e. the submitted and stored creation times of a game agree. The source does not check this, and without it a stale stored copy is dropped rather than kept.
- `Ledger.SubmittedGameStored`: requires `SameCreation`. Without it, a resubmitted game whose stored copy is stale ends up in no row (`Ledger.StaleResubmissionScoredLater`).
- `Ledger.NothingNewAgain`: requires `SameCreation`. Without it, the stale-copy game is new to the second call.
- `Ledger.DailyIsIdempotent`: requires `SameCreation`. Without it, the second call scores the stale-copy game and its pages differ from the first call's (`Ledger.StaleResubmissionScoredLater`).
- `Ledger.LineIds`: its contract states membership both ways, not the order of the ids. The order is page order by its definition.
- The export to PGN and the SAN list of the build stores are the `Steps` functions. The stores' `export_PGN` and `export_UCI` memos add nothing and are not repeated.
- app/test/ofs.test.ts only logs and asserts nothing. Its fixture is not reproduced; `Matcher.WhiteLeavesAfterTwoPlies` is a worked case instead.
