# BowlingStats scoring and statistics, modelled in Dafny

BowlingStats is an iOS app for recording ten-pin bowling games. This
project models its core logic and proves properties about it:

- **The score-entry screen** (`GameInputView`). It keeps a live board of
  ten frames: nine with two ball slots and a tenth with three. Each slot
  holds a pin count or is not yet thrown. The screen also keeps the ten
  frame totals, the game total and a (frame, ball) cursor. The model has
  the operations its buttons and pickers run, the legality rules for
  entered counts, and the glyph shown for each ball.
  - Module `GameInput`: class `GameInputView`, with the board and the
    totals as arrays.
  - Module `Scoring`: the pure frame-total rule.
  - Module `InputRules`: the entry rules and the live board's glyphs.
- **The game details screen** (`GameDetailView`), in module `GameDetail`:
  - its strike, spare and open-frame counters;
  - the glyph its score boxes show.
- **The list and statistics screens** (`ContentView`):
  - Module `Stats` holds the reductions. These are the integer average,
    the high score, strike and spare totals, and the casual/league
    filter. It also holds the load-time merge that tags league games, the
    score sorts, removal by id, per-month totals, and where a saved game
    is stored.
  - Module `ContentViews` holds the screens' state as classes:
    `CasualView`, `LeagueView`, `LeagueGamesView` and `StatsView`.
- **Supporting modules**:
  - `Decimal`: Swift's `Int(String)` and `String(Int)`, with a
    round-trip proof.
  - `Records`: the saved `BowlingGame` and `League` records.
  - `StandardScoring`: an independent reference for the frame-total rule.
    It is ordinary ten-pin scoring over the flat sequence of balls
    thrown.

The lemma `StandardScoring.MatchesStandardScoring` proves that the app's
frame-by-frame lookup and the reference agree on every board. It includes
the two-strike lookahead into the tenth frame.

Cursor behaviour, as the code has it:

- The Back and Next Frame buttons (`GameInputView.swift:387-403`) keep
  `currentBall`; they do not reset it to 0.
- After the Strike button in frames 0-8 (`GameInputView.swift:358-368`),
  the cursor moves to the next frame but keeps its ball index.
- The cursor can therefore point at ball 2 of a two-slot frame (after
  going back from the tenth frame). A Strike there would index past the
  frame in the app. `RecordStrike` requires that this does not happen.

A Swift `Optional<Int>` is `Option<int>`. `?? 0` is `Val`. Swift `Int`
division truncates toward zero; that is `Stats.TruncDiv`. Dictionary
iteration order is unspecified in Swift, so the model takes it as an
input: a sequence listing each key once.

## Model

| member | source | states |
|---|---|---|
| Scoring.EmptyBoardFrames | BowlingStats/GameInputView.swift:34 | the initial board has ten frames: nine empty two-slot frames, then an empty three-slot tenth frame |
| Scoring.EmptyBoardScoresZero | BowlingStats/GameInputView.swift:34-38 | the empty board's frame totals are all 0 and its total is 0, matching the initial totals |
| Scoring.FrameTotals | BowlingStats/GameInputView.swift:410-440 | the frame-total rule yields exactly ten totals |
| Scoring.FrameTotalBounds | BowlingStats/GameInputView.swift:410-440 | with every thrown count in 0..10, each frame total lies in 0..30 |
| Scoring.TotalBounds | BowlingStats/GameInputView.swift:406-443 | with every thrown count in 0..10, the game total lies in 0..300 |
| Scoring.UnthrownCountsAsZero | BowlingStats/GameInputView.swift:410-412 | an unthrown ball scores exactly as a thrown 0 in every frame total |
| StandardScoring.FrameMatchesStandard | BowlingStats/GameInputView.swift:416-435 | for frames 0-8, the frame-relative strike/spare lookup equals standard scoring of the next balls thrown |
| StandardScoring.SuffixMatchesStandard | BowlingStats/GameInputView.swift:406-443 | the totals of frames f..9 sum to the standard score of the balls thrown from frame f on |
| StandardScoring.MatchesStandardScoring | BowlingStats/GameInputView.swift:406-443 | the game total equals the standard ten-pin score of the balls in throwing order |
| StandardScoring.PerfectGame | BowlingStats/GameInputView.swift:406-443 | twelve strikes give frame totals of 30 each and a total of 300 |
| GameInput.GameInputView.constructor | BowlingStats/GameInputView.swift:34-38 | the screen starts with the empty board, zero totals and the cursor at (0, 0) |
| GameInput.GameInputView.UpdateScore | BowlingStats/GameInputView.swift:406-443 | the loop leaves every frame total equal to the frame-total rule and the game total equal to their sum |
| GameInput.GameInputView.HandleInput | BowlingStats/GameInputView.swift:306-320 | rejected text changes nothing; an accepted count is written to exactly the given slot and the totals are recomputed |
| GameInput.GameInputView.ClearFrame | BowlingStats/GameInputView.swift:328-331 | only the current frame is emptied, to its own shape; other frames and the cursor are kept; totals are recomputed |
| GameInput.GameInputView.MoveToNextFrame | BowlingStats/GameInputView.swift:387-394 | the frame moves one on, clamped at 9; the ball index is kept; totals are recomputed |
| GameInput.GameInputView.MoveToPreviousFrame | BowlingStats/GameInputView.swift:397-403 | the frame moves one back, clamped at 0; the ball index and the board are kept |
| GameInput.GameInputView.RecordStrike | BowlingStats/GameInputView.swift:358-368 | a 10 is written at the cursor; frames 0-8 move to the next frame; frame 9 moves to the next ball, up to ball 2 |
| GameInput.GameInputView.RecordSpare | BowlingStats/GameInputView.swift:371-384 | the slot after the pair's first ball is set so the pair makes 10; frames 0-8 then move on; in frame 9 ball 1 moves to ball 2, ball 2 stays, and ball 0 does nothing |
| GameInput.GameInputView.SetBall1 | BowlingStats/GameInputView.swift:569-575 | the ball-1 picker sets ball 0 and, in frames 0-8, empties ball 1 |
| GameInput.GameInputView.SetBall2 | BowlingStats/GameInputView.swift:585-597 | the ball-2 picker sets ball 1 from the offered range; in frames 0-8 the pair then makes at most 10; in the tenth frame it enables the ball-3 picker |
| GameInput.GameInputView.SetBall3 | BowlingStats/GameInputView.swift:600-617 | the tenth frame's ball-3 picker sets ball 2 from the offered range once ball 1 is set |
| GameInput.GameInputView.SaveGame | BowlingStats/GameInputView.swift:452 | the saved record copies the board, totals and details; its totals are consistent with its board; it is not marked as a league game |
| Stats.StoreGame | BowlingStats/GameInputView.swift:454-469 | a casual game is appended to the casual list with the leagues kept; a league game is appended to its league's list, which is created empty when missing, and every other list is kept |
| Stats.SavedGameIsLoaded | BowlingStats/GameInputView.swift:454-469 | a saved game goes to the casual list, or to its league's list (created if missing); the statistics load then finds it (tagged with its league when it has one) and still finds every game stored before |
| InputRules.Accept | BowlingStats/GameInputView.swift:306-316 | text is accepted only as an integer in 0..10; only ball 1 of frames 0-8 is capped by ball 0; a count in range is rejected only for that cap |
| InputRules.TenthFrameAcceptsAnyCount | BowlingStats/GameInputView.swift:309-318 | in the tenth frame every count 0..10 is accepted for any ball |
| InputRules.OverfullSecondBallRejected | BowlingStats/GameInputView.swift:310-314 | a first ball of 5 followed by a typed 6 is rejected |
| InputRules.Ball2Max | BowlingStats/GameInputView.swift:592 | the ball-2 picker offers up to what ball 0 left standing, except after a tenth-frame strike, where it offers up to 10 |
| InputRules.Ball2Disabled | BowlingStats/GameInputView.swift:597 | the ball-2 picker is disabled only after a first-ball 10, where its range would be 0 alone; it is never disabled in the tenth frame |
| InputRules.Ball3Max | BowlingStats/GameInputView.swift:610 | the ball-3 picker offers up to 10 after a strike or spare in the tenth frame, otherwise up to what ball 1 left standing |
| InputRules.Ball3Disabled | BowlingStats/GameInputView.swift:617 | the ball-3 picker is disabled while ball 2 is unset, even though the ball-2 picker shows 0 for it |
| InputRules.ThirdBallAfterStrikeUncapped | BowlingStats/GameInputView.swift:610 | after a tenth-frame first-ball strike, ball 3 may be up to 10 whatever ball 2 was |
| InputRules.DisplayScore | BowlingStats/GameInputView.swift:334-355 | "" exactly for an unthrown ball; "X" exactly for a 10 at ball 0 or in the tenth frame; "/" exactly for a spare-completing ball; otherwise exactly `String(count)` (the shortest decimal digits), which parses back to the count |
| Decimal.ParseInt | BowlingStats/GameInputView.swift:307 | `Int(String)` succeeds only on an optional sign followed by at least one digit, and its value is those digits' value, negated after "-", in the 64-bit range; conversely every in-range digit run, signed or not, is read |
| Decimal.IntStringRoundTrip | BowlingStats/GameInputView.swift:354 | the text shown for a count parses back to that count |
| GameDetail.CountStrikes | BowlingStats/GameDetailView.swift:89-91 | the strike count is the number of slots, over all frames, holding 10 |
| GameDetail.CountStrikesAppend | BowlingStats/GameDetailView.swift:89-91 | the strike count of two frame lists together is the sum of their counts |
| GameDetail.CountSpares | BowlingStats/GameDetailView.swift:94-100 | the spare count is at most the frame count; it is 0 exactly when no frame has two thrown balls making 10 without a first-ball 10, and equals the frame count exactly when every frame does |
| GameDetail.CountOpenFrames | BowlingStats/GameDetailView.swift:103-109 | the open-frame count is at most the frame count; it is 0 exactly when no frame is open (unthrown balls count 0), and equals the frame count exactly when every frame is |
| GameDetail.SparesAndOpenDisjoint | BowlingStats/GameDetailView.swift:94-109 | no frame is both a spare and open, so the two counts together never exceed the frame count |
| GameDetail.UnplayedFramesAreOpen | BowlingStats/GameDetailView.swift:89-109 | an unplayed board counts ten open frames, no spares and no strikes |
| GameDetail.DisplayValue | BowlingStats/GameDetailView.swift:192-213 | "" exactly for an unthrown ball or a 10 after ball 0 in frames 0-8; "X" exactly for a 10 in the tenth frame or at ball 0; "/" exactly for a non-10 ball 1 that makes 10 with a thrown ball 0; otherwise exactly `String(count)`, which parses back to the count |
| GameDetail.TenthThirdBallGlyphsDiffer | BowlingStats/GameDetailView.swift:207-212 | a tenth frame of 10, 3, 7 shows "/" live but "7" on the details screen |
| Stats.Select | BowlingStats/ContentView.swift:1000 | filtering keeps each element that passes the test with its multiplicity, and drops every other element |
| Stats.SelectAppend | BowlingStats/ContentView.swift:997-1005 | filtering distributes over concatenation, so relative order is preserved |
| Stats.RemoveById | BowlingStats/ContentView.swift:240 | removal by id drops exactly the elements with that id and keeps every other element |
| Stats.HighScore | BowlingStats/ContentView.swift:724 | the high score is the total of some game and at least every game's total; it is 0 for no games |
| Stats.TruncDiv | BowlingStats/ContentView.swift:738 | Swift integer division truncates toward zero for both signs of the dividend |
| Stats.AverageScore | BowlingStats/ContentView.swift:738 | the average is 0 for no games, otherwise the score sum divided by the game count, truncated toward zero |
| Stats.AverageAtMostHighScore | BowlingStats/ContentView.swift:722-738 | with non-negative totals, the integer average lies between 0 and the high score |
| Stats.TotalStrikes | BowlingStats/ContentView.swift:726-729 | the strike total is the number of balls of 10 over every frame of every game |
| Stats.StatsSpare | BowlingStats/ContentView.swift:732-734 | the statistics screens' spare rule agrees with the details screen's whenever both balls are thrown, and counts every details-screen spare |
| Stats.TotalSpares | BowlingStats/ContentView.swift:732-735 | the spare total is at most the number of frames, and 0 exactly when no frame is a statistics spare |
| Stats.TotalStrikesPerGame | BowlingStats/ContentView.swift:726-729 | the strike total over many games is the sum of each game's strike count on its details screen |
| Stats.DetailSparesAtMostStatsSpares | BowlingStats/ContentView.swift:732-735 | every spare the details screen counts, the statistics screens count too |
| Stats.SpareRulesDiffer | BowlingStats/ContentView.swift:732-735 | an unthrown first ball followed by a 10 is a spare for the statistics screens but not for the details screen |
| Stats.FramesPartition | BowlingStats/ContentView.swift:732-735 | every frame of two or more slots is exactly one of: a first-ball 10, a statistics spare, or a details-screen open frame |
| Stats.FilterGames | BowlingStats/ContentView.swift:997-1005 | "Casual" keeps exactly the non-league games; "League" keeps exactly the selected league's games; any other mode keeps all |
| Stats.FilterKeepsOrder | BowlingStats/ContentView.swift:997-1005 | the mode filter preserves relative order |
| Stats.LeagueGamesTagged | BowlingStats/ContentView.swift:975-981 | every merged league game is marked as a league game of one of the loaded leagues |
| Stats.LeagueGamesComplete | BowlingStats/ContentView.swift:975-981 | every stored league game appears in the merge, tagged with the league it was stored under |
| Stats.MergeGames | BowlingStats/ContentView.swift:965-983 | the nested loops produce the casual games unchanged, followed by every league's games tagged with its name |
| Stats.SortByScore | BowlingStats/ContentView.swift:220-223 | the score sort is a permutation ordered non-increasing (highest first) or non-decreasing (lowest first) by total |
| Stats.MonthTotalsMeaning | BowlingStats/ContentView.swift:1048-1059 | a month has an entry exactly when some game falls in it; the entry is that month's games' total and count |
| Stats.MonthTotalsKeys | BowlingStats/ContentView.swift:1048-1059 | the months with an entry are exactly the months of the games |
| Stats.MonthlyTotals | BowlingStats/ContentView.swift:1048-1059 | the loop computes, for every month present, that month's total and game count (at least 1) |
| Stats.MonthlyAverages | BowlingStats/ContentView.swift:1061-1062 | one average per month with an entry |
| Stats.MonthAveragesMeaning | BowlingStats/ContentView.swift:1044-1063 | the monthly averages of a game list have an entry for exactly the months of its games, each the truncated average of that month's game totals |
| ContentViews.CasualView.SortGames | BowlingStats/ContentView.swift:213-226 | the list is reordered by total score (highest or lowest first) without gaining or losing games |
| ContentViews.CasualView.DeleteGame | BowlingStats/ContentView.swift:238-241 | the games with the deleted id are removed and the rest kept in order |
| ContentViews.LeagueView.DeleteLeague | BowlingStats/ContentView.swift:425-428 | the leagues with the deleted id are removed and the rest kept in order |
| ContentViews.LeagueGamesView.ComputeStats | BowlingStats/ContentView.swift:712-741 | the average, high score and counts agree with the games; with no games, the average and high score become 0 while the game, strike and spare counts keep their old values |
| ContentViews.LeagueGamesView.SortGames | BowlingStats/ContentView.swift:744-758 | the games are reordered by score and the statistics recomputed; with no games the game, strike and spare counts keep their previous values |
| ContentViews.LeagueGamesView.RefreshGames | BowlingStats/ContentView.swift:761-770 | when the store has the league, its games are loaded and the statistics recomputed; otherwise nothing changes; an empty reload keeps the previous game, strike and spare counts |
| ContentViews.LeagueGamesView.DeleteGame | BowlingStats/ContentView.swift:773-783 | the deleted id is removed from this league's stored list (only if the league is stored); the reloaded games no longer contain it; the statistics agree with the games whether or not the league was stored; deleting the last game keeps the previous game, strike and spare counts |
| ContentViews.StatsView.constructor | BowlingStats/ContentView.swift:856-875 | the screen starts in "Overall" mode with no league selected, no games and zero statistics |
| ContentViews.StatsView.ComputeStats | BowlingStats/ContentView.swift:1010-1041 | the statistics agree with the filtered games, and the monthly averages are those of the filtered games (each month present gets the truncated average of its games' totals); with no games every statistic is 0 and there are no monthly averages |
| ContentViews.StatsView.ComputeMonthlyAverages | BowlingStats/ContentView.swift:1044-1063 | each month of the filtered games gets the truncated average of that month's totals; no other month gets one |
| ContentViews.StatsView.ApplyFilter | BowlingStats/ContentView.swift:997-1007 | the filtered list and every statistic, including each month's average, agree with the full list and the current selection |
| ContentViews.StatsView.SelectMode | BowlingStats/ContentView.swift:898-906 | choosing a mode sets it, keeps the league selection, the offered leagues and the full list, and leaves the screen consistent |
| ContentViews.StatsView.SelectLeague | BowlingStats/ContentView.swift:909-918 | choosing a league sets it, keeps the mode, the offered leagues and the full list, and leaves the screen consistent |
| ContentViews.StatsView.ExtractLeagues | BowlingStats/ContentView.swift:989-994 | the offered leagues are the dictionary's keys; the first is selected only when none was |
| ContentViews.StatsView.LoadAllGames | BowlingStats/ContentView.swift:965-994 | the full list is the merge of casual and tagged league games; the offered leagues are the dictionary's keys, the first selected only when none was; the screen is consistent |

## Left out

- Rendering: SwiftUI layout, colours, animations, sheets and alerts.
  The picker ranges are modelled as preconditions of the picker setters.
- Persistence: the `AppStorage` property wrapper, `UserDefaults`, and JSON encoding and
  decoding. Stored lists and dictionaries are parameters or fields. A
  failed decode is the empty list or dictionary.
- Dates: `DateFormatter`, `dateObject`, the "Most Recent" and "Least
  Recent" sorts, and the league list's `dateAdded` sort. The "MMM" month
  key is an opaque function `monthOf` of the game.
- ContentViews.LeagueGamesView.RefreshGames: states the reloaded games
  only as a multiset. The app then sorts them by date, which is outside
  the model.
- ContentViews.StatsView.ComputeMonthlyAverages: keeps the monthly
  averages as a map from month to average. The app's list of
  `MonthlyScore` values sorted by month name is not modelled.
- Stats.SortByScore and the `SortGames` methods: Swift's `sort` is not
  stable. The model fixes one order for equal totals (insertion order).
  The contracts state only permutation and score order.
- Floating point: average strikes and spares per game, and their
  formatting.
- Identifiers: UUID generation. Ids are given natural numbers.
- Concurrency: the `DispatchQueue` updates of the saved location and ball
  lists.
- Integer width: Swift `Int` overflow traps in sums are not modelled.
  Integers are unbounded; parsing enforces the 64-bit range.
- Index traps: writing to a slot the current frame lacks is a trap in the
  app. It is a precondition of `HandleInput` and `RecordStrike`.
- The extra-details sheet (`GameExtraDetailsView.swift`), the splash
  screen and the app entry point are not part of this model.
