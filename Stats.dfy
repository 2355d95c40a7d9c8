/**
 * The reductions the game lists and the statistics screens compute over
 * saved games: sums, the integer average, the high score, strike and spare
 * totals, the casual/league filter, the load-time merge of casual and league
 * games, the score sorts, removal by id and the per-month totals.
 */
module Stats {
  import opened Wrappers
  import opened Scoring
  import opened Records
  import GameDetail

  // ---------------------------------------------------------------- selection

  /** The elements of `xs` that satisfy `keep`, in their order (`filter`, and `removeAll` with the test negated). */
  function Select<T(!new)>(xs: seq<T>, keep: T -> bool): (r: seq<T>)
    ensures forall x :: multiset(r)[x] == if keep(x) then multiset(xs)[x] else 0
    ensures forall x :: x in r <==> x in xs && keep(x)
    ensures |r| <= |xs|
  {
    if xs == [] then []
    else
      assert xs == [xs[0]] + xs[1..];
      (if keep(xs[0]) then [xs[0]] else []) + Select(xs[1..], keep)
  }

  /** Selection keeps relative order: it distributes over concatenation. */
  lemma {:induction false} SelectAppend<T(!new)>(a: seq<T>, b: seq<T>, keep: T -> bool)
    ensures Select(a + b, keep) == Select(a, keep) + Select(b, keep)
  {
    if a == [] {
      assert a + b == b;
    } else {
      assert (a + b)[0] == a[0] && (a + b)[1..] == a[1..] + b;
      SelectAppend(a[1..], b, keep);
    }
  }

  function GameId(g: BowlingGame): Id {
    g.id
  }

  function LeagueId(l: League): Id {
    l.id
  }

  /** `removeAll { $0.id == id }`: drops exactly the elements with that id and keeps the rest in order. */
  function RemoveById<T(!new)>(xs: seq<T>, idOf: T -> Id, id: Id): (r: seq<T>)
    ensures forall x :: multiset(r)[x] == if idOf(x) == id then 0 else multiset(xs)[x]
    ensures forall x :: x in r <==> x in xs && idOf(x) != id
  {
    Select(xs, x => idOf(x) != id)
  }

  // ---------------------------------------------------------------- sums and maxima

  function SumScores(games: seq<BowlingGame>): int {
    if games == [] then 0 else games[0].totalScore + SumScores(games[1..])
  }

  lemma {:induction false} SumScoresAppend(a: seq<BowlingGame>, b: seq<BowlingGame>)
    ensures SumScores(a + b) == SumScores(a) + SumScores(b)
  {
    if a == [] {
      assert a + b == b;
    } else {
      assert (a + b)[0] == a[0] && (a + b)[1..] == a[1..] + b;
      SumScoresAppend(a[1..], b);
    }
  }

  /** `map { $0.totalScore }.max() ?? 0`. */
  function HighScore(games: seq<BowlingGame>): (r: int)
    ensures games == [] ==> r == 0
    ensures games != [] ==> exists i :: 0 <= i < |games| && games[i].totalScore == r
    ensures forall i :: 0 <= i < |games| ==> games[i].totalScore <= r
  {
    if games == [] then 0
    else if |games| == 1 then games[0].totalScore
    else
      var rest := HighScore(games[1..]);
      assert forall i :: 1 <= i < |games| ==> games[i] == games[1..][i - 1];
      if games[0].totalScore >= rest then games[0].totalScore else rest
  }

  /** Swift's `Int` division, which truncates toward zero. */
  function TruncDiv(a: int, n: int): (q: int)
    requires n > 0
    ensures a >= 0 ==> q * n <= a < q * n + n
    ensures a < 0 ==> q * n - n < a <= q * n
  {
    if a >= 0 then a / n else -((-a) / n)
  }

  /** The integer average shown on the statistics screens; 0 for no games. */
  function AverageScore(games: seq<BowlingGame>): (r: int)
    ensures games == [] ==> r == 0
    // otherwise the quotient of the score sum by the game count, truncated toward zero
    ensures games != [] && SumScores(games) >= 0 ==> r * |games| <= SumScores(games) < r * |games| + |games|
    ensures games != [] && SumScores(games) < 0 ==> r * |games| - |games| < SumScores(games) <= r * |games|
  {
    if games == [] then 0 else TruncDiv(SumScores(games), |games|)
  }

  lemma {:induction false} SumAtMostHigh(games: seq<BowlingGame>, high: int)
    requires forall i :: 0 <= i < |games| ==> 0 <= games[i].totalScore <= high
    ensures 0 <= SumScores(games) <= |games| * high
  {
    if games != [] {
      assert forall i :: 0 <= i < |games[1..]| ==> games[1..][i] == games[i + 1];
      SumAtMostHigh(games[1..], high);
    }
  }

  lemma QuotientAtMost(total: int, n: int, high: int)
    requires n > 0 && 0 <= total <= n * high
    ensures 0 <= TruncDiv(total, n) <= high
  {
    var q := TruncDiv(total, n);
    assert q * n <= total;
    assert (high + 1) * n == high * n + n;
    assert n * high == high * n;
    if q > high {
      MulMonotone(high + 1, q, n);
      assert false;
    }
  }

  lemma MulMonotone(a: int, b: int, n: int)
    requires a <= b && n >= 0
    ensures a * n <= b * n
  {
    assert b * n - a * n == (b - a) * n;
  }

  /** With non-negative scores the average lies between 0 and the high score. */
  lemma AverageAtMostHighScore(games: seq<BowlingGame>)
    requires games != []
    requires forall i :: 0 <= i < |games| ==> 0 <= games[i].totalScore
    ensures 0 <= AverageScore(games) <= HighScore(games)
  {
    var high := HighScore(games);
    SumAtMostHigh(games, high);
    QuotientAtMost(SumScores(games), |games|, high);
  }

  // ---------------------------------------------------------------- strikes and spares

  /** Every frame of every game (`flatMap { $0.scores }`). */
  function AllFrames(games: seq<BowlingGame>): seq<Frame> {
    if games == [] then [] else games[0].scores + AllFrames(games[1..])
  }

  /** The number of balls of 10 over every frame of every game. */
  function TotalStrikes(games: seq<BowlingGame>): (r: nat)
    ensures r == multiset(GameDetail.Flatten(AllFrames(games)))[Some(10)]
    ensures games == [] ==> r == 0
  {
    GameDetail.CountStrikes(AllFrames(games))
  }

  /** The strike total over many games is the sum of each game's strike count on its details screen. */
  lemma {:induction false} TotalStrikesPerGame(games: seq<BowlingGame>)
    ensures games == [] ==> TotalStrikes(games) == 0
    ensures games != [] ==>
      TotalStrikes(games) == GameDetail.CountStrikes(games[0].scores) + TotalStrikes(games[1..])
  {
    if games != [] {
      GameDetail.CountStrikesAppend(games[0].scores, AllFrames(games[1..]));
    }
  }

  /**
   * A spare on the statistics screens: unthrown balls count 0, the pair
   * makes 10 and the first is not 10.
   */
  /** Agrees with the details screen's spare rule whenever both balls are thrown. */
  predicate StatsSpare(frame: Frame)
    ensures GameDetail.IsSpare(frame) ==> StatsSpare(frame)
    ensures |frame| > 1 && frame[0].Some? && frame[1].Some? ==> (StatsSpare(frame) <==> GameDetail.IsSpare(frame))
  {
    |frame| > 1 && Val(frame[0]) + Val(frame[1]) == 10 && Val(frame[0]) != 10
  }

  /** The number of statistics spares over every frame of every game: 0 exactly when there is none. */
  function TotalSpares(games: seq<BowlingGame>): (r: nat)
    ensures r <= |AllFrames(games)|
    ensures r == 0 <==> forall i :: 0 <= i < |AllFrames(games)| ==> !StatsSpare(AllFrames(games)[i])
  {
    GameDetail.CountFramesNone(AllFrames(games), StatsSpare);
    GameDetail.CountFrames(AllFrames(games), StatsSpare)
  }

  lemma {:induction false} CountFramesMonotone(frames: seq<Frame>, p: Frame -> bool, q: Frame -> bool)
    requires forall i :: 0 <= i < |frames| ==> p(frames[i]) ==> q(frames[i])
    ensures GameDetail.CountFrames(frames, p) <= GameDetail.CountFrames(frames, q)
  {
    if frames != [] {
      CountFramesMonotone(frames[1..], p, q);
    }
  }

  /** Every spare the details screen counts is counted by the statistics screens too. */
  lemma DetailSparesAtMostStatsSpares(game: BowlingGame)
    ensures GameDetail.CountSpares(game.scores) <= TotalSpares([game])
  {
    assert AllFrames([game]) == game.scores + AllFrames([]);
    assert AllFrames([game]) == game.scores;
    CountFramesMonotone(game.scores, GameDetail.IsSpare, StatsSpare);
  }

  /** The two spare rules differ on a frame whose first ball is unthrown and second is 10. */
  lemma SpareRulesDiffer()
    ensures StatsSpare([None, Some(10)]) && !GameDetail.IsSpare([None, Some(10)])
  {
  }

  predicate FirstBallStrike(frame: Frame) {
    |frame| > 1 && Val(frame[0]) == 10
  }

  /**
   * Every frame with at least two slots is exactly one of: a first-ball 10,
   * a spare by the statistics rule, or an open frame by the details rule.
   */
  lemma {:induction false} FramesPartition(frames: seq<Frame>)
    requires forall i :: 0 <= i < |frames| ==> |frames[i]| >= 2
    ensures GameDetail.CountFrames(frames, FirstBallStrike) + GameDetail.CountFrames(frames, StatsSpare)
      + GameDetail.CountOpenFrames(frames) == |frames|
  {
    if frames != [] {
      FramesPartition(frames[1..]);
    }
  }

  // ---------------------------------------------------------------- filter

  predicate IsCasual(g: BowlingGame) {
    !g.isLeagueGame
  }

  /** The statistics screen's mode filter: "Casual", "League" (of the selected league) or everything. */
  function FilterGames(games: seq<BowlingGame>, selectedMode: string, selectedLeague: string): (r: seq<BowlingGame>)
    ensures selectedMode == "Casual" ==> forall g :: g in r <==> g in games && !g.isLeagueGame
    ensures selectedMode == "League" ==> forall g :: g in r <==> g in games && g.leagueName == Some(selectedLeague)
    ensures selectedMode != "Casual" && selectedMode != "League" ==> r == games
    ensures multiset(r) <= multiset(games)
  {
    if selectedMode == "Casual" then Select(games, IsCasual)
    else if selectedMode == "League" then Select(games, (g: BowlingGame) => g.leagueName == Some(selectedLeague))
    else games
  }

  /** The filter keeps relative order: it distributes over concatenation. */
  lemma FilterKeepsOrder(a: seq<BowlingGame>, b: seq<BowlingGame>, selectedMode: string, selectedLeague: string)
    ensures FilterGames(a + b, selectedMode, selectedLeague) ==
      FilterGames(a, selectedMode, selectedLeague) + FilterGames(b, selectedMode, selectedLeague)
  {
    if selectedMode == "Casual" {
      SelectAppend(a, b, IsCasual);
    } else if selectedMode == "League" {
      SelectAppend(a, b, (g: BowlingGame) => g.leagueName == Some(selectedLeague));
    }
  }

  // ---------------------------------------------------------------- load-time merge

  /** A league game as loaded: marked as a league game of the dictionary key it was stored under. */
  function Tag(g: BowlingGame, league: string): BowlingGame {
    g.(isLeagueGame := true, leagueName := Some(league))
  }

  /** `order` lists each key of the league dictionary exactly once: the dictionary's iteration order. */
  predicate IsKeyOrder(leagues: map<string, seq<BowlingGame>>, order: seq<string>) {
    (forall k :: k in leagues ==> k in order) && (forall k :: k in order ==> k in leagues) &&
    (forall i, j :: 0 <= i < j < |order| ==> order[i] != order[j])
  }

  /** The league games of the leagues in `order`, each tagged with its league. */
  function LeagueGames(leagues: map<string, seq<BowlingGame>>, order: seq<string>): seq<BowlingGame>
    requires forall k :: k in order ==> k in leagues
  {
    if order == [] then []
    else
      var games := leagues[order[0]];
      seq(|games|, i requires 0 <= i < |games| => Tag(games[i], order[0])) + LeagueGames(leagues, order[1..])
  }

  lemma {:induction false} LeagueGamesTagged(leagues: map<string, seq<BowlingGame>>, order: seq<string>)
    requires forall k :: k in order ==> k in leagues
    ensures forall g :: g in LeagueGames(leagues, order) ==>
      g.isLeagueGame && g.leagueName.Some? && g.leagueName.value in order
  {
    if order != [] {
      LeagueGamesTagged(leagues, order[1..]);
    }
  }

  lemma {:induction false} LeagueGamesComplete(leagues: map<string, seq<BowlingGame>>, order: seq<string>, k: string, j: int)
    requires forall k :: k in order ==> k in leagues
    requires k in order && 0 <= j < |leagues[k]|
    ensures Tag(leagues[k][j], k) in LeagueGames(leagues, order)
  {
    if order[0] != k {
      LeagueGamesComplete(leagues, order[1..], k, j);
    } else {
      var games := leagues[k];
      var tagged := seq(|games|, i requires 0 <= i < |games| => Tag(games[i], k));
      assert tagged[j] == Tag(leagues[k][j], k);
    }
  }

  /**
   * The statistics screen's load step: the casual games as stored, then
   * every league's games tagged with the league's name, league by league in
   * the dictionary's order.
   */
  method MergeGames(casual: seq<BowlingGame>, leagues: map<string, seq<BowlingGame>>, order: seq<string>)
    returns (games: seq<BowlingGame>)
    requires IsKeyOrder(leagues, order)
    ensures games == casual + LeagueGames(leagues, order)
    ensures games[..|casual|] == casual
    ensures forall g :: g in games[|casual|..] ==> g.isLeagueGame && g.leagueName.Some? && g.leagueName.value in leagues
    ensures forall k, j :: k in leagues && 0 <= j < |leagues[k]| ==> Tag(leagues[k][j], k) in games
  {
    games := [];
    games := games + casual;
    var n := 0;
    while n < |order|
      invariant 0 <= n <= |order|
      invariant games + LeagueGames(leagues, order[n..]) == casual + LeagueGames(leagues, order)
    {
      var league := order[n];
      var leagueGames := leagues[league];
      var j := 0;
      ghost var start := games;
      while j < |leagueGames|
        invariant 0 <= j <= |leagueGames|
        invariant games == start + seq(j, i requires 0 <= i < j => Tag(leagueGames[i], league))
      {
        var game := leagueGames[j];
        game := game.(isLeagueGame := true);
        game := game.(leagueName := Some(league));
        games := games + [game];
        j := j + 1;
      }
      assert order[n..][1..] == order[n + 1..];
      n := n + 1;
    }
    assert order[n..] == [];
    assert LeagueGames(leagues, order[n..]) == [];
    LeagueGamesTagged(leagues, order);
    forall k, j | k in leagues && 0 <= j < |leagues[k]|
      ensures Tag(leagues[k][j], k) in games
    {
      LeagueGamesComplete(leagues, order, k, j);
      assert games == casual + LeagueGames(leagues, order);
    }
    assert games == casual + LeagueGames(leagues, order);
    assert games[|casual|..] == LeagueGames(leagues, order);
  }

  /**
   * Where the entry screen's Save puts a game: appended to the casual list,
   * or appended to its league's list in the league dictionary (created
   * when the league has none yet).
   */
  function StoreGame(casual: seq<BowlingGame>, leagues: map<string, seq<BowlingGame>>, leagueName: Option<string>,
                     game: BowlingGame): (r: (seq<BowlingGame>, map<string, seq<BowlingGame>>))
    // a casual game is appended to the casual list and the leagues are kept
    ensures leagueName.None? ==> r.0 == casual + [game] && r.1 == leagues
    // a league game is appended to its league's list, created empty when missing; nothing else changes
    ensures leagueName.Some? ==> r.0 == casual && r.1.Keys == leagues.Keys + {leagueName.value}
    ensures leagueName.Some? ==>
      r.1[leagueName.value] == (if leagueName.value in leagues then leagues[leagueName.value] else []) + [game]
    ensures leagueName.Some? ==> forall k :: k in leagues && k != leagueName.value ==> r.1[k] == leagues[k]
  {
    match leagueName
    case None => (casual + [game], leagues)
    case Some(league) =>
      var existing := if league in leagues then leagues[league] else [];
      (casual, leagues[league := existing + [game]])
  }

  /**
   * A saved game is found again by the statistics screen's load step: as
   * saved when it is casual, tagged with its league otherwise; every game
   * stored before is still found.
   */
  lemma SavedGameIsLoaded(casual: seq<BowlingGame>, leagues: map<string, seq<BowlingGame>>, leagueName: Option<string>,
                          game: BowlingGame, order: seq<string>)
    requires IsKeyOrder(StoreGame(casual, leagues, leagueName, game).1, order)
    ensures var stored := StoreGame(casual, leagues, leagueName, game);
      var loaded := stored.0 + LeagueGames(stored.1, order);
      (leagueName.None? ==> game in loaded) &&
      (leagueName.Some? ==> Tag(game, leagueName.value) in loaded) &&
      (forall g :: g in casual ==> g in loaded) &&
      (forall k, j :: k in leagues && 0 <= j < |leagues[k]| ==> Tag(leagues[k][j], k) in loaded)
  {
    var stored := StoreGame(casual, leagues, leagueName, game);
    var loaded := stored.0 + LeagueGames(stored.1, order);
    if leagueName.Some? {
      var league := leagueName.value;
      var now := stored.1[league];
      assert now[|now| - 1] == game;
      LeagueGamesComplete(stored.1, order, league, |now| - 1);
    }
    forall k, j | k in leagues && 0 <= j < |leagues[k]|
      ensures Tag(leagues[k][j], k) in loaded
    {
      assert stored.1[k][j] == leagues[k][j];
      LeagueGamesComplete(stored.1, order, k, j);
    }
  }

  // ---------------------------------------------------------------- score sorts

  /** Ordered by total score: non-increasing for "highest", non-decreasing for "lowest". */
  predicate SortedByScore(games: seq<BowlingGame>, highestFirst: bool) {
    forall i, j :: 0 <= i < j < |games| ==> Before(games[i], games[j], highestFirst)
  }

  predicate Before(a: BowlingGame, b: BowlingGame, highestFirst: bool) {
    if highestFirst then a.totalScore >= b.totalScore else a.totalScore <= b.totalScore
  }

  function Insert(g: BowlingGame, sorted: seq<BowlingGame>, highestFirst: bool): (r: seq<BowlingGame>)
    requires SortedByScore(sorted, highestFirst)
    ensures multiset(r) == multiset(sorted) + multiset{g}
    ensures forall x :: x in r ==> x == g || x in sorted
    ensures SortedByScore(r, highestFirst)
  {
    if sorted == [] || Before(g, sorted[0], highestFirst) then
      [g] + sorted
    else
      var rest := Insert(g, sorted[1..], highestFirst);
      assert sorted == [sorted[0]] + sorted[1..];
      InsertStep(g, sorted, rest, highestFirst);
      [sorted[0]] + rest
  }

  lemma InsertStep(g: BowlingGame, sorted: seq<BowlingGame>, rest: seq<BowlingGame>, highestFirst: bool)
    requires sorted != [] && !Before(g, sorted[0], highestFirst)
    requires SortedByScore(sorted, highestFirst) && SortedByScore(rest, highestFirst)
    requires forall x :: x in rest ==> x == g || x in sorted[1..]
    ensures SortedByScore([sorted[0]] + rest, highestFirst)
  {
    var r := [sorted[0]] + rest;
    forall i, j | 0 <= i < j < |r|
      ensures Before(r[i], r[j], highestFirst)
    {
      if i == 0 {
        assert r[j] == rest[j - 1];
        assert r[j] in rest;
        if r[j] != g {
          var k :| 0 <= k < |sorted[1..]| && sorted[1..][k] == r[j];
          assert sorted[k + 1] == r[j];
        }
      } else {
        assert r[i] == rest[i - 1] && r[j] == rest[j - 1];
      }
    }
  }

  /** The score sorts: a permutation of the games ordered by total score. */
  function SortByScore(games: seq<BowlingGame>, highestFirst: bool): (r: seq<BowlingGame>)
    ensures multiset(r) == multiset(games)
    ensures SortedByScore(r, highestFirst)
  {
    if games == [] then []
    else
      assert games == [games[0]] + games[1..];
      Insert(games[0], SortByScore(games[1..], highestFirst), highestFirst)
  }

  // ---------------------------------------------------------------- monthly totals

  /** The games whose month key is `month`, in order. */
  function MonthGames(games: seq<BowlingGame>, monthOf: BowlingGame -> string, month: string): seq<BowlingGame> {
    Select(games, g => monthOf(g) == month)
  }

  /** The (total, count) per month that the monthly loop accumulates, game by game. */
  function MonthTotals(games: seq<BowlingGame>, monthOf: BowlingGame -> string): map<string, (int, int)> {
    if games == [] then map[]
    else
      var totals := MonthTotals(games[..|games| - 1], monthOf);
      var game := games[|games| - 1];
      var month := monthOf(game);
      if month in totals then totals[month := (totals[month].0 + game.totalScore, totals[month].1 + 1)]
      else totals[month := (game.totalScore, 1)]
  }

  lemma MonthGamesSnoc(prefix: seq<BowlingGame>, game: BowlingGame, monthOf: BowlingGame -> string, month: string)
    ensures MonthGames(prefix + [game], monthOf, month) ==
      MonthGames(prefix, monthOf, month) + (if monthOf(game) == month then [game] else [])
  {
    SelectAppend(prefix, [game], g => monthOf(g) == month);
    assert [game][1..] == [];
  }

  /** One more game adds its score and one to its own month's entry, creating it when missing. */
  lemma MonthTotalsSnocSame(prefix: seq<BowlingGame>, game: BowlingGame, monthOf: BowlingGame -> string, month: string)
    requires monthOf(game) == month
    ensures var totals := MonthTotals(prefix, monthOf);
      var after := MonthTotals(prefix + [game], monthOf);
      month in after &&
      (month in totals ==> after[month] == (totals[month].0 + game.totalScore, totals[month].1 + 1)) &&
      (month !in totals ==> after[month] == (game.totalScore, 1))
  {
    var games := prefix + [game];
    assert games[..|games| - 1] == prefix;
    assert games[|games| - 1] == game;
  }

  /** One more game leaves every other month's entry as it was. */
  lemma MonthTotalsSnocOther(prefix: seq<BowlingGame>, game: BowlingGame, monthOf: BowlingGame -> string, month: string)
    requires monthOf(game) != month
    ensures var totals := MonthTotals(prefix, monthOf);
      var after := MonthTotals(prefix + [game], monthOf);
      (month in after <==> month in totals) && (month in totals ==> after[month] == totals[month])
  {
    var games := prefix + [game];
    assert games[..|games| - 1] == prefix;
    assert games[|games| - 1] == game;
  }

  /** The meaning of a month's entry, as the monthly loop leaves it. */
  predicate MonthEntryMeans(games: seq<BowlingGame>, monthOf: BowlingGame -> string, month: string) {
    var totals := MonthTotals(games, monthOf);
    var mine := MonthGames(games, monthOf, month);
    (month in totals <==> mine != []) &&
    (month in totals ==> totals[month] == (SumScores(mine), |mine|))
  }

  lemma SumScoresSnoc(games: seq<BowlingGame>, game: BowlingGame)
    ensures SumScores(games + [game]) == SumScores(games) + game.totalScore
  {
    SumScoresAppend(games, [game]);
    assert [game][1..] == [];
  }

  /** A month's (total, count) entry after one more game of that month, stated over plain values. */
  lemma EntryStep(before: seq<BowlingGame>, game: BowlingGame, totals: map<string, (int, int)>,
                  after: map<string, (int, int)>, month: string)
    requires month in totals <==> before != []
    requires month in totals ==> totals[month] == (SumScores(before), |before|)
    requires month in after
    requires month in totals ==> after[month] == (totals[month].0 + game.totalScore, totals[month].1 + 1)
    requires month !in totals ==> after[month] == (game.totalScore, 1)
    ensures after[month] == (SumScores(before + [game]), |before + [game]|)
  {
    SumScoresSnoc(before, game);
    if month !in totals {
      assert before == [];
    }
  }

  /** After one more game of a month, that month's entry is the previous games of the month plus this one. */
  lemma MonthEntryAfter(prefix: seq<BowlingGame>, game: BowlingGame, monthOf: BowlingGame -> string, month: string)
    requires monthOf(game) == month
    requires MonthEntryMeans(prefix, monthOf, month)
    ensures var after := MonthTotals(prefix + [game], monthOf);
      var before := MonthGames(prefix, monthOf, month);
      month in after && after[month] == (SumScores(before + [game]), |before + [game]|)
  {
    MonthTotalsSnocSame(prefix, game, monthOf, month);
    var before := MonthGames(prefix, monthOf, month);
    EntryStep(before, game, MonthTotals(prefix, monthOf), MonthTotals(prefix + [game], monthOf), month);
  }

  lemma MonthEntrySameMonth(prefix: seq<BowlingGame>, game: BowlingGame, monthOf: BowlingGame -> string, month: string)
    requires monthOf(game) == month
    requires MonthEntryMeans(prefix, monthOf, month)
    ensures MonthEntryMeans(prefix + [game], monthOf, month)
  {
    MonthEntryAfter(prefix, game, monthOf, month);
    MonthGamesSnoc(prefix, game, monthOf, month);
  }

  lemma MonthEntryOtherMonth(prefix: seq<BowlingGame>, game: BowlingGame, monthOf: BowlingGame -> string, month: string)
    requires monthOf(game) != month
    requires MonthEntryMeans(prefix, monthOf, month)
    ensures MonthEntryMeans(prefix + [game], monthOf, month)
  {
    MonthTotalsSnocOther(prefix, game, monthOf, month);
    MonthGamesSnoc(prefix, game, monthOf, month);
    var before := MonthGames(prefix, monthOf, month);
    assert before + [] == before;
  }

  /** Each month's entry is the sum and the number of that month's games; months without games have none. */
  lemma {:induction false} MonthTotalsMeaning(games: seq<BowlingGame>, monthOf: BowlingGame -> string, month: string)
    ensures MonthEntryMeans(games, monthOf, month)
  {
    if games != [] {
      var prefix := games[..|games| - 1];
      var game := games[|games| - 1];
      assert games == prefix + [game];
      MonthTotalsMeaning(prefix, monthOf, month);
      if monthOf(game) == month {
        MonthEntrySameMonth(prefix, game, monthOf, month);
      } else {
        MonthEntryOtherMonth(prefix, game, monthOf, month);
      }
    }
  }

  /** The months with an entry are exactly the months of the games. */
  lemma MonthTotalsKeys(games: seq<BowlingGame>, monthOf: BowlingGame -> string)
    ensures MonthTotals(games, monthOf).Keys == set g | g in games :: monthOf(g)
  {
    var totals := MonthTotals(games, monthOf);
    forall month | month in totals
      ensures month in set g | g in games :: monthOf(g)
    {
      MonthTotalsMeaning(games, monthOf, month);
      var mine := MonthGames(games, monthOf, month);
      assert mine[0] in mine;
    }
    forall month | month in set g | g in games :: monthOf(g)
      ensures month in totals
    {
      var g :| g in games && monthOf(g) == month;
      MonthTotalsMeaning(games, monthOf, month);
      assert g in MonthGames(games, monthOf, month);
    }
  }

  /** The monthly loop: one pass over the games, updating the month's (total, count). */
  method MonthlyTotals(games: seq<BowlingGame>, monthOf: BowlingGame -> string) returns (totals: map<string, (int, int)>)
    ensures totals == MonthTotals(games, monthOf)
    ensures forall month :: month in totals ==>
      totals[month] == (SumScores(MonthGames(games, monthOf, month)), |MonthGames(games, monthOf, month)|) &&
      totals[month].1 >= 1
  {
    totals := map[];
    for i := 0 to |games|
      invariant totals == MonthTotals(games[..i], monthOf)
    {
      var game := games[i];
      var month := monthOf(game);
      if month in totals {
        var existing := totals[month];
        existing := (existing.0 + game.totalScore, existing.1 + 1);
        totals := totals[month := existing];
      } else {
        totals := totals[month := (game.totalScore, 1)];
      }
      assert games[..i + 1][..i] == games[..i];
    }
    assert games[..|games|] == games;
    forall month | month in totals
      ensures totals[month] == (SumScores(MonthGames(games, monthOf, month)), |MonthGames(games, monthOf, month)|)
      ensures totals[month].1 >= 1
    {
      MonthTotalsMeaning(games, monthOf, month);
    }
  }

  /** Each month's average score, truncated as Swift's integer division does. */
  function MonthlyAverages(totals: map<string, (int, int)>): (averages: map<string, int>)
    requires forall month :: month in totals ==> totals[month].1 >= 1
    ensures averages.Keys == totals.Keys
  {
    map month | month in totals :: TruncDiv(totals[month].0, totals[month].1)
  }

  /** `averages` has an entry for exactly the months that have games, each the integer average of that month's scores. */
  predicate AveragesByMonth(averages: map<string, int>, games: seq<BowlingGame>, monthOf: BowlingGame -> string) {
    averages.Keys == (set g | g in games :: monthOf(g)) &&
    forall month :: month in averages ==>
      MonthGames(games, monthOf, month) != [] &&
      averages[month] == TruncDiv(SumScores(MonthGames(games, monthOf, month)), |MonthGames(games, monthOf, month)|)
  }

  lemma MonthTotalsCounted(games: seq<BowlingGame>, monthOf: BowlingGame -> string)
    ensures forall month :: month in MonthTotals(games, monthOf) ==> MonthTotals(games, monthOf)[month].1 >= 1
  {
    forall month | month in MonthTotals(games, monthOf)
      ensures MonthTotals(games, monthOf)[month].1 >= 1
    {
      MonthTotalsMeaning(games, monthOf, month);
    }
  }

  /** The monthly averages of a list of games: its per-month totals, each averaged. */
  function MonthAverages(games: seq<BowlingGame>, monthOf: BowlingGame -> string): map<string, int> {
    MonthTotalsCounted(games, monthOf);
    MonthlyAverages(MonthTotals(games, monthOf))
  }

  /** Exactly the months of the games have an average, and each is the truncated average of that month's games. */
  lemma MonthAveragesMeaning(games: seq<BowlingGame>, monthOf: BowlingGame -> string)
    ensures AveragesByMonth(MonthAverages(games, monthOf), games, monthOf)
  {
    var averages := MonthAverages(games, monthOf);
    MonthTotalsKeys(games, monthOf);
    forall month | month in averages
      ensures MonthGames(games, monthOf, month) != []
      ensures averages[month] ==
        TruncDiv(SumScores(MonthGames(games, monthOf, month)), |MonthGames(games, monthOf, month)|)
    {
      MonthTotalsMeaning(games, monthOf, month);
    }
  }
}
