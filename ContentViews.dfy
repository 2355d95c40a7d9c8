/**
 * The state of the list and statistics screens: the casual game list, the
 * league list, one league's game list with its statistics, and the
 * statistics screen with its mode filter, merged game list and monthly
 * averages. Stored data arrives as parameters (a failed decode is the empty
 * list or dictionary); dates are outside the model.
 */
module ContentViews {
  import opened Records
  import opened Stats

  /** The score-based options of the list screens' sort menu. */
  datatype ScoreOrder = HighestScore | LowestScore {
    predicate HighestFirst() {
      this == HighestScore
    }
  }

  /** The casual game list. */
  class CasualView {
    var savedGames: seq<BowlingGame>

    /** `stored` is the decoded casual-games storage: the empty list when decoding fails. */
    constructor(stored: seq<BowlingGame>)
      ensures savedGames == stored
    {
      savedGames := stored;
    }

    /** Reorders the list by total score; equal scores may come in any order. */
    method SortGames(option: ScoreOrder)
      modifies this
      ensures multiset(savedGames) == multiset(old(savedGames))
      ensures SortedByScore(savedGames, option.HighestFirst())
    {
      savedGames := SortByScore(savedGames, option.HighestFirst());
    }

    /** Removes the games with the given id and keeps the others in order. */
    method DeleteGame(id: Id)
      modifies this
      ensures savedGames == RemoveById(old(savedGames), GameId, id)
      ensures forall g :: g in savedGames <==> g in old(savedGames) && g.id != id
    {
      savedGames := RemoveById(savedGames, GameId, id);
    }
  }

  /** The league list. */
  class LeagueView {
    var leagues: seq<League>

    /** `stored` is the decoded league-list storage: the empty list when decoding fails. */
    constructor(stored: seq<League>)
      ensures leagues == stored
    {
      leagues := stored;
    }

    /** Removes the leagues with the given id and keeps the others in order; their games stay stored. */
    method DeleteLeague(id: Id)
      modifies this
      ensures leagues == RemoveById(old(leagues), LeagueId, id)
      ensures forall l :: l in leagues <==> l in old(leagues) && l.id != id
    {
      leagues := RemoveById(leagues, LeagueId, id);
    }
  }

  /** One league's games and the statistics shown above them. */
  class LeagueGamesView {
    const leagueName: string
    /** The stored league-games dictionary, keyed by league name. */
    var store: map<string, seq<BowlingGame>>
    var games: seq<BowlingGame>
    var averageScore: int
    var highScore: int
    var totalGames: int
    var totalStrikes: int
    var totalSpares: int

    /** The statistics fields agree with the game list (the counts only when it is non-empty). */
    predicate StatsAgree()
      reads this
    {
      averageScore == AverageScore(games) &&
      highScore == HighScore(games) &&
      (games != [] ==>
        totalGames == |games| &&
        totalStrikes == TotalStrikes(games) &&
        totalSpares == TotalSpares(games))
    }

    /** `store` is the decoded league-games storage: the empty dictionary when decoding fails. */
    constructor(leagueName: string, store: map<string, seq<BowlingGame>>)
      ensures this.leagueName == leagueName && this.store == store
      ensures games == [] && averageScore == 0 && highScore == 0
      ensures totalGames == 0 && totalStrikes == 0 && totalSpares == 0
      ensures StatsAgree()
    {
      this.leagueName := leagueName;
      this.store := store;
      games := [];
      averageScore, highScore := 0, 0;
      totalGames, totalStrikes, totalSpares := 0, 0, 0;
    }

    /**
     * Recomputes the statistics. With no games only the average and the
     * high score are reset; the game, strike and spare counts keep their
     * previous values.
     */
    method ComputeStats()
      modifies this`averageScore, this`highScore, this`totalGames, this`totalStrikes, this`totalSpares
      ensures StatsAgree()
      ensures games == [] ==>
        averageScore == 0 && highScore == 0 &&
        totalGames == old(totalGames) && totalStrikes == old(totalStrikes) && totalSpares == old(totalSpares)
    {
      if games == [] {
        averageScore := 0;
        highScore := 0;
        return;
      }
      totalGames := |games|;
      var totalScores := SumScores(games);
      highScore := HighScore(games);
      totalStrikes := TotalStrikes(games);
      totalSpares := TotalSpares(games);
      averageScore := TruncDiv(totalScores, totalGames);
    }

    /** Reorders the games by total score, then recomputes the statistics. */
    method SortGames(option: ScoreOrder)
      modifies this`games, this`averageScore, this`highScore, this`totalGames, this`totalStrikes, this`totalSpares
      ensures multiset(games) == multiset(old(games))
      ensures SortedByScore(games, option.HighestFirst())
      ensures StatsAgree()
      // with no games the counts keep their previous values, as ComputeStats leaves them
      ensures games == [] ==>
        totalGames == old(totalGames) && totalStrikes == old(totalStrikes) && totalSpares == old(totalSpares)
    {
      games := SortByScore(games, option.HighestFirst());
      ComputeStats();
    }

    /**
     * Reloads this league's games from the store when it has an entry for
     * the league. The reloaded list is then put in date order, which is
     * outside the model, so only its contents are stated.
     */
    method RefreshGames()
      modifies this`games, this`averageScore, this`highScore, this`totalGames, this`totalStrikes, this`totalSpares
      ensures leagueName in store ==> multiset(games) == multiset(store[leagueName]) && StatsAgree()
      ensures games == [] ==>
        totalGames == old(totalGames) && totalStrikes == old(totalStrikes) && totalSpares == old(totalSpares)
      ensures leagueName !in store ==>
        (games == old(games) && averageScore == old(averageScore) &&
         highScore == old(highScore) && totalGames == old(totalGames) &&
         totalStrikes == old(totalStrikes) && totalSpares == old(totalSpares))
    {
      if leagueName in store {
        games := store[leagueName];
        ComputeStats();
      }
    }

    /** Removes the game with the given id from this league's stored games, then reloads. */
    method DeleteGame(id: Id)
      modifies this
      ensures leagueName in old(store) ==>
        store == old(store)[leagueName := RemoveById(old(store)[leagueName], GameId, id)] &&
        multiset(games) == multiset(store[leagueName]) && StatsAgree()
      ensures leagueName !in old(store) ==> store == old(store) && games == old(games)
      ensures leagueName in old(store) ==> forall g :: g in games ==> g.id != id
      ensures StatsAgree()
      // deleting the last game leaves the previous counts in place
      ensures games == [] ==>
        totalGames == old(totalGames) && totalStrikes == old(totalStrikes) && totalSpares == old(totalSpares)
    {
      if leagueName in store {
        store := store[leagueName := RemoveById(store[leagueName], GameId, id)];
      }
      RefreshGames();
      ComputeStats();
      if leagueName in old(store) {
        forall g | g in games
          ensures g.id != id
        {
          assert g in multiset(store[leagueName]);
        }
      }
    }
  }

  /** The statistics screen. */
  class StatsView {
    var selectedMode: string
    var selectedLeague: string
    var availableLeagues: seq<string>
    var allGames: seq<BowlingGame>
    var filteredGames: seq<BowlingGame>
    var totalGames: int
    var averageScore: int
    var highScore: int
    var totalStrikes: int
    var totalSpares: int
    var monthlyAverages: map<string, int>
    /** The month key of a game's date, an opaque input here. */
    const monthOf: BowlingGame -> string

    /** The filtered list and every statistic agree with the full list and the current selection. */
    predicate Consistent()
      reads this
    {
      filteredGames == FilterGames(allGames, selectedMode, selectedLeague) &&
      totalGames == |filteredGames| &&
      averageScore == AverageScore(filteredGames) &&
      highScore == HighScore(filteredGames) &&
      totalStrikes == TotalStrikes(filteredGames) &&
      totalSpares == TotalSpares(filteredGames) &&
      monthlyAverages == MonthAverages(filteredGames, monthOf)
    }

    constructor(monthOf: BowlingGame -> string)
      ensures this.monthOf == monthOf
      ensures selectedMode == "Overall" && selectedLeague == "" && availableLeagues == []
      ensures allGames == [] && filteredGames == []
      ensures Consistent()
    {
      this.monthOf := monthOf;
      selectedMode := "Overall";
      selectedLeague := "";
      availableLeagues := [];
      allGames := [];
      filteredGames := [];
      totalGames, averageScore, highScore, totalStrikes, totalSpares := 0, 0, 0, 0, 0;
      monthlyAverages := map[];
    }

    /** Each month's average over the filtered games. */
    method ComputeMonthlyAverages()
      modifies this`monthlyAverages
      ensures monthlyAverages == MonthAverages(filteredGames, monthOf)
      ensures monthlyAverages.Keys == set g | g in filteredGames :: monthOf(g)
      ensures forall month :: month in monthlyAverages ==>
        monthlyAverages[month] ==
          TruncDiv(SumScores(MonthGames(filteredGames, monthOf, month)), |MonthGames(filteredGames, monthOf, month)|)
    {
      var totals := MonthlyTotals(filteredGames, monthOf);
      monthlyAverages := MonthlyAverages(totals);
      MonthAveragesMeaning(filteredGames, monthOf);
    }

    /** Recomputes every statistic from the filtered games; all are 0 and the monthly list empty when there are none. */
    method ComputeStats()
      modifies this`totalGames, this`averageScore, this`highScore, this`totalStrikes, this`totalSpares, this`monthlyAverages
      ensures totalGames == |filteredGames| && averageScore == AverageScore(filteredGames)
      ensures highScore == HighScore(filteredGames)
      ensures totalStrikes == TotalStrikes(filteredGames) && totalSpares == TotalSpares(filteredGames)
      ensures monthlyAverages == MonthAverages(filteredGames, monthOf)
      ensures filteredGames == [] ==>
        totalGames == 0 && averageScore == 0 && highScore == 0 &&
        totalStrikes == 0 && totalSpares == 0 && monthlyAverages == map[]
    {
      if filteredGames == [] {
        totalGames, averageScore, highScore, totalStrikes, totalSpares := 0, 0, 0, 0, 0;
        monthlyAverages := map[];
        return;
      }
      totalGames := |filteredGames|;
      var totalScores := SumScores(filteredGames);
      highScore := HighScore(filteredGames);
      totalStrikes := TotalStrikes(filteredGames);
      totalSpares := TotalSpares(filteredGames);
      averageScore := TruncDiv(totalScores, totalGames);
      ComputeMonthlyAverages();
    }

    /** Applies the mode filter to the full list, then recomputes the statistics. */
    method ApplyFilter()
      modifies this`filteredGames, this`totalGames, this`averageScore, this`highScore, this`totalStrikes,
        this`totalSpares, this`monthlyAverages
      ensures Consistent()
    {
      filteredGames := FilterGames(allGames, selectedMode, selectedLeague);
      ComputeStats();
    }

    /** Choosing a mode in the picker re-filters. */
    method SelectMode(mode: string)
      modifies this`selectedMode, this`filteredGames, this`totalGames, this`averageScore, this`highScore,
        this`totalStrikes, this`totalSpares, this`monthlyAverages
      ensures selectedMode == mode
      ensures unchanged(this`selectedLeague, this`allGames, this`availableLeagues)
      ensures Consistent()
    {
      selectedMode := mode;
      ApplyFilter();
    }

    /** Choosing a league in the picker re-filters. */
    method SelectLeague(league: string)
      modifies this`selectedLeague, this`filteredGames, this`totalGames, this`averageScore, this`highScore,
        this`totalStrikes, this`totalSpares, this`monthlyAverages
      ensures selectedLeague == league
      ensures unchanged(this`selectedMode, this`allGames, this`availableLeagues)
      ensures Consistent()
    {
      selectedLeague := league;
      ApplyFilter();
    }

    /** Offers the league names in the dictionary's order and selects the first when none is selected. */
    method ExtractLeagues(order: seq<string>)
      modifies this`availableLeagues, this`selectedLeague
      ensures availableLeagues == order
      ensures old(selectedLeague) != "" ==> selectedLeague == old(selectedLeague)
      ensures old(selectedLeague) == "" ==> selectedLeague == (if order == [] then "" else order[0])
    {
      availableLeagues := order;
      if selectedLeague == "" && |order| > 0 {
        selectedLeague := order[0];
      }
    }

    /**
     * Loads the casual games and the league dictionary (whose keys, in
     * iteration order, are `order`), tags the league games, offers the
     * league names and re-filters.
     */
    method LoadAllGames(casual: seq<BowlingGame>, leagues: map<string, seq<BowlingGame>>, order: seq<string>)
      requires IsKeyOrder(leagues, order)
      modifies this`allGames, this`availableLeagues, this`selectedLeague, this`filteredGames, this`totalGames,
        this`averageScore, this`highScore, this`totalStrikes, this`totalSpares, this`monthlyAverages
      ensures allGames == casual + LeagueGames(leagues, order)
      ensures availableLeagues == order
      ensures unchanged(this`selectedMode)
      ensures old(selectedLeague) != "" ==> selectedLeague == old(selectedLeague)
      ensures old(selectedLeague) == "" ==> selectedLeague == (if order == [] then "" else order[0])
      ensures Consistent()
    {
      var games := MergeGames(casual, leagues, order);
      allGames := games;
      ExtractLeagues(order);
      ApplyFilter();
    }
  }
}
