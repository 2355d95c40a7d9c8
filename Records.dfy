/**
 * The saved records: a finished (or saved in-progress) game and a league.
 * Identifiers are generated UUIDs in the app; here they are given values.
 */
module Records {
  import opened Wrappers
  import opened Scoring

  type Id = nat

  datatype BowlingGame = BowlingGame(
    id: Id,
    date: string,
    scores: seq<Frame>,
    totalScore: int,
    frameTotals: seq<int>,
    bowlingStyle: Option<string>,
    gripStyle: Option<string>,
    bowlingBalls: Option<seq<string>>,
    location: Option<string>,
    laneNumber: Option<string>,
    notes: Option<string>,
    isLeagueGame: bool,
    leagueName: Option<string>)

  /** The descriptive fields the entry screen collects besides the scores. */
  datatype GameDetails = GameDetails(
    bowlingStyle: string,
    gripStyle: string,
    bowlingBalls: seq<string>,
    location: string,
    laneNumber: string,
    notes: string)

  /** `dateAdded` is an opaque timestamp; only the league list's date sort reads it. */
  datatype League = League(id: Id, name: string, emoji: string, dateAdded: int)
}
