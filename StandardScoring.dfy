/**
 * An independent reference for the frame-total rule: ordinary ten-pin
 * scoring of the balls in the order they were thrown.  The entry screen
 * looks bonuses up by frame and slot; here they are simply the next one or
 * two balls of a flat sequence.  The two agree on every board.
 */
module StandardScoring {
  import opened Wrappers
  import opened Scoring

  function RollAt(rolls: seq<int>, i: int): int {
    if 0 <= i < |rolls| then rolls[i] else 0
  }

  /** Score of the frame that starts with `rolls[0]`, by the usual rules. */
  function FrameScore(rolls: seq<int>): int {
    if RollAt(rolls, 0) == 10 then 10 + RollAt(rolls, 1) + RollAt(rolls, 2)
    else if RollAt(rolls, 0) + RollAt(rolls, 1) == 10 then 10 + RollAt(rolls, 2)
    else RollAt(rolls, 0) + RollAt(rolls, 1)
  }

  /** Score of frames `frame`..9, given the rolls from that frame's first ball on; the tenth frame is the sum of its balls. */
  function GameScore(rolls: seq<int>, frame: nat): int
    requires frame <= 9
    decreases 9 - frame
  {
    if frame == 9 then Sum(rolls)
    else
      var used := if RollAt(rolls, 0) == 10 then 1 else 2;
      FrameScore(rolls) + GameScore(if used <= |rolls| then rolls[used..] else [], frame + 1)
  }

  /** The balls of frame `f` in throwing order: a strike in frames 0-8 is one ball; unthrown balls are gutter balls. */
  function FrameRolls(board: Board, f: int): seq<int>
    requires WellShaped(board) && 0 <= f < 10
  {
    if f == 9 then [Val(board[9][0]), Val(board[9][1]), Val(board[9][2])]
    else if board[f][0] == Some(10) then [10]
    else [Val(board[f][0]), Val(board[f][1])]
  }

  function RollsFrom(board: Board, f: int): seq<int>
    requires WellShaped(board) && 0 <= f <= 10
    decreases 10 - f
  {
    if f == 10 then [] else FrameRolls(board, f) + RollsFrom(board, f + 1)
  }

  /** All balls of the game in throwing order. */
  function Rolls(board: Board): seq<int>
    requires WellShaped(board)
  {
    RollsFrom(board, 0)
  }

  lemma RollsFromStart(board: Board, g: int)
    requires WellShaped(board) && 0 <= g <= 9
    ensures |RollsFrom(board, g)| >= 2
    ensures RollsFrom(board, g)[0] == Val(board[g][0])
    ensures RollsFrom(board, g)[1] ==
      if g < 9 && board[g][0] == Some(10) then Val(board[g + 1][0]) else Val(board[g][1])
  {
    var rest := RollsFrom(board, g);
    if g < 9 && board[g][0] == Some(10) {
      var next := RollsFrom(board, g + 1);
      assert |next| >= 1 && next[0] == Val(board[g + 1][0]) by {
        assert next == FrameRolls(board, g + 1) + RollsFrom(board, g + 2);
      }
      assert rest == [10] + next;
    } else {
      assert rest == FrameRolls(board, g) + RollsFrom(board, g + 1);
    }
  }

  /** Each total of frames 0-8 equals the standard score of that frame in the flat roll sequence. */
  lemma FrameMatchesStandard(board: Board, f: int)
    requires WellShaped(board) && 0 <= f < 9
    ensures FrameTotal(board, f) == FrameScore(RollsFrom(board, f))
  {
    var rolls := RollsFrom(board, f);
    if f < 9 {
      var next := RollsFrom(board, f + 1);
      RollsFromStart(board, f + 1);
      assert rolls == FrameRolls(board, f) + next;
      if board[f][0] == Some(10) {
        assert RollAt(rolls, 1) == next[0] && RollAt(rolls, 2) == next[1];
      } else {
        assert RollAt(rolls, 0) == Val(board[f][0]) != 10;
        assert RollAt(rolls, 1) == Val(board[f][1]) && RollAt(rolls, 2) == next[0];
      }
    }
  }

  lemma {:induction false} SuffixMatchesStandard(board: Board, f: int)
    requires WellShaped(board) && 0 <= f <= 9
    ensures Sum(FrameTotals(board)[f..]) == GameScore(RollsFrom(board, f), f)
    decreases 9 - f
  {
    var totals := FrameTotals(board);
    var rolls := RollsFrom(board, f);
    if f < 9 {
      FrameMatchesStandard(board, f);
      SuffixMatchesStandard(board, f + 1);
      var used := if RollAt(rolls, 0) == 10 then 1 else 2;
      assert used == |FrameRolls(board, f)|;
      assert rolls[used..] == RollsFrom(board, f + 1);
      assert totals[f..][1..] == totals[f + 1..];
    } else {
      assert totals[9..] == [FrameTotal(board, 9)];
      assert rolls == FrameRolls(board, 9);
      assert Sum(rolls) == rolls[0] + rolls[1] + rolls[2] by {
        assert rolls[1..][0] == rolls[1] && rolls[1..][1..] == [rolls[2]];
        assert Sum([rolls[2]]) == rolls[2];
      }
    }
  }

  /** The entry screen's total equals the standard ten-pin score of the balls thrown. */
  lemma MatchesStandardScoring(board: Board)
    requires WellShaped(board)
    ensures Sum(FrameTotals(board)) == GameScore(Rolls(board), 0)
  {
    SuffixMatchesStandard(board, 0);
    assert FrameTotals(board)[0..] == FrameTotals(board);
  }

  /** Nine strikes and a tenth frame of three strikes. */
  function PerfectBoard(): Board {
    seq(9, _ => [Some(10), None]) + [[Some(10), Some(10), Some(10)]]
  }

  lemma {:induction false} PerfectRolls(f: int)
    requires 0 <= f <= 9
    ensures WellShaped(PerfectBoard())
    ensures RollsFrom(PerfectBoard(), f) == seq(12 - f, _ => 10)
    decreases 9 - f
  {
    var board := PerfectBoard();
    assert WellShaped(board);
    if f < 9 {
      PerfectRolls(f + 1);
      assert board[f][0] == Some(10);
      assert RollsFrom(board, f) == [10] + RollsFrom(board, f + 1);
    } else {
      assert RollsFrom(board, 9) == FrameRolls(board, 9);
    }
  }

  /** Twelve strikes: every frame is worth 30 and the game 300. */
  lemma PerfectGame()
    ensures WellShaped(PerfectBoard())
    ensures FrameTotals(PerfectBoard()) == seq(10, _ => 30)
    ensures Sum(FrameTotals(PerfectBoard())) == 300
    ensures Rolls(PerfectBoard()) == seq(12, _ => 10)
  {
    var board := PerfectBoard();
    assert WellShaped(board);
    var totals := FrameTotals(board);
    forall f | 0 <= f < 10
      ensures totals[f] == 30
    {
      assert totals[f] == FrameTotal(board, f);
      assert board[f][0] == Some(10);
      if f < 9 {
        assert board[f + 1][0] == Some(10);
        if f < 8 {
          assert board[f + 2][0] == Some(10);
        } else {
          assert board[9][1] == Some(10);
        }
      } else {
        assert board[9][1] == Some(10) && board[9][2] == Some(10);
      }
    }
    assert totals == seq(10, _ => 30);
    SumBounds(totals, 30, 30);
    PerfectRolls(0);
  }
}
