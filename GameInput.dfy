/**
 * The score-entry screen's live state: the board, the recomputed frame
 * totals and game total, and the (frame, ball) cursor, with the operations
 * its buttons and pickers run.
 */
module GameInput {
  import opened Wrappers
  import opened Decimal
  import opened Scoring
  import opened InputRules
  import opened Records

  class GameInputView {
    const scores: array<Frame>
    const frameTotals: array<int>
    var currentFrame: int
    var currentBall: int
    var totalScore: int

    /** The board has its fixed shape, every thrown ball is 0..10 and the cursor is in range. */
    ghost predicate Shaped()
      reads this, scores, frameTotals
    {
      scores.Length == 10 && frameTotals.Length == 10 &&
      WellShaped(scores[..]) && PinsInRange(scores[..]) &&
      0 <= currentFrame <= 9 && 0 <= currentBall <= 2
    }

    /** Shaped, and the totals are those the frame-total rule gives for the current board. */
    ghost predicate Valid()
      reads this, scores, frameTotals
    {
      Shaped() &&
      frameTotals[..] == FrameTotals(scores[..]) &&
      totalScore == Sum(frameTotals[..])
    }

    constructor ()
      ensures Valid() && fresh(scores) && fresh(frameTotals)
      ensures scores[..] == EmptyBoard()
      ensures frameTotals[..] == seq(10, _ => 0) && totalScore == 0
      ensures currentFrame == 0 && currentBall == 0
    {
      scores := new Frame[10](f => EmptyFrame(f));
      frameTotals := new int[10](_ => 0);
      currentFrame, currentBall, totalScore := 0, 0, 0;
      new;
      assert scores[..] == EmptyBoard();
      EmptyBoardScoresZero();
    }

    /** Recomputes every frame total and the game total from the board. */
    method UpdateScore()
      requires scores.Length == 10 && frameTotals.Length == 10 && WellShaped(scores[..])
      modifies this`totalScore, frameTotals
      ensures frameTotals[..] == FrameTotals(scores[..])
      ensures totalScore == Sum(frameTotals[..])
    {
      ghost var board := scores[..];
      totalScore := 0;
      for frame := 0 to 10
        invariant forall g :: 0 <= g < frame ==> frameTotals[g] == FrameTotal(board, g)
        invariant totalScore == Sum(frameTotals[..frame])
      {
        var ball1 := Val(scores[frame][0]);
        var ball2 := Val(scores[frame][1]);
        var ball3 := if frame == 9 then Val(scores[frame][2]) else 0;
        if frame == 9 {
          frameTotals[frame] := ball1 + ball2 + ball3;
        } else if ball1 == 10 {
          var bonus1 := Val(scores[frame + 1][0]);
          var bonus2;
          if scores[frame + 1][0] == Some(10) {
            bonus2 := if frame + 2 < 10 then Val(scores[frame + 2][0]) else Val(scores[frame + 1][1]);
          } else {
            bonus2 := Val(scores[frame + 1][1]);
          }
          frameTotals[frame] := 10 + bonus1 + bonus2;
        } else if ball1 + ball2 == 10 {
          frameTotals[frame] := 10 + Val(scores[frame + 1][0]);
        } else {
          frameTotals[frame] := ball1 + ball2;
        }
        assert frameTotals[frame] == FrameTotal(board, frame);
        assert frameTotals[..frame + 1] == frameTotals[..frame] + [frameTotals[frame]];
        SumSnoc(frameTotals[..frame], frameTotals[frame]);
        totalScore := totalScore + frameTotals[frame];
      }
      assert frameTotals[..10] == frameTotals[..];
    }

    /**
     * Typed entry for ball `ball` of the current frame: rejected text changes
     * nothing; an accepted count is written to exactly that slot.
     */
    method HandleInput(newValue: string, ball: int)
      requires Valid()
      requires Accept(scores[currentFrame], currentFrame, ball, newValue).Some? ==>
        0 <= ball < SlotCount(currentFrame)
      modifies scores, frameTotals, this`totalScore
      ensures Valid()
      ensures var accepted := Accept(old(scores[currentFrame]), currentFrame, ball, newValue);
        if accepted.None? then
          scores[..] == old(scores[..]) && frameTotals[..] == old(frameTotals[..]) &&
          totalScore == old(totalScore)
        else
          scores[..] == old(scores[..])[currentFrame := old(scores[currentFrame])[ball := accepted]]
    {
      var parsed := ParseInt(newValue);
      if parsed.None? || !(0 <= parsed.value <= 10) {
        return;
      }
      var value := parsed.value;
      if currentFrame < 9 {
        if ball == 1 {
          var firstBall := Val(scores[currentFrame][0]);
          if firstBall + value > 10 {
            return;
          }
        }
      }
      scores[currentFrame] := scores[currentFrame][ball := Some(value)];
      UpdateScore();
    }

    /** Empties every slot of the current frame; other frames and the cursor stay as they were. */
    method ClearFrame()
      requires Valid()
      modifies scores, frameTotals, this`totalScore
      ensures Valid()
      ensures scores[..] == old(scores[..])[currentFrame := EmptyFrame(currentFrame)]
      ensures currentFrame == old(currentFrame) && currentBall == old(currentBall)
    {
      scores[currentFrame] := if currentFrame == 9 then [None, None, None] else [None, None];
      UpdateScore();
    }

    /** Next-frame navigation: one frame on, never past frame 9; the ball index is kept. */
    method MoveToNextFrame()
      requires Shaped()
      modifies this`currentFrame, this`totalScore, frameTotals
      ensures Valid()
      ensures currentFrame == if old(currentFrame) < 9 then old(currentFrame) + 1 else 9
      ensures currentBall == old(currentBall)
    {
      if currentFrame < 9 {
        currentFrame := currentFrame + 1;
      }
      UpdateScore();
    }

    /** Back navigation: one frame back, never before frame 0; nothing else changes. */
    method MoveToPreviousFrame()
      requires Valid()
      modifies this`currentFrame
      ensures Valid()
      ensures currentFrame == if old(currentFrame) > 0 then old(currentFrame) - 1 else 0
      ensures currentBall == old(currentBall)
    {
      if currentFrame > 0 {
        currentFrame := currentFrame - 1;
      }
    }

    /**
     * The Strike button: a 10 at the cursor; frames 0-8 then move to the next
     * frame, while frame 9 moves to its next ball until ball 2.  Writing to a
     * slot the current frame does not have is an index trap in the app.
     */
    method RecordStrike()
      requires Valid()
      requires currentBall < SlotCount(currentFrame)
      modifies scores, frameTotals, this`totalScore, this`currentFrame, this`currentBall
      ensures Valid()
      ensures scores[..] == old(scores[..])[old(currentFrame) := old(scores[currentFrame])[old(currentBall) := Some(10)]]
      ensures old(currentFrame) < 9 ==> currentFrame == old(currentFrame) + 1 && currentBall == old(currentBall)
      ensures old(currentFrame) == 9 ==>
        currentFrame == 9 && currentBall == if old(currentBall) < 2 then old(currentBall) + 1 else 2
    {
      scores[currentFrame] := scores[currentFrame][currentBall := Some(10)];
      if currentFrame == 9 {
        if currentBall < 2 {
          currentBall := currentBall + 1;
        }
      } else {
        MoveToNextFrame();
      }
      UpdateScore();
    }

    /**
     * The Spare button: in frames 0-8 ball 1 becomes what ball 0 left
     * standing and the cursor moves on; in frame 9 it completes the pair
     * ending at the cursor's ball 1 or 2, and does nothing at ball 0.
     */
    method RecordSpare()
      requires Valid()
      modifies scores, frameTotals, this`totalScore, this`currentFrame, this`currentBall
      ensures Valid()
      ensures old(currentFrame) < 9 ==>
        scores[..] == old(scores[..])[old(currentFrame) :=
          old(scores[currentFrame])[1 := Some(10 - Val(old(scores[currentFrame])[0]))]] &&
        Val(scores[old(currentFrame)][0]) + Val(scores[old(currentFrame)][1]) == 10 &&
        currentFrame == old(currentFrame) + 1 && currentBall == old(currentBall)
      ensures old(currentFrame) == 9 && old(currentBall) == 0 ==>
        scores[..] == old(scores[..]) && currentFrame == 9 && currentBall == 0
      ensures old(currentFrame) == 9 && old(currentBall) > 0 ==>
        scores[..] == old(scores[..])[9 := old(scores[9])[old(currentBall) :=
          Some(10 - Val(old(scores[9])[old(currentBall) - 1]))]] &&
        Val(scores[9][old(currentBall) - 1]) + Val(scores[9][old(currentBall)]) == 10 &&
        currentFrame == 9 && currentBall == 2
    {
      if currentFrame == 9 {
        if currentBall == 1 {
          scores[currentFrame] := scores[currentFrame][1 := Some(10 - Val(scores[currentFrame][0]))];
          currentBall := currentBall + 1;
        } else if currentBall == 2 {
          scores[currentFrame] := scores[currentFrame][2 := Some(10 - Val(scores[currentFrame][1]))];
        }
      } else {
        scores[currentFrame] := scores[currentFrame][1 := Some(10 - Val(scores[currentFrame][0]))];
        MoveToNextFrame();
      }
      UpdateScore();
    }

    /** The ball-1 picker: sets ball 0 of the current frame and, in frames 0-8, empties ball 1. */
    method SetBall1(newValue: int)
      requires Valid() && 0 <= newValue <= 10
      modifies scores, frameTotals, this`totalScore
      ensures Valid()
      ensures scores[..] == old(scores[..])[currentFrame :=
        if currentFrame < 9 then [Some(newValue), None]
        else old(scores[currentFrame])[0 := Some(newValue)]]
    {
      scores[currentFrame] := scores[currentFrame][0 := Some(newValue)];
      if currentFrame < 9 {
        scores[currentFrame] := scores[currentFrame][1 := None];
        assert scores[currentFrame] == [Some(newValue), None];
      }
      UpdateScore();
    }

    /** The ball-2 picker, enabled unless frames 0-8 hold a strike, offering 0 to Ball2Max. */
    method SetBall2(newValue: int)
      requires Valid()
      requires !Ball2Disabled(scores[currentFrame], currentFrame)
      requires 0 <= newValue <= Ball2Max(scores[currentFrame], currentFrame)
      modifies scores, frameTotals, this`totalScore
      ensures Valid()
      ensures scores[..] == old(scores[..])[currentFrame := old(scores[currentFrame])[1 := Some(newValue)]]
      ensures currentFrame < 9 ==> Val(scores[currentFrame][0]) + Val(scores[currentFrame][1]) <= 10
      ensures currentFrame == 9 ==> !Ball3Disabled(scores[9])
    {
      scores[currentFrame] := scores[currentFrame][1 := Some(newValue)];
      UpdateScore();
    }

    /** The tenth frame's ball-3 picker, enabled once ball 2 has a value, offering 0 to Ball3Max. */
    method SetBall3(newValue: int)
      requires Valid() && currentFrame == 9
      requires !Ball3Disabled(scores[9])
      requires 0 <= newValue <= Ball3Max(scores[9])
      modifies scores, frameTotals, this`totalScore
      ensures Valid()
      ensures scores[..] == old(scores[..])[9 := old(scores[9])[2 := Some(newValue)]]
    {
      scores[currentFrame] := scores[currentFrame][2 := Some(newValue)];
      UpdateScore();
    }

    /** The record the Save button builds; league games are tagged only when loaded. */
    method SaveGame(id: Id, date: string, details: GameDetails) returns (game: BowlingGame)
      requires Valid()
      ensures game.id == id && game.date == date
      ensures game.scores == scores[..] && game.frameTotals == frameTotals[..]
      ensures game.totalScore == totalScore
      ensures WellShaped(game.scores) && game.frameTotals == FrameTotals(game.scores)
      ensures game.totalScore == Sum(game.frameTotals)
      ensures game.bowlingStyle == Some(details.bowlingStyle) && game.gripStyle == Some(details.gripStyle)
      ensures game.bowlingBalls == Some(details.bowlingBalls) && game.location == Some(details.location)
      ensures game.laneNumber == Some(details.laneNumber) && game.notes == Some(details.notes)
      ensures !game.isLeagueGame && game.leagueName == None
    {
      game := BowlingGame(id, date, scores[..], totalScore, frameTotals[..],
        Some(details.bowlingStyle), Some(details.gripStyle), Some(details.bowlingBalls),
        Some(details.location), Some(details.laneNumber), Some(details.notes), false, None);
    }
  }
}
