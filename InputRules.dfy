/**
 * The legality rules of the score-entry screen, as pure functions of the
 * current frame: the typed-entry validator, the ranges the ball pickers
 * offer, and the glyph each ball slot of the live board shows.
 */
module InputRules {
  import opened Wrappers
  import opened Decimal
  import opened Scoring

  /**
   * The typed-entry validator: the pin count that text `text` typed for ball
   * `ball` of frame `frameIndex` would write, or None when it is rejected.
   * Only the second ball of frames 0-8 is capped by the first; the tenth
   * frame has no sum cap.
   */
  function Accept(frame: Frame, frameIndex: int, ball: int, text: string): (r: Option<int>)
    requires |frame| >= 1
    ensures r.Some? ==> ParseInt(text) == r && 0 <= r.value <= 10
    ensures r.Some? && frameIndex < 9 && ball == 1 ==> Val(frame[0]) + r.value <= 10
    ensures r.None? && ParseInt(text).Some? && 0 <= ParseInt(text).value <= 10 ==>
      frameIndex < 9 && ball == 1 && Val(frame[0]) + ParseInt(text).value > 10
  {
    match ParseInt(text)
    case None => None
    case Some(value) =>
      if !(0 <= value <= 10) then None
      else if frameIndex < 9 && ball == 1 && Val(frame[0]) + value > 10 then None
      else Some(value)
  }

  /** In the tenth frame every pin count 0..10, typed as digits, is accepted for any ball. */
  lemma TenthFrameAcceptsAnyCount(frame: Frame, ball: int, n: int)
    requires |frame| >= 1 && 0 <= n <= 10
    ensures Accept(frame, 9, ball, IntString(n)) == Some(n)
  {
    IntStringRoundTrip(n);
  }

  /** A first ball of 5 then a typed 6 for the second ball is rejected. */
  lemma OverfullSecondBallRejected(second: Pin)
    ensures Accept([Some(5), second], 0, 1, "6") == None
  {
    assert "6"[0] == '6' && "6"[1..] == "";
    assert DigitsValue("6") == 6 by {
      assert "6"[..0] == "";
    }
  }

  /** The largest count the ball-2 picker offers; the picker shows 0 through this value. */
  function Ball2Max(frame: Frame, frameIndex: int): (r: int)
    requires |frame| >= 1
    requires frame[0].Some? ==> 0 <= frame[0].value <= 10
    ensures 0 <= r <= 10
    ensures frameIndex < 9 ==> Val(frame[0]) + r == 10
    ensures frameIndex == 9 && frame[0] != Some(10) ==> Val(frame[0]) + r == 10
    ensures frameIndex == 9 && frame[0] == Some(10) ==> r == 10
  {
    if frameIndex == 9 && frame[0] == Some(10) then 10 else 10 - Val(frame[0])
  }

  /** The ball-2 picker is disabled after a strike in frames 0-8. */
  predicate Ball2Disabled(frame: Frame, frameIndex: int)
    requires |frame| >= 1
    ensures Ball2Disabled(frame, frameIndex) ==> frame[0] == Some(10) && Ball2Max(frame, frameIndex) == 0
    ensures frameIndex == 9 ==> !Ball2Disabled(frame, frameIndex)
  {
    frame[0] == Some(10) && frameIndex < 9
  }

  /** The largest count the tenth frame's ball-3 picker offers. */
  function Ball3Max(frame: Frame): (r: int)
    requires |frame| >= 2
    requires frame[1].Some? ==> 0 <= frame[1].value <= 10
    ensures 0 <= r <= 10
    ensures frame[0] == Some(10) || Val(frame[0]) + Val(frame[1]) == 10 ==> r == 10
    ensures !(frame[0] == Some(10) || Val(frame[0]) + Val(frame[1]) == 10) ==> Val(frame[1]) + r == 10
  {
    if frame[0] == Some(10) || Val(frame[0]) + Val(frame[1]) == 10 then 10 else 10 - Val(frame[1])
  }

  /** The ball-3 picker is disabled until ball 2 has a value. */
  predicate Ball3Disabled(frame: Frame)
    requires |frame| >= 2
    // the ball-2 picker shows 0 for an unset ball, yet ball 3 stays disabled; its range would be 0..10
    ensures Ball3Disabled(frame) ==> frame[1].None? && Val(frame[1]) == 0 && Ball3Max(frame) == 10
  {
    frame[1].None?
  }

  /** After a first-ball strike the third-ball picker offers 0..10, whatever the second ball was. */
  lemma ThirdBallAfterStrikeUncapped(second: int, third: Pin)
    requires 0 <= second <= 10
    ensures Ball3Max([Some(10), Some(second), third]) == 10
  {
  }

  /**
   * The glyph the live board shows for ball `ball` of frame `f`: "X" for a
   * 10 at ball 0 or anywhere in the tenth frame, "/" for a ball completing a
   * spare, "" for an unthrown ball, and otherwise the count's digits.
   */
  function DisplayScore(board: Board, f: int, ball: int): (r: string)
    requires WellShaped(board) && 0 <= f < 10 && 0 <= ball < |board[f]|
    ensures r == "" <==> board[f][ball].None?
    ensures r == "X" <==> board[f][ball] == Some(10) && (ball == 0 || f == 9)
    ensures r == "/" <==> board[f][ball].Some? && SlashAt(board, f, ball)
    ensures r != "" && r != "X" && r != "/" ==> board[f][ball].Some? && r == IntString(board[f][ball].value)
    ensures r != "" && r != "X" && r != "/" && IntMin <= board[f][ball].value <= IntMax ==>
      ParseInt(r) == board[f][ball]
  {
    match board[f][ball]
    case None => ""
    case Some(score) =>
      assert IntString(score) != "X" && IntString(score) != "/" by {
        assert "X"[0] == 'X' && "/"[0] == '/';
      }
      assert IntMin <= score <= IntMax ==> ParseInt(IntString(score)) == Some(score) by {
        if IntMin <= score <= IntMax {
          IntStringRoundTrip(score);
        }
      }
      if score == 10 && ball == 0 then "X"
      else if f == 9 && ball == 0 && score == 10 then "X"
      else if f == 9 && ball == 1 && score == 10 then "X"
      else if f == 9 && ball == 2 && score == 10 then "X"
      else if f == 9 && ball == 1 && Val(board[f][0]) + score == 10 then "/"
      else if f == 9 && ball == 2 && Val(board[f][1]) + score == 10 then "/"
      else if f < 9 && board[f][0].Some? && board[f][1].Some? && board[f][0].value + board[f][1].value == 10 then
        (if ball == 1 then "/" else IntString(board[f][0].value))
      else IntString(score)
  }

  /**
   * When the thrown ball at `ball` of frame `f` shows as a spare: in the
   * tenth frame a non-10 ball 1 or 2 that makes 10 with the ball before it
   * (an unthrown one counting 0); in frames 0-8 ball 1 when both balls are
   * thrown and make 10 (even a 10 after a 0).
   */
  predicate SlashAt(board: Board, f: int, ball: int)
    requires WellShaped(board) && 0 <= f < 10 && 0 <= ball < |board[f]| && board[f][ball].Some?
  {
    var score := board[f][ball].value;
    if f == 9 then
      score != 10 && 1 <= ball && Val(board[f][ball - 1]) + score == 10
    else
      ball == 1 && board[f][0].Some? && board[f][0].value + score == 10
  }
}
