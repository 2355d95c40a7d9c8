/**
 * The game-details screen: counters over a saved game's score matrix and the
 * glyph each score box shows.  A saved matrix is whatever was stored, so
 * nothing here relies on the live board's shape.
 */
module GameDetail {
  import opened Wrappers
  import opened Decimal
  import opened Scoring
  import InputRules

  /** All slots of all frames, frame after frame (`flatMap { $0 }`). */
  function Flatten(frames: seq<Frame>): seq<Pin> {
    if frames == [] then [] else frames[0] + Flatten(frames[1..])
  }

  lemma {:induction false} FlattenAppend(a: seq<Frame>, b: seq<Frame>)
    ensures Flatten(a + b) == Flatten(a) + Flatten(b)
  {
    if a != [] {
      assert (a + b)[0] == a[0] && (a + b)[1..] == a[1..] + b;
      FlattenAppend(a[1..], b);
    } else {
      assert a + b == b;
    }
  }

  /** How many slots hold `v` (`filter { $0 == v }.count`). */
  function CountOf(pins: seq<Pin>, v: Pin): (r: nat)
    ensures r == multiset(pins)[v]
  {
    if pins == [] then 0
    else
      assert pins == [pins[0]] + pins[1..];
      (if pins[0] == v then 1 else 0) + CountOf(pins[1..], v)
  }

  /** The strike counter: every slot holding exactly 10, at any frame and any ball. */
  function CountStrikes(scores: seq<Frame>): (r: nat)
    ensures r == multiset(Flatten(scores))[Some(10)]
  {
    CountOf(Flatten(scores), Some(10))
  }

  lemma CountStrikesAppend(a: seq<Frame>, b: seq<Frame>)
    ensures CountStrikes(a + b) == CountStrikes(a) + CountStrikes(b)
  {
    FlattenAppend(a, b);
  }

  /** How many frames satisfy `keep` (`filter { … }.count`). */
  function CountFrames(frames: seq<Frame>, keep: Frame -> bool): (r: nat)
    ensures r <= |frames|
  {
    if frames == [] then 0
    else (if keep(frames[0]) then 1 else 0) + CountFrames(frames[1..], keep)
  }

  lemma {:induction false} CountFramesAppend(a: seq<Frame>, b: seq<Frame>, keep: Frame -> bool)
    ensures CountFrames(a + b, keep) == CountFrames(a, keep) + CountFrames(b, keep)
  {
    if a != [] {
      assert (a + b)[0] == a[0] && (a + b)[1..] == a[1..] + b;
      CountFramesAppend(a[1..], b, keep);
    } else {
      assert a + b == b;
    }
  }

  /** Frames meeting two predicates that never hold together are at most all the frames. */
  lemma {:induction false} CountFramesDisjoint(frames: seq<Frame>, p: Frame -> bool, q: Frame -> bool)
    requires forall i :: 0 <= i < |frames| ==> !(p(frames[i]) && q(frames[i]))
    ensures CountFrames(frames, p) + CountFrames(frames, q) <= |frames|
  {
    if frames != [] {
      assert !(p(frames[0]) && q(frames[0]));
      CountFramesDisjoint(frames[1..], p, q);
    }
  }

  /** A spare on the details screen: two thrown balls making 10, the first not a strike. */
  predicate IsSpare(frame: Frame) {
    |frame| >= 2 && frame[0].Some? && frame[1].Some? &&
    frame[0].value + frame[1].value == 10 && frame[0].value != 10
  }

  /** An open frame on the details screen: unthrown balls count 0, neither a first-ball 10 nor a pair making 10. */
  predicate IsOpen(frame: Frame) {
    |frame| >= 2 && !(Val(frame[0]) == 10 || Val(frame[0]) + Val(frame[1]) == 10)
  }

  /** The spare count: at most the frame count, 0 exactly when no frame is a spare, all exactly when every frame is. */
  function CountSpares(scores: seq<Frame>): (r: nat)
    ensures r <= |scores|
    ensures r == 0 <==> forall i :: 0 <= i < |scores| ==> !IsSpare(scores[i])
    ensures r == |scores| <==> forall i :: 0 <= i < |scores| ==> IsSpare(scores[i])
  {
    CountFramesNone(scores, IsSpare);
    CountFramesAll(scores, IsSpare);
    CountFrames(scores, IsSpare)
  }

  /** The open-frame count: at most the frame count, 0 exactly when no frame is open, all exactly when every frame is. */
  function CountOpenFrames(scores: seq<Frame>): (r: nat)
    ensures r <= |scores|
    ensures r == 0 <==> forall i :: 0 <= i < |scores| ==> !IsOpen(scores[i])
    ensures r == |scores| <==> forall i :: 0 <= i < |scores| ==> IsOpen(scores[i])
  {
    CountFramesNone(scores, IsOpen);
    CountFramesAll(scores, IsOpen);
    CountFrames(scores, IsOpen)
  }

  /** No frame is both a spare and open, so spares and open frames together never exceed the frames. */
  lemma SparesAndOpenDisjoint(scores: seq<Frame>)
    ensures CountSpares(scores) + CountOpenFrames(scores) <= |scores|
  {
    CountFramesDisjoint(scores, IsSpare, IsOpen);
  }

  /** Every frame is counted exactly when every frame passes. */
  lemma {:induction false} CountFramesAll(frames: seq<Frame>, keep: Frame -> bool)
    ensures CountFrames(frames, keep) == |frames| <==> forall i :: 0 <= i < |frames| ==> keep(frames[i])
  {
    if frames != [] {
      CountFramesAll(frames[1..], keep);
      assert forall i :: 1 <= i < |frames| ==> frames[i] == frames[1..][i - 1];
    }
  }

  /** No frame is counted exactly when no frame passes. */
  lemma {:induction false} CountFramesNone(frames: seq<Frame>, keep: Frame -> bool)
    ensures CountFrames(frames, keep) == 0 <==> forall i :: 0 <= i < |frames| ==> !keep(frames[i])
  {
    if frames != [] {
      CountFramesNone(frames[1..], keep);
      assert forall i :: 1 <= i < |frames| ==> frames[i] == frames[1..][i - 1];
    }
  }

  /** Every slot of the flattened matrix comes from some frame. */
  lemma {:induction false} FlattenFrom(frames: seq<Frame>, x: Pin)
    requires x in Flatten(frames)
    ensures exists i :: 0 <= i < |frames| && x in frames[i]
  {
    if x !in frames[0] {
      FlattenFrom(frames[1..], x);
      var i :| 0 <= i < |frames[1..]| && x in frames[1..][i];
      assert x in frames[i + 1];
    }
  }

  /** An unplayed board counts ten open frames and no spares or strikes. */
  lemma UnplayedFramesAreOpen()
    ensures CountOpenFrames(EmptyBoard()) == 10
    ensures CountSpares(EmptyBoard()) == 0
    ensures CountStrikes(EmptyBoard()) == 0
  {
    var board := EmptyBoard();
    EmptyBoardFrames();
    CountFramesAll(board, IsOpen);
    CountFramesNone(board, IsSpare);
    NoStrikeUnplayed(board);
  }

  lemma NoStrikeUnplayed(board: Board)
    requires forall i :: 0 <= i < |board| ==> board[i] == EmptyFrame(i)
    ensures Some(10) !in Flatten(board)
  {
    if Some(10) in Flatten(board) {
      FlattenFrom(board, Some(10));
      assert false;
    }
  }

  /**
   * A score box's glyph: "" for an unthrown ball; "X" for a 10 anywhere in
   * the tenth frame or at ball 0 of frames 0-8 (a 10 at a later ball of
   * frames 0-8 shows nothing); "/" for a ball 1 that makes 10 with a thrown
   * ball 0; otherwise the count's digits.
   */
  function DisplayValue(score: Pin, frameIndex: int, ballIndex: int, scores: seq<Frame>): (r: string)
    requires score.Some? && score.value != 10 && ballIndex == 1 ==>
      0 <= frameIndex < |scores| && |scores[frameIndex]| >= 1
    ensures r == "" <==> score.None? || (score == Some(10) && frameIndex != 9 && ballIndex != 0)
    ensures r == "X" <==> score == Some(10) && (frameIndex == 9 || ballIndex == 0)
    ensures r == "/" <==> (score.Some? && score.value != 10 && ballIndex == 1 &&
      scores[frameIndex][0].Some? && scores[frameIndex][0].value + score.value == 10)
    ensures r != "" && r != "X" && r != "/" ==> score.Some? && r == IntString(score.value)
    ensures r != "" && r != "X" && r != "/" && IntMin <= score.value <= IntMax ==> ParseInt(r) == score
  {
    match score
    case None => ""
    case Some(value) =>
      assert IntString(value) != "X" && IntString(value) != "/" && IntString(value) != "" by {
        assert "X"[0] == 'X' && "/"[0] == '/';
      }
      assert IntMin <= value <= IntMax ==> ParseInt(IntString(value)) == Some(value) by {
        if IntMin <= value <= IntMax {
          IntStringRoundTrip(value);
        }
      }
      if frameIndex == 9 && value == 10 then "X"
      else if frameIndex != 9 && value == 10 then (if ballIndex == 0 then "X" else "")
      else if ballIndex == 1 && scores[frameIndex][0].Some? && scores[frameIndex][0].value + value == 10 then "/"
      else IntString(value)
  }

  /**
   * The details screen shows the same glyph as the live board except at the
   * tenth frame's third ball and at a 10 entered as ball 1 of frames 0-8.
   */
  lemma GlyphsAgree(board: Board, f: int, ball: int)
    requires WellShaped(board) && 0 <= f < 10 && 0 <= ball < SlotCount(f) && !(f == 9 && ball == 2)
    requires f < 9 ==> board[f][1] != Some(10)
    ensures InputRules.DisplayScore(board, f, ball) == DisplayValue(board[f][ball], f, ball, board)
  {
  }

  /** A tenth frame of 10, 3, 7: the live board shows "/" for the 7, the details screen "7". */
  lemma TenthThirdBallGlyphsDiffer(board: Board)
    requires WellShaped(board) && board[9] == [Some(10), Some(3), Some(7)]
    ensures InputRules.DisplayScore(board, 9, 2) == "/"
    ensures DisplayValue(board[9][2], 9, 2, board) == IntString(7) != "/"
  {
  }
}
