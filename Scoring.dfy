/**
 * The score board of one game and the frame-total rule that the score-entry
 * screen recomputes after every edit.
 *
 * A board holds ten frames of optional pin counts: two ball slots in frames
 * 0-8 and three in frame 9.  An empty slot is a ball not yet thrown; it is
 * kept apart from a thrown 0 and counts as 0 only inside the arithmetic.
 */
module Scoring {
  import opened Wrappers

  type Pin = Option<int>
  type Frame = seq<Pin>
  type Board = seq<Frame>

  /** Swift's `pin ?? 0`: an unthrown ball counts as 0. */
  function Val(p: Pin): int {
    p.GetOr(0)
  }

  function SlotCount(f: int): nat {
    if f == 9 then 3 else 2
  }

  /** A frame with every slot unthrown. */
  function EmptyFrame(f: int): Frame {
    if f == 9 then [None, None, None] else [None, None]
  }

  /** The board the entry screen starts from: nine two-slot frames and one three-slot frame. */
  function EmptyBoard(): Board {
    seq(9, _ => EmptyFrame(0)) + [EmptyFrame(9)]
  }

  lemma EmptyBoardFrames()
    ensures |EmptyBoard()| == 10
    ensures forall f :: 0 <= f < 10 ==> EmptyBoard()[f] == EmptyFrame(f)
  {
  }

  predicate WellShaped(board: Board) {
    |board| == 10 && forall f :: 0 <= f < 10 ==> |board[f]| == SlotCount(f)
  }

  /** Every thrown ball is a pin count from 0 to 10. */
  predicate PinsInRange(board: Board) {
    forall f, b :: 0 <= f < |board| && 0 <= b < |board[f]| && board[f][b].Some? ==>
      0 <= board[f][b].value <= 10
  }

  /**
   * The total of frame `f`: frame 9 is the sum of its own balls; a strike in
   * frames 0-8 adds the next two balls, looking two frames ahead after a
   * second strike (or at frame 9's second ball when the next frame is 9); a
   * spare adds the next ball; an open frame is its two balls.
   */
  function FrameTotal(board: Board, f: int): int
    requires WellShaped(board) && 0 <= f < 10
  {
    var ball1 := Val(board[f][0]);
    var ball2 := Val(board[f][1]);
    if f == 9 then
      ball1 + ball2 + Val(board[f][2])
    else if ball1 == 10 then
      var bonus1 := Val(board[f + 1][0]);
      var bonus2 :=
        if board[f + 1][0] == Some(10) then
          (if f + 2 < 10 then Val(board[f + 2][0]) else Val(board[f + 1][1]))
        else Val(board[f + 1][1]);
      10 + bonus1 + bonus2
    else if ball1 + ball2 == 10 then
      10 + Val(board[f + 1][0])
    else
      ball1 + ball2
  }

  function FrameTotals(board: Board): (totals: seq<int>)
    requires WellShaped(board)
    ensures |totals| == 10
  {
    seq(10, f requires 0 <= f < 10 => FrameTotal(board, f))
  }

  function Sum(s: seq<int>): int {
    if s == [] then 0 else s[0] + Sum(s[1..])
  }

  /** Adding one more element at the end adds it to the sum (the order the entry screen accumulates in). */
  lemma {:induction false} SumSnoc(s: seq<int>, x: int)
    ensures Sum(s + [x]) == Sum(s) + x
  {
    if s != [] {
      assert (s + [x])[1..] == s[1..] + [x];
      SumSnoc(s[1..], x);
    }
  }

  lemma {:induction false} SumBounds(s: seq<int>, lo: int, hi: int)
    requires forall i :: 0 <= i < |s| ==> lo <= s[i] <= hi
    ensures |s| * lo <= Sum(s) <= |s| * hi
  {
    if s != [] {
      SumBounds(s[1..], lo, hi);
    }
  }

  /** With every pin count in 0..10, each frame total lies in 0..30. */
  lemma FrameTotalBounds(board: Board, f: int)
    requires WellShaped(board) && PinsInRange(board) && 0 <= f < 10
    ensures 0 <= FrameTotal(board, f) <= 30
  {
    assert forall b :: 0 <= b < |board[f]| ==> 0 <= Val(board[f][b]) <= 10;
    if f < 9 {
      assert 0 <= Val(board[f + 1][0]) <= 10 && 0 <= Val(board[f + 1][1]) <= 10;
      if f < 8 {
        assert 0 <= Val(board[f + 2][0]) <= 10;
      }
    }
  }

  /** A game whose thrown balls are all legal pin counts scores between 0 and 300. */
  lemma TotalBounds(board: Board)
    requires WellShaped(board) && PinsInRange(board)
    ensures 0 <= Sum(FrameTotals(board)) <= 300
  {
    var totals := FrameTotals(board);
    forall i | 0 <= i < 10
      ensures 0 <= totals[i] <= 30
    {
      FrameTotalBounds(board, i);
    }
    SumBounds(totals, 0, 30);
  }

  /** The starting board scores 0 in every frame. */
  lemma EmptyBoardScoresZero()
    ensures WellShaped(EmptyBoard())
    ensures FrameTotals(EmptyBoard()) == seq(10, _ => 0)
    ensures Sum(FrameTotals(EmptyBoard())) == 0
  {
    var totals := FrameTotals(EmptyBoard());
    assert totals == seq(10, _ => 0);
    SumBounds(totals, 0, 0);
  }

  /** Every unthrown ball replaced by a thrown 0. */
  function ZeroFilled(board: Board): (filled: Board)
    ensures |filled| == |board|
    ensures forall f :: 0 <= f < |board| ==> |filled[f]| == |board[f]|
  {
    seq(|board|, f requires 0 <= f < |board| =>
      seq(|board[f]|, b requires 0 <= b < |board[f]| => Some(Val(board[f][b]))))
  }

  /** Unthrown balls score exactly as gutter balls do. */
  lemma UnthrownCountsAsZero(board: Board)
    requires WellShaped(board)
    ensures WellShaped(ZeroFilled(board))
    ensures FrameTotals(ZeroFilled(board)) == FrameTotals(board)
  {
    var filled := ZeroFilled(board);
    forall f, b | 0 <= f < 10 && 0 <= b < |board[f]|
      ensures Val(filled[f][b]) == Val(board[f][b])
      ensures filled[f][b] == Some(10) <==> board[f][b] == Some(10)
    {
    }
    forall f | 0 <= f < 10
      ensures FrameTotal(filled, f) == FrameTotal(board, f)
    {
    }
  }
}
