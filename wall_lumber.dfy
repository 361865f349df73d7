/**
 * The lumber purchase calculator: how many stock boards to buy for a number of
 * pieces of a given length. One rule serves studs (pieces of wall height) and
 * plates (runs of wall length): when a board is at least as long as a piece it
 * is cut into whole pieces, otherwise boards are bought by total footage.
 */
module WallLumber {
  import opened JsMath

  /** Whole pieces of `pieceLength` that one board of `stockLength` yields. */
  function PiecesPerBoard(pieceLength: real, stockLength: real): (n: int)
    requires 0.0 < pieceLength <= stockLength
    ensures n >= 1
    ensures n as real * pieceLength <= stockLength < (n + 1) as real * pieceLength
  {
    var q := stockLength / pieceLength;
    assert q * pieceLength == stockLength;
    FloorBounds(q, pieceLength, stockLength);
    q.Floor
  }

  /** `Math.ceil(n / d)` for a positive integer `d`: the fewest groups of `d`
      that hold `n`. */
  function CeilDiv(n: int, d: int): (c: int)
    requires d > 0
    ensures c * d >= n && (c - 1) * d < n
  {
    var q := n as real / d as real;
    var c := Ceil(q);
    assert q * d as real == n as real;
    assert q <= c as real && (c - 1) as real < q;
    MulLeq(q, c as real, d as real);
    MulLt((c - 1) as real, q, d as real);
    assert (c * d) as real == c as real * d as real;
    assert ((c - 1) * d) as real == (c - 1) as real * d as real;
    c
  }

  /** `Math.ceil(pieces * pieceLength / stockLength)`: the fewest boards whose
      footage reaches the footage of the pieces. */
  function FootageBoards(pieces: int, pieceLength: real, stockLength: real): (c: int)
    requires stockLength > 0.0
    ensures c as real * stockLength >= pieces as real * pieceLength
    ensures (c - 1) as real * stockLength < pieces as real * pieceLength
  {
    var q := pieces as real * pieceLength / stockLength;
    var c := Ceil(q);
    assert q * stockLength == pieces as real * pieceLength;
    assert q <= c as real && (c - 1) as real < q;
    MulLeq(q, c as real, stockLength);
    MulLt((c - 1) as real, q, stockLength);
    assert (c - 1) as real * stockLength < pieces as real * pieceLength;
    c
  }

  /** `calculateStudsNeeded(pieces, pieceLength, stockLength)` and, with the
      plate arguments, `calculatePlatesNeeded`: when a board is at least a piece
      long, the fewest boards that hold `pieces` whole pieces, otherwise the
      fewest boards whose footage covers the pieces. A zero piece length makes
      the source divide by zero: `floor(stock / 0)` is Infinity and
      `ceil(pieces / Infinity)` is 0, so no boards are bought. */
  function BoardsNeeded(pieces: int, pieceLength: real, stockLength: real): (boards: int)
    requires stockLength > 0.0
    ensures pieceLength == 0.0 ==> boards == 0
    ensures 0.0 < pieceLength <= stockLength ==>
      var perBoard := PiecesPerBoard(pieceLength, stockLength);
      boards * perBoard >= pieces && (boards - 1) * perBoard < pieces
    ensures stockLength < pieceLength ==>
      && boards as real * stockLength >= pieces as real * pieceLength
      && (boards - 1) as real * stockLength < pieces as real * pieceLength
  {
    if stockLength >= pieceLength then
      if pieceLength == 0.0 then 0
      else if pieceLength > 0.0 then CeilDiv(pieces, PiecesPerBoard(pieceLength, stockLength))
      else
        // a negative piece length gives a negative, non-zero pieces-per-board
        assert stockLength / pieceLength < 0.0;
        Ceil(pieces as real / (stockLength / pieceLength).Floor as real)
    else FootageBoards(pieces, pieceLength, stockLength)
  }

  /** `calculateStudLinearFeet` / `calculatePlateLinearFeet`: the footage of the
      boards bought. */
  function BoardLinearFeet(boards: int, stockLength: real): (feet: real)
    ensures boards == 0 ==> feet == 0.0
    ensures boards >= 0 && stockLength >= 0.0 ==> feet >= 0.0
  {
    if boards >= 0 && stockLength >= 0.0 then
      MulLeqNonNeg(0.0, stockLength, boards as real);
      boards as real * stockLength
    else boards as real * stockLength
  }

  /** The footage of `pieces` pieces of `pieceLength` each. */
  function PieceFootage(pieces: int, pieceLength: real): (feet: real)
    ensures pieces == 0 ==> feet == 0.0
    ensures pieces >= 0 && pieceLength >= 0.0 ==> feet >= 0.0
  {
    if pieces >= 0 && pieceLength >= 0.0 then
      MulLeqNonNeg(0.0, pieceLength, pieces as real);
      pieces as real * pieceLength
    else pieces as real * pieceLength
  }

  /** `calculateTotalLinearFeet`: the total never falls below either
      non-negative part. */
  function TotalLinearFeet(studLinearFeet: real, plateLinearFeet: real): (feet: real)
    ensures studLinearFeet >= 0.0 && plateLinearFeet >= 0.0 ==> feet >= studLinearFeet && feet >= plateLinearFeet
    ensures plateLinearFeet == 0.0 ==> feet == studLinearFeet
  {
    studLinearFeet + plateLinearFeet
  }

  /** Coverage: the footage of the boards bought is at least the footage of the
      pieces, in both branches. */
  lemma BoardsCoverPieces(pieces: int, pieceLength: real, stockLength: real)
    requires stockLength > 0.0 && pieceLength > 0.0 && pieces >= 0
    ensures BoardLinearFeet(BoardsNeeded(pieces, pieceLength, stockLength), stockLength)
            >= PieceFootage(pieces, pieceLength)
  {
    var boards := BoardsNeeded(pieces, pieceLength, stockLength);
    if pieceLength <= stockLength {
      var perBoard := PiecesPerBoard(pieceLength, stockLength);
      assert boards * perBoard >= pieces;
      assert boards >= 0 by {
        if boards < 0 {
          MulLeq(boards as real, 0.0, perBoard as real);
          assert false;
        }
      }
      assert (boards * perBoard) as real == boards as real * perBoard as real;
      // pieces <= boards * perBoard, and each board holds perBoard pieces
      MulLeq(pieces as real, (boards * perBoard) as real, pieceLength);
      ProductMonotone(boards as real, boards as real, perBoard as real * pieceLength, stockLength);
    }
  }

  /** A board exactly as long as a piece yields one piece: buy one per piece. */
  lemma BoardsExactFit(pieces: int, length: real)
    requires length > 0.0
    ensures BoardsNeeded(pieces, length, length) == pieces
  {
    assert PiecesPerBoard(length, length) == 1;
  }

  /** When a board is at least a piece long, never more boards than pieces, and
      never fewer than none. */
  lemma BoardsAtMostPieces(pieces: int, pieceLength: real, stockLength: real)
    requires 0.0 < pieceLength <= stockLength && pieces >= 0
    ensures 0 <= BoardsNeeded(pieces, pieceLength, stockLength) <= pieces
  {
    var boards := BoardsNeeded(pieces, pieceLength, stockLength);
    var perBoard := PiecesPerBoard(pieceLength, stockLength);
    assert (boards - 1) * perBoard < pieces && boards * perBoard >= pieces;
    if boards > pieces {
      MulLeqInt(1, perBoard, boards - 1);
      assert false;
    }
    if boards < 0 {
      MulLeqInt(1, perBoard, -boards);
      assert false;
    }
  }

  /** No pieces, no boards, whatever the lengths. */
  lemma BoardsForNoPieces(pieceLength: real, stockLength: real)
    requires stockLength > 0.0
    ensures BoardsNeeded(0, pieceLength, stockLength) == 0
  {
  }

  lemma CeilDivMonotone(n1: int, n2: int, d: int)
    requires d > 0 && n1 <= n2
    ensures CeilDiv(n1, d) <= CeilDiv(n2, d)
  {
    LeastMultipleMonotone(n1, n2, d, CeilDiv(n1, d), CeilDiv(n2, d));
  }

  lemma FootageBoardsMonotone(p1: int, p2: int, pieceLength: real, stockLength: real)
    requires stockLength > 0.0 && pieceLength >= 0.0 && p1 <= p2
    ensures FootageBoards(p1, pieceLength, stockLength) <= FootageBoards(p2, pieceLength, stockLength)
  {
    var c1, c2 := FootageBoards(p1, pieceLength, stockLength), FootageBoards(p2, pieceLength, stockLength);
    MulLeqByNonNeg(p1 as real, p2 as real, pieceLength);
    LeastCoverMonotone(p1 as real * pieceLength, p2 as real * pieceLength, stockLength, c1, c2);
  }

  /** More pieces never need fewer boards. */
  lemma BoardsMonotoneInPieces(p1: int, p2: int, pieceLength: real, stockLength: real)
    requires stockLength > 0.0 && pieceLength >= 0.0 && p1 <= p2
    ensures BoardsNeeded(p1, pieceLength, stockLength) <= BoardsNeeded(p2, pieceLength, stockLength)
  {
    if 0.0 < pieceLength <= stockLength {
      CeilDivMonotone(p1, p2, PiecesPerBoard(pieceLength, stockLength));
    } else if stockLength < pieceLength {
      FootageBoardsMonotone(p1, p2, pieceLength, stockLength);
    }
  }

  lemma CeilDivAntitone(n: int, d1: int, d2: int)
    requires n >= 0 && 0 < d1 <= d2
    ensures CeilDiv(n, d1) >= CeilDiv(n, d2)
  {
    LeastMultipleAntitone(n, d1, d2, CeilDiv(n, d1), CeilDiv(n, d2));
  }

  lemma PiecesPerBoardMonotone(pieceLength: real, s1: real, s2: real)
    requires 0.0 < pieceLength <= s1 <= s2
    ensures PiecesPerBoard(pieceLength, s1) <= PiecesPerBoard(pieceLength, s2)
  {
    var n1, n2 := PiecesPerBoard(pieceLength, s1), PiecesPerBoard(pieceLength, s2);
    WholePiecesMonotone(pieceLength, s1, s2, n1, n2);
  }

  lemma FootageBoardsAntitone(pieces: int, pieceLength: real, s1: real, s2: real)
    requires 0.0 < s1 <= s2 && pieceLength > 0.0 && pieces >= 0
    ensures FootageBoards(pieces, pieceLength, s1) >= FootageBoards(pieces, pieceLength, s2)
  {
    var b1, b2 := FootageBoards(pieces, pieceLength, s1), FootageBoards(pieces, pieceLength, s2);
    MulLeqNonNeg(0.0, pieceLength, pieces as real);
    LeastCoverAntitone(pieces as real * pieceLength, s1, s2, b1, b2);
  }

  /** Longer stock never needs more boards for the same non-negative number of
      pieces, also across the switch from footage buying to cutting. */
  lemma BoardsAntitoneInStock(pieces: int, pieceLength: real, s1: real, s2: real)
    requires 0.0 < s1 <= s2 && pieceLength > 0.0 && pieces >= 0
    ensures BoardsNeeded(pieces, pieceLength, s1) >= BoardsNeeded(pieces, pieceLength, s2)
  {
    if pieceLength <= s1 {
      PiecesPerBoardMonotone(pieceLength, s1, s2);
      CeilDivAntitone(pieces, PiecesPerBoard(pieceLength, s1), PiecesPerBoard(pieceLength, s2));
    } else if pieceLength <= s2 {
      BoardsAtMostPieces(pieces, pieceLength, s2);
      FootageCoversPieces(pieces, pieceLength, s1, FootageBoards(pieces, pieceLength, s1));
    } else {
      FootageBoardsAntitone(pieces, pieceLength, s1, s2);
    }
  }

  /** The worked figures: twelve 8 ft studs from 8 ft and from 16 ft boards, and
      four 20 ft plate runs bought as 8 ft boards. */
  lemma BoardsExamples()
    ensures BoardsNeeded(12, 8.0, 8.0) == 12
    ensures BoardsNeeded(12, 8.0, 16.0) == 6
    ensures BoardsNeeded(4, 20.0, 8.0) == 10
  {
    BoardsExactFit(12, 8.0);
    assert PiecesPerBoard(8.0, 16.0) == 2;
    assert CeilDiv(12, 2) == 6;
    assert Ceil(10.0) == 10;
  }

  // ---- Arithmetic steps, each in a context of its own ----

  /** The whole part of the quotient `s / p`, written as `q`, is the number
      of whole `p`s in `s`, and at least one when `p <= s`. */
  lemma FloorBounds(q: real, p: real, s: real)
    requires 0.0 < p <= s && q * p == s
    ensures q.Floor >= 1
    ensures q.Floor as real * p <= s < (q.Floor + 1) as real * p
  {
    var n := q.Floor;
    assert n as real <= q < (n + 1) as real;
    MulLeq(n as real, q, p);
    MulLt(q, (n + 1) as real, p);
    assert s < (n + 1) as real * p;
    if q < 1.0 {
      MulLt(q, 1.0, p);
      assert false;
    }
  }

  /** Of two least multiples of `d`, the one reaching the larger amount is not smaller. */
  lemma LeastMultipleMonotone(n1: int, n2: int, d: int, c1: int, c2: int)
    requires d > 0 && n1 <= n2
    requires (c1 - 1) * d < n1 && c2 * d >= n2
    ensures c1 <= c2
  {
    if c2 < c1 {
      MulLeqInt(c2, c1 - 1, d);
      assert false;
    }
  }

  /** The least multiple reaching a non-negative amount does not grow with the divisor. */
  lemma LeastMultipleAntitone(n: int, d1: int, d2: int, c1: int, c2: int)
    requires n >= 0 && 0 < d1 <= d2
    requires c1 * d1 >= n && (c2 - 1) * d2 < n
    ensures c1 >= c2
  {
    if c1 < 0 {
      MulLeqInt(c1, -1, d1);
      assert false;
    }
    if c1 < c2 {
      MulLeqInt(c1, c2 - 1, d1);
      MulLeqInt(d1, d2, c2 - 1);
      assert false;
    }
  }

  /** The least number of boards covering an amount grows with the amount. */
  lemma LeastCoverMonotone(x1: real, x2: real, s: real, c1: int, c2: int)
    requires s > 0.0 && x1 <= x2
    requires (c1 - 1) as real * s < x1 && c2 as real * s >= x2
    ensures c1 <= c2
  {
    if c2 < c1 {
      MulLeq(c2 as real, (c1 - 1) as real, s);
      assert false;
    }
  }

  /** The least number of boards covering a non-negative amount does not grow
      with the board length. */
  lemma LeastCoverAntitone(x: real, s1: real, s2: real, b1: int, b2: int)
    requires x >= 0.0 && 0.0 < s1 <= s2
    requires b1 as real * s1 >= x && (b2 - 1) as real * s2 < x
    ensures b1 >= b2
  {
    if b1 < 0 {
      MulLt(b1 as real, 0.0, s1);
      assert false;
    }
    if b1 < b2 {
      ProductMonotone(b1 as real, (b2 - 1) as real, s1, s2);
      assert false;
    }
  }

  /** The most whole pieces a board holds grows with the board length. */
  lemma WholePiecesMonotone(pieceLength: real, s1: real, s2: real, n1: int, n2: int)
    requires 0.0 < pieceLength && s1 <= s2
    requires n1 as real * pieceLength <= s1 && s2 < (n2 + 1) as real * pieceLength
    ensures n1 <= n2
  {
    if n2 < n1 {
      MulLeq((n2 + 1) as real, n1 as real, pieceLength);
      assert false;
    }
  }

  /** Boards shorter than a piece that cover the pieces' footage are at least
      as many as the pieces. */
  lemma FootageCoversPieces(pieces: int, pieceLength: real, s: real, b: int)
    requires pieces >= 0 && 0.0 < s < pieceLength
    requires b as real * s >= pieces as real * pieceLength
    ensures b >= pieces
  {
    if b < pieces {
      MulLt(b as real, pieces as real, s);
      MulLeqNonNeg(s, pieceLength, pieces as real);
      assert false;
    }
  }
}
