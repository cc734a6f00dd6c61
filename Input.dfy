/**
  The range test the console applies to a typed coordinate before the game
  uses it, as written and as intended. Everything else about the console
  (parsing, prompts, retries) is outside the model.
*/
module Input {
  import opened Coordinates
  import opened Boards

  /** The test as written: a number above 3 or below 0 is refused. */
  predicate AcceptedAsWritten(x: int, y: int) {
    !((x > 3 || y > 3) || (x < 0 || y < 0))
  }

  /** The intended test: a number above 3 or below 1 is refused. */
  predicate Accepted(x: int, y: int) {
    !((x > 3 || y > 3) || (x < 1 || y < 1))
  }

  /** As written, a zero in either position is accepted although the board has no entry
      for it, so the free test that follows dereferences a missing entry. */
  lemma AsWrittenLetsZeroThrough(board: seq<Entry>, n: int)
    requires Exact(board) && 0 <= n <= 3
    ensures AcceptedAsWritten(0, n) && !HasKey(board, 0, n)
    ensures AcceptedAsWritten(n, 0) && !HasKey(board, n, 0)
  {
    ExactKeys(board, 0, n);
    ExactKeys(board, n, 0);
  }

  /** As written, the test accepts exactly the board cells plus the coordinates holding a zero. */
  lemma AsWrittenExtra(x: int, y: int)
    ensures AcceptedAsWritten(x, y) <==> Accepted(x, y) || (0 <= x <= 3 && 0 <= y <= 3 && (x == 0 || y == 0))
  {
  }

  /** The intended test accepts exactly the coordinates a well-formed board has an entry for,
      which are the ones every board and player operation can be called with. */
  lemma AcceptedExactlyOnBoard(board: seq<Entry>, x: int, y: int)
    requires Exact(board)
    ensures Accepted(x, y) <==> HasKey(board, x, y)
    ensures Accepted(x, y) <==> OnBoard(x, y)
  {
    ExactKeys(board, x, y);
  }
}
