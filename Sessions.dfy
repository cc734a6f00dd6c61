/**
  Rounds played from a list of typed coordinates: the start loop applied to one
  coordinate after another until the round is over, and a worked round.
*/
module Sessions {
  import opened Coordinates
  import opened Boards
  import opened GameRules
  import opened Input

  /** The start loop fed with the coordinates typed at the console. A coordinate the range
      test refuses is skipped, since the console reads another one. The loop stops once the
      round is over, and at an accepted coordinate without a board entry, where the free
      test dereferences nothing and the pass throws. */
  function Run(r: Round, moves: seq<(int, int)>): Round
    decreases |moves|
  {
    if moves == [] || r.over then r
    else if !AcceptedAsWritten(moves[0].0, moves[0].1) then Run(r, moves[1..])
    else if !HasKey(r.board, moves[0].0, moves[0].1) then r
    else Run(Play(r, moves[0].0, moves[0].1), moves[1..])
  }

  /** A coordinate the range test refuses is not played: the loop goes on with the next. */
  lemma RunSkipsRefused(r: Round, x: int, y: int, rest: seq<(int, int)>)
    requires !r.over && !AcceptedAsWritten(x, y)
    ensures Run(r, [(x, y)] + rest) == Run(r, rest)
  {
    assert ([(x, y)] + rest)[1..] == rest;
  }

  /** A coordinate holding a 0 passes the range test but has no board entry: the pass
      throws, and nothing after it is played. */
  lemma RunStopsAtZero(r: Round, n: int, rest: seq<(int, int)>)
    requires Exact(r.board) && !r.over && 0 <= n <= 3
    ensures Run(r, [(0, n)] + rest) == r
    ensures Run(r, [(n, 0)] + rest) == r
  {
    AsWrittenLetsZeroThrough(r.board, n);
  }

  /** However many passes the loop makes, the round stays sound and, while it runs, free of
      complete patterns; and a round that is over is left alone. */
  lemma {:induction false} RunKeeps(r: Round, moves: seq<(int, int)>)
    requires Sound(r) && Quiet(r)
    ensures Sound(Run(r, moves)) && Quiet(Run(r, moves))
    ensures r.over ==> Run(r, moves) == r
    decreases |moves|
  {
    if moves != [] && !r.over {
      if !AcceptedAsWritten(moves[0].0, moves[0].1) {
        RunKeeps(r, moves[1..]);
      } else if HasKey(r.board, moves[0].0, moves[0].1) {
        PlayKeeps(r, moves[0].0, moves[0].1);
        RunKeeps(Play(r, moves[0].0, moves[0].1), moves[1..]);
      }
    }
  }

  /** One accepted placement of `side` on a cell neither player holds, in a running round. */
  lemma PlaceStep(r: Round, x: int, y: int)
    requires Sound(r) && Quiet(r) && !r.over && OnBoard(x, y)
    requires |SeatOf(r, Mover(r)).cells| < 3
    requires !HasKey(r.one.cells, x, y) && !HasKey(r.two.cells, x, y)
    ensures HasKey(r.board, x, y)
    ensures var r' := Play(r, x, y);
      && Sound(r') && Quiet(r')
      && SeatOf(r', Mover(r)).cells == SeatOf(r, Mover(r)).cells + [Entry(x, y, SeatOf(r, Mover(r)).character)]
      && SeatOf(r', Other(Mover(r))) == SeatOf(r, Other(Mover(r)))
      && r'.turn == !r.turn
      && (r'.over <==> CompletesAny(SeatOf(r', Mover(r)).cells))
  {
    FreeIffUnheld(r.board, r.one, r.two, x, y);
    PlaceEffect(r, Mover(r), x, y);
    PlayKeeps(r, x, y);
    CheckEnds(Move(r, Mover(r), x, y), Mover(r));
  }

  /** Running the loop on a list whose first coordinate is accepted is one pass, then the rest. */
  lemma RunFirst(r: Round, moves: seq<(int, int)>)
    requires moves != [] && !r.over && AcceptedAsWritten(moves[0].0, moves[0].1)
    requires HasKey(r.board, moves[0].0, moves[0].1)
    ensures Run(r, moves) == Run(Play(r, moves[0].0, moves[0].1), moves[1..])
  {
  }

  /** `r` is sound and quiet, derived from `r0` by giving its seats the cells `one` and `two`,
      with `turn` to move. */
  ghost predicate Position(r: Round, r0: Round, turn: bool, one: seq<Entry>, two: seq<Entry>) {
    && Sound(r) && Quiet(r) && r.turn == turn
    && r.one == r0.one.(cells := one) && r.two == r0.two.(cells := two)
  }

  /** A placement that completes no pattern: the mover's seat gains the cell, the turn passes,
      the round goes on. */
  lemma PlaceQuiet(r: Round, r0: Round, one: seq<Entry>, two: seq<Entry>, x: int, y: int) returns (r': Round)
    requires Position(r, r0, r.turn, one, two) && !r.over && OnBoard(x, y)
    requires |SeatOf(r, Mover(r)).cells| < 3
    requires !HasKey(one, x, y) && !HasKey(two, x, y)
    requires !CompletesAny(SeatOf(r, Mover(r)).cells + [Entry(x, y, SeatOf(r, Mover(r)).character)])
    ensures HasKey(r.board, x, y) && r' == Play(r, x, y) && !r'.over
    ensures r.turn ==> Position(r', r0, false, one, two + [Entry(x, y, r0.two.character)])
    ensures !r.turn ==> Position(r', r0, true, one + [Entry(x, y, r0.one.character)], two)
  {
    PlaceStep(r, x, y);
    r' := Play(r, x, y);
  }

  /** A placement that completes a pattern ends the round. */
  lemma PlaceEnds(r: Round, r0: Round, one: seq<Entry>, two: seq<Entry>, x: int, y: int) returns (r': Round)
    requires Position(r, r0, r.turn, one, two) && !r.over && OnBoard(x, y)
    requires |SeatOf(r, Mover(r)).cells| < 3
    requires !HasKey(one, x, y) && !HasKey(two, x, y)
    requires CompletesAny(SeatOf(r, Mover(r)).cells + [Entry(x, y, SeatOf(r, Mover(r)).character)])
    ensures HasKey(r.board, x, y) && r' == Play(r, x, y) && r'.over
    ensures r.turn ==> Position(r', r0, false, one, two + [Entry(x, y, r0.two.character)])
    ensures !r.turn ==> Position(r', r0, true, one + [Entry(x, y, r0.one.character)], two)
  {
    PlaceStep(r, x, y);
    r' := Play(r, x, y);
  }

  /** Which of the positions of the worked round complete a pattern. */
  lemma VerticalCells(c1: string, c2: string)
    ensures !CompletesAny([Entry(1, 1, c2)])
    ensures !CompletesAny([Entry(1, 2, c1)])
    ensures !CompletesAny([Entry(1, 1, c2), Entry(2, 2, c2)])
    ensures Completes([Entry(1, 2, c1), Entry(3, 2, c1)], 0)
    ensures !HasKey([Entry(1, 2, c1), Entry(3, 2, c1)], 2, 2)
  {
    assert At([Entry(1, 2, c1), Entry(3, 2, c1)][0], 1, 2);
    assert At([Entry(1, 2, c1), Entry(3, 2, c1)][1], 3, 2);
  }

  lemma VerticalFirst(r: Round) returns (r1: Round)
    requires Position(r, r, true, [], []) && !r.over
    ensures HasKey(r.board, 1, 1) && r1 == Play(r, 1, 1) && !r1.over
    ensures Position(r1, r, false, [], [Entry(1, 1, r.two.character)])
  {
    VerticalCells(r.one.character, r.two.character);
    r1 := PlaceQuiet(r, r, [], [], 1, 1);
  }

  lemma VerticalSecond(r1: Round, r: Round) returns (r2: Round)
    requires Position(r1, r, false, [], [Entry(1, 1, r.two.character)]) && !r1.over
    ensures HasKey(r1.board, 1, 2) && r2 == Play(r1, 1, 2) && !r2.over
    ensures Position(r2, r, true, [Entry(1, 2, r.one.character)], [Entry(1, 1, r.two.character)])
  {
    VerticalCells(r.one.character, r.two.character);
    r2 := PlaceQuiet(r1, r, [], [Entry(1, 1, r.two.character)], 1, 2);
  }

  lemma VerticalThird(r2: Round, r: Round) returns (r3: Round)
    requires Position(r2, r, true, [Entry(1, 2, r.one.character)], [Entry(1, 1, r.two.character)]) && !r2.over
    ensures HasKey(r2.board, 2, 2) && r3 == Play(r2, 2, 2) && !r3.over
    ensures Position(r3, r, false, [Entry(1, 2, r.one.character)],
                     [Entry(1, 1, r.two.character), Entry(2, 2, r.two.character)])
  {
    VerticalCells(r.one.character, r.two.character);
    assert [Entry(1, 1, r.two.character)] + [Entry(2, 2, r.two.character)]
        == [Entry(1, 1, r.two.character), Entry(2, 2, r.two.character)];
    r3 := PlaceQuiet(r2, r, [Entry(1, 2, r.one.character)], [Entry(1, 1, r.two.character)], 2, 2);
  }

  lemma VerticalFourth(r3: Round, r: Round) returns (r4: Round)
    requires Position(r3, r, false, [Entry(1, 2, r.one.character)],
                      [Entry(1, 1, r.two.character), Entry(2, 2, r.two.character)]) && !r3.over
    ensures HasKey(r3.board, 3, 2) && r4 == Play(r3, 3, 2) && r4.over
    ensures Position(r4, r, true, [Entry(1, 2, r.one.character), Entry(3, 2, r.one.character)],
                     [Entry(1, 1, r.two.character), Entry(2, 2, r.two.character)])
  {
    VerticalCells(r.one.character, r.two.character);
    assert [Entry(1, 2, r.one.character)] + [Entry(3, 2, r.one.character)]
        == [Entry(1, 2, r.one.character), Entry(3, 2, r.one.character)];
    r4 := PlaceEnds(r3, r, [Entry(1, 2, r.one.character)],
                    [Entry(1, 1, r.two.character), Entry(2, 2, r.two.character)], 3, 2);
  }

  /** Four accepted passes, the last of which ends the round, consume four coordinates;
      the loop then stops. */
  lemma RunFour(r: Round, r1: Round, r2: Round, r3: Round, r4: Round, m: seq<(int, int)>)
    requires |m| >= 4
    requires AcceptedAsWritten(m[0].0, m[0].1) && AcceptedAsWritten(m[1].0, m[1].1)
    requires AcceptedAsWritten(m[2].0, m[2].1) && AcceptedAsWritten(m[3].0, m[3].1)
    requires !r.over && HasKey(r.board, m[0].0, m[0].1) && r1 == Play(r, m[0].0, m[0].1)
    requires !r1.over && HasKey(r1.board, m[1].0, m[1].1) && r2 == Play(r1, m[1].0, m[1].1)
    requires !r2.over && HasKey(r2.board, m[2].0, m[2].1) && r3 == Play(r2, m[2].0, m[2].1)
    requires !r3.over && HasKey(r3.board, m[3].0, m[3].1) && r4 == Play(r3, m[3].0, m[3].1)
    requires r4.over
    ensures Run(r, m) == r4
  {
    RunFirst(r, m);
    assert m[1..][0] == m[1];
    RunFirst(r1, m[1..]);
    assert m[1..][1..] == m[2..] && m[2..][0] == m[2];
    RunFirst(r2, m[2..]);
    assert m[2..][1..] == m[3..] && m[3..][0] == m[3];
    RunFirst(r3, m[3..]);
  }

  /** The coordinates of the worked round, followed by any others. */
  lemma VerticalMoves(more: seq<(int, int)>)
    ensures var m := [(1, 1), (1, 2), (2, 2), (3, 2)] + more;
      && |m| >= 4 && m[0] == (1, 1) && m[1] == (1, 2) && m[2] == (2, 2) && m[3] == (3, 2)
      && AcceptedAsWritten(m[0].0, m[0].1) && AcceptedAsWritten(m[1].0, m[1].1)
      && AcceptedAsWritten(m[2].0, m[2].1) && AcceptedAsWritten(m[3].0, m[3].1)
  {
  }

  /** The four passes of the worked round, each accepted, the last one ending the round. */
  lemma VerticalPasses(r: Round, more: seq<(int, int)>) returns (e: Round)
    requires Sound(r) && Quiet(r) && !r.over && r.turn && r.one.cells == [] && r.two.cells == []
    ensures e == Run(r, [(1, 1), (1, 2), (2, 2), (3, 2)] + more)
    ensures e.over && e.turn
    ensures e.one == r.one.(cells := [Entry(1, 2, r.one.character), Entry(3, 2, r.one.character)])
    ensures e.two == r.two.(cells := [Entry(1, 1, r.two.character), Entry(2, 2, r.two.character)])
  {
    assert Position(r, r, true, [], []);
    var r1 := VerticalFirst(r);
    var r2 := VerticalSecond(r1, r);
    var r3 := VerticalThird(r2, r);
    e := VerticalFourth(r3, r);
    VerticalMoves(more);
    RunFour(r, r1, r2, r3, e, [(1, 1), (1, 2), (2, 2), (3, 2)] + more);
  }

  /** From an empty running round with player two to move: player two takes (1, 1), player
      one (1, 2), player two the centre, player one (3, 2). Player one now holds the
      vertical pattern without holding the centre, the round is over, the name announced
      is player two's, and coordinates typed after that are ignored. */
  lemma VerticalRound(r: Round, more: seq<(int, int)>)
    requires Sound(r) && Quiet(r) && !r.over && r.turn && r.one.cells == [] && r.two.cells == []
    ensures var e := Run(r, [(1, 1), (1, 2), (2, 2), (3, 2)] + more);
      && e.over && Sound(e)
      && e.one == r.one.(cells := [Entry(1, 2, r.one.character), Entry(3, 2, r.one.character)])
      && e.two == r.two.(cells := [Entry(1, 1, r.two.character), Entry(2, 2, r.two.character)])
      && Completes(e.one.cells, 0) && !HasKey(e.one.cells, 2, 2)
      && Winner(e) == r.two.name
  {
    var e := VerticalPasses(r, more);
    RunKeeps(r, [(1, 1), (1, 2), (2, 2), (3, 2)] + more);
    VerticalCells(r.one.character, r.two.character);
  }
}
