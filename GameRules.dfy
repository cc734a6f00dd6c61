/**
  The rules of a round, stated on values: the board's list, each player's name,
  marker and list of cells, the turn flag and the end-of-round flag. The Game
  class is proved to change its objects exactly as these functions say; the
  lemmas here carry the properties of play.
*/
module GameRules {
  import opened Text
  import opened Coordinates
  import opened Boards
  import opened Players

  /** A marker: one character (the console insists on length 1) that is not the blank. */
  predicate Marker(c: string) {
    |c| == 1 && c != Blank
  }

  datatype Seat = Seat(name: string, character: string, cells: seq<Entry>)

  /** `turn` true means that player two moves next. */
  datatype Round = Round(board: seq<Entry>, one: Seat, two: Seat, turn: bool, over: bool)

  datatype Side = One | Two

  /** The branch a move request takes. */
  datatype Outcome = Placed | Lifted | Rejected

  function SeatOf(r: Round, side: Side): Seat {
    if side == One then r.one else r.two
  }

  function WithSeat(r: Round, side: Side, p: Seat): Round {
    if side == One then r.(one := p) else r.(two := p)
  }

  function Other(side: Side): Side {
    if side == One then Two else One
  }

  /** The player the start loop dispatches to. */
  function Mover(r: Round): Side {
    if r.turn then Two else One
  }

  // ---------------------------------------------------------------------------
  // The move rule

  /** Fewer than three pieces: place on a free cell. Exactly three: lift one of one's own
      pieces from an occupied cell. Anything else is refused. */
  function Judge(board: seq<Entry>, p: Seat, x: int, y: int): Outcome
    requires HasKey(board, x, y)
  {
    if |p.cells| < 3 then
      if IsFree(board, x, y) then Placed else Rejected
    else if |p.cells| == 3 then
      if !IsFree(board, x, y) && Taken(p.cells, p.character, x, y) then Lifted else Rejected
    else Rejected
  }

  /** The player records the cell, the board shows the marker, the turn passes. */
  function Place(r: Round, side: Side, x: int, y: int): Round
    requires HasKey(r.board, x, y)
  {
    var p := SeatOf(r, side);
    WithSeat(r, side, p.(cells := p.cells + [Entry(x, y, p.character)]))
      .(board := Overwrite(r.board, x, y, p.character), turn := !r.turn)
  }

  /** The player gives the cell up and the board shows it blank; the turn stays. */
  function Lift(r: Round, side: Side, x: int, y: int): Round
    requires HasKey(r.board, x, y)
  {
    var p := SeatOf(r, side);
    WithSeat(r, side, p.(cells := RemoveFirst(p.cells, x, y)))
      .(board := Overwrite(r.board, x, y, Blank))
  }

  function Move(r: Round, side: Side, x: int, y: int): Round
    requires HasKey(r.board, x, y)
  {
    match Judge(r.board, SeatOf(r, side), x, y)
    case Placed => Place(r, side, x, y)
    case Lifted => Lift(r, side, x, y)
    case Rejected => r
  }

  // ---------------------------------------------------------------------------
  // Winning patterns and the check after a move

  /** Vertical, horizontal and diagonal: the two cells flanking the centre on each line. */
  function Patterns(): (ps: seq<seq<Entry>>)
    ensures |ps| == 3 && |ps[0]| == 2 && |ps[1]| == 2 && |ps[2]| == 2
  {
    [[Entry(1, 2, "L"), Entry(3, 2, "L")],
     [Entry(2, 1, "L"), Entry(2, 3, "L")],
     [Entry(1, 3, "L"), Entry(3, 1, "L")]]
  }

  /** The six pattern cells are distinct board cells other than the centre, so no two
      patterns share a cell. */
  lemma PatternsShape(k: int, i: int, l: int, j: int)
    requires 0 <= k < 3 && 0 <= l < 3 && 0 <= i < 2 && 0 <= j < 2
    ensures OnBoard(Patterns()[k][i].x, Patterns()[k][i].y) && !At(Patterns()[k][i], 2, 2)
    ensures SameCoordinate(Patterns()[k][i], Patterns()[l][j]) <==> k == l && i == j
  {
  }

  /** The player holds both cells of pattern `k`. */
  predicate Completes(cells: seq<Entry>, k: int)
    requires 0 <= k < 3
  {
    var pat := Patterns()[k];
    HasKey(cells, pat[0].x, pat[0].y) && HasKey(cells, pat[1].x, pat[1].y)
  }

  predicate CompletesAny(cells: seq<Entry>) {
    Completes(cells, 0) || Completes(cells, 1) || Completes(cells, 2)
  }

  /** The count array the check fills: each pattern matched against the player's list. */
  function Tally(cells: seq<Entry>): seq<int> {
    [CountPairs(Patterns()[0], cells), CountPairs(Patterns()[1], cells), CountPairs(Patterns()[2], cells)]
  }

  /** How many of the counts equal 2; each of them toggles the end-of-round flag. */
  function Twos(counts: seq<int>): nat {
    if counts == [] then 0
    else Twos(counts[..|counts| - 1]) + if counts[|counts| - 1] == 2 then 1 else 0
  }

  /** Counting one more entry of a list of counts. */
  lemma TwosStep(s: seq<int>, j: int)
    requires 0 <= j < |s|
    ensures Twos(s[..j + 1]) == Twos(s[..j]) + if s[j] == 2 then 1 else 0
  {
    assert s[..j + 1][..j] == s[..j];
  }

  function Check(r: Round, side: Side): Round {
    var n := Twos(Tally(SeatOf(r, side).cells));
    r.(over := if n % 2 == 1 then !r.over else r.over)
  }

  /** One pass of the start loop: the player chosen by `turn` moves, then is checked. */
  function Play(r: Round, x: int, y: int): Round
    requires HasKey(r.board, x, y)
  {
    var side := Mover(r);
    Check(Move(r, side, x, y), side)
  }

  /** The name announced when the round is over. */
  function Winner(r: Round): string {
    if r.turn then r.two.name else r.one.name
  }

  function Opening(name1: string, character1: string, name2: string, character2: string): Round {
    Round(BlankCells(), Seat(name1, character1, []), Seat(name2, character2, []), true, false)
  }

  function Restart(r: Round): Round {
    Round(BlankCells(), r.one.(cells := []), r.two.(cells := []), true, false)
  }

  // ---------------------------------------------------------------------------
  // Invariants of play

  /** At most three distinct on-board cells, each entry showing the player's marker. */
  ghost predicate SeatOk(p: Seat) {
    && Marker(p.character)
    && |p.cells| <= 3
    && NoDuplicates(p.cells)
    && Owns(p.cells, p.character)
    && (forall i :: 0 <= i < |p.cells| ==> OnBoard(p.cells[i].x, p.cells[i].y))
  }

  /** No cell is held by both players. */
  ghost predicate Apart(a: seq<Entry>, b: seq<Entry>) {
    forall x, y :: !(HasKey(a, x, y) && HasKey(b, x, y))
  }

  /** What the board should show at (x, y) given who holds it. */
  function Shown(p: Seat, q: Seat, x: int, y: int): string {
    if HasKey(p.cells, x, y) then p.character
    else if HasKey(q.cells, x, y) then q.character
    else Blank
  }

  ghost predicate Agree(board: seq<Entry>, p: Seat, q: Seat) {
    forall x, y :: OnBoard(x, y) ==> Lookup(board, x, y) == Some(Shown(p, q, x, y))
  }

  ghost predicate Consistent(board: seq<Entry>, p: Seat, q: Seat) {
    Exact(board) && SeatOk(p) && SeatOk(q) && Apart(p.cells, q.cells) && Agree(board, p, q)
  }

  ghost predicate Sound(r: Round) {
    Consistent(r.board, r.one, r.two)
  }

  /** While the round is running, neither player holds a complete pattern. */
  ghost predicate Quiet(r: Round) {
    !r.over ==> !CompletesAny(r.one.cells) && !CompletesAny(r.two.cells)
  }

  // ---------------------------------------------------------------------------
  // Lemmas: agreement between board and players

  lemma ConsistentSymmetric(board: seq<Entry>, p: Seat, q: Seat)
    requires Consistent(board, p, q)
    ensures Consistent(board, q, p)
  {
    forall x, y | OnBoard(x, y) ensures Lookup(board, x, y) == Some(Shown(q, p, x, y)) {
      assert !(HasKey(p.cells, x, y) && HasKey(q.cells, x, y));
    }
  }

  /** A marker never counts as free. */
  lemma MarkerNotFree(c: string)
    requires Marker(c)
    ensures !(' ' in c)
  {
    assert c == [c[0]];
  }

  /** On a consistent board a cell is free exactly when neither player holds it. */
  lemma FreeIffUnheld(board: seq<Entry>, p: Seat, q: Seat, x: int, y: int)
    requires Consistent(board, p, q) && OnBoard(x, y)
    ensures HasKey(board, x, y)
    ensures IsFree(board, x, y) <==> !HasKey(p.cells, x, y) && !HasKey(q.cells, x, y)
  {
    IsFreeBlank(board, x, y);
    MarkerNotFree(p.character);
    MarkerNotFree(q.character);
  }

  /** A player's cells lie on the board. */
  lemma HeldOnBoard(p: Seat, x: int, y: int)
    requires SeatOk(p) && HasKey(p.cells, x, y)
    ensures OnBoard(x, y)
  {
    var i :| 0 <= i < |p.cells| && At(p.cells[i], x, y);
  }

  /** A player gains a new on-board cell: still a valid player, holding one cell more. */
  lemma AppendSeat(p: Seat, x: int, y: int)
    requires SeatOk(p) && |p.cells| < 3 && OnBoard(x, y) && !HasKey(p.cells, x, y)
    ensures SeatOk(p.(cells := p.cells + [Entry(x, y, p.character)]))
    ensures forall a, b :: HasKey(p.cells + [Entry(x, y, p.character)], a, b) <==>
                           HasKey(p.cells, a, b) || (a == x && b == y)
  {
    var e := Entry(x, y, p.character);
    var c' := p.cells + [e];
    AppendNoDuplicates(p.cells, e);
    forall a, b ensures HasKey(c', a, b) <==> HasKey(p.cells, a, b) || (a == x && b == y) {
      AppendLookup(p.cells, e, a, b);
    }
    forall i | 0 <= i < |c'| ensures OnBoard(c'[i].x, c'[i].y) && c'[i].data == p.character {
      if i < |p.cells| { assert c'[i] == p.cells[i]; }
    }
  }

  /** A player gives up a held cell: still a valid player, holding that cell no more. */
  lemma RemoveSeat(p: Seat, x: int, y: int)
    requires SeatOk(p) && HasKey(p.cells, x, y)
    ensures SeatOk(p.(cells := RemoveFirst(p.cells, x, y)))
    ensures |RemoveFirst(p.cells, x, y)| == |p.cells| - 1
    ensures forall a, b :: HasKey(RemoveFirst(p.cells, x, y), a, b) <==>
                           HasKey(p.cells, a, b) && !(a == x && b == y)
  {
    var c' := RemoveFirst(p.cells, x, y);
    RemoveFirstNoDuplicates(p.cells, x, y);
    forall i | 0 <= i < |c'| ensures OnBoard(c'[i].x, c'[i].y) && c'[i].data == p.character {
      assert c'[i] in p.cells;
    }
  }

  /** A board that differs from an agreeing one only at (x, y), and there shows what the new
      holders say, agrees with them, when holdership changed at (x, y) only. */
  lemma AgreeAfter(board: seq<Entry>, board': seq<Entry>, p: Seat, p': Seat, q: Seat, x: int, y: int)
    requires Agree(board, p, q) && p'.character == p.character
    requires Lookup(board', x, y) == Some(Shown(p', q, x, y))
    requires forall a, b :: !(a == x && b == y) ==> Lookup(board', a, b) == Lookup(board, a, b)
    requires forall a, b :: !(a == x && b == y) ==> (HasKey(p'.cells, a, b) <==> HasKey(p.cells, a, b))
    ensures Agree(board', p', q)
  {
    forall a, b | OnBoard(a, b) ensures Lookup(board', a, b) == Some(Shown(p', q, a, b)) {
      if !(a == x && b == y) {
        assert Shown(p', q, a, b) == Shown(p, q, a, b);
      }
    }
  }

  /** Placing on a free cell keeps board and players in agreement. */
  lemma PlaceKeeps(board: seq<Entry>, p: Seat, q: Seat, x: int, y: int)
    requires Consistent(board, p, q) && HasKey(board, x, y)
    requires |p.cells| < 3 && IsFree(board, x, y)
    ensures Consistent(Overwrite(board, x, y, p.character),
                       p.(cells := p.cells + [Entry(x, y, p.character)]), q)
  {
    ExactKeys(board, x, y);
    FreeIffUnheld(board, p, q, x, y);
    var p' := p.(cells := p.cells + [Entry(x, y, p.character)]);
    OverwriteCell(board, x, y, p.character);
    AppendSeat(p, x, y);
    assert Apart(p'.cells, q.cells);
    AgreeAfter(board, Overwrite(board, x, y, p.character), p, p', q, x, y);
  }

  /** Lifting one of one's own pieces keeps board and players in agreement. */
  lemma LiftKeeps(board: seq<Entry>, p: Seat, q: Seat, x: int, y: int)
    requires Consistent(board, p, q) && HasKey(p.cells, x, y)
    ensures HasKey(board, x, y)
    ensures Consistent(Overwrite(board, x, y, Blank), p.(cells := RemoveFirst(p.cells, x, y)), q)
  {
    HeldOnBoard(p, x, y);
    ExactKeys(board, x, y);
    var p' := p.(cells := RemoveFirst(p.cells, x, y));
    OverwriteCell(board, x, y, Blank);
    RemoveSeat(p, x, y);
    assert !HasKey(q.cells, x, y);
    assert Apart(p'.cells, q.cells);
    AgreeAfter(board, Overwrite(board, x, y, Blank), p, p', q, x, y);
  }

  /** Every move, whichever branch it takes, keeps board and players in agreement. */
  lemma MoveKeeps(r: Round, side: Side, x: int, y: int)
    requires Sound(r) && HasKey(r.board, x, y)
    ensures Sound(Move(r, side, x, y))
  {
    var p := SeatOf(r, side);
    var q := SeatOf(r, Other(side));
    if side == Two {
      ConsistentSymmetric(r.board, r.one, r.two);
    }
    assert Consistent(r.board, p, q);
    match Judge(r.board, p, x, y)
    case Placed =>
      PlaceKeeps(r.board, p, q, x, y);
      if side == Two {
        ConsistentSymmetric(Overwrite(r.board, x, y, p.character),
                            p.(cells := p.cells + [Entry(x, y, p.character)]), q);
      }
    case Lifted =>
      TakenIffHeld(p.cells, p.character, x, y);
      LiftKeeps(r.board, p, q, x, y);
      if side == Two {
        ConsistentSymmetric(Overwrite(r.board, x, y, Blank),
                            p.(cells := RemoveFirst(p.cells, x, y)), q);
      }
    case Rejected =>
  }

  // ---------------------------------------------------------------------------
  // Lemmas: what each branch of a move does

  /** Placing on a well-formed board: the cell shows the marker, is no longer free, and the
      player's list gains the cell. */
  lemma PlaceCell(board: seq<Entry>, p: Seat, x: int, y: int)
    requires Exact(board) && Marker(p.character) && HasKey(board, x, y)
    ensures Lookup(Overwrite(board, x, y, p.character), x, y) == Some(p.character)
    ensures !IsFree(Overwrite(board, x, y, p.character), x, y)
    ensures HasKey(p.cells + [Entry(x, y, p.character)], x, y)
  {
    ExactKeys(board, x, y);
    OverwriteCell(board, x, y, p.character);
    AppendLookup(p.cells, Entry(x, y, p.character), x, y);
    MarkerNotFree(p.character);
  }

  /** Lifting a held piece of a player with three: the player keeps two cells, no longer
      holds (x, y), and the cell is free again; the rule chooses the lift. */
  lemma LiftCell(board: seq<Entry>, p: Seat, q: Seat, x: int, y: int)
    requires Exact(board) && SeatOk(p) && Agree(board, p, q)
    requires |p.cells| == 3 && HasKey(p.cells, x, y)
    ensures HasKey(board, x, y)
    ensures Judge(board, p, x, y) == Lifted
    ensures |RemoveFirst(p.cells, x, y)| == 2 && !HasKey(RemoveFirst(p.cells, x, y), x, y)
    ensures Lookup(Overwrite(board, x, y, Blank), x, y) == Some(Blank)
    ensures IsFree(Overwrite(board, x, y, Blank), x, y)
  {
    HeldOnBoard(p, x, y);
    HeldNotFree(board, p, q, x, y);
    TakenIffHeld(p.cells, p.character, x, y);
    BlankAfter(board, x, y);
    RemoveFirstNoDuplicates(p.cells, x, y);
  }

  /** On an agreeing board a cell a player holds is not free. */
  lemma HeldNotFree(board: seq<Entry>, p: Seat, q: Seat, x: int, y: int)
    requires Agree(board, p, q) && Marker(p.character) && OnBoard(x, y) && HasKey(p.cells, x, y)
    ensures HasKey(board, x, y) && !IsFree(board, x, y)
  {
    assert Lookup(board, x, y) == Some(p.character);
    IsFreeBlank(board, x, y);
    MarkerNotFree(p.character);
  }

  /** Blanking a cell of a well-formed board leaves it free. */
  lemma BlankAfter(board: seq<Entry>, x: int, y: int)
    requires Exact(board) && OnBoard(x, y)
    ensures HasKey(board, x, y) && Lookup(Overwrite(board, x, y, Blank), x, y) == Some(Blank)
    ensures IsFree(Overwrite(board, x, y, Blank), x, y)
  {
    ExactKeys(board, x, y);
    OverwriteCell(board, x, y, Blank);
  }

  /** Fewer than three pieces and a free cell: the piece is placed, the cell shows the
      marker and is no longer free, the turn flips, the other player is untouched. */
  lemma PlaceEffect(r: Round, side: Side, x: int, y: int)
    requires Exact(r.board) && Marker(SeatOf(r, side).character) && HasKey(r.board, x, y)
    requires |SeatOf(r, side).cells| < 3 && IsFree(r.board, x, y)
    ensures Judge(r.board, SeatOf(r, side), x, y) == Placed
    ensures var r' := Move(r, side, x, y);
      && |SeatOf(r', side).cells| == |SeatOf(r, side).cells| + 1
      && HasKey(SeatOf(r', side).cells, x, y)
      && Lookup(r'.board, x, y) == Some(SeatOf(r, side).character)
      && !IsFree(r'.board, x, y)
      && r'.turn == !r.turn && r'.over == r.over
      && SeatOf(r', Other(side)) == SeatOf(r, Other(side))
  {
    var p := SeatOf(r, side);
    PlaceCell(r.board, p, x, y);
    assert Move(r, side, x, y) == Place(r, side, x, y);
  }

  /** Three pieces and a cell the player holds: the piece is lifted, the player is down
      to two, the cell is free again and the turn does not flip. */
  lemma LiftEffect(r: Round, side: Side, x: int, y: int)
    requires Sound(r) && |SeatOf(r, side).cells| == 3 && HasKey(SeatOf(r, side).cells, x, y)
    ensures HasKey(r.board, x, y)
    ensures Judge(r.board, SeatOf(r, side), x, y) == Lifted
    ensures var r' := Move(r, side, x, y);
      && |SeatOf(r', side).cells| == 2
      && !HasKey(SeatOf(r', side).cells, x, y)
      && Lookup(r'.board, x, y) == Some(Blank)
      && IsFree(r'.board, x, y)
      && r'.turn == r.turn && r'.over == r.over
      && SeatOf(r', Other(side)) == SeatOf(r, Other(side))
  {
    var p := SeatOf(r, side);
    var q := SeatOf(r, Other(side));
    if side == Two {
      ConsistentSymmetric(r.board, r.one, r.two);
    }
    LiftCell(r.board, p, q, x, y);
    assert Move(r, side, x, y) == Lift(r, side, x, y);
  }

  /** Placing on an occupied cell, or (with three pieces) touching a free cell or the
      other player's piece, changes nothing at all. */
  lemma MoveRefused(r: Round, side: Side, x: int, y: int)
    requires Sound(r) && HasKey(r.board, x, y)
    requires var p := SeatOf(r, side);
      (|p.cells| < 3 && !IsFree(r.board, x, y)) ||
      (|p.cells| == 3 && (IsFree(r.board, x, y) || HasKey(SeatOf(r, Other(side)).cells, x, y)))
    ensures Judge(r.board, SeatOf(r, side), x, y) == Rejected
    ensures Move(r, side, x, y) == r
  {
    var p := SeatOf(r, side);
    var q := SeatOf(r, Other(side));
    if side == Two {
      ConsistentSymmetric(r.board, r.one, r.two);
    }
    TakenIffHeld(p.cells, p.character, x, y);
    assert !(HasKey(p.cells, x, y) && HasKey(q.cells, x, y));
  }

  // ---------------------------------------------------------------------------
  // Lemmas: the win check

  /** Against a duplicate-free list, a pattern's count is at most 2, and 2 exactly when the
      player holds both of its cells. */
  lemma PatternCount(cells: seq<Entry>, k: int)
    requires NoDuplicates(cells) && 0 <= k < 3
    ensures CountPairs(Patterns()[k], cells) <= 2
    ensures CountPairs(Patterns()[k], cells) == 2 <==> Completes(cells, k)
  {
    var pat := Patterns()[k];
    assert pat[..1][..0] == [];
    assert pat[..1] == [pat[0]];
    CountKeyNoDuplicates(cells, pat[0].x, pat[0].y);
    CountKeyNoDuplicates(cells, pat[1].x, pat[1].y);
  }

  /** Four distinct cells do not fit in a list of at most three entries. */
  lemma NoTwoPatterns(cells: seq<Entry>, k: int, l: int)
    requires |cells| <= 3 && 0 <= k < l < 3
    ensures !(Completes(cells, k) && Completes(cells, l))
  {
    if Completes(cells, k) && Completes(cells, l) {
      var ps: seq<seq<Entry>> := Patterns();
      var i0 :| 0 <= i0 < |cells| && At(cells[i0], ps[k][0].x, ps[k][0].y);
      var i1 :| 0 <= i1 < |cells| && At(cells[i1], ps[k][1].x, ps[k][1].y);
      var i2 :| 0 <= i2 < |cells| && At(cells[i2], ps[l][0].x, ps[l][0].y);
      var i3 :| 0 <= i3 < |cells| && At(cells[i3], ps[l][1].x, ps[l][1].y);
      assert false;
    }
  }

  /** For a valid player at most one pattern reaches 2, so the flag flips at most once,
      and it flips exactly when the player holds a complete pattern. */
  lemma TallyTwos(cells: seq<Entry>)
    requires NoDuplicates(cells) && |cells| <= 3
    ensures Twos(Tally(cells)) <= 1
    ensures Twos(Tally(cells)) == 1 <==> CompletesAny(cells)
  {
    var t := Tally(cells);
    PatternCount(cells, 0);
    PatternCount(cells, 1);
    PatternCount(cells, 2);
    NoTwoPatterns(cells, 0, 1);
    NoTwoPatterns(cells, 0, 2);
    NoTwoPatterns(cells, 1, 2);
    assert t[..2] == [t[0], t[1]] && [t[0], t[1]][..1] == [t[0]] && [t[0]][..0] == [];
    assert Twos([t[0]]) == if t[0] == 2 then 1 else 0;
    assert Twos([t[0], t[1]]) == Twos([t[0]]) + if t[1] == 2 then 1 else 0;
    assert Twos(t) == Twos([t[0], t[1]]) + if t[2] == 2 then 1 else 0;
  }

  /** On a sound round the check ends the round exactly when the checked player holds a
      complete pattern (and restarts nothing otherwise). */
  lemma CheckEnds(r: Round, side: Side)
    requires NoDuplicates(SeatOf(r, side).cells) && |SeatOf(r, side).cells| <= 3
    ensures Check(r, side).over == (r.over != CompletesAny(SeatOf(r, side).cells))
    ensures Check(r, side) == r.(over := Check(r, side).over)
  {
    TallyTwos(SeatOf(r, side).cells);
  }

  // ---------------------------------------------------------------------------
  // Lemmas: a pass of the start loop, the opening and the rematch

  /** A move leaves the other player and the end flag alone, flips the turn exactly when it
      places, and only a placement can give the mover a complete pattern. */
  lemma MoveQuiet(r: Round, side: Side, x: int, y: int)
    requires HasKey(r.board, x, y) && !CompletesAny(SeatOf(r, side).cells)
    ensures var m := Move(r, side, x, y);
      && SeatOf(m, Other(side)) == SeatOf(r, Other(side))
      && m.over == r.over
      && m.turn == (if Judge(r.board, SeatOf(r, side), x, y) == Placed then !r.turn else r.turn)
      && (Judge(r.board, SeatOf(r, side), x, y) != Placed ==> !CompletesAny(SeatOf(m, side).cells))
  {
    var p := SeatOf(r, side);
    if Judge(r.board, p, x, y) == Lifted {
      RemoveFirstSubset(p.cells, x, y);
      assert SeatOf(Move(r, side, x, y), side).cells == RemoveFirst(p.cells, x, y);
    }
  }

  /** A pass of the loop keeps the round sound and quiet; when it ends the round, the move
      was an accepted placement that completed a pattern, and the announced name is that
      of the player who did not make it. */
  lemma PlayKeeps(r: Round, x: int, y: int)
    requires Sound(r) && Quiet(r) && !r.over && HasKey(r.board, x, y)
    ensures Sound(Play(r, x, y)) && Quiet(Play(r, x, y))
    ensures var r' := Play(r, x, y);
      r'.over <==> Judge(r.board, SeatOf(r, Mover(r)), x, y) == Placed &&
                   CompletesAny(SeatOf(r', Mover(r)).cells)
    ensures Play(r, x, y).over ==> Winner(Play(r, x, y)) == SeatOf(r, Other(Mover(r))).name
  {
    var side := Mover(r);
    var m := Move(r, side, x, y);
    MoveKeeps(r, side, x, y);
    MoveQuiet(r, side, x, y);
    assert SeatOk(SeatOf(m, side));
    CheckEnds(m, side);
  }

  /** A new round is sound and quiet, every cell is free and player two moves first. */
  lemma OpeningSound(name1: string, character1: string, name2: string, character2: string)
    requires Marker(character1) && Marker(character2)
    ensures var r := Opening(name1, character1, name2, character2);
      Sound(r) && Quiet(r) && !r.over && Mover(r) == Two &&
      forall x, y :: OnBoard(x, y) ==> IsFree(r.board, x, y)
  {
    BlankCellsExact();
  }

  /** A rematch empties both players, blanks the board, clears the end flag and gives the
      first move to player two again; names and markers stay. */
  lemma RestartResets(r: Round)
    requires Marker(r.one.character) && Marker(r.two.character)
    ensures var r' := Restart(r);
      && Sound(r') && Quiet(r') && !r'.over && Mover(r') == Two
      && |r'.one.cells| == 0 && |r'.two.cells| == 0
      && r'.one.name == r.one.name && r'.one.character == r.one.character
      && r'.two.name == r.two.name && r'.two.character == r.two.character
      && (forall x, y :: OnBoard(x, y) ==> IsFree(r'.board, x, y))
  {
    BlankCellsExact();
  }
}
