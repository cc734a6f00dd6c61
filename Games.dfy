/**
  The game object: the shared board, the two players, the turn and end-of-round
  flags and the three winning patterns. Each method is proved to change these
  objects exactly as the corresponding function of GameRules changes a Round,
  and to keep the board and the players in agreement.
*/
module Games {
  import opened Coordinates
  import opened Boards
  import opened Players
  import opened GameRules
  import opened Input

  class Game {
    const board: Board
    const player1: Player
    const player2: Player
    /** True when player two moves next. */
    var turn: bool
    var over: bool
    var winningSets: seq<Coordinate>

    /** The round these objects hold, as a value. */
    ghost function State(): Round
      reads this, board, board.free, player1, player1.mySet, player2, player2.mySet
    {
      Round(board.free.dataList,
            Seat(player1.name, player1.character, player1.mySet.dataList),
            Seat(player2.name, player2.character, player2.mySet.dataList),
            turn, over)
    }

    /** The lists that methods change are distinct objects, and no pattern list is one of them. */
    ghost predicate Separate()
      reads this, board, player1, player2
    {
      && board.free != player1.mySet && board.free != player2.mySet
      && player1.mySet != player2.mySet
      && forall k :: 0 <= k < |winningSets| ==>
           winningSets[k] != board.free && winningSets[k] != player1.mySet && winningSets[k] != player2.mySet
    }

    /** The three pattern lists hold the fixed patterns in order. */
    ghost predicate PatternsHeld()
      reads this, winningSets
    {
      |winningSets| == 3 && forall k :: 0 <= k < 3 ==> winningSets[k].dataList == Patterns()[k]
    }

    ghost predicate Valid()
      reads this, board, board.free, player1, player1.mySet, player2, player2.mySet, winningSets
    {
      Separate() && PatternsHeld() && Sound(State())
    }

    ghost function SideOf(player: Player): Side
      reads this
    {
      if player == player1 then One else Two
    }

    /** A game between two named players with their markers: blank board, empty players,
        player two to move, the round running, the three patterns loaded. */
    constructor (name1: string, character1: string, name2: string, character2: string)
      requires Marker(character1) && Marker(character2)
      ensures Valid() && Quiet(State()) && !over
      ensures State() == Opening(name1, character1, name2, character2)
      ensures fresh(board) && fresh(board.free)
      ensures fresh(player1) && fresh(player1.mySet) && fresh(player2) && fresh(player2.mySet)
    {
      board := new Board();
      winningSets := [];
      turn := true;
      over := false;
      player1 := new Player(name1, character1);
      player2 := new Player(name2, character2);
      new;
      InitializeWinningSets();
      OpeningSound(name1, character1, name2, character2);
    }

    /** Appends the vertical, horizontal and diagonal pattern, each a fresh two-cell list. */
    method InitializeWinningSets()
      modifies this`winningSets
      ensures |winningSets| == |old(winningSets)| + 3
      ensures winningSets[..|old(winningSets)|] == old(winningSets)
      ensures forall k :: |old(winningSets)| <= k < |winningSets| ==>
                fresh(winningSets[k]) && winningSets[k].dataList == Patterns()[k - |old(winningSets)|]
    {
      var verticalSet := new Coordinate();
      var horizontalSet := new Coordinate();
      var diagonalSet := new Coordinate();
      verticalSet.Add(1, 2, "L");
      verticalSet.Add(3, 2, "L");
      horizontalSet.Add(2, 1, "L");
      horizontalSet.Add(2, 3, "L");
      diagonalSet.Add(1, 3, "L");
      diagonalSet.Add(3, 1, "L");
      winningSets := winningSets + [verticalSet, horizontalSet, diagonalSet];
    }

    /** The move rule for `player` at (x, y); the cell must have a board entry, since the
        board's free test dereferences the missing entry otherwise. */
    method NextPlayerMove(player: Player, x: int, y: int)
      requires Separate() && (player == player1 || player == player2)
      requires HasKey(board.free.dataList, x, y)
      modifies board.free, player.mySet, this`turn
      ensures State() == Move(old(State()), SideOf(player), x, y)
    {
      var size := player.GetSizeSet();
      if size < 3 {
        var free := board.IsFreeSet(x, y);
        if free {
          AddSet(player, x, y);
        }
      } else if size == 3 {
        var free := board.IsFreeSet(x, y);
        if !free {
          var taken := player.IsSetTaken(x, y);
          if taken {
            TakeSet(player, x, y);
          }
        }
      }
    }

    /** The player records the cell, the board shows the player's marker, the turn passes. */
    method AddSet(player: Player, x: int, y: int)
      requires Separate() && (player == player1 || player == player2)
      requires HasKey(board.free.dataList, x, y)
      modifies board.free, player.mySet, this`turn
      ensures State() == Place(old(State()), SideOf(player), x, y)
    {
      player.SetMySet(x, y);
      board.UpdateSet(x, y, player.character);
      turn := !turn;
    }

    /** The player gives the cell up and the board shows it blank; the turn stays. */
    method TakeSet(player: Player, x: int, y: int)
      requires Separate() && (player == player1 || player == player2)
      requires HasKey(player.mySet.dataList, x, y) && HasKey(board.free.dataList, x, y)
      modifies board.free, player.mySet
      ensures State() == Lift(old(State()), SideOf(player), x, y)
    {
      player.RemoveMySet(x, y);
      board.UpdateSet(x, y, Blank);
    }

    /** Counts each pattern against the player's list, then flips `over` once per count of 2. */
    method SetChecker(player: Player)
      requires PatternsHeld() && (player == player1 || player == player2)
      modifies this`over
      ensures State() == Check(old(State()), SideOf(player))
    {
      var count := CountPatterns(player);
      ghost var counts := count[..];
      ghost var before := over;
      for j := 0 to 3
        invariant count[..] == counts
        invariant over == if Twos(counts[..j]) % 2 == 1 then !before else before
        modifies this`over
      {
        TwosStep(counts, j);
        if count[j] == 2 {
          over := !over;
        }
      }
      assert counts[..3] == counts;
    }

    /** The count array of the check: entry k is pattern k matched against the player's list. */
    method CountPatterns(player: Player) returns (count: array<int>)
      requires PatternsHeld()
      ensures fresh(count) && count[..] == Tally(player.mySet.dataList)
    {
      ghost var tally := Tally(player.mySet.dataList);
      count := new int[3] [0, 0, 0];
      var i := 0;
      while i < |winningSets|
        invariant 0 <= i <= 3
        invariant forall k :: 0 <= k < i ==> count[k] == tally[k]
        modifies count
      {
        count[i] := winningSets[i].CountMatching(player.mySet);
        i := i + 1;
      }
      assert count[..] == tally;
    }

    /** One pass of the start loop: the player `turn` selects moves at (x, y) and is checked.
        The coordinate is one the console's range test lets through (with its lower bound
        corrected to 1). The pass keeps the round sound and, while it runs, free of
        complete patterns. */
    method Step(x: int, y: int)
      requires Valid() && Quiet(State()) && !over && Accepted(x, y)
      modifies board.free, player1.mySet, player2.mySet, this`turn, this`over
      ensures HasKey(old(board.free.dataList), x, y)
      ensures Valid() && Quiet(State())
      ensures State() == Play(old(State()), x, y)
    {
      ghost var r := State();
      AcceptedExactlyOnBoard(board.free.dataList, x, y);
      if turn {
        NextPlayerMove(player2, x, y);
        SetChecker(player2);
      } else {
        NextPlayerMove(player1, x, y);
        SetChecker(player1);
      }
      assert winningSets == old(winningSets);
      assert Separate() && PatternsHeld();
      PlayKeeps(r, x, y);
    }

    /** The name announced at the end of a round. */
    method GameOver() returns (winner: string)
      ensures winner == Winner(State())
    {
      if turn {
        winner := player2.name;
      } else {
        winner := player1.name;
      }
    }

    /** Blank board, empty players, the round running again and player two to move. */
    method Rematch()
      requires Valid()
      modifies board, player1, player2, this`over, this`turn
      ensures Valid() && Quiet(State()) && !over
      ensures State() == Restart(old(State()))
      ensures fresh(board.free) && fresh(player1.mySet) && fresh(player2.mySet)
    {
      ghost var r := State();
      board.ResetBoard();
      player1.ResetPlayer();
      player2.ResetPlayer();
      over := false;
      turn := true;
      RestartResets(r);
    }
  }

  /** A new game followed by one pass of the start loop at an accepted coordinate. */
  method OpeningPass(name1: string, character1: string, name2: string, character2: string, x: int, y: int)
    returns (g: Game)
    requires Marker(character1) && Marker(character2) && Accepted(x, y)
    ensures fresh(g) && g.Valid() && Quiet(g.State())
    ensures HasKey(Opening(name1, character1, name2, character2).board, x, y)
    ensures g.State() == Play(Opening(name1, character1, name2, character2), x, y)
  {
    g := new Game(name1, character1, name2, character2);
    g.Step(x, y);
  }

  /** A rematch of a valid game followed by one pass of the start loop at an accepted coordinate. */
  method RematchPass(g: Game, x: int, y: int)
    requires g.Valid() && Accepted(x, y)
    modifies g, g.board, g.player1, g.player2
    ensures g.Valid() && Quiet(g.State())
    ensures HasKey(Restart(old(g.State())).board, x, y)
    ensures g.State() == Play(Restart(old(g.State())), x, y)
  {
    g.Rematch();
    g.Step(x, y);
  }
}
