/**
  The 3x3 board: one association list holding an entry for each of the nine
  cells, where an empty cell stores a single blank.
*/
module Boards {
  import opened Text
  import opened Coordinates

  const Blank: string := " "

  predicate OnBoard(x: int, y: int) {
    1 <= x <= 3 && 1 <= y <= 3
  }

  /** The nine cells (1..3) x (1..3) in row-major order, each blank. */
  function BlankCells(): (s: seq<Entry>)
    ensures |s| == 9
  {
    seq(9, k requires 0 <= k < 9 => Entry(k / 3 + 1, k % 3 + 1, Blank))
  }

  /** Exactly one entry per board cell and nothing off the board. */
  ghost predicate Exact(s: seq<Entry>) {
    && |s| == 9
    && NoDuplicates(s)
    && (forall i :: 0 <= i < |s| ==> OnBoard(s[i].x, s[i].y))
    && (forall x, y :: OnBoard(x, y) ==> HasKey(s, x, y))
  }

  /** The cell is free when the string stored for it contains a blank. */
  function IsFree(s: seq<Entry>, x: int, y: int): bool
    requires HasKey(s, x, y)
  {
    Contains(Lookup(s, x, y).value, Blank)
  }

  /** Overwriting a cell: drop its entry, then append the new one. */
  function Overwrite(s: seq<Entry>, x: int, y: int, c: string): (r: seq<Entry>)
    requires HasKey(s, x, y)
    ensures |r| == |s|
  {
    RemoveFirst(s, x, y) + [Entry(x, y, c)]
  }

  /** On a well-formed board the cells that have an entry are exactly the board cells. */
  lemma ExactKeys(s: seq<Entry>, x: int, y: int)
    requires Exact(s)
    ensures HasKey(s, x, y) <==> OnBoard(x, y)
  {
    if HasKey(s, x, y) {
      var i :| 0 <= i < |s| && At(s[i], x, y);
      assert OnBoard(s[i].x, s[i].y);
    }
  }

  /** A cell is free exactly when its content holds the blank character. */
  lemma IsFreeBlank(s: seq<Entry>, x: int, y: int)
    requires HasKey(s, x, y)
    ensures IsFree(s, x, y) <==> ' ' in Lookup(s, x, y).value
  {
    ContainsChar(Lookup(s, x, y).value, ' ');
  }

  /** The blank board has one entry per cell and every cell is free. */
  lemma BlankCellsExact()
    ensures Exact(BlankCells())
    ensures forall x, y :: OnBoard(x, y) ==>
              Lookup(BlankCells(), x, y) == Some(Blank) && IsFree(BlankCells(), x, y)
  {
    var s := BlankCells();
    forall i, j | 0 <= i < j < 9 ensures !SameCoordinate(s[i], s[j]) {
      assert s[i] == Entry(i / 3 + 1, i % 3 + 1, Blank);
      assert s[j] == Entry(j / 3 + 1, j % 3 + 1, Blank);
    }
    forall x, y | OnBoard(x, y)
      ensures HasKey(s, x, y) && Lookup(s, x, y) == Some(Blank) && IsFree(s, x, y)
    {
      var k := (x - 1) * 3 + (y - 1);
      assert At(s[k], x, y);
      IsFreeBlank(s, x, y);
    }
  }

  /** Overwriting a cell keeps the board well formed, stores `c` in that cell and leaves
      every other cell as it was; the cell is then free exactly when `c` holds a blank. */
  lemma {:induction false} OverwriteCell(s: seq<Entry>, x: int, y: int, c: string)
    requires Exact(s) && OnBoard(x, y)
    ensures Exact(Overwrite(s, x, y, c))
    ensures Lookup(Overwrite(s, x, y, c), x, y) == Some(c)
    ensures IsFree(Overwrite(s, x, y, c), x, y) <==> ' ' in c
    ensures forall a, b :: !(a == x && b == y) ==>
              Lookup(Overwrite(s, x, y, c), a, b) == Lookup(s, a, b)
  {
    var p := RemoveFirst(s, x, y);
    var e := Entry(x, y, c);
    var r := p + [e];
    RemoveFirstNoDuplicates(s, x, y);
    RemoveFirstSubset(s, x, y);
    AppendNoDuplicates(p, e);
    forall i | 0 <= i < |r| ensures OnBoard(r[i].x, r[i].y) {
      if i < |p| {
        assert r[i] in s;
        var j :| 0 <= j < |s| && s[j] == r[i];
      }
    }
    forall a, b | OnBoard(a, b) ensures HasKey(r, a, b) {
      AppendLookup(p, e, a, b);
    }
    AppendLookup(p, e, x, y);
    forall a, b | !(a == x && b == y) ensures Lookup(r, a, b) == Lookup(s, a, b) {
      AppendLookup(p, e, a, b);
      if HasKey(s, a, b) {
        RemoveFirstLookup(s, x, y, a, b);
      }
    }
    IsFreeBlank(r, x, y);
  }

  class Board {
    var free: Coordinate

    /** A board whose nine cells are all blank. */
    constructor ()
      ensures fresh(free)
      ensures free.dataList == BlankCells()
    {
      free := new Coordinate();
      new;
      Initialize();
    }

    /** Appends a blank entry for each of the nine cells. */
    method Initialize()
      modifies free
      ensures free.dataList == old(free.dataList) + BlankCells()
    {
      free.Add(1, 1, Blank);
      free.Add(1, 2, Blank);
      free.Add(1, 3, Blank);
      free.Add(2, 1, Blank);
      free.Add(2, 2, Blank);
      free.Add(2, 3, Blank);
      free.Add(3, 1, Blank);
      free.Add(3, 2, Blank);
      free.Add(3, 3, Blank);
    }

    /** Replaces the list by a fresh one holding the nine blank cells. */
    method ResetBoard()
      modifies this
      ensures fresh(free)
      ensures free.dataList == BlankCells()
    {
      free := new Coordinate();
      Initialize();
    }

    /** The nine cell contents the display shows, row by row; `None` is what Java prints as null. */
    method DisplayBoard() returns (rows: seq<seq<Option<string>>>)
      ensures |rows| == 3
      ensures forall r :: 0 <= r < 3 ==> |rows[r]| == 3
      ensures forall r, c :: 0 <= r < 3 && 0 <= c < 3 ==>
                rows[r][c] == Lookup(free.dataList, r + 1, c + 1)
    {
      var firstRow := DisplayRow(1);
      var secondRow := DisplayRow(2);
      var thirdRow := DisplayRow(3);
      rows := [firstRow, secondRow, thirdRow];
    }

    /** The three cell contents of row `r`, as formatted into one line of the display. */
    method DisplayRow(r: int) returns (row: seq<Option<string>>)
      ensures |row| == 3
      ensures forall c :: 0 <= c < 3 ==> row[c] == Lookup(free.dataList, r, c + 1)
    {
      var first := free.Get(r, 1);
      var second := free.Get(r, 2);
      var third := free.Get(r, 3);
      row := [first, second, third];
    }

    /** Whether the cell holds a blank; the cell must have an entry (Java dereferences null otherwise). */
    method IsFreeSet(x: int, y: int) returns (b: bool)
      requires HasKey(free.dataList, x, y)
      ensures b == IsFree(free.dataList, x, y)
      ensures b <==> ' ' in Lookup(free.dataList, x, y).value
    {
      var cell := free.Get(x, y);
      b := Contains(cell.value, Blank);
      IsFreeBlank(free.dataList, x, y);
    }

    /** Stores `character` in the cell by removing its entry and appending a new one. */
    method UpdateSet(x: int, y: int, character: string)
      requires HasKey(free.dataList, x, y)
      modifies free
      ensures free.dataList == Overwrite(old(free.dataList), x, y, character)
      ensures old(Exact(free.dataList)) && OnBoard(x, y) ==>
                Exact(free.dataList) && Lookup(free.dataList, x, y) == Some(character)
    {
      ghost var before := free.dataList;
      free.Remove(x, y);
      free.Add(x, y, character);
      if Exact(before) && OnBoard(x, y) {
        OverwriteCell(before, x, y, character);
      }
    }
  }
}
