/**
  A player: a fixed name and one-character marker, and the list of cells the
  player currently occupies, each entry storing the player's marker.
*/
module Players {
  import opened Text
  import opened Coordinates

  /** Whether the player's list records a piece at (x, y): the stored string must contain the marker. */
  function Taken(cells: seq<Entry>, character: string, x: int, y: int): bool {
    match Lookup(cells, x, y)
    case None => false
    case Some(d) => Contains(d, character)
  }

  /** Every entry of the list stores the player's own marker. */
  ghost predicate Owns(cells: seq<Entry>, character: string) {
    forall i :: 0 <= i < |cells| ==> cells[i].data == character
  }

  /** Because every entry stores the player's marker, a cell counts as taken exactly when it has an entry. */
  lemma TakenIffHeld(cells: seq<Entry>, character: string, x: int, y: int)
    requires Owns(cells, character)
    ensures Taken(cells, character, x, y) <==> HasKey(cells, x, y)
  {
    if HasKey(cells, x, y) {
      ContainsItself(character);
    }
  }

  class Player {
    const name: string
    const character: string
    var mySet: Coordinate

    /** A player holding no cells. */
    constructor (name: string, character: string)
      ensures this.name == name && this.character == character
      ensures fresh(mySet) && mySet.dataList == []
    {
      this.name := name;
      this.character := character;
      mySet := new Coordinate();
    }

    /** How many cells the player holds. */
    method GetSizeSet() returns (n: int)
      ensures n == |mySet.dataList|
    {
      n := mySet.Size();
    }

    /** Whether the player holds (x, y): false without an entry, otherwise whether the entry shows the marker. */
    method IsSetTaken(x: int, y: int) returns (b: bool)
      ensures b == Taken(mySet.dataList, character, x, y)
      ensures !HasKey(mySet.dataList, x, y) ==> !b
      ensures Owns(mySet.dataList, character) ==> (b <==> HasKey(mySet.dataList, x, y))
    {
      var stored := mySet.Get(x, y);
      if stored.None? {
        return false;
      }
      b := Contains(stored.value, character);
      if Owns(mySet.dataList, character) {
        TakenIffHeld(mySet.dataList, character, x, y);
      }
    }

    /** Records a piece at (x, y) under the player's marker. */
    method SetMySet(x: int, y: int)
      modifies mySet
      ensures mySet.dataList == old(mySet.dataList) + [Entry(x, y, character)]
      ensures |mySet.dataList| == |old(mySet.dataList)| + 1
    {
      mySet.Add(x, y, character);
    }

    /** Drops the piece at (x, y); the player must hold it, since Java's `remove(-1)` fails. */
    method RemoveMySet(x: int, y: int)
      requires HasKey(mySet.dataList, x, y)
      modifies mySet
      ensures mySet.dataList == RemoveFirst(old(mySet.dataList), x, y)
      ensures |mySet.dataList| == |old(mySet.dataList)| - 1
    {
      mySet.Remove(x, y);
    }

    /** Gives the player a fresh, empty list; name and marker are constants and stay. */
    method ResetPlayer()
      modifies this
      ensures fresh(mySet) && mySet.dataList == []
    {
      mySet := new Coordinate();
    }
  }
}
