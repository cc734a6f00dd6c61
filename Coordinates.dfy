/**
  The ordered association list behind the board, each player's pieces and the
  winning patterns: a list of (x, y, data) entries where lookups take the
  first entry with the wanted coordinate.
*/
module Coordinates {

  datatype Option<T> = None | Some(value: T)

  /** One element of the list: a coordinate and the string stored for it. */
  datatype Entry = Entry(x: int, y: int, data: string)

  predicate At(e: Entry, x: int, y: int) {
    e.x == x && e.y == y
  }

  predicate SameCoordinate(d: Entry, e: Entry) {
    d.x == e.x && d.y == e.y
  }

  /** Some entry of `s` has coordinate (x, y). */
  predicate HasKey(s: seq<Entry>, x: int, y: int) {
    exists i :: 0 <= i < |s| && At(s[i], x, y)
  }

  /** No coordinate occurs twice in `s`. */
  predicate NoDuplicates(s: seq<Entry>) {
    forall i, j :: 0 <= i < j < |s| ==> !SameCoordinate(s[i], s[j])
  }

  /** The coordinates that occur in `s`. */
  function Keys(s: seq<Entry>): set<(int, int)> {
    set i | 0 <= i < |s| :: (s[i].x, s[i].y)
  }

  // ---------------------------------------------------------------------------
  // Reference definitions of the list operations

  /** The smallest index whose entry has coordinate (x, y), or -1 when there is none. */
  function FirstIndex(s: seq<Entry>, x: int, y: int): (i: int)
    ensures -1 <= i < |s|
    ensures 0 <= i ==> At(s[i], x, y) && forall j :: 0 <= j < i ==> !At(s[j], x, y)
    ensures i == -1 <==> !HasKey(s, x, y)
  {
    if s == [] then -1
    else if At(s[0], x, y) then 0
    else
      var k := FirstIndex(s[1..], x, y);
      assert forall j :: 1 <= j < |s| ==> s[j] == s[1..][j - 1];
      if k == -1 then -1 else k + 1
  }

  /** The data of the first entry at (x, y); `None` stands for Java's null. */
  function Lookup(s: seq<Entry>, x: int, y: int): (r: Option<string>)
    ensures r.None? <==> !HasKey(s, x, y)
    ensures r.Some? ==> r.value == s[FirstIndex(s, x, y)].data
  {
    if s == [] then None
    else if At(s[0], x, y) then Some(s[0].data)
    else
      assert forall j :: 1 <= j < |s| ==> s[j] == s[1..][j - 1];
      Lookup(s[1..], x, y)
  }

  /** `s` without its first entry at (x, y); unchanged when there is none. */
  function RemoveFirst(s: seq<Entry>, x: int, y: int): seq<Entry> {
    var k := FirstIndex(s, x, y);
    if k == -1 then s else s[..k] + s[k + 1..]
  }

  /** How many entries of `t` have coordinate (x, y). */
  function CountKey(t: seq<Entry>, x: int, y: int): (n: nat)
    ensures n <= |t|
    ensures n == 0 <==> !HasKey(t, x, y)
  {
    if t == [] then 0
    else
      var t' := t[..|t| - 1];
      assert forall j :: 0 <= j < |t'| ==> t'[j] == t[j];
      CountKey(t', x, y) + if At(t[|t| - 1], x, y) then 1 else 0
  }

  /** How many pairs (entry of `s`, entry of `t`) share a coordinate. */
  function CountPairs(s: seq<Entry>, t: seq<Entry>): (n: nat)
    ensures n <= |s| * |t|
  {
    if s == [] then 0
    else
      var e := s[|s| - 1];
      CountPairs(s[..|s| - 1], t) + CountKey(t, e.x, e.y)
  }

  // ---------------------------------------------------------------------------
  // Properties of the reference definitions

  /** Appending one entry: older entries keep their place and shadow the new one. */
  lemma AppendLookup(s: seq<Entry>, e: Entry, x: int, y: int)
    ensures HasKey(s + [e], x, y) <==> HasKey(s, x, y) || At(e, x, y)
    ensures Lookup(s + [e], x, y) ==
              if HasKey(s, x, y) then Lookup(s, x, y)
              else if At(e, x, y) then Some(e.data)
              else None
  {
    var t := s + [e];
    assert forall j :: 0 <= j < |s| ==> t[j] == s[j];
    assert t[|s|] == e;
    if HasKey(s, x, y) {
      var k := FirstIndex(s, x, y);
      assert FirstIndex(t, x, y) == k;
    } else if At(e, x, y) {
      assert FirstIndex(t, x, y) == |s|;
    }
  }

  /** An appended entry keeps the list free of duplicates exactly when its coordinate is new. */
  lemma AppendNoDuplicates(s: seq<Entry>, e: Entry)
    ensures NoDuplicates(s + [e]) <==> NoDuplicates(s) && !HasKey(s, e.x, e.y)
  {
    var t := s + [e];
    assert forall j :: 0 <= j < |s| ==> t[j] == s[j];
    if NoDuplicates(t) {
      if HasKey(s, e.x, e.y) {
        var i :| 0 <= i < |s| && At(s[i], e.x, e.y);
        assert SameCoordinate(t[i], t[|s|]);
        assert false;
      }
    }
  }

  /** The entries left after removal are the old ones with the removed slot skipped. */
  lemma RemoveFirstShift(s: seq<Entry>, x: int, y: int, j: int)
    requires HasKey(s, x, y) && 0 <= j < |RemoveFirst(s, x, y)|
    ensures |RemoveFirst(s, x, y)| == |s| - 1
    ensures RemoveFirst(s, x, y)[j] ==
              if j < FirstIndex(s, x, y) then s[j] else s[j + 1]
  {
  }

  /** Removal leaves the lookup of every other coordinate alone. */
  lemma RemoveFirstLookup(s: seq<Entry>, x: int, y: int, a: int, b: int)
    requires HasKey(s, x, y) && !(a == x && b == y)
    ensures Lookup(RemoveFirst(s, x, y), a, b) == Lookup(s, a, b)
  {
    var k := FirstIndex(s, x, y);
    var r := RemoveFirst(s, x, y);
    var i := FirstIndex(s, a, b);
    if i == -1 {
      if HasKey(r, a, b) {
        var j :| 0 <= j < |r| && At(r[j], a, b);
        RemoveFirstShift(s, x, y, j);
        assert false;
      }
    } else {
      assert i != k;
      var i' := if i < k then i else i - 1;
      RemoveFirstShift(s, x, y, i');
      assert At(r[i'], a, b);
      forall j | 0 <= j < i' ensures !At(r[j], a, b) {
        RemoveFirstShift(s, x, y, j);
      }
      assert FirstIndex(r, a, b) == i';
    }
  }

  /** Every entry that survives removal was already there. */
  lemma RemoveFirstSubset(s: seq<Entry>, x: int, y: int)
    requires HasKey(s, x, y)
    ensures forall e :: e in RemoveFirst(s, x, y) ==> e in s
    ensures forall a, b :: HasKey(RemoveFirst(s, x, y), a, b) ==> HasKey(s, a, b)
  {
    var r := RemoveFirst(s, x, y);
    forall e | e in r ensures e in s {
      var j :| 0 <= j < |r| && r[j] == e;
      RemoveFirstShift(s, x, y, j);
    }
    forall a, b | HasKey(r, a, b) ensures HasKey(s, a, b) {
      var j :| 0 <= j < |r| && At(r[j], a, b);
      assert r[j] in s;
    }
  }

  /** On a duplicate-free list, removal drops one entry, adds none, keeps the list
      duplicate-free and takes away exactly (x, y). */
  lemma RemoveFirstNoDuplicates(s: seq<Entry>, x: int, y: int)
    requires HasKey(s, x, y) && NoDuplicates(s)
    ensures |RemoveFirst(s, x, y)| == |s| - 1
    ensures forall e :: e in RemoveFirst(s, x, y) ==> e in s
    ensures NoDuplicates(RemoveFirst(s, x, y))
    ensures forall a, b :: HasKey(RemoveFirst(s, x, y), a, b) <==> HasKey(s, a, b) && !(a == x && b == y)
  {
    var k := FirstIndex(s, x, y);
    var r := RemoveFirst(s, x, y);
    forall i, j | 0 <= i < j < |r| ensures !SameCoordinate(r[i], r[j]) {
      RemoveFirstShift(s, x, y, i);
      RemoveFirstShift(s, x, y, j);
    }
    RemoveFirstSubset(s, x, y);
    forall a, b | HasKey(s, a, b) && !(a == x && b == y) ensures HasKey(r, a, b) {
      RemoveFirstLookup(s, x, y, a, b);
    }
    if HasKey(r, x, y) {
      var j :| 0 <= j < |r| && At(r[j], x, y);
      RemoveFirstShift(s, x, y, j);
      if j >= k { assert SameCoordinate(s[k], s[j + 1]); }
      assert false;
    }
  }

  /** `HasKey` is membership in `Keys`. */
  lemma KeysHasKey(s: seq<Entry>, x: int, y: int)
    ensures (x, y) in Keys(s) <==> HasKey(s, x, y)
  {
    if HasKey(s, x, y) {
      var i :| 0 <= i < |s| && At(s[i], x, y);
      assert (s[i].x, s[i].y) in Keys(s);
    }
  }

  lemma {:induction false} KeysOfPrefix(s: seq<Entry>)
    requires s != []
    ensures Keys(s) == Keys(s[..|s| - 1]) + {(s[|s| - 1].x, s[|s| - 1].y)}
  {
    var p := s[..|s| - 1];
    assert forall j :: 0 <= j < |p| ==> p[j] == s[j];
    forall k | k in Keys(s) ensures k in Keys(p) + {(s[|s| - 1].x, s[|s| - 1].y)} {
      var i :| 0 <= i < |s| && k == (s[i].x, s[i].y);
      if i < |p| { assert k in Keys(p); }
    }
  }

  /** Without duplicates, each entry contributes its own coordinate. */
  lemma {:induction false} KeysCount(s: seq<Entry>)
    requires NoDuplicates(s)
    ensures |Keys(s)| == |s|
  {
    if s != [] {
      var p := s[..|s| - 1];
      var e := s[|s| - 1];
      assert s == p + [e];
      AppendNoDuplicates(p, e);
      KeysOfPrefix(s);
      KeysCount(p);
      KeysHasKey(p, e.x, e.y);
    }
  }

  /** In a list without duplicates a coordinate is counted once or not at all. */
  lemma {:induction false} CountKeyNoDuplicates(t: seq<Entry>, x: int, y: int)
    requires NoDuplicates(t)
    ensures CountKey(t, x, y) == if HasKey(t, x, y) then 1 else 0
  {
    if t != [] {
      var p := t[..|t| - 1];
      var e := t[|t| - 1];
      assert t == p + [e];
      AppendNoDuplicates(p, e);
      CountKeyNoDuplicates(p, x, y);
      AppendLookup(p, e, x, y);
    }
  }

  /** When neither list repeats a coordinate, the pair count is the number of shared
      coordinates, so it is at most the smaller length. */
  lemma {:induction false} CountPairsShared(s: seq<Entry>, t: seq<Entry>)
    requires NoDuplicates(s) && NoDuplicates(t)
    ensures CountPairs(s, t) == |Keys(s) * Keys(t)|
    ensures CountPairs(s, t) <= |s| && CountPairs(s, t) <= |t|
  {
    if s != [] {
      var p := s[..|s| - 1];
      var e := s[|s| - 1];
      assert s == p + [e];
      AppendNoDuplicates(p, e);
      CountPairsShared(p, t);
      KeysOfPrefix(s);
      KeysHasKey(p, e.x, e.y);
      KeysHasKey(t, e.x, e.y);
      CountKeyNoDuplicates(t, e.x, e.y);
      var k := (e.x, e.y);
      if k in Keys(t) {
        assert Keys(s) * Keys(t) == (Keys(p) * Keys(t)) + {k};
      } else {
        assert Keys(s) * Keys(t) == Keys(p) * Keys(t);
      }
    }
    KeysCount(s);
    KeysCount(t);
    SubsetCard(Keys(s) * Keys(t), Keys(s));
    SubsetCard(Keys(s) * Keys(t), Keys(t));
  }

  lemma SubsetCard(a: set<(int, int)>, b: set<(int, int)>)
    requires a <= b
    ensures |a| <= |b|
  {
    assert b == a + (b - a);
  }

  // ---------------------------------------------------------------------------
  // The list object

  class Coordinate {
    var dataList: seq<Entry>

    /** An empty list. */
    constructor ()
      ensures dataList == []
    {
      dataList := [];
    }

    /** Appends one entry at the end. */
    method Add(x: int, y: int, character: string)
      modifies this
      ensures dataList == old(dataList) + [Entry(x, y, character)]
    {
      dataList := dataList + [Entry(x, y, character)];
    }

    /** Scans from the front for the first entry at (x, y). */
    method GetIndex(x: int, y: int) returns (index: int)
      ensures index == FirstIndex(dataList, x, y)
      ensures 0 <= index ==> At(dataList[index], x, y)
      ensures index == -1 <==> !HasKey(dataList, x, y)
    {
      var i := 0;
      while i < |dataList|
        invariant 0 <= i <= |dataList|
        invariant forall j :: 0 <= j < i ==> !At(dataList[j], x, y)
      {
        if dataList[i].x == x && dataList[i].y == y {
          return i;
        }
        i := i + 1;
      }
      return -1;
    }

    /** Deletes the first entry at (x, y); Java's `remove(-1)` fails, hence the requirement. */
    method Remove(x: int, y: int)
      requires HasKey(dataList, x, y)
      modifies this
      ensures dataList == RemoveFirst(old(dataList), x, y)
      ensures |dataList| == |old(dataList)| - 1
    {
      var index := GetIndex(x, y);
      dataList := dataList[..index] + dataList[index + 1..];
    }

    /** The data of the first entry at (x, y), or `None` (Java's null). */
    method Get(x: int, y: int) returns (r: Option<string>)
      ensures r == Lookup(dataList, x, y)
      ensures r.None? <==> !HasKey(dataList, x, y)
    {
      var i := 0;
      while i < |dataList|
        invariant 0 <= i <= |dataList|
        invariant forall j :: 0 <= j < i ==> !At(dataList[j], x, y)
      {
        if dataList[i].x == x && dataList[i].y == y {
          return Some(dataList[i].data);
        }
        i := i + 1;
      }
      return None;
    }

    method Size() returns (n: int)
      ensures n == |dataList|
    {
      n := |dataList|;
    }

    /** Nested scan counting the pairs of entries, one from each list, at the same coordinate. */
    method CountMatching(playerSet: Coordinate) returns (matchCount: int)
      ensures matchCount == CountPairs(dataList, playerSet.dataList)
      ensures NoDuplicates(dataList) && NoDuplicates(playerSet.dataList) ==>
                matchCount == |Keys(dataList) * Keys(playerSet.dataList)| &&
                matchCount <= |dataList| && matchCount <= |playerSet.dataList|
    {
      var others := playerSet.dataList;
      matchCount := 0;
      for i := 0 to |dataList|
        invariant matchCount == CountPairs(dataList[..i], others)
      {
        var e := dataList[i];
        for j := 0 to |others|
          invariant matchCount == CountPairs(dataList[..i], others) + CountKey(others[..j], e.x, e.y)
        {
          assert others[..j + 1][..j] == others[..j];
          if e.x == others[j].x && e.y == others[j].y {
            matchCount := matchCount + 1;
          }
        }
        assert others[..|others|] == others;
        assert dataList[..i + 1][..i] == dataList[..i];
      }
      assert dataList[..|dataList|] == dataList;
      if NoDuplicates(dataList) && NoDuplicates(others) {
        CountPairsShared(dataList, others);
      }
    }
  }
}
