/**
 * The generic slice of package slice: a list of items whose operations take
 * a lock (not modelled) and read or replace the backing list. Out-of-range
 * reads give the zero value and out-of-range deletions do nothing.
 */
module Slice {
  /** The item at `index`, or `zero` when the index is out of range. */
  function At<T>(s: seq<T>, zero: T, index: int): (item: T)
    ensures 0 <= index < |s| ==> item == s[index]
    ensures !(0 <= index < |s|) ==> item == zero
  {
    if index < 0 || index >= |s| then zero else s[index]
  }

  /** `s` without the item at `index`; unchanged when the index is out of range. */
  function SpliceOut<T>(s: seq<T>, index: int): (r: seq<T>)
    ensures !(0 <= index < |s|) ==> r == s
    ensures 0 <= index < |s| ==> |r| == |s| - 1
    ensures 0 <= index < |s| ==> forall j :: 0 <= j < index ==> r[j] == s[j]
    ensures 0 <= index < |s| ==> forall j :: index <= j < |r| ==> r[j] == s[j + 1]
  {
    if index < 0 || index >= |s| then s else s[..index] + s[index + 1..]
  }

  /** Deleting keeps every other item, in order, and drops one occurrence of the deleted item. */
  lemma SpliceOutRemovesOne<T>(s: seq<T>, index: int)
    requires 0 <= index < |s|
    ensures multiset(SpliceOut(s, index)) + multiset{s[index]} == multiset(s)
  {
    assert s == s[..index] + [s[index]] + s[index + 1..];
  }

  /** After a deletion, reads past the deleted position see the next item. */
  lemma AtAfterSpliceOut<T>(s: seq<T>, zero: T, index: int, j: int)
    requires 0 <= index < |s|
    ensures At(SpliceOut(s, index), zero, j) == At(s, zero, if j < index then j else j + 1)
  {
  }

  class Slice<T> {
    /** Go's zero value of the item type. */
    const zero: T
    var data: seq<T>

    /** `New`: an empty slice. */
    constructor (zero: T)
      ensures this.zero == zero && data == []
    {
      this.zero := zero;
      data := [];
    }

    function Len(): (n: nat)
      reads this
      ensures n == |data|
    {
      |data|
    }

    /** `Append`: the item goes last. */
    method Append(item: T)
      modifies this
      ensures data == old(data) + [item]
      ensures Len() == old(Len()) + 1 && Get(Len() - 1) == item
    {
      data := data + [item];
    }

    /** `AppendMany`: the items go last, in argument order. */
    method AppendMany(items: seq<T>)
      modifies this
      ensures data == old(data) + items
    {
      data := data + items;
    }

    /** `Get`: the item at `index`, or the zero value when out of range. */
    function Get(index: int): (item: T)
      reads this
      ensures item == At(data, zero, index)
    {
      if index < 0 || index >= |data| then zero else data[index]
    }

    /** `Delete`: removes the item at `index`; out of range does nothing. */
    method Delete(index: int)
      modifies this
      ensures data == SpliceOut(old(data), index)
    {
      if index < 0 || index >= |data| {
        return;
      }
      data := data[..index] + data[index + 1..];
    }

    /** `Items`: a copy of the contents. */
    method Items() returns (items: seq<T>)
      ensures items == data
    {
      items := data;
    }

    /** `Reset`: empties the slice. */
    method Reset()
      modifies this
      ensures data == []
    {
      data := [];
    }
  }

  /** A fresh slice read anywhere gives the zero value. */
  method NewSliceReadsZero<T>(zero: T, index: int) returns (item: T)
    ensures item == zero
  {
    var s := new Slice(zero);
    item := s.Get(index);
  }
}
