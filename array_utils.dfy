/** Copy-on-write sequence helpers that the board reducer calls: insert,
    remove and replace at an index, and "drag to index" (remove, then insert
    into the shorter sequence). Each returns a new sequence; none changes its
    argument. */
module ArrayUtils {

  /** The sequence with `item` inserted before position `index`. */
  function InsertItemAtIndex<T>(s: seq<T>, item: T, index: nat): (r: seq<T>)
    requires index <= |s|
    ensures |r| == |s| + 1
    ensures r[index] == item
    ensures forall j :: 0 <= j < index ==> r[j] == s[j]
    ensures forall j :: index <= j < |s| ==> r[j + 1] == s[j]
  {
    s[..index] + [item] + s[index..]
  }

  /** Inserting adds exactly the inserted element to the multiset. */
  lemma InsertedMultiset<T>(r: seq<T>, s: seq<T>, item: T, index: nat)
    requires index <= |s| && r == InsertItemAtIndex(s, item, index)
    ensures multiset(r) == multiset(s) + multiset{item}
  {
    assert s == s[..index] + s[index..];
  }

  /** The sequence without the element at position `index`; the others keep
      their order. */
  function RemoveItemAtIndex<T>(s: seq<T>, index: nat): (r: seq<T>)
    requires index < |s|
    ensures |r| == |s| - 1
    ensures forall j :: 0 <= j < index ==> r[j] == s[j]
    ensures forall j :: index <= j < |r| ==> r[j] == s[j + 1]
  {
    s[..index] + s[index + 1..]
  }

  /** Removing takes exactly the removed element out of the multiset. */
  lemma RemovedMultiset<T>(r: seq<T>, s: seq<T>, index: nat)
    requires index < |s| && r == RemoveItemAtIndex(s, index)
    ensures multiset(r) + multiset{s[index]} == multiset(s)
  {
    assert s == s[..index] + [s[index]] + s[index + 1..];
  }

  /** The sequence with the element at position `index` replaced by `item`. */
  function OverrideItemAtIndex<T>(s: seq<T>, item: T, index: nat): (r: seq<T>)
    requires index < |s|
    ensures |r| == |s|
    ensures r[index] == item
    ensures forall j :: 0 <= j < |s| && j != index ==> r[j] == s[j]
  {
    s[index := item]
  }

  /** "Drag to index": take the element at `from` out and insert it at `to`
      in what remains. The moved element lands at `to`, the result is a
      permutation of `s`, and the other elements keep their relative order. */
  function MoveItem<T>(s: seq<T>, from: nat, to: nat): (r: seq<T>)
    requires from < |s| && to < |s|
    ensures |r| == |s|
    ensures r[to] == s[from]
    ensures multiset(r) == multiset(s)
    ensures RemoveItemAtIndex(r, to) == RemoveItemAtIndex(s, from)
  {
    var rest := RemoveItemAtIndex(s, from);
    var r := InsertItemAtIndex(rest, s[from], to);
    RemovedMultiset(rest, s, from);
    InsertedMultiset(r, rest, s[from], to);
    assert RemoveItemAtIndex(r, to) == rest;
    r
  }

  /** Removing what was just inserted gives the sequence back. */
  lemma RemoveInserted<T>(s: seq<T>, item: T, index: nat)
    requires index <= |s|
    ensures RemoveItemAtIndex(InsertItemAtIndex(s, item, index), index) == s
  {
  }

  /** Inserting the removed element where it was gives the sequence back. */
  lemma InsertRemoved<T>(s: seq<T>, index: nat)
    requires index < |s|
    ensures InsertItemAtIndex(RemoveItemAtIndex(s, index), s[index], index) == s
  {
  }

  /** A drag from `from` to `to` is undone by a drag from `to` back to `from`,
      for every pair of valid positions, adjacent or not. */
  lemma MoveItemRoundTrip<T>(s: seq<T>, from: nat, to: nat)
    requires from < |s| && to < |s|
    ensures MoveItem(MoveItem(s, from, to), to, from) == s
  {
    var m := MoveItem(s, from, to);
    calc {
      MoveItem(m, to, from);
      InsertItemAtIndex(RemoveItemAtIndex(m, to), m[to], from);
      InsertItemAtIndex(RemoveItemAtIndex(s, from), s[from], from);
      { InsertRemoved(s, from); }
      s;
    }
  }

  /** Removing inside the middle part of a concatenation is removing from the
      whole at the shifted position. */
  lemma RemoveInConcat<T>(a: seq<T>, b: seq<T>, c: seq<T>, index: nat)
    requires index < |b|
    ensures a + RemoveItemAtIndex(b, index) + c == RemoveItemAtIndex(a + b + c, |a| + index)
  {
    var all := a + b + c;
    assert all[..|a| + index] == a + b[..index];
    assert all[|a| + index + 1..] == b[index + 1..] + c;
  }

  /** Inserting inside the middle part of a concatenation is inserting into
      the whole at the shifted position. */
  lemma InsertInConcat<T>(a: seq<T>, b: seq<T>, c: seq<T>, item: T, index: nat)
    requires index <= |b|
    ensures a + InsertItemAtIndex(b, item, index) + c == InsertItemAtIndex(a + b + c, item, |a| + index)
  {
    var all := a + b + c;
    assert all[..|a| + index] == a + b[..index];
    assert all[|a| + index..] == b[index..] + c;
  }
}
