/** Queries the durable store answers over its collections: `find(filter)` keeps
    the matching records in natural order, `deleteOne(filter)` removes the first
    match, and the property collection is listed in natural order, taken here to be the
    order of insertion. */
module Collections {
  import opened Models

  /** The records of `s` that satisfy `keep`, in their stored order. */
  function Filter<T(!new)>(s: seq<T>, keep: T -> bool): (r: seq<T>)
    ensures |r| <= |s|
    ensures forall x :: x in r <==> x in s && keep(x)
  {
    if s == [] then [] else (if keep(s[0]) then [s[0]] else []) + Filter(s[1..], keep)
  }

  /** Appending a record extends the filtered view by that record exactly when it is kept. */
  lemma {:induction false} FilterAppend<T(!new)>(s: seq<T>, x: T, keep: T -> bool)
    ensures Filter(s + [x], keep) == Filter(s, keep) + (if keep(x) then [x] else [])
  {
    if s == [] {
      assert s + [x] == [x];
    } else {
      assert (s + [x])[1..] == s[1..] + [x];
      FilterAppend(s[1..], x, keep);
    }
  }

  /** The position of the first occurrence of `x` in `s`. */
  function IndexOf<T(==)>(s: seq<T>, x: T): (i: nat)
    requires x in s
    ensures i < |s| && s[i] == x && x !in s[..i]
  {
    if s[0] == x then 0 else
      var j := IndexOf(s[1..], x);
      assert s[..j + 1] == [s[0]] + s[1..][..j];
      j + 1
  }

  /** `deleteOne`: removes the first record equal to `x`, if any. */
  function RemoveFirst<T(==)>(s: seq<T>, x: T): (r: seq<T>)
    ensures x !in s ==> r == s
  {
    if s == [] then []
    else if s[0] == x then s[1..]
    else [s[0]] + RemoveFirst(s[1..], x)
  }

  /** Only the first match goes; the records before and after it stay, in order. */
  lemma {:induction false} RemoveFirstSplit<T>(s: seq<T>, x: T)
    requires x in s
    ensures RemoveFirst(s, x) == s[..IndexOf(s, x)] + s[IndexOf(s, x) + 1..]
  {
    if s[0] != x {
      RemoveFirstSplit(s[1..], x);
      var j := IndexOf(s[1..], x);
      assert IndexOf(s, x) == j + 1;
      assert s[..j + 1] == [s[0]] + s[1..][..j];
      assert s[j + 2..] == s[1..][j + 1..];
    }
  }

  /** At most one copy of `x` is removed; every other record, duplicates included, is kept. */
  lemma RemoveFirstMultiset<T>(s: seq<T>, x: T)
    ensures multiset(RemoveFirst(s, x)) == multiset(s) - multiset{x}
    ensures x in s ==> |RemoveFirst(s, x)| == |s| - 1
  {
    if x in s {
      RemoveFirstPresent(s, x);
    } else {
      assert multiset(s)[x] == 0;
    }
  }

  lemma RemoveFirstPresent<T>(s: seq<T>, x: T)
    requires x in s
    ensures multiset(RemoveFirst(s, x)) == multiset(s) - multiset{x}
    ensures |RemoveFirst(s, x)| == |s| - 1
  {
    RemoveFirstSplit(s, x);
    var i := IndexOf(s, x);
    var before, after := s[..i], s[i + 1..];
    assert s == before + ([x] + after);
    var m := multiset(before) + multiset(after);
    assert multiset(s) == m + multiset{x};
  }

  /** Removing a record that a filter drops leaves that filter's view unchanged. */
  lemma {:induction false} FilterRemoveFirst<T(!new)>(s: seq<T>, x: T, keep: T -> bool)
    requires !keep(x)
    ensures Filter(RemoveFirst(s, x), keep) == Filter(s, keep)
  {
    if s != [] && s[0] != x {
      FilterRemoveFirst(s[1..], x, keep);
      assert ([s[0]] + RemoveFirst(s[1..], x))[1..] == RemoveFirst(s[1..], x);
    }
  }

  predicate NoDup<T(==)>(s: seq<T>) {
    forall i, j :: 0 <= i < j < |s| ==> s[i] != s[j]
  }

  /** The natural order of the property collection without `id`. */
  function RemoveId(order: seq<Id>, id: Id): (r: seq<Id>)
    ensures forall x :: x in r <==> x in order && x != id
    ensures NoDup(order) ==> NoDup(r)
    ensures NoDup(order) && id in order ==> |r| == |order| - 1
    ensures id !in order ==> r == order
  {
    if order == [] then []
    else
      var rest := RemoveId(order[1..], id);
      assert NoDup(order) ==> NoDup(order[1..]) && order[0] !in order[1..];
      if order[0] == id then rest else [order[0]] + rest
  }

  /** The ids that remain after a delete keep their natural order: removing `id` is
      filtering it out. */
  lemma {:induction false} RemoveIdKeepsOrder(order: seq<Id>, id: Id)
    ensures RemoveId(order, id) == Filter(order, (x: Id) => x != id)
  {
    if order != [] {
      RemoveIdKeepsOrder(order[1..], id);
    }
  }

  /** The stored properties in natural order: what `Property.find()` returns. */
  function Listing(properties: map<Id, Property>, order: seq<Id>): (r: seq<Property>)
    requires forall x :: x in order ==> x in properties
    ensures |r| == |order|
    ensures forall i :: 0 <= i < |order| ==> r[i] == properties[order[i]]
    ensures forall x :: x in order ==> properties[x] in r
  {
    var r := seq(|order|, i requires 0 <= i < |order| => properties[order[i]]);
    assert forall x :: x in order ==> properties[x] in r by {
      forall x | x in order
        ensures properties[x] in r
      {
        var i :| 0 <= i < |order| && order[i] == x;
        assert r[i] == properties[x];
      }
    }
    r
  }
}
