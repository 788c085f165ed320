/** JavaScript's stable `Array.prototype.sort`, by an order given as a "comes before" function. */
module StableSort {

  type Order<!T> = (T, T) -> bool

  /** What a comparison function has to be for a sort to make sense. */
  ghost predicate StrictWeak<T(!new)>(before: Order<T>) {
    && (forall a, b :: before(a, b) ==> !before(b, a))
    && (forall a, b, c :: before(a, c) ==> before(a, b) || before(b, c))
  }

  function Insert<T>(before: Order<T>, x: T, sorted: seq<T>): seq<T> {
    if sorted == [] then [x]
    else if before(sorted[0], x) then [sorted[0]] + Insert(before, x, sorted[1..])
    else [x] + sorted
  }

  function Sort<T>(before: Order<T>, items: seq<T>): seq<T> {
    if items == [] then [] else Insert(before, items[0], Sort(before, items[1..]))
  }

  ghost predicate Sorted<T>(before: Order<T>, items: seq<T>) {
    forall i, j :: 0 <= i < j < |items| ==> !before(items[j], items[i])
  }

  function Filter<T>(items: seq<T>, keep: T -> bool): seq<T> {
    if items == [] then [] else (if keep(items[0]) then [items[0]] else []) + Filter(items[1..], keep)
  }

  lemma {:induction false} FilterMeaning<T>(items: seq<T>, keep: T -> bool)
    ensures forall x :: x in Filter(items, keep) <==> x in items && keep(x)
  {
    if items != [] { FilterMeaning(items[1..], keep); }
  }

  lemma SortedCons<T(!new)>(before: Order<T>, x: T, sorted: seq<T>)
    requires StrictWeak(before) && Sorted(before, sorted) && (sorted == [] || !before(sorted[0], x))
    ensures Sorted(before, [x] + sorted)
  {
    forall j | 0 <= j < |sorted| ensures !before(sorted[j], x) {
      assert j > 0 ==> !before(sorted[j], sorted[0]);
    }
  }

  lemma {:induction false} InsertSorts<T(!new)>(before: Order<T>, x: T, sorted: seq<T>)
    requires StrictWeak(before) && Sorted(before, sorted)
    ensures Sorted(before, Insert(before, x, sorted)) && Insert(before, x, sorted) != []
    ensures Insert(before, x, sorted)[0] == x || (sorted != [] && Insert(before, x, sorted)[0] == sorted[0])
  {
    if sorted != [] && before(sorted[0], x) {
      InsertSorts(before, x, sorted[1..]);
      SortedCons(before, sorted[0], Insert(before, x, sorted[1..]));
    } else {
      SortedCons(before, x, sorted);
    }
  }

  lemma {:induction false} InsertAdds<T>(before: Order<T>, x: T, sorted: seq<T>)
    ensures multiset(Insert(before, x, sorted)) == multiset(sorted) + multiset{x}
  {
    if sorted != [] && before(sorted[0], x) {
      InsertAdds(before, x, sorted[1..]);
      assert sorted == [sorted[0]] + sorted[1..];
    }
  }

  /** A sorted permutation. */
  lemma {:induction false} SortMeaning<T(!new)>(before: Order<T>, items: seq<T>)
    requires StrictWeak(before)
    ensures multiset(Sort(before, items)) == multiset(items) && Sorted(before, Sort(before, items))
  {
    if items != [] {
      SortMeaning(before, items[1..]);
      InsertAdds(before, items[0], Sort(before, items[1..]));
      InsertSorts(before, items[0], Sort(before, items[1..]));
      assert items == [items[0]] + items[1..];
    }
  }

  lemma SortKeeps<T(!new)>(before: Order<T>, items: seq<T>, x: T)
    requires StrictWeak(before)
    ensures x in Sort(before, items) <==> x in items
    ensures |Sort(before, items)| == |items|
  {
    SortMeaning(before, items);
    assert x in Sort(before, items) <==> x in multiset(Sort(before, items));
    assert |multiset(Sort(before, items))| == |multiset(items)|;
  }

  /** Neither comes before the other. */
  function Ties<T>(before: Order<T>, x: T): T -> bool { (y: T) => !before(x, y) && !before(y, x) }

  lemma {:induction false} InsertIsStable<T(!new)>(before: Order<T>, x: T, sorted: seq<T>, like: T)
    requires StrictWeak(before)
    ensures Filter(Insert(before, x, sorted), Ties(before, like)) ==
      (if Ties(before, like)(x) then [x] else []) + Filter(sorted, Ties(before, like))
  {
    if sorted != [] && before(sorted[0], x) {
      InsertIsStable(before, x, sorted[1..], like);
      assert Insert(before, x, sorted)[1..] == Insert(before, x, sorted[1..]);
      if Ties(before, like)(x) { assert !Ties(before, like)(sorted[0]); }
    } else {
      assert ([x] + sorted)[1..] == sorted;
    }
  }

  /** Items that tie keep their order. */
  lemma {:induction false} SortIsStable<T(!new)>(before: Order<T>, items: seq<T>, like: T)
    requires StrictWeak(before)
    ensures Filter(Sort(before, items), Ties(before, like)) == Filter(items, Ties(before, like))
  {
    if items != [] {
      SortIsStable(before, items[1..], like);
      InsertIsStable(before, items[0], Sort(before, items[1..]), like);
    }
  }

  lemma SameTails<T>(a: seq<T>, b: seq<T>)
    requires a != [] && b != [] && a[0] == b[0] && multiset(a) == multiset(b)
    ensures multiset(a[1..]) == multiset(b[1..])
  {
    assert a == [a[0]] + a[1..] && b == [b[0]] + b[1..];
    assert multiset(a) == multiset{a[0]} + multiset(a[1..]) && multiset(b) == multiset{b[0]} + multiset(b[1..]);
    assert multiset(a[1..]) == multiset(a) - multiset{a[0]};
  }

  /** Of sequences in which no two items tie, only one order is sorted. */
  lemma {:induction false} SortedUnique<T(!new)>(before: Order<T>, a: seq<T>, b: seq<T>)
    requires StrictWeak(before) && Sorted(before, a) && multiset(a) == multiset(b)
    requires forall i, j :: 0 <= i < j < |b| ==> before(b[i], b[j])
    ensures a == b
    decreases |b|
  {
    assert |multiset(a)| == |a| && |multiset(b)| == |b|;
    if b != [] {
      SameHead(before, a, b);
      SameTails(a, b);
      SortedUnique(before, a[1..], b[1..]);
    }
  }

  lemma SameHead<T(!new)>(before: Order<T>, a: seq<T>, b: seq<T>)
    requires StrictWeak(before) && Sorted(before, a) && multiset(a) == multiset(b) && a != [] && b != []
    requires forall i, j :: 0 <= i < j < |b| ==> before(b[i], b[j])
    ensures a[0] == b[0]
  {
    assert a[0] in multiset(b) && b[0] in multiset(a);
    var i :| 0 <= i < |b| && b[i] == a[0];
    var j :| 0 <= j < |a| && a[j] == b[0];
    assert j > 0 ==> !before(a[j], a[0]);
    assert i > 0 ==> before(b[0], b[i]);
  }
}
