/** Shared by every module: optional values and concatenation. */
module Basics {

  datatype Option<+T> = None | Some(value: T)

  function Concat<T>(pieces: seq<seq<T>>): seq<T> {
    if pieces == [] then [] else pieces[0] + Concat(pieces[1..])
  }

  lemma {:induction false} ConcatAppend<T>(pieces: seq<seq<T>>, last: seq<T>)
    ensures Concat(pieces + [last]) == Concat(pieces) + last
  {
    if pieces == [] {
      assert [last][1..] == [];
      assert Concat([last]) == last;
    } else {
      assert (pieces + [last])[1..] == pieces[1..] + [last];
      ConcatAppend(pieces[1..], last);
    }
  }

  lemma {:induction false} ConcatPlus<T>(a: seq<seq<T>>, b: seq<seq<T>>)
    ensures Concat(a + b) == Concat(a) + Concat(b)
  {
    if a == [] {
      assert a + b == b;
    } else {
      assert (a + b)[1..] == a[1..] + b;
      ConcatPlus(a[1..], b);
    }
  }

  lemma MultisetAround<T>(left: seq<T>, x: T, right: seq<T>)
    ensures multiset(left + ([x] + right)) == multiset(left + right) + multiset{x}
  {
  }

  /** Where the first of `a` is in a permutation of it, and what is around it. */
  lemma TakeOut<T>(a: seq<T>, b: seq<T>) returns (left: seq<T>, right: seq<T>)
    requires a != [] && multiset(a) == multiset(b)
    ensures b == left + ([a[0]] + right) && multiset(left + right) == multiset(a[1..])
  {
    var x, rest := a[0], a[1..];
    assert a == [x] + rest;
    assert x in multiset(b);
    var i :| 0 <= i < |b| && b[i] == x;
    left, right := b[..i], b[i + 1..];
    assert b == left + ([x] + right);
    MultisetAround(left, x, right);
    Cancel(multiset(left + right), multiset(rest), multiset{x});
  }

  lemma Cancel<T>(a: multiset<T>, b: multiset<T>, c: multiset<T>)
    requires a + c == b + c
    ensures a == b
  {
    forall x ensures a[x] == b[x] { assert (a + c)[x] == (b + c)[x]; }
  }

  lemma MulMono(x: int, y: int, b: int)
    requires x <= y && b >= 0
    ensures x * b <= y * b
  {
  }

  // ----- strings joined by a separator -----

  predicate Without(c: char, s: string) { forall i :: 0 <= i < |s| ==> s[i] != c }

  lemma SeparatorAt(c: char, head: string, rest: string, k: nat)
    ensures (head + [c] + rest)[|head|] == c
    ensures k < |head| ==> (head + [c] + rest)[k] == head[k]
    ensures k < |rest| ==> (head + [c] + rest)[|head| + 1 + k] == rest[k]
    ensures (head + [c] + rest)[..|head|] == head && (head + [c] + rest)[|head| + 1..] == rest
  {
  }

  /** The first separator ends the head. */
  lemma SplitAtFirst(c: char, head: string, rest: string, head': string, rest': string)
    requires Without(c, head) && Without(c, head') && head + [c] + rest == head' + [c] + rest'
    ensures head == head' && rest == rest'
  {
    SeparatorAt(c, head, rest, |head'|);
    SeparatorAt(c, head', rest', |head|);
  }

  /** The last separator begins the tail. */
  lemma SplitAtLast(c: char, front: string, last: string, front': string, last': string)
    requires Without(c, last) && Without(c, last') && front + [c] + last == front' + [c] + last'
    ensures front == front' && last == last'
  {
    SeparatorAt(c, front, last, if |front| < |front'| then |front'| - |front| - 1 else 0);
    SeparatorAt(c, front', last', if |front'| < |front| then |front| - |front'| - 1 else 0);
  }

  function CeilDiv(a: nat, b: nat): nat
    requires b > 0
  {
    (a + b - 1) / b
  }

  lemma DivIs(a: nat, b: nat, q: nat)
    requires b > 0 && q * b <= a < q * b + b
    ensures a / b == q
  {
    var r := a / b;
    assert r * b <= a < r * b + b;
    if r < q { MulMono(r + 1, q, b); }
    if r > q { MulMono(q + 1, r, b); }
  }

  /** The ceiling is the one count whose last part begins before the end and reaches it. */
  lemma CeilDivIs(a: nat, b: nat, n: nat)
    requires b > 0 && n > 0 && (n - 1) * b < a <= n * b
    ensures CeilDiv(a, b) == n
  {
    assert n * b == (n - 1) * b + b;
    DivIs(a + b - 1, b, n);
  }

  lemma CeilDivMeaning(a: nat, b: nat)
    requires b > 0
    ensures a == 0 ==> CeilDiv(a, b) == 0
    ensures a > 0 ==> CeilDiv(a, b) > 0 && (CeilDiv(a, b) - 1) * b < a <= CeilDiv(a, b) * b
  {
    var n := CeilDiv(a, b);
    assert a + b - 1 == n * b + (a + b - 1) % b;
    if a == 0 { DivIs(b - 1, b, 0); } else { assert (n - 1) * b == n * b - b; }
  }
}
