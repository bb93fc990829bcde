/** Sequences as enumerations of sets: the order in which a Go map, a Python set or a
    daemon's listing happens to be visited. */
module Collections {

  function Last<T>(s: seq<T>): T
    requires |s| > 0
  {
    s[|s| - 1]
  }

  /** `order` enumerates `elements`: each element once, in some order. */
  ghost predicate Enumerates<T>(order: seq<T>, elements: set<T>) {
    && (forall i, j :: 0 <= i < j < |order| ==> order[i] != order[j])
    && (forall x :: x in order ==> x in elements)
    && (forall x :: x in elements ==> x in order)
  }

  predicate NoDuplicates<T(==)>(s: seq<T>) {
    forall i, j :: 0 <= i < j < |s| ==> s[i] != s[j]
  }

  lemma PositionOf<T>(order: seq<T>, elements: set<T>, x: T) returns (k: nat)
    requires Enumerates(order, elements) && x in elements
    ensures k < |order| && order[k] == x
  {
    assert x in order;
    k :| 0 <= k < |order| && order[k] == x;
  }

  /** One more element is taken from those still `pending`. */
  lemma EnumeratesStep<T>(order: seq<T>, elements: set<T>, pending: set<T>, x: T)
    requires Enumerates(order, elements - pending) && x in pending && pending <= elements
    ensures Enumerates(order + [x], elements - (pending - {x}))
    ensures NoDuplicates(order + [x]) && forall y :: y in order + [x] ==> y in elements
  {
  }

  lemma AppendAssociative<T>(a: seq<T>, b: seq<T>, c: seq<T>)
    ensures (a + b) + c == a + (b + c)
  {
  }

  /** Equal sums with the same left part have the same right part. */
  lemma AppendCancel<T>(a: seq<T>, b: seq<T>, c: seq<T>)
    requires a + b == a + c
    ensures b == c
  {
    assert b == (a + b)[|a|..] == (a + c)[|a|..] == c;
  }

  lemma PrefixStep<T>(s: seq<T>, i: nat)
    requires i < |s|
    ensures s[..i + 1] == s[..i] + [s[i]]
  {
  }

  /** Some element of a set, with nothing known about which: one step of an iteration
      whose order the language leaves open. */
  method AnyOf<T>(s: set<T>) returns (x: T)
    requires s != {}
    ensures x in s
  {
    assert (forall y :: y in s ==> y in {}) ==> s == {};
    x :| x in s;
  }

  lemma {:induction false} EnumerationLength<T>(order: seq<T>, elements: set<T>)
    requires Enumerates(order, elements)
    ensures |order| == |elements|
  {
    if |order| > 0 {
      var front, x := order[..|order| - 1], Last(order);
      assert order == front + [x];
      EnumerationLength(front, elements - {x});
      assert elements == (elements - {x}) + {x};
    } else {
      assert elements == {};
    }
  }

  /** `[f(x) for x in s]`, built by appending. */
  function Mapped<T, U>(f: T -> U, s: seq<T>): seq<U> {
    if s == [] then [] else Mapped(f, s[..|s| - 1]) + [f(Last(s))]
  }

  lemma {:induction false} MappedAt<T, U>(f: T -> U, s: seq<T>)
    ensures |Mapped(f, s)| == |s| && forall i :: 0 <= i < |s| ==> Mapped(f, s)[i] == f(s[i])
  {
    if s != [] {
      MappedAt(f, s[..|s| - 1]);
    }
  }

  lemma {:induction false} MappedConcat<T, U>(f: T -> U, s: seq<T>, t: seq<T>)
    ensures Mapped(f, s + t) == Mapped(f, s) + Mapped(f, t)
  {
    if t == [] {
      assert s + t == s;
    } else {
      var front := t[..|t| - 1];
      MappedConcat(f, s, front);
      assert (s + t)[..|s + t| - 1] == s + front && Last(s + t) == Last(t);
      AppendAssociative(Mapped(f, s), Mapped(f, front), [f(Last(t))]);
    }
  }

  function Without<T>(s: seq<T>, i: nat): seq<T>
    requires i < |s|
  {
    s[..i] + s[i + 1..]
  }

  lemma MultisetWithout<T>(s: seq<T>, i: nat)
    requires i < |s|
    ensures multiset(Without(s, i)) == multiset(s) - multiset{s[i]}
  {
    assert s == s[..i] + [s[i]] + s[i + 1..];
    assert multiset(s) == multiset(s[..i]) + multiset{s[i]} + multiset(s[i + 1..]);
  }

  lemma SamePosition<T>(s: seq<T>, t: seq<T>) returns (i: nat)
    requires s != [] && multiset(s) == multiset(t)
    ensures i < |t| && t[i] == s[0]
    ensures multiset(Without(s, 0)) == multiset(Without(t, i))
  {
    assert s[0] in multiset(t);
    i :| 0 <= i < |t| && t[i] == s[0];
    MultisetWithout(s, 0);
    MultisetWithout(t, i);
  }
}
