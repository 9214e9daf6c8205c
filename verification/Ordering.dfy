// The (timestamp, id) order by which the backend sorts messages and events,
// and Python's stable sort by such a key.
module Ordering {
  import opened Text

  datatype Stamp = Stamp(at: int, ref: string)

  predicate Before(a: Stamp, b: Stamp) {
    a.at < b.at || (a.at == b.at && Less(a.ref, b.ref))
  }

  lemma BeforeTotal(a: Stamp, b: Stamp)
    ensures Before(a, b) || Before(b, a) || a == b
    ensures !(Before(a, b) && Before(b, a))
    ensures a == b ==> !Before(a, b)
  {
    LessTotal(a.ref, b.ref);
  }

  // a < b <= c and a <= b < c both give a < c.
  lemma BeforeTransitive(a: Stamp, b: Stamp, c: Stamp)
    requires Before(a, b) || a == b
    requires Before(b, c) || b == c
    ensures Before(a, c) || a == c
    ensures Before(a, b) || Before(b, c) ==> Before(a, c)
  {
    if a.at == b.at == c.at && Less(a.ref, b.ref) && Less(b.ref, c.ref) {
      LessTransitive(a.ref, b.ref, c.ref);
    }
  }

  // sorted(s, key=key): every element after the ones it does not precede.
  function Sort<T(!new)>(key: T -> Stamp, s: seq<T>): (r: seq<T>)
    ensures |r| == |s|
    ensures forall x :: x in r <==> x in s
  {
    if s == [] then []
    else
      assert s == s[..|s| - 1] + [s[|s| - 1]];
      Insert(key, Sort(key, s[..|s| - 1]), s[|s| - 1])
  }

  function Insert<T(!new)>(key: T -> Stamp, s: seq<T>, x: T): (r: seq<T>)
    ensures |r| == |s| + 1
    ensures forall y :: y in r <==> y in s || y == x
  {
    if s != [] && Before(key(x), key(s[|s| - 1])) then
      assert s == s[..|s| - 1] + [s[|s| - 1]];
      Insert(key, s[..|s| - 1], x) + [s[|s| - 1]]
    else
      s + [x]
  }

  // Only an element that is before all others becomes the first.
  lemma {:induction false} InsertFirst<T(!new)>(key: T -> Stamp, s: seq<T>, x: T)
    requires s != [] && Sorted(key, s)
    ensures Insert(key, s, x)[0] == if Before(key(x), key(s[0])) then x else s[0]
  {
    hide Before;
    var last := s[|s| - 1];
    if Before(key(x), key(last)) {
      if |s| > 1 {
        InsertFirst(key, s[..|s| - 1], x);
      } else {
        assert Insert(key, s[..0], x) == [x];
      }
    } else if Before(key(x), key(s[0])) {
      BeforeTotal(key(s[0]), key(last));
      BeforeTotal(key(x), key(last));
      BeforeTransitive(key(x), key(s[0]), key(last));
    }
  }

  lemma {:induction false} InsertPermutes<T(!new)>(key: T -> Stamp, s: seq<T>, x: T)
    ensures multiset(Insert(key, s, x)) == multiset(s) + multiset{x}
  {
    if s != [] && Before(key(x), key(s[|s| - 1])) {
      InsertPermutes(key, s[..|s| - 1], x);
      assert s == s[..|s| - 1] + [s[|s| - 1]];
    }
  }

  lemma SortNext<T(!new)>(key: T -> Stamp, front: seq<T>, last: T)
    ensures Sort(key, front + [last]) == Insert(key, Sort(key, front), last)
  {
    assert (front + [last])[..|front|] == front;
  }

  lemma {:induction false} SortPermutes<T(!new)>(key: T -> Stamp, s: seq<T>)
    ensures multiset(Sort(key, s)) == multiset(s)
  {
    if s == [] {
      assert Sort(key, s) == [];
    } else {
      hide Sort, Insert, Before;
      var front, last := s[..|s| - 1], s[|s| - 1];
      assert s == front + [last];
      SortPermutes(key, front);
      SortNext(key, front, last);
      InsertPermutes(key, Sort(key, front), last);
    }
  }

  ghost predicate Sorted<T(!new)>(key: T -> Stamp, s: seq<T>) {
    forall i, j :: 0 <= i < j < |s| ==> !Before(key(s[j]), key(s[i]))
  }

  ghost predicate StrictlySorted<T(!new)>(key: T -> Stamp, s: seq<T>) {
    forall i, j :: 0 <= i < j < |s| ==> Before(key(s[i]), key(s[j]))
  }

  lemma {:induction false} InsertSorted<T(!new)>(key: T -> Stamp, s: seq<T>, x: T)
    requires Sorted(key, s)
    ensures Sorted(key, Insert(key, s, x))
  {
    if s != [] {
      var last := s[|s| - 1];
      if Before(key(x), key(last)) {
        var front := s[..|s| - 1];
        InsertSorted(key, front, x);
        var r := Insert(key, front, x);
        forall i | 0 <= i < |r|
          ensures !Before(key(last), key(r[i]))
        {
          assert r[i] in r;
          BeforeTotal(key(x), key(last));
          if r[i] != x {
            assert r[i] in front;
          }
        }
      } else {
        forall i | 0 <= i < |s|
          ensures !Before(key(x), key(s[i]))
        {
          if Before(key(x), key(s[i])) {
            BeforeTotal(key(s[i]), key(last));
            BeforeTotal(key(x), key(last));
            BeforeTransitive(key(x), key(s[i]), key(last));
          }
        }
      }
    }
  }

  lemma {:induction false} SortSorted<T(!new)>(key: T -> Stamp, s: seq<T>)
    ensures Sorted(key, Sort(key, s))
  {
    if s != [] {
      SortSorted(key, s[..|s| - 1]);
      InsertSorted(key, Sort(key, s[..|s| - 1]), s[|s| - 1]);
    }
  }

  ghost predicate DistinctStamps<T(!new)>(key: T -> Stamp, s: seq<T>) {
    forall x, y :: x in s && y in s && key(x) == key(y) ==> x == y
  }

  lemma SortedLeast<T(!new)>(key: T -> Stamp, a: seq<T>, x: T)
    requires Sorted(key, a) && x in a
    ensures !Before(key(x), key(a[0]))
  {
    BeforeTotal(key(x), key(x));
  }

  // Two sorted arrangements of the same elements are the same list, when no
  // two elements share a stamp.
  lemma {:induction false} SortedUnique<T(!new)>(key: T -> Stamp, a: seq<T>, b: seq<T>)
    requires Sorted(key, a) && Sorted(key, b)
    requires multiset(a) == multiset(b)
    requires DistinctStamps(key, a)
    ensures a == b
  {
    assert |multiset(a)| == |a| && |multiset(b)| == |b|;
    if a != [] {
      assert b[0] in multiset(a) && a[0] in multiset(b);
      SortedLeast(key, a, b[0]);
      SortedLeast(key, b, a[0]);
      BeforeTotal(key(a[0]), key(b[0]));
      assert a[0] == b[0];
      SameRest(a, b);
      SortedUnique(key, a[1..], b[1..]);
    }
  }

  lemma SameRest<T>(a: seq<T>, b: seq<T>)
    requires a != [] && b != [] && a[0] == b[0] && multiset(a) == multiset(b)
    ensures multiset(a[1..]) == multiset(b[1..])
    ensures a[1..] == b[1..] ==> a == b
  {
    assert a == [a[0]] + a[1..] && b == [b[0]] + b[1..];
    assert multiset(a[1..]) == multiset(a) - multiset{a[0]};
    assert multiset(b[1..]) == multiset(b) - multiset{b[0]};
  }

  // The sort does not depend on the order the elements were stored in.
  lemma SortIgnoresStoredOrder<T(!new)>(key: T -> Stamp, a: seq<T>, b: seq<T>)
    requires multiset(a) == multiset(b)
    requires DistinctStamps(key, a)
    ensures Sort(key, a) == Sort(key, b)
  {
    SortSorted(key, a);
    SortSorted(key, b);
    SortPermutes(key, a);
    SortPermutes(key, b);
    assert forall x :: x in a <==> x in Sort(key, a);
    SortedUnique(key, Sort(key, a), Sort(key, b));
  }
}
