/** A stable sort under a Java-style comparator (`List.sort` with a lambda
    returning a negative number, zero or a positive number). The JDK's sort is
    a stable merge sort; its result is the same as that of the insertion sort
    below, which is what the lemmas establish: sorted, a permutation, and
    equal elements kept in input order. */
module StableSort {

  /** `cmp(a, b) < 0` exactly when `cmp(b, a) > 0`, as the contract of
      `Comparator.compare` demands. */
  ghost predicate SignAntisymmetric<T(!new)>(cmp: (T, T) -> int)
  {
    forall a: T, b: T :: cmp(a, b) < 0 <==> cmp(b, a) > 0
  }

  /** "Goes no later than" is transitive. */
  ghost predicate LeqTransitive<T(!new)>(cmp: (T, T) -> int)
  {
    forall a: T, b: T, c: T :: cmp(a, b) <= 0 && cmp(b, c) <= 0 ==> cmp(a, c) <= 0
  }

  ghost predicate IsComparator<T(!new)>(cmp: (T, T) -> int)
  {
    SignAntisymmetric(cmp) && LeqTransitive(cmp)
  }

  predicate Sorted<T>(cmp: (T, T) -> int, s: seq<T>)
  {
    forall i, j :: 0 <= i < j < |s| ==> cmp(s[i], s[j]) <= 0
  }

  /** Places `x` in front of the first element that does not compare below it. */
  function Insert<T>(cmp: (T, T) -> int, x: T, s: seq<T>): seq<T>
  {
    if s == [] then [x]
    else if cmp(s[0], x) < 0 then [s[0]] + Insert(cmp, x, s[1..])
    else [x] + s
  }

  function Sort<T>(cmp: (T, T) -> int, s: seq<T>): seq<T>
  {
    if s == [] then [] else Insert(cmp, s[0], Sort(cmp, s[1..]))
  }

  /** The elements of `s` that compare equal to `y`, in order. */
  function Same<T>(cmp: (T, T) -> int, y: T, s: seq<T>): seq<T>
  {
    if s == [] then []
    else (if cmp(s[0], y) == 0 then [s[0]] else []) + Same(cmp, y, s[1..])
  }

  lemma {:induction false} SameCons<T>(cmp: (T, T) -> int, y: T, x: T, s: seq<T>)
    ensures Same(cmp, y, [x] + s) == (if cmp(x, y) == 0 then [x] else []) + Same(cmp, y, s)
  {
    assert ([x] + s)[0] == x;
    assert ([x] + s)[1..] == s;
  }

  lemma {:induction false} InsertPermutes<T>(cmp: (T, T) -> int, x: T, s: seq<T>)
    ensures multiset(Insert(cmp, x, s)) == multiset(s) + multiset{x}
  {
    if s != [] && cmp(s[0], x) < 0 {
      InsertPermutes(cmp, x, s[1..]);
      assert s == [s[0]] + s[1..];
    }
  }

  lemma {:induction false} InsertSorted<T(!new)>(cmp: (T, T) -> int, x: T, s: seq<T>)
    requires IsComparator(cmp)
    requires Sorted(cmp, s)
    ensures Sorted(cmp, Insert(cmp, x, s))
  {
    if s == [] {
    } else if cmp(s[0], x) < 0 {
      var rest := Insert(cmp, x, s[1..]);
      InsertSorted(cmp, x, s[1..]);
      InsertPermutes(cmp, x, s[1..]);
      forall j | 0 <= j < |rest|
        ensures cmp(s[0], rest[j]) <= 0
      {
        assert rest[j] in multiset(rest);
        assert rest[j] == x || rest[j] in multiset(s[1..]);
        if rest[j] != x {
          assert rest[j] in s[1..];
        }
      }
    } else {
      assert cmp(x, s[0]) <= 0;
    }
  }

  /** The sort orders its input. */
  lemma {:induction false} SortSorted<T(!new)>(cmp: (T, T) -> int, s: seq<T>)
    requires IsComparator(cmp)
    ensures Sorted(cmp, Sort(cmp, s))
  {
    if s != [] {
      SortSorted(cmp, s[1..]);
      InsertSorted(cmp, s[0], Sort(cmp, s[1..]));
    }
  }

  /** The sort neither loses nor adds elements. */
  lemma {:induction false} SortPermutes<T>(cmp: (T, T) -> int, s: seq<T>)
    ensures multiset(Sort(cmp, s)) == multiset(s)
  {
    if s != [] {
      SortPermutes(cmp, s[1..]);
      InsertPermutes(cmp, s[0], Sort(cmp, s[1..]));
      assert s == [s[0]] + s[1..];
    }
  }

  /** An element strictly below `x` cannot be equivalent to an element that
      `x` is equivalent to. */
  lemma NotBothEquivalent<T(!new)>(cmp: (T, T) -> int, x: T, z: T, y: T)
    requires IsComparator(cmp)
    requires cmp(z, x) < 0
    ensures !(cmp(x, y) == 0 && cmp(z, y) == 0)
  {
  }

  lemma {:induction false} InsertStable<T(!new)>(cmp: (T, T) -> int, y: T, x: T, s: seq<T>)
    requires IsComparator(cmp)
    ensures Same(cmp, y, Insert(cmp, x, s)) == Same(cmp, y, [x] + s)
  {
    if s != [] && cmp(s[0], x) < 0 {
      var z, t := s[0], s[1..];
      assert s == [z] + t;
      var ex := if cmp(x, y) == 0 then [x] else [];
      var ez := if cmp(z, y) == 0 then [z] else [];
      NotBothEquivalent(cmp, x, z, y);
      calc {
        Same(cmp, y, Insert(cmp, x, s));
        Same(cmp, y, [z] + Insert(cmp, x, t));
        { SameCons(cmp, y, z, Insert(cmp, x, t)); }
        ez + Same(cmp, y, Insert(cmp, x, t));
        { InsertStable(cmp, y, x, t); }
        ez + Same(cmp, y, [x] + t);
        { SameCons(cmp, y, x, t); }
        ez + (ex + Same(cmp, y, t));
        { assert ez == [] || ex == []; }
        ex + (ez + Same(cmp, y, t));
        { SameCons(cmp, y, z, t); }
        ex + Same(cmp, y, s);
        { SameCons(cmp, y, x, s); }
        Same(cmp, y, [x] + s);
      }
    }
  }

  /** Elements that compare equal keep their input order. */
  lemma {:induction false} SortStable<T(!new)>(cmp: (T, T) -> int, y: T, s: seq<T>)
    requires IsComparator(cmp)
    ensures Same(cmp, y, Sort(cmp, s)) == Same(cmp, y, s)
  {
    if s != [] {
      SortStable(cmp, y, s[1..]);
      InsertStable(cmp, y, s[0], Sort(cmp, s[1..]));
      SameCons(cmp, y, s[0], Sort(cmp, s[1..]));
      SameCons(cmp, y, s[0], s[1..]);
      assert s == [s[0]] + s[1..];
    }
  }
}
