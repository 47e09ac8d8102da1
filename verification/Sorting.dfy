/** Keeping a list sorted and free of duplicates, under any strict total order. */
module Sorting {
  import opened Wrappers

  ghost predicate IsStrictOrder<T(!new)>(less: (T, T) -> bool) {
    && (forall x :: !less(x, x))
    && (forall x, y, z {:trigger less(x, y), less(y, z)} :: less(x, y) && less(y, z) ==> less(x, z))
    && (forall x, y {:trigger less(x, y)} {:trigger less(y, x)} :: x == y || less(x, y) || less(y, x))
  }

  ghost predicate IsTransitive<T(!new)>(less: (T, T) -> bool) {
    && (forall x :: !less(x, x))
    && (forall x, y, z {:trigger less(x, y), less(y, z)} :: less(x, y) && less(y, z) ==> less(x, z))
  }

  /** Strictly increasing, so without duplicates. */
  ghost predicate IsSorted<T>(s: seq<T>, less: (T, T) -> bool) {
    forall i, j | 0 <= i < j < |s| :: less(s[i], s[j])
  }

  /** What appending x and sorting again leaves, when s is sorted already. */
  function Insert<T(==)>(s: seq<T>, x: T, less: (T, T) -> bool): (r: seq<T>)
    ensures |r| == |s| + 1
  {
    if s == [] || less(s[|s| - 1], x) then s + [x] else Insert(s[..|s| - 1], x, less) + [s[|s| - 1]]
  }

  lemma {:induction false} InsertHolds<T(!new)>(s: seq<T>, x: T, less: (T, T) -> bool)
    ensures forall y :: y in Insert(s, x, less) <==> y == x || y in s
    ensures multiset(Insert(s, x, less)) == multiset(s) + multiset{x}
  {
    if s != [] && !less(s[|s| - 1], x) {
      var init, last := s[..|s| - 1], s[|s| - 1];
      InsertHolds(init, x, less);
      assert s == init + [last];
    }
  }

  lemma {:induction false} InsertSorts<T(!new)>(s: seq<T>, x: T, less: (T, T) -> bool)
    requires IsTransitive(less) && IsSorted(s, less)
    requires forall y | y in s :: less(x, y) || less(y, x)
    ensures IsSorted(Insert(s, x, less), less)
  {
    if s == [] {
    } else {
      var init, last := s[..|s| - 1], s[|s| - 1];
      if less(last, x) {
        forall i | 0 <= i < |s|
          ensures less(s[i], x)
        {
          assert i == |s| - 1 || less(s[i], last);
        }
      } else {
        InsertSorts(init, x, less);
        InsertHolds(init, x, less);
        forall y | y in Insert(init, x, less)
          ensures less(y, last)
        {
          assert y == x || y in init;
        }
      }
    }
  }

  function WithMember<T(==)>(s: seq<T>, x: T, less: (T, T) -> bool): seq<T> {
    if x in s then s else Insert(s, x, less)
  }

  lemma WithMemberHolds<T(!new)>(s: seq<T>, x: T, less: (T, T) -> bool)
    requires IsStrictOrder(less) && IsSorted(s, less)
    ensures IsSorted(WithMember(s, x, less), less)
    ensures forall y :: y in WithMember(s, x, less) <==> y == x || y in s
  {
    if x !in s {
      InsertSorts(s, x, less);
      InsertHolds(s, x, less);
    }
  }

  lemma HasMembers<T>(s: seq<T>)
    ensures s == [] || exists x :: x in s
  {
    assert s != [] ==> s[0] in s;
  }

  /** A list of given members can be sorted in one way only. */
  lemma {:induction false} SortedIsUnique<T(!new)>(a: seq<T>, b: seq<T>, less: (T, T) -> bool)
    requires IsTransitive(less) && IsSorted(a, less) && IsSorted(b, less)
    requires forall x :: x in a <==> x in b
    ensures a == b
  {
    if a == [] {
      HasMembers(b);
    } else if b == [] {
      HasMembers(a);
    } else {
      var m, n := |a| - 1, |b| - 1;
      LastIsLast(a, b, less);
      assert a == a[..m] + [a[m]] && b == b[..n] + [b[n]];
      InitsAgree(a[..m], b[..n], a[m], less);
      InitsAgree(b[..n], a[..m], a[m], less);
      SortedIsUnique(a[..m], b[..n], less);
    }
  }

  lemma InitsAgree<T(!new)>(a: seq<T>, b: seq<T>, last: T, less: (T, T) -> bool)
    requires IsTransitive(less) && IsSorted(a + [last], less)
    requires forall x | x in a + [last] :: x in b + [last]
    ensures forall x | x in a :: x in b
  {
    forall x | x in a
      ensures x in b
    {
      var i :| 0 <= i < |a| && a[i] == x;
      assert (a + [last])[i] == x && (a + [last])[|a|] == last;
      assert less(x, last) && x in a + [last];
    }
  }

  lemma EarlierIsLess<T(!new)>(s: seq<T>, x: T, less: (T, T) -> bool)
    requires IsSorted(s, less) && x in s && x != s[|s| - 1]
    ensures less(x, s[|s| - 1])
  {
  }

  lemma LastIsLast<T(!new)>(a: seq<T>, b: seq<T>, less: (T, T) -> bool)
    requires IsTransitive(less) && IsSorted(a, less) && IsSorted(b, less)
    requires a != [] && b != [] && forall x :: x in a <==> x in b
    ensures a[|a| - 1] == b[|b| - 1]
  {
    var x, y := a[|a| - 1], b[|b| - 1];
    assert x in a && y in b;
    if x != y {
      EarlierIsLess(a, y, less);
      EarlierIsLess(b, x, less);
    }
  }

  // ----- Orders -----

  predicate IntLess(x: int, y: int) { x < y }

  lemma IntsAreOrdered()
    ensures IsStrictOrder(IntLess)
  {
  }

  /** Text in byte order. */
  predicate TextLess(a: string, b: string) {
    if b == "" then false
    else if a == "" then true
    else a[0] < b[0] || (a[0] == b[0] && TextLess(a[1..], b[1..]))
  }

  predicate NameLess(a: Name, b: Name) { TextLess(a.text, b.text) }

  /** The two agree up to n, and there the first one ends or has the lesser character. */
  predicate ComesFirst(a: string, b: string, n: nat) {
    n <= |a| && n < |b| && a[..n] == b[..n] && (n == |a| || a[n] < b[n])
  }

  lemma {:induction false} LessIsFirst(a: string, b: string)
    requires TextLess(a, b)
    ensures exists n: nat :: ComesFirst(a, b, n)
  {
    if a == "" || a[0] != b[0] {
      assert ComesFirst(a, b, 0);
    } else {
      LessIsFirst(a[1..], b[1..]);
      var n: nat :| ComesFirst(a[1..], b[1..], n);
      assert a[..n + 1] == [a[0]] + a[1..][..n] && b[..n + 1] == [b[0]] + b[1..][..n];
      assert ComesFirst(a, b, n + 1);
    }
  }

  lemma {:induction false} FirstIsLess(a: string, b: string, n: nat)
    requires ComesFirst(a, b, n)
    ensures TextLess(a, b)
  {
    if n > 0 {
      assert a[0] == a[..n][0] == b[..n][0] == b[0];
      assert a[1..][..n - 1] == a[..n][1..] && b[1..][..n - 1] == b[..n][1..];
      FirstIsLess(a[1..], b[1..], n - 1);
    }
  }

  /** Byte order goes by the first place where two texts differ. */
  lemma TextOrder(a: string, b: string)
    ensures TextLess(a, b) <==> exists n: nat :: ComesFirst(a, b, n)
  {
    if TextLess(a, b) {
      LessIsFirst(a, b);
    } else if exists n: nat :: ComesFirst(a, b, n) {
      var n: nat :| ComesFirst(a, b, n);
      FirstIsLess(a, b, n);
    }
  }

  lemma {:induction false} TextIsIrreflexive(a: string)
    ensures !TextLess(a, a)
  {
    if a != "" {
      TextIsIrreflexive(a[1..]);
    }
  }

  lemma {:induction false} TextIsTransitive(a: string, b: string, c: string)
    requires TextLess(a, b) && TextLess(b, c)
    ensures TextLess(a, c)
  {
    if a != "" && a[0] == b[0] == c[0] {
      TextIsTransitive(a[1..], b[1..], c[1..]);
    }
  }

  lemma {:induction false} TextIsTotal(a: string, b: string)
    ensures a == b || TextLess(a, b) || TextLess(b, a)
  {
    if a != "" && b != "" && a[0] == b[0] {
      TextIsTotal(a[1..], b[1..]);
      assert a == [a[0]] + a[1..] && b == [b[0]] + b[1..];
    }
  }

  lemma NamesAreOrdered()
    ensures IsStrictOrder(NameLess)
  {
    forall x: Name
      ensures !NameLess(x, x)
    {
      TextIsIrreflexive(x.text);
    }
    forall x: Name, y: Name, z: Name | NameLess(x, y) && NameLess(y, z)
      ensures NameLess(x, z)
    {
      TextIsTransitive(x.text, y.text, z.text);
    }
    forall x: Name, y: Name
      ensures x == y || NameLess(x, y) || NameLess(y, x)
    {
      TextIsTotal(x.text, y.text);
    }
  }
}
