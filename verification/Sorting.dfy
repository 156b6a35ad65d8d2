/**
 Sorting as a contract.  `sort.Strings` and `sort.Slice` are library code; what the
 repository relies on is that the result is ordered and holds the same elements, and
 that for a total order this leaves only one possible list.
 */
module Sorting {
  ghost predicate Total<T(!new)>(le: (T, T) -> bool) {
    forall x, y :: le(x, y) || le(y, x)
  }

  ghost predicate Transitive<T(!new)>(le: (T, T) -> bool) {
    forall x, y, z :: le(x, y) && le(y, z) ==> le(x, z)
  }

  /** Among the elements of `s` the order leaves no ties. */
  ghost predicate AntiSymmetricOn<T(!new)>(le: (T, T) -> bool, s: seq<T>) {
    forall x, y | x in s && y in s :: le(x, y) && le(y, x) ==> x == y
  }

  ghost predicate Sorted<T(!new)>(le: (T, T) -> bool, s: seq<T>) {
    forall i, j | 0 <= i < j < |s| :: le(s[i], s[j])
  }

  function Insert<T>(le: (T, T) -> bool, x: T, s: seq<T>): (r: seq<T>)
    ensures multiset(r) == multiset(s) + multiset{x}
  {
    if s == [] then [x]
    else if le(x, s[0]) then [x] + s
    else
      assert s == [s[0]] + s[1..];
      [s[0]] + Insert(le, x, s[1..])
  }

  lemma {:induction false} InsertSorted<T(!new)>(le: (T, T) -> bool, x: T, s: seq<T>)
    requires Total(le) && Transitive(le) && Sorted(le, s)
    ensures Sorted(le, Insert(le, x, s))
  {
    if s != [] {
      if le(x, s[0]) {
        forall y | y in s ensures le(x, y) {
          HeadIsLeast(le, s, y);
        }
      } else {
        InsertSorted(le, x, s[1..]);
        var r := Insert(le, x, s[1..]);
        forall y | y in r ensures le(s[0], y) {
          assert y in multiset(r);
          if y != x {
            assert y in multiset(s[1..]);
          }
        }
      }
    }
  }

  function Sort<T(!new)>(le: (T, T) -> bool, s: seq<T>): (r: seq<T>)
    requires Total(le) && Transitive(le)
    ensures Sorted(le, r) && multiset(r) == multiset(s)
  {
    if s == [] then []
    else
      assert s == [s[0]] + s[1..];
      var r := Sort(le, s[1..]);
      InsertSorted(le, s[0], r);
      Insert(le, s[0], r)
  }

  lemma HeadIsLeast<T(!new)>(le: (T, T) -> bool, a: seq<T>, x: T)
    requires Total(le) && Sorted(le, a) && x in a
    ensures le(a[0], x)
  {
    var i :| 0 <= i < |a| && a[i] == x;
    assert i == 0 ==> le(x, x);
  }

  lemma SameHead<T(!new)>(le: (T, T) -> bool, a: seq<T>, b: seq<T>)
    requires Total(le) && AntiSymmetricOn(le, a)
    requires Sorted(le, a) && Sorted(le, b) && multiset(a) == multiset(b) && a != [] && b != []
    ensures a[0] == b[0]
  {
    assert a[0] in multiset(b) && b[0] in multiset(a);
    HeadIsLeast(le, a, b[0]);
    HeadIsLeast(le, b, a[0]);
  }

  /** Under a total order, order and contents determine the list. */
  lemma {:induction false} SortedUnique<T(!new)>(le: (T, T) -> bool, a: seq<T>, b: seq<T>)
    requires Total(le) && AntiSymmetricOn(le, a)
    requires Sorted(le, a) && Sorted(le, b) && multiset(a) == multiset(b)
    ensures a == b
  {
    assert |a| == |multiset(a)| && |b| == |multiset(b)|;
    if a != [] {
      SameHead(le, a, b);
      assert a == [a[0]] + a[1..] && b == [b[0]] + b[1..];
      assert multiset(a[1..]) == multiset(a) - multiset{a[0]};
      assert multiset(b[1..]) == multiset(b) - multiset{b[0]};
      SortedUnique(le, a[1..], b[1..]);
    }
  }

  /** The order of Go strings, character by character. */
  predicate StringLe(a: string, b: string) {
    a == "" || (b != "" && (a[0] < b[0] || (a[0] == b[0] && StringLe(a[1..], b[1..]))))
  }

  /** The first place at which the strings differ holds the smaller character. */
  ghost predicate DiffersBelow(a: string, b: string, i: nat) {
    i < |a| && i < |b| && a[..i] == b[..i] && a[i] < b[i]
  }

  /** A common first character changes nothing. */
  lemma DiffersLater(a: string, b: string, i: nat)
    requires a != "" && b != "" && a[0] == b[0]
    ensures DiffersBelow(a, b, i) <==> i > 0 && DiffersBelow(a[1..], b[1..], i - 1)
  {
    if 0 < i < |a| && i < |b| {
      var x, y := a[..i], b[..i];
      assert x == [a[0]] + a[1..][..i - 1] && y == [b[0]] + b[1..][..i - 1];
      assert x[1..] == a[1..][..i - 1] && y[1..] == b[1..][..i - 1];
    }
  }

  lemma DiffersAtOnce(a: string, b: string, i: nat)
    requires a != "" && b != "" && a[0] != b[0]
    ensures DiffersBelow(a, b, i) <==> i == 0 && a[0] < b[0]
  {
    if 0 < i <= |a| && i <= |b| {
      assert a[..i][0] != b[..i][0];
    }
  }

  /** So one string is a prefix of the other or smaller where they first differ. */
  lemma {:induction false} StringLeIs(a: string, b: string)
    ensures StringLe(a, b) <==> a <= b || exists i: nat :: DiffersBelow(a, b, i)
  {
    if a != "" && b != "" {
      if a[0] == b[0] {
        StringLeIs(a[1..], b[1..]);
        forall i: nat {
          DiffersLater(a, b, i);
        }
        forall i: nat | DiffersBelow(a[1..], b[1..], i) ensures DiffersBelow(a, b, i + 1) {
          DiffersLater(a, b, i + 1);
        }
      } else {
        DiffersAtOnce(a, b, 0);
        forall i: nat {
          DiffersAtOnce(a, b, i);
        }
      }
      hide DiffersBelow;
    } else {
      assert a == "" ==> a <= b;
    }
  }

  lemma {:induction false} StringLeTotal(a: string, b: string)
    ensures StringLe(a, b) || StringLe(b, a)
  {
    if a != "" && b != "" && a[0] == b[0] {
      StringLeTotal(a[1..], b[1..]);
    }
  }

  lemma {:induction false} StringLeTransitive(a: string, b: string, c: string)
    requires StringLe(a, b) && StringLe(b, c)
    ensures StringLe(a, c)
  {
    if a != "" && a[0] == b[0] == c[0] {
      StringLeTransitive(a[1..], b[1..], c[1..]);
    }
  }

  lemma {:induction false} StringLeAntiSymmetric(a: string, b: string)
    requires StringLe(a, b) && StringLe(b, a)
    ensures a == b
  {
    if a != "" {
      StringLeAntiSymmetric(a[1..], b[1..]);
      assert a == [a[0]] + a[1..] && b == [b[0]] + b[1..];
    }
  }

  lemma StringOrder()
    ensures Total(StringLe) && Transitive(StringLe)
  {
    forall a, b ensures StringLe(a, b) || StringLe(b, a) {
      StringLeTotal(a, b);
    }
    forall a, b, c | StringLe(a, b) && StringLe(b, c) ensures StringLe(a, c) {
      StringLeTransitive(a, b, c);
    }
  }

  /** `sort.Strings`. */
  function SortSymbols(s: seq<string>): (r: seq<string>)
    ensures Sorted(StringLe, r) && multiset(r) == multiset(s)
  {
    StringOrder();
    Sort(StringLe, s)
  }

  lemma StringNoTies(s: seq<string>)
    ensures AntiSymmetricOn(StringLe, s)
  {
    forall x, y | x in s && y in s && StringLe(x, y) && StringLe(y, x) ensures x == y {
      StringLeAntiSymmetric(x, y);
    }
  }

  ghost predicate Distinct(s: seq<string>) {
    forall i, j | 0 <= i < j < |s| :: s[i] != s[j]
  }
}
