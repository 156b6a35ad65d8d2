/**
 The collecting side of the fan-out pools: results arrive in whatever order the
 schedule produced, each one updates the entry of its own symbol, and some are listed.
 With one result per symbol neither outcome depends on the order of arrival.
 */
module Fanout {
  import opened Wrappers
  import opened Sorting

  function Lookup<V>(m: map<string, V>, k: string): Option<V> {
    if k in m then Some(m[k]) else None
  }

  /** `apply` yields the new entry, or `None` when the result is discarded. */
  function Fold<R, V>(
    m: map<string, V>, got: seq<R>, n: nat, key: R -> string, apply: (R, Option<V>) -> Option<V>): map<string, V>
    requires n <= |got|
  {
    if n == 0 then m
    else
      var b := Fold(m, got, n - 1, key, apply);
      var k := key(got[n - 1]);
      match apply(got[n - 1], Lookup(b, k))
      case None => b
      case Some(v) => b[k := v]
  }

  /** The symbol a result is about. */
  function Key<R>(p: (string, R)): string { p.0 }

  function Row<R, T>(r: R, row: R -> Option<T>): seq<T> {
    match row(r)
    case None => []
    case Some(x) => [x]
  }

  /** The rows of the results that are listed, in order of arrival. */
  function Listed<R, T>(got: seq<R>, row: R -> Option<T>): seq<T> {
    if got == [] then [] else Listed(got[..|got| - 1], row) + Row(got[|got| - 1], row)
  }

  lemma OneMore<R, V, T>(
    m: map<string, V>, got: seq<R>, i: nat, key: R -> string, apply: (R, Option<V>) -> Option<V>, row: R -> Option<T>)
    requires i < |got|
    ensures
      var b, k := Fold(m, got, i, key, apply), key(got[i]);
      var v := apply(got[i], Lookup(b, k));
      Fold(m, got, i + 1, key, apply) == if v.None? then b else b[k := v.value]
    ensures Listed(got[..i + 1], row) == Listed(got[..i], row) + Row(got[i], row)
  {
    assert got[..i + 1][..i] == got[..i];
  }

  ghost predicate DistinctKeys<R>(got: seq<R>, key: R -> string) {
    forall i, j | 0 <= i < j < |got| :: key(got[i]) != key(got[j])
  }

  function After<R, V>(r: R, before: Option<V>, apply: (R, Option<V>) -> Option<V>): Option<V> {
    var v := apply(r, before);
    if v.None? then before else v
  }

  /** Each entry is touched by its own result only. */
  lemma {:induction false} FoldAt<R, V>(
    m: map<string, V>, got: seq<R>, n: nat, key: R -> string, apply: (R, Option<V>) -> Option<V>)
    requires n <= |got| && DistinctKeys(got, key)
    ensures forall i | 0 <= i < n ::
      Lookup(Fold(m, got, n, key, apply), key(got[i])) == After(got[i], Lookup(m, key(got[i])), apply)
    ensures forall k: string | forall i | 0 <= i < n :: key(got[i]) != k ::
      Lookup(Fold(m, got, n, key, apply), k) == Lookup(m, k)
  {
    if n > 0 {
      FoldAt(m, got, n - 1, key, apply);
    }
  }

  lemma KeysOfPermutation<R>(a: seq<R>, b: seq<R>, key: R -> string)
    requires DistinctKeys(a, key) && multiset(a) == multiset(b)
    ensures DistinctKeys(b, key)
  {
    assert forall r | r in b :: r in multiset(b);
    if i, j :| 0 <= i < j < |b| && key(b[i]) == key(b[j]) {
      var x := b[i];
      assert x in multiset(a) && b[j] in multiset(a);
      assert b[j] == x;
      TwiceMeansTwo(b, i, j);
      OnceMeansOne(a, x, key);
      assert false;
    }
  }

  lemma TwiceMeansTwo<R>(b: seq<R>, i: nat, j: nat)
    requires i < j < |b| && b[i] == b[j]
    ensures multiset(b)[b[i]] >= 2
  {
    assert b == b[..i] + [b[i]] + b[i + 1..j] + [b[j]] + b[j + 1..];
  }

  lemma {:induction false} OnceMeansOne<R>(a: seq<R>, x: R, key: R -> string)
    requires DistinctKeys(a, key) && x in a
    ensures multiset(a)[x] == 1
  {
    var front, last := a[..|a| - 1], a[|a| - 1];
    assert a == front + [last];
    if x == last {
      assert forall i | 0 <= i < |front| :: key(front[i]) != key(last);
      assert x !in multiset(front);
    } else {
      OnceMeansOne(front, x, key);
    }
  }

  /** The table after collecting does not depend on the order in which the workers delivered. */
  lemma {:induction false} FoldOrderIndependent<R, V>(
    m: map<string, V>, a: seq<R>, b: seq<R>, key: R -> string, apply: (R, Option<V>) -> Option<V>)
    requires DistinctKeys(a, key) && multiset(a) == multiset(b)
    ensures Fold(m, a, |a|, key, apply) == Fold(m, b, |b|, key, apply)
  {
    KeysOfPermutation(a, b, key);
    FoldAt(m, a, |a|, key, apply);
    FoldAt(m, b, |b|, key, apply);
    var x, y := Fold(m, a, |a|, key, apply), Fold(m, b, |b|, key, apply);
    forall k: string ensures Lookup(x, k) == Lookup(y, k) {
      if i :| 0 <= i < |a| && key(a[i]) == k {
        assert a[i] in multiset(b);
        var j :| 0 <= j < |b| && b[j] == a[i];
      } else {
        assert forall j | 0 <= j < |b| :: b[j] in multiset(a);
      }
    }
    SameLookups(x, y);
  }

  lemma SameLookups<V>(x: map<string, V>, y: map<string, V>)
    requires forall k: string :: Lookup(x, k) == Lookup(y, k)
    ensures x == y
  {
    forall k: string ensures k in x <==> k in y {
      assert Lookup(x, k) == Lookup(y, k);
    }
    forall k: string | k in x ensures x[k] == y[k] {
      assert Lookup(x, k) == Lookup(y, k);
    }
  }

  lemma {:induction false} ListedAppend<R, T>(a: seq<R>, b: seq<R>, row: R -> Option<T>)
    ensures Listed(a + b, row) == Listed(a, row) + Listed(b, row)
  {
    if b == [] {
      assert a + b == a;
    } else {
      var front, last := b[..|b| - 1], b[|b| - 1];
      ListedAppend(a, front, row);
      assert (a + b)[..|a + b| - 1] == a + front && (a + b)[|a + b| - 1] == last;
    }
  }

  lemma ListedAround<R, T>(x: seq<R>, r: R, y: seq<R>, row: R -> Option<T>)
    ensures Listed(x + [r] + y, row) == Listed(x, row) + Row(r, row) + Listed(y, row)
  {
    ListedAppend(x + [r], y, row);
    ListedAppend(x, [r], row);
  }

  lemma {:induction false} ListedWithout<R, T>(x: seq<R>, r: R, y: seq<R>, row: R -> Option<T>)
    ensures multiset(Listed(x + [r] + y, row)) == multiset(Listed(x + y, row)) + multiset(Row(r, row))
    ensures multiset(x + [r] + y) == multiset(x + y) + multiset{r}
  {
    ListedAround(x, r, y, row);
    ListedAppend(x, y, row);
  }

  lemma DropSame<T>(p: seq<T>, x: seq<T>, r: T, y: seq<T>)
    requires multiset(p + [r]) == multiset(x + [r] + y)
    ensures multiset(p) == multiset(x + y)
  {
    assert multiset(p) == multiset(p + [r]) - multiset{r};
    assert multiset(x + y) == multiset(x + [r] + y) - multiset{r};
  }

  lemma OccursIn<T>(r: T, b: seq<T>) returns (x: seq<T>, y: seq<T>)
    requires r in multiset(b)
    ensures b == x + [r] + y
  {
    var j :| 0 <= j < |b| && b[j] == r;
    x, y := b[..j], b[j + 1..];
  }

  lemma {:induction false} ListedPermutes<R, T>(a: seq<R>, b: seq<R>, row: R -> Option<T>)
    requires multiset(a) == multiset(b)
    ensures multiset(Listed(a, row)) == multiset(Listed(b, row))
  {
    if a == [] {
      assert |b| == |multiset(b)| == 0;
    } else {
      var front, last := a[..|a| - 1], a[|a| - 1];
      assert a == front + [last];
      var x, y := OccursIn(last, b);
      DropSame(front, x, last, y);
      ListedPermutes(front, x + y, row);
      ListedWithout(x, last, y, row);
    }
  }

  lemma {:induction false} ListedMembers<R, T>(got: seq<R>, row: R -> Option<T>, x: T)
    ensures x in Listed(got, row) <==> exists r | r in got :: row(r) == Some(x)
  {
    if got != [] {
      var front, last := got[..|got| - 1], got[|got| - 1];
      assert got == front + [last];
      ListedMembers(front, row, x);
      assert last in got;
    }
  }

  /** The sorted list is the same for every order of arrival, if the order leaves no ties among its rows. */
  lemma ListOrderIndependent<R, T(!new)>(a: seq<R>, b: seq<R>, row: R -> Option<T>, le: (T, T) -> bool)
    requires multiset(a) == multiset(b)
    requires Total(le) && Transitive(le) && AntiSymmetricOn(le, Listed(a, row))
    ensures Sort(le, Listed(a, row)) == Sort(le, Listed(b, row))
  {
    ListedPermutes(a, b, row);
    var x, y := Sort(le, Listed(a, row)), Sort(le, Listed(b, row));
    forall t | t in x ensures t in Listed(a, row) {
      assert t in multiset(x);
    }
    SortedUnique(le, x, y);
  }

  /** Sorting a list of distinct symbols keeps them, and keeps them distinct. */
  lemma SortKeepsDistinct(a: seq<string>, b: seq<string>)
    requires Distinct(a) && multiset(a) == multiset(b)
    ensures Distinct(b) && forall s :: s in a <==> s in b
  {
    KeysOfPermutation(a, b, (s: string) => s);
    forall s ensures s in a <==> s in b {
      assert s in multiset(a) <==> s in multiset(b);
    }
  }

  /** Exactly one result for each of the symbols, its own. */
  ghost predicate OnceEach<R(!new)>(syms: seq<string>, compute: string -> R, got: seq<(string, R)>) {
    && DistinctKeys(got, Key)
    && forall p :: p in got <==> p.0 in syms && p.1 == compute(p.0)
  }

  /** Collecting one result a symbol: each entry depends on its own result only. */
  lemma CollectedAt<R(!new), V>(
    syms: seq<string>, compute: string -> R, got: seq<(string, R)>,
    m: map<string, V>, apply: ((string, R), Option<V>) -> Option<V>, s: string)
    requires OnceEach(syms, compute, got)
    ensures Lookup(Fold(m, got, |got|, Key, apply), s)
         == if s in syms then After((s, compute(s)), Lookup(m, s), apply) else Lookup(m, s)
  {
    FoldAt(m, got, |got|, Key, apply);
    if s in syms {
      assert (s, compute(s)) in got;
      var i :| 0 <= i < |got| && got[i] == (s, compute(s));
      assert Key(got[i]) == s;
    } else {
      forall i | 0 <= i < |got| ensures Key(got[i]) != s {
        assert got[i] in got;
      }
    }
  }

  /** The list holds the keys of the table. */
  ghost predicate Lists<V>(syms: seq<string>, m: map<string, V>) {
    forall s :: s in syms <==> s in m
  }

  lemma {:induction false} SomeList<V>(m: map<string, V>)
    ensures exists syms :: Distinct(syms) && Lists(syms, m)
    decreases |m|
  {
    if sym :| sym in m {
      SomeList(m - {sym});
      var syms :| Distinct(syms) && Lists(syms, m - {sym});
      assert forall i | 0 <= i < |syms| :: syms[i] in syms;
      assert Distinct(syms + [sym]) && Lists(syms + [sym], m);
    } else {
      assert Distinct([]) && Lists([], m);
    }
  }

  ghost predicate InSymbolOrder<V>(syms: seq<string>, m: map<string, V>) {
    Sorted(StringLe, syms) && Distinct(syms) && Lists(syms, m)
  }

  lemma SomeOrder<V>(m: map<string, V>)
    ensures exists syms :: InSymbolOrder(syms, m)
  {
    SomeList(m);
    var syms :| Distinct(syms) && Lists(syms, m);
    SortKeepsDistinct(syms, SortSymbols(syms));
    forall s ensures s in SortSymbols(syms) <==> s in syms {
      assert s in SortSymbols(syms) <==> s in multiset(syms);
    }
    assert InSymbolOrder(SortSymbols(syms), m);
  }

  /** The keys of the table in symbol order. */
  ghost function SymbolsOf<V>(m: map<string, V>): (syms: seq<string>)
    ensures InSymbolOrder(syms, m)
  {
    SomeOrder(m);
    var syms :| InSymbolOrder(syms, m);
    syms
  }

  /** There is one such list. */
  lemma SymbolsAre<V>(m: map<string, V>, syms: seq<string>)
    requires InSymbolOrder(syms, m)
    ensures syms == SymbolsOf(m)
  {
    var a := SymbolsOf(m);
    forall s: string ensures multiset(a)[s] == multiset(syms)[s] {
      if s in m {
        OnceMeansOne(a, s, Itself);
        OnceMeansOne(syms, s, Itself);
      } else {
        assert s !in a && s !in syms;
      }
    }
    hide Distinct;
    StringOrder();
    StringNoTies(a);
    SortedUnique(StringLe, a, syms);
  }

  function Itself(s: string): string { s }

  /** The keys of the table, sorted. */
  method SortedKeys<V>(m: map<string, V>) returns (syms: seq<string>)
    ensures Sorted(StringLe, syms) && Distinct(syms) && Lists(syms, m) && syms == SymbolsOf(m)
  {
    var left, listed: seq<string> := m.Keys, [];
    while left != {}
      invariant left <= m.Keys && Distinct(listed)
      invariant forall s :: s in listed <==> s in m.Keys - left
      decreases |left|
    {
      var sym :| sym in left;
      assert forall i | 0 <= i < |listed| :: listed[i] in listed;
      listed := listed + [sym];
      left := left - {sym};
    }
    syms := SortSymbols(listed);
    SortKeepsDistinct(listed, syms);
    SymbolsAre(m, syms);
  }
}
