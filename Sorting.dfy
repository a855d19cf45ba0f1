// Python's list.sort(key=..., reverse=...) on JSON keys: a stable sort that
// raises TypeError when two keys cannot be ordered.

module Sorting {
  import opened Json

  /** How a sort key compares: numbers (bool or int), strings, or a value Python cannot order. */
  datatype SortKey = KNum(n: int) | KStr(s: string) | KOther

  function KeyOf(v: JSON): SortKey
  {
    match v
    case JInt(i) => KNum(i)
    case JBool(b) => KNum(if b then 1 else 0)
    case JStr(s) => KStr(s)
    case _ => KOther
  }

  /** Code-point lexicographic order on strings. */
  predicate StrLe(a: string, b: string)
    decreases |a|
  {
    a == [] || (b != [] && (a[0] < b[0] || (a[0] == b[0] && StrLe(a[1..], b[1..]))))
  }

  /** A total preorder on keys; it only decides results when all keys are of one comparable kind. */
  predicate KeyLe(a: SortKey, b: SortKey)
  {
    match (a, b)
    case (KNum(x), KNum(y)) => x <= y
    case (KStr(x), KStr(y)) => StrLe(x, y)
    case (KNum(_), _) => true
    case (KStr(_), KOther) => true
    case (KOther, KOther) => true
    case _ => false
  }

  lemma {:induction false} StrLeTotal(a: string, b: string)
    ensures StrLe(a, b) || StrLe(b, a)
    decreases |a|
  {
    if a != [] && b != [] && a[0] == b[0] {
      StrLeTotal(a[1..], b[1..]);
    }
  }

  lemma {:induction false} StrLeTrans(a: string, b: string, c: string)
    requires StrLe(a, b) && StrLe(b, c)
    ensures StrLe(a, c)
    decreases |a|
  {
    if a != [] && a[0] == b[0] && b[0] == c[0] {
      StrLeTrans(a[1..], b[1..], c[1..]);
    }
  }

  lemma {:induction false} StrLeRefl(a: string)
    ensures StrLe(a, a)
    decreases |a|
  {
    if a != [] { StrLeRefl(a[1..]); }
  }

  lemma KeyLeTotal(a: SortKey, b: SortKey)
    ensures KeyLe(a, b) || KeyLe(b, a)
  {
    if a.KStr? && b.KStr? { StrLeTotal(a.s, b.s); }
  }

  lemma KeyLeTrans(a: SortKey, b: SortKey, c: SortKey)
    requires KeyLe(a, b) && KeyLe(b, c)
    ensures KeyLe(a, c)
  {
    if a.KStr? && b.KStr? && c.KStr? { StrLeTrans(a.s, b.s, c.s); }
  }

  lemma KeyLeRefl(a: SortKey)
    ensures KeyLe(a, a)
  {
    if a.KStr? { StrLeRefl(a.s); }
  }

  /** `a` may stand before `b` in the output (ascending, or descending when `desc`). */
  predicate Before(desc: bool, a: SortKey, b: SortKey)
  {
    if desc then KeyLe(b, a) else KeyLe(a, b)
  }

  lemma BeforeTotal(desc: bool, a: SortKey, b: SortKey)
    ensures Before(desc, a, b) || Before(desc, b, a)
  {
    KeyLeTotal(a, b);
  }

  lemma BeforeTrans(desc: bool, a: SortKey, b: SortKey, c: SortKey)
    requires Before(desc, a, b) && Before(desc, b, c)
    ensures Before(desc, a, c)
  {
    if desc { KeyLeTrans(c, b, a); } else { KeyLeTrans(a, b, c); }
  }

  predicate Sorted<T>(key: T -> SortKey, desc: bool, s: seq<T>)
  {
    forall i, j :: 0 <= i < j < |s| ==> Before(desc, key(s[i]), key(s[j]))
  }

  /** The elements of `s` whose key is `k`, in order. */
  function WithKey<T>(key: T -> SortKey, s: seq<T>, k: SortKey): seq<T>
  {
    if s == [] then [] else (if key(s[0]) == k then [s[0]] else []) + WithKey(key, s[1..], k)
  }

  /** Keys Python can order against each other: all numbers or all strings. */
  predicate Comparable<T>(key: T -> SortKey, s: seq<T>)
  {
    (forall i :: 0 <= i < |s| ==> key(s[i]).KNum?) || (forall i :: 0 <= i < |s| ==> key(s[i]).KStr?)
  }

  /** Insert `x` after every element that may precede it. */
  function Insert<T>(key: T -> SortKey, desc: bool, x: T, s: seq<T>): seq<T>
  {
    if s == [] then [x]
    else if Before(desc, key(s[0]), key(x)) then [s[0]] + Insert(key, desc, x, s[1..])
    else [x] + s
  }

  function InsertionSort<T>(key: T -> SortKey, desc: bool, s: seq<T>): seq<T>
  {
    if s == [] then [] else Insert(key, desc, s[|s| - 1], InsertionSort(key, desc, s[..|s| - 1]))
  }

  /**
   * `s.sort(key=key, reverse=desc)`.  A comparison sort compares every pair of
   * neighbours of its output, so with two or more elements any key Python
   * cannot order against the others raises TypeError.
   */
  function PySort<T(==)>(key: T -> SortKey, desc: bool, s: seq<T>): (r: Outcome<seq<T>>)
    ensures r.Raise? <==> |s| >= 2 && !Comparable(key, s)
    ensures r.Raise? ==> r.exc == TypeError
    ensures r.Ok? ==> Sorted(key, desc, r.value) && multiset(r.value) == multiset(s)
    ensures r.Ok? ==> forall k :: WithKey(key, r.value, k) == WithKey(key, s, k)
  {
    if |s| <= 1 then Ok(s)
    else if !Comparable(key, s) then Raise(TypeError)
    else
      SortProperties(key, desc, s);
      Ok(InsertionSort(key, desc, s))
  }

  lemma SortProperties<T>(key: T -> SortKey, desc: bool, s: seq<T>)
    ensures Sorted(key, desc, InsertionSort(key, desc, s))
    ensures multiset(InsertionSort(key, desc, s)) == multiset(s)
    ensures forall k :: WithKey(key, InsertionSort(key, desc, s), k) == WithKey(key, s, k)
  {
    SortSorted(key, desc, s);
    forall k ensures WithKey(key, InsertionSort(key, desc, s), k) == WithKey(key, s, k) {
      SortStable(key, desc, s, k);
    }
  }

  lemma {:induction false} InsertMultiset<T>(key: T -> SortKey, desc: bool, x: T, s: seq<T>)
    ensures multiset(Insert(key, desc, x, s)) == multiset(s) + multiset{x}
    decreases |s|
  {
    if s != [] && Before(desc, key(s[0]), key(x)) {
      InsertMultiset(key, desc, x, s[1..]);
      assert s == [s[0]] + s[1..];
    }
  }

  lemma {:induction false} InsertSorted<T>(key: T -> SortKey, desc: bool, x: T, s: seq<T>)
    requires Sorted(key, desc, s)
    ensures Sorted(key, desc, Insert(key, desc, x, s))
    decreases |s|
  {
    var r := Insert(key, desc, x, s);
    if s == [] {
    } else if Before(desc, key(s[0]), key(x)) {
      var tail := Insert(key, desc, x, s[1..]);
      InsertSorted(key, desc, x, s[1..]);
      InsertMultiset(key, desc, x, s[1..]);
      forall j | 0 <= j < |tail| ensures Before(desc, key(s[0]), key(tail[j])) {
        assert tail[j] in multiset(tail);
        if tail[j] != x {
          assert tail[j] in multiset(s[1..]);
          var m :| 0 <= m < |s[1..]| && s[1..][m] == tail[j];
          assert s[m + 1] == tail[j];
        }
      }
      assert r == [s[0]] + tail;
    } else {
      BeforeTotal(desc, key(s[0]), key(x));
      forall j | 0 <= j < |s| ensures Before(desc, key(x), key(s[j])) {
        if j > 0 { BeforeTrans(desc, key(x), key(s[0]), key(s[j])); }
      }
      assert r == [x] + s;
    }
  }

  lemma {:induction false} SortMultiset<T>(key: T -> SortKey, desc: bool, s: seq<T>)
    ensures multiset(InsertionSort(key, desc, s)) == multiset(s)
    decreases |s|
  {
    if s != [] {
      SortMultiset(key, desc, s[..|s| - 1]);
      InsertMultiset(key, desc, s[|s| - 1], InsertionSort(key, desc, s[..|s| - 1]));
      assert s == s[..|s| - 1] + [s[|s| - 1]];
    }
  }

  lemma {:induction false} SortSorted<T>(key: T -> SortKey, desc: bool, s: seq<T>)
    ensures Sorted(key, desc, InsertionSort(key, desc, s))
    ensures multiset(InsertionSort(key, desc, s)) == multiset(s)
    decreases |s|
  {
    SortMultiset(key, desc, s);
    if s != [] {
      SortSorted(key, desc, s[..|s| - 1]);
      InsertSorted(key, desc, s[|s| - 1], InsertionSort(key, desc, s[..|s| - 1]));
    }
  }

  lemma {:induction false} WithKeyConcat<T>(key: T -> SortKey, a: seq<T>, b: seq<T>, k: SortKey)
    ensures WithKey(key, a + b, k) == WithKey(key, a, k) + WithKey(key, b, k)
    decreases |a|
  {
    if a == [] {
      assert a + b == b;
    } else {
      var head := if key(a[0]) == k then [a[0]] else [];
      var rest, other := WithKey(key, a[1..], k), WithKey(key, b, k);
      assert WithKey(key, a + b, k) == head + WithKey(key, a[1..] + b, k) by {
        assert (a + b)[0] == a[0];
        assert (a + b)[1..] == a[1..] + b;
      }
      WithKeyConcat(key, a[1..], b, k);
      assert head + (rest + other) == (head + rest) + other;
    }
  }

  lemma {:induction false} WithKeyNone<T>(key: T -> SortKey, s: seq<T>, k: SortKey)
    requires forall i :: 0 <= i < |s| ==> key(s[i]) != k
    ensures WithKey(key, s, k) == []
    decreases |s|
  {
    if s != [] { WithKeyNone(key, s[1..], k); }
  }

  lemma {:induction false} InsertStable<T>(key: T -> SortKey, desc: bool, x: T, s: seq<T>, k: SortKey)
    requires Sorted(key, desc, s)
    ensures WithKey(key, Insert(key, desc, x, s), k) ==
            WithKey(key, s, k) + (if key(x) == k then [x] else [])
    decreases |s|
  {
    var mine := if key(x) == k then [x] else [];
    if s == [] {
      assert [x][1..] == [];
    } else if Before(desc, key(s[0]), key(x)) {
      var head := if key(s[0]) == k then [s[0]] else [];
      var tail := Insert(key, desc, x, s[1..]);
      var rest := WithKey(key, s[1..], k);
      assert WithKey(key, Insert(key, desc, x, s), k) == head + WithKey(key, tail, k) by {
        WithKeyConcat(key, [s[0]], tail, k);
        assert [s[0]][1..] == [];
      }
      assert WithKey(key, tail, k) == rest + mine by {
        InsertStable(key, desc, x, s[1..], k);
      }
      assert head + (rest + mine) == (head + rest) + mine;
    } else {
      assert WithKey(key, Insert(key, desc, x, s), k) == mine + WithKey(key, s, k) by {
        WithKeyConcat(key, [x], s, k);
        assert [x][1..] == [];
      }
      if key(x) == k {
        WithKeyAfter(key, desc, x, s, k);
      }
    }
  }

  /** Nothing after an element that stands strictly before `x` shares `x`'s key. */
  lemma WithKeyAfter<T>(key: T -> SortKey, desc: bool, x: T, s: seq<T>, k: SortKey)
    requires Sorted(key, desc, s) && s != [] && !Before(desc, key(s[0]), key(x)) && key(x) == k
    ensures WithKey(key, s, k) == []
  {
    KeyLeRefl(k);
    forall i | 0 <= i < |s| ensures key(s[i]) != k {
      if i > 0 { assert Before(desc, key(s[0]), key(s[i])); }
    }
    WithKeyNone(key, s, k);
  }

  lemma {:induction false} SortStable<T>(key: T -> SortKey, desc: bool, s: seq<T>, k: SortKey)
    ensures WithKey(key, InsertionSort(key, desc, s), k) == WithKey(key, s, k)
    decreases |s|
  {
    if s != [] {
      var init, last := s[..|s| - 1], s[|s| - 1];
      var sortedInit := InsertionSort(key, desc, init);
      var tail := if key(last) == k then [last] else [];
      SortSorted(key, desc, init);
      calc {
        WithKey(key, InsertionSort(key, desc, s), k);
        WithKey(key, Insert(key, desc, last, sortedInit), k);
        { InsertStable(key, desc, last, sortedInit, k); }
        WithKey(key, sortedInit, k) + tail;
        { SortStable(key, desc, init, k); }
        WithKey(key, init, k) + tail;
        { assert WithKey(key, [last], k) == tail; WithKeyConcat(key, init, [last], k); }
        WithKey(key, init + [last], k);
        { assert s == init + [last]; }
        WithKey(key, s, k);
      }
    }
  }
}
