// The records a list of entries contributes, entry by entry, in order, and
// how that sequence behaves when one entry is replaced or the entries are
// permuted; also left folds and "every entry" over a list.

module Flatten {
  /** `f(ns[0]) + f(ns[1]) + ...` */
  function Flat<T, U>(f: T -> seq<U>, ns: seq<T>): (r: seq<U>)
  {
    if ns == [] then [] else Flat(f, ns[..|ns| - 1]) + f(ns[|ns| - 1])
  }

  /** The contributions of two lists one after the other. */
  lemma {:induction false} FlatAppend<T, U>(f: T -> seq<U>, x: seq<T>, y: seq<T>)
    ensures Flat(f, x + y) == Flat(f, x) + Flat(f, y)
    decreases |y|
  {
    if y == [] {
      assert x + y == x;
    } else {
      var last := |y| - 1;
      assert (x + y)[..|x + y| - 1] == x + y[..last];
      assert (x + y)[|x + y| - 1] == y[last];
      FlatAppend(f, x, y[..last]);
    }
  }

  /** The contribution of entry `i` sits between those before and after it. */
  lemma FlatSplit<T, U>(f: T -> seq<U>, ns: seq<T>, i: nat)
    requires i < |ns|
    ensures Flat(f, ns) == Flat(f, ns[..i]) + f(ns[i]) + Flat(f, ns[i + 1..])
  {
    var upTo := ns[..i + 1];
    assert Flat(f, upTo) == Flat(f, ns[..i]) + f(ns[i]) by {
      assert upTo[..i] == ns[..i] && upTo[i] == ns[i];
    }
    assert Flat(f, ns) == Flat(f, upTo) + Flat(f, ns[i + 1..]) by {
      assert ns == upTo + ns[i + 1..];
      FlatAppend(f, upTo, ns[i + 1..]);
    }
  }

  /** Replacing one entry swaps its contribution for the new one's. */
  lemma FlatUpdate<T, U>(f: T -> seq<U>, ns: seq<T>, i: nat, n: T)
    requires i < |ns|
    ensures Flat(f, ns[i := n]) == Flat(f, ns[..i]) + f(n) + Flat(f, ns[i + 1..])
  {
    var ms := ns[i := n];
    FlatSplit(f, ms, i);
    assert ms[..i] == ns[..i] && ms[i + 1..] == ns[i + 1..];
  }

  /** Each entry's contribution is part of the whole. */
  lemma {:induction false} FlatContains<T, U>(f: T -> seq<U>, ns: seq<T>, i: nat)
    requires i < |ns|
    ensures multiset(f(ns[i])) <= multiset(Flat(f, ns))
  {
    var last := |ns| - 1;
    if i < last {
      FlatContains(f, ns[..last], i);
      assert ns[..last][i] == ns[i];
    }
  }

  /** Removing one entry removes exactly its contribution. */
  lemma FlatRemove<T, U>(f: T -> seq<U>, b: seq<T>, j: nat)
    requires j < |b|
    ensures multiset(Flat(f, b)) == multiset(Flat(f, b[..j] + b[j + 1..])) + multiset(f(b[j]))
  {
    var before, after := Flat(f, b[..j]), Flat(f, b[j + 1..]);
    assert Flat(f, b) == before + f(b[j]) + after by {
      FlatSplit(f, b, j);
    }
    assert Flat(f, b[..j] + b[j + 1..]) == before + after by {
      FlatAppend(f, b[..j], b[j + 1..]);
    }
  }

  /** Permuting the entries permutes the contributions. */
  lemma {:induction false} FlatPermutation<T, U>(f: T -> seq<U>, a: seq<T>, b: seq<T>)
    requires multiset(a) == multiset(b)
    ensures multiset(Flat(f, a)) == multiset(Flat(f, b))
    decreases |a|
  {
    if a == [] {
      assert |b| == |multiset(b)| == 0;
    } else {
      var x := a[|a| - 1];
      assert x in multiset(b);
      var j :| 0 <= j < |b| && b[j] == x;
      var b' := b[..j] + b[j + 1..];
      assert b == b[..j] + [x] + b[j + 1..];
      assert multiset(b) == multiset(b[..j]) + multiset{x} + multiset(b[j + 1..]);
      assert a == a[..|a| - 1] + [x];
      assert multiset(a) == multiset(a[..|a| - 1]) + multiset{x};
      assert multiset(b') == multiset(b[..j]) + multiset(b[j + 1..]);
      forall y ensures multiset(a[..|a| - 1])[y] == multiset(b')[y] {
        assert multiset(a)[y] == multiset(b)[y];
      }
      assert multiset(a[..|a| - 1]) == multiset(b');
      FlatPermutation(f, a[..|a| - 1], b');
      FlatRemove(f, b, j);
    }
  }

  /** Entries contributing one record each contribute as many records as there are entries. */
  lemma {:induction false} FlatLength<T, U>(f: T -> seq<U>, ns: seq<T>)
    requires forall i :: 0 <= i < |ns| ==> |f(ns[i])| == 1
    ensures |Flat(f, ns)| == |ns|
  {
    if ns != [] {
      FlatLength(f, ns[..|ns| - 1]);
    }
  }

  /** The first i + 1 entries contribute what the first i do, then entry i's. */
  lemma FlatStep<T, U>(f: T -> seq<U>, ns: seq<T>, i: nat)
    requires i < |ns|
    ensures Flat(f, ns[..i + 1]) == Flat(f, ns[..i]) + f(ns[i])
  {
    assert ns[..i + 1][..i] == ns[..i];
  }

  /** A record is contributed exactly when some entry contributes it. */
  lemma {:induction false} FlatMember<T, U>(f: T -> seq<U>, ns: seq<T>, u: U)
    ensures u in Flat(f, ns) <==> exists i :: 0 <= i < |ns| && u in f(ns[i])
  {
    if ns != [] {
      var last := |ns| - 1;
      FlatMember(f, ns[..last], u);
      if u in Flat(f, ns[..last]) {
        var i :| 0 <= i < last && u in f(ns[..last][i]);
        assert ns[i] == ns[..last][i];
      }
      if exists i :: 0 <= i < |ns| && u in f(ns[i]) {
        var i :| 0 <= i < |ns| && u in f(ns[i]);
        if i < last {
          assert ns[..last][i] == ns[i];
        }
      }
    }
  }

  /** A selection taking at most one value per entry is no longer than the list. */
  lemma {:induction false} FlatAtMost<T, U>(f: T -> seq<U>, ns: seq<T>)
    requires forall i :: 0 <= i < |ns| ==> |f(ns[i])| <= 1
    ensures |Flat(f, ns)| <= |ns|
    decreases |ns|
  {
    if ns != [] {
      var last := |ns| - 1;
      assert forall i :: 0 <= i < last ==> ns[..last][i] == ns[i];
      FlatAtMost(f, ns[..last]);
    }
  }

  /** Two selections that together take each entry once take |ns| records between them. */
  lemma {:induction false} FlatPartition<T, U>(f: T -> seq<U>, g: T -> seq<U>, ns: seq<T>)
    requires forall i :: 0 <= i < |ns| ==> |f(ns[i])| + |g(ns[i])| == 1
    ensures |Flat(f, ns)| + |Flat(g, ns)| == |ns|
  {
    if ns != [] {
      FlatPartition(f, g, ns[..|ns| - 1]);
    }
  }

  /** `a = g(a, ns[0]); a = g(a, ns[1]); ...` */
  function Fold<T, A>(g: (A, T) -> A, a: A, ns: seq<T>): A
  {
    if ns == [] then a else g(Fold(g, a, ns[..|ns| - 1]), ns[|ns| - 1])
  }

  lemma FoldStep<T, A>(g: (A, T) -> A, a: A, ns: seq<T>, i: nat)
    requires i < |ns|
    ensures Fold(g, a, ns[..i + 1]) == g(Fold(g, a, ns[..i]), ns[i])
  {
    assert ns[..i + 1][..i] == ns[..i];
  }

  /** Folding two lists one after the other continues from the first's result. */
  lemma {:induction false} FoldAppend<T, A>(g: (A, T) -> A, a: A, x: seq<T>, y: seq<T>)
    ensures Fold(g, a, x + y) == Fold(g, Fold(g, a, x), y)
    decreases |y|
  {
    if y == [] {
      assert x + y == x;
    } else {
      var last := |y| - 1;
      assert (x + y)[..|x + y| - 1] == x + y[..last];
      assert (x + y)[|x + y| - 1] == y[last];
      FoldAppend(g, a, x, y[..last]);
    }
  }

  /** Once the accumulator is a value g keeps, it stays that value to the end. */
  lemma {:induction false} FoldFixed<T, A>(g: (A, T) -> A, a: A, ns: seq<T>)
    requires forall t :: g(a, t) == a
    ensures Fold(g, a, ns) == a
    decreases |ns|
  {
    if ns != [] {
      FoldFixed(g, a, ns[..|ns| - 1]);
    }
  }

  /** Every entry satisfies p. */
  predicate All<T>(p: T -> bool, ns: seq<T>)
  {
    forall i :: 0 <= i < |ns| ==> p(ns[i])
  }

  lemma AllStep<T>(p: T -> bool, ns: seq<T>, i: nat)
    requires i < |ns|
    ensures All(p, ns[..i + 1]) <==> All(p, ns[..i]) && p(ns[i])
  {
    assert ns[..i + 1][i] == ns[i];
    assert forall k :: 0 <= k < i ==> ns[..i + 1][k] == ns[..i][k];
  }

  lemma SliceStep<T>(prefix: seq<T>, ns: seq<T>, i: nat)
    requires i < |ns|
    ensures prefix + ns[..i + 1] == (prefix + ns[..i]) + [ns[i]]
  {
    assert ns[..i + 1] == ns[..i] + [ns[i]];
  }

  lemma FoldLast<T, A>(g: (A, T) -> A, a: A, ns: seq<T>, x: T)
    ensures Fold(g, a, ns + [x]) == g(Fold(g, a, ns), x)
  {
    assert (ns + [x])[..|ns|] == ns;
  }

  lemma FlatLast<T, U>(f: T -> seq<U>, ns: seq<T>, x: T)
    ensures Flat(f, ns + [x]) == Flat(f, ns) + f(x)
  {
    assert (ns + [x])[..|ns|] == ns;
  }

  lemma ConcatAssoc<T>(a: seq<T>, b: seq<T>, c: seq<T>)
    ensures (a + b) + c == a + (b + c)
  {
  }
}
