/**
 * The three accumulation rules the dispenser applies while it walks the
 * elements of a document, stated as folds over the elements in order:
 *  - Collect:      `list.addAll(f(x))` for each x, in order;
 *  - LastSupplied: `if (!f(x).isEmpty()) field = last of f(x)` for each x;
 *  - PutEach:      `map.put(key(x), val(x))` for each x that has a key.
 */
module Folds {
  import opened Wrappers

  /** The concatenation, in order, of `f(x)` for every x of xs. */
  function Collect<A, T>(xs: seq<A>, f: A -> seq<T>): seq<T>
  {
    if xs == [] then [] else Collect(xs[..|xs| - 1], f) + f(xs[|xs| - 1])
  }

  /** Collecting a single element yields exactly its list. */
  lemma CollectOne<A, T>(x: A, f: A -> seq<T>)
    ensures Collect([x], f) == f(x)
  {
    assert [x][..0] == [];
  }

  /** Collecting over `xs + ys` is collecting over xs followed by collecting over ys. */
  lemma {:induction false} CollectAppend<A, T>(xs: seq<A>, ys: seq<A>, f: A -> seq<T>)
    ensures Collect(xs + ys, f) == Collect(xs, f) + Collect(ys, f)
  {
    if ys == [] {
      assert xs + ys == xs;
    } else {
      var n := |ys| - 1;
      assert (xs + ys)[..|xs + ys| - 1] == xs + ys[..n];
      CollectAppend(xs, ys[..n], f);
    }
  }

  /**
   * Nothing is dropped or merged: the collected list is as long as all the
   * contributed lists together, so duplicates survive.
   */
  lemma {:induction false} CollectLength<A, T>(xs: seq<A>, f: A -> seq<T>, lengths: seq<nat>)
    requires |lengths| == |xs|
    requires forall i :: 0 <= i < |xs| ==> lengths[i] == |f(xs[i])|
    ensures |Collect(xs, f)| == Sum(lengths)
  {
    if xs != [] {
      var n := |xs| - 1;
      CollectLength(xs[..n], f, lengths[..n]);
      SumSnoc(lengths[..n], lengths[n]);
      assert lengths[..n] + [lengths[n]] == lengths;
    }
  }

  function Sum(ns: seq<nat>): nat
  {
    if ns == [] then 0 else ns[0] + Sum(ns[1..])
  }

  lemma {:induction false} SumSnoc(ns: seq<nat>, n: nat)
    ensures Sum(ns + [n]) == Sum(ns) + n
  {
    if ns != [] {
      assert (ns + [n])[1..] == ns[1..] + [n];
      SumSnoc(ns[1..], n);
    }
  }

  /** The last element of a non-empty list (Java `l.get(l.size() - 1)`). */
  function Last<T>(s: seq<T>): T
    requires s != []
  {
    s[|s| - 1]
  }

  /**
   * The value a single-valued setting has after walking xs from `current`:
   * each element whose list is non-empty overwrites it with that list's last
   * entry; an element with an empty list leaves it alone.
   */
  function LastSupplied<A, T>(xs: seq<A>, f: A -> seq<T>, current: Option<T>): Option<T>
  {
    if xs == [] then current
    else if f(xs[|xs| - 1]) != [] then Some(Last(f(xs[|xs| - 1])))
    else LastSupplied(xs[..|xs| - 1], f, current)
  }

  /** No element of xs supplies a value. */
  ghost predicate NoneSupplied<A, T>(xs: seq<A>, f: A -> seq<T>)
  {
    forall i :: 0 <= i < |xs| ==> f(xs[i]) == []
  }

  /** Element j supplies a value and no later element does. */
  ghost predicate LastSupplier<A, T>(xs: seq<A>, f: A -> seq<T>, j: int)
  {
    0 <= j < |xs| && f(xs[j]) != [] && forall i :: j < i < |xs| ==> f(xs[i]) == []
  }

  /** When no element supplies a value, the setting keeps its value. */
  lemma {:induction false} LastSuppliedNone<A, T>(xs: seq<A>, f: A -> seq<T>, current: Option<T>)
    requires NoneSupplied(xs, f)
    ensures LastSupplied(xs, f, current) == current
  {
    if xs != [] {
      LastSuppliedNone(xs[..|xs| - 1], f, current);
    }
  }

  /**
   * When element j is the last one that supplies a value, the setting ends as
   * the last entry of j's list, whatever came before.
   */
  lemma {:induction false} LastSuppliedWins<A, T>(xs: seq<A>, f: A -> seq<T>, current: Option<T>, j: int)
    requires LastSupplier(xs, f, j)
    ensures LastSupplied(xs, f, current) == Some(Last(f(xs[j])))
  {
    if j < |xs| - 1 {
      LastSuppliedWins(xs[..|xs| - 1], f, current, j);
    }
  }

  /** Unless no element supplies a value, some element is the last to supply one. */
  lemma {:induction false} SomeLastSupplier<A, T>(xs: seq<A>, f: A -> seq<T>) returns (j: int)
    requires !NoneSupplied(xs, f)
    ensures LastSupplier(xs, f, j)
  {
    var n := |xs| - 1;
    if f(xs[n]) != [] {
      j := n;
    } else {
      var i :| 0 <= i < |xs| && f(xs[i]) != [];
      assert xs[..n][i] == xs[i];
      j := SomeLastSupplier(xs[..n], f);
      assert xs[..n][j] == xs[j];
    }
  }

  /**
   * The whole rule for a single-valued setting: it keeps its value when no
   * element supplies one, and otherwise ends as the last entry of the list of
   * the last element that supplies one.
   */
  lemma LastSuppliedRule<A, T>(xs: seq<A>, f: A -> seq<T>, current: Option<T>)
    ensures NoneSupplied(xs, f) ==> LastSupplied(xs, f, current) == current
    ensures !NoneSupplied(xs, f) ==> exists j :: LastSupplier(xs, f, j)
    ensures forall j :: LastSupplier(xs, f, j) ==> LastSupplied(xs, f, current) == Some(Last(f(xs[j])))
  {
    if NoneSupplied(xs, f) {
      LastSuppliedNone(xs, f, current);
    } else {
      var j := SomeLastSupplier(xs, f);
    }
    forall j | LastSupplier(xs, f, j)
      ensures LastSupplied(xs, f, current) == Some(Last(f(xs[j])))
    {
      LastSuppliedWins(xs, f, current, j);
    }
  }

  /** Walking `xs + ys` is walking xs and then walking ys from where xs left off. */
  lemma {:induction false} LastSuppliedAppend<A, T>(xs: seq<A>, ys: seq<A>, f: A -> seq<T>, current: Option<T>)
    ensures LastSupplied(xs + ys, f, current) == LastSupplied(ys, f, LastSupplied(xs, f, current))
  {
    if ys == [] {
      assert xs + ys == xs;
    } else {
      var n := |ys| - 1;
      assert (xs + ys)[..|xs + ys| - 1] == xs + ys[..n];
      assert (xs + ys)[|xs + ys| - 1] == ys[n];
      LastSuppliedAppend(xs, ys[..n], f, current);
    }
  }

  /** `m.put(k, valOf(x))` for each x of xs with `keyOf(x) == Some(k)`; elements without a key are skipped. */
  function PutEach<A, K, V>(m: map<K, V>, xs: seq<A>, keyOf: A -> Option<K>, valOf: A -> V): map<K, V>
  {
    if xs == [] then m
    else
      var prev := PutEach(m, xs[..|xs| - 1], keyOf, valOf);
      var x := xs[|xs| - 1];
      match keyOf(x)
      case None => prev
      case Some(k) => prev[k := valOf(x)]
  }

  /** A key is present afterwards exactly when it was present before or some element carries it. */
  lemma {:induction false} PutEachKeys<A, K, V>(m: map<K, V>, xs: seq<A>, keyOf: A -> Option<K>, valOf: A -> V, k: K)
    ensures k in PutEach(m, xs, keyOf, valOf) <==> k in m || exists i :: 0 <= i < |xs| && keyOf(xs[i]) == Some(k)
  {
    if xs != [] {
      var n := |xs| - 1;
      PutEachKeys(m, xs[..n], keyOf, valOf, k);
      if exists i :: 0 <= i < |xs| && keyOf(xs[i]) == Some(k) {
        var i :| 0 <= i < |xs| && keyOf(xs[i]) == Some(k);
        if i < n {
          assert xs[..n][i] == xs[i];
        }
      }
      if exists i :: 0 <= i < n && keyOf(xs[..n][i]) == Some(k) {
        var i :| 0 <= i < n && keyOf(xs[..n][i]) == Some(k);
        assert xs[i] == xs[..n][i];
      }
    }
  }

  /** The element that last carries key k decides its value: later entries win. */
  lemma {:induction false} PutEachLastWins<A, K, V>(m: map<K, V>, xs: seq<A>, keyOf: A -> Option<K>, valOf: A -> V, j: nat)
    requires j < |xs| && keyOf(xs[j]).Some?
    requires forall i :: j < i < |xs| ==> keyOf(xs[i]) != keyOf(xs[j])
    ensures keyOf(xs[j]).value in PutEach(m, xs, keyOf, valOf)
    ensures PutEach(m, xs, keyOf, valOf)[keyOf(xs[j]).value] == valOf(xs[j])
  {
    var n := |xs| - 1;
    if j < n {
      PutEachLastWins(m, xs[..n], keyOf, valOf, j);
    }
  }

  /** A key no element carries keeps its old entry, or stays absent. */
  lemma {:induction false} PutEachUntouched<A, K, V>(m: map<K, V>, xs: seq<A>, keyOf: A -> Option<K>, valOf: A -> V, k: K)
    requires forall i :: 0 <= i < |xs| ==> keyOf(xs[i]) != Some(k)
    ensures k in PutEach(m, xs, keyOf, valOf) <==> k in m
    ensures k in m ==> PutEach(m, xs, keyOf, valOf)[k] == m[k]
  {
    if xs != [] {
      PutEachUntouched(m, xs[..|xs| - 1], keyOf, valOf, k);
    }
  }

  /** Putting the entries of `xs + ys` is putting those of xs and then those of ys. */
  lemma {:induction false} PutEachAppend<A, K, V>(m: map<K, V>, xs: seq<A>, ys: seq<A>, keyOf: A -> Option<K>, valOf: A -> V)
    ensures PutEach(m, xs + ys, keyOf, valOf) == PutEach(PutEach(m, xs, keyOf, valOf), ys, keyOf, valOf)
  {
    if ys == [] {
      assert xs + ys == xs;
    } else {
      var n := |ys| - 1;
      assert (xs + ys)[..|xs + ys| - 1] == xs + ys[..n];
      assert (xs + ys)[|xs + ys| - 1] == ys[n];
      PutEachAppend(m, xs, ys[..n], keyOf, valOf);
    }
  }
}
