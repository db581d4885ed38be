/** Stable sorting and filtering of sequences.

    `Array.prototype.sort` with a comparator is stable, so every sort in the
    dashboards is modelled as a stable sort on a key taken from a total
    preorder: numbers ascending, then strings in `StrLe` order. A descending
    numeric sort (`(a, b) => b.x - a.x`) uses the key `Num(-x)`. */
module Sorting {
  import opened Text

  datatype Key = Num(x: real) | Str(s: string)

  predicate KeyLe(a: Key, b: Key)
  {
    match (a, b)
    case (Num(x), Num(y)) => x <= y
    case (Str(s), Str(t)) => StrLe(s, t)
    case (Num(_), Str(_)) => true
    case (Str(_), Num(_)) => false
  }

  /** Neither key sorts strictly before the other. */
  predicate KeyEquiv(a: Key, b: Key)
  {
    KeyLe(a, b) && KeyLe(b, a)
  }

  lemma KeyLeTotal(a: Key, b: Key)
    ensures KeyLe(a, b) || KeyLe(b, a)
  {
    if a.Str? && b.Str? {
      StrLeTotal(a.s, b.s);
    }
  }

  lemma KeyLeTransitive(a: Key, b: Key, c: Key)
    requires KeyLe(a, b) && KeyLe(b, c)
    ensures KeyLe(a, c)
  {
    if a.Str? && b.Str? && c.Str? {
      StrLeTransitive(a.s, b.s, c.s);
    }
  }

  predicate SortedBy<T>(s: seq<T>, key: T -> Key)
  {
    forall i, j :: 0 <= i < j < |s| ==> KeyLe(key(s[i]), key(s[j]))
  }

  function Filter<T>(s: seq<T>, p: T -> bool): (r: seq<T>)
    ensures |r| <= |s|
    ensures forall i :: 0 <= i < |r| ==> p(r[i]) && r[i] in s
    ensures forall i :: 0 <= i < |s| && p(s[i]) ==> s[i] in r
  {
    if |s| == 0 then []
    else Filter(s[..|s| - 1], p) + (if p(s[|s| - 1]) then [s[|s| - 1]] else [])
  }

  lemma {:induction false} FilterAppend<T>(s: seq<T>, t: seq<T>, p: T -> bool)
    ensures Filter(s + t, p) == Filter(s, p) + Filter(t, p)
    decreases |t|
  {
    if |t| == 0 {
      assert s + t == s;
    } else {
      assert (s + t)[..|s + t| - 1] == s + t[..|t| - 1];
      FilterAppend(s, t[..|t| - 1], p);
    }
  }

  /** Insert `x` into `s` after the last element whose key is not strictly
      greater, which keeps equal keys in arrival order. */
  function Insert<T(==)>(s: seq<T>, x: T, key: T -> Key): (r: seq<T>)
    ensures multiset(r) == multiset(s) + multiset{x}
    ensures |r| == |s| + 1
  {
    if |s| == 0 then [x]
    else if KeyLe(key(s[|s| - 1]), key(x)) then s + [x]
    else
      assert s == s[..|s| - 1] + [s[|s| - 1]];
      Insert(s[..|s| - 1], x, key) + [s[|s| - 1]]
  }

  /** Inserting into a sorted sequence keeps it sorted. */
  lemma {:induction false} InsertSorted<T>(s: seq<T>, x: T, key: T -> Key)
    requires SortedBy(s, key)
    ensures SortedBy(Insert(s, x, key), key)
  {
    if |s| > 0 {
      var last, init := s[|s| - 1], s[..|s| - 1];
      if KeyLe(key(last), key(x)) {
        forall i | 0 <= i < |s| ensures KeyLe(key(s[i]), key(x)) {
          if i < |s| - 1 {
            KeyLeTransitive(key(s[i]), key(last), key(x));
          }
        }
      } else {
        KeyLeTotal(key(last), key(x));
        InsertSorted(init, x, key);
        var r := Insert(init, x, key) + [last];
        forall i | 0 <= i < |r| - 1 ensures KeyLe(key(r[i]), key(last)) {
          assert r[i] in multiset(init) + multiset{x};
          if r[i] != x {
            var k :| 0 <= k < |init| && init[k] == r[i];
            assert s[k] == init[k];
          }
        }
      }
    }
  }

  /** Stable insertion sort: `Array.prototype.sort` with a consistent
      comparator. */
  function SortStable<T(==)>(s: seq<T>, key: T -> Key): (r: seq<T>)
    ensures multiset(r) == multiset(s)
    ensures |r| == |s|
  {
    if |s| == 0 then []
    else
      assert s == s[..|s| - 1] + [s[|s| - 1]];
      Insert(SortStable(s[..|s| - 1], key), s[|s| - 1], key)
  }

  lemma {:induction false} SortStableSorted<T>(s: seq<T>, key: T -> Key)
    ensures SortedBy(SortStable(s, key), key)
  {
    if |s| > 0 {
      SortStableSorted(s[..|s| - 1], key);
      InsertSorted(SortStable(s[..|s| - 1], key), s[|s| - 1], key);
    }
  }

  /** The elements whose key is equivalent to `k`, in order. */
  function Tied<T>(s: seq<T>, key: T -> Key, k: Key): seq<T>
  {
    if |s| == 0 then []
    else Tied(s[..|s| - 1], key, k) + (if KeyEquiv(key(s[|s| - 1]), k) then [s[|s| - 1]] else [])
  }

  lemma {:induction false} TiedAppend<T>(s: seq<T>, t: seq<T>, key: T -> Key, k: Key)
    ensures Tied(s + t, key, k) == Tied(s, key, k) + Tied(t, key, k)
    decreases |t|
  {
    if |t| == 0 {
      assert s + t == s;
    } else {
      assert (s + t)[..|s + t| - 1] == s + t[..|t| - 1];
      TiedAppend(s, t[..|t| - 1], key, k);
    }
  }

  lemma TiedSingleton<T>(x: T, key: T -> Key, k: Key)
    ensures Tied([x], key, k) == if KeyEquiv(key(x), k) then [x] else []
  {
    assert [x][..0] == [];
  }

  lemma {:induction false} InsertKeepsTies<T>(s: seq<T>, x: T, key: T -> Key, k: Key)
    ensures Tied(Insert(s, x, key), key, k)
         == Tied(s, key, k) + (if KeyEquiv(key(x), k) then [x] else [])
  {
    TiedSingleton(x, key, k);
    if |s| > 0 {
      var last, init := s[|s| - 1], s[..|s| - 1];
      if KeyLe(key(last), key(x)) {
        TiedAppend(s, [x], key, k);
      } else {
        InsertKeepsTies(init, x, key, k);
        InsertBeforeLastKeepsTies(s, x, key, k);
      }
    }
  }

  /** The step of `InsertKeepsTies` where `x` is inserted before the last
      element of `s`. */
  lemma InsertBeforeLastKeepsTies<T>(s: seq<T>, x: T, key: T -> Key, k: Key)
    requires |s| > 0
    requires !KeyLe(key(s[|s| - 1]), key(x))
    requires Tied(Insert(s[..|s| - 1], x, key), key, k)
          == Tied(s[..|s| - 1], key, k) + (if KeyEquiv(key(x), k) then [x] else [])
    ensures Tied(Insert(s, x, key), key, k)
         == Tied(s, key, k) + (if KeyEquiv(key(x), k) then [x] else [])
  {
    var last, init := s[|s| - 1], s[..|s| - 1];
    var mid := Insert(init, x, key);
    var ex := if KeyEquiv(key(x), k) then [x] else [];
    var tl := if KeyEquiv(key(last), k) then [last] else [];
    var before := Tied(init, key, k);
    assert Tied(Insert(s, x, key), key, k) == before + ex + tl by {
      InsertAfterLast(s, x, key);
      TiedAppend(mid, [last], key, k);
      TiedSingleton(last, key, k);
    }
    assert Tied(s, key, k) == before + tl;
    assert ex == [] || tl == [] by {
      if KeyEquiv(key(x), k) && KeyEquiv(key(last), k) {
        // `last` sorts strictly after `x`, so both cannot be tied with `k`.
        KeyLeTransitive(key(last), k, key(x));
      }
    }
    AppendCommutesWithEmpty(Tied(Insert(s, x, key), key, k), Tied(s, key, k), ex, tl, before);
  }

  lemma AppendCommutesWithEmpty<T>(a: seq<T>, b: seq<T>, ex: seq<T>, tl: seq<T>, before: seq<T>)
    requires a == before + ex + tl && b == before + tl
    requires ex == [] || tl == []
    ensures a == b + ex
  {
    if ex == [] {
      assert before + ex == before;
    } else {
      assert before + ex + tl == before + ex;
      assert before + tl == before;
    }
  }

  lemma InsertAfterLast<T>(s: seq<T>, x: T, key: T -> Key)
    requires |s| > 0
    requires !KeyLe(key(s[|s| - 1]), key(x))
    ensures Insert(s, x, key) == Insert(s[..|s| - 1], x, key) + [s[|s| - 1]]
  {
  }

  /** Stability: among elements with equivalent keys, the sorted output keeps
      the input order. */
  lemma {:induction false} SortStableKeepsTies<T>(s: seq<T>, key: T -> Key, k: Key)
    ensures Tied(SortStable(s, key), key, k) == Tied(s, key, k)
  {
    if |s| > 0 {
      var init, x := s[..|s| - 1], s[|s| - 1];
      SortStableKeepsTies(init, key, k);
      InsertKeepsTies(SortStable(init, key), x, key, k);
    }
  }

  /** `Array.prototype.slice(0, limit)`. */
  function Take<T>(s: seq<T>, limit: nat): (r: seq<T>)
    ensures |r| == if limit < |s| then limit else |s|
    ensures r == s[..|r|]
  {
    if limit < |s| then s[..limit] else s
  }

  /** The total of a natural-number field over a sequence. */
  function SumBy<T>(s: seq<T>, f: T -> nat): nat
  {
    if |s| == 0 then 0 else SumBy(s[..|s| - 1], f) + f(s[|s| - 1])
  }

  lemma {:induction false} SumByAppend<T>(s: seq<T>, t: seq<T>, f: T -> nat)
    ensures SumBy(s + t, f) == SumBy(s, f) + SumBy(t, f)
    decreases |t|
  {
    if |t| == 0 {
      assert s + t == s;
    } else {
      assert (s + t)[..|s + t| - 1] == s + t[..|t| - 1];
      SumByAppend(s, t[..|t| - 1], f);
    }
  }

  /** Reordering does not change a total, so a sort keeps every sum. */
  lemma {:induction false} SumByPermutation<T>(a: seq<T>, b: seq<T>, f: T -> nat)
    requires multiset(a) == multiset(b)
    ensures SumBy(a, f) == SumBy(b, f)
    decreases |a|
  {
    if |a| == 0 {
      assert |b| == |multiset(b)| == 0;
    } else {
      var init, x := a[..|a| - 1], a[|a| - 1];
      assert a == init + [x];
      assert multiset(a) == multiset(init) + multiset{x};
      assert x in multiset(b);
      var k :| 0 <= k < |b| && b[k] == x;
      var rest := b[..k] + b[k + 1..];
      RemoveAtMultiset(b, k);
      SumByPermutation(init, rest, f);
      SumByRemoveAt(b, k, f);
    }
  }

  /** Deleting position `k` removes one copy of `b[k]`. */
  lemma RemoveAtMultiset<T>(b: seq<T>, k: nat)
    requires k < |b|
    ensures multiset(b[..k] + b[k + 1..]) == multiset(b) - multiset{b[k]}
  {
    assert b == b[..k] + [b[k]] + b[k + 1..];
  }

  /** Deleting position `k` lowers a total by that element's share. */
  lemma SumByRemoveAt<T>(b: seq<T>, k: nat, f: T -> nat)
    requires k < |b|
    ensures SumBy(b, f) == SumBy(b[..k] + b[k + 1..], f) + f(b[k])
  {
    var p, x, q := b[..k], b[k], b[k + 1..];
    var px := b[..k + 1];
    assert b == px + q;
    SumByAppend(px, q, f);
    assert px[..k] == p;
    SumByAppend(p, q, f);
  }

  /** `ks.map(f)`. */
  function MapSeq<K, T>(ks: seq<K>, f: K -> T): (r: seq<T>)
    ensures |r| == |ks|
    ensures forall i :: 0 <= i < |ks| ==> r[i] == f(ks[i])
  {
    if |ks| == 0 then [] else MapSeq(ks[..|ks| - 1], f) + [f(ks[|ks| - 1])]
  }

  /** A sequence without repeated elements holds each value at most once. */
  lemma {:induction false} NoRepeatCount<T>(s: seq<T>, x: T)
    requires forall i, j :: 0 <= i < j < |s| ==> s[i] != s[j]
    ensures multiset(s)[x] <= 1
  {
    if |s| > 0 {
      var init := s[..|s| - 1];
      NoRepeatCount(init, x);
      assert s == init + [s[|s| - 1]];
      if s[|s| - 1] == x {
        assert x !in init;
      }
    }
  }

  /** A value at two positions occurs at least twice. */
  lemma RepeatCount<T>(s: seq<T>, i: nat, j: nat)
    requires i < j < |s| && s[i] == s[j]
    ensures multiset(s)[s[i]] >= 2
  {
    var a, b := s[..j], s[j..];
    assert s == a + b;
    assert s[i] in a && s[j] in b;
  }
}
