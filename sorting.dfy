/**
 * Descending sort by a numeric key, standing in for `Array.prototype.sort`
 * called with a comparator `(a, b) => key(b) - key(a)`. Only what that call
 * promises is relied on: the result is ordered by the key, non-increasing,
 * and is a permutation of the input. Ties are not constrained.
 */
module Sorting {

  /** Keys never increase from left to right. */
  predicate SortedDesc<T>(s: seq<T>, key: T -> real) {
    forall i, j :: 0 <= i < j < |s| ==> key(s[i]) >= key(s[j])
  }

  /** Inserts `x` before the first element whose key is not above its own. */
  function Insert<T>(x: T, s: seq<T>, key: T -> real): seq<T> {
    if s == [] || key(x) >= key(s[0]) then [x] + s else [s[0]] + Insert(x, s[1..], key)
  }

  /** Inserting adds exactly one occurrence of `x`. */
  lemma {:induction false} InsertAdds<T>(x: T, s: seq<T>, key: T -> real)
    ensures multiset(Insert(x, s, key)) == multiset(s) + multiset{x}
    ensures |Insert(x, s, key)| == |s| + 1
  {
    if s != [] && key(x) < key(s[0]) {
      InsertAdds(x, s[1..], key);
      assert s == [s[0]] + s[1..];
    }
  }

  /** The first element after inserting is `x` or the old first element. */
  lemma InsertHead<T>(x: T, s: seq<T>, key: T -> real)
    ensures Insert(x, s, key) != []
    ensures Insert(x, s, key)[0] == x || (s != [] && Insert(x, s, key)[0] == s[0])
  {
  }

  /** Inserting into an ordered sequence keeps it ordered. */
  lemma {:induction false} InsertOrdered<T>(x: T, s: seq<T>, key: T -> real)
    requires SortedDesc(s, key)
    ensures SortedDesc(Insert(x, s, key), key)
  {
    if s == [] || key(x) >= key(s[0]) {
      var r := [x] + s;
      forall i, j | 0 <= i < j < |r| ensures key(r[i]) >= key(r[j]) {
        if i == 0 && j > 1 {
          assert key(s[0]) >= key(s[j - 1]);
        }
      }
    } else {
      var tail := s[1..];
      assert SortedDesc(tail, key) by {
        forall i, j | 0 <= i < j < |tail| ensures key(tail[i]) >= key(tail[j]) {
          assert tail[i] == s[i + 1] && tail[j] == s[j + 1];
        }
      }
      InsertOrdered(x, tail, key);
      InsertHead(x, tail, key);
      var rest := Insert(x, tail, key);
      assert key(s[0]) >= key(rest[0]) by {
        if rest[0] != x {
          assert rest[0] == s[1];
        }
      }
      var r := [s[0]] + rest;
      forall i, j | 0 <= i < j < |r| ensures key(r[i]) >= key(r[j]) {
        if i == 0 && j > 1 {
          assert key(rest[0]) >= key(rest[j - 1]);
        }
      }
    }
  }

  /** Insertion sort, descending by `key`. */
  function SortDesc<T>(s: seq<T>, key: T -> real): (r: seq<T>)
    ensures SortedDesc(r, key)
    ensures multiset(r) == multiset(s)
    ensures |r| == |s|
  {
    if s == [] then
      []
    else
      var sorted := SortDesc(s[1..], key);
      InsertOrdered(s[0], sorted, key);
      InsertAdds(s[0], sorted, key);
      assert s == [s[0]] + s[1..];
      Insert(s[0], sorted, key)
  }

  /** The sum of the keys of all elements. */
  function SumBy<T>(s: seq<T>, key: T -> real): real {
    if s == [] then 0.0 else key(s[0]) + SumBy(s[1..], key)
  }

  lemma {:induction false} SumByConcat<T>(a: seq<T>, b: seq<T>, key: T -> real)
    ensures SumBy(a + b, key) == SumBy(a, key) + SumBy(b, key)
  {
    if a != [] {
      assert (a + b)[1..] == a[1..] + b;
      SumByConcat(a[1..], b, key);
    } else {
      assert a + b == b;
    }
  }

  lemma SplitAt<T>(t: seq<T>, j: nat)
    requires j < |t|
    ensures t == t[..j] + ([t[j]] + t[j + 1..])
  {
  }

  /** Removing the element at `j` removes one occurrence of it. */
  lemma RemoveAt<T>(t: seq<T>, j: nat)
    requires j < |t|
    ensures multiset(t[..j] + t[j + 1..]) == multiset(t) - multiset{t[j]}
  {
    assert t == t[..j] + [t[j]] + t[j + 1..];
  }

  /** Reordering a sequence does not change the sum of its keys. */
  lemma {:induction false} SumByPermutation<T>(s: seq<T>, t: seq<T>, key: T -> real)
    requires multiset(s) == multiset(t)
    ensures SumBy(s, key) == SumBy(t, key)
  {
    if s == [] {
      assert |t| == |multiset(t)| == 0;
    } else {
      var x, tail := s[0], s[1..];
      assert s == [x] + tail;
      assert x in multiset(t);
      var j :| 0 <= j < |t| && t[j] == x;
      var rest := t[..j] + t[j + 1..];
      RemoveAt(t, j);
      RemoveHead(s);
      SumByPermutation(tail, rest, key);
      SumByRemove(t, j, key);
    }
  }

  /** Taking one element out of a sequence takes its key out of the sum. */
  lemma SumByRemove<T>(t: seq<T>, j: nat, key: T -> real)
    requires j < |t|
    ensures SumBy(t, key) == SumBy(t[..j] + t[j + 1..], key) + key(t[j])
  {
    var left, right := t[..j], t[j + 1..];
    calc {
      SumBy(t, key);
      { SplitAt(t, j); }
      SumBy(left + ([t[j]] + right), key);
      { SumByConcat(left, [t[j]] + right, key); }
      SumBy(left, key) + SumBy([t[j]] + right, key);
      { SumByCons(t[j], right, key); }
      SumBy(left, key) + SumBy(right, key) + key(t[j]);
      { SumByConcat(left, right, key); }
      SumBy(left + right, key) + key(t[j]);
    }
  }

  lemma SumByCons<T>(x: T, s: seq<T>, key: T -> real)
    ensures SumBy([x] + s, key) == key(x) + SumBy(s, key)
  {
    assert ([x] + s)[1..] == s;
  }

  /** Applies `f` to every element. */
  function MapSeq<T, U>(s: seq<T>, f: T -> U): (r: seq<U>)
    ensures |r| == |s|
  {
    if s == [] then [] else [f(s[0])] + MapSeq(s[1..], f)
  }

  /** Mapping two permutations of each other gives two permutations of each other. */
  lemma {:induction false} MapSeqPermutation<T, U>(s: seq<T>, t: seq<T>, f: T -> U)
    requires multiset(s) == multiset(t)
    ensures multiset(MapSeq(s, f)) == multiset(MapSeq(t, f))
  {
    if s == [] {
      assert |t| == |multiset(t)| == 0;
    } else {
      var x, tail := s[0], s[1..];
      assert s == [x] + tail;
      assert x in multiset(t);
      var j :| 0 <= j < |t| && t[j] == x;
      var rest := t[..j] + t[j + 1..];
      RemoveAt(t, j);
      RemoveHead(s);
      MapSeqPermutation(tail, rest, f);
      MapSeqRemove(t, j, f);
      MapSeqCons(x, tail, f);
    }
  }

  /** Removing the head removes one occurrence of it. */
  lemma RemoveHead<T>(s: seq<T>)
    requires s != []
    ensures multiset(s[1..]) == multiset(s) - multiset{s[0]}
  {
    assert s == [s[0]] + s[1..];
  }

  lemma MapSeqCons<T, U>(x: T, s: seq<T>, f: T -> U)
    ensures multiset(MapSeq([x] + s, f)) == multiset(MapSeq(s, f)) + multiset{f(x)}
  {
    assert ([x] + s)[1..] == s;
  }

  /** Taking one element out of a sequence takes its image out of the mapped sequence. */
  lemma MapSeqRemove<T, U>(t: seq<T>, j: nat, f: T -> U)
    requires j < |t|
    ensures multiset(MapSeq(t, f)) == multiset(MapSeq(t[..j] + t[j + 1..], f)) + multiset{f(t[j])}
  {
    MapSeqSplit(t, j, f);
    MapSeqConcat(t[..j], t[j + 1..], f);
  }

  lemma MapSeqSplit<T, U>(t: seq<T>, j: nat, f: T -> U)
    requires j < |t|
    ensures MapSeq(t, f) == MapSeq(t[..j], f) + ([f(t[j])] + MapSeq(t[j + 1..], f))
  {
    SplitAt(t, j);
    MapSeqConcat(t[..j], [t[j]] + t[j + 1..], f);
    assert ([t[j]] + t[j + 1..])[1..] == t[j + 1..];
  }

  lemma {:induction false} MapSeqConcat<T, U>(a: seq<T>, b: seq<T>, f: T -> U)
    ensures MapSeq(a + b, f) == MapSeq(a, f) + MapSeq(b, f)
  {
    if a == [] {
      assert a + b == b;
    } else {
      assert (a + b)[1..] == a[1..] + b;
      MapSeqConcat(a[1..], b, f);
    }
  }

  /** Every element of a mapped sequence is the image of an element of the original. */
  lemma {:induction false} MapSeqPreimage<T, U>(s: seq<T>, f: T -> U, y: U)
    requires y in MapSeq(s, f)
    ensures exists x :: x in s && f(x) == y
  {
    if f(s[0]) != y {
      assert y in MapSeq(s[1..], f);
      MapSeqPreimage(s[1..], f, y);
      var x :| x in s[1..] && f(x) == y;
      assert x in s;
    }
  }
}
