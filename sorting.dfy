/** The stable sort `Array.prototype.sort` performs with a comparator of the form
    `(key(a) - key(b)) * sign`. A stable sort's output is determined by the comparator
    alone, so it is written here as an insertion sort on sequences. */
module Sorting {

  /** The comparator: negative puts `a` first, positive puts `b` first, zero keeps
      their order. `desc` flips the sign. */
  function Cmp(ka: real, kb: real, desc: bool): real
  {
    (ka - kb) * (if desc then -1.0 else 1.0)
  }

  /** Every earlier element is allowed before every later one by the comparator. */
  ghost predicate Ordered<T>(s: seq<T>, key: T -> real, desc: bool)
  {
    forall i, j :: 0 <= i < j < |s| ==> Cmp(key(s[i]), key(s[j]), desc) <= 0.0
  }

  /** The elements of `s` whose key is `k`, in their order in `s`. */
  function WithKey<T>(s: seq<T>, key: T -> real, k: real): seq<T>
  {
    if s == [] then []
    else (if key(s[0]) == k then [s[0]] else []) + WithKey(s[1..], key, k)
  }

  /** Puts `x` after every element the comparator does not place after it. */
  function Insert<T>(x: T, s: seq<T>, key: T -> real, desc: bool): seq<T>
  {
    if s == [] then [x]
    else if Cmp(key(x), key(s[0]), desc) < 0.0 then [x] + s
    else [s[0]] + Insert(x, s[1..], key, desc)
  }

  function SortBy<T>(s: seq<T>, key: T -> real, desc: bool): seq<T>
  {
    if s == [] then [] else Insert(s[|s| - 1], SortBy(s[..|s| - 1], key, desc), key, desc)
  }

  lemma {:induction false} InsertPermutes<T>(x: T, s: seq<T>, key: T -> real, desc: bool)
    ensures multiset(Insert(x, s, key, desc)) == multiset(s) + multiset{x}
  {
    if s != [] && Cmp(key(x), key(s[0]), desc) >= 0.0 {
      InsertPermutes(x, s[1..], key, desc);
      assert s == [s[0]] + s[1..];
    }
  }

  lemma {:induction false} InsertOrdered<T>(x: T, s: seq<T>, key: T -> real, desc: bool)
    requires Ordered(s, key, desc)
    ensures Ordered(Insert(x, s, key, desc), key, desc)
  {
    if s != [] && Cmp(key(x), key(s[0]), desc) >= 0.0 {
      var rest := Insert(x, s[1..], key, desc);
      InsertOrdered(x, s[1..], key, desc);
      InsertPermutes(x, s[1..], key, desc);
      forall j | 0 <= j < |rest| ensures Cmp(key(s[0]), key(rest[j]), desc) <= 0.0 {
        assert rest[j] in multiset(rest);
        if rest[j] != x {
          assert rest[j] in multiset(s[1..]);
          var m :| 0 <= m < |s[1..]| && s[1..][m] == rest[j];
          assert s[1 + m] == rest[j];
        }
      }
    }
  }

  /** Sorting yields a permutation of the input. */
  lemma {:induction false} SortByPermutes<T>(s: seq<T>, key: T -> real, desc: bool)
    ensures multiset(SortBy(s, key, desc)) == multiset(s)
  {
    if s != [] {
      var init := s[..|s| - 1];
      SortByPermutes(init, key, desc);
      InsertPermutes(s[|s| - 1], SortBy(init, key, desc), key, desc);
      assert s == init + [s[|s| - 1]];
    }
  }

  /** Sorting yields a sequence ordered by the comparator. */
  lemma {:induction false} SortByOrdered<T>(s: seq<T>, key: T -> real, desc: bool)
    ensures Ordered(SortBy(s, key, desc), key, desc)
  {
    if s != [] {
      SortByOrdered(s[..|s| - 1], key, desc);
      InsertOrdered(s[|s| - 1], SortBy(s[..|s| - 1], key, desc), key, desc);
    }
  }

  lemma {:induction false} WithKeyAppend<T>(a: seq<T>, b: seq<T>, key: T -> real, k: real)
    ensures WithKey(a + b, key, k) == WithKey(a, key, k) + WithKey(b, key, k)
  {
    if a != [] {
      WithKeyAppend(a[1..], b, key, k);
      assert (a + b)[1..] == a[1..] + b;
    } else {
      assert a + b == b;
    }
  }

  lemma {:induction false} WithKeyNone<T>(s: seq<T>, key: T -> real, k: real)
    requires forall i :: 0 <= i < |s| ==> key(s[i]) != k
    ensures WithKey(s, key, k) == []
  {
    if s != [] {
      WithKeyNone(s[1..], key, k);
    }
  }

  lemma {:induction false} WithKeyAll<T>(s: seq<T>, key: T -> real, k: real)
    requires forall i :: 0 <= i < |s| ==> key(s[i]) == k
    ensures WithKey(s, key, k) == s
  {
    if s != [] {
      WithKeyAll(s[1..], key, k);
    }
  }

  /** Inserting into an ordered sequence puts `x` after every element with its key. */
  lemma {:induction false} InsertStable<T>(x: T, s: seq<T>, key: T -> real, desc: bool, k: real)
    requires Ordered(s, key, desc)
    ensures WithKey(Insert(x, s, key, desc), key, k)
         == WithKey(s, key, k) + (if key(x) == k then [x] else [])
  {
    if s == [] {
    } else if Cmp(key(x), key(s[0]), desc) < 0.0 {
      if key(x) == k {
        forall i | 0 <= i < |s| ensures key(s[i]) != k {
          assert i == 0 || Cmp(key(s[0]), key(s[i]), desc) <= 0.0;
        }
        WithKeyNone(s, key, k);
      }
    } else {
      OrderedTail(s, key, desc);
      InsertStable(x, s[1..], key, desc, k);
      var rest := Insert(x, s[1..], key, desc);
      assert Insert(x, s, key, desc) == [s[0]] + rest;
      WithKeyAppend([s[0]], rest, key, k);
      assert s == [s[0]] + s[1..];
      WithKeyAppend([s[0]], s[1..], key, k);
    }
  }

  lemma OrderedTail<T>(s: seq<T>, key: T -> real, desc: bool)
    requires s != [] && Ordered(s, key, desc)
    ensures Ordered(s[1..], key, desc)
  {
    forall i, j | 0 <= i < j < |s[1..]|
      ensures Cmp(key(s[1..][i]), key(s[1..][j]), desc) <= 0.0
    {
      assert s[1..][i] == s[i + 1] && s[1..][j] == s[j + 1];
    }
  }

  /** Sorting is stable: the elements sharing any one key keep their relative order. */
  lemma {:induction false} SortByStable<T>(s: seq<T>, key: T -> real, desc: bool, k: real)
    ensures WithKey(SortBy(s, key, desc), key, k) == WithKey(s, key, k)
  {
    if s != [] {
      var init, last := s[..|s| - 1], s[|s| - 1];
      SortByStable(init, key, desc, k);
      SortByOrdered(init, key, desc);
      InsertStable(last, SortBy(init, key, desc), key, desc, k);
      assert s == init + [last];
      WithKeyAppend(init, [last], key, k);
    }
  }

  /** With one key for every element, sorting leaves the sequence as it is. */
  lemma {:induction false} SortByConstantKey<T>(s: seq<T>, key: T -> real, desc: bool, k: real)
    requires forall i :: 0 <= i < |s| ==> key(s[i]) == k
    ensures SortBy(s, key, desc) == s
  {
    var out := SortBy(s, key, desc);
    SortByPermutes(s, key, desc);
    forall i | 0 <= i < |out| ensures key(out[i]) == k {
      assert out[i] in multiset(s);
    }
    SortByStable(s, key, desc, k);
    WithKeyAll(s, key, k);
    WithKeyAll(out, key, k);
  }
}
