/** The list operations both optimistic lists are built from, over any row type
    with a string key (`row.id`): `filter` by key, `map` that swaps the rows of
    one key, and the count of rows with a key. */
module RowLists {

  /** `s.filter(x => !ids.has(key(x)))` */
  function Without<T>(s: seq<T>, key: T -> string, ids: set<string>): (r: seq<T>)
    ensures |r| <= |s|
    ensures forall x :: x in r ==> x in s && key(x) !in ids
    ensures forall x :: x in s && key(x) !in ids ==> x in r
  {
    if s == [] then []
    else (if key(s[0]) in ids then [] else [s[0]]) + Without(s[1..], key, ids)
  }

  /** `s.map(x => key(x) === id ? row : x)` */
  function Replace<T>(s: seq<T>, key: T -> string, id: string, row: T): (r: seq<T>)
    ensures |r| == |s|
    ensures forall i :: 0 <= i < |s| ==> r[i] == if key(s[i]) == id then row else s[i]
  {
    if s == [] then [] else [if key(s[0]) == id then row else s[0]] + Replace(s[1..], key, id, row)
  }

  /** The number of rows of `s` whose key is `k`. */
  function Count<T>(s: seq<T>, key: T -> string, k: string): nat
  {
    if s == [] then 0 else (if key(s[0]) == k then 1 else 0) + Count(s[1..], key, k)
  }

  lemma {:induction false} CountZero<T>(s: seq<T>, key: T -> string, k: string)
    ensures Count(s, key, k) == 0 <==> forall x :: x in s ==> key(x) != k
  {
    if s != [] {
      CountZero(s[1..], key, k);
      assert forall x :: x in s ==> x == s[0] || x in s[1..];
    }
  }

  lemma {:induction false} CountAppend<T>(a: seq<T>, b: seq<T>, key: T -> string, k: string)
    ensures Count(a + b, key, k) == Count(a, key, k) + Count(b, key, k)
  {
    if a == [] {
      assert a + b == b;
    } else {
      assert (a + b)[1..] == a[1..] + b;
      CountAppend(a[1..], b, key, k);
    }
  }

  /** Filtering distributes over concatenation, so the rows it keeps stay in
      their relative order. */
  lemma {:induction false} WithoutAppend<T>(a: seq<T>, b: seq<T>, key: T -> string, ids: set<string>)
    ensures Without(a + b, key, ids) == Without(a, key, ids) + Without(b, key, ids)
  {
    if a == [] {
      assert a + b == b;
    } else {
      assert (a + b)[1..] == a[1..] + b;
      WithoutAppend(a[1..], b, key, ids);
    }
  }

  /** Filtering a list with none of the keys gives the list back. */
  lemma {:induction false} WithoutAbsent<T>(s: seq<T>, key: T -> string, ids: set<string>)
    requires forall x :: x in s ==> key(x) !in ids
    ensures Without(s, key, ids) == s
  {
    if s != [] {
      assert forall x :: x in s[1..] ==> x in s;
      WithoutAbsent(s[1..], key, ids);
    }
  }

  /** Filtering twice by the same keys is filtering once. */
  lemma WithoutIdempotent<T>(s: seq<T>, key: T -> string, ids: set<string>)
    ensures Without(Without(s, key, ids), key, ids) == Without(s, key, ids)
  {
    WithoutAbsent(Without(s, key, ids), key, ids);
  }

  /** After the filter no row has a removed key; every other key keeps its count. */
  lemma {:induction false} CountWithout<T>(s: seq<T>, key: T -> string, ids: set<string>, k: string)
    ensures Count(Without(s, key, ids), key, k) == if k in ids then 0 else Count(s, key, k)
  {
    if s != [] {
      CountWithout(s[1..], key, ids, k);
      var head := if key(s[0]) in ids then [] else [s[0]];
      CountAppend(head, Without(s[1..], key, ids), key, k);
    }
  }

  /** After the swap, the swapped key is gone (unless the new row has it) and
      the new row's key gained one row per swapped row: duplicates are kept. */
  lemma {:induction false} CountReplace<T>(s: seq<T>, key: T -> string, id: string, row: T, k: string)
    ensures Count(Replace(s, key, id, row), key, k)
         == (if key(row) == k then Count(s, key, id) else 0) + (if k != id then Count(s, key, k) else 0)
  {
    if s != [] {
      CountReplace(s[1..], key, id, row, k);
      assert Replace(s, key, id, row)[1..] == Replace(s[1..], key, id, row);
    }
  }

  /** Swapping a key no row has changes nothing. */
  lemma ReplaceAbsent<T>(s: seq<T>, key: T -> string, id: string, row: T)
    requires forall x :: x in s ==> key(x) != id
    ensures Replace(s, key, id, row) == s
  {
    assert forall i :: 0 <= i < |s| ==> s[i] in s;
  }

  /** A revert right after an optimistic prepend with a key the list did not
      hold restores the list exactly. */
  lemma RevertAfterAdd<T>(s: seq<T>, key: T -> string, row: T)
    requires forall x :: x in s ==> key(x) != key(row)
    ensures Without([row] + s, key, {key(row)}) == s
  {
    assert ([row] + s)[1..] == s;
    WithoutAbsent(s, key, {key(row)});
  }

  /** A swap right after an optimistic prepend with a key the list did not hold
      puts the new row first, in front of the untouched old list. */
  lemma ReplaceAfterAdd<T>(s: seq<T>, key: T -> string, row: T, canonical: T)
    requires forall x :: x in s ==> key(x) != key(row)
    ensures Replace([row] + s, key, key(row), canonical) == [canonical] + s
  {
    ReplaceAbsent(s, key, key(row), canonical);
    assert Replace([row] + s, key, key(row), canonical)[1..] == Replace(s, key, key(row), canonical);
  }
}
