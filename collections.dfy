/** Sequence operations that stand for Python's list comprehensions with a filter
    and for SQL's `WHERE` and `ORDER BY … DESC` over a table kept in row order. */
module Collections {

  /** A value that may be absent, like Python's `None`. */
  datatype Option<T> = None | Some(value: T)

  /** `[x for x in s if p(x)]`: keeps, in order, the elements that satisfy `p`. */
  function Filter<T>(s: seq<T>, p: T -> bool): (r: seq<T>)
    ensures |r| <= |s|
    ensures forall i :: 0 <= i < |r| ==> p(r[i]) && r[i] in s
    ensures forall i :: 0 <= i < |s| && p(s[i]) ==> s[i] in r
    decreases |s|
  {
    if |s| == 0 then []
    else Filter(s[..|s| - 1], p) + (if p(s[|s| - 1]) then [s[|s| - 1]] else [])
  }

  /** Filtering a list that ends with a new element filters the old list and then
      tests the new element. */
  lemma {:induction false} FilterSnoc<T>(s: seq<T>, x: T, p: T -> bool)
    ensures Filter(s + [x], p) == Filter(s, p) + (if p(x) then [x] else [])
  {
    assert (s + [x])[..|s + [x]| - 1] == s;
  }

  /** Filtering distributes over concatenation, so it keeps the input's order. */
  lemma {:induction false} FilterAppend<T>(a: seq<T>, b: seq<T>, p: T -> bool)
    ensures Filter(a + b, p) == Filter(a, p) + Filter(b, p)
    decreases |b|
  {
    if |b| > 0 {
      var b' := b[..|b| - 1];
      assert (a + b)[..|a + b| - 1] == a + b';
      FilterAppend(a, b', p);
    } else {
      assert a + b == a;
    }
  }

  /** Filtering keeps everything exactly when every element passes. */
  lemma {:induction false} FilterAll<T>(s: seq<T>, p: T -> bool)
    requires forall i :: 0 <= i < |s| ==> p(s[i])
    ensures Filter(s, p) == s
    decreases |s|
  {
    if |s| > 0 {
      FilterAll(s[..|s| - 1], p);
      assert s[..|s| - 1] + [s[|s| - 1]] == s;
    }
  }

  /** Filtering removes exactly the elements that fail the test: the two parts
      partition the input, so their sizes add up. */
  lemma {:induction false} FilterPartition<T>(s: seq<T>, p: T -> bool, q: T -> bool)
    requires forall x :: q(x) == !p(x)
    ensures |Filter(s, p)| + |Filter(s, q)| == |s|
    decreases |s|
  {
    if |s| > 0 {
      FilterPartition(s[..|s| - 1], p, q);
    }
  }

  /** Filtering keeps nothing when no element passes. */
  lemma {:induction false} FilterNone<T>(s: seq<T>, p: T -> bool)
    requires forall i :: 0 <= i < |s| ==> !p(s[i])
    ensures Filter(s, p) == []
    decreases |s|
  {
    if |s| > 0 {
      FilterNone(s[..|s| - 1], p);
    }
  }

  /** `[f(x) for x in s]`. */
  function Map<T, U>(s: seq<T>, f: T -> U): (r: seq<U>)
    ensures |r| == |s|
    ensures forall i :: 0 <= i < |s| ==> r[i] == f(s[i])
  {
    seq(|s|, i requires 0 <= i < |s| => f(s[i]))
  }

  /** Mapping over a list that ends with a new element maps the old list and
      then the new element. */
  lemma MapSnoc<T, U>(s: seq<T>, x: T, f: T -> U)
    ensures Map(s + [x], f) == Map(s, f) + [f(x)]
  {
  }

  /** How many of the indices `0 .. n-1` satisfy `p`. */
  function CountBelow(n: nat, p: nat -> bool): (r: nat)
    ensures r <= n
    ensures n > 0 && !p(n - 1) ==> r <= n - 1
  {
    if n == 0 then 0 else CountBelow(n - 1, p) + (if p(n - 1) then 1 else 0)
  }

  /** An entry of a Python `dict` kept in insertion order. */
  datatype Entry<K, V> = Entry(key: K, value: V)

  predicate UniqueKeys<K(==), V>(s: seq<Entry<K, V>>) {
    forall i, j :: 0 <= i < j < |s| ==> s[i].key != s[j].key
  }

  /** `d.get(k)`: the value of the first entry with key `k`. */
  function Get<K(==), V>(s: seq<Entry<K, V>>, k: K): (r: Option<V>)
    ensures r.Some? ==> Entry(k, r.value) in s
    ensures r.None? <==> forall i :: 0 <= i < |s| ==> s[i].key != k
  {
    if |s| == 0 then None
    else if s[0].key == k then Some(s[0].value)
    else Get(s[1..], k)
  }

  /** `d[k] = v`: replaces the value in place when `k` is present, otherwise
      appends a new entry at the end. */
  function Put<K(==), V>(s: seq<Entry<K, V>>, k: K, v: V): (r: seq<Entry<K, V>>)
    ensures |r| == if Get(s, k).Some? then |s| else |s| + 1
    ensures forall i :: 0 <= i < |s| ==> r[i].key == s[i].key
    ensures forall i :: 0 <= i < |s| && s[i].key != k ==> r[i] == s[i]
    ensures Get(s, k).None? ==> r[|s|] == Entry(k, v)
  {
    if |s| == 0 then [Entry(k, v)]
    else if s[0].key == k then [Entry(k, v)] + s[1..]
    else [s[0]] + Put(s[1..], k, v)
  }

  /** Assigning a key the dictionary does not hold appends one entry. */
  lemma {:induction false} PutNew<K, V>(s: seq<Entry<K, V>>, k: K, v: V)
    requires forall i :: 0 <= i < |s| ==> s[i].key != k
    ensures Put(s, k, v) == s + [Entry(k, v)]
    decreases |s|
  {
    if |s| > 0 {
      PutNew(s[1..], k, v);
      assert s == [s[0]] + s[1..];
    }
  }

  /** Assigning into a dictionary keeps its keys unique. */
  lemma PutUnique<K, V>(s: seq<Entry<K, V>>, k: K, v: V)
    requires UniqueKeys(s)
    ensures UniqueKeys(Put(s, k, v))
  {
    var r := Put(s, k, v);
    forall a, b | 0 <= a < b < |r| ensures r[a].key != r[b].key {
      assert r[a].key == s[a].key;
      if b < |s| {
        assert r[b].key == s[b].key;
      } else {
        assert Get(s, k).None?;
        assert r[b] == Entry(k, v);
      }
    }
  }

  /** After `d[k] = v`, looking `k` up gives `v`. */
  lemma {:induction false} GetPutSame<K, V>(s: seq<Entry<K, V>>, k: K, v: V)
    ensures Get(Put(s, k, v), k) == Some(v)
    decreases |s|
  {
    if |s| > 0 && s[0].key != k {
      GetPutSame(s[1..], k, v);
    }
  }

  /** The dictionary built by assigning the entries of `s` in order. */
  function Assign<K(==), V>(s: seq<Entry<K, V>>): (r: seq<Entry<K, V>>)
    ensures |r| <= |s|
    decreases |s|
  {
    if |s| == 0 then [] else Put(Assign(s[..|s| - 1]), s[|s| - 1].key, s[|s| - 1].value)
  }

  /** A dictionary never holds a key twice. */
  lemma {:induction false} AssignUniqueKeys<K, V>(s: seq<Entry<K, V>>)
    ensures UniqueKeys(Assign(s))
    decreases |s|
  {
    if |s| > 0 {
      AssignUniqueKeys(s[..|s| - 1]);
      PutUnique(Assign(s[..|s| - 1]), s[|s| - 1].key, s[|s| - 1].value);
    }
  }

  /** Assigning entries whose keys are all distinct keeps every entry, in order. */
  lemma {:induction false} AssignDistinct<K, V>(s: seq<Entry<K, V>>)
    requires UniqueKeys(s)
    ensures Assign(s) == s
    decreases |s|
  {
    if |s| > 0 {
      var init, last := s[..|s| - 1], s[|s| - 1];
      assert UniqueKeys(init) by {
        forall i, j | 0 <= i < j < |init| ensures init[i].key != init[j].key {
          assert init[i] == s[i] && init[j] == s[j];
        }
      }
      AssignDistinct(init);
      assert Assign(s) == Put(init, last.key, last.value);
      assert Put(init, last.key, last.value) == s by {
        forall i | 0 <= i < |init| ensures init[i].key != last.key {
          assert init[i] == s[i];
        }
        PutNew(init, last.key, last.value);
        assert Entry(last.key, last.value) == last;
        assert init + [last] == s;
      }
    }
  }

  /** Looking up another key after `d[k] = v` gives what it gave before. */
  lemma {:induction false} GetPutOther<K, V>(s: seq<Entry<K, V>>, k: K, v: V, k': K)
    requires k' != k
    ensures Get(Put(s, k, v), k') == Get(s, k')
    decreases |s|
  {
    if |s| > 0 && s[0].key != k {
      GetPutOther(s[1..], k, v, k');
    }
  }

  /** The elements are in non-increasing order of `key`. */
  predicate SortedDesc<T>(s: seq<T>, key: T -> int) {
    forall i, j :: 0 <= i < j < |s| ==> key(s[i]) >= key(s[j])
  }

  /** Inserts `x` before the first element whose key is smaller than `key(x)`. */
  function InsertDesc<T>(s: seq<T>, x: T, key: T -> int): (r: seq<T>)
    requires SortedDesc(s, key)
    ensures SortedDesc(r, key)
    ensures multiset(r) == multiset(s) + multiset{x}
    ensures |r| == |s| + 1
    ensures r[0] == x || (|s| > 0 && r[0] == s[0])
    decreases |s|
  {
    if |s| == 0 then [x]
    else if key(x) >= key(s[0]) then [x] + s
    else
      SortedDescTail(s, key);
      var rest := InsertDesc(s[1..], x, key);
      assert s == [s[0]] + s[1..];
      HeadDominates(s[0], rest, s[1..], x, key);
      [s[0]] + rest
  }

  /** Dropping the head of a sorted list leaves it sorted. */
  lemma SortedDescTail<T>(s: seq<T>, key: T -> int)
    requires |s| > 0 && SortedDesc(s, key)
    ensures SortedDesc(s[1..], key)
  {
    forall i, j | 0 <= i < j < |s| - 1 ensures key(s[1..][i]) >= key(s[1..][j]) {
      assert s[1..][i] == s[i + 1] && s[1..][j] == s[j + 1];
    }
  }

  /** An element at least as large as everything in `t` and than `x` can lead any
      sorted permutation of `t` plus `x`. */
  lemma HeadDominates<T>(h: T, rest: seq<T>, t: seq<T>, x: T, key: T -> int)
    requires SortedDesc(rest, key) && multiset(rest) == multiset(t) + multiset{x}
    requires key(h) >= key(x) && forall i :: 0 <= i < |t| ==> key(h) >= key(t[i])
    ensures SortedDesc([h] + rest, key)
  {
    forall j | 0 <= j < |rest| ensures key(h) >= key(rest[j]) {
      assert rest[j] in multiset(rest);
      if rest[j] != x {
        assert rest[j] in multiset(t);
        var i :| 0 <= i < |t| && t[i] == rest[j];
      }
    }
    var r := [h] + rest;
    forall a, b | 0 <= a < b < |r| ensures key(r[a]) >= key(r[b]) {
      if a == 0 {
        assert r[b] == rest[b - 1];
      } else {
        assert r[a] == rest[a - 1] && r[b] == rest[b - 1];
      }
    }
  }

  /** The rows of `s` ordered by `key`, largest first: what `ORDER BY key DESC`
      returns (rows with equal keys may come in any order). */
  function SortDesc<T>(s: seq<T>, key: T -> int): (r: seq<T>)
    ensures SortedDesc(r, key)
    ensures multiset(r) == multiset(s)
    ensures |r| == |s|
    decreases |s|
  {
    if |s| == 0 then []
    else
      assert s == s[..|s| - 1] + [s[|s| - 1]];
      InsertDesc(SortDesc(s[..|s| - 1], key), s[|s| - 1], key)
  }
}
