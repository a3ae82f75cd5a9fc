/** Sorting by a key of two numbers, keeping equal keys in their original order. */
module StableSort {

  datatype Key = Key(major: real, minor: real)

  predicate AtMost(a: Key, b: Key) { a.major < b.major || (a.major == b.major && a.minor <= b.minor) }

  function Insert<T>(x: T, s: seq<T>, key: T -> Key): seq<T> {
    if s == [] || AtMost(key(x), key(s[0])) then [x] + s else [s[0]] + Insert(x, s[1..], key)
  }

  function Sort<T>(s: seq<T>, key: T -> Key): seq<T> {
    if s == [] then [] else Insert(s[0], Sort(s[1..], key), key)
  }

  ghost predicate Ascending<T>(s: seq<T>, key: T -> Key) {
    forall i, j | 0 <= i < j < |s| :: AtMost(key(s[i]), key(s[j]))
  }

  /** The elements with the given key, in order. */
  function WithKey<T>(s: seq<T>, key: T -> Key, v: Key): seq<T> {
    if s == [] then [] else (if key(s[0]) == v then [s[0]] else []) + WithKey(s[1..], key, v)
  }

  lemma {:induction false} InsertPermutes<T>(x: T, s: seq<T>, key: T -> Key)
    ensures multiset(Insert(x, s, key)) == multiset([x] + s)
  {
    if s != [] && !(AtMost(key(x), key(s[0]))) {
      InsertPermutes(x, s[1..], key);
      assert s == [s[0]] + s[1..];
    }
  }

  ghost predicate AtLeast<T>(s: seq<T>, key: T -> Key, v: Key) { forall i | 0 <= i < |s| :: AtMost(v, key(s[i])) }

  lemma {:induction false} InsertAscends<T>(x: T, s: seq<T>, key: T -> Key, v: Key)
    requires Ascending(s, key) && AtLeast(s, key, v) && AtMost(v, key(x))
    ensures Ascending(Insert(x, s, key), key) && AtLeast(Insert(x, s, key), key, v)
  {
    if s == [] {
    } else if AtMost(key(x), key(s[0])) {
      assert AtLeast(s, key, key(x));
    } else {
      var head := key(s[0]);
      assert forall i | 0 <= i < |s[1..]| :: s[1..][i] == s[i + 1];
      InsertAscends(x, s[1..], key, head);
    }
  }

  lemma InsertKeeps<T>(x: T, s: seq<T>, key: T -> Key)
    requires Ascending(s, key)
    ensures Ascending(Insert(x, s, key), key)
    ensures multiset(Insert(x, s, key)) == multiset([x] + s)
  {
    InsertPermutes(x, s, key);
    InsertAscends(x, s, key, if s != [] && AtMost(key(s[0]), key(x)) then key(s[0]) else key(x));
  }

  lemma {:induction false} InsertStable<T>(x: T, s: seq<T>, key: T -> Key, v: Key)
    ensures WithKey(Insert(x, s, key), key, v) == WithKey([x] + s, key, v)
  {
    if s != [] && !(AtMost(key(x), key(s[0]))) {
      InsertStable(x, s[1..], key, v);
      var t := Insert(x, s[1..], key);
      assert ([s[0]] + t)[1..] == t;
      assert ([x] + s)[1..] == s && ([x] + s[1..])[1..] == s[1..];
    }
  }

  /** The result is sorted, a permutation, and keeps the order of equal keys. */
  lemma {:induction false} SortIsStable<T>(s: seq<T>, key: T -> Key)
    ensures Ascending(Sort(s, key), key)
    ensures multiset(Sort(s, key)) == multiset(s)
    ensures forall v :: WithKey(Sort(s, key), key, v) == WithKey(s, key, v)
  {
    if s != [] {
      SortIsStable(s[1..], key);
      InsertKeeps(s[0], Sort(s[1..], key), key);
      assert s == [s[0]] + s[1..];
      forall v ensures WithKey(Sort(s, key), key, v) == WithKey(s, key, v) {
        InsertStable(s[0], Sort(s[1..], key), key, v);
        assert ([s[0]] + Sort(s[1..], key))[1..] == Sort(s[1..], key);
      }
    }
  }

  lemma {:induction false} WithKeyNone<T>(s: seq<T>, key: T -> Key, v: Key)
    requires forall i | 0 <= i < |s| :: key(s[i]) != v
    ensures WithKey(s, key, v) == []
  {
    if s != [] { WithKeyNone(s[1..], key, v); }
  }

  lemma {:induction false} WithKeyFound<T>(s: seq<T>, key: T -> Key, i: nat)
    requires i < |s|
    ensures WithKey(s, key, key(s[i])) != []
  {
    if i > 0 { WithKeyFound(s[1..], key, i - 1); }
  }

  lemma WithKeyTail<T>(s: seq<T>, key: T -> Key, v: Key)
    requires s != []
    ensures WithKey(s[1..], key, v)
         == if key(s[0]) == v then WithKey(s, key, v)[1..] else WithKey(s, key, v)
  {
  }

  /** Two ascending sequences with the same elements per key start alike. */
  lemma SameHead<T>(s: seq<T>, t: seq<T>, key: T -> Key)
    requires Ascending(s, key) && Ascending(t, key) && s != []
    requires forall v :: WithKey(s, key, v) == WithKey(t, key, v)
    ensures t != [] && t[0] == s[0]
  {
    WithKeyFound(s, key, 0);
    if t != [] {
      WithKeyFound(t, key, 0);
      if !AtMost(key(t[0]), key(s[0])) { WithKeyNone(t, key, key(s[0])); }
      if !AtMost(key(s[0]), key(t[0])) { WithKeyNone(s, key, key(t[0])); }
      assert WithKey(s, key, key(s[0]))[0] == s[0];
      assert WithKey(t, key, key(s[0]))[0] == t[0];
    }
  }

  /** There is only one stable sort, so any stable sorting routine returns this one. */
  lemma {:induction false} SortIsUnique<T>(s: seq<T>, t: seq<T>, key: T -> Key)
    requires Ascending(s, key) && Ascending(t, key)
    requires forall v :: WithKey(s, key, v) == WithKey(t, key, v)
    ensures s == t
    decreases |s|
  {
    if s == [] {
      if t != [] { SameHead(t, s, key); }
    } else {
      SameHead(s, t, key);
      forall v ensures WithKey(s[1..], key, v) == WithKey(t[1..], key, v) {
        WithKeyTail(s, key, v);
        WithKeyTail(t, key, v);
      }
      SortIsUnique(s[1..], t[1..], key);
      assert s == [s[0]] + s[1..] && t == [t[0]] + t[1..];
    }
  }

  lemma StableSortIsSort<T>(s: seq<T>, t: seq<T>, key: T -> Key)
    requires Ascending(t, key) && forall v :: WithKey(t, key, v) == WithKey(s, key, v)
    ensures t == Sort(s, key)
  {
    SortIsStable(s, key);
    SortIsUnique(t, Sort(s, key), key);
  }
}
