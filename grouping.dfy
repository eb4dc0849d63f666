/** The set comprehensions and the filtering `if` of the bookmark generator's nested loops,
    stated on sequences. The functions carry no postconditions of their own (they are used in
    loop invariants, where quantified postconditions would be instantiated over and over);
    their properties are the lemmas that follow each of them. */
module Grouping {
  import opened Common

  /** `[key(x) for x in s]`. */
  function Keys<T, K>(s: seq<T>, key: T -> K): seq<K> {
    if s == [] then [] else Keys(s[..|s| - 1], key) + [key(s[|s| - 1])]
  }

  lemma {:induction false} KeysAt<T, K>(s: seq<T>, key: T -> K)
    ensures |Keys(s, key)| == |s|
    ensures forall i :: 0 <= i < |s| ==> Keys(s, key)[i] == key(s[i])
  {
    if s != [] {
      KeysAt(s[..|s| - 1], key);
    }
  }

  /** A key occurs in `Keys(s, key)` exactly when some element of `s` has it. */
  lemma KeysMembers<T, K>(s: seq<T>, key: T -> K)
    ensures forall k :: k in Keys(s, key) <==> exists x :: x in s && key(x) == k
  {
    KeysAt(s, key);
    forall k | k in Keys(s, key) ensures exists x :: x in s && key(x) == k {
      var i :| 0 <= i < |s| && Keys(s, key)[i] == k;
      assert s[i] in s && key(s[i]) == k;
    }
    forall k | exists x :: x in s && key(x) == k ensures k in Keys(s, key) {
      var x :| x in s && key(x) == k;
      var i :| 0 <= i < |s| && s[i] == x;
      assert Keys(s, key)[i] == k;
    }
  }

  /** The values of `s` without repetition, in order of first appearance. This fixes one
      iteration order for a Python `set` built from `s`; the set itself is the same. */
  function Distinct<K(==)>(s: seq<K>): seq<K> {
    if s == [] then []
    else
      var r := Distinct(s[..|s| - 1]);
      if s[|s| - 1] in r then r else r + [s[|s| - 1]]
  }

  /** `Distinct(s)` enumerates the set of values of `s`, each exactly once. */
  lemma {:induction false} DistinctSpec<K>(s: seq<K>)
    ensures NoDuplicates(Distinct(s))
    ensures forall x :: x in Distinct(s) <==> x in s
  {
    if s != [] {
      var init := s[..|s| - 1];
      DistinctSpec(init);
      assert s == init + [s[|s| - 1]];
    }
  }

  /** The elements of `s` whose key is `k`, in their order in `s`. */
  function Select<T, K(==)>(s: seq<T>, key: T -> K, k: K): seq<T> {
    if s == [] then []
    else Select(s[..|s| - 1], key, k) + (if key(s[|s| - 1]) == k then [s[|s| - 1]] else [])
  }

  lemma SelectSnoc<T, K>(s: seq<T>, x: T, key: T -> K, k: K)
    ensures Select(s + [x], key, k) == Select(s, key, k) + (if key(x) == k then [x] else [])
  {
    assert (s + [x])[..|s|] == s;
  }

  /** `Select` keeps exactly the elements with key `k`. */
  lemma {:induction false} SelectSpec<T, K>(s: seq<T>, key: T -> K, k: K)
    ensures forall x :: x in Select(s, key, k) <==> x in s && key(x) == k
  {
    if s != [] {
      var init := s[..|s| - 1];
      SelectSpec(init, key, k);
      assert s == init + [s[|s| - 1]];
    }
  }

  /** The selections for the keys `ks`, one after another. */
  function Gather<T, K(==)>(s: seq<T>, key: T -> K, ks: seq<K>): seq<T> {
    if ks == [] then [] else Gather(s, key, ks[..|ks| - 1]) + Select(s, key, ks[|ks| - 1])
  }

  lemma {:induction false} GatherEmpty<T, K>(key: T -> K, ks: seq<K>)
    ensures Gather([], key, ks) == []
  {
    if ks != [] {
      GatherEmpty(key, ks[..|ks| - 1]);
    }
  }

  /** Appending one element to `s` adds it to the gathering once, if its key is among `ks`. */
  lemma {:induction false} GatherSnoc<T, K>(s: seq<T>, x: T, key: T -> K, ks: seq<K>)
    requires NoDuplicates(ks)
    ensures multiset(Gather(s + [x], key, ks)) ==
      multiset(Gather(s, key, ks)) + (if key(x) in ks then multiset{x} else multiset{})
  {
    if ks != [] {
      var init, k := ks[..|ks| - 1], ks[|ks| - 1];
      assert ks == init + [k];
      assert NoDuplicates(init);
      GatherSnoc(s, x, key, init);
      SelectSnoc(s, x, key, k);
      assert k !in init;
    }
  }

  lemma {:induction false} GatherCovers<T, K>(s: seq<T>, key: T -> K, ks: seq<K>)
    requires NoDuplicates(ks)
    requires forall x :: x in s ==> key(x) in ks
    ensures multiset(Gather(s, key, ks)) == multiset(s)
  {
    if s == [] {
      GatherEmpty(key, ks);
    } else {
      var init, x := s[..|s| - 1], s[|s| - 1];
      assert s == init + [x];
      GatherCovers(init, key, ks);
      GatherSnoc(init, x, key, ks);
    }
  }

  /** Grouping `s` by a key and listing the groups one after another, in order of first
      appearance of their keys, neither loses nor invents an element. */
  lemma GroupingPreserves<T, K>(s: seq<T>, key: T -> K)
    ensures multiset(Gather(s, key, Distinct(Keys(s, key)))) == multiset(s)
  {
    var ks := Keys(s, key);
    KeysAt(s, key);
    DistinctSpec(ks);
    forall x | x in s ensures key(x) in Distinct(ks) {
      var i :| 0 <= i < |s| && s[i] == x;
      assert ks[i] == key(x) && ks[i] in ks;
      assert key(x) in Distinct(ks);
    }
    GatherCovers(s, key, Distinct(ks));
  }
}
