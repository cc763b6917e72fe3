/** Entity keys. The arena hands out keys from a counter and never removes entities, so a
    key is a number below the counter and iterating a secondary map visits its keys in
    ascending order. */
module Keys {

  type Key = nat

  /** The keys of `s` below `n`, in ascending order: the iteration order of a secondary map
      whose keys were all issued before the counter reached `n`. */
  function KeysBelow(s: set<Key>, n: nat): (r: seq<Key>)
    ensures forall i :: 0 <= i < |r| ==> r[i] in s && r[i] < n
    ensures forall i, j :: 0 <= i < j < |r| ==> r[i] < r[j]
  {
    if n == 0 then []
    else KeysBelow(s, n - 1) + (if n - 1 in s then [n - 1] else [])
  }

  /** Every key of `s` below `n` is visited. */
  lemma {:induction false} KeysBelowCovers(s: set<Key>, n: nat, k: Key)
    requires k in s && k < n
    ensures k in KeysBelow(s, n)
  {
    if k < n - 1 {
      KeysBelowCovers(s, n - 1, k);
    }
  }

  /** An empty map's enumeration is empty. */
  lemma {:induction false} KeysBelowNone(s: set<Key>, n: nat)
    requires s == {}
    ensures KeysBelow(s, n) == []
  {
    if n > 0 {
      KeysBelowNone(s, n - 1);
    }
  }

  /** When every key of `s` is below `n`, the enumeration visits exactly the keys of `s`. */
  lemma KeysBelowExactly(s: set<Key>, n: nat)
    requires forall k :: k in s ==> k < n
    ensures Elements(KeysBelow(s, n)) == s
  {
    forall k | k in s
      ensures k in Elements(KeysBelow(s, n))
    {
      KeysBelowCovers(s, n, k);
    }
  }

  /** The values a sequence lists. */
  ghost function Elements(r: seq<Key>): set<Key> {
    set x | x in r
  }

  lemma ElementsSnoc(r: seq<Key>, x: Key)
    ensures Elements(r + [x]) == Elements(r) + {x}
  {
  }

  /** A strictly increasing sequence lists as many values as it has elements. */
  lemma {:induction false} IncreasingCount(r: seq<Key>)
    requires forall i, j :: 0 <= i < j < |r| ==> r[i] < r[j]
    ensures |Elements(r)| == |r|
  {
    if r != [] {
      var init := r[..|r| - 1];
      var last := r[|r| - 1];
      assert r == init + [last];
      IncreasingCount(init);
      assert forall i :: 0 <= i < |init| ==> init[i] != last;
      assert last !in Elements(init);
      assert Elements(r) == Elements(init) + {last};
    } else {
      assert Elements(r) == {};
    }
  }

  /** When every key of `s` is below `n`, the enumeration lists all of `s`, each key once. */
  lemma KeysBelowAll(s: set<Key>, n: nat)
    requires forall k :: k in s ==> k < n
    ensures |KeysBelow(s, n)| == |s|
  {
    IncreasingCount(KeysBelow(s, n));
    KeysBelowExactly(s, n);
  }
}
