/** String order and sorting by a string key, as `sort.Strings` and `sort.Slice` are used in
    internal/config/config.go and internal/config/hash.go. */
module Ordering {

  /** Lexicographic order; Go compares the UTF-8 bytes, which orders code points the same way. */
  predicate Less(a: string, b: string)
    decreases |a|
  {
    b != [] && (a == [] || a[0] < b[0] || (a[0] == b[0] && Less(a[1..], b[1..])))
  }

  /** The first difference decides, and a prefix comes first. */
  lemma {:induction false} LessAt(a: string, b: string, i: nat)
    requires i <= |a| && i < |b| && a[..i] == b[..i] && (i == |a| || a[i] < b[i])
    ensures Less(a, b)
  {
    if i > 0 {
      assert a[0] == a[..i][0] == b[..i][0] == b[0];
      assert a[1..][..i - 1] == a[..i][1..] && b[1..][..i - 1] == b[..i][1..];
      LessAt(a[1..], b[1..], i - 1);
    }
  }

  lemma {:induction false} LessIsStrict(a: string, b: string)
    ensures !(Less(a, b) && Less(b, a))
    ensures a != b ==> Less(a, b) || Less(b, a)
    ensures !Less(a, a)
    decreases |a|
  {
    if a != [] && b != [] {
      LessIsStrict(a[1..], b[1..]);
      LessIsStrict(a[1..], a[1..]);
      if a[0] == b[0] && a[1..] == b[1..] {
        assert a == [a[0]] + a[1..] == b;
      }
    } else if a != [] {
      LessIsStrict(a[1..], a[1..]);
    }
  }

  lemma {:induction false} LessIsTransitive(a: string, b: string, c: string)
    requires Less(a, b) && !Less(c, b)
    ensures Less(a, c)
    decreases |a|
  {
    if a != [] && c != [] && a[0] == b[0] == c[0] {
      LessIsTransitive(a[1..], b[1..], c[1..]);
    }
  }

  predicate Sorted<T(!new)>(xs: seq<T>, key: T -> string) {
    forall i, j | 0 <= i < j < |xs| :: !Less(key(xs[j]), key(xs[i]))
  }

  predicate DistinctKeys<T(!new)>(xs: seq<T>, key: T -> string) {
    forall i, j | 0 <= i < j < |xs| :: key(xs[i]) != key(xs[j])
  }

  function Insert<T(!new)>(x: T, xs: seq<T>, key: T -> string): seq<T> {
    if xs == [] || !Less(key(xs[0]), key(x)) then [x] + xs else [xs[0]] + Insert(x, xs[1..], key)
  }

  function Sort<T(!new)>(xs: seq<T>, key: T -> string): seq<T> {
    if xs == [] then [] else Insert(xs[0], Sort(xs[1..], key), key)
  }

  lemma SortedCons<T(!new)>(x: T, xs: seq<T>, key: T -> string)
    requires Sorted(xs, key) && forall y <- xs :: !Less(key(y), key(x))
    ensures Sorted([x] + xs, key)
  {
  }

  lemma HeadIsLeast<T(!new)>(x: T, xs: seq<T>, key: T -> string)
    requires Sorted(xs, key) && xs != [] && !Less(key(xs[0]), key(x))
    ensures forall y <- xs :: !Less(key(y), key(x))
  {
    forall i | 0 <= i < |xs| ensures !Less(key(xs[i]), key(x)) {
      if i > 0 && Less(key(xs[i]), key(x)) { LessIsTransitive(key(xs[i]), key(x), key(xs[0])); }
    }
  }

  lemma {:induction false} InsertSorts<T(!new)>(x: T, xs: seq<T>, key: T -> string)
    requires Sorted(xs, key)
    ensures Sorted(Insert(x, xs, key), key)
    ensures forall y <- Insert(x, xs, key) :: y == x || y in xs
    ensures multiset(Insert(x, xs, key)) == multiset(xs) + multiset{x}
    decreases |xs|
  {
    if xs == [] {
    } else if !Less(key(xs[0]), key(x)) {
      HeadIsLeast(x, xs, key);
      SortedCons(x, xs, key);
    } else {
      InsertSorts(x, xs[1..], key);
      TailMultiset(xs);
      LessIsStrict(key(xs[0]), key(x));
      SortedCons(xs[0], Insert(x, xs[1..], key), key);
    }
  }

  lemma {:induction false} SortSorts<T(!new)>(xs: seq<T>, key: T -> string)
    ensures Sorted(Sort(xs, key), key)
    ensures multiset(Sort(xs, key)) == multiset(xs)
    decreases |xs|
  {
    if xs != [] {
      SortSorts(xs[1..], key);
      InsertSorts(xs[0], Sort(xs[1..], key), key);
      TailMultiset(xs);
    }
  }

  lemma TailMultiset<T>(xs: seq<T>)
    requires xs != []
    ensures multiset(xs) == multiset{xs[0]} + multiset(xs[1..])
  {
    assert xs == [xs[0]] + xs[1..];
  }

  /** Lists with the same elements under distinct keys have only one sorted form. */
  lemma {:induction false} SortedIsUnique<T(!new)>(xs: seq<T>, ys: seq<T>, key: T -> string)
    requires Sorted(xs, key) && Sorted(ys, key) && DistinctKeys(xs, key)
    requires multiset(xs) == multiset(ys)
    ensures xs == ys
    decreases |xs|
  {
    assert |ys| == |multiset(ys)| == |multiset(xs)| == |xs|;
    if xs != [] {
      SameHead(xs, ys, key);
      TailMultiset(xs);
      TailMultiset(ys);
      TailSame(xs, ys);
      SortedIsUnique(xs[1..], ys[1..], key);
      assert xs == [xs[0]] + xs[1..] && ys == [ys[0]] + ys[1..];
    }
  }

  lemma TailSame<T>(xs: seq<T>, ys: seq<T>)
    requires xs != [] && ys != [] && xs[0] == ys[0] && multiset(xs) == multiset(ys)
    ensures multiset(xs[1..]) == multiset(ys[1..])
  {
    TailMultiset(xs);
    TailMultiset(ys);
    assert multiset(xs[1..]) == multiset(xs) - multiset{xs[0]};
    assert multiset(ys[1..]) == multiset(ys) - multiset{ys[0]};
  }

  lemma SameHead<T(!new)>(xs: seq<T>, ys: seq<T>, key: T -> string)
    requires Sorted(xs, key) && Sorted(ys, key) && DistinctKeys(xs, key)
    requires multiset(xs) == multiset(ys) && xs != [] && ys != []
    ensures xs[0] == ys[0]
  {
    assert ys[0] in multiset(xs) && xs[0] in multiset(ys);
    var i :| 0 <= i < |xs| && xs[i] == ys[0];
    var j :| 0 <= j < |ys| && ys[j] == xs[0];
    if i > 0 && j > 0 {
      LessIsStrict(key(xs[0]), key(ys[0]));
    }
  }

  predicate Distinct(xs: seq<string>) { forall i, j | 0 <= i < j < |xs| :: xs[i] != xs[j] }

  /** A strictly increasing list of strings. */
  predicate StrictlySorted(xs: seq<string>) {
    forall i, j | 0 <= i < j < |xs| :: Less(xs[i], xs[j])
  }

  function Elements(xs: seq<string>): set<string> { set x | x in xs }

  /** Comparing strictly sorted lists decides equality of the sets they list. */
  lemma {:induction false} SortedListsDecideSets(xs: seq<string>, ys: seq<string>)
    requires StrictlySorted(xs) && StrictlySorted(ys)
    ensures xs == ys <==> Elements(xs) == Elements(ys)
    decreases |xs|
  {
    if Elements(xs) == Elements(ys) {
      assert |ys| > 0 ==> ys[0] in Elements(ys);
      if xs != [] {
        assert xs[0] in Elements(ys);
        assert ys[0] in Elements(xs) by { assert ys[0] in Elements(ys); }
        var i :| 0 <= i < |xs| && xs[i] == ys[0];
        var j :| 0 <= j < |ys| && ys[j] == xs[0];
        LessIsStrict(xs[0], ys[0]);
        TailElements(xs);
        TailElements(ys);
        SortedListsDecideSets(xs[1..], ys[1..]);
      }
    }
  }

  lemma TailElements(xs: seq<string>)
    requires StrictlySorted(xs) && xs != []
    ensures Elements(xs[1..]) == Elements(xs) - {xs[0]}
  {
    forall x <- xs[1..] ensures x != xs[0] { LessIsStrict(xs[0], xs[0]); }
    forall x <- xs ensures x == xs[0] || x in xs[1..] {
      var i :| 0 <= i < |xs| && xs[i] == x;
      assert i > 0 ==> xs[1..][i - 1] == x;
    }
  }

  lemma StrictIsDistinct(xs: seq<string>)
    requires StrictlySorted(xs)
    ensures Distinct(xs)
  {
    forall i, j | 0 <= i < j < |xs| ensures xs[i] != xs[j] { LessIsStrict(xs[i], xs[j]); }
  }

  lemma DistinctSortedIsStrict(xs: seq<string>)
    requires Sorted(xs, (s: string) => s)
    requires Distinct(xs)
    ensures StrictlySorted(xs)
  {
    var key := (s: string) => s;
    forall i, j | 0 <= i < j < |xs| ensures Less(xs[i], xs[j]) {
      assert !Less(key(xs[j]), key(xs[i]));
      LessIsStrict(xs[i], xs[j]);
    }
  }
}
