/** The stable sort by key that the file tools call (`sort_by_key`). */
module Sorting {

  ghost predicate SortedBy<T>(s: seq<T>, key: T -> nat) {
    forall i, j | 0 <= i < j < |s| :: key(s[i]) <= key(s[j])
  }

  /** Inserts after every element with the same or a smaller key. */
  function Insert<T>(s: seq<T>, x: T, key: T -> nat): (r: seq<T>)
    ensures |r| == |s| + 1
  {
    if s == [] then [x]
    else if key(x) < key(s[0]) then [x] + s
    else [s[0]] + Insert(s[1..], x, key)
  }

  function Sort<T>(s: seq<T>, key: T -> nat): (r: seq<T>)
    ensures |r| == |s|
  {
    if s == [] then [] else Insert(Sort(s[..|s| - 1], key), s[|s| - 1], key)
  }

  lemma {:induction false} InsertAdds<T>(s: seq<T>, x: T, key: T -> nat)
    ensures multiset(Insert(s, x, key)) == multiset(s) + multiset{x}
  {
    if s == [] {
    } else if key(x) < key(s[0]) {
    } else {
      InsertAdds(s[1..], x, key);
      calc {
        multiset(Insert(s, x, key));
        multiset{s[0]} + multiset(Insert(s[1..], x, key));
        multiset{s[0]} + (multiset(s[1..]) + multiset{x});
        { assert s == [s[0]] + s[1..]; }
        multiset(s) + multiset{x};
      }
    }
  }

  lemma {:induction false} InsertKeepsSorted<T>(s: seq<T>, x: T, key: T -> nat, low: nat)
    requires SortedBy(s, key) && low <= key(x) && (forall i | 0 <= i < |s| :: low <= key(s[i]))
    ensures SortedBy(Insert(s, x, key), key)
    ensures forall i | 0 <= i < |Insert(s, x, key)| :: low <= key(Insert(s, x, key)[i])
  {
    if s == [] {
    } else if key(x) < key(s[0]) {
    } else {
      InsertKeepsSorted(s[1..], x, key, key(s[0]));
    }
  }

  /** The result is sorted and holds exactly the same elements. */
  lemma {:induction false} SortSorts<T>(s: seq<T>, key: T -> nat)
    ensures SortedBy(Sort(s, key), key) && multiset(Sort(s, key)) == multiset(s)
  {
    if s != [] {
      var init, last := s[..|s| - 1], s[|s| - 1];
      SortSorts(init, key);
      InsertKeepsSorted(Sort(init, key), last, key, 0);
      InsertAdds(Sort(init, key), last, key);
      assert s == init + [last];
    }
  }

  lemma SortKeepsMembers<T>(s: seq<T>, key: T -> nat, x: T)
    ensures x in Sort(s, key) <==> x in s
  {
    SortSorts(s, key);
    assert x in Sort(s, key) <==> x in multiset(Sort(s, key));
    assert x in s <==> x in multiset(s);
  }

  lemma TailMultiset<T>(s: seq<T>)
    requires s != []
    ensures multiset(s) == multiset{s[0]} + multiset(s[1..])
    ensures multiset(s[1..]) == multiset(s) - multiset{s[0]}
  {
    assert s == [s[0]] + s[1..];
  }

  function Map<T, U>(s: seq<T>, f: T -> U): (r: seq<U>)
    ensures |r| == |s| && forall i | 0 <= i < |s| :: r[i] == f(s[i])
  {
    if s == [] then [] else [f(s[0])] + Map(s[1..], f)
  }

  function Without<T>(s: seq<T>, k: nat): seq<T>
    requires k < |s|
  {
    s[..k] + s[k + 1..]
  }

  lemma WithoutMultiset<T>(s: seq<T>, k: nat)
    requires k < |s|
    ensures multiset(s) == multiset{s[k]} + multiset(Without(s, k))
  {
    assert s == s[..k] + [s[k]] + s[k + 1..];
  }

  lemma MapWithout<T, U>(s: seq<T>, f: T -> U, k: nat)
    requires k < |s|
    ensures multiset(Map(s, f)) == multiset{f(s[k])} + multiset(Map(Without(s, k), f))
  {
    var mapped, rest := Map(s, f), Without(s, k);
    assert |Without(mapped, k)| == |Map(rest, f)|;
    forall i | 0 <= i < |rest|
      ensures Without(mapped, k)[i] == Map(rest, f)[i]
    {
      var from := if i < k then i else i + 1;
      assert rest[i] == s[from] && Without(mapped, k)[i] == mapped[from];
    }
    assert Without(mapped, k) == Map(rest, f);
    WithoutMultiset(mapped, k);
  }

  /** Mapping a permutation permutes the results. */
  lemma {:induction false} MapPermutes<T, U>(a: seq<T>, b: seq<T>, f: T -> U)
    requires multiset(a) == multiset(b)
    ensures multiset(Map(a, f)) == multiset(Map(b, f))
    decreases |a|
  {
    assert |a| == |multiset(a)| == |multiset(b)| == |b|;
    if a != [] {
      TailMultiset(a);
      assert a[0] in multiset(b);
      var k :| 0 <= k < |b| && b[k] == a[0];
      WithoutMultiset(b, k);
      MapPermutes(a[1..], Without(b, k), f);
      MapWithout(b, f, k);
    }
  }
}
