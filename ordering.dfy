/**
 * `[...xs].sort((a, b) => key(a) - key(b))` on integer keys. The engine's
 * sort is stable, so the result is the stable insertion sort defined here.
 * Besides the sorted list, `SortPermutation` gives for each sorted position
 * the position the element came from: the sorted array is a shallow copy,
 * and callers that write into its elements write into the original objects.
 */
module Ordering {

  predicate SortedBy<T>(s: seq<T>, key: T -> int) {
    forall i, j :: 0 <= i < j < |s| ==> key(s[i]) <= key(s[j])
  }

  ghost predicate NoDuplicates<T>(s: seq<T>) {
    forall i, j :: 0 <= i < j < |s| ==> s[i] != s[j]
  }

  /** Puts `x` in front of the first element whose key is not smaller, so equal keys keep their order. */
  function Insert<T>(x: T, s: seq<T>, key: T -> int): (r: seq<T>)
    ensures |r| == |s| + 1
    ensures multiset(r) == multiset(s) + multiset{x}
    ensures r[0] == x || (|s| > 0 && r[0] == s[0])
  {
    if s == [] || key(x) <= key(s[0]) then [x] + s
    else
      assert s == [s[0]] + s[1..];
      [s[0]] + Insert(x, s[1..], key)
  }

  function Sort<T>(s: seq<T>, key: T -> int): (r: seq<T>)
    ensures |r| == |s|
    ensures multiset(r) == multiset(s)
    ensures SortedBy(r, key)
  {
    if s == [] then []
    else
      assert s == [s[0]] + s[1..];
      var t := Sort(s[1..], key);
      InsertKeepsSorted(s[0], t, key);
      Insert(s[0], t, key)
  }

  lemma ConsSorted<T>(a: T, t: seq<T>, key: T -> int)
    requires SortedBy(t, key)
    requires |t| > 0 ==> key(a) <= key(t[0])
    ensures SortedBy([a] + t, key)
  {
    forall i, j | 0 <= i < j < |[a] + t|
      ensures key(([a] + t)[i]) <= key(([a] + t)[j])
    {
      if i == 0 && j > 1 {
        assert key(t[0]) <= key(t[j - 1]);
      }
    }
  }

  lemma {:induction false} InsertKeepsSorted<T>(x: T, s: seq<T>, key: T -> int)
    requires SortedBy(s, key)
    ensures SortedBy(Insert(x, s, key), key)
  {
    if s == [] || key(x) <= key(s[0]) {
      ConsSorted(x, s, key);
    } else {
      assert SortedBy(s[1..], key);
      InsertKeepsSorted(x, s[1..], key);
      var t := Insert(x, s[1..], key);
      assert |s| > 1 ==> key(s[0]) <= key(s[1]);
      ConsSorted(s[0], t, key);
    }
  }

  lemma HeadNotInTail<T>(s: seq<T>)
    requires |s| > 0 && NoDuplicates(s)
    ensures s[0] !in multiset(s[1..])
  {
    forall k | 0 <= k < |s[1..]|
      ensures s[1..][k] != s[0]
    {
      assert s[1..][k] == s[k + 1];
    }
  }

  lemma ConsNoDuplicates<T>(a: T, t: seq<T>)
    requires NoDuplicates(t) && a !in multiset(t)
    ensures NoDuplicates([a] + t)
  {
    forall i, j | 0 <= i < j < |[a] + t|
      ensures ([a] + t)[i] != ([a] + t)[j]
    {
      if i == 0 {
        assert t[j - 1] in multiset(t);
      }
    }
  }

  lemma {:induction false} InsertKeepsNoDuplicates<T>(x: T, s: seq<T>, key: T -> int)
    requires NoDuplicates(s) && x !in multiset(s)
    ensures NoDuplicates(Insert(x, s, key))
  {
    if s == [] || key(x) <= key(s[0]) {
      ConsNoDuplicates(x, s);
    } else {
      assert s == [s[0]] + s[1..];
      HeadNotInTail(s);
      assert NoDuplicates(s[1..]);
      InsertKeepsNoDuplicates(x, s[1..], key);
      ConsNoDuplicates(s[0], Insert(x, s[1..], key));
    }
  }

  lemma {:induction false} SortKeepsNoDuplicates<T>(s: seq<T>, key: T -> int)
    requires NoDuplicates(s)
    ensures NoDuplicates(Sort(s, key))
  {
    if s != [] {
      assert s == [s[0]] + s[1..];
      HeadNotInTail(s);
      assert NoDuplicates(s[1..]);
      SortKeepsNoDuplicates(s[1..], key);
      InsertKeepsNoDuplicates(s[0], Sort(s[1..], key), key);
    }
  }

  /** Each element paired with its position. */
  function Tag<T>(s: seq<T>): (r: seq<(nat, T)>)
    ensures |r| == |s|
    ensures forall i :: 0 <= i < |s| ==> r[i] == (i, s[i])
  {
    seq(|s|, i requires 0 <= i < |s| => (i, s[i]))
  }

  function Firsts<T>(t: seq<(nat, T)>): (r: seq<nat>)
    ensures |r| == |t| && forall i :: 0 <= i < |t| ==> r[i] == t[i].0
  {
    seq(|t|, i requires 0 <= i < |t| => t[i].0)
  }

  function Seconds<T>(t: seq<(nat, T)>): (r: seq<T>)
    ensures |r| == |t| && forall i :: 0 <= i < |t| ==> r[i] == t[i].1
  {
    seq(|t|, i requires 0 <= i < |t| => t[i].1)
  }

  /** The key of a tagged element is the key of the element. */
  function TagKey<T>(key: T -> int): ((nat, T)) -> int {
    (p: (nat, T)) => key(p.1)
  }

  /**
   * The sorting permutation: position `i` of `Sort(s, key)` holds `s[pi[i]]`,
   * and no source position is used twice.
   */
  function SortPermutation<T>(s: seq<T>, key: T -> int): (pi: seq<nat>)
    ensures |pi| == |s|
    ensures forall i :: 0 <= i < |s| ==> pi[i] < |s| && Sort(s, key)[i] == s[pi[i]]
    ensures forall i, j :: 0 <= i < j < |s| ==> pi[i] != pi[j]
  {
    TaggedSort(s, key);
    Firsts(Sort(Tag(s), TagKey(key)))
  }

  /** What sorting the tagged list yields: tags that point back at their element, each tag once. */
  lemma TaggedSort<T>(s: seq<T>, key: T -> int)
    ensures var u := Sort(Tag(s), TagKey(key));
      && Seconds(u) == Sort(s, key)
      && (forall i :: 0 <= i < |u| ==> u[i].0 < |s| && u[i].1 == s[u[i].0])
      && (forall i, j :: 0 <= i < j < |u| ==> u[i].0 != u[j].0)
  {
    var u := Sort(Tag(s), TagKey(key));
    SortCommutesWithSeconds(Tag(s), key);
    assert Seconds(Tag(s)) == s;
    TagsPointBack(s, u);
    TagsDistinct(s, key);
  }

  lemma TagsPointBack<T>(s: seq<T>, u: seq<(nat, T)>)
    requires multiset(u) == multiset(Tag(s))
    ensures forall i :: 0 <= i < |u| ==> u[i].0 < |s| && u[i].1 == s[u[i].0]
  {
    forall i | 0 <= i < |u|
      ensures u[i].0 < |s| && u[i].1 == s[u[i].0]
    {
      assert u[i] in multiset(Tag(s));
      var k :| 0 <= k < |Tag(s)| && Tag(s)[k] == u[i];
    }
  }

  lemma TagsDistinct<T>(s: seq<T>, key: T -> int)
    ensures var u := Sort(Tag(s), TagKey(key));
      forall i, j :: 0 <= i < j < |u| ==> u[i].0 != u[j].0
  {
    var u := Sort(Tag(s), TagKey(key));
    assert NoDuplicates(Tag(s));
    SortKeepsNoDuplicates(Tag(s), TagKey(key));
    TagsPointBack(s, u);
    forall i, j | 0 <= i < j < |u|
      ensures u[i].0 != u[j].0
    {
      assert u[i] != u[j];
    }
  }

  lemma SecondsCons<T>(a: (nat, T), t: seq<(nat, T)>)
    ensures Seconds([a] + t) == [a.1] + Seconds(t)
  {
  }

  /** Sorting tagged elements and dropping the tags is sorting the elements. */
  lemma {:induction false} SortCommutesWithSeconds<T>(t: seq<(nat, T)>, key: T -> int)
    ensures Seconds(Sort(t, TagKey(key))) == Sort(Seconds(t), key)
  {
    if t != [] {
      SortCommutesWithSeconds(t[1..], key);
      assert Seconds(t) == [t[0].1] + Seconds(t[1..]);
      InsertCommutesWithSeconds(t[0], Sort(t[1..], TagKey(key)), key);
    }
  }

  lemma {:induction false} InsertCommutesWithSeconds<T>(x: (nat, T), t: seq<(nat, T)>, key: T -> int)
    ensures Seconds(Insert(x, t, TagKey(key))) == Insert(x.1, Seconds(t), key)
  {
    assert TagKey(key)(x) == key(x.1);
    if t == [] {
      assert Insert(x, t, TagKey(key)) == [x];
    } else {
      assert TagKey(key)(t[0]) == key(t[0].1);
      assert Seconds(t)[0] == t[0].1;
      if key(x.1) <= key(t[0].1) {
        assert Insert(x, t, TagKey(key)) == [x] + t;
        SecondsCons(x, t);
      } else {
        assert t == [t[0]] + t[1..];
        InsertCommutesWithSeconds(x, t[1..], key);
        assert Insert(x, t, TagKey(key)) == [t[0]] + Insert(x, t[1..], TagKey(key));
        SecondsCons(t[0], Insert(x, t[1..], TagKey(key)));
        assert Seconds(t)[1..] == Seconds(t[1..]);
      }
    }
  }

  /** A list already in key order is left exactly as it is. */
  lemma {:induction false} SortOfSorted<T>(s: seq<T>, key: T -> int)
    requires SortedBy(s, key)
    ensures Sort(s, key) == s
  {
    if s != [] {
      assert SortedBy(s[1..], key);
      SortOfSorted(s[1..], key);
    }
  }

  /** An element whose key is at least every other key sorts last, after the others in their sorted order. */
  lemma {:induction false} SortAppendMax<T>(s: seq<T>, x: T, key: T -> int)
    requires forall k :: 0 <= k < |s| ==> key(s[k]) <= key(x)
    ensures Sort(s + [x], key) == Sort(s, key) + [x]
  {
    if s == [] {
      assert s + [x] == [x];
    } else {
      assert (s + [x])[0] == s[0] && (s + [x])[1..] == s[1..] + [x];
      SortAppendMax(s[1..], x, key);
      InsertBeforeMax(s[0], Sort(s[1..], key), x, key);
    }
  }

  lemma {:induction false} InsertBeforeMax<T>(a: T, t: seq<T>, x: T, key: T -> int)
    requires key(a) <= key(x)
    ensures Insert(a, t + [x], key) == Insert(a, t, key) + [x]
  {
    if t != [] {
      assert (t + [x])[0] == t[0] && (t + [x])[1..] == t[1..] + [x];
      if key(a) > key(t[0]) {
        InsertBeforeMax(a, t[1..], x, key);
      }
    }
  }
}
