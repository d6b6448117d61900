/** The ranking step of `fetch_rss_items`: `dedup.sort(key=...)` with the key
    (0 if the item has a summary else 1, published text). Python's `list.sort`
    is stable and compares strings code point by code point; the sort is
    modelled as a stable insertion sort, a function of the list. */
module Ranking {

  /** A feed item as `fetch_rss_items` builds it. */
  datatype Item = Item(
    sourceFeed: string, title: string, link: string,
    summary: string, published: string, id: string)

  /** The sort key: group 0 for items with a summary, 1 for the others, then
      the raw published text. */
  datatype RankKey = RankKey(group: nat, published: string)

  function KeyOf(it: Item): RankKey {
    RankKey(if it.summary != "" then 0 else 1, it.published)
  }

  /** Python's `a <= b` on strings: lexicographic by code point. */
  predicate LexLe(a: string, b: string) {
    if a == [] then true
    else if b == [] then false
    else if a[0] != b[0] then a[0] < b[0]
    else LexLe(a[1..], b[1..])
  }

  /** Tuple comparison of two keys. */
  predicate KeyLe(a: RankKey, b: RankKey) {
    a.group < b.group || (a.group == b.group && LexLe(a.published, b.published))
  }

  lemma {:induction false} LexLeTotal(a: string, b: string)
    ensures LexLe(a, b) || LexLe(b, a)
  {
    if a != [] && b != [] && a[0] == b[0] {
      LexLeTotal(a[1..], b[1..]);
    }
  }

  lemma {:induction false} LexLeTransitive(a: string, b: string, c: string)
    requires LexLe(a, b) && LexLe(b, c)
    ensures LexLe(a, c)
  {
    if a != [] && b != [] && c != [] && a[0] == b[0] && b[0] == c[0] {
      LexLeTransitive(a[1..], b[1..], c[1..]);
    }
  }

  lemma {:induction false} LexLeAntisymmetric(a: string, b: string)
    requires LexLe(a, b) && LexLe(b, a)
    ensures a == b
  {
    if a != [] && b != [] {
      LexLeAntisymmetric(a[1..], b[1..]);
      assert a == [a[0]] + a[1..] && b == [b[0]] + b[1..];
    }
  }

  lemma {:induction false} LexLeReflexive(a: string)
    ensures LexLe(a, a)
  {
    if a != [] { LexLeReflexive(a[1..]); }
  }

  /** The key order is a total preorder on items whose equal keys are equal. */
  lemma KeyLeTotal(a: RankKey, b: RankKey)
    ensures KeyLe(a, b) || KeyLe(b, a)
    ensures KeyLe(a, b) && KeyLe(b, a) ==> a == b
    ensures KeyLe(a, a)
  {
    LexLeTotal(a.published, b.published);
    LexLeReflexive(a.published);
    if KeyLe(a, b) && KeyLe(b, a) {
      LexLeAntisymmetric(a.published, b.published);
    }
  }

  lemma KeyLeTransitive(a: RankKey, b: RankKey, c: RankKey)
    requires KeyLe(a, b) && KeyLe(b, c)
    ensures KeyLe(a, c)
  {
    if a.group == b.group == c.group {
      LexLeTransitive(a.published, b.published, c.published);
    }
  }

  /** Insert `x` before the first element whose key is not below its own;
      `x` goes before equal keys because it came first in the input. */
  function Insert(x: Item, s: seq<Item>): seq<Item> {
    if s == [] then [x]
    else if KeyLe(KeyOf(x), KeyOf(s[0])) then [x] + s
    else [s[0]] + Insert(x, s[1..])
  }

  /** The list after `sort`. */
  function RankSort(s: seq<Item>): seq<Item> {
    if s == [] then [] else Insert(s[0], RankSort(s[1..]))
  }

  predicate Sorted(s: seq<Item>) {
    forall i, j :: 0 <= i < j < |s| ==> KeyLe(KeyOf(s[i]), KeyOf(s[j]))
  }

  /** The items of `s` with key `k`, in order. */
  function WithKey(s: seq<Item>, k: RankKey): seq<Item> {
    if s == [] then [] else (if KeyOf(s[0]) == k then [s[0]] else []) + WithKey(s[1..], k)
  }

  /** Inserting puts `x` somewhere in `s` and moves nothing else. */
  lemma {:induction false} InsertShape(x: Item, s: seq<Item>)
    ensures exists k :: 0 <= k <= |s| && Insert(x, s) == s[..k] + [x] + s[k..]
  {
    if s == [] {
      assert Insert(x, s) == s[..0] + [x] + s[0..];
    } else if KeyLe(KeyOf(x), KeyOf(s[0])) {
      assert Insert(x, s) == s[..0] + [x] + s[0..];
    } else {
      InsertShape(x, s[1..]);
      var k :| 0 <= k <= |s| - 1 && Insert(x, s[1..]) == s[1..][..k] + [x] + s[1..][k..];
      assert Insert(x, s) == s[..k + 1] + [x] + s[k + 1..];
    }
  }

  lemma InsertMultiset(x: Item, s: seq<Item>)
    ensures multiset(Insert(x, s)) == multiset(s) + multiset{x}
  {
    InsertShape(x, s);
    var k :| 0 <= k <= |s| && Insert(x, s) == s[..k] + [x] + s[k..];
    assert s == s[..k] + s[k..];
  }

  lemma {:induction false} InsertSorted(x: Item, s: seq<Item>)
    requires Sorted(s)
    ensures Sorted(Insert(x, s))
  {
    if s == [] {
    } else if KeyLe(KeyOf(x), KeyOf(s[0])) {
      forall j | 0 < j < |s| ensures KeyLe(KeyOf(x), KeyOf(s[j])) {
        KeyLeTransitive(KeyOf(x), KeyOf(s[0]), KeyOf(s[j]));
      }
    } else {
      KeyLeTotal(KeyOf(x), KeyOf(s[0]));
      InsertSorted(x, s[1..]);
      var t := Insert(x, s[1..]);
      InsertMultiset(x, s[1..]);
      forall j | 0 <= j < |t| ensures KeyLe(KeyOf(s[0]), KeyOf(t[j])) {
        assert t[j] in multiset(t);
        if t[j] != x {
          assert t[j] in multiset(s[1..]);
          var m :| 0 <= m < |s[1..]| && s[1..][m] == t[j];
          assert s[m + 1] == t[j];
        }
      }
    }
  }

  /** Inserting `x` does not move it past anything of its own key. */
  lemma {:induction false} InsertWithKey(x: Item, s: seq<Item>, k: RankKey)
    ensures WithKey(Insert(x, s), k) == WithKey([x] + s, k)
  {
    if s == [] {
    } else if KeyLe(KeyOf(x), KeyOf(s[0])) {
    } else {
      KeyLeTotal(KeyOf(x), KeyOf(s[0]));
      InsertWithKey(x, s[1..], k);
      assert ([s[0]] + Insert(x, s[1..]))[1..] == Insert(x, s[1..]);
      assert ([x] + s[1..])[1..] == s[1..];
      assert ([x] + s)[1..] == s;
    }
  }

  /** The ranking sort is a permutation, puts every item with a summary before
      every item without one, orders each group by published text, and is
      stable: the items sharing a key keep their input order. */
  lemma {:induction false} RankSortCorrect(s: seq<Item>)
    ensures multiset(RankSort(s)) == multiset(s)
    ensures Sorted(RankSort(s))
    ensures forall k :: WithKey(RankSort(s), k) == WithKey(s, k)
  {
    if s != [] {
      RankSortCorrect(s[1..]);
      var t := RankSort(s[1..]);
      InsertMultiset(s[0], t);
      InsertSorted(s[0], t);
      forall k ensures WithKey(RankSort(s), k) == WithKey(s, k) {
        InsertWithKey(s[0], t, k);
        assert ([s[0]] + t)[1..] == t;
      }
      assert s == [s[0]] + s[1..];
    }
  }

  /** What `Sorted` says about the two parts of the key. */
  lemma SortedMeaning(s: seq<Item>)
    requires Sorted(s)
    ensures forall i, j :: 0 <= i < j < |s| && s[j].summary != "" ==> s[i].summary != ""
    ensures forall i, j :: 0 <= i < j < |s| && (s[i].summary == "") == (s[j].summary == "") ==>
      LexLe(s[i].published, s[j].published)
  {
    forall i, j | 0 <= i < j < |s| ensures KeyLe(KeyOf(s[i]), KeyOf(s[j])) {}
  }
}
