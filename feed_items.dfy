/** `fetch_rss_items`: fetch every feed of a category, turn up to
    `max_items_per_feed` entries of each into items, drop repeated links
    (first occurrence wins), rank, and keep the first `max_items_total`. */
module FeedItems {
  import opened Text
  import opened Wrappers
  import opened CleanText
  import opened UrlNormalizer
  import opened FetchFilter
  import opened Ranking

  /** A parsed feed entry; an attribute the entry lacks reads as "". */
  datatype Entry = Entry(
    title: string, link: string, summary: string, description: string,
    published: string, updated: string)

  /** The outside world of one fetch: `requests.get` (`None` where it raises),
      the UTF-8 decoding of the sniffed head, and `feedparser.parse`. */
  datatype Network = Network(
    get: string -> Option<Response>,
    decode: seq<byte> -> string,
    parse: seq<byte> -> seq<Entry>)

  /** Library code used while building items: `html.unescape`, the URL codec
      and `_hash`. */
  datatype Libraries = Libraries(unescape: string -> string, codec: UrlCodec, hash: string -> string)

  /** `_fetch_url(url)`: the accepted body, or nothing. */
  function FetchUrl(net: Network, url: string): Option<seq<byte>> {
    match net.get(url)
    case None => None
    case Some(resp) => Accept(resp, net.decode)
  }

  /** The item built from one entry, or nothing when its cleaned title or its
      normalised link is empty. */
  function ItemOf(url: string, e: Entry, lib: Libraries): Option<Item> {
    var title := Clean(e.title, lib.unescape);
    var link := Normalized(e.link, lib.codec);
    var summary := Clean(if e.summary != "" then e.summary else e.description, lib.unescape);
    var published := if e.published != "" then e.published else e.updated;
    if title == "" || link == "" then None
    else Some(Item(url, title, link, summary, published, lib.hash(link)))
  }

  /** What an entry adds to the list: its item, if it has one. */
  function Emitted(it: Option<Item>): seq<Item> {
    match it case Some(x) => [x] case None => []
  }

  /** The items built from a list of entries of feed `url`, in order. */
  function ItemsOf(url: string, es: seq<Entry>, lib: Libraries): seq<Item> {
    Somes(Built(url, es, lib))
  }

  /** The optional item of each entry, in order. */
  function Built(url: string, es: seq<Entry>, lib: Libraries): (r: seq<Option<Item>>)
    ensures |r| == |es|
    ensures forall i :: 0 <= i < |es| ==> r[i] == ItemOf(url, es[i], lib)
  {
    seq(|es|, i requires 0 <= i < |es| => ItemOf(url, es[i], lib))
  }

  /** The items present in a list of optional items, in order. */
  function Somes(xs: seq<Option<Item>>): seq<Item> {
    if xs == [] then [] else Somes(xs[..|xs| - 1]) + Emitted(xs[|xs| - 1])
  }

  lemma SomesPrefix(xs: seq<Option<Item>>, j: int)
    requires 0 <= j < |xs|
    ensures Somes(xs[..j + 1]) == Somes(xs[..j]) + Emitted(xs[j])
  {
    assert xs[..j + 1][..j] == xs[..j];
  }

  lemma {:induction false} SomesShape(xs: seq<Option<Item>>)
    ensures |Somes(xs)| <= |xs|
    ensures forall x :: x in Somes(xs) ==> Some(x) in xs
  {
    if xs != [] {
      SomesShape(xs[..|xs| - 1]);
    }
  }

  /** What one feed contributes: nothing when the fetch gave no data,
      otherwise the items of its first `maxPerFeed` entries. */
  function FeedContribution(url: string, maxPerFeed: int, net: Network, lib: Libraries): seq<Item> {
    match FetchUrl(net, url)
    case None => []
    case Some(raw) => if raw == [] then [] else ItemsOf(url, SlicePrefix(net.parse(raw), maxPerFeed), lib)
  }

  /** The list `items` after the loop over all feeds. */
  function Collected(urls: seq<string>, maxPerFeed: int, net: Network, lib: Libraries): seq<Item> {
    if urls == [] then []
    else Collected(urls[..|urls| - 1], maxPerFeed, net, lib) + FeedContribution(urls[|urls| - 1], maxPerFeed, net, lib)
  }

  function Links(s: seq<Item>): set<string> {
    set i | 0 <= i < |s| :: s[i].link
  }

  /** The list `dedup`: each item whose link was not seen before. */
  function Dedup(s: seq<Item>): seq<Item> {
    if s == [] then []
    else
      var d := Dedup(s[..|s| - 1]);
      if s[|s| - 1].link in Links(d) then d else d + [s[|s| - 1]]
  }

  /** The value `fetch_rss_items` returns. */
  function RssItems(urls: seq<string>, maxPerFeed: int, maxTotal: int, net: Network, lib: Libraries): seq<Item> {
    SlicePrefix(RankSort(Dedup(Collected(urls, maxPerFeed, net, lib))), maxTotal)
  }

  predicate DistinctLinks(s: seq<Item>) {
    forall i, j :: 0 <= i < j < |s| ==> s[i].link != s[j].link
  }

  /** Index of the first item with link `l`. */
  function FirstIndex(s: seq<Item>, l: string): (i: nat)
    requires l in Links(s)
    ensures i < |s| && s[i].link == l
    ensures forall j :: 0 <= j < i ==> s[j].link != l
  {
    if s[0].link == l then 0
    else
      assert l in Links(s[1..]) by {
        var j :| 0 <= j < |s| && s[j].link == l;
        assert s[1..][j - 1].link == l;
      }
      1 + FirstIndex(s[1..], l)
  }

  lemma LinksAppend(s: seq<Item>, x: Item)
    ensures Links(s + [x]) == Links(s) + {x.link}
  {
    var t := s + [x];
    forall l | l in Links(t) ensures l in Links(s) + {x.link} {
      var j :| 0 <= j < |t| && t[j].link == l;
      if j < |s| { assert s[j].link == l; }
    }
    forall l | l in Links(s) ensures l in Links(t) {
      var j :| 0 <= j < |s| && s[j].link == l;
      assert t[j].link == l;
    }
    assert t[|s|].link == x.link;
  }

  lemma FirstIndexAppend(s: seq<Item>, x: Item, l: string)
    requires l in Links(s + [x])
    ensures l in Links(s) ==> FirstIndex(s + [x], l) == FirstIndex(s, l)
    ensures l !in Links(s) ==> FirstIndex(s + [x], l) == |s| && x.link == l
  {
    LinksAppend(s, x);
    var i := FirstIndex(s + [x], l);
    if l in Links(s) {
      var k := FirstIndex(s, l);
      assert (s + [x])[k].link == l;
    }
  }

  /** Deduplication keeps, for each link, the first item that carries it,
      and keeps those items in the order of their first appearance. */
  lemma {:induction false} DedupCorrect(s: seq<Item>)
    ensures Links(Dedup(s)) == Links(s)
    ensures DistinctLinks(Dedup(s))
    ensures forall k :: 0 <= k < |Dedup(s)| ==>
      Dedup(s)[k].link in Links(s) && Dedup(s)[k] == s[FirstIndex(s, Dedup(s)[k].link)]
    ensures forall k1, k2 :: 0 <= k1 < k2 < |Dedup(s)| ==>
      FirstIndex(s, Dedup(s)[k1].link) < FirstIndex(s, Dedup(s)[k2].link)
  {
    if s != [] {
      var p := s[..|s| - 1];
      var x := s[|s| - 1];
      assert s == p + [x];
      DedupCorrect(p);
      var d := Dedup(p);
      LinksAppend(p, x);
      forall l | l in Links(p) ensures FirstIndex(s, l) == FirstIndex(p, l) {
        FirstIndexAppend(p, x, l);
      }
      if x.link !in Links(d) {
        LinksAppend(d, x);
        FirstIndexAppend(p, x, x.link);
        var r := d + [x];
        forall k | 0 <= k < |r| ensures r[k].link in Links(s) && r[k] == s[FirstIndex(s, r[k].link)] {
          if k < |d| {
            assert r[k] == d[k];
            assert p[FirstIndex(p, d[k].link)] == s[FirstIndex(p, d[k].link)];
          }
        }
        forall k1, k2 | 0 <= k1 < k2 < |r| ensures FirstIndex(s, r[k1].link) < FirstIndex(s, r[k2].link) {
          if k2 == |d| {
            assert r[k1] == d[k1];
          }
        }
      }
    }
  }

  /** Items that deduplication, ranking and truncation can return all come
      from the collected list. */
  lemma {:induction false} DedupSubset(s: seq<Item>)
    ensures forall x :: x in Dedup(s) ==> x in s
  {
    if s != [] {
      DedupSubset(s[..|s| - 1]);
      assert s == s[..|s| - 1] + [s[|s| - 1]];
    }
  }

  /** Every collected item has a non-empty title and link and comes from one
      of the first `maxPerFeed` entries of a feed whose fetch gave data. */
  predicate FromFeed(x: Item, urls: seq<string>, maxPerFeed: int, net: Network, lib: Libraries) {
    && x.title != "" && x.link != ""
    && (exists i :: 0 <= i < |urls| && urls[i] == x.sourceFeed
         && FetchUrl(net, urls[i]).Some?
         && x in FeedContribution(urls[i], maxPerFeed, net, lib))
  }

  lemma ItemsOfShape(url: string, es: seq<Entry>, lib: Libraries)
    ensures |ItemsOf(url, es, lib)| <= |es|
    ensures forall x :: x in ItemsOf(url, es, lib) ==>
      x.title != "" && x.link != "" && x.sourceFeed == url && exists e :: e in es && ItemOf(url, e, lib) == Some(x)
  {
    var opts := Built(url, es, lib);
    SomesShape(opts);
    forall x | x in ItemsOf(url, es, lib)
      ensures x.title != "" && x.link != "" && x.sourceFeed == url && exists e :: e in es && ItemOf(url, e, lib) == Some(x)
    {
      var i :| 0 <= i < |opts| && opts[i] == Some(x);
      assert ItemOf(url, es[i], lib) == Some(x);
    }
  }

  lemma FeedContributionShape(url: string, maxPerFeed: int, net: Network, lib: Libraries)
    ensures 0 <= maxPerFeed ==> |FeedContribution(url, maxPerFeed, net, lib)| <= maxPerFeed
    ensures forall x :: x in FeedContribution(url, maxPerFeed, net, lib) ==>
      x.title != "" && x.link != "" && x.sourceFeed == url && FetchUrl(net, url).Some?
  {
    var raw := FetchUrl(net, url);
    if raw.Some? && raw.value != [] {
      ItemsOfShape(url, SlicePrefix(net.parse(raw.value), maxPerFeed), lib);
    }
  }

  /** `fetch_rss_items` looks at no more than `maxPerFeed` entries of any feed. */
  lemma {:induction false} CollectedBound(urls: seq<string>, maxPerFeed: nat, net: Network, lib: Libraries)
    ensures |Collected(urls, maxPerFeed, net, lib)| <= |urls| * maxPerFeed
  {
    if urls != [] {
      var p := urls[..|urls| - 1];
      CollectedBound(p, maxPerFeed, net, lib);
      var u := urls[|urls| - 1];
      FeedContributionShape(u, maxPerFeed, net, lib);
      assert Collected(urls, maxPerFeed, net, lib) ==
        Collected(p, maxPerFeed, net, lib) + FeedContribution(u, maxPerFeed, net, lib);
      MulStep(|p|, maxPerFeed);
    }
  }

  lemma MulStep(n: nat, m: nat)
    ensures (n + 1) * m == n * m + m
  {
  }

  /** Every collected item has a non-empty title and link and comes from a
      feed of the list whose fetch gave data; feeds without data add nothing. */
  lemma {:induction false} CollectedOrigin(urls: seq<string>, maxPerFeed: int, net: Network, lib: Libraries)
    ensures forall x :: x in Collected(urls, maxPerFeed, net, lib) ==> FromFeed(x, urls, maxPerFeed, net, lib)
  {
    if urls != [] {
      var p := urls[..|urls| - 1];
      var u := urls[|urls| - 1];
      CollectedOrigin(p, maxPerFeed, net, lib);
      FeedContributionShape(u, maxPerFeed, net, lib);
      forall x | x in Collected(urls, maxPerFeed, net, lib) ensures FromFeed(x, urls, maxPerFeed, net, lib) {
        if x in Collected(p, maxPerFeed, net, lib) {
          assert FromFeed(x, p, maxPerFeed, net, lib);
          var i :| 0 <= i < |p| && p[i] == x.sourceFeed && FetchUrl(net, p[i]).Some?
            && x in FeedContribution(p[i], maxPerFeed, net, lib);
          assert urls[i] == p[i];
        } else {
          assert urls[|urls| - 1] == u;
        }
      }
    }
  }

  /** `fetch_rss_items` returns at most `max_items_total` items (when that is
      not negative) and never more than `max_items_per_feed` per feed; the
      result is a prefix of the ranked, deduplicated list. */
  lemma RssItemsSize(urls: seq<string>, maxPerFeed: int, maxTotal: int, net: Network, lib: Libraries)
    ensures var r := RssItems(urls, maxPerFeed, maxTotal, net, lib);
      && (0 <= maxTotal ==> |r| <= maxTotal)
      && (0 <= maxPerFeed ==> |r| <= |urls| * maxPerFeed)
      && r == RankSort(Dedup(Collected(urls, maxPerFeed, net, lib)))[..|r|]
  {
    var c := Collected(urls, maxPerFeed, net, lib);
    if 0 <= maxPerFeed {
      CollectedBound(urls, maxPerFeed, net, lib);
    }
    DedupCorrect(c);
    DedupSubset(c);
    RankSortCorrect(Dedup(c));
    assert |Dedup(c)| <= |c| by { DedupShorter(c); }
    assert |RankSort(Dedup(c))| == |Dedup(c)| by {
      assert |multiset(RankSort(Dedup(c)))| == |multiset(Dedup(c))|;
    }
  }

  lemma {:induction false} DedupShorter(s: seq<Item>)
    ensures |Dedup(s)| <= |s|
  {
    if s != [] {
      DedupShorter(s[..|s| - 1]);
    }
  }

  /** The returned items have pairwise distinct links and are ranked. */
  lemma RssItemsDistinctRanked(urls: seq<string>, maxPerFeed: int, maxTotal: int, net: Network, lib: Libraries)
    ensures DistinctLinks(RssItems(urls, maxPerFeed, maxTotal, net, lib))
    ensures Sorted(RssItems(urls, maxPerFeed, maxTotal, net, lib))
  {
    var d := Dedup(Collected(urls, maxPerFeed, net, lib));
    DedupCorrect(Collected(urls, maxPerFeed, net, lib));
    RankSortCorrect(d);
    RankSortDistinct(d);
  }

  /** Every returned item is the first item collected with its link, and came
      from a feed of the list whose fetch gave data; title and link are
      non-empty. */
  lemma RssItemsOrigin(urls: seq<string>, maxPerFeed: int, maxTotal: int, net: Network, lib: Libraries)
    ensures var c := Collected(urls, maxPerFeed, net, lib);
      forall x :: x in RssItems(urls, maxPerFeed, maxTotal, net, lib) ==>
        && FromFeed(x, urls, maxPerFeed, net, lib)
        && x.link in Links(c) && x == c[FirstIndex(c, x.link)]
  {
    var c := Collected(urls, maxPerFeed, net, lib);
    var d := Dedup(c);
    var s := RankSort(d);
    var r := RssItems(urls, maxPerFeed, maxTotal, net, lib);
    DedupCorrect(c);
    DedupSubset(c);
    RankSortCorrect(d);
    CollectedOrigin(urls, maxPerFeed, net, lib);
    forall x | x in r ensures x in d {
      assert x in s;
      assert x in multiset(s);
    }
    forall x | x in d ensures x.link in Links(c) && x == c[FirstIndex(c, x.link)] {
      var k :| 0 <= k < |d| && d[k] == x;
    }
  }

  /** Inserting an item with a new link keeps links distinct. */
  lemma InsertDistinct(x: Item, s: seq<Item>)
    requires DistinctLinks(s) && x.link !in Links(s)
    ensures DistinctLinks(Insert(x, s))
    ensures Links(Insert(x, s)) == Links(s) + {x.link}
  {
    InsertShape(x, s);
    var k :| 0 <= k <= |s| && Insert(x, s) == s[..k] + [x] + s[k..];
    SpliceDistinct(x, s, k);
    SpliceLinks(x, s, k);
  }

  /** Putting an item with a new link anywhere into a list keeps links distinct. */
  lemma SpliceDistinct(x: Item, s: seq<Item>, k: int)
    requires DistinctLinks(s) && x.link !in Links(s) && 0 <= k <= |s|
    ensures DistinctLinks(s[..k] + [x] + s[k..])
  {
    var t := s[..k] + [x] + s[k..];
    assert forall m :: 0 <= m < k ==> t[m] == s[m];
    assert t[k] == x;
    assert forall m :: k < m < |t| ==> t[m] == s[m - 1];
    forall i, j | 0 <= i < j < |t| ensures t[i].link != t[j].link {
      if i != k && j != k {
        var i', j' := if i < k then i else i - 1, if j < k then j else j - 1;
        assert t[i] == s[i'] && t[j] == s[j'];
      } else if i == k {
        assert s[j - 1].link in Links(s);
      } else {
        assert s[i].link in Links(s);
      }
    }
  }

  /** Putting an item anywhere into a list adds just its link. */
  lemma SpliceLinks(x: Item, s: seq<Item>, k: int)
    requires 0 <= k <= |s|
    ensures Links(s[..k] + [x] + s[k..]) == Links(s) + {x.link}
  {
    var t := s[..k] + [x] + s[k..];
    assert t[k] == x;
    forall l | l in Links(t) ensures l in Links(s) + {x.link} {
      var m :| 0 <= m < |t| && t[m].link == l;
      if m < k { assert t[m] == s[m]; } else if m > k { assert t[m] == s[m - 1]; }
    }
    forall l | l in Links(s) ensures l in Links(t) {
      var m :| 0 <= m < |s| && s[m].link == l;
      if m < k { assert t[m] == s[m]; } else { assert t[m + 1] == s[m]; }
    }
  }

  /** Ranking keeps the links and keeps them distinct. */
  lemma {:induction false} RankSortDistinct(s: seq<Item>)
    requires DistinctLinks(s)
    ensures DistinctLinks(RankSort(s)) && Links(RankSort(s)) == Links(s)
  {
    if s != [] {
      var t := s[1..];
      assert DistinctLinks(t);
      RankSortDistinct(t);
      assert s[0].link !in Links(t) by {
        forall m | 0 <= m < |t| ensures t[m].link != s[0].link {
          assert t[m] == s[m + 1];
        }
      }
      InsertDistinct(s[0], RankSort(t));
      assert s == [s[0]] + t;
      LinksCons(s[0], t);
    }
  }

  lemma LinksCons(x: Item, t: seq<Item>)
    ensures Links([x] + t) == {x.link} + Links(t)
  {
    var s := [x] + t;
    forall l | l in Links(s) ensures l in {x.link} + Links(t) {
      var m :| 0 <= m < |s| && s[m].link == l;
      if m > 0 { assert t[m - 1].link == l; }
    }
    forall l | l in Links(t) ensures l in Links(s) {
      var m :| 0 <= m < |t| && t[m].link == l;
      assert s[m + 1].link == l;
    }
    assert s[0].link == x.link;
  }

  /** The body of the entry loop: the item one entry yields, if any. */
  method EntryItem(url: string, e: Entry, lib: Libraries) returns (it: Option<Item>)
    ensures it == ItemOf(url, e, lib)
  {
    var title := Clean(e.title, lib.unescape);
    var link := NormalizeUrl(e.link, lib.codec);
    var summary := Clean(if e.summary != "" then e.summary else e.description, lib.unescape);
    var published := if e.published != "" then e.published else e.updated;
    if title == "" || link == "" {
      return None;
    }
    it := Some(Item(url, title, link, summary, published, lib.hash(link)));
  }

  /** The inner `for e in entries[:max_items_per_feed]` loop, appending to `items`. */
  method EntryLoop(url: string, capped: seq<Entry>, lib: Libraries, items0: seq<Item>) returns (items: seq<Item>)
    ensures items == items0 + ItemsOf(url, capped, lib)
  {
    ghost var opts := Built(url, capped, lib);
    items := items0;
    var j := 0;
    while j < |capped|
      invariant 0 <= j <= |capped|
      invariant items == items0 + Somes(opts[..j])
    {
      var it := EntryItem(url, capped[j], lib);
      SomesStep(items0, items, opts, j, it);
      if it.Some? {
        items := items + [it.value];
      }
      j := j + 1;
    }
    assert opts[..|capped|] == opts;
  }

  /** One turn of the entry loop keeps `items` equal to `items0` followed by
      the items of the entries seen so far. */
  lemma SomesStep(items0: seq<Item>, items: seq<Item>, opts: seq<Option<Item>>, j: nat, it: Option<Item>)
    requires j < |opts| && it == opts[j] && items == items0 + Somes(opts[..j])
    ensures (if it.Some? then items + [it.value] else items) == items0 + Somes(opts[..j + 1])
  {
    SomesPrefix(opts, j);
  }

  method DedupLoop(items: seq<Item>) returns (dedup: seq<Item>)
    ensures dedup == Dedup(items)
  {
    var seen: set<string> := {};
    dedup := [];
    for i := 0 to |items|
      invariant dedup == Dedup(items[..i])
      invariant seen == Links(dedup)
    {
      var it := items[i];
      assert items[..i + 1][..i] == items[..i];
      assert items[..i + 1][i] == it;
      if it.link in seen {
        continue;
      }
      LinksAppend(dedup, it);
      seen := seen + {it.link};
      dedup := dedup + [it];
    }
    assert items[..|items|] == items;
  }

  /** `fetch_rss_items(feed_urls, max_items_per_feed, max_items_total)`. */
  method FetchRssItems(feedUrls: seq<string>, maxPerFeed: int, maxTotal: int, net: Network, lib: Libraries)
    returns (result: seq<Item>)
    ensures result == RssItems(feedUrls, maxPerFeed, maxTotal, net, lib)
  {
    var items: seq<Item> := [];
    for i := 0 to |feedUrls|
      invariant items == Collected(feedUrls[..i], maxPerFeed, net, lib)
    {
      var url := feedUrls[i];
      assert feedUrls[..i + 1][..i] == feedUrls[..i];
      var raw := FetchUrl(net, url);
      if raw.None? || raw.value == [] {
        continue;
      }
      var entries := net.parse(raw.value);
      items := EntryLoop(url, SlicePrefix(entries, maxPerFeed), lib, items);
    }
    assert feedUrls[..|feedUrls|] == feedUrls;
    var dedup := DedupLoop(items);
    dedup := RankSort(dedup);
    result := SlicePrefix(dedup, maxTotal);
  }
}
