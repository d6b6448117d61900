/** The ingestion run: the feed lists read from the environment, one section
    per category (a model-written summary, or a placeholder when nothing was
    fetched), the daily Markdown document and the key it is stored under. */
module DailyDigest {
  import opened Text
  import opened Wrappers
  import opened Ranking
  import opened FeedItems
  import opened Summarizer
  import opened Calendar

  // ---------- Configuration ----------

  const DefaultMaxItemsPerCategory: int := 30
  const DefaultMaxItemsPerFeed: int := 20

  const DefaultPoliticsFeeds: seq<string> := [
    "http://feeds.feedburner.com/prachataienglish",
    "https://api.gdeltproject.org/api/v2/doc/doc?query=thailand%20(politics%20OR%20government%20OR%20election)&mode=ArtList&format=rss&maxrecords=50&sort=HybridRel"
  ]
  const DefaultEconomyFeeds: seq<string> := [
    "https://api.gdeltproject.org/api/v2/doc/doc?query=thailand%20(economy%20OR%20gdp%20OR%20inflation%20OR%20bank%20OR%20baht%20OR%20trade%20OR%20tourism)&mode=ArtList&format=rss&maxrecords=50&sort=HybridRel"
  ]
  const DefaultTechFeeds: seq<string> := [
    "https://api.gdeltproject.org/api/v2/doc/doc?query=thailand%20(technology%20OR%20ai%20OR%20cyber%20OR%20software%20OR%20startup%20OR%20digital)&mode=ArtList&format=rss&maxrecords=50&sort=HybridRel"
  ]

  /** The stripped, non-blank pieces, in order. */
  function NonBlank(pieces: seq<string>): (r: seq<string>)
    ensures |r| <= |pieces|
    ensures forall i :: 0 <= i < |r| ==> r[i] != [] && Trimmed(r[i])
  {
    if pieces == [] then []
    else
      var init := NonBlank(pieces[..|pieces| - 1]);
      var last := pieces[|pieces| - 1];
      var u := Strip(last);
      if u != [] then
        StripTrimmed(last);
        TrimmedSnoc(init, u);
        init + [u]
      else init
  }

  lemma TrimmedSnoc(init: seq<string>, u: string)
    requires forall i :: 0 <= i < |init| ==> init[i] != [] && Trimmed(init[i])
    requires u != [] && Trimmed(u)
    ensures forall i :: 0 <= i < |init + [u]| ==> (init + [u])[i] != [] && Trimmed((init + [u])[i])
  {
    forall i | 0 <= i < |init + [u]| ensures (init + [u])[i] != [] && Trimmed((init + [u])[i]) {
      if i < |init| { assert (init + [u])[i] == init[i]; } else { assert (init + [u])[i] == u; }
    }
  }

  /** A comma-separated feed list from the environment (an unset variable
      reads as ""), falling back to the built-in list when it names no feed. */
  function FeedList(env: Option<string>, fallback: seq<string>): (r: seq<string>)
    ensures r == fallback || (r != [] && forall i :: 0 <= i < |r| ==> r[i] != [] && Trimmed(r[i]))
  {
    var raw := match env case Some(s) => s case None => "";
    var urls := NonBlank(Split(raw, ','));
    if urls == [] then fallback else urls
  }

  lemma NonBlankSnoc(init: seq<string>, p: string)
    ensures NonBlank(init + [p]) == NonBlank(init) + (if Strip(p) != [] then [Strip(p)] else [])
  {
    assert (init + [p])[..|init|] == init;
  }

  /** Pieces that are already stripped and non-blank pass through unchanged. */
  lemma {:induction false} NonBlankKeeps(pieces: seq<string>)
    requires forall i :: 0 <= i < |pieces| ==> pieces[i] != [] && Trimmed(pieces[i])
    ensures NonBlank(pieces) == pieces
  {
    if pieces != [] {
      var n := |pieces| - 1;
      var init, last := pieces[..n], pieces[n];
      assert pieces == init + [last];
      NonBlankKeeps(init);
      StripOfTrimmed(last);
      NonBlankSnoc(init, last);
    }
  }

  /** Whitespace-only pieces all vanish. */
  lemma {:induction false} NonBlankDropsBlank(pieces: seq<string>)
    requires forall i :: 0 <= i < |pieces| ==> AllSpace(pieces[i])
    ensures NonBlank(pieces) == []
  {
    if pieces != [] {
      var n := |pieces| - 1;
      NonBlankDropsBlank(pieces[..n]);
      StripEmptyIffAllSpace(pieces[n]);
    }
  }

  /** Every character of a piece of `s.split(sep)` comes from `s`. */
  lemma {:induction false} SplitChars(s: string, sep: char)
    ensures forall i, k :: 0 <= i < |Split(s, sep)| && 0 <= k < |Split(s, sep)[i]| ==> Split(s, sep)[i][k] in s
    decreases |s|
  {
    if s != [] {
      SplitChars(s[1..], sep);
    }
  }

  /** Writing a list of clean URLs into the variable, comma-separated, reads
      back exactly that list. */
  lemma FeedListRoundTrip(urls: seq<string>, fallback: seq<string>)
    requires urls != []
    requires forall i :: 0 <= i < |urls| ==> urls[i] != [] && Trimmed(urls[i]) && ',' !in urls[i]
    ensures FeedList(Some(Join(",", urls)), fallback) == urls
  {
    SplitJoin(urls, ',');
    assert [','] == ",";
    NonBlankKeeps(urls);
  }

  /** An unset variable, or one holding only commas and whitespace, selects
      the built-in list. */
  lemma FeedListFallback(raw: string, fallback: seq<string>)
    requires forall k :: 0 <= k < |raw| ==> raw[k] == ',' || IsSpace(raw[k])
    ensures FeedList(None, fallback) == fallback
    ensures FeedList(Some(raw), fallback) == fallback
  {
    NonBlankDropsBlank(Split("", ','));
    var pieces := Split(raw, ',');
    SplitChars(raw, ',');
    forall i | 0 <= i < |pieces| ensures AllSpace(pieces[i]) {
      forall k | 0 <= k < |pieces[i]| ensures IsSpace(pieces[i][k]) {
        assert pieces[i][k] in raw;
        assert pieces[i][k] != ',';
      }
    }
    NonBlankDropsBlank(pieces);
  }

  /** The environment the run reads: the feed lists and the two limits (an
      integer limit is given already parsed). */
  datatype Environment = Environment(
    rssPolitics: Option<string>, rssEconomy: Option<string>, rssTech: Option<string>,
    maxItemsPerCategory: Option<int>, maxItemsPerFeed: Option<int>)

  datatype Config = Config(
    politics: seq<string>, economy: seq<string>, tech: seq<string>,
    maxPerFeed: int, maxPerCategory: int)

  function OrElse(v: Option<int>, fallback: int): int {
    match v case Some(n) => n case None => fallback
  }

  function ConfigOf(env: Environment): (cfg: Config)
    ensures env.rssPolitics.None? ==> cfg.politics == DefaultPoliticsFeeds
    ensures env.rssEconomy.None? ==> cfg.economy == DefaultEconomyFeeds
    ensures env.rssTech.None? ==> cfg.tech == DefaultTechFeeds
    ensures cfg.politics != [] && cfg.economy != [] && cfg.tech != []
    ensures env.maxItemsPerFeed.None? ==> cfg.maxPerFeed == 20
    ensures env.maxItemsPerCategory.None? ==> cfg.maxPerCategory == 30
  {
    FeedListFallback("", DefaultPoliticsFeeds);
    FeedListFallback("", DefaultEconomyFeeds);
    FeedListFallback("", DefaultTechFeeds);
    Config(
      FeedList(env.rssPolitics, DefaultPoliticsFeeds),
      FeedList(env.rssEconomy, DefaultEconomyFeeds),
      FeedList(env.rssTech, DefaultTechFeeds),
      OrElse(env.maxItemsPerFeed, DefaultMaxItemsPerFeed),
      OrElse(env.maxItemsPerCategory, DefaultMaxItemsPerCategory))
  }

  // ---------- The document ----------

  /** A section of the document: its heading and its Markdown body. */
  datatype Section = Section(title: string, md: string)

  function Header(date: string): string {
    "# Thailand Daily News (" + date + ")\n\n"
  }

  /** A table-of-contents entry linking to the section's anchor. */
  function TocLine(title: string): string {
    "- [" + title + "](#" + title + ")"
  }

  function TocLines(sections: seq<Section>): (r: seq<string>)
    ensures |r| == |sections|
    ensures forall i :: 0 <= i < |sections| ==> r[i] == TocLine(sections[i].title)
  {
    seq(|sections|, i requires 0 <= i < |sections| => TocLine(sections[i].title))
  }

  function Toc(sections: seq<Section>): string {
    "## 目次\n" + Join("\n", TocLines(sections)) + "\n\n"
  }

  function Block(s: Section): string {
    "## " + s.title + "\n\n" + s.md + "\n\n---\n\n"
  }

  /** The section blocks, in order. */
  function Blocks(sections: seq<Section>): string {
    if sections == [] then []
    else Blocks(sections[..|sections| - 1]) + Block(sections[|sections| - 1])
  }

  /** The document `build_daily_markdown` produces. */
  function DailyMarkdown(date: string, sections: seq<Section>): string {
    Header(date) + Toc(sections) + Blocks(sections)
  }

  /** `build_daily_markdown(date_str, sections)` */
  method BuildDailyMarkdown(date: string, sections: seq<Section>) returns (doc: string)
    ensures doc == DailyMarkdown(date, sections)
  {
    var header := "# Thailand Daily News (" + date + ")\n\n";
    var toc := "## 目次\n" + Join("\n", TocLines(sections)) + "\n\n";
    var body := "";
    var i := 0;
    while i < |sections|
      invariant 0 <= i <= |sections|
      invariant body == Blocks(sections[..i])
    {
      var s := sections[i];
      body := body + ("## " + s.title + "\n\n" + s.md + "\n\n---\n\n");
      assert sections[..i + 1][..i] == sections[..i];
      i := i + 1;
    }
    assert sections[..i] == sections;
    doc := header + toc + body;
  }

  /** Cutting the list anywhere cuts the blocks there too. */
  lemma {:induction false} BlocksSplit(s: seq<Section>, k: int)
    requires 0 <= k <= |s|
    ensures Blocks(s) == Blocks(s[..k]) + Blocks(s[k..])
    decreases |s|
  {
    if k == |s| {
      assert s[..k] == s && s[k..] == [];
    } else {
      var n := |s| - 1;
      var init, tail := s[..n], s[k..];
      BlocksSplit(init, k);
      assert init[..k] == s[..k];
      assert init[k..] == tail[..|tail| - 1] && tail[|tail| - 1] == s[n];
      var x, y, z := Blocks(s[..k]), Blocks(init[k..]), Block(s[n]);
      assert Blocks(s) == x + y + z;
      assert Blocks(tail) == y + z;
      assert x + y + z == x + (y + z);
    }
  }

  /** The blocks of a list are those before position `i`, the block of
      section `i`, then those after it. */
  lemma BlocksAround(sections: seq<Section>, i: int)
    requires 0 <= i < |sections|
    ensures Blocks(sections) == Blocks(sections[..i]) + Block(sections[i]) + Blocks(sections[i + 1..])
  {
    var upto := sections[..i + 1];
    BlocksSplit(sections, i + 1);
    assert upto[..i] == sections[..i] && upto[i] == sections[i];
    assert Blocks(upto) == Blocks(sections[..i]) + Block(sections[i]);
  }

  /** Section `i` sits, as its own block, after the blocks of the sections
      before it and before the blocks of those after it. */
  lemma SectionPlacement(date: string, sections: seq<Section>, i: int)
    requires 0 <= i < |sections|
    ensures DailyMarkdown(date, sections) ==
      Header(date) + Toc(sections) + Blocks(sections[..i]) + Block(sections[i]) + Blocks(sections[i + 1..])
  {
    var front := Header(date) + Toc(sections);
    BlocksAround(sections, i);
    var pre, mid, post := Blocks(sections[..i]), Block(sections[i]), Blocks(sections[i + 1..]);
    assert DailyMarkdown(date, sections) == front + (pre + mid + post);
  }

  lemma {:induction false} ContainsAfter(x: string, p: string, y: string)
    ensures Contains(x + p + y, p)
    decreases |x|
  {
    if x == [] {
      assert (x + p + y)[..|p|] == p;
    } else {
      ContainsAfter(x[1..], p, y);
      assert (x + p + y)[1..] == x[1..] + p + y;
    }
  }

  lemma Regroup(x: string, p: string, q: string, z: string)
    ensures x + (p + q) + z == x + p + (q + z)
  {
  }

  /** Every table-of-contents link has its heading in the document: the
      heading line of each section occurs in it. */
  lemma HeadingsPresent(date: string, sections: seq<Section>, i: int)
    requires 0 <= i < |sections|
    ensures Contains(DailyMarkdown(date, sections), "## " + sections[i].title + "\n\n")
  {
    SectionPlacement(date, sections, i);
    var s := sections[i];
    var x := Header(date) + Toc(sections) + Blocks(sections[..i]);
    var p := "## " + s.title + "\n\n";
    var q := s.md + "\n\n---\n\n";
    var post := Blocks(sections[i + 1..]);
    assert Block(s) == p + q;
    Regroup(x, p, q, post);
    ContainsAfter(x, p, q + post);
  }

  /** The contents list holds one line per section, in order, when no title
      spans several lines. */
  lemma TocRoundTrip(sections: seq<Section>)
    requires sections != []
    requires forall i :: 0 <= i < |sections| ==> '\n' !in sections[i].title
    ensures Split(Join("\n", TocLines(sections)), '\n') == TocLines(sections)
    ensures forall i :: 0 <= i < |sections| ==> TocLines(sections)[i] == TocLine(sections[i].title)
  {
    var lines := TocLines(sections);
    forall i | 0 <= i < |lines| ensures '\n' !in lines[i] {
      var t := sections[i].title;
      assert lines[i] == "- [" + t + "](#" + t + ")";
    }
    assert "\n" == ['\n'];
    SplitJoin(lines, '\n');
  }

  // ---------- Storage ----------

  /** `Thailand/<date>.md` */
  function StorageKey(date: string): (key: string)
    ensures |key| == |date| + 12 && StartsWith(key, "Thailand/")
    ensures key[|key| - 3..] == ".md" && key[9..|key| - 3] == date
  {
    "Thailand/" + date + ".md"
  }

  /** Distinct dates are stored under distinct keys. */
  lemma StorageKeyInjective(a: string, b: string)
    requires StorageKey(a) == StorageKey(b)
    ensures a == b
  {
    assert a == StorageKey(a)[9..|StorageKey(a)| - 3];
  }

  // ---------- Sections ----------

  const PoliticsTitle := "政治"
  const EconomyTitle := "経済"
  const TechTitle := "テック"
  const FeedDownOrFormatChanged := "_（取得0件：RSSが落ちている/フィード形式変更の可能性）_"
  const FeedDownOrQueryTooNarrow := "_（取得0件：RSSが落ちている/検索条件が強すぎる可能性）_"

  /** The model service: its parsed reply to a request about a category and
      its compacted items, and the JSON serialiser used for the dump. */
  datatype Bedrock = Bedrock(invoke: (string, seq<CompactItem>) -> Json, dumps: Json -> string)

  /** `bedrock_summarize_and_translate`; None when it raises. */
  function Summary(category: string, items: seq<Item>, ai: Bedrock): Option<string> {
    match Extract(ai.invoke(category, CompactList(items)))
    case Text(md) => Some(md)
    case Dump(p) => Some(ai.dumps(p))
    case Raised => None
  }

  method SummarizeAndTranslate(category: string, items: seq<Item>, ai: Bedrock) returns (r: Option<string>)
    ensures r == Summary(category, items, ai)
  {
    var compact := CompactProjection(items);
    var payload := ai.invoke(category, compact);
    var e := ExtractMarkdown(payload);
    match e
    case Text(md) => r := Some(md);
    case Dump(p) => r := Some(ai.dumps(p));
    case Raised => r := None;
  }

  /** A summary is the stripped non-empty text the reply carried, or else the
      reply itself, serialised; there is none exactly when extraction raised. */
  lemma SummaryMeaning(category: string, items: seq<Item>, ai: Bedrock)
    ensures var payload := ai.invoke(category, CompactList(items));
      && (Summary(category, items, ai).None? <==> Extract(payload).Raised?)
      && (Summary(category, items, ai).Some? ==>
            (Summary(category, items, ai).value != [] && Trimmed(Summary(category, items, ai).value))
            || Summary(category, items, ai).value == ai.dumps(payload))
  {
    ExtractNeverBlank(ai.invoke(category, CompactList(items)));
  }

  /** One category's section: the summary when items were fetched, the
      placeholder otherwise; None when summarising raised. */
  function SectionFor(title: string, items: seq<Item>, placeholder: string, ai: Bedrock): (r: Option<Section>)
    ensures r.Some? ==> r.value.title == title
    ensures items == [] ==> r == Some(Section(title, placeholder))
    ensures items != [] ==> (r.Some? <==> Summary(title, items, ai).Some?)
  {
    if items != [] then
      match Summary(title, items, ai)
      case Some(md) => Some(Section(title, md))
      case None => None
    else Some(Section(title, placeholder))
  }

  /** One `if items: ... else: ...` step of the handler. */
  method CategorySection(title: string, items: seq<Item>, placeholder: string, ai: Bedrock) returns (r: Option<Section>)
    ensures r == SectionFor(title, items, placeholder, ai)
  {
    if items != [] {
      var md := SummarizeAndTranslate(title, items, ai);
      if md.None? { return None; }
      r := Some(Section(title, md.value));
    } else {
      r := Some(Section(title, placeholder));
    }
  }

  /** The three sections, politics, economy, tech; None when one raised. */
  function DailySections(p: seq<Item>, e: seq<Item>, t: seq<Item>, ai: Bedrock): Option<seq<Section>> {
    match (SectionFor(PoliticsTitle, p, FeedDownOrFormatChanged, ai),
           SectionFor(EconomyTitle, e, FeedDownOrQueryTooNarrow, ai),
           SectionFor(TechTitle, t, FeedDownOrFormatChanged, ai))
    case (Some(s1), Some(s2), Some(s3)) => Some([s1, s2, s3])
    case _ => None
  }

  // ---------- The handler ----------

  /** What the run does with the world outside: feeds, libraries, the model. */
  datatype World = World(net: Network, lib: Libraries, ai: Bedrock)

  /** A stored document with the item count of each category, or an
      exception that ended the run before anything was stored. */
  datatype Outcome =
    | Stored(key: string, markdown: string, politics: nat, economy: nat, tech: nat)
    | Crashed

  function Fetched(urls: seq<string>, cfg: Config, w: World): seq<Item> {
    RssItems(urls, cfg.maxPerFeed, cfg.maxPerCategory, w.net, w.lib)
  }

  /** The whole run for the day `today` (in Thailand time). */
  function DailyRun(today: Date, cfg: Config, w: World): Outcome
    requires InRange(today)
  {
    var date := DateStamp(today);
    var p := Fetched(cfg.politics, cfg, w);
    var e := Fetched(cfg.economy, cfg, w);
    var t := Fetched(cfg.tech, cfg, w);
    match DailySections(p, e, t, w.ai)
    case Some(sections) => Stored(StorageKey(date), DailyMarkdown(date, sections), |p|, |e|, |t|)
    case None => Crashed
  }

  /** `lambda_handler` */
  method LambdaHandler(today: Date, env: Environment, w: World) returns (r: Outcome)
    requires InRange(today)
    ensures r == DailyRun(today, ConfigOf(env), w)
  {
    var cfg := ConfigOf(env);
    var date := DateStamp(today);
    var p := FetchRssItems(cfg.politics, cfg.maxPerFeed, cfg.maxPerCategory, w.net, w.lib);
    var e := FetchRssItems(cfg.economy, cfg.maxPerFeed, cfg.maxPerCategory, w.net, w.lib);
    var t := FetchRssItems(cfg.tech, cfg.maxPerFeed, cfg.maxPerCategory, w.net, w.lib);

    var s1 := CategorySection(PoliticsTitle, p, FeedDownOrFormatChanged, w.ai);
    if s1.None? { return Crashed; }
    var s2 := CategorySection(EconomyTitle, e, FeedDownOrQueryTooNarrow, w.ai);
    if s2.None? { return Crashed; }
    var s3 := CategorySection(TechTitle, t, FeedDownOrFormatChanged, w.ai);
    if s3.None? { return Crashed; }
    var sections := [s1.value, s2.value, s3.value];

    var doc := BuildDailyMarkdown(date, sections);
    r := Stored(StorageKey(date), doc, |p|, |e|, |t|);
  }

  /** A stored run writes the day's key, and its document holds exactly the
      three sections politics, economy, tech, in that order, each a summary of
      its items or, when there were none, the placeholder; the counts are the
      item numbers, each within the per-category limit. */
  lemma StoredRunShape(today: Date, cfg: Config, w: World)
    requires InRange(today)
    ensures var r := DailyRun(today, cfg, w);
      var p := Fetched(cfg.politics, cfg, w);
      var e := Fetched(cfg.economy, cfg, w);
      var t := Fetched(cfg.tech, cfg, w);
      r.Stored? ==>
        && r.key == StorageKey(DateStamp(today))
        && DailySections(p, e, t, w.ai).Some?
        && var s := DailySections(p, e, t, w.ai).value;
        && |s| == 3
        && s[0].title == PoliticsTitle && s[1].title == EconomyTitle && s[2].title == TechTitle
        && r.markdown == DailyMarkdown(DateStamp(today), s)
        && (p == [] ==> s[0].md == FeedDownOrFormatChanged)
        && (e == [] ==> s[1].md == FeedDownOrQueryTooNarrow)
        && (t == [] ==> s[2].md == FeedDownOrFormatChanged)
        && (p != [] ==> Summary(PoliticsTitle, p, w.ai) == Some(s[0].md))
        && (e != [] ==> Summary(EconomyTitle, e, w.ai) == Some(s[1].md))
        && (t != [] ==> Summary(TechTitle, t, w.ai) == Some(s[2].md))
        && r.politics == |p| && r.economy == |e| && r.tech == |t|
        && (0 <= cfg.maxPerCategory ==>
              r.politics <= cfg.maxPerCategory && r.economy <= cfg.maxPerCategory && r.tech <= cfg.maxPerCategory)
  {
    RssItemsSize(cfg.politics, cfg.maxPerFeed, cfg.maxPerCategory, w.net, w.lib);
    RssItemsSize(cfg.economy, cfg.maxPerFeed, cfg.maxPerCategory, w.net, w.lib);
    RssItemsSize(cfg.tech, cfg.maxPerFeed, cfg.maxPerCategory, w.net, w.lib);
  }

  /** The run fails exactly when a category with items got a reply from which
      extraction raised. */
  lemma CrashedIff(today: Date, cfg: Config, w: World)
    requires InRange(today)
    ensures var p := Fetched(cfg.politics, cfg, w);
      var e := Fetched(cfg.economy, cfg, w);
      var t := Fetched(cfg.tech, cfg, w);
      DailyRun(today, cfg, w).Crashed? <==>
        (p != [] && Extract(w.ai.invoke(PoliticsTitle, CompactList(p))).Raised?)
        || (e != [] && Extract(w.ai.invoke(EconomyTitle, CompactList(e))).Raised?)
        || (t != [] && Extract(w.ai.invoke(TechTitle, CompactList(t))).Raised?)
  {
    var p := Fetched(cfg.politics, cfg, w);
    var e := Fetched(cfg.economy, cfg, w);
    var t := Fetched(cfg.tech, cfg, w);
    SummaryMeaning(PoliticsTitle, p, w.ai);
    SummaryMeaning(EconomyTitle, e, w.ai);
    SummaryMeaning(TechTitle, t, w.ai);
  }

  /** When no category fetched anything the model is never asked: the run
      stores the three placeholders whatever the model would have said. */
  lemma NothingFetchedNeedsNoModel(today: Date, cfg: Config, net: Network, lib: Libraries, ai1: Bedrock, ai2: Bedrock)
    requires InRange(today)
    requires RssItems(cfg.politics, cfg.maxPerFeed, cfg.maxPerCategory, net, lib) == []
    requires RssItems(cfg.economy, cfg.maxPerFeed, cfg.maxPerCategory, net, lib) == []
    requires RssItems(cfg.tech, cfg.maxPerFeed, cfg.maxPerCategory, net, lib) == []
    ensures DailyRun(today, cfg, World(net, lib, ai1)) == DailyRun(today, cfg, World(net, lib, ai2))
    ensures DailyRun(today, cfg, World(net, lib, ai1)) ==
      Stored(StorageKey(DateStamp(today)),
             DailyMarkdown(DateStamp(today), [Section(PoliticsTitle, FeedDownOrFormatChanged),
                                              Section(EconomyTitle, FeedDownOrQueryTooNarrow),
                                              Section(TechTitle, FeedDownOrFormatChanged)]),
             0, 0, 0)
  {
  }
}
