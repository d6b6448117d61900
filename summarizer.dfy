/** The parts of `bedrock_summarize_and_translate` that are not the model
    call: the compact projection of the items sent in the prompt, and the
    chain that pulls the Markdown text out of the decoded response payload.
    The call itself (prompt wording, `invoke_model`, `json.loads`) is not
    modelled; the decoded payload is an input. */
module Summarizer {
  import opened Text
  import opened Wrappers
  import opened Ranking

  /** A decoded JSON value; objects are dictionaries keyed by strings. */
  datatype Json =
    | JNull
    | JBool(b: bool)
    | JNum(n: int)
    | JStr(s: string)
    | JArr(items: seq<Json>)
    | JObj(fields: map<string, Json>)

  /** What the extraction chain ends with: the Markdown text, the diagnostic
      dump of the whole payload (step 4), or an exception (`.get` on a value
      that is not a dictionary, or iterating a number, boolean or null). */
  datatype Extraction = Text(md: string) | Dump(payload: Json) | Raised

  /** `d.get(k, default)` */
  function Get(m: map<string, Json>, k: string, default: Json): (r: Json)
    ensures k in m ==> r == m[k]
    ensures k !in m ==> r == default
  {
    if k in m then m[k] else default
  }

  /** The one-element list of a present value, the empty list otherwise. */
  function AsList(o: Option<string>): (r: seq<string>)
    ensures o.Some? ==> r == [o.value]
    ensures o.None? ==> r == []
  {
    match o case Some(t) => [t] case None => []
  }

  // ---------------------------------------------------------------------
  // Step 1: `content` blocks of type "text"

  /** The text a `content` block contributes: a dictionary whose `type` is
      the string "text" and whose `text` is a non-empty string. */
  function ContentBlockText(b: Json): Option<string> {
    if b.JObj? && Get(b.fields, "type", JNull) == JStr("text") then
      var t := Get(b.fields, "text", JStr(""));
      if t.JStr? && t.s != "" then Some(t.s) else None
    else None
  }

  function ContentParts(blocks: seq<Json>): seq<string> {
    if blocks == [] then []
    else ContentParts(blocks[..|blocks| - 1]) + AsList(ContentBlockText(blocks[|blocks| - 1]))
  }

  /** `out` after step 1 for a dictionary payload. */
  function ClaudeText(fields: map<string, Json>): string {
    var c := Get(fields, "content", JNull);
    if c.JArr? then Strip(Join("\n", ContentParts(c.items))) else ""
  }

  // ---------------------------------------------------------------------
  // Step 2: `output.message.content`

  /** The text a message block contributes: a dictionary with a string
      `text`, possibly empty. */
  function MessageBlockText(b: Json): Option<string> {
    if b.JObj? && "text" in b.fields && b.fields["text"].JStr? then Some(b.fields["text"].s) else None
  }

  function MessageParts(blocks: seq<Json>): seq<string> {
    if blocks == [] then []
    else MessageParts(blocks[..|blocks| - 1]) + AsList(MessageBlockText(blocks[|blocks| - 1]))
  }

  /** The values the `for` loop of step 2 visits that can be dictionaries:
      a list's elements. Iterating a string or a dictionary visits strings
      only, which no block test accepts, so those count as no blocks. A
      number, boolean or null cannot be iterated. */
  function Iterated(v: Json): (r: Option<seq<Json>>)
    ensures r.None? <==> v.JNull? || v.JBool? || v.JNum?
  {
    match v
    case JArr(items) => Some(items)
    case JStr(_) => Some([])
    case JObj(_) => Some([])
    case _ => None
  }

  /** The blocks of `payload.get("output", {}).get("message", {}).get("content", [])`,
      or `None` where that expression or the loop over it raises. */
  function MessageBlocks(fields: map<string, Json>): Option<seq<Json>> {
    var output := Get(fields, "output", JObj(map[]));
    if !output.JObj? then None
    else
      var message := Get(output.fields, "message", JObj(map[]));
      if !message.JObj? then None
      else Iterated(Get(message.fields, "content", JArr([])))
  }

  // ---------------------------------------------------------------------
  // Step 3: `completion`, else `output_text`

  function FallbackText(fields: map<string, Json>): string {
    var c := Get(fields, "completion", JNull);
    if c.JStr? then Strip(c.s)
    else
      var o := Get(fields, "output_text", JNull);
      if o.JStr? then Strip(o.s) else ""
  }

  /** What the chain of lines 248-280 returns for a decoded payload. The
      Markdown text is never empty and has no whitespace at either end. */
  function Extract(payload: Json): Extraction {
    if !payload.JObj? then Raised
    else
      var fields := payload.fields;
      var one := ClaudeText(fields);
      if one != "" then Text(one)
      else match MessageBlocks(fields)
        case None => Raised
        case Some(blocks) =>
          var two := Strip(Join("\n", MessageParts(blocks)));
          if two != "" then Text(two)
          else
            var three := FallbackText(fields);
            if three != "" then Text(three) else Dump(payload)
  }

  /** The `for block in content_blocks` loop of step 1. */
  method ContentLoop(blocks: seq<Json>) returns (parts: seq<string>)
    ensures parts == ContentParts(blocks)
  {
    parts := [];
    var i := 0;
    while i < |blocks|
      invariant 0 <= i <= |blocks|
      invariant parts == ContentParts(blocks[..i])
    {
      var b := blocks[i];
      assert blocks[..i + 1][..i] == blocks[..i];
      i := i + 1;
      if b.JObj? && Get(b.fields, "type", JNull) == JStr("text") {
        var t := Get(b.fields, "text", JStr(""));
        if t.JStr? && t.s != "" {
          parts := parts + [t.s];
        }
      }
    }
    assert blocks[..i] == blocks;
  }

  /** The `for c in content` loop of step 2. */
  method MessageLoop(blocks: seq<Json>) returns (parts: seq<string>)
    ensures parts == MessageParts(blocks)
  {
    parts := [];
    var i := 0;
    while i < |blocks|
      invariant 0 <= i <= |blocks|
      invariant parts == MessageParts(blocks[..i])
    {
      var b := blocks[i];
      assert blocks[..i + 1][..i] == blocks[..i];
      i := i + 1;
      if b.JObj? && "text" in b.fields && b.fields["text"].JStr? {
        parts := parts + [b.fields["text"].s];
      }
    }
    assert blocks[..i] == blocks;
  }

  /** The extraction chain as written, with its `parts` lists and `out`. */
  method ExtractMarkdown(payload: Json) returns (r: Extraction)
    ensures r == Extract(payload)
  {
    if !payload.JObj? {
      return Raised;
    }
    var fields := payload.fields;
    var out := "";
    var contentBlocks := Get(fields, "content", JNull);
    if contentBlocks.JArr? {
      var parts := ContentLoop(contentBlocks.items);
      out := Strip(Join("\n", parts));
    }
    if out == "" {
      var output := Get(fields, "output", JObj(map[]));
      if !output.JObj? {
        return Raised;
      }
      var message := Get(output.fields, "message", JObj(map[]));
      if !message.JObj? {
        return Raised;
      }
      var content := Get(message.fields, "content", JArr([]));
      var iterated := Iterated(content);
      if iterated.None? {
        return Raised;
      }
      var parts := MessageLoop(iterated.value);
      out := Strip(Join("\n", parts));
    }
    if out == "" {
      var completion := Get(fields, "completion", JNull);
      if completion.JStr? {
        out := Strip(completion.s);
      } else {
        var outputText := Get(fields, "output_text", JNull);
        if outputText.JStr? {
          out := Strip(outputText.s);
        }
      }
    }
    if out == "" {
      return Dump(payload);
    }
    return Text(out);
  }

  // ---------------------------------------------------------------------
  // Properties of the chain

  /** The chain never returns empty Markdown, and what it returns has no
      whitespace at either end; a dump carries the payload unchanged. */
  lemma ExtractNeverBlank(payload: Json)
    ensures Extract(payload).Text? ==> Extract(payload).md != [] && Trimmed(Extract(payload).md)
    ensures Extract(payload).Dump? ==> Extract(payload).payload == payload
  {
    if payload.JObj? {
      var fields := payload.fields;
      var c := Get(fields, "content", JNull);
      if c.JArr? {
        StripTrimmed(Join("\n", ContentParts(c.items)));
      }
      assert Trimmed(ClaudeText(fields));
      match MessageBlocks(fields)
      case None =>
      case Some(blocks) =>
        StripTrimmed(Join("\n", MessageParts(blocks)));
        var cp := Get(fields, "completion", JNull);
        var o := Get(fields, "output_text", JNull);
        if cp.JStr? { StripTrimmed(cp.s); } else if o.JStr? { StripTrimmed(o.s); }
        assert Trimmed(FallbackText(fields));
    }
  }

  lemma {:induction false} ContentPartsNonEmpty(blocks: seq<Json>)
    ensures forall t :: t in ContentParts(blocks) ==> t != ""
    ensures (exists k :: 0 <= k < |blocks| && ContentBlockText(blocks[k]).Some?) <==> ContentParts(blocks) != []
  {
    if blocks != [] {
      var p := blocks[..|blocks| - 1];
      var last := AsList(ContentBlockText(blocks[|blocks| - 1]));
      assert ContentParts(blocks) == ContentParts(p) + last;
      ContentPartsNonEmpty(p);
      forall t | t in ContentParts(p) + last ensures t != "" {
        if t !in ContentParts(p) { assert t in last; }
      }
      if ContentParts(p) != [] {
        var k :| 0 <= k < |p| && ContentBlockText(p[k]).Some?;
        assert blocks[k] == p[k];
      }
      if exists k :: 0 <= k < |blocks| && ContentBlockText(blocks[k]).Some? {
        var k :| 0 <= k < |blocks| && ContentBlockText(blocks[k]).Some?;
        if k < |p| { assert p[k] == blocks[k]; }
      }
    }
  }

  /** A response in the Anthropic shape, with at least one text block whose
      text is not all whitespace, yields those texts and nothing else counts:
      neither `output` nor `completion` nor `output_text` is looked at. */
  lemma ContentBlocksWin(fields: map<string, Json>, blocks: seq<Json>)
    requires Get(fields, "content", JNull) == JArr(blocks)
    requires !AllSpace(Join("\n", ContentParts(blocks)))
    ensures Extract(JObj(fields)) == Text(Strip(Join("\n", ContentParts(blocks))))
  {
    StripEmptyIffAllSpace(Join("\n", ContentParts(blocks)));
  }

  /** Step 2 applies only when step 1 gave nothing, and then a malformed
      `output` or `message` (present but not a dictionary) raises. */
  lemma RaisedMeaning(payload: Json)
    ensures Extract(payload).Raised? <==>
      !payload.JObj? || (ClaudeText(payload.fields) == "" && MessageBlocks(payload.fields).None?)
  {
    if payload.JObj? {
      var f := payload.fields;
      var one := ClaudeText(f);
      if one != "" {
        assert Extract(payload) == Text(one);
      } else if MessageBlocks(f).Some? {
        assert !Extract(payload).Raised?;
      }
    }
  }

  /** The dump is the last resort: it happens exactly when the payload is a
      dictionary, no step raised, and every step produced only whitespace. */
  lemma DumpMeaning(payload: Json)
    ensures Extract(payload).Dump? <==>
      && payload.JObj?
      && ClaudeText(payload.fields) == ""
      && MessageBlocks(payload.fields).Some?
      && AllSpace(Join("\n", MessageParts(MessageBlocks(payload.fields).value)))
      && FallbackText(payload.fields) == ""
  {
    if payload.JObj? && MessageBlocks(payload.fields).Some? {
      StripEmptyIffAllSpace(Join("\n", MessageParts(MessageBlocks(payload.fields).value)));
    }
  }

  /** `completion` takes precedence over `output_text` even when it is only
      whitespace: the branch is an `elif`, so such a `completion` hides a
      usable `output_text` and the payload is dumped. */
  lemma BlankCompletionHidesOutputText(s: string)
    requires s != "" && !AllSpace(s)
    ensures Extract(JObj(map["completion" := JStr(" "), "output_text" := JStr(s)])).Dump?
  {
    var fields := map["completion" := JStr(" "), "output_text" := JStr(s)];
    assert Get(fields, "content", JNull) == JNull;
    assert MessageBlocks(fields) == Some([]);
    assert MessageParts([]) == [];
    assert Strip(" ") == "" by {
      StripEmptyIffAllSpace(" ");
    }
    assert FallbackText(fields) == "";
  }

  /** When step 1 gave nothing and `output.message.content` can be read, text
      from its blocks that is not all whitespace decides the result: neither
      `completion` nor `output_text` is looked at. */
  lemma MessageTextWins(fields: map<string, Json>, blocks: seq<Json>)
    requires ClaudeText(fields) == "" && MessageBlocks(fields) == Some(blocks)
    requires !AllSpace(Join("\n", MessageParts(blocks)))
    ensures Extract(JObj(fields)) == Text(Strip(Join("\n", MessageParts(blocks))))
  {
    StripEmptyIffAllSpace(Join("\n", MessageParts(blocks)));
  }

  /** When steps 1 and 2 gave only whitespace, a string `completion` decides
      step 3 whatever `output_text` holds: its stripped text, or the dump when
      that is empty. */
  lemma CompletionDecides(fields: map<string, Json>, blocks: seq<Json>, c: string)
    requires ClaudeText(fields) == "" && MessageBlocks(fields) == Some(blocks)
    requires AllSpace(Join("\n", MessageParts(blocks)))
    requires Get(fields, "completion", JNull) == JStr(c)
    ensures Extract(JObj(fields)) == if Strip(c) != "" then Text(Strip(c)) else Dump(JObj(fields))
  {
    StripEmptyIffAllSpace(Join("\n", MessageParts(blocks)));
  }

  /** When steps 1 and 2 gave only whitespace and `completion` is not a string,
      an `output_text` string that is not all whitespace is returned stripped. */
  lemma OutputTextUsed(fields: map<string, Json>, blocks: seq<Json>, o: string)
    requires ClaudeText(fields) == "" && MessageBlocks(fields) == Some(blocks)
    requires AllSpace(Join("\n", MessageParts(blocks)))
    requires !Get(fields, "completion", JNull).JStr?
    requires Get(fields, "output_text", JNull) == JStr(o) && !AllSpace(o)
    ensures Extract(JObj(fields)) == Text(Strip(o))
  {
    StripEmptyIffAllSpace(Join("\n", MessageParts(blocks)));
    StripEmptyIffAllSpace(o);
  }

  // ---------------------------------------------------------------------
  // The compact projection

  /** One entry of the `compact` list sent in the prompt. */
  datatype CompactItem = CompactItem(
    no: nat, title: string, summary: string, published: string,
    url: string, sourceFeed: string)

  /** The entry for the `no`-th item: the summary cut to its first 800
      characters, the link under `url`. */
  function Compact(no: nat, it: Item): (c: CompactItem)
    ensures c.no == no && c.title == it.title && c.published == it.published
    ensures c.url == it.link && c.sourceFeed == it.sourceFeed
    ensures |c.summary| <= 800 && |c.summary| <= |it.summary| && c.summary == it.summary[..|c.summary|]
    ensures |it.summary| <= 800 ==> c.summary == it.summary
    ensures |it.summary| > 800 ==> |c.summary| == 800
  {
    CompactItem(no, it.title, SlicePrefix(it.summary, 800), it.published, it.link, it.sourceFeed)
  }

  /** The list `compact`. */
  function CompactList(items: seq<Item>): (r: seq<CompactItem>)
    ensures |r| == |items|
    ensures forall i :: 0 <= i < |items| ==> r[i] == Compact(i + 1, items[i])
  {
    seq(|items|, i requires 0 <= i < |items| => Compact(i + 1, items[i]))
  }

  /** The `enumerate(items, start=1)` loop: one entry per item, in order,
      numbered 1, 2, 3, ... */
  method CompactProjection(items: seq<Item>) returns (compact: seq<CompactItem>)
    ensures compact == CompactList(items)
    ensures |compact| == |items|
    ensures forall i :: 0 <= i < |items| ==> compact[i] == Compact(i + 1, items[i])
    ensures forall i :: 0 <= i < |compact| ==> compact[i].no == i + 1 && compact[i].url == items[i].link
  {
    compact := [];
    var i := 0;
    while i < |items|
      invariant 0 <= i <= |items|
      invariant |compact| == i
      invariant forall k :: 0 <= k < i ==> compact[k] == Compact(k + 1, items[k])
    {
      var it := items[i];
      compact := compact + [CompactItem(i + 1, it.title, SlicePrefix(it.summary, 800), it.published, it.link, it.sourceFeed)];
      i := i + 1;
    }
  }
}
