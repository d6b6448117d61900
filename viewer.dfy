/** The decision logic of the Streamlit viewer: which object holds a day's
    digest, month navigation, the month prefix listed for markers, how a day
    button looks, how a failed load is reported, and the listing loop that
    follows continuation tokens. Rendering and the S3 calls themselves are
    not modelled; listing pages and load outcomes are inputs. */
module Viewer {
  import opened Text
  import opened Wrappers
  import opened Calendar
  import DailyDigest

  /** `md_key_for(d)` */
  function MdKeyFor(d: Date): (k: string)
    requires InRange(d)
    ensures |k| == 22 && StartsWith(k, "Thailand/") && k[19..] == ".md"
    ensures k[9..19] == DateStamp(d)
  {
    "Thailand/" + DateStamp(d) + ".md"
  }

  /** Distinct days are stored under distinct keys. */
  lemma MdKeyInjective(a: Date, b: Date)
    requires InRange(a) && InRange(b)
    requires MdKeyFor(a) == MdKeyFor(b)
    ensures a == b
  {
    DateStampInjective(a, b);
  }

  /** The viewer looks a day up under the key the daily run stores it at. */
  lemma ReadsWhereStored(d: Date)
    requires InRange(d)
    ensures MdKeyFor(d) == DailyDigest.StorageKey(DateStamp(d))
  {
  }

  // ---------------------------------------------------------------------
  // Month navigation

  /** The month shown in the calendar. */
  datatype MonthView = MonthView(year: int, month: int)

  /** The "◀" button. */
  function PrevMonth(v: MonthView): MonthView {
    if v.month == 1 then MonthView(v.year - 1, 12) else MonthView(v.year, v.month - 1)
  }

  /** The "▶" button. */
  function NextMonth(v: MonthView): MonthView {
    if v.month == 12 then MonthView(v.year + 1, 1) else MonthView(v.year, v.month + 1)
  }

  /** Months counted from year 0. */
  function MonthIndex(v: MonthView): int {
    12 * v.year + v.month - 1
  }

  /** Both buttons keep the month in 1..12, move by exactly one month, and
      undo each other. */
  lemma NavigationCorrect(v: MonthView)
    requires 1 <= v.month <= 12
    ensures 1 <= NextMonth(v).month <= 12 && 1 <= PrevMonth(v).month <= 12
    ensures MonthIndex(NextMonth(v)) == MonthIndex(v) + 1
    ensures MonthIndex(PrevMonth(v)) == MonthIndex(v) - 1
    ensures PrevMonth(NextMonth(v)) == v && NextMonth(PrevMonth(v)) == v
  {
  }

  /** Two views with months in 1..12 are the same view exactly when they
      have the same month index, so moving by one index is moving by one
      calendar month. */
  lemma MonthIndexInjective(v: MonthView, w: MonthView)
    requires 1 <= v.month <= 12 && 1 <= w.month <= 12
    ensures MonthIndex(v) == MonthIndex(w) <==> v == w
  {
  }

  // ---------------------------------------------------------------------
  // Month prefix

  /** `format(n, "02d")` */
  function ZeroPad2(n: int): (s: string)
    ensures 0 <= n < 100 ==> s == PaddedDigits(n, 2)
  {
    if n < 0 then "-" + NatToString(-n)
    else if n < 10 then
      assert PaddedDigits(n, 2) == PaddedDigits(0, 1) + [DigitChar(n)];
      "0" + NatToString(n)
    else
      assert n < 100 ==> NatToString(n / 10) == PaddedDigits(n / 10, 1);
      NatToString(n)
  }

  /** `f"Thailand/{year}_{month:02d}_"`, the prefix listed for markers. */
  function MonthPrefix(v: MonthView): string {
    "Thailand/" + IntToString(v.year) + "_" + ZeroPad2(v.month) + "_"
  }

  /** For four-digit years a day's key starts with the prefix of a view
      exactly when the day lies in the viewed month. */
  lemma MonthPrefixMatches(v: MonthView, d: Date)
    requires 1000 <= v.year <= 9999 && 1 <= v.month <= 12
    requires InRange(d)
    ensures StartsWith(MdKeyFor(d), MonthPrefix(v)) <==> d.year == v.year && d.month == v.month
  {
    FourDigitsUnpadded(v.year);
    var a, b := PaddedDigits(v.year, 4), PaddedDigits(v.month, 2);
    var c, e := PaddedDigits(d.year, 4), PaddedDigits(d.month, 2);
    assert MonthPrefix(v) == "Thailand/" + a + "_" + b + "_";
    KeyMonthHead(d);
    PrefixParts(a, b, c, e);
    DigitsValuePadded(v.year, 4);
    DigitsValuePadded(d.year, 4);
    DigitsValuePadded(v.month, 2);
    DigitsValuePadded(d.month, 2);
  }

  /** The first 17 characters of a day's key name its year and month. */
  lemma KeyMonthHead(d: Date)
    requires InRange(d)
    ensures |MdKeyFor(d)| == 22
    ensures MdKeyFor(d)[..17] == "Thailand/" + PaddedDigits(d.year, 4) + "_" + PaddedDigits(d.month, 2) + "_"
  {
    var y, m, dd := PaddedDigits(d.year, 4), PaddedDigits(d.month, 2), PaddedDigits(d.day, 2);
    var head := "Thailand/" + y + "_" + m + "_";
    assert MdKeyFor(d) == head + (dd + ".md");
  }

  /** Two month prefixes agree exactly when their year and month fields do. */
  lemma PrefixParts(a: string, b: string, c: string, e: string)
    requires |a| == 4 && |c| == 4 && |b| == 2 && |e| == 2
    ensures "Thailand/" + a + "_" + b + "_" == "Thailand/" + c + "_" + e + "_" <==> a == c && b == e
  {
    var p, q := "Thailand/" + a + "_" + b + "_", "Thailand/" + c + "_" + e + "_";
    if p == q {
      assert p[9..13] == a && q[9..13] == c;
      assert p[14..16] == b && q[14..16] == e;
    }
  }

  // ---------------------------------------------------------------------
  // Day buttons

  /** What a day cell shows: its caption and whether it can be clicked. */
  datatype DayButton = DayButton(caption: string, disabled: bool)

  /** The cell for `d` in the view `v`, given the keys listed for the month.
      Only the month number is compared with the view. */
  function DayButtonFor(d: Date, v: MonthView, existing: set<string>): DayButton
    requires InRange(d)
  {
    var current := d.month == v.month;
    var day := NatToString(d.day);
    var caption := if MdKeyFor(d) in existing && current then day + " •" else day;
    DayButton(caption, !current)
  }

  predicate HasMarker(caption: string) {
    |caption| >= 2 && caption[|caption| - 2..] == " •"
  }

  /** The caption is the day number, with the marker exactly when the day's
      key was listed and the day is in the viewed month; cells of other
      months are disabled, so a marked cell can always be clicked. */
  lemma DayButtonRule(d: Date, v: MonthView, existing: set<string>)
    requires InRange(d)
    ensures var b := DayButtonFor(d, v, existing);
      && StartsWith(b.caption, NatToString(d.day))
      && (HasMarker(b.caption) <==> MdKeyFor(d) in existing && d.month == v.month)
      && (b.disabled <==> d.month != v.month)
      && (HasMarker(b.caption) ==> !b.disabled)
  {
    var n := NatToString(d.day);
    var b := DayButtonFor(d, v, existing);
    if !(MdKeyFor(d) in existing && d.month == v.month) {
      assert b.caption == n;
      assert '0' <= n[|n| - 1] <= '9';
      if |n| >= 2 {
        assert n[|n| - 2..][1] == n[|n| - 1];
      }
    } else {
      assert b.caption[..|n|] == n;
      assert b.caption[|b.caption| - 2..] == " •";
    }
  }

  /** Inside the grid of the viewed month, comparing the month number alone
      tells the month's own days from the neighbours' days. */
  lemma GridMonthTest(v: MonthView, w: int, i: int)
    requires MonthGrid(v.year, v.month).Some?
    requires 0 <= w < |MonthGrid(v.year, v.month).value| && 0 <= i < 7
    ensures var d := MonthGrid(v.year, v.month).value[w][i];
      d.month == v.month <==> d.year == v.year && d.month == v.month
  {
    var y, m := v.year, v.month;
    var s := MonthDates(y, m);
    WeeksLength(y, m);
    MonthDatesAt(y, m);
    var p := 7 * w + i;
    assert MonthGrid(y, m).value[w][i] == s[p];
  }

  // ---------------------------------------------------------------------
  // Loading a day

  /** How `load_md_from_s3` failed: a `ClientError` with the error code it
      carries (`None` when the response has none), or any other exception. */
  datatype LoadFailure = ClientError(code: Option<string>) | OtherException

  datatype LoadResult = Loaded(md: string) | Failed(failure: LoadFailure)

  /** What the right-hand panel shows. */
  datatype Panel = Markdown(md: string) | NotYetStored(key: string) | StorageError | UnexpectedError

  /** The codes that mean "no such object". */
  predicate IsMissingCode(code: string) {
    code == "NoSuchKey" || code == "404" || code == "NotFound"
  }

  function PanelFor(key: string, r: LoadResult): Panel {
    match r
    case Loaded(md) => Markdown(md)
    case Failed(ClientError(code)) =>
      var c := match code case Some(c) => c case None => "";
      if IsMissingCode(c) then NotYetStored(key) else StorageError
    case Failed(OtherException) => UnexpectedError
  }

  /** A missing object is reported as not yet stored, and nothing else is;
      every other storage error is a storage error, and anything that is not
      a `ClientError` is unexpected. */
  lemma PanelClassification(key: string, r: LoadResult)
    ensures PanelFor(key, r).NotYetStored? <==>
      r.Failed? && r.failure.ClientError? && r.failure.code.Some? && IsMissingCode(r.failure.code.value)
    ensures PanelFor(key, r).NotYetStored? ==> PanelFor(key, r).key == key
    ensures PanelFor(key, r).StorageError? <==>
      r.Failed? && r.failure.ClientError? && !(r.failure.code.Some? && IsMissingCode(r.failure.code.value))
    ensures PanelFor(key, r).UnexpectedError? <==> r == Failed(OtherException)
    ensures PanelFor(key, r).Markdown? <==> r.Loaded?
  {
    if r.Failed? && r.failure.ClientError? && r.failure.code.None? {
      assert !IsMissingCode("");
    }
  }

  // ---------------------------------------------------------------------
  // Listing a month

  /** One `list_objects_v2` response: its keys, `IsTruncated`, and
      `NextContinuationToken` when present. */
  datatype Page = Page(keys: seq<string>, isTruncated: bool, nextToken: Option<string>)

  /** The token the next request carries after `p`: only a non-empty one. */
  function TokenAfter(p: Page): Option<string> {
    match p.nextToken
    case Some(t) => if t != "" then Some(t) else None
    case None => None
  }

  /** Index of the first page that is not truncated: the last one requested. */
  function LastPage(pages: seq<Page>): (n: nat)
    requires exists k :: 0 <= k < |pages| && !pages[k].isTruncated
    ensures n < |pages| && !pages[n].isTruncated
    ensures forall k :: 0 <= k < n ==> pages[k].isTruncated
  {
    if !pages[0].isTruncated then 0
    else
      assert exists k :: 0 <= k < |pages[1..]| && !pages[1..][k].isTruncated by {
        var k :| 0 <= k < |pages| && !pages[k].isTruncated;
        assert pages[1..][k - 1] == pages[k];
      }
      1 + LastPage(pages[1..])
  }

  function Elements(ks: seq<string>): set<string> {
    set k | k in ks
  }

  /** The keys of a run of pages. */
  function KeysOf(pages: seq<Page>): set<string> {
    if pages == [] then {} else KeysOf(pages[..|pages| - 1]) + Elements(pages[|pages| - 1].keys)
  }

  lemma {:induction false} KeysOfMeaning(pages: seq<Page>)
    ensures forall k :: k in KeysOf(pages) <==> exists i :: 0 <= i < |pages| && k in pages[i].keys
  {
    if pages != [] {
      var p := pages[..|pages| - 1];
      KeysOfMeaning(p);
      forall k | k in KeysOf(pages) ensures exists i :: 0 <= i < |pages| && k in pages[i].keys {
        if k in KeysOf(p) {
          var i :| 0 <= i < |p| && k in p[i].keys;
          assert pages[i] == p[i];
        }
      }
      forall k | (exists i :: 0 <= i < |pages| && k in pages[i].keys) ensures k in KeysOf(pages) {
        var i :| 0 <= i < |pages| && k in pages[i].keys;
        if i < |p| {
          assert p[i] == pages[i];
        }
      }
    }
  }

  /** The `for it in resp.get("Contents", [])` loop: each key of a page is
      added to `keys`. */
  method AddKeys(keys0: set<string>, ks: seq<string>) returns (keys: set<string>)
    ensures keys == keys0 + Elements(ks)
  {
    keys := keys0;
    for j := 0 to |ks|
      invariant keys == keys0 + Elements(ks[..j])
    {
      assert ks[..j + 1] == ks[..j] + [ks[j]];
      keys := keys + {ks[j]};
    }
    assert ks[..|ks|] == ks;
  }

  /** `list_month_objects(prefix)`, where the `i`-th request is answered by
      `pages[i]`: the requests sent (the continuation token of each) and
      the keys gathered. The service eventually answers with a page that is
      not truncated. */
  method ListMonthObjects(pages: seq<Page>) returns (keys: set<string>, requests: seq<Option<string>>)
    requires exists k :: 0 <= k < |pages| && !pages[k].isTruncated
    ensures |requests| == LastPage(pages) + 1
    ensures requests[0] == None
    ensures forall i :: 0 < i < |requests| ==> requests[i] == TokenAfter(pages[i - 1])
    ensures keys == KeysOf(pages[..|requests|])
  {
    keys := {};
    requests := [];
    var token: Option<string> := None;
    var i := 0;
    while true
      invariant 0 <= i <= LastPage(pages)
      invariant |requests| == i
      invariant forall j :: 0 <= j < i ==> pages[j].isTruncated
      invariant forall j :: 0 < j < i ==> requests[j] == TokenAfter(pages[j - 1])
      invariant i > 0 ==> requests[0] == None
      invariant token == if i == 0 then None else pages[i - 1].nextToken
      invariant keys == KeysOf(pages[..i])
      decreases LastPage(pages) - i
    {
      var request := if token.Some? && token.value != "" then token else None;
      requests := requests + [request];
      var resp := pages[i];
      keys := AddKeys(keys, resp.keys);
      assert pages[..i + 1][..i] == pages[..i];
      i := i + 1;
      if resp.isTruncated {
        token := resp.nextToken;
      } else {
        break;
      }
    }
  }

  // ---------------------------------------------------------------------
  // Session state

  /** `st.session_state`: the month on screen and the day whose digest is
      shown. */
  class Session {
    var monthView: MonthView
    var selectedDate: Date

    predicate Valid()
      reads this
    {
      1 <= monthView.month <= 12 && InRange(selectedDate)
    }

    /** First visit: today's month and today. */
    constructor(today: Date)
      requires InRange(today)
      ensures Valid()
      ensures monthView == MonthView(today.year, today.month) && selectedDate == today
    {
      monthView := MonthView(today.year, today.month);
      selectedDate := today;
    }

    /** "◀" clicked. */
    method PrevMonthClicked()
      requires Valid()
      modifies this
      ensures Valid()
      ensures monthView == PrevMonth(old(monthView)) && selectedDate == old(selectedDate)
    {
      var y, m := monthView.year, monthView.month;
      if m == 1 {
        monthView := MonthView(y - 1, 12);
      } else {
        monthView := MonthView(y, m - 1);
      }
    }

    /** "▶" clicked. */
    method NextMonthClicked()
      requires Valid()
      modifies this
      ensures Valid()
      ensures monthView == NextMonth(old(monthView)) && selectedDate == old(selectedDate)
    {
      var y, m := monthView.year, monthView.month;
      if m == 12 {
        monthView := MonthView(y + 1, 1);
      } else {
        monthView := MonthView(y, m + 1);
      }
    }

    /** A day cell clicked; only enabled cells, those of the viewed month,
        can be clicked. */
    method DayClicked(d: Date)
      requires Valid() && InRange(d)
      requires !DayButtonFor(d, monthView, {}).disabled
      modifies this
      ensures Valid()
      ensures selectedDate == d && monthView == old(monthView)
      ensures selectedDate.month == monthView.month
    {
      selectedDate := d;
    }
  }
}
