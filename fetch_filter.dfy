/** The accept/reject decision of `_fetch_url` on a response it received:
    HTML pages served in place of a feed (bot blocks, error pages) are refused
    before the status code is looked at. The HTTP request itself and the UTF-8
    decoding of the body's first 200 bytes are not modelled; decoding is
    supplied as `decode`. */
module FetchFilter {
  import opened Text
  import opened Wrappers

  newtype byte = x: int | 0 <= x < 256

  /** What `requests.get` returned: the status, the `Content-Type` header when
      present, and the body. */
  datatype Response = Response(status: int, contentType: Option<string>, body: seq<byte>)

  /** `s.replace("\n", " ").replace("\r", " ")` */
  function NewlinesToSpaces(s: string): (r: string)
    ensures |r| == |s|
    ensures forall i :: 0 <= i < |s| ==> r[i] == if s[i] == '\n' || s[i] == '\r' then ' ' else s[i]
  {
    if s == [] then []
    else [if s[0] == '\n' || s[0] == '\r' then ' ' else s[0]] + NewlinesToSpaces(s[1..])
  }

  /** `head`: the first 200 bytes of the body, decoded, with line breaks
      turned into spaces. */
  function Head(body: seq<byte>, decode: seq<byte> -> string): string {
    NewlinesToSpaces(decode(SlicePrefix(body, 200)))
  }

  /** The lower-cased `Content-Type`, "" when the header is missing. */
  function ContentType(resp: Response): string {
    Lower(match resp.contentType case Some(ct) => ct case None => "")
  }

  /** The HTML sniff: the declared type mentions `text/html`, or the body,
      after leading whitespace, starts with `<!doctype html` or `<html`
      (compared case-sensitively). */
  predicate LooksLikeHtml(ct: string, head: string) {
    DeclaredHtml(ct) || BodyLooksHtml(head)
  }

  predicate DeclaredHtml(ct: string) {
    Contains(ct, "text/html")
  }

  predicate BodyLooksHtml(head: string) {
    StartsWith(LStrip(head), "<!doctype html") || StartsWith(LStrip(head), "<html")
  }

  /** The decision over (status, lower-cased content type, decoded head, body). */
  function Verdict(status: int, ct: string, head: string, body: seq<byte>): (r: Option<seq<byte>>)
    ensures r.Some? ==> r.value == body && r.value != []
    ensures LooksLikeHtml(ct, head) ==> r.None?
    ensures r.Some? <==> !LooksLikeHtml(ct, head) && 200 <= status < 300 && body != []
  {
    if LooksLikeHtml(ct, head) then None
    else if 200 <= status < 300 && body != [] then Some(body)
    else None
  }

  /** `_fetch_url`'s verdict on a response it received: the body, or nothing. */
  function Accept(resp: Response, decode: seq<byte> -> string): Option<seq<byte>> {
    Verdict(resp.status, ContentType(resp), Head(resp.body, decode), resp.body)
  }

  /** A 200 response declared as HTML in any letter case is refused even
      though its body looks like a feed. */
  lemma HtmlContentTypeRefused(body: seq<byte>)
    ensures Verdict(200, Lower("Text/HTML"), "<?xml version=\"1.0\"?><rss>", body).None?
  {
    LowerTextHtml();
    assert StartsWith("text/html", "text/html");
  }

  lemma LowerTextHtml()
    ensures Lower("Text/HTML") == "text/html"
  {
    var s, t := "Text/HTML", "text/html";
    var ct := Lower(s);
    assert ct[0] == LowerChar('T') == 't';
    assert ct[1] == 'e' && ct[2] == 'x' && ct[3] == 't' && ct[4] == '/';
    assert ct[5] == LowerChar('H') == 'h';
    assert ct[6] == LowerChar('T') == 't';
    assert ct[7] == LowerChar('M') == 'm';
    assert ct[8] == LowerChar('L') == 'l';
    assert forall i | 0 <= i < 9 :: ct[i] == t[i];
  }

  /** A `<!doctype html>` page is refused whatever its status and declared type,
      also after leading tabs and spaces. */
  lemma DoctypeRefused(status: int, ct: string, body: seq<byte>)
    ensures Verdict(status, ct, "\t <!doctype html>", body).None?
  {
    var h := "\t <!doctype html>";
    assert h[..2] == "\t ";
    assert IsSpace(h[0]) && IsSpace(h[1]) && !IsSpace(h[2]);
    LStripAfter(h, 2);
    assert h[2..] == "<!doctype html>";
    assert StartsWith(LStrip(h), "<!doctype html");
  }

  /** The body sniff is case-sensitive: an upper-case `<!DOCTYPE HTML>` with a
      feed content type and status 200 passes. */
  lemma UpperCaseDoctypeAccepted(body: seq<byte>)
    requires body != []
    ensures Verdict(200, "application/rss+xml", "<!DOCTYPE HTML>", body) == Some(body)
  {
    var h := "<!DOCTYPE HTML>";
    assert !IsSpace(h[0]);
    LStripAfter(h, 0);
    assert !StartsWith(h, "<!doctype html") by { assert h[..14][2] == 'D'; }
    assert !StartsWith(h, "<html") by { assert h[..5][1] == '!'; }
    NotContainsMissingChar("application/rss+xml", "text/html", 'e');
  }
}
