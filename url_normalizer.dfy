/** `_normalize_url`: drop tracking query parameters so that links differing
    only in them deduplicate. Parsing (`urlparse` with `parse_qsl`) and
    reassembly (`urlencode` with `urlunparse`) are library code and are
    supplied as the two functions of a `UrlCodec`. */
module UrlNormalizer {
  import opened Text
  import opened Wrappers

  /** One `(key, value)` pair of `parse_qsl(query, keep_blank_values=True)`. */
  datatype QueryPair = QueryPair(key: string, value: string)

  /** The six components of `urlparse`, with the query already split into pairs. */
  datatype Url = Url(
    scheme: string, netloc: string, path: string, params: string,
    query: seq<QueryPair>, fragment: string)

  /** `parse` yields `None` where `urlparse` raises; `unparse` reassembles. */
  datatype UrlCodec = UrlCodec(parse: string -> Option<Url>, unparse: Url -> string)

  /** The exact tracking keys compared after lower-casing. */
  const TrackingKeys: set<string> := {"fbclid", "gclid", "igshid", "mc_cid", "mc_eid"}

  /** A key is tracking when, lower-cased, it starts with `utm_` or is one of
      the fixed names. */
  predicate IsTracking(key: string) {
    StartsWith(Lower(key), "utm_") || Lower(key) in TrackingKeys
  }

  /** The pairs that survive, in their original order. */
  function Untracked(q: seq<QueryPair>): (r: seq<QueryPair>)
    ensures |r| <= |q|
  {
    if q == [] then []
    else if IsTracking(q[0].key) then Untracked(q[1..])
    else [q[0]] + Untracked(q[1..])
  }

  /** `r` is `q` with some elements left out, the rest in their original order. */
  predicate IsSubsequence(r: seq<QueryPair>, q: seq<QueryPair>)
    decreases |q|
  {
    if r == [] then true
    else if q == [] then false
    else (r[0] == q[0] && IsSubsequence(r[1..], q[1..])) || IsSubsequence(r, q[1..])
  }

  lemma {:induction false} UntrackedAppend(q: seq<QueryPair>, p: QueryPair)
    ensures Untracked(q + [p]) == Untracked(q) + (if IsTracking(p.key) then [] else [p])
  {
    if q != [] {
      assert (q + [p])[1..] == q[1..] + [p];
      UntrackedAppend(q[1..], p);
    } else {
      assert [p][1..] == [];
    }
  }

  /** The filter keeps exactly the non-tracking pairs, loses none of them and
      keeps their relative order. */
  lemma {:induction false} UntrackedKeepsExactly(q: seq<QueryPair>)
    ensures forall p :: p in Untracked(q) <==> p in q && !IsTracking(p.key)
    ensures IsSubsequence(Untracked(q), q)
    ensures (forall i :: 0 <= i < |q| ==> !IsTracking(q[i].key)) ==> Untracked(q) == q
  {
    UntrackedMembers(q);
    UntrackedSubsequence(q);
    UntrackedKeepsClean(q);
  }

  lemma {:induction false} UntrackedMembers(q: seq<QueryPair>)
    ensures forall p :: p in Untracked(q) <==> p in q && !IsTracking(p.key)
  {
    if q != [] {
      UntrackedMembers(q[1..]);
      assert q == [q[0]] + q[1..];
    }
  }

  lemma {:induction false} UntrackedSubsequence(q: seq<QueryPair>)
    ensures IsSubsequence(Untracked(q), q)
  {
    if q != [] {
      UntrackedSubsequence(q[1..]);
    }
  }

  lemma {:induction false} UntrackedKeepsClean(q: seq<QueryPair>)
    ensures (forall i :: 0 <= i < |q| ==> !IsTracking(q[i].key)) ==> Untracked(q) == q
  {
    if q != [] && forall i :: 0 <= i < |q| ==> !IsTracking(q[i].key) {
      var t := q[1..];
      assert forall i :: 0 <= i < |t| ==> !IsTracking(t[i].key) by {
        forall i | 0 <= i < |t| ensures !IsTracking(t[i].key) { assert t[i] == q[i + 1]; }
      }
      UntrackedKeepsClean(t);
      assert !IsTracking(q[0].key);
      assert q == [q[0]] + t;
    }
  }

  /** Applying the filter twice removes nothing more. */
  lemma {:induction false} UntrackedIdempotent(q: seq<QueryPair>)
    ensures Untracked(Untracked(q)) == Untracked(q)
  {
    if q != [] {
      UntrackedIdempotent(q[1..]);
    }
  }

  /** The loop of `_normalize_url` that builds the list `q`. */
  method FilterQuery(pairs: seq<QueryPair>) returns (q: seq<QueryPair>)
    ensures q == Untracked(pairs)
  {
    q := [];
    var i := 0;
    while i < |pairs|
      invariant 0 <= i <= |pairs|
      invariant q == Untracked(pairs[..i])
    {
      var k := pairs[i].key;
      var lk := Lower(k);
      assert pairs[..i + 1] == pairs[..i] + [pairs[i]];
      UntrackedAppend(pairs[..i], pairs[i]);
      i := i + 1;
      if StartsWith(lk, "utm_") {
        continue;
      }
      if lk in TrackingKeys {
        continue;
      }
      q := q + [pairs[i - 1]];
    }
    assert pairs[..i] == pairs;
  }

  /** Only the query changes. */
  function NormalizeParts(u: Url): (r: Url)
    ensures r.scheme == u.scheme && r.netloc == u.netloc && r.path == u.path
    ensures r.params == u.params && r.fragment == u.fragment
    ensures forall p :: p in r.query <==> p in u.query && !IsTracking(p.key)
    ensures IsSubsequence(r.query, u.query)
  {
    UntrackedKeepsExactly(u.query);
    u.(query := Untracked(u.query))
  }

  /** `_normalize_url(url)`: the empty string and unparsable input come back
      unchanged; otherwise the reassembled URL with the filtered query. */
  function Normalized(url: string, codec: UrlCodec): string {
    if url == [] then url
    else match codec.parse(url)
      case None => url
      case Some(u) => codec.unparse(NormalizeParts(u))
  }

  method NormalizeUrl(url: string, codec: UrlCodec) returns (r: string)
    ensures url == [] ==> r == url
    ensures url != [] && codec.parse(url).None? ==> r == url
    ensures url != [] && codec.parse(url).Some? ==>
      r == codec.unparse(codec.parse(url).value.(query := Untracked(codec.parse(url).value.query)))
    ensures r == Normalized(url, codec)
  {
    if url == [] {
      return url;
    }
    var parsed := codec.parse(url);
    if parsed.None? {
      return url;
    }
    var p := parsed.value;
    var q := FilterQuery(p.query);
    r := codec.unparse(Url(p.scheme, p.netloc, p.path, p.params, q, p.fragment));
  }

  /** Normalising twice equals normalising once, for a codec that reads back
      what it writes. */
  lemma NormalizedIdempotent(url: string, codec: UrlCodec)
    requires forall u: Url :: codec.parse(codec.unparse(u)) == Some(u)
    requires forall u: Url :: codec.unparse(u) != []
    ensures Normalized(Normalized(url, codec), codec) == Normalized(url, codec)
  {
    if url != [] && codec.parse(url).Some? {
      var u := codec.parse(url).value;
      UntrackedIdempotent(u.query);
      assert codec.parse(codec.unparse(NormalizeParts(u))) == Some(NormalizeParts(u));
    }
  }
}
