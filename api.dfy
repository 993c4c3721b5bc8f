/** The data-fetching helpers of src/lib/api.ts with the network replaced by
    a function from URL to reply. The base URL is a parameter. */
module Api {
  import opened ApiTypes
  import opened Decimal

  /** Safety ceiling on the number of pages `fetchEpisodes` reads. */
  const MaxPages: nat := 100

  /** The page `fetchCharacters` reads when no page is given. */
  const DefaultPage: int := 1

  // ---------------------------------------------------------------------
  // fetchEpisodes: following `info.next` from page to page
  // ---------------------------------------------------------------------

  /** The first page of the episode collection; never empty, so the crawl
      always makes its first request. */
  function EpisodesUrl(base: string): (u: string)
    ensures |u| > |base| && u[..|base|] == base
  {
    base + "/episode"
  }

  /** `data.info?.next || null`, with null written as the empty string, which
      is just as falsy as null in the loop guard. */
  function NextUrl<T>(reply: PageReply<T>): (u: string)
    requires reply.Page?
    ensures (u == "") <==> (reply.next == None || reply.next == Some(""))
    ensures u != "" ==> reply.next == Some(u)
  {
    match reply.next
    case Some(u) => u
    case None => ""
  }

  /** The reply is a good page and names a page after it. */
  predicate Continues<T>(reply: PageReply<T>) {
    reply.Page? && NextUrl(reply) != ""
  }

  /** What one reply adds to the accumulated list: a failed or malformed
      page adds nothing. */
  function ResultsOf<T>(reply: PageReply<T>): seq<T> {
    if reply.Page? then reply.results else []
  }

  /** The in-order concatenation of the results of the pages `reqs` names. */
  function Harvest(server: PageServer<Episode>, reqs: seq<string>): seq<Episode>
    decreases |reqs|
  {
    if reqs == [] then []
    else Harvest(server, reqs[..|reqs| - 1]) + ResultsOf(server(reqs[|reqs| - 1]))
  }

  /** Every request but the last was a good page whose next link is the
      following request. */
  predicate Linked(server: PageServer<Episode>, reqs: seq<string>) {
    forall i :: 0 <= i < |reqs| - 1 ==>
      Continues(server(reqs[i])) && NextUrl(server(reqs[i])) == reqs[i + 1]
  }

  /** `reqs` is the request sequence of a crawl from `start`: it begins at
      `start`, follows next links, and stops at the first page that fails,
      is malformed or has no next link, or at the ceiling. */
  predicate IsCrawl(server: PageServer<Episode>, start: string, reqs: seq<string>) {
    && 1 <= |reqs| <= MaxPages
    && reqs[0] == start
    && Linked(server, reqs)
    && (Continues(server(reqs[|reqs| - 1])) ==> |reqs| == MaxPages)
  }

  /** fetchEpisodes. Returns the accumulated episodes and, as a trace of the
      network traffic, the URLs it requested in order. It never rejects. */
  method FetchEpisodes(base: string, server: PageServer<Episode>)
    returns (episodes: seq<Episode>, requested: seq<string>)
    ensures |requested| <= MaxPages
    ensures IsCrawl(server, EpisodesUrl(base), requested)
    ensures episodes == Harvest(server, requested)
  {
    episodes := [];
    requested := [];
    var nextUrl := EpisodesUrl(base);
    var pageCount := 0;
    while nextUrl != "" && pageCount < MaxPages
      invariant pageCount == |requested| <= MaxPages
      invariant requested == [] ==> nextUrl == EpisodesUrl(base)
      invariant requested != [] ==> requested[0] == EpisodesUrl(base)
      invariant Linked(server, requested)
      invariant requested != [] ==>
        server(requested[|requested| - 1]).Page? &&
        nextUrl == NextUrl(server(requested[|requested| - 1]))
      invariant episodes == Harvest(server, requested)
    {
      var url := nextUrl;
      var reply := server(url);
      var prior := requested;
      requested := requested + [url];
      assert requested[..|requested| - 1] == prior;
      if !reply.Page? {
        break;
      }
      episodes := episodes + reply.results;
      nextUrl := NextUrl(reply);
      pageCount := pageCount + 1;
    }
  }

  /** Harvest distributes over concatenation of request sequences. */
  lemma {:induction false} HarvestConcat(server: PageServer<Episode>, a: seq<string>, b: seq<string>)
    ensures Harvest(server, a + b) == Harvest(server, a) + Harvest(server, b)
    decreases |b|
  {
    if b != [] {
      var b' := b[..|b| - 1];
      assert (a + b)[..|a + b| - 1] == a + b';
      HarvestConcat(server, a, b');
    } else {
      assert a + b == a;
    }
  }

  /** A crawl is determined by the server and the start URL: the ensures of
      FetchEpisodes leave no freedom in what it requests or returns. */
  lemma CrawlUnique(server: PageServer<Episode>, start: string, a: seq<string>, b: seq<string>)
    requires IsCrawl(server, start, a) && IsCrawl(server, start, b)
    ensures a == b
  {
    var n := if |a| < |b| then |a| else |b|;
    var k := 0;
    while k < n
      invariant 0 <= k <= n
      invariant a[..k] == b[..k]
      invariant k < n ==> a[k] == b[k]
    {
      if k + 1 < n {
        assert a[k + 1] == NextUrl(server(a[k])) == NextUrl(server(b[k])) == b[k + 1];
      }
      assert a[..k + 1] == a[..k] + [a[k]];
      assert b[..k + 1] == b[..k] + [b[k]];
      k := k + 1;
    }
    assert a == a[..n] && b == b[..n];
  }

  /** A failed or malformed page is the last one requested, and the episodes
      returned are exactly those of the pages before it. */
  lemma FailedPageEndsCrawl(server: PageServer<Episode>, start: string, reqs: seq<string>, k: nat)
    requires IsCrawl(server, start, reqs)
    requires k < |reqs| && !server(reqs[k]).Page?
    ensures k == |reqs| - 1
    ensures Harvest(server, reqs) == Harvest(server, reqs[..k])
  {
  }

  /** A server whose every page names a further page is crawled for exactly
      MaxPages requests. */
  lemma EndlessChainHitsCeiling(server: PageServer<Episode>, start: string, reqs: seq<string>)
    requires forall u :: Continues(server(u))
    requires IsCrawl(server, start, reqs)
    ensures |reqs| == MaxPages
  {
  }

  /** A collection served in three pages is read with exactly three requests
      and all items come back in page order. */
  lemma ThreePageCollection(server: PageServer<Episode>, base: string, u1: string, u2: string,
                            r1: seq<Episode>, r2: seq<Episode>, r3: seq<Episode>, reqs: seq<string>)
    requires u1 != "" && u2 != ""
    requires server(EpisodesUrl(base)) == Page(r1, Some(u1))
    requires server(u1) == Page(r2, Some(u2))
    requires server(u2) == Page(r3, None)
    requires IsCrawl(server, EpisodesUrl(base), reqs)
    ensures reqs == [EpisodesUrl(base), u1, u2]
    ensures Harvest(server, reqs) == r1 + r2 + r3
  {
    var expected := [EpisodesUrl(base), u1, u2];
    assert Linked(server, expected);
    assert IsCrawl(server, EpisodesUrl(base), expected);
    CrawlUnique(server, EpisodesUrl(base), reqs, expected);
    assert expected[..2] == [EpisodesUrl(base), u1];
    assert expected[..2][..1] == [EpisodesUrl(base)];
    assert [EpisodesUrl(base)][..0] == [];
    assert Harvest(server, [EpisodesUrl(base)]) == r1;
    assert Harvest(server, [EpisodesUrl(base), u1]) == r1 + r2;
  }

  // ---------------------------------------------------------------------
  // fetchCharacters: one page of the character collection
  // ---------------------------------------------------------------------

  /** `${API_BASE_URL}/character?page=${page}` */
  function PageUrl(base: string, page: int): (u: string)
    ensures |u| > |base + "/character?page="|
    ensures u[..|base + "/character?page="|] == base + "/character?page="
    ensures AllDigits(u[|base + "/character?page="|..]) <==> page >= 0
  {
    base + "/character?page=" + IntToString(page)
  }

  /** fetchCharacters. It does not validate the body: a page without a
      `results` array resolves to `undefined`, written None here. */
  function FetchCharacters(base: string, page: int, server: PageServer<Character>)
    : (r: Call<Option<seq<Character>>>)
    ensures r.requests == [PageUrl(base, page)]
    ensures r.outcome.Rejected? <==> server(PageUrl(base, page)).Failed?
    ensures server(PageUrl(base, page)).Page? ==>
      r.outcome == Resolved(Some(server(PageUrl(base, page)).results))
    ensures server(PageUrl(base, page)).NoResults? ==> r.outcome == Resolved(None)
  {
    var url := PageUrl(base, page);
    var outcome := match server(url)
      case Page(results, _) => Resolved(Some(results))
      case NoResults => Resolved(None)
      case Failed(e) => Rejected(e);
    Call([url], outcome)
  }

  /** Distinct pages are requested at distinct URLs. */
  lemma PageUrlInjective(base: string, p: int, q: int)
    requires PageUrl(base, p) == PageUrl(base, q)
    ensures p == q
  {
    var prefix := base + "/character?page=";
    assert PageUrl(base, p)[|prefix|..] == IntToString(p);
    assert PageUrl(base, q)[|prefix|..] == IntToString(q);
    IntToStringInjective(p, q);
  }

  /** The default page is requested as `?page=1`. */
  lemma DefaultPageUrl(base: string)
    ensures PageUrl(base, DefaultPage) == base + "/character?page=1"
  {
  }

  // ---------------------------------------------------------------------
  // fetchEpisodeCharacters: id extraction, one bulk request, normalisation
  // ---------------------------------------------------------------------

  /** The longest suffix of `s` made of digits. */
  function TrailingDigits(s: string): (d: string)
    ensures |d| <= |s| && AllDigits(d)
    ensures d == s[|s| - |d|..]
    ensures |d| < |s| ==> !IsDigit(s[|s| - |d| - 1])
    decreases |s|
  {
    if s == [] || !IsDigit(s[|s| - 1]) then []
    else TrailingDigits(s[..|s| - 1]) + [s[|s| - 1]]
  }

  /** The capture group of `url.match(/\/(\d+)$/)`, or None when the regex
      does not match. */
  function MatchTrailingId(url: string): (m: Option<string>)
    ensures m.Some? ==> 0 < |m.value| < |url| && url[|url| - |m.value| - 1] == '/'
    ensures m.Some? ==> IsDigit(url[|url| - 1])
  {
    var d := TrailingDigits(url);
    if 0 < |d| < |url| && url[|url| - |d| - 1] == '/' then Some(d) else None
  }

  /** The regex matches exactly when the URL ends in a slash followed by one
      or more digits, and then captures those digits. */
  lemma MatchTrailingIdSpec(url: string, d: string)
    ensures MatchTrailingId(url) == Some(d) <==>
      (0 < |d| < |url| && AllDigits(d) && url[|url| - |d|..] == d && url[|url| - |d| - 1] == '/')
  {
  }

  /** The trailing digits of `p + "/" + d` are d. */
  lemma {:induction false} TrailingDigitsAfterSlash(p: string, d: string)
    requires AllDigits(d)
    ensures TrailingDigits(p + "/" + d) == d
    decreases |d|
  {
    var s := p + "/" + d;
    if d == [] {
      assert s[|s| - 1] == '/';
    } else {
      var d' := d[..|d| - 1];
      assert s[..|s| - 1] == p + "/" + d';
      TrailingDigitsAfterSlash(p, d');
      assert d == d' + [d[|d| - 1]];
    }
  }

  /** `matches ? parseInt(matches[1]) : 0` */
  function ParsedId(url: string): (n: nat)
    ensures MatchTrailingId(url).None? ==> n == 0
    ensures (n > 0) <==> (MatchTrailingId(url).Some? && !AllZeros(MatchTrailingId(url).value))
  {
    match MatchTrailingId(url)
    case Some(d) => DigitsValue(d)
    case None => 0
  }

  /** The ids `fetchEpisodeCharacters` keeps: the parsed ids that are
      positive, in input order. */
  function CharacterIds(urls: seq<string>): (ids: seq<nat>)
    ensures |ids| <= |urls|
    ensures forall i :: 0 <= i < |ids| ==> ids[i] > 0
    decreases |urls|
  {
    if urls == [] then []
    else
      var id := ParsedId(urls[0]);
      (if id > 0 then [id] else []) + CharacterIds(urls[1..])
  }

  /** Id extraction works URL by URL and keeps the input order. */
  lemma {:induction false} CharacterIdsConcat(a: seq<string>, b: seq<string>)
    ensures CharacterIds(a + b) == CharacterIds(a) + CharacterIds(b)
    decreases |a|
  {
    if a == [] {
      assert a + b == b;
    } else {
      assert (a + b)[0] == a[0] && (a + b)[1..] == a[1..] + b;
      CharacterIdsConcat(a[1..], b);
      var head := if ParsedId(a[0]) > 0 then [ParsedId(a[0])] else [];
      assert CharacterIds(a + b) == head + CharacterIds(a[1..] + b);
      assert CharacterIds(a) == head + CharacterIds(a[1..]);
    }
  }

  /** An id is kept exactly when it is positive and parsed from some URL. */
  lemma {:induction false} CharacterIdsMembership(urls: seq<string>, n: nat)
    ensures n in CharacterIds(urls) <==>
      n > 0 && exists i :: 0 <= i < |urls| && ParsedId(urls[i]) == n
    decreases |urls|
  {
    if urls != [] {
      CharacterIdsMembership(urls[1..], n);
      if n > 0 && exists i :: 0 <= i < |urls| && ParsedId(urls[i]) == n {
        var i :| 0 <= i < |urls| && ParsedId(urls[i]) == n;
        if i > 0 {
          assert ParsedId(urls[1..][i - 1]) == n;
        }
      }
      if n in CharacterIds(urls[1..]) {
        var i :| 0 <= i < |urls[1..]| && ParsedId(urls[1..][i]) == n;
        assert ParsedId(urls[i + 1]) == n;
      }
    }
  }

  /** A URL ending in `/` and the decimal spelling of a positive id yields
      that id. */
  lemma ResourceUrlYieldsId(prefix: string, n: nat)
    requires n > 0
    ensures ParsedId(prefix + "/" + NatToString(n)) == n
    ensures CharacterIds([prefix + "/" + NatToString(n)]) == [n]
  {
    TrailingDigitsAfterSlash(prefix, NatToString(n));
    ParseNatToString(n);
    assert [prefix + "/" + NatToString(n)][1..] == [];
  }

  /** `ids.join(",")` */
  function JoinIds(ids: seq<nat>): (j: string)
    ensures (j == "") <==> (ids == [])
    ensures forall i :: 0 <= i < |j| ==> IsDigit(j[i]) || j[i] == ','
    decreases |ids|
  {
    if |ids| == 0 then ""
    else if |ids| == 1 then NatToString(ids[0])
    else NatToString(ids[0]) + "," + JoinIds(ids[1..])
  }

  /** Splitting a string at every comma, as `s.split(",")` does. */
  function SplitOnComma(s: string): (parts: seq<string>)
    ensures |parts| >= 1
    decreases |s|
  {
    if s == [] then [""]
    else
      var rest := SplitOnComma(s[1..]);
      if s[0] == ',' then [""] + rest else [[s[0]] + rest[0]] + rest[1..]
  }

  lemma {:induction false} SplitDigits(w: string, t: string)
    requires AllDigits(w)
    ensures SplitOnComma(w) == [w]
    ensures SplitOnComma(w + "," + t) == [w] + SplitOnComma(t)
    decreases |w|
  {
    if w != [] {
      assert (w + "," + t)[1..] == w[1..] + "," + t;
      SplitDigits(w[1..], t);
      assert [w[0]] + w[1..] == w;
    } else {
      assert w + "," + t == [','] + t;
    }
  }

  /** The comma-joined id list reads back as the ids it was made from. */
  lemma {:induction false} JoinIdsRoundTrip(ids: seq<nat>)
    requires |ids| >= 1
    ensures |SplitOnComma(JoinIds(ids))| == |ids|
    ensures forall i :: 0 <= i < |ids| ==>
      AllDigits(SplitOnComma(JoinIds(ids))[i]) && DigitsValue(SplitOnComma(JoinIds(ids))[i]) == ids[i]
    decreases |ids|
  {
    ParseNatToString(ids[0]);
    if |ids| == 1 {
      SplitDigits(NatToString(ids[0]), "");
    } else {
      SplitDigits(NatToString(ids[0]), JoinIds(ids[1..]));
      JoinIdsRoundTrip(ids[1..]);
      var parts := SplitOnComma(JoinIds(ids));
      assert parts == [NatToString(ids[0])] + SplitOnComma(JoinIds(ids[1..]));
      forall i | 0 <= i < |ids|
        ensures AllDigits(parts[i]) && DigitsValue(parts[i]) == ids[i]
      {
        if i > 0 {
          assert parts[i] == SplitOnComma(JoinIds(ids[1..]))[i - 1];
          assert ids[i] == ids[1..][i - 1];
        }
      }
    }
  }

  /** `${API_BASE_URL}/character/${ids}` */
  function BulkUrl(base: string, ids: seq<nat>): (u: string)
    ensures |u| >= |base + "/character/"| && u[..|base + "/character/"|] == base + "/character/"
    ensures (|u| > |base + "/character/"|) <==> (ids != [])
  {
    base + "/character/" + JoinIds(ids)
  }

  /** `Array.isArray(data) ? data : [data]` */
  function AsList(reply: BulkReply): (o: Outcome<seq<Character>>)
    ensures o.Rejected? <==> reply.BulkFailed?
    ensures reply.Many? ==> o == Resolved(reply.items)
    ensures reply.Single? ==> o == Resolved([reply.item])
  {
    match reply
    case Many(items) => Resolved(items)
    case Single(item) => Resolved([item])
    case BulkFailed(e) => Rejected(e)
  }

  /** fetchEpisodeCharacters. */
  function FetchEpisodeCharacters(base: string, urls: seq<string>, server: BulkServer)
    : (r: Call<seq<Character>>)
    ensures r.requests == [] <==> CharacterIds(urls) == []
    ensures r.requests == [] ==> r.outcome == Resolved([])
    ensures r.requests != [] ==> r.requests == [BulkUrl(base, CharacterIds(urls))]
    ensures r.requests != [] ==>
      match server(r.requests[0])
      case Many(items) => r.outcome == Resolved(items)
      case Single(item) => r.outcome == Resolved([item])
      case BulkFailed(e) => r.outcome == Rejected(e)
  {
    var ids := CharacterIds(urls);
    if |ids| == 0 then Call([], Resolved([]))
    else
      var url := BulkUrl(base, ids);
      Call([url], AsList(server(url)))
  }

  /** A URL that does not end in a digit names no id. */
  lemma NoTrailingDigitNoId(url: string)
    requires url == [] || !IsDigit(url[|url| - 1])
    ensures ParsedId(url) == 0
    ensures CharacterIds([url]) == []
  {
  }

  /** The resolver scenario: two resource URLs with positive ids and one URL
      without a trailing id (such as `/character/2`, `/character/35` and
      `/bogus`) keep the two ids, in order. */
  lemma ResolverScenarioIds(prefix: string, m: nat, n: nat, bogus: string)
    requires m > 0 && n > 0
    requires bogus == [] || !IsDigit(bogus[|bogus| - 1])
    ensures CharacterIds([prefix + "/" + NatToString(m), prefix + "/" + NatToString(n), bogus]) == [m, n]
  {
    var um, un := prefix + "/" + NatToString(m), prefix + "/" + NatToString(n);
    ResourceUrlYieldsId(prefix, m);
    ResourceUrlYieldsId(prefix, n);
    NoTrailingDigitNoId(bogus);
    var urls := [um, un, bogus];
    assert urls[1..] == [un, bogus] && urls[1..][1..] == [bogus] && urls[1..][1..][1..] == [];
  }

  /** Two ids are joined as `m,n`. */
  lemma JoinTwoIds(m: nat, n: nat)
    ensures JoinIds([m, n]) == NatToString(m) + "," + NatToString(n)
  {
  }

  /** In the same scenario exactly one request goes out, for the bulk URL
      listing both ids (`character/2,35`). */
  lemma ResolverScenarioRequest(base: string, server: BulkServer, prefix: string, m: nat, n: nat, bogus: string)
    requires m > 0 && n > 0
    requires bogus == [] || !IsDigit(bogus[|bogus| - 1])
    ensures FetchEpisodeCharacters(base, [prefix + "/" + NatToString(m), prefix + "/" + NatToString(n), bogus], server).requests
         == [base + "/character/" + (NatToString(m) + "," + NatToString(n))]
  {
    var urls := [prefix + "/" + NatToString(m), prefix + "/" + NatToString(n), bogus];
    ResolverScenarioIds(prefix, m, n, bogus);
    JoinTwoIds(m, n);
  }
}
