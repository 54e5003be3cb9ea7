/**
 * `_search_candidates` of `src/langgraph_flow.py`: every query is searched in
 * turn and each result whose stripped `href` is new becomes a candidate.
 */
module Search {
  import opened Wrappers
  import opened PyStr
  import opened Tools

  /** A candidate dictionary: `{"title", "url", "snippet", "source_query"}`. */
  datatype Candidate = Candidate(title: Option<string>, url: string, snippet: Option<string>, sourceQuery: string)

  /** One search result together with the query that produced it. */
  datatype Sourced = Sourced(query: string, hit: Hit)

  /** `(r.get("href") or "").strip()`. */
  function Href(h: Hit): string {
    Strip(h.href.GetOr(""))
  }

  /** The candidate a result becomes when its link is new. */
  function ToCandidate(x: Sourced): (c: Candidate)
    ensures c.url == Href(x.hit) && c.sourceQuery == x.query
    ensures c.title == x.hit.title && c.snippet == x.hit.body
  {
    Candidate(x.hit.title, Href(x.hit), x.hit.body, x.query)
  }

  /** The results of one query, each tagged with that query. */
  function Tag(q: string, hits: seq<Hit>): (s: seq<Sourced>)
    ensures |s| == |hits|
    ensures forall k :: 0 <= k < |hits| ==> s[k] == Sourced(q, hits[k])
  {
    seq(|hits|, k requires 0 <= k < |hits| => Sourced(q, hits[k]))
  }

  /** What `search_duckduckgo(q, max_results=max)` returns for the given backend. */
  function Results(be: SearchBackend, q: string, max: int): seq<Hit> {
    SearchResults(be.installed, be.run(q, max))
  }

  /** All results of all queries, in the order the loops visit them. */
  function Stream(be: SearchBackend, qs: seq<string>, max: int): (s: seq<Sourced>)
    ensures !be.installed ==> s == []
    decreases |qs|
  {
    if qs == [] then []
    else
      var q := qs[|qs| - 1];
      Stream(be, qs[..|qs| - 1], max) + Tag(q, Results(be, q, max))
  }

  /** The URLs of a list of candidates. */
  function Urls(cs: seq<Candidate>): set<string> {
    set c | c in cs :: c.url
  }

  /** The non-empty stripped links occurring in a stream of results. */
  function Hrefs(s: seq<Sourced>): set<string> {
    set x | x in s && Href(x.hit) != "" :: Href(x.hit)
  }

  /**
   * The loop's outcome over a stream: a result is kept when its link is not
   * empty and not among the links of the candidates kept before it.
   */
  function Firsts(s: seq<Sourced>): seq<Candidate>
    decreases |s|
  {
    if s == [] then []
    else
      var cs := Firsts(s[..|s| - 1]);
      var u := Href(s[|s| - 1].hit);
      if u == "" || u in Urls(cs) then cs else cs + [ToCandidate(s[|s| - 1])]
  }

  /** The result at `j` has a non-empty link that no earlier result has. */
  predicate IsFirst(s: seq<Sourced>, j: int) {
    && 0 <= j < |s|
    && Href(s[j].hit) != ""
    && forall i :: 0 <= i < j ==> Href(s[i].hit) != Href(s[j].hit)
  }

  /** Reference definition: the candidates of the first occurrences of each link, in stream order. */
  function FirstOccurrences(s: seq<Sourced>): seq<Candidate>
    decreases |s|
  {
    if s == [] then []
    else FirstOccurrences(s[..|s| - 1]) + (if IsFirst(s, |s| - 1) then [ToCandidate(s[|s| - 1])] else [])
  }

  /** No two candidates share a URL. */
  predicate DistinctUrls(cs: seq<Candidate>) {
    forall i, j :: 0 <= i < j < |cs| ==> cs[i].url != cs[j].url
  }

  /** Every candidate URL is non-empty and carries no surrounding whitespace. */
  predicate CleanUrls(cs: seq<Candidate>) {
    forall i :: 0 <= i < |cs| ==> cs[i].url != "" && Trimmed(cs[i].url)
  }

  /** The value `_search_candidates(queries, max_results=max)` returns. */
  function Candidates(be: SearchBackend, qs: seq<string>, max: int): seq<Candidate> {
    Firsts(Stream(be, qs, max))
  }

  /**
   * `_search_candidates(queries, max_results)`: the candidates of
   * `Candidates`, kept distinct by the `seen` set.
   */
  method SearchCandidates(be: SearchBackend, queries: seq<string>, maxResults: int)
    returns (candidates: seq<Candidate>)
    ensures candidates == Candidates(be, queries, maxResults)
    ensures DistinctUrls(candidates) && CleanUrls(candidates)
  {
    candidates := [];
    var seen: set<string> := {};
    for i := 0 to |queries|
      invariant candidates == Firsts(Stream(be, queries[..i], maxResults))
      invariant seen == Urls(candidates)
    {
      var q := queries[i];
      var res := SearchDuckDuckGo(be.installed, be.run(q, maxResults));
      ghost var before := Stream(be, queries[..i], maxResults);
      assert before + Tag(q, res[..0]) == before;
      for j := 0 to |res|
        invariant candidates == Firsts(before + Tag(q, res[..j]))
        invariant seen == Urls(candidates)
      {
        var r := res[j];
        var href := Strip(r.href.GetOr(""));
        StreamStep(before, q, res, j);
        FirstsSnoc(before + Tag(q, res[..j]), Sourced(q, r));
        if href == "" || href in seen {
          continue;
        }
        UrlsSnoc(candidates, Candidate(r.title, href, r.body, q));
        seen := seen + {href};
        candidates := candidates + [Candidate(r.title, href, r.body, q)];
      }
      assert res[..|res|] == res;
      assert queries[..i + 1][..i] == queries[..i];
    }
    assert queries[..|queries|] == queries;
    FirstsWellFormed(Stream(be, queries, maxResults));
  }

  /** One more result of the current query extends the stream by one element. */
  lemma StreamStep(before: seq<Sourced>, q: string, res: seq<Hit>, j: int)
    requires 0 <= j < |res|
    ensures before + Tag(q, res[..j + 1]) == (before + Tag(q, res[..j])) + [Sourced(q, res[j])]
  {
    assert Tag(q, res[..j + 1]) == Tag(q, res[..j]) + [Sourced(q, res[j])];
  }

  /** A non-empty sequence is its front followed by its last element. */
  lemma SplitLast<T>(s: seq<T>)
    requires s != []
    ensures s == s[..|s| - 1] + [s[|s| - 1]]
  {
  }

  /** `Firsts` on one more result. */
  lemma FirstsSnoc(s: seq<Sourced>, x: Sourced)
    ensures Firsts(s + [x]) ==
      if Href(x.hit) == "" || Href(x.hit) in Urls(Firsts(s)) then Firsts(s) else Firsts(s) + [ToCandidate(x)]
  {
    assert (s + [x])[..|s|] == s;
  }

  lemma UrlsSnoc(cs: seq<Candidate>, c: Candidate)
    ensures Urls(cs + [c]) == Urls(cs) + {c.url}
  {
    forall u | u in Urls(cs + [c]) ensures u in Urls(cs) + {c.url} {
      var d :| d in cs + [c] && d.url == u;
      if d != c { assert d in cs; }
    }
    forall u | u in Urls(cs) ensures u in Urls(cs + [c]) {
      var d :| d in cs && d.url == u;
      assert d in cs + [c];
    }
    assert c in cs + [c];
  }

  /** The links kept are exactly the non-empty links of the stream. */
  lemma {:induction false} UrlsOfFirsts(s: seq<Sourced>)
    ensures Urls(Firsts(s)) == Hrefs(s)
    decreases |s|
  {
    if s != [] {
      var init := s[..|s| - 1];
      var x := s[|s| - 1];
      UrlsOfFirsts(init);
      HrefsSnoc(init, x);
      SplitLast(s);
      var cs := Firsts(init);
      if !(Href(x.hit) == "" || Href(x.hit) in Urls(cs)) {
        UrlsSnoc(cs, ToCandidate(x));
      }
    }
  }

  lemma HrefsSnoc(s: seq<Sourced>, x: Sourced)
    ensures Hrefs(s + [x]) == Hrefs(s) + (if Href(x.hit) != "" then {Href(x.hit)} else {})
  {
    forall u | u in Hrefs(s + [x])
      ensures u in Hrefs(s) + (if Href(x.hit) != "" then {Href(x.hit)} else {})
    {
      var y :| y in s + [x] && Href(y.hit) != "" && Href(y.hit) == u;
      if y != x { assert y in s; }
    }
    forall u | u in Hrefs(s) ensures u in Hrefs(s + [x]) {
      var y :| y in s && Href(y.hit) != "" && Href(y.hit) == u;
      assert y in s + [x];
    }
    assert x in s + [x];
  }

  /** A link is among the stream's links exactly when some result carries it. */
  lemma HrefsAt(s: seq<Sourced>, u: string)
    requires u != ""
    ensures u in Hrefs(s) <==> exists i :: 0 <= i < |s| && Href(s[i].hit) == u
  {
    if u in Hrefs(s) {
      var y :| y in s && Href(y.hit) != "" && Href(y.hit) == u;
      var i :| 0 <= i < |s| && s[i] == y;
    }
    if exists i :: 0 <= i < |s| && Href(s[i].hit) == u {
      var i :| 0 <= i < |s| && Href(s[i].hit) == u;
      assert s[i] in s;
    }
  }

  /** The `seen`-set loop keeps exactly the first occurrence of every non-empty link, in order. */
  lemma {:induction false} FirstsAreFirstOccurrences(s: seq<Sourced>)
    ensures Firsts(s) == FirstOccurrences(s)
    decreases |s|
  {
    if s != [] {
      var init := s[..|s| - 1];
      var x := s[|s| - 1];
      var u := Href(x.hit);
      FirstsAreFirstOccurrences(init);
      UrlsOfFirsts(init);
      if u != "" {
        HrefsAt(init, u);
        assert u in Urls(Firsts(init)) <==> !IsFirst(s, |s| - 1) by {
          forall i | 0 <= i < |s| - 1 ensures init[i] == s[i] { }
        }
      }
    }
  }

  /** The kept candidates have distinct, non-empty, stripped URLs. */
  lemma {:induction false} FirstsWellFormed(s: seq<Sourced>)
    ensures DistinctUrls(Firsts(s)) && CleanUrls(Firsts(s))
    decreases |s|
  {
    if s != [] {
      var init := s[..|s| - 1];
      var x := s[|s| - 1];
      var cs := Firsts(init);
      FirstsWellFormed(init);
      var u := Href(x.hit);
      if !(u == "" || u in Urls(cs)) {
        var c := ToCandidate(x);
        var cs' := cs + [c];
        StripShape(x.hit.href.GetOr(""));
        forall i, j | 0 <= i < j < |cs'| ensures cs'[i].url != cs'[j].url {
          if j == |cs| { assert cs'[i] == cs[i] && cs[i] in cs; }
          else { assert cs'[i] == cs[i] && cs'[j] == cs[j]; }
        }
        forall i | 0 <= i < |cs'| ensures cs'[i].url != "" && Trimmed(cs'[i].url) {
          if i < |cs| { assert cs'[i] == cs[i]; }
        }
      }
    }
  }

  /** Later results never displace or reorder candidates already kept. */
  lemma {:induction false} FirstsPrefix(a: seq<Sourced>, b: seq<Sourced>)
    ensures Firsts(a) <= Firsts(a + b)
    decreases |b|
  {
    if b != [] {
      var b' := b[..|b| - 1];
      FirstsPrefix(a, b');
      assert (a + b)[..|a + b| - 1] == a + b';
    } else {
      assert a + b == a;
    }
  }

  /** The candidates of the earlier queries stay a prefix when more queries are searched. */
  lemma {:induction false} StreamPrefix(be: SearchBackend, qs: seq<string>, more: seq<string>, max: int)
    ensures Stream(be, qs, max) <= Stream(be, qs + more, max)
    decreases |more|
  {
    if more != [] {
      var m' := more[..|more| - 1];
      StreamPrefix(be, qs, m', max);
      assert (qs + more)[..|qs + more| - 1] == qs + m';
    } else {
      assert qs + more == qs;
    }
  }

  /** Searching more queries keeps every candidate found by the earlier ones, in place. */
  lemma CandidatesPrefix(be: SearchBackend, qs: seq<string>, more: seq<string>, max: int)
    ensures Candidates(be, qs, max) <= Candidates(be, qs + more, max)
  {
    StreamPrefix(be, qs, more, max);
    var s := Stream(be, qs, max);
    var t := Stream(be, qs + more, max);
    assert t == s + t[|s|..];
    FirstsPrefix(s, t[|s|..]);
  }

  /** Without the search library there are no candidates. */
  lemma NoLibraryNoCandidates(be: SearchBackend, qs: seq<string>, max: int)
    requires !be.installed
    ensures Candidates(be, qs, max) == []
  {
  }
}
