/**
 * The two network helpers of `src/tools.py`, with the network itself left as
 * an input: a web search whose raw results are mapped to `{title, href, body}`
 * records, and a page fetch whose HTML `<title>` is extracted by a string scan.
 */
module Tools {
  import opened Wrappers
  import opened PyStr

  /** One raw result dictionary as yielded by the DuckDuckGo library (`None` for a missing key). */
  datatype RawHit = RawHit(
    title: Option<string>, href: Option<string>, url: Option<string>,
    body: Option<string>, snippet: Option<string>)

  /** One mapped search result: `{"title": ..., "href": ..., "body": ...}`. */
  datatype Hit = Hit(title: Option<string>, href: Option<string>, body: Option<string>)

  /**
   * What one `DDGS().text(query, max_results=...)` call did: the results it
   * yielded, and whether it then raised instead of finishing.
   */
  datatype DdgsRun = DdgsRun(yielded: seq<RawHit>, raised: bool)

  /** The search capability: whether the library is importable, and its behaviour per (query, max_results). */
  datatype SearchBackend = SearchBackend(installed: bool, run: (string, int) -> DdgsRun)

  /** A Python `a or b` on optional strings: `a` when it is truthy, otherwise `b`. */
  function OrElse(a: Option<string>, b: Option<string>): (r: Option<string>)
    ensures Truthy(a) ==> r == a
    ensures !Truthy(a) ==> r == b
  {
    if Truthy(a) then a else b
  }

  /** The mapping of one raw result: `href` falls back to `url`, `body` to `snippet`. */
  function MapHit(r: RawHit): Hit {
    Hit(r.title, OrElse(r.href, r.url), OrElse(r.body, r.snippet))
  }

  /**
   * `search_duckduckgo`: with the library missing, no results; otherwise one
   * mapped record per result the library yielded, in order. The `try` wraps the
   * whole loop, so results yielded before a failure are kept.
   */
  method SearchDuckDuckGo(installed: bool, run: DdgsRun) returns (results: seq<Hit>)
    ensures !installed ==> results == []
    ensures installed ==> |results| == |run.yielded|
    ensures installed ==> forall i :: 0 <= i < |results| ==>
      && results[i].title == run.yielded[i].title
      && results[i].href == OrElse(run.yielded[i].href, run.yielded[i].url)
      && results[i].body == OrElse(run.yielded[i].body, run.yielded[i].snippet)
    ensures results == SearchResults(installed, run)
  {
    results := [];
    if installed {
      for i := 0 to |run.yielded|
        invariant results == MappedPrefix(run.yielded, i)
      {
        var r := run.yielded[i];
        results := results + [Hit(r.title, OrElse(r.href, r.url), OrElse(r.body, r.snippet))];
      }
    }
  }

  /** The first `n` raw results, mapped. */
  function MappedPrefix(rs: seq<RawHit>, n: nat): (hs: seq<Hit>)
    requires n <= |rs|
    ensures |hs| == n
    ensures forall i :: 0 <= i < n ==> hs[i] == MapHit(rs[i])
  {
    if n == 0 then [] else MappedPrefix(rs, n - 1) + [MapHit(rs[n - 1])]
  }

  /** The value `search_duckduckgo` returns, as a function of its inputs. */
  function SearchResults(installed: bool, run: DdgsRun): (hs: seq<Hit>)
    ensures !installed ==> hs == []
    ensures installed ==> |hs| == |run.yielded|
  {
    if installed then MappedPrefix(run.yielded, |run.yielded|) else []
  }

  /** What one `requests.get(url, timeout=8)` did: it raised, or it answered. */
  datatype HttpOutcome = RequestRaised | Response(ok: bool, text: Option<string>)

  /** The fetch capability: whether `requests` is importable, and the outcome of a GET per URL. */
  datatype HttpBackend = HttpBackend(installed: bool, get: string -> HttpOutcome)

  const OpenTag: string := "<title"
  const CloseTag: string := "</title>"

  /**
   * One title span in `text`: `o` is the first case-insensitive `<title`, `g`
   * the first `>` at or after it, and `e` the first case-insensitive
   * `</title>` at or after that `>`.
   */
  predicate TitleSpan(text: string, o: int, g: int, e: int) {
    && FirstAt(FoldCase(text), OpenTag, 0, o)
    && FirstAt(text, ">", o, g)
    && FirstAt(FoldCase(text), CloseTag, g, e)
  }

  /**
   * The title scan of `fetch_url_title` over the fetched text, with its
   * case-insensitive searches done on a copy of `text` lowered character by
   * character, so that every index found in it is also an index of `text`.
   */
  function ExtractTitle(text: string): Option<string> {
    var lower := FoldCase(text);
    var open := Find(lower, OpenTag, 0);
    if open == -1 then None
    else
      var gt := Find(text, ">", open);
      if gt == -1 then None
      else
        var close := Find(lower, CloseTag, gt);
        if close == -1 then None
        else
          CloseAfterGt(text, gt, close);
          Some(Strip(text[gt + 1..close]))
  }

  /** A `</title>` found at or after a `>` starts strictly after it. */
  lemma CloseAfterGt(text: string, gt: int, close: int)
    requires FirstAt(text, ">", 0, gt) || OccursAt(text, ">", gt)
    requires OccursAt(FoldCase(text), CloseTag, close) && gt <= close
    ensures gt < close
  {
    assert text[gt..gt + 1] == ">";
    var lower := FoldCase(text);
    assert lower[close..close + 8] == CloseTag;
    assert lower[close] == '<';
    assert lower[gt] == LowerChar(text[gt]) == '>';
  }

  /** Given a title span, the scan finds exactly that span and returns its text, stripped. */
  lemma SpanTitle(text: string, o: int, g: int, e: int)
    requires TitleSpan(text, o, g, e)
    ensures g < e && ExtractTitle(text) == Some(Strip(text[g + 1..e]))
  {
    SpanFinds(text, o, g, e);
  }

  /** The three searches of the scan land on the span's positions. */
  lemma SpanFinds(text: string, o: int, g: int, e: int)
    requires TitleSpan(text, o, g, e)
    ensures 0 <= o <= g < e <= |text|
    ensures Find(FoldCase(text), OpenTag, 0) == o
    ensures Find(text, ">", o) == g
    ensures Find(FoldCase(text), CloseTag, g) == e
  {
    FindIs(FoldCase(text), OpenTag, 0, o);
    FindIs(text, ">", o, g);
    FindIs(FoldCase(text), CloseTag, g, e);
    CloseAfterGt(text, g, e);
  }

  /** A found title has no whitespace at either end. */
  lemma ExtractTitleTrimmed(text: string)
    ensures ExtractTitle(text).Some? ==> Trimmed(ExtractTitle(text).value)
  {
    var lower := FoldCase(text);
    var open := Find(lower, OpenTag, 0);
    if open != -1 {
      var gt := Find(text, ">", open);
      if gt != -1 {
        var close := Find(lower, CloseTag, gt);
        if close != -1 {
          CloseAfterGt(text, gt, close);
          StripShape(text[gt + 1..close]);
        }
      }
    }
  }

  /** A title is found exactly when the page has a title span, and then it is that span's text, stripped. */
  lemma ExtractTitleSpan(text: string)
    ensures ExtractTitle(text).Some? <==> exists o, g, e :: TitleSpan(text, o, g, e)
    ensures forall o, g, e :: TitleSpan(text, o, g, e) ==>
      g < e && ExtractTitle(text) == Some(Strip(text[g + 1..e]))
  {
    forall o, g, e | TitleSpan(text, o, g, e)
      ensures g < e && ExtractTitle(text) == Some(Strip(text[g + 1..e]))
    {
      SpanTitle(text, o, g, e);
    }
    var lower := FoldCase(text);
    var open := Find(lower, OpenTag, 0);
    if open != -1 {
      var gt := Find(text, ">", open);
      if gt != -1 {
        var close := Find(lower, CloseTag, gt);
        if close != -1 {
          assert TitleSpan(text, open, gt, close);
        }
      }
    }
  }

  /**
   * The title scan exactly as `fetch_url_title` writes it: the positions of
   * `<title` and `</title>` are searched for in `text.lower()`, but the `>`
   * search and the final slice use them as positions in `text`.
   */
  function ExtractTitleAsWritten(text: string): Option<string> {
    var lower := PyLower(text);
    var open := Find(lower, OpenTag, 0);
    if open == -1 then None
    else
      var gt := Find(text, ">", open);
      if gt == -1 then None
      else
        var close := Find(lower, CloseTag, gt);
        if close == -1 then None
        else Some(Strip(Slice(text, gt + 1, close)))
  }

  /** The scan as written, once the three positions it finds are known. */
  lemma AsWrittenAt(text: string, o: nat, g: nat, e: nat)
    requires FirstAt(PyLower(text), OpenTag, 0, o)
    requires FirstAt(text, ">", o, g)
    requires FirstAt(PyLower(text), CloseTag, g, e)
    ensures ExtractTitleAsWritten(text) == Some(Strip(Slice(text, g + 1, e)))
  {
    FindIs(PyLower(text), OpenTag, 0, o);
    FindIs(text, ">", o, g);
    FindIs(PyLower(text), CloseTag, g, e);
  }

  /** Where `text.lower()` keeps indices (no U+0130 in the page), the two scans agree. */
  lemma AsWrittenAgreesWithoutDottedI(text: string)
    requires DottedCapitalI !in text
    ensures ExtractTitleAsWritten(text) == ExtractTitle(text)
  {
    PyLowerKeepsIndices(text);
    var lower := FoldCase(text);
    var open := Find(lower, OpenTag, 0);
    if open != -1 {
      var gt := Find(text, ">", open);
      if gt != -1 {
        var close := Find(lower, CloseTag, gt);
        if close != -1 {
          CloseAfterGt(text, gt, close);
          assert Slice(text, gt + 1, close) == text[gt + 1..close];
        }
      }
    }
  }

  /** A title text that holds no tag delimiters and no characters lowering changes. */
  predicate PlainTitle(t: string) {
    && Trimmed(t)
    && forall i :: 0 <= i < |t| ==>
         t[i] != '<' && t[i] != '>' && !('A' <= t[i] <= 'Z') && t[i] != DottedCapitalI
  }

  /** The page `İ<title>t</title>`: a U+0130 in front of a plain title element. */
  function DottedPage(t: string): string {
    [DottedCapitalI] + OpenTag + ">" + t + CloseTag
  }

  /** A U+0130 in front of a text with no capitals lowers to two characters in front of it. */
  lemma LowerAfterDottedI(rest: string)
    requires forall i :: 0 <= i < |rest| ==> !('A' <= rest[i] <= 'Z') && rest[i] != DottedCapitalI
    ensures PyLower([DottedCapitalI] + rest) == "i\U{0307}" + rest
  {
    FoldCaseNoCapitals(rest);
    PyLowerKeepsIndices(rest);
    assert ([DottedCapitalI] + rest)[1..] == rest;
  }

  /** The element `<title>t</title>` contains no capitals and no U+0130. */
  lemma ElementHasNoCapitals(t: string)
    requires PlainTitle(t)
    ensures var rest := OpenTag + ">" + t + CloseTag;
      forall i :: 0 <= i < |rest| ==> !('A' <= rest[i] <= 'Z') && rest[i] != DottedCapitalI
  {
    var rest := OpenTag + ">" + t + CloseTag;
    forall i | 0 <= i < |rest| ensures !('A' <= rest[i] <= 'Z') && rest[i] != DottedCapitalI {
      if 7 <= i < 7 + |t| { assert rest[i] == t[i - 7]; }
      else if i >= 7 + |t| { assert rest[i] == CloseTag[i - 7 - |t|]; }
    }
  }

  /** On such a page `text.lower()` is one character longer than `text`. */
  lemma DottedPageLower(t: string)
    requires PlainTitle(t)
    ensures PyLower(DottedPage(t)) == "i\U{0307}" + OpenTag + ">" + t + CloseTag
  {
    var rest := OpenTag + ">" + t + CloseTag;
    assert DottedPage(t) == [DottedCapitalI] + rest;
    ElementHasNoCapitals(t);
    LowerAfterDottedI(rest);
  }

  /** Where the searches of the scan as written land on the lowered page. */
  lemma DottedPageLowerTags(t: string)
    requires PlainTitle(t)
    ensures var lower := "i\U{0307}" + OpenTag + ">" + t + CloseTag;
      FirstAt(lower, OpenTag, 0, 2) && FirstAt(lower, CloseTag, 7, 9 + |t|)
  {
    var lower := "i\U{0307}" + OpenTag + ">" + t + CloseTag;
    var close := 9 + |t|;
    assert lower[2..8] == OpenTag;
    assert lower[close..close + 8] == CloseTag;
    forall k | 0 <= k < 2 ensures !OccursAt(lower, OpenTag, k) {
      OccursAtHead(lower, OpenTag, k);
    }
    forall k | 7 <= k < close ensures !OccursAt(lower, CloseTag, k) {
      OccursAtHead(lower, CloseTag, k);
      if k >= 9 { assert lower[k] == t[k - 9]; }
    }
  }

  /** The first `>` of the page at or after index `from` (for `from` in 1..7) is at index 7. */
  lemma DottedPageGt(t: string, from: nat)
    requires 1 <= from <= 7
    ensures FirstAt(DottedPage(t), ">", from, 7)
  {
    var text := DottedPage(t);
    assert text[7..8] == ">";
    forall k | from <= k < 7 ensures !OccursAt(text, ">", k) { assert text[k] == OpenTag[k - 1]; }
  }

  /**
   * On such a page the scan as written returns the title with the `<` of
   * `</title>` appended.
   */
  lemma AsWrittenMisplacesTitle(t: string)
    requires PlainTitle(t)
    ensures ExtractTitleAsWritten(DottedPage(t)) == Some(t + "<")
  {
    var text := DottedPage(t);
    DottedPageLower(t);
    DottedPageLowerTags(t);
    DottedPageGt(t, 2);
    AsWrittenAt(text, 2, 7, 9 + |t|);
    DottedPageSlice(t);
    StripKeepsTrimmed(t + "<");
  }

  /** The slice the scan as written takes reaches one character into `</title>`. */
  lemma DottedPageSlice(t: string)
    requires PlainTitle(t)
    ensures Slice(DottedPage(t), 8, 9 + |t|) == t + "<"
    ensures Trimmed(t + "<")
  {
    var text := DottedPage(t);
    var head := [DottedCapitalI] + OpenTag + ">";
    assert text == head + (t + CloseTag) && |head| == 8;
    assert text[8..] == t + CloseTag;
    assert text[8..9 + |t|] == (t + CloseTag)[..|t| + 1];
    assert (t + CloseTag)[..|t| + 1] == t + [CloseTag[0]];
  }

  /** On such a page the character-by-character fold changes nothing. */
  lemma DottedPageFold(t: string)
    requires PlainTitle(t)
    ensures FoldCase(DottedPage(t)) == DottedPage(t)
  {
    var text := DottedPage(t);
    ElementHasNoCapitals(t);
    var fold := FoldCase(text);
    forall i | 0 <= i < |text| ensures fold[i] == text[i] {
      if i > 0 { assert text[i] == (OpenTag + ">" + t + CloseTag)[i - 1]; }
    }
  }

  /** Where the searches of the index-preserving scan land on the page. */
  lemma DottedPageTags(t: string)
    requires PlainTitle(t)
    ensures FirstAt(DottedPage(t), OpenTag, 0, 1) && FirstAt(DottedPage(t), CloseTag, 7, 8 + |t|)
  {
    var text := DottedPage(t);
    var close := 8 + |t|;
    assert text[1..7] == OpenTag;
    assert text[close..close + 8] == CloseTag;
    OccursAtHead(text, OpenTag, 0);
    forall k | 7 <= k < close ensures !OccursAt(text, CloseTag, k) {
      OccursAtHead(text, CloseTag, k);
      if k >= 8 { assert text[k] == t[k - 8]; }
    }
  }

  /** On the same page the index-preserving scan returns the title itself. */
  lemma DottedPageTitle(t: string)
    requires PlainTitle(t)
    ensures ExtractTitle(DottedPage(t)) == Some(t)
  {
    var text := DottedPage(t);
    DottedPageFold(t);
    DottedPageTags(t);
    DottedPageGt(t, 1);
    assert TitleSpan(text, 1, 7, 8 + |t|);
    ExtractTitleSpan(text);
    assert text[8..8 + |t|] == t;
    StripKeepsTrimmed(t);
  }

  /**
   * `fetch_url_title(url)`: `None` without `requests`, when the GET raises,
   * or when the response is not ok; otherwise the title scan of the response
   * text (`resp.text or ""`). No failure reaches the caller.
   */
  function FetchUrlTitle(http: HttpBackend, url: string): (r: Option<string>)
    ensures !http.installed ==> r == None
    ensures http.installed && http.get(url).RequestRaised? ==> r == None
    ensures http.installed && http.get(url).Response? && !http.get(url).ok ==> r == None
    ensures http.installed && http.get(url).Response? && http.get(url).ok ==>
      r == ExtractTitle(http.get(url).text.GetOr(""))
    ensures r.Some? ==> Trimmed(r.value)
  {
    if !http.installed then None
    else
      match http.get(url)
      case RequestRaised => None
      case Response(ok, text) =>
        if !ok then None
        else
          ExtractTitleTrimmed(text.GetOr(""));
          ExtractTitle(text.GetOr(""))
  }

  /**
   * Wherever the fetched text holds no U+0130, `FetchUrlTitle` returns what
   * `fetch_url_title` as written returns.
   */
  lemma FetchUrlTitleAgreesWithoutDottedI(http: HttpBackend, url: string)
    requires http.installed && http.get(url).Response? && http.get(url).ok
    requires DottedCapitalI !in http.get(url).text.GetOr("")
    ensures FetchUrlTitle(http, url) == ExtractTitleAsWritten(http.get(url).text.GetOr(""))
  {
    AsWrittenAgreesWithoutDottedI(http.get(url).text.GetOr(""));
  }
}
