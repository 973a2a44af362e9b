/**
 * The three research tools of src/tools.py: the policy-document lookup over
 * the retrieval routine, the web search formatter and the RSS keyword filter.
 * Every external service (vector store, search provider, feed fetcher) is a
 * parameter; what is modelled is the string processing around it.
 */
module Tools {
  import opened Wrappers
  import opened Text
  import Retrieval

  // ---------------------------------------------------------------------------
  // lookup_policy_docs
  // ---------------------------------------------------------------------------

  /**
   * The query clean-up applied to model-issued arguments: only when the query
   * contains `{`, drop every `{`, every `}` and every `value:`, in that order.
   */
  function Sanitize(query: string): string {
    if '{' in query then Replace(Replace(Replace(query, "{", ""), "}", ""), "value:", "") else query
  }

  /**
   * A sanitised query has no `{`; when the query had one, it has no `}`
   * either; a query without `{` is left as it is.
   */
  lemma SanitizeDropsBraces(query: string)
    ensures '{' !in Sanitize(query)
    ensures '{' in query ==> '}' !in Sanitize(query)
    ensures '{' !in query ==> Sanitize(query) == query
  {
    if '{' in query {
      var a := Replace(query, "{", "");
      ReplaceRemovesChar(query, '{', "");
      var b := Replace(a, "}", "");
      ReplaceRemovesChar(a, '}', "");
      assert '{' !in b && '}' !in b;
    }
  }

  /**
   * A model-issued argument of the form `{value:X}`, where `X` has no braces
   * and no `value:`, sanitises to exactly `X`.
   */
  lemma SanitizeUnwraps(x: string)
    requires '{' !in x && '}' !in x && !Contains(x, "value:")
    ensures Sanitize("{value:" + x + "}") == x
  {
    var y := "value:" + x;
    var z := y + "}";
    var q := "{" + z;
    assert "{value:" + x + "}" == q;
    assert q[0] == '{';
    assert '{' !in z;
    EraseFirstChar(z, '{');
    assert '}' !in y;
    EraseLastChar(y, '}');
    DropLeadingPattern("value:", x);
  }

  /** The argument from the tool-call example loses its braces but keeps the blank after `value:`. */
  lemma SanitizeWrappedQuery()
    ensures Sanitize("{value: remote work}") == " remote work"
  {
    var x := " remote work";
    assert ':' !in x && '{' !in x && '}' !in x;
    MissingCharNotContained(x, "value:", 5);
    assert "{value:" + x + "}" == "{value: remote work}";
    SanitizeUnwraps(x);
  }

  /** Removing a pattern that occurs only at the very start of `pat + s` gives `s` back. */
  lemma DropLeadingPattern(pat: string, s: string)
    requires pat != [] && !Contains(s, pat)
    ensures Replace(pat + s, pat, "") == s
  {
    assert (pat + s)[..|pat|] == pat && (pat + s)[|pat|..] == s;
    ReplaceAbsent(s, pat, "");
  }

  /** Dropping a character that occurs only at the very start of `[c] + s` gives `s` back. */
  lemma EraseFirstChar(s: string, c: char)
    requires c !in s
    ensures Replace([c] + s, [c], "") == s
  {
    assert ([c] + s)[..1] == [c] && ([c] + s)[1..] == s;
    MissingCharNotContained(s, [c], 0);
    ReplaceAbsent(s, [c], "");
  }

  /** Dropping a character that only occurs at the very end of `s + [c]` gives `s` back. */
  lemma {:induction false} EraseLastChar(s: string, c: char)
    requires c !in s
    ensures Replace(s + [c], [c], "") == s
    decreases |s|
  {
    if s == [] {
      assert Replace([c], [c], "") == "" + Replace([], [c], "");
    } else {
      assert (s + [c])[..1] == [s[0]];
      assert (s + [c])[1..] == s[1..] + [c];
      EraseLastChar(s[1..], c);
      assert s == [s[0]] + s[1..];
    }
  }

  const NoDocsMessage := "No documents found internally relevant for the query: "
  const UnknownSource := "unknown PDF"
  const PolicyDocsSeparator := "\n\n"

  /** Python's `dict.get(key, default)`. */
  function Get(m: map<string, string>, key: string, default: string): string {
    if key in m then m[key] else default
  }

  function SourceOf(d: Retrieval.Document): string {
    Get(d.metadata, "source", UnknownSource)
  }

  predicate IsPathSeparator(c: char) {
    c == '/' || c == '\\'
  }

  /**
   * Where the basename starts: just after the last `/` or `\`, or at 0 when
   * there is none.
   */
  function BasenameStart(path: string): (i: nat)
    ensures i <= |path|
    ensures 0 < i ==> IsPathSeparator(path[i - 1])
    ensures forall j :: i <= j < |path| ==> !IsPathSeparator(path[j])
    decreases |path|
  {
    if path == [] || IsPathSeparator(path[|path| - 1]) then |path|
    else BasenameStart(path[..|path| - 1])
  }

  /**
   * `os.path.basename` with Windows separators: the longest suffix of `path`
   * that holds no `/` and no `\`.
   */
  function Basename(path: string): string {
    path[BasenameStart(path)..]
  }

  /** The `file:///` link of a source path, every backslash turned into a slash. */
  function FileUri(source: string): string {
    "file:///" + Replace(source, "\\", "/")
  }

  /**
   * The link URI is `file:///` followed by the path, character for character,
   * except that every backslash has become a slash; so no backslash is left.
   */
  lemma FileUriConvertsSeparators(source: string)
    ensures |FileUri(source)| == |"file:///"| + |source|
    ensures FileUri(source)[..8] == "file:///"
    ensures forall i :: 0 <= i < |source| ==>
      FileUri(source)[8 + i] == (if source[i] == '\\' then '/' else source[i])
    ensures '\\' !in FileUri(source)
  {
    var body := Replace(source, "\\", "/");
    ReplaceCharPointwise(source, '\\', '/');
    ReplaceRemovesChar(source, '\\', "/");
    assert FileUri(source) == "file:///" + body;
    forall i | 0 <= i < |source|
      ensures FileUri(source)[8 + i] == (if source[i] == '\\' then '/' else source[i])
    {
      assert FileUri(source)[8 + i] == body[i];
    }
  }

  /** The markdown link to a chunk's source file. */
  function SourceLink(source: string): string {
    "SourceLink: [" + Basename(source) + "](" + FileUri(source) + ")"
  }

  /** The text block emitted for one retrieved chunk. */
  function DocBlock(h: Retrieval.Hit): string {
    "Content: " + h.doc.pageContent + "\n" + SourceLink(SourceOf(h.doc))
  }

  function DocBlocks(hits: seq<Retrieval.Hit>): seq<string> {
    seq(|hits|, i requires 0 <= i < |hits| => DocBlock(hits[i]))
  }

  /** The tool's answer for a (sanitised) query and the hits retrieved for it. */
  function PolicyDocsOutput(query: string, hits: seq<Retrieval.Hit>): string {
    if hits == [] then NoDocsMessage + query
    else Join(PolicyDocsSeparator, DocBlocks(hits))
  }

  /** The tool end to end: sanitise, retrieve three hits, format. */
  function PolicyDocsAnswer(query: string, search: Retrieval.SimilaritySearch): string {
    var q := Sanitize(query);
    PolicyDocsOutput(q, Retrieval.Retrieved(q, 3, search))
  }

  /**
   * `lookup_policy_docs`: the sentinel when nothing is retrieved, otherwise one
   * block per hit, in retrieval order, joined by a blank line.
   */
  method LookupPolicyDocs(query: string, search: Retrieval.SimilaritySearch) returns (r: string)
    ensures r == PolicyDocsAnswer(query, search)
    ensures Retrieval.Retrieved(Sanitize(query), 3, search) == [] ==> r == NoDocsMessage + Sanitize(query)
  {
    var q := Sanitize(query);
    var docs := Retrieval.RetrieveDocuments(q, 3, true, search);
    assert PolicyDocsAnswer(query, search) == PolicyDocsOutput(q, docs);
    if docs == [] {
      return NoDocsMessage + q;
    }
    var results := FormatBlocks(docs, DocBlock);
    assert results == DocBlocks(docs);
    r := Join(PolicyDocsSeparator, results);
  }

  /** The loop over the retrieved hits: one block per hit, in order. */
  method FormatBlocks(docs: seq<Retrieval.Hit>, block: Retrieval.Hit -> string) returns (results: seq<string>)
    ensures |results| == |docs|
    ensures forall j :: 0 <= j < |docs| ==> results[j] == block(docs[j])
  {
    results := [];
    for i := 0 to |docs|
      invariant |results| == i
      invariant forall j :: 0 <= j < i ==> results[j] == block(docs[j])
    {
      results := results + [block(docs[i])];
    }
  }

  /** The answer holds the block of every retrieved chunk. */
  lemma PolicyDocsShowsEveryHit(query: string, hits: seq<Retrieval.Hit>, k: int)
    requires 0 <= k < |hits|
    ensures Contains(PolicyDocsOutput(query, hits), DocBlock(hits[k]))
  {
    JoinContainsPart(PolicyDocsSeparator, DocBlocks(hits), k);
  }

  /** A chunk's block carries the chunk's text and a backslash-free `file:///` link to its source. */
  lemma DocBlockShowsContentAndLink(h: Retrieval.Hit)
    ensures Contains(DocBlock(h), h.doc.pageContent)
    ensures Contains(DocBlock(h), FileUri(SourceOf(h.doc)))
  {
    var content := h.doc.pageContent;
    var source := SourceOf(h.doc);
    var link := SourceLink(source);
    assert DocBlock(h) == "Content: " + content + ("\n" + link);
    ContainsMiddle("Content: ", content, "\n" + link);
    ContainsMiddle("SourceLink: [" + Basename(source) + "](", FileUri(source), ")");
    ContainsInSuffix("Content: " + content + "\n", link, FileUri(source));
  }

  // ---------------------------------------------------------------------------
  // web_search_stub
  // ---------------------------------------------------------------------------

  /** One search-provider result, a dict with `title`, `href` and `body`. */
  type WebResult = map<string, string>

  /** The provider's `text(query, max_results=n)`, an opaque network service. */
  type WebSearch = (string, int) -> seq<WebResult>

  const WebMaxResults := 5
  const NoWebResults := "No results found"
  const BlockSeparator := "\n\n---\n"

  /** `res.get(key)` rendered by an f-string: a missing key prints as `None`. */
  function Field(res: WebResult, key: string): string {
    Get(res, key, "None")
  }

  function WebBlock(res: WebResult): string {
    "Title: " + Field(res, "title") + "\nLink: [" + Field(res, "title") + "](" + Field(res, "href") + ")\nSnippet: " + Field(res, "body")
  }

  function WebBlocks(results: seq<WebResult>): seq<string> {
    seq(|results|, i requires 0 <= i < |results| => WebBlock(results[i]))
  }

  function WebSearchOutput(results: seq<WebResult>): string {
    if results == [] then NoWebResults else Join(BlockSeparator, WebBlocks(results))
  }

  /**
   * `web_search_stub`: ask the provider for five results; the sentinel when
   * there are none, otherwise one block per result in provider order.
   */
  method WebSearchStub(query: string, search: WebSearch) returns (r: string)
    ensures r == WebSearchOutput(search(query, WebMaxResults))
    ensures search(query, WebMaxResults) == [] <==> r == NoWebResults
  {
    var result := search(query, WebMaxResults);
    if result == [] {
      return NoWebResults;
    }
    var formattedResults: seq<string> := [];
    for i := 0 to |result|
      invariant |formattedResults| == i
      invariant forall j :: 0 <= j < i ==> formattedResults[j] == WebBlock(result[j])
    {
      formattedResults := formattedResults + [WebBlock(result[i])];
    }
    assert formattedResults == WebBlocks(result);
    r := Join(BlockSeparator, formattedResults);
    JoinCoversFirst(BlockSeparator, formattedResults);
    assert |r| > |NoWebResults|;
  }

  // ---------------------------------------------------------------------------
  // rss_feed_search
  // ---------------------------------------------------------------------------

  /** A feed entry. `summary` may be absent; `title` and `link` are read directly. */
  datatype Entry = Entry(title: string, link: string, summary: Option<string>)

  /** `feedparser.parse(url).entries`, an opaque network fetch. */
  type FeedParser = string -> seq<Entry>

  const Feeds: seq<string> := [
    "https://www.technologyreview.com/feed/",
    "https://openai.com/news/rss.xml",
    "https://techcrunch.com/feed/"
  ]
  const EntriesPerFeed := 10
  const NoRssMatches := "No matching RSS entries found"

  /** The keywords of a query: lowercased, split on runs of whitespace. */
  function Keywords(query: string): seq<string> {
    Split(Lower(query))
  }

  /** The text an entry is searched in: lowercased title, a space, summary. */
  function SearchText(e: Entry): string {
    Lower(e.title + " " + e.summary.GetOr(""))
  }

  /** `any(kw in text for kw in keywords)`. */
  predicate Matches(keywords: seq<string>, e: Entry) {
    exists k :: 0 <= k < |keywords| && Contains(SearchText(e), keywords[k])
  }

  function RssBlock(e: Entry): string {
    "Title: " + e.title + "\nLink: [" + e.title + "](" + e.link + ")"
  }

  /** The entries of `entries` that match, in their original order. */
  function Kept(keywords: seq<string>, entries: seq<Entry>): seq<Entry>
    decreases |entries|
  {
    if entries == [] then []
    else
      var last := entries[|entries| - 1];
      Kept(keywords, entries[..|entries| - 1]) + (if Matches(keywords, last) then [last] else [])
  }

  function RssBlocksOf(entries: seq<Entry>): seq<string> {
    seq(|entries|, i requires 0 <= i < |entries| => RssBlock(entries[i]))
  }

  /** The blocks one feed contributes: matches among its first ten entries. */
  function FeedBlocks(keywords: seq<string>, entries: seq<Entry>): seq<string> {
    RssBlocksOf(Kept(keywords, PrefixSlice(entries, EntriesPerFeed)))
  }

  /** The blocks of several feeds, feed after feed. */
  function RssBlocks(keywords: seq<string>, feeds: seq<seq<Entry>>): seq<string>
    decreases |feeds|
  {
    if feeds == [] then []
    else RssBlocks(keywords, feeds[..|feeds| - 1]) + FeedBlocks(keywords, feeds[|feeds| - 1])
  }

  /** The entries of every configured feed, in configuration order. */
  function FetchAll(parse: FeedParser): seq<seq<Entry>> {
    seq(|Feeds|, i requires 0 <= i < |Feeds| => parse(Feeds[i]))
  }

  function RssOutput(query: string, parse: FeedParser): string {
    var blocks := RssBlocks(Keywords(query), FetchAll(parse));
    if blocks == [] then NoRssMatches else Join(BlockSeparator, blocks)
  }

  /** Keeping from one more entry adds that entry exactly when it matches. */
  lemma KeptStep(keywords: seq<string>, entries: seq<Entry>, j: int)
    requires 0 <= j < |entries|
    ensures Kept(keywords, entries[..j + 1])
      == Kept(keywords, entries[..j]) + (if Matches(keywords, entries[j]) then [entries[j]] else [])
  {
    assert entries[..j + 1][..j] == entries[..j];
  }

  lemma RssBlocksOfAppend(xs: seq<Entry>, ys: seq<Entry>)
    ensures RssBlocksOf(xs + ys) == RssBlocksOf(xs) + RssBlocksOf(ys)
  {
  }

  /** The blocks of one more feed are the earlier blocks followed by its own. */
  lemma RssBlocksStep(keywords: seq<string>, feeds: seq<seq<Entry>>, f: int)
    requires 0 <= f < |feeds|
    ensures RssBlocks(keywords, feeds[..f + 1]) == RssBlocks(keywords, feeds[..f]) + FeedBlocks(keywords, feeds[f])
  {
    assert feeds[..f + 1][..f] == feeds[..f];
  }

  /**
   * `rss_feed_search`: for every feed (in order) and each of its first ten
   * entries (in order), keep the entry when some keyword occurs in its text.
   */
  method RssFeedSearch(query: string, parse: FeedParser) returns (r: string)
    ensures r == RssOutput(query, parse)
  {
    var results: seq<string> := [];
    var keywords := Split(Lower(query));
    ghost var feeds := FetchAll(parse);
    for f := 0 to |Feeds|
      invariant results == RssBlocks(keywords, feeds[..f])
    {
      var entries := PrefixSlice(parse(Feeds[f]), EntriesPerFeed);
      var blocks := MatchingBlocks(keywords, entries);
      results := results + blocks;
      RssBlocksStep(keywords, feeds, f);
    }
    assert feeds[..|Feeds|] == feeds;
    r := if results != [] then Join(BlockSeparator, results) else NoRssMatches;
  }

  /** The inner loop over one feed's entries: the blocks of the matching ones, in order. */
  method MatchingBlocks(keywords: seq<string>, entries: seq<Entry>) returns (blocks: seq<string>)
    ensures blocks == RssBlocksOf(Kept(keywords, entries))
  {
    blocks := [];
    for j := 0 to |entries|
      invariant blocks == RssBlocksOf(Kept(keywords, entries[..j]))
    {
      var entry := entries[j];
      var textToSearch := Lower(entry.title + " " + entry.summary.GetOr(""));
      assert textToSearch == SearchText(entry);
      KeptStep(keywords, entries, j);
      RssBlocksOfAppend(Kept(keywords, entries[..j]), if Matches(keywords, entry) then [entry] else []);
      if exists k :: 0 <= k < |keywords| && Contains(textToSearch, keywords[k]) {
        blocks := blocks + [RssBlock(entry)];
      }
    }
    assert entries[..|entries|] == entries;
  }

  /** An entry is kept exactly when it is one of the entries and it matches. */
  lemma {:induction false} KeptIff(keywords: seq<string>, entries: seq<Entry>, e: Entry)
    ensures e in Kept(keywords, entries) <==> e in entries && Matches(keywords, e)
    decreases |entries|
  {
    if entries != [] {
      var init := entries[..|entries| - 1];
      KeptIff(keywords, init, e);
      assert entries == init + [entries[|entries| - 1]];
    }
  }

  lemma {:induction false} KeptBounded(keywords: seq<string>, entries: seq<Entry>)
    ensures |Kept(keywords, entries)| <= |entries|
    decreases |entries|
  {
    if entries != [] {
      KeptBounded(keywords, entries[..|entries| - 1]);
    }
  }

  /** Only a feed's first ten entries are searched, so one feed gives at most ten blocks. */
  lemma FeedBlocksBounded(keywords: seq<string>, entries: seq<Entry>)
    ensures |FeedBlocks(keywords, entries)| <= EntriesPerFeed
  {
    KeptBounded(keywords, PrefixSlice(entries, EntriesPerFeed));
  }

  /** All feeds together add at most ten blocks per feed. */
  lemma {:induction false} RssBlocksBounded(keywords: seq<string>, feeds: seq<seq<Entry>>)
    ensures |RssBlocks(keywords, feeds)| <= EntriesPerFeed * |feeds|
    decreases |feeds|
  {
    if feeds != [] {
      RssBlocksBounded(keywords, feeds[..|feeds| - 1]);
      KeptBounded(keywords, PrefixSlice(feeds[|feeds| - 1], EntriesPerFeed));
    }
  }

  /** Over the three configured feeds the tool reports at most thirty entries. */
  lemma RssAtMostThirty(query: string, parse: FeedParser)
    ensures |RssBlocks(Keywords(query), FetchAll(parse))| <= 30
  {
    RssBlocksBounded(Keywords(query), FetchAll(parse));
  }

  lemma {:induction false} KeptNothing(keywords: seq<string>, entries: seq<Entry>)
    requires keywords == []
    ensures Kept(keywords, entries) == []
    decreases |entries|
  {
    if entries != [] {
      KeptNothing(keywords, entries[..|entries| - 1]);
    }
  }

  lemma {:induction false} RssBlocksNothing(keywords: seq<string>, feeds: seq<seq<Entry>>)
    requires keywords == []
    ensures RssBlocks(keywords, feeds) == []
    decreases |feeds|
  {
    if feeds != [] {
      RssBlocksNothing(keywords, feeds[..|feeds| - 1]);
      KeptNothing(keywords, PrefixSlice(feeds[|feeds| - 1], EntriesPerFeed));
    }
  }

  /** An empty or all-whitespace query has no keywords, so nothing matches. */
  lemma RssBlankQueryMatchesNothing(query: string, parse: FeedParser)
    requires AllSpace(query)
    ensures RssOutput(query, parse) == NoRssMatches
  {
    forall i | 0 <= i < |query| ensures IsSpace(Lower(query)[i]) {
      LowerKeepsSpace(query[i]);
    }
    RssBlocksNothing(Keywords(query), FetchAll(parse));
  }
}
