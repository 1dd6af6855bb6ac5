/**
 * The web searcher: a search provider call, one cleaned Document per result
 * URL, and a numbered Markdown digest of the results. This is the behaviour the
 * exception handlers of the searcher intend (see module SearchAsWritten for
 * what they do as written).
 *
 * The provider, the page download with its HTML extraction, and the
 * e-mail-stripping regular expression are oracles held in SearchServices.
 */
module WebSearch {
  import opened Wrappers
  import opened Text

  /** Number of results asked of the provider. */
  const NumResults: nat := 3
  /** Ceiling on the length of a cleaned page text. */
  const MaxContentLength: nat := 5000
  /** Number of words of a result text kept in its summary. */
  const SummaryWordLimit: nat := 50

  const SearchFailedMessage := "Erreur lors de la recherche"
  const UnavailablePrefix := "Contenu non disponible - "
  const LoadFailedPrefix := "Impossible de charger le contenu de "
  const ResultsHeader := "## Résultats de recherche\n\n"
  const MissingTitle := "Sans titre"
  const NoTextSummary := "Aucun contenu textuel disponible"

  /** One ranked hit of the search provider; `title` and `text` may be missing. */
  datatype SearchResult = SearchResult(title: Option<string>, url: string, text: Option<string>)

  /**
   * A document: its page content and the metadata keys the pipeline reads
   * (`source`, `title`, and `error`, which is present only as True).
   */
  datatype Document = Document(content: string, source: string, title: Option<string>, error: bool)

  /** The arguments of the provider call: query, result count, auto-prompt, HTML tags in text. */
  datatype SearchRequest = SearchRequest(query: string, numResults: nat, useAutoprompt: bool, includeHtmlTags: bool)

  /**
   * A page download followed by HTML extraction: the stripped strings of the
   * main content, or the text of the exception raised on the way (network
   * error, timeout, HTTP error status, parse failure).
   */
  datatype PageFetch = Page(strings: seq<string>) | FetchError(message: string)

  /** What `execute` returns: the formatted digest and the fetched documents. */
  datatype SearchReply = SearchReply(summary: string, documents: seq<Document>)

  /** The external collaborators of the searcher. */
  datatype SearchServices = SearchServices(
    provider: SearchRequest -> Outcome<seq<SearchResult>>,
    fetchPage: string -> PageFetch,
    stripEmails: string -> string)

  function SearchRequestFor(query: string): SearchRequest {
    SearchRequest(query, NumResults, true, false)
  }

  // ---------------------------------------------------------------------------
  // Page cleaning

  /**
   * The cleaning chain before the length cut: join the stripped strings with
   * spaces, collapse whitespace runs, delete bracketed citation markers, then
   * apply the e-mail filter.
   */
  function CleanedText(strings: seq<string>, stripEmails: string -> string): string {
    stripEmails(StripCitations(CollapseRuns(Join(" ", strings))))
  }

  /**
   * Scrape one URL: on success the cleaned text cut to MaxContentLength
   * characters; on any failure a placeholder naming the error, never an
   * exception.
   */
  function ScrapeAndClean(page: PageFetch, stripEmails: string -> string): (r: string)
    ensures page.Page? ==>
      var full := CleanedText(page.strings, stripEmails);
      |r| == Min(|full|, MaxContentLength) && r == full[..|r|]
    ensures page.FetchError? ==> r == UnavailablePrefix + page.message
  {
    match page
    case Page(strings) => Take(CleanedText(strings, stripEmails), MaxContentLength)
    case FetchError(message) => UnavailablePrefix + message
  }

  /** The scraper `execute` hands to FetchCleanContent: it always returns. */
  function Scraper(services: SearchServices): string -> Outcome<string> {
    url => Returned(ScrapeAndClean(services.fetchPage(url), services.stripEmails))
  }

  // ---------------------------------------------------------------------------
  // Fetching the documents

  /** The document recorded for one URL, given what scraping it produced. */
  function FetchedDocument(url: string, scraped: Outcome<string>): Document {
    match scraped
    case Returned(content) => Document(content, url, None, false)
    case Raised(_) => Document(LoadFailedPrefix + url, url, None, true)
  }

  function CleanDocuments(urls: seq<string>, scrape: string -> Outcome<string>): seq<Document> {
    seq(|urls|, i requires 0 <= i < |urls| => FetchedDocument(urls[i], scrape(urls[i])))
  }

  /**
   * One document per URL, in order, whatever happens to the others: a URL
   * whose scraping raised gets an error-flagged placeholder, the rest carry the
   * scraped text.
   */
  method FetchCleanContent(urls: seq<string>, scrape: string -> Outcome<string>) returns (docs: seq<Document>)
    ensures docs == CleanDocuments(urls, scrape)
    ensures |docs| == |urls|
    ensures forall i :: 0 <= i < |urls| ==> docs[i].source == urls[i] && docs[i].title == None
    ensures forall i :: 0 <= i < |urls| ==> (docs[i].error <==> scrape(urls[i]).Raised?)
    ensures forall i :: 0 <= i < |urls| && scrape(urls[i]).Returned? ==> docs[i].content == scrape(urls[i]).value
    ensures forall i :: 0 <= i < |urls| && scrape(urls[i]).Raised? ==> docs[i].content == LoadFailedPrefix + urls[i]
  {
    docs := [];
    for k := 0 to |urls|
      invariant |docs| == k
      invariant forall i :: 0 <= i < k ==> docs[i] == FetchedDocument(urls[i], scrape(urls[i]))
    {
      match scrape(urls[k]) {
        case Returned(content) =>
          docs := docs + [Document(content, urls[k], None, false)];
        case Raised(_) =>
          docs := docs + [Document(LoadFailedPrefix + urls[k], urls[k], None, true)];
      }
    }
  }

  // ---------------------------------------------------------------------------
  // Formatting the results

  /** A missing or empty title is shown as MissingTitle. */
  function ResultTitle(r: SearchResult): (title: string)
    ensures title != ""
    ensures title == MissingTitle || r.title == Some(title)
    ensures r.title.Some? && r.title.value != "" <==> r.title == Some(title)
  {
    if r.title.None? || r.title.value == "" then MissingTitle else r.title.value
  }

  /** The first SummaryWordLimit words of a non-empty text followed by "...". */
  function ResultSummary(r: SearchResult): string {
    if r.text.Some? && r.text.value != "" then
      Join(" ", Take(Words(r.text.value), SummaryWordLimit)) + "..."
    else NoTextSummary
  }

  /** The Markdown entry of the result numbered `number`. */
  function ResultEntry(number: nat, r: SearchResult): string {
    NatToString(number) + ". [" + ResultTitle(r) + "](" + r.url + ")\n" + ResultSummary(r) + "\n"
  }

  /** The entries numbered 1..n in provider order. */
  function ResultEntries(results: seq<SearchResult>): seq<string> {
    Numbered(ResultEntry, results)
  }

  function FormattedResults(results: seq<SearchResult>): string {
    ResultsHeader + Join("\n", ResultEntries(results))
  }

  method FormatResults(results: seq<SearchResult>) returns (formatted: string)
    ensures formatted == FormattedResults(results)
  {
    var output: seq<string> := [];
    for k := 0 to |results|
      invariant output == ResultEntries(results[..k])
    {
      var entry := ResultEntry(k + 1, results[k]);
      NumberedExtend(ResultEntry, results, k);
      output := output + [entry];
    }
    assert results[..|results|] == results;
    formatted := ResultsHeader + Join("\n", output);
  }

  /** The digest starts with its header and holds one entry per result, in order. */
  lemma FormattedResultsLayout(results: seq<SearchResult>)
    ensures FormattedResults(results)[..|ResultsHeader|] == ResultsHeader
    ensures |ResultEntries(results)| == |results|
    ensures forall i :: 0 <= i < |results| ==> ResultEntries(results)[i] == ResultEntry(i + 1, results[i])
  {
  }

  /**
   * The entry numbered n starts with the decimal digits of n (which read back
   * as n), then ". [", the title, "](", the URL and ")".
   */
  lemma ResultEntryNumbered(n: nat, r: SearchResult)
    ensures var e := ResultEntry(n, r);
      var d := NatToString(n);
      var head := d + ". [" + ResultTitle(r) + "](" + r.url + ")";
      ParseDigits(d) == n && |head| <= |e| && e[..|head|] == head
  {
    NatToStringRoundTrip(n);
    var d := NatToString(n);
    var link := d + ". [" + ResultTitle(r) + "](" + r.url;
    var head := link + ")";
    var e := ResultEntry(n, r);
    assert e == link + ")\n" + ResultSummary(r) + "\n";
    assert |head| <= |e|;
    forall j | 0 <= j < |head| ensures e[j] == head[j] {
      if j < |link| {
        assert e[j] == link[j];
      }
    }
    assert e[..|head|] == head;
  }

  /**
   * The summary of a result with text is its first SummaryWordLimit words,
   * single-spaced, followed by "...".
   */
  lemma ResultSummaryWords(r: SearchResult)
    requires r.text.Some? && r.text.value != ""
    ensures var s := ResultSummary(r);
      |s| >= 3 && s[|s| - 3..] == "..."
      && Words(s[..|s| - 3]) == Take(Words(r.text.value), SummaryWordLimit)
      && |Words(s[..|s| - 3])| == Min(|Words(r.text.value)|, SummaryWordLimit)
      && SingleSpaced(s[..|s| - 3])
  {
    var ws := Take(Words(r.text.value), SummaryWordLimit);
    assert WellFormedWords(ws);
    WordsOfJoin(ws);
    JoinWordsShape(ws);
    var s := ResultSummary(r);
    assert s == Join(" ", ws) + "...";
    assert s[..|s| - 3] == Join(" ", ws);
  }

  // ---------------------------------------------------------------------------
  // execute

  /** The URLs of the results, in rank order. */
  function ResultUrls(results: seq<SearchResult>): seq<string> {
    seq(|results|, i requires 0 <= i < |results| => results[i].url)
  }

  /** What `execute` returns for `query`. */
  function ExecuteResult(query: string, services: SearchServices): SearchReply {
    match services.provider(SearchRequestFor(query))
    case Raised(_) => SearchReply(SearchFailedMessage, [])
    case Returned(results) =>
      SearchReply(FormattedResults(results), CleanDocuments(ResultUrls(results), Scraper(services)))
  }

  /**
   * Search, digest and fetch. A provider failure gives the fixed message and
   * no documents; otherwise the documents are those of the result URLs, in
   * rank order, none of them flagged as an error.
   */
  method Execute(query: string, services: SearchServices) returns (summary: string, docs: seq<Document>)
    ensures SearchReply(summary, docs) == ExecuteResult(query, services)
    ensures services.provider(SearchRequestFor(query)).Raised? ==> summary == SearchFailedMessage && docs == []
    ensures services.provider(SearchRequestFor(query)).Returned? ==>
      var results := services.provider(SearchRequestFor(query)).value;
      summary == FormattedResults(results)
      && |docs| == |results|
      && forall i :: 0 <= i < |results| ==>
           docs[i].source == results[i].url && !docs[i].error
           && docs[i].content == ScrapeAndClean(services.fetchPage(results[i].url), services.stripEmails)
  {
    match services.provider(SearchRequestFor(query)) {
      case Raised(_) =>
        summary, docs := SearchFailedMessage, [];
      case Returned(results) =>
        summary := FormatResults(results);
        docs := FetchCleanContent(ResultUrls(results), Scraper(services));
    }
  }
}
