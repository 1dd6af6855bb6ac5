/**
 * The web searcher as its exception handlers are written. The module-level
 * `logger` of the searcher sits inside a string literal, so every handler
 * that logs through it raises NameError instead of producing its fallback
 * value. A page that fails to load, or a failing provider, therefore makes
 * `execute` raise, and the agent answers ProcessingFailedMessage rather than
 * the placeholder document or SearchFailedMessage.
 *
 * Module WebSearch holds the intended behaviour, which the rest of the model
 * uses; this module states the difference.
 */
module SearchAsWritten {
  import opened Wrappers
  import opened WebSearch
  import opened SearchAgent

  /** What every logging handler of the searcher raises. */
  const LoggerNameError := "name 'logger' is not defined"

  /** Scraping as written: a failed download reaches the handler, which raises. */
  function ScrapeAndCleanAsWritten(page: PageFetch, stripEmails: string -> string): (r: Outcome<string>)
    ensures page.Page? ==> r == Returned(ScrapeAndClean(page, stripEmails))
    ensures page.FetchError? ==> r == Raised(LoggerNameError)
  {
    match page
    case Page(_) => Returned(ScrapeAndClean(page, stripEmails))
    case FetchError(_) => Raised(LoggerNameError)
  }

  function ScraperAsWritten(services: SearchServices): string -> Outcome<string> {
    url => ScrapeAndCleanAsWritten(services.fetchPage(url), services.stripEmails)
  }

  /**
   * Fetching as written: the first URL whose scraping raises sends the loop
   * into its handler, which raises in turn; otherwise the documents are those
   * of the intended version.
   */
  method FetchCleanContentAsWritten(urls: seq<string>, scrape: string -> Outcome<string>) returns (r: Outcome<seq<Document>>)
    ensures r.Raised? <==> exists i :: 0 <= i < |urls| && scrape(urls[i]).Raised?
    ensures r.Raised? ==> r.error == LoggerNameError
    ensures r.Returned? ==> r.value == CleanDocuments(urls, scrape)
  {
    var docs: seq<Document> := [];
    for k := 0 to |urls|
      invariant forall i :: 0 <= i < k ==> scrape(urls[i]).Returned?
      invariant docs == CleanDocuments(urls[..k], scrape)
    {
      match scrape(urls[k]) {
        case Returned(content) =>
          docs := docs + [Document(content, urls[k], None, false)];
        case Raised(_) =>
          return Raised(LoggerNameError);
      }
    }
    assert urls[..|urls|] == urls;
    r := Returned(docs);
  }

  /** Some result URL fails to load. */
  predicate SomePageFails(results: seq<SearchResult>, services: SearchServices) {
    exists i :: 0 <= i < |results| && services.fetchPage(results[i].url).FetchError?
  }

  /** What `execute` does as written. */
  function ExecuteAsWrittenResult(query: string, services: SearchServices): Outcome<SearchReply> {
    match services.provider(SearchRequestFor(query))
    case Raised(_) => Raised(LoggerNameError)
    case Returned(results) =>
      if SomePageFails(results, services) then Raised(LoggerNameError)
      else Returned(ExecuteResult(query, services))
  }

  /** `execute` as written: a provider failure reaches the handler, which raises. */
  method ExecuteAsWritten(query: string, services: SearchServices) returns (r: Outcome<SearchReply>)
    ensures r == ExecuteAsWrittenResult(query, services)
  {
    match services.provider(SearchRequestFor(query)) {
      case Raised(_) =>
        r := Raised(LoggerNameError);
      case Returned(results) =>
        var formatted := FormatResults(results);
        var fetched := FetchCleanContentAsWritten(ResultUrls(results), ScraperAsWritten(services));
        match fetched {
          case Raised(e) =>
            r := Raised(LoggerNameError);
            assert SomePageFails(results, services) by {
              var i :| 0 <= i < |ResultUrls(results)| && ScraperAsWritten(services)(ResultUrls(results)[i]).Raised?;
              assert services.fetchPage(results[i].url).FetchError?;
            }
          case Returned(docs) =>
            r := Returned(SearchReply(formatted, docs));
            assert !SomePageFails(results, services) by {
              forall i | 0 <= i < |results| ensures services.fetchPage(results[i].url).Page? {
                assert ScraperAsWritten(services)(ResultUrls(results)[i]).Returned?;
              }
            }
            assert docs == CleanDocuments(ResultUrls(results), Scraper(services)) by {
              forall i | 0 <= i < |results|
                ensures ScraperAsWritten(services)(ResultUrls(results)[i]) == Scraper(services)(ResultUrls(results)[i])
              {
                assert services.fetchPage(results[i].url).Page?;
              }
            }
        }
    }
  }

  /**
   * The written searcher raises exactly when the provider fails or some page
   * fails to load, and otherwise agrees with the intended one.
   */
  lemma AsWrittenRaisesExactlyOnFailure(query: string, services: SearchServices)
    ensures ExecuteAsWrittenResult(query, services).Raised? <==>
      services.provider(SearchRequestFor(query)).Raised?
      || SomePageFails(services.provider(SearchRequestFor(query)).value, services)
    ensures ExecuteAsWrittenResult(query, services).Returned? ==>
      ExecuteAsWrittenResult(query, services).value == ExecuteResult(query, services)
  {
  }

  /** The intended searcher never raises. */
  function IntendedExecute(services: SearchServices): string -> Outcome<SearchReply> {
    q => Returned(ExecuteResult(q, services))
  }

  function AsWrittenExecute(services: SearchServices): string -> Outcome<SearchReply> {
    q => ExecuteAsWrittenResult(q, services)
  }

  /**
   * Through the written searcher, one page that fails to load turns the whole
   * answer into ProcessingFailedMessage.
   */
  lemma OneFailedPageFailsTheQuery(prompt: string, services: SearchServices,
                                   rag: RagRequest -> Outcome<seq<Document>>,
                                   generate: GenerateRequest -> Outcome<string>, model: string)
    requires services.provider(SearchRequestFor(prompt)).Returned?
    requires SomePageFails(services.provider(SearchRequestFor(prompt)).value, services)
    ensures QueryResponse(prompt, AsWrittenExecute(services), rag, generate, model) == ProcessingFailedMessage
  {
  }

  /**
   * A provider whose search raises: the intended searcher makes the agent
   * answer SearchFailedMessage, the written one ProcessingFailedMessage.
   */
  lemma ProviderFailureWitness(prompt: string, rag: RagRequest -> Outcome<seq<Document>>,
                               generate: GenerateRequest -> Outcome<string>, model: string)
    ensures var services := SearchServices(_ => Raised("401 Unauthorized"), _ => Page([]), s => s);
      QueryResponse(prompt, IntendedExecute(services), rag, generate, model) == SearchFailedMessage
      && QueryResponse(prompt, AsWrittenExecute(services), rag, generate, model) == ProcessingFailedMessage
      && SearchFailedMessage != ProcessingFailedMessage
  {
    var services := SearchServices(_ => Raised("401 Unauthorized"), _ => Page([]), s => s);
    assert IntendedExecute(services)(prompt) == Returned(SearchReply(SearchFailedMessage, []));
    assert SearchFailedMessage[13] != ProcessingFailedMessage[13];
  }

  /**
   * One result whose page times out: the intended searcher keeps a placeholder
   * document and the agent answers with its synthesis section; the written one
   * makes it answer ProcessingFailedMessage.
   */
  lemma FailedPageWitness(prompt: string, generate: GenerateRequest -> Outcome<string>, model: string)
    ensures var services := SearchServices(
        _ => Returned([SearchResult(Some("Page"), "https://example.org", None)]),
        _ => FetchError("timeout"),
        s => s);
      var rag := (req: RagRequest) => Returned(req.documents);
      var intended := QueryResponse(prompt, IntendedExecute(services), rag, generate, model);
      ExecuteResult(prompt, services).documents
        == [Document(UnavailablePrefix + "timeout", "https://example.org", None, false)]
      && intended[..|SynthesisHeader|] == SynthesisHeader
      && intended != ProcessingFailedMessage
      && QueryResponse(prompt, AsWrittenExecute(services), rag, generate, model) == ProcessingFailedMessage
  {
    var services := SearchServices(
        _ => Returned([SearchResult(Some("Page"), "https://example.org", None)]),
        _ => FetchError("timeout"),
        s => s);
    var rag := (req: RagRequest) => Returned(req.documents);
    var results := [SearchResult(Some("Page"), "https://example.org", None)];
    assert ResultUrls(results) == ["https://example.org"];
    assert services.fetchPage("https://example.org") == FetchError("timeout");
    assert ScrapeAndClean(FetchError("timeout"), services.stripEmails) == UnavailablePrefix + "timeout";
    assert Scraper(services)("https://example.org") == Returned(UnavailablePrefix + "timeout");
    var reply := ExecuteResult(prompt, services);
    assert reply.documents == [Document(UnavailablePrefix + "timeout", "https://example.org", None, false)];
    AnswerFromChunks(prompt, IntendedExecute(services), rag, generate, model);
    var intended := QueryResponse(prompt, IntendedExecute(services), rag, generate, model);
    assert intended[0] == '#' != ProcessingFailedMessage[0];
    assert SomePageFails([SearchResult(Some("Page"), "https://example.org", None)], services) by {
      assert services.fetchPage("https://example.org").FetchError?;
    }
  }
}
