/**
 * The search agent: search, retrieve the most relevant chunks of the fetched
 * documents, summarize them with a language model, and assemble a three-part
 * answer (synthesis, sources, URLs).
 *
 * The searcher's `execute`, the retrieval store (index building plus
 * similarity search) and the model's `generate` are oracles; what an oracle
 * raises is an Outcome.Raised value.
 */
module SearchAgent {
  import opened Wrappers
  import opened Text
  import opened WebSearch

  /** The model the summarizer is built with by default. */
  const DefaultModel := "mistral"
  /** Sampling temperature of every summarization call. */
  const Temperature: real := 0.3
  /** Number of chunks asked of the similarity search. */
  const RetrievalCount: nat := 3
  /** Number of characters of a source's content quoted in its entry. */
  const ExcerptLength: nat := 800

  const SummaryPromptPrefix := "Résumez en paragraphes et en français ces sources:\n\n"
  const ProcessingFailedMessage := "Erreur lors du traitement."
  const SynthesisHeader := "## Synthèse\n\n"
  const SourcesHeader := "## Sources\n\n"
  const UrlsHeader := "### URLs:\n"
  /** The rule closing each source entry: fifty '-'. */
  const Separator: string := "--------------------------------------------------"

  /** The arguments of a model call. */
  datatype GenerateRequest = GenerateRequest(model: string, prompt: string, temperature: real)

  /** Build an index over `documents`, then take the `k` chunks nearest to `query`. */
  datatype RagRequest = RagRequest(documents: seq<Document>, query: string, k: nat)

  function SummaryPrompt(text: string): string {
    SummaryPromptPrefix + text
  }

  /** The synthesis kept from a model call: its text, or "" when it failed. */
  function SynthesisOf(generated: Outcome<string>): string {
    match generated
    case Returned(text) => text
    case Raised(_) => ""
  }

  class Summarizer {
    const model: string
    /** The prompt of the most recent summarization, kept for the interaction log. */
    var lastPrompt: string

    constructor (model: string := DefaultModel)
      ensures this.model == model && lastPrompt == ""
    {
      this.model := model;
      lastPrompt := "";
    }

    /**
     * Records the prompt built from `text`, then asks the model with it; a
     * failed call gives "" instead of an exception.
     */
    method Summarize(text: string, generate: GenerateRequest -> Outcome<string>) returns (synthesis: string)
      modifies this
      ensures lastPrompt == SummaryPrompt(text)
      ensures generate(GenerateRequest(model, lastPrompt, Temperature)).Returned? ==>
        synthesis == generate(GenerateRequest(model, lastPrompt, Temperature)).value
      ensures generate(GenerateRequest(model, lastPrompt, Temperature)).Raised? ==> synthesis == ""
    {
      lastPrompt := SummaryPrompt(text);
      match generate(GenerateRequest(model, lastPrompt, Temperature)) {
        case Returned(response) =>
          synthesis := response;
        case Raised(_) =>
          synthesis := "";
      }
    }
  }

  // ---------------------------------------------------------------------------
  // Sources

  /** The retrieved chunks that become sources: those not flagged as errors, in order. */
  function Usable(chunks: seq<Document>): (used: seq<Document>)
    ensures |used| <= |chunks|
    ensures forall d :: d in used ==> d in chunks && !d.error
    decreases |chunks|
  {
    if chunks == [] then []
    else (if chunks[0].error then [] else [chunks[0]]) + Usable(chunks[1..])
  }

  /** The title metadata, or MissingTitle when the key is absent. */
  function TitleOf(d: Document): string {
    d.title.GetOr(MissingTitle)
  }

  /** The quoted content: whitespace collapsed, cut to ExcerptLength characters. */
  function Excerpt(content: string): string {
    Take(NormalizeSpaces(content), ExcerptLength)
  }

  function SourceEntry(d: Document): string {
    "**Titre:** " + TitleOf(d) + "\n"
    + "**URL:** " + d.source + "\n"
    + "**Contenu:**\n" + Excerpt(d.content) + "...\n"
    + Separator
  }

  function SourceEntries(used: seq<Document>): seq<string> {
    Map(SourceEntry, used)
  }

  function SourceUrl(d: Document): string {
    d.source
  }

  function SourceUrls(used: seq<Document>): seq<string> {
    Map(SourceUrl, used)
  }

  function UrlLines(urls: seq<string>): seq<string> {
    seq(|urls|, i requires 0 <= i < |urls| => "- " + urls[i])
  }

  /** The text handed to the summarizer: the search digest, a blank line, the entries one per line. */
  function CombinedContent(initialSummary: string, entries: seq<string>): string {
    initialSummary + "\n\n" + Join("\n", entries)
  }

  /** The answer: synthesis section, sources section, URL list, in that order. */
  function AssembleResponse(synthesis: string, entries: seq<string>, urls: seq<string>): string {
    SynthesisHeader + synthesis + "\n\n"
    + SourcesHeader + Join("\n\n", entries)
    + "\n\n" + UrlsHeader + Join("\n", UrlLines(urls))
  }

  // ---------------------------------------------------------------------------
  // query

  /** The text the summarizer receives, or None when `query` stops before summarizing. */
  function SummarizerInput(prompt: string, execute: string -> Outcome<SearchReply>,
                           rag: RagRequest -> Outcome<seq<Document>>): Option<string>
  {
    match execute(prompt)
    case Raised(_) => None
    case Returned(reply) =>
      if reply.documents == [] then None
      else
        match rag(RagRequest(reply.documents, prompt, RetrievalCount))
        case Raised(_) => None
        case Returned(chunks) => Some(CombinedContent(reply.summary, SourceEntries(Usable(chunks))))
  }

  /** What `query` answers. */
  function QueryResponse(prompt: string, execute: string -> Outcome<SearchReply>,
                         rag: RagRequest -> Outcome<seq<Document>>,
                         generate: GenerateRequest -> Outcome<string>, model: string): string
  {
    match execute(prompt)
    case Raised(_) => ProcessingFailedMessage
    case Returned(reply) =>
      if reply.documents == [] then reply.summary
      else
        match rag(RagRequest(reply.documents, prompt, RetrievalCount))
        case Raised(_) => ProcessingFailedMessage
        case Returned(chunks) => AnswerFrom(reply.summary, Usable(chunks), generate, model)
  }

  /** The answer built from the search digest and the usable chunks. */
  function AnswerFrom(initialSummary: string, used: seq<Document>,
                      generate: GenerateRequest -> Outcome<string>, model: string): string
  {
    var prompt := SummaryPrompt(CombinedContent(initialSummary, SourceEntries(used)));
    AssembleResponse(SynthesisOf(generate(GenerateRequest(model, prompt, Temperature))), SourceEntries(used), SourceUrls(used))
  }

  /**
   * One pass over the retrieved chunks, in order: every chunk without the
   * error flag contributes its entry and its URL.
   */
  method CollectSources(chunks: seq<Document>) returns (sourcesContent: seq<string>, sourcesUsed: seq<string>)
    ensures sourcesContent == SourceEntries(Usable(chunks))
    ensures sourcesUsed == SourceUrls(Usable(chunks))
  {
    sourcesContent := [];
    sourcesUsed := [];
    for k := 0 to |chunks|
      invariant sourcesContent == SourceEntries(Usable(chunks[..k]))
      invariant sourcesUsed == SourceUrls(Usable(chunks[..k]))
    {
      var doc := chunks[k];
      if !doc.error {
        var entry := SourceEntry(doc);
        sourcesContent := sourcesContent + [entry];
        sourcesUsed := sourcesUsed + [doc.source];
      }
      SourcesExtend(chunks, k);
    }
    assert chunks[..|chunks|] == chunks;
  }

  class OllamaAgent {
    const summarizer: Summarizer

    constructor ()
      ensures fresh(summarizer)
      ensures summarizer.model == DefaultModel && summarizer.lastPrompt == ""
    {
      summarizer := new Summarizer();
    }

    /**
     * Answers `prompt`. Any exception raised by a collaborator yields
     * ProcessingFailedMessage; no documents yields the search digest as is;
     * otherwise the answer is assembled from the usable retrieved chunks and
     * the synthesis, and the summarizer records the prompt it was given.
     */
    method Query(prompt: string, execute: string -> Outcome<SearchReply>,
                 rag: RagRequest -> Outcome<seq<Document>>,
                 generate: GenerateRequest -> Outcome<string>) returns (response: string)
      modifies summarizer
      ensures response == QueryResponse(prompt, execute, rag, generate, summarizer.model)
      ensures SummarizerInput(prompt, execute, rag).Some? ==>
        summarizer.lastPrompt == SummaryPrompt(SummarizerInput(prompt, execute, rag).value)
      ensures SummarizerInput(prompt, execute, rag).None? ==>
        summarizer.lastPrompt == old(summarizer.lastPrompt)
    {
      match execute(prompt) {
        case Raised(_) =>
          return ProcessingFailedMessage;
        case Returned(reply) =>
          if reply.documents == [] {
            return reply.summary;
          }
          match rag(RagRequest(reply.documents, prompt, RetrievalCount)) {
            case Raised(_) =>
              return ProcessingFailedMessage;
            case Returned(chunks) =>
              var sourcesContent, sourcesUsed := CollectSources(chunks);
              var combined := reply.summary + "\n\n" + Join("\n", sourcesContent);
              var finalSummary := summarizer.Summarize(combined, generate);
              response := SynthesisHeader + finalSummary + "\n\n"
                + SourcesHeader + Join("\n\n", sourcesContent)
                + "\n\n" + UrlsHeader + Join("\n", UrlLines(sourcesUsed));
          }
      }
    }
  }

  // ---------------------------------------------------------------------------
  // Properties

  /** Filtering distributes over concatenation: retrieval order is kept. */
  lemma {:induction false} UsableAppend(a: seq<Document>, b: seq<Document>)
    ensures Usable(a + b) == Usable(a) + Usable(b)
    decreases |a|
  {
    if a == [] {
      assert a + b == b;
    } else {
      var head := if a[0].error then [] else [a[0]];
      var rest := a[1..];
      assert Usable(a + b) == head + Usable(rest + b) by {
        assert a + b == [a[0]] + (rest + b);
        UsableCons(a[0], rest + b);
      }
      assert Usable(a) == head + Usable(rest) by {
        assert a == [a[0]] + rest;
        UsableCons(a[0], rest);
      }
      UsableAppend(rest, b);
      AppendAssociative(head, Usable(rest), Usable(b));
    }
  }

  /** A chunk ahead of others is kept, in front, exactly when it is not an error. */
  lemma UsableCons(d: Document, rest: seq<Document>)
    ensures Usable([d] + rest) == (if d.error then [] else [d]) + Usable(rest)
  {
    assert ([d] + rest)[1..] == rest;
  }

  /** Filtering one more chunk appends it exactly when it is not an error. */
  lemma UsableExtend(chunks: seq<Document>, k: nat)
    requires k < |chunks|
    ensures Usable(chunks[..k + 1]) == Usable(chunks[..k]) + (if chunks[k].error then [] else [chunks[k]])
  {
    assert chunks[..k + 1] == chunks[..k] + [chunks[k]];
    UsableAppend(chunks[..k], [chunks[k]]);
  }

  /** One more chunk adds its entry and its URL exactly when it is not an error. */
  lemma SourcesExtend(chunks: seq<Document>, k: nat)
    requires k < |chunks|
    ensures SourceEntries(Usable(chunks[..k + 1]))
      == SourceEntries(Usable(chunks[..k])) + (if chunks[k].error then [] else [SourceEntry(chunks[k])])
    ensures SourceUrls(Usable(chunks[..k + 1]))
      == SourceUrls(Usable(chunks[..k])) + (if chunks[k].error then [] else [chunks[k].source])
  {
    var added := if chunks[k].error then [] else [chunks[k]];
    UsableExtend(chunks, k);
    MapAppend(SourceEntry, Usable(chunks[..k]), added);
    MapAppend(SourceUrl, Usable(chunks[..k]), added);
    if !chunks[k].error {
      assert Map(SourceEntry, added) == [SourceEntry(chunks[k])];
      assert Map(SourceUrl, added) == [SourceUrl(chunks[k])];
    }
  }

  /** A chunk is a source exactly when it was retrieved and is not flagged as an error. */
  lemma {:induction false} UsableMembers(chunks: seq<Document>)
    ensures |Usable(chunks)| <= |chunks|
    ensures forall d :: d in Usable(chunks) <==> d in chunks && !d.error
    decreases |chunks|
  {
    if chunks != [] {
      UsableMembers(chunks[1..]);
      assert chunks == [chunks[0]] + chunks[1..];
    }
  }

  /**
   * The quoted content of a source has its whitespace collapsed (single
   * spaces, none leading), keeps the words of the content, and is the first
   * min(n, ExcerptLength) characters of the n-character normalized text.
   */
  lemma ExcerptSpec(content: string)
    ensures var e := Excerpt(content);
      var n := NormalizeSpaces(content);
      |e| == Min(|n|, ExcerptLength) && e == n[..|e|]
      && Words(n) == Words(content)
      && SingleSpaced(e) && (e != [] ==> !IsSpace(e[0]))
  {
    NormalizeSpacesSpec(content);
    TakeSingleSpaced(NormalizeSpaces(content), ExcerptLength);
  }

  /** Entry i and URL i describe the same usable chunk. */
  lemma SourcesAligned(chunks: seq<Document>)
    ensures |SourceEntries(Usable(chunks))| == |SourceUrls(Usable(chunks))| == |Usable(chunks)|
    ensures forall i :: 0 <= i < |Usable(chunks)| ==>
      SourceEntries(Usable(chunks))[i] == SourceEntry(Usable(chunks)[i])
      && SourceUrls(Usable(chunks))[i] == Usable(chunks)[i].source
      && !Usable(chunks)[i].error
  {
    UsableMembers(chunks);
    forall i | 0 <= i < |Usable(chunks)| ensures !Usable(chunks)[i].error {
      assert Usable(chunks)[i] in Usable(chunks);
    }
    forall i | 0 <= i < |Usable(chunks)| ensures SourceUrls(Usable(chunks))[i] == Usable(chunks)[i].source {
      assert SourceUrls(Usable(chunks))[i] == SourceUrl(Usable(chunks)[i]);
    }
  }

  /**
   * An entry reads: title line (MissingTitle when absent), URL line, the
   * excerpt followed by "...", and the separator.
   */
  lemma SourceEntryLayout(d: Document)
    ensures var head := "**Titre:** " + TitleOf(d) + "\n" + "**URL:** " + d.source + "\n" + "**Contenu:**\n";
      var e := SourceEntry(d);
      |head| <= |e| && e[..|head|] == head
      && e[|head|..] == Excerpt(d.content) + "...\n" + Separator
      && |Excerpt(d.content)| <= ExcerptLength
    ensures d.title.None? ==> TitleOf(d) == MissingTitle
  {
    var head := "**Titre:** " + TitleOf(d) + "\n" + "**URL:** " + d.source + "\n" + "**Contenu:**\n";
    var excerpt := Excerpt(d.content);
    var rest := excerpt + "...\n" + Separator;
    AppendAssociative(head, excerpt, "...\n");
    AppendAssociative(head, excerpt + "...\n", Separator);
    assert SourceEntry(d) == head + rest;
    assert (head + rest)[..|head|] == head && (head + rest)[|head|..] == rest;
  }

  /**
   * The answer is the synthesis section, then the sources section with the
   * entries separated by blank lines, then the URL list, in that order.
   */
  lemma ResponseLayout(synthesis: string, entries: seq<string>, urls: seq<string>)
    ensures var r := AssembleResponse(synthesis, entries, urls);
      var a := |SynthesisHeader| + |synthesis|;
      var b := a + 2 + |SourcesHeader|;
      var c := b + |Join("\n\n", entries)|;
      c <= |r|
      && r[..a] == SynthesisHeader + synthesis
      && r[a..b] == "\n\n" + SourcesHeader
      && r[b..c] == Join("\n\n", entries)
      && r[c..] == "\n\n" + UrlsHeader + Join("\n", UrlLines(urls))
  {
    var s1 := SynthesisHeader + synthesis;
    var s2 := "\n\n" + SourcesHeader;
    var s3 := Join("\n\n", entries);
    var s4 := "\n\n" + UrlsHeader + Join("\n", UrlLines(urls));
    assert AssembleResponse(synthesis, entries, urls) == s1 + s2 + s3 + s4;
  }

  /**
   * Without documents the answer is the search digest, whatever retrieval and
   * the model would do, and nothing is summarized.
   */
  lemma NoDocumentsShortCircuit(prompt: string, execute: string -> Outcome<SearchReply>,
                                rag1: RagRequest -> Outcome<seq<Document>>, generate1: GenerateRequest -> Outcome<string>,
                                rag2: RagRequest -> Outcome<seq<Document>>, generate2: GenerateRequest -> Outcome<string>,
                                model: string)
    requires execute(prompt).Returned? && execute(prompt).value.documents == []
    ensures QueryResponse(prompt, execute, rag1, generate1, model) == execute(prompt).value.summary
    ensures QueryResponse(prompt, execute, rag1, generate1, model) == QueryResponse(prompt, execute, rag2, generate2, model)
    ensures SummarizerInput(prompt, execute, rag1).None?
  {
  }

  /** A search or retrieval exception gives exactly ProcessingFailedMessage. */
  lemma FailuresGiveFixedMessage(prompt: string, execute: string -> Outcome<SearchReply>,
                                 rag: RagRequest -> Outcome<seq<Document>>,
                                 generate: GenerateRequest -> Outcome<string>, model: string)
    requires execute(prompt).Raised?
      || (execute(prompt).value.documents != []
          && rag(RagRequest(execute(prompt).value.documents, prompt, RetrievalCount)).Raised?)
    ensures QueryResponse(prompt, execute, rag, generate, model) == ProcessingFailedMessage
  {
  }

  /**
   * Once chunks are retrieved, the answer carries one entry and one URL per
   * usable chunk and the model's synthesis, or an empty synthesis when the
   * model call fails.
   */
  lemma AnswerFromChunks(prompt: string, execute: string -> Outcome<SearchReply>,
                         rag: RagRequest -> Outcome<seq<Document>>,
                         generate: GenerateRequest -> Outcome<string>, model: string)
    requires execute(prompt).Returned? && execute(prompt).value.documents != []
    requires rag(RagRequest(execute(prompt).value.documents, prompt, RetrievalCount)).Returned?
    ensures var chunks := rag(RagRequest(execute(prompt).value.documents, prompt, RetrievalCount)).value;
      var input := CombinedContent(execute(prompt).value.summary, SourceEntries(Usable(chunks)));
      var generated := generate(GenerateRequest(model, SummaryPrompt(input), Temperature));
      var r := QueryResponse(prompt, execute, rag, generate, model);
      SummarizerInput(prompt, execute, rag) == Some(input)
      && r == AssembleResponse(if generated.Raised? then "" else generated.value,
                               SourceEntries(Usable(chunks)), SourceUrls(Usable(chunks)))
      && r[..|SynthesisHeader|] == SynthesisHeader
  {
    var chunks := rag(RagRequest(execute(prompt).value.documents, prompt, RetrievalCount)).value;
    var input := CombinedContent(execute(prompt).value.summary, SourceEntries(Usable(chunks)));
    var generated := generate(GenerateRequest(model, SummaryPrompt(input), Temperature));
    var synthesis := SynthesisOf(generated);
    var r := QueryResponse(prompt, execute, rag, generate, model);
    assert r == AssembleResponse(synthesis, SourceEntries(Usable(chunks)), SourceUrls(Usable(chunks)));
    assert r[..|SynthesisHeader|] == SynthesisHeader by {
      ResponseLayout(synthesis, SourceEntries(Usable(chunks)), SourceUrls(Usable(chunks)));
      var a := |SynthesisHeader| + |synthesis|;
      assert r[..|SynthesisHeader|] == r[..a][..|SynthesisHeader|];
      assert (SynthesisHeader + synthesis)[..|SynthesisHeader|] == SynthesisHeader;
    }
  }
}
