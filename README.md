# Agent orchestration and search-agent pipeline, modelled in Dafny

This project models the core of a small retrieval-augmented answering service.
An orchestrator routes a user query to an agent type from a fixed registry. It
keeps one lazily created instance per type and turns every failure into one
apology string. The search agent runs the pipeline: search the web, fetch and
clean the result pages, retrieve the chunks nearest to the query, and ask a
language model for a French synthesis. It then assembles a three-section answer
(synthesis, sources, URLs).

Modules, one file each:

- `wrappers.dfy` (`Wrappers`): `Option`, and `Outcome`, the result of a
  Python call. An `Outcome` is `Returned(value)` or `Raised(error)`.
- `text.dfy` (`Text`): the Python string operations the pipeline uses,
  stated over `seq<char>`:
  - whitespace as `str.isspace` and the regular-expression class `\s` define it;
  - `str.split()` and `' '.join`;
  - `re.sub(r'\s+', ' ', s)` and `re.sub(r'\[[^\]]+\]', '', s)`;
  - slicing `s[:n]`, and `f"{n}"` on naturals.

  Each comes with the lemmas that say what it does.
- `search.dfy` (`WebSearch`): the web searcher. It covers the provider
  call, one cleaned document per result URL, and the numbered Markdown digest
  of the results. This is the behaviour its exception handlers intend.
- `search_as_written.dfy` (`SearchAsWritten`): the same searcher as its
  handlers are written, which raise NameError (see Findings). It also holds
  the lemmas and witnesses that compare the two.
- `agent.dfy` (`SearchAgent`): `Summarizer` (a class whose `lastPrompt` field
  is updated on each call) and `OllamaAgent.Query`. The loop that filters the
  retrieved chunks and builds the source entries (`CollectSources`) is proved
  against `SourceEntries` and `SourceUrls`, and `Query` against the
  specification function `QueryResponse`.
- `orchestrator.dfy` (`Orchestration`): the registry and the `Orchestrator`
  class. Its state is the instance cache (a `map` field) and the trace of
  structured log records (a `seq` field).

External collaborators are parameters of total function type, so each call
with the same arguments gives the same outcome. They are:

- the search provider;
- the page download with its HTML extraction;
- the e-mail filter;
- the retrieval store (index building plus similarity search);
- the language model;
- agent construction and an agent's `query` in the orchestrator.

In three places the code behaves differently from what its structure suggests;
the model follows the code:

- A retrieval failure after a successful search yields
  "Erreur lors du traitement.", not the raw search digest (app/agent.py:131-133).
- Error-flagged documents are passed to the retrieval store together with the
  others. They are filtered only after retrieval (app/agent.py:99-107).
- An unsupported agent type does not escape `process_query`. The ValueError is
  caught and answered with the apology (app/agent_orchestrator.py:72-82).

## Model

| member | source | states |
|---|---|---|
| Text.Words | app/search.py:101 | `str.split()` yields non-empty words without whitespace |
| Text.WordsOfJoin | app/search.py:101 | splitting a space-joined list of words gives the list back |
| Text.JoinWordsShape | app/agent.py:108 | joining words with single spaces gives single-spaced text with no space at either end |
| Text.NormalizeSpaces | app/agent.py:108 | `' '.join(s.split())`; its properties are stated by NormalizeSpacesSpec and WordsOfJoin |
| Text.NormalizeSpacesSpec | app/agent.py:108 | `' '.join(s.split())` keeps exactly the words of s, single-spaced and trimmed, and is idempotent |
| Text.TakeSingleSpaced | app/agent.py:112 | cutting single-spaced text with `[:n]` keeps it single-spaced |
| Text.CollapseRuns | app/search.py:82 | every maximal run of whitespace becomes one space; its properties are stated by CollapseRunsSpec |
| Text.CollapseRunsSpec | app/search.py:82 | `re.sub(r'\s+',' ')` keeps the words, leaves only single plain spaces, is empty iff its input is, and has whitespace at each end iff its input does |
| Text.StripCitations | app/search.py:83 | scanning left to right, a `[` whose first following `]` exists and is not the next character starts a deleted segment; its properties are the StripCitations lemmas below |
| Text.StripCitationsDeletes | app/search.py:83 | when no `[` comes before it, a `[...]` segment with non-empty content and no `]` inside is deleted, and the text before it is kept |
| Text.StripCitationsLeading | app/search.py:83 | a `[...]` segment with non-empty content and no `]` inside, at the start of the text, is deleted |
| Text.StripCitationsLeavesNone | app/search.py:83 | after the substitution no `[...]` segment with non-empty content remains |
| Text.StripCitationsChars | app/search.py:83 | the result is no longer than the input and holds no character the input lacks |
| Text.StripCitationsSubsequence | app/search.py:83 | the result is a subsequence of the input: characters are only deleted, and the rest keep their order |
| Text.StripCitationsKeeps | app/search.py:83 | text in which every `[` is followed directly by `]` or by no `]` at all (an empty `[]`, an unclosed `[`) comes back unchanged |
| Text.StripCitationsIdempotent | app/search.py:83 | applying the substitution a second time changes nothing |
| Text.StripCitationsNoBracket | app/search.py:83 | text without `[` is left unchanged |
| Text.NatToString | app/search.py:105 | `f"{n}"` is a non-empty string of decimal digits without a leading zero |
| Text.NatToStringRoundTrip | app/search.py:105 | the printed number reads back as n |
| WebSearch.CleanedText | app/search.py:81-84 | the cleaning chain before the cut: join the strings with spaces, collapse whitespace, delete citations, apply the e-mail filter; see CollapseRunsSpec and the StripCitations lemmas |
| WebSearch.ScrapeAndClean | app/search.py:61-90 | on success the cleaned text is cut to min(length, 5000) characters and is a prefix of the uncut text; on failure it is "Contenu non disponible - " followed by the error text |
| WebSearch.FetchCleanContent | app/search.py:43-59 | one document per URL, in order, with source = that URL; a URL whose scraping raised gets `error` and "Impossible de charger le contenu de {url}", the others carry the scraped text; one failure does not affect the other URLs |
| WebSearch.FormatResults | app/search.py:92-107 | the digest is the header followed by the entries numbered 1..n in provider order, joined by newlines |
| WebSearch.ResultTitle | app/search.py:96 | the title is never empty: the provider's title when it is present and non-empty, else "Sans titre" |
| WebSearch.ResultSummary | app/search.py:100-103 | the first 50 words followed by "..." for a non-empty text, else "Aucun contenu textuel disponible"; see ResultSummaryWords |
| WebSearch.ResultEntry | app/search.py:105 | "{i}. [title](url)\n{summary}\n"; see ResultEntryNumbered |
| WebSearch.FormattedResultsLayout | app/search.py:95-107 | the digest starts with "## Résultats de recherche\n\n" and entry i is the entry of result i numbered i+1 |
| WebSearch.ResultEntryNumbered | app/search.py:105 | an entry starts with the digits of its number (which read back as that number), then ". [title](url)" |
| WebSearch.ResultSummaryWords | app/search.py:100-103 | a non-empty text is summarized by its first min(n, 50) words, single-spaced, followed by "..." |
| WebSearch.Execute | app/search.py:24-41 | a provider failure gives "Erreur lors de la recherche" and no documents; otherwise the digest of the results and one error-free document per result URL, in rank order, holding that page's cleaned content |
| SearchAsWritten.ScrapeAndCleanAsWritten | app/search.py:88-90 | as written, a failed download raises NameError from the handler instead of returning the placeholder |
| SearchAsWritten.FetchCleanContentAsWritten | app/search.py:45-59 | as written, fetching raises exactly when some URL's scraping raises; otherwise it returns the intended documents |
| SearchAsWritten.ExecuteAsWritten | app/search.py:24-41 | as written, `execute` is the function that raises on a provider failure or on any failed page |
| SearchAsWritten.AsWrittenRaisesExactlyOnFailure | app/search.py:11-12 | the written searcher raises iff the provider fails or some page fails, and otherwise agrees with the intended one |
| SearchAsWritten.OneFailedPageFailsTheQuery | app/agent.py:131-133 | through the written searcher, one failed page makes the whole answer "Erreur lors du traitement." |
| SearchAsWritten.ProviderFailureWitness | app/search.py:39-41 | with a failing provider the agent answers "Erreur lors de la recherche" through the intended searcher and "Erreur lors du traitement." through the written one |
| SearchAsWritten.FailedPageWitness | app/search.py:53-58 | with one result whose page times out, the intended searcher keeps a placeholder document and the answer opens with its synthesis section; the written one makes the answer "Erreur lors du traitement." |
| SearchAgent.Summarizer.constructor | app/agent.py:38-41 | the model defaults to "mistral" and the last prompt starts empty |
| SearchAgent.Summarizer.Summarize | app/agent.py:43-58 | the last prompt becomes the fixed French prefix followed by the text; the result is the model's text, or "" when the call fails |
| SearchAgent.OllamaAgent.constructor | app/agent.py:61-65 | the agent owns a fresh summarizer with the default model |
| SearchAgent.OllamaAgent.Query | app/agent.py:87-133 | the answer is QueryResponse; the summarizer's last prompt is updated exactly when summarization is reached, with the combined content |
| SearchAgent.Usable | app/agent.py:106-107 | the sources are retrieved chunks without the error flag, no more of them than were retrieved; see UsableAppend and UsableMembers |
| SearchAgent.UsableAppend | app/agent.py:106-107 | filtering the chunks distributes over concatenation, so retrieval order is kept |
| SearchAgent.UsableExtend | app/agent.py:106-107 | one more chunk is appended to the sources exactly when it carries no error flag |
| SearchAgent.UsableCons | app/agent.py:106-107 | the one-step equation of the filter (a leading chunk is kept, in front, exactly when it carries no error flag); the step of UsableAppend |
| SearchAgent.SourcesExtend | app/agent.py:106-115 | one more chunk adds its entry and its URL at the end exactly when it carries no error flag |
| SearchAgent.CollectSources | app/agent.py:103-115 | the loop over the retrieved chunks yields the entries and the URLs of the usable chunks, in retrieval order |
| SearchAgent.UsableMembers | app/agent.py:106-107 | a chunk becomes a source iff it was retrieved and is not flagged as an error |
| SearchAgent.SourcesAligned | app/agent.py:103-115 | the source entries and the source URLs have the same length; entry i and URL i describe the same usable chunk |
| SearchAgent.ExcerptSpec | app/agent.py:108-112 | the quoted content is the first min(n, 800) characters of the whitespace-normalized content, single-spaced, with no leading space, and keeps its words |
| SearchAgent.SourceEntry | app/agent.py:109-114 | the Markdown entry of one source; its layout is stated by SourceEntryLayout and ExcerptSpec |
| SearchAgent.SourceEntryLayout | app/agent.py:109-114 | an entry is the title line (defaulting to "Sans titre"), the URL line, "**Contenu:**", the excerpt (at most 800 characters), "...", then the rule of 50 dashes |
| SearchAgent.CombinedContent | app/agent.py:118 | the digest, a blank line, and the entries joined by newlines; see AnswerFromChunks |
| SearchAgent.AssembleResponse | app/agent.py:122-126 | the three sections in order; see ResponseLayout |
| SearchAgent.ResponseLayout | app/agent.py:122-126 | the answer is the synthesis section, then the sources section with entries separated by blank lines, then the "### URLs:" list, in that order |
| SearchAgent.QueryResponse | app/agent.py:87-133 | the answer of `query`; OllamaAgent.Query is proved equal to it, and NoDocumentsShortCircuit, FailuresGiveFixedMessage and AnswerFromChunks state it case by case |
| SearchAgent.NoDocumentsShortCircuit | app/agent.py:93-96 | with no documents the answer is the search digest whatever retrieval and the model would do, and nothing is summarized |
| SearchAgent.FailuresGiveFixedMessage | app/agent.py:131-133 | a search or retrieval exception gives exactly "Erreur lors du traitement." |
| SearchAgent.AnswerFromChunks | app/agent.py:99-126 | once chunks are retrieved, the summarizer gets the digest, a blank line and the entries joined by newlines; the answer holds the synthesis, or "" when the model fails, and opens with "## Synthèse" |
| Orchestration.QuerySample | app/agent_orchestrator.py:93 | the logged sample is the prefix of the query of length min(length, 200) |
| Orchestration.RequestEvent | app/agent_orchestrator.py:84-95 | the request record carries the agent type, the query length and the sample |
| Orchestration.UnsupportedMessage | app/agent_orchestrator.py:44 | the ValueError message is the fixed prefix followed by the requested type |
| Orchestration.Orchestrator.constructor | app/agent_orchestrator.py:24-27 | the cache starts empty |
| Orchestration.Orchestrator.GetAgent | app/agent_orchestrator.py:29-56 | see the first block after the table |
| Orchestration.Orchestrator.HandleError | app/agent_orchestrator.py:97-112 | the error is logged with the type and the query sample, and the apology is returned |
| Orchestration.Orchestrator.ProcessQuery | app/agent_orchestrator.py:58-82 | see the second block after the table |

`Orchestration.Orchestrator.GetAgent`:

- An unknown type raises "Type d'agent non supporté: {type}" and leaves the cache unchanged.
- A cached type returns the identical cached instance and constructs nothing.
- Otherwise exactly one instance is constructed and cached under that key.
- Cache keys stay within the registry, and entries for other types never change.

`Orchestration.Orchestrator.ProcessQuery`:

- It first logs the request record.
- An unknown type gives the apology; the records are the request, the unsupported type and the error with the ValueError message.
- A failed construction gives the apology and leaves the cache unchanged; the records are the request and the error with the construction's message.
- A cached type uses the cached instance and changes no instance; a first use caches exactly one fresh instance under that type and logs its creation.
- The agent's answer is returned unchanged and nothing further is logged; when the agent raises, the apology is returned and the error is logged with the type and the query sample.
- It never raises, and the type defaults to "search".

## Left out

- app/rag.py (text splitting, embeddings, FAISS similarity search) is an oracle from the documents and the query to the retrieved chunks. Chunking and nearest-neighbour search are library code.
- The network and model calls are oracles returning success or an error: Exa `search_and_contents`, `requests.get` with its timeout, the Ollama client, and the thread and executor hand-offs.
- HTML parsing is part of the page-download oracle. This covers element removal, the `article`/`main` preference and `stripped_strings`; the oracle yields the extracted strings.
- The e-mail-stripping regular expression (app/search.py:84) is an opaque string filter. Nothing is proved about what it removes.
- The 5000-character bound of `ScrapeAndClean` is stated about the text after that filter, so it does not depend on the filter.
- Logging is not modelled as I/O. The searcher's and agent's log calls are absent. The orchestrator's structured records are an append-only trace, and failures of the logging service itself are not modelled.
- `_log_interaction` and `main` in app/agent.py are file I/O. The summarizer's `lastPrompt`, which the interaction log reads, is modelled.
- app/config.py, app/mcp_server.py and app/utils are not part of this model.
- `AnalysisAgent`, `GenerationAgent` and `BaseAgent` are imported at app/agent_orchestrator.py:2 but are not defined in the code. Construction is therefore a per-call `Construction` value, and an agent's `query` is an oracle on the instance. The orchestrator is not tied to `OllamaAgent.Query`.
- Concurrency and `async` scheduling are not modelled. Two concurrent first uses of a type are not guarded in the code.
- Documents keep only the metadata the pipeline reads: `source`, `title` and `error`. `error` is a boolean because it is only ever set to True. Retrieved chunks are assumed to carry `source`, so the KeyError at app/agent.py:111 cannot arise.
- Exceptions outside `Exception` (cancellation, interruption) are not modelled. Every failure of a collaborator is an `Outcome.Raised`.
- The temperature is a `real`, and floating point is not modelled.

## Findings

| source | as written | input that shows it | evidently intended | confidence | as-written member | corrected member |
|---|---|---|---|---|---|---|
| app/search.py:11-12 | `logger` is bound only inside a string literal, so the handlers at lines 54 and 89 raise NameError and one failed page makes `execute` raise; the agent then answers "Erreur lors du traitement." | a search returning one result whose page download times out | the page gets the placeholder "Contenu non disponible - timeout" and the answer is assembled as usual | high (not executed) | SearchAsWritten.FailedPageWitness | WebSearch.Execute |
| app/search.py:39-41 | the handler for a failing provider raises NameError at line 40 instead of returning the fallback | a provider call that raises | `execute` returns "Erreur lors de la recherche" with no documents, which the agent returns as its answer | high (not executed) | SearchAsWritten.ProviderFailureWitness | WebSearch.Execute |
