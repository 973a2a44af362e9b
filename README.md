# news-nexus content pipeline: a Dafny model of its deterministic core

news-nexus runs a three-agent newsletter pipeline on a graph-orchestration
library. A Researcher asks a tool-enabled language model which tools to call
and collects one finding per call. An Analyst summarises the findings. A
Writer turns the summary into HTML. A variant adds a human approval step:
the run is suspended before that step, and the reviewer's feedback either
ends the run or sends it back to the Writer. The Researcher's tools are:

- a policy-document lookup over a vector store;
- a web search;
- an RSS keyword filter.

A separate ingestion script loads PDF pages into the store in batches.

This project models the deterministic logic inside that glue. Every
external service is a parameter of the model:

- the language models, as arrow-typed functions;
- the vector-store similarity search;
- the web search provider;
- the feed fetcher;
- the text splitter.

The modules:

- `Text` (text.dfy): the Python string primitives the code relies on:
  `in`, `replace`, `lower`, `split()`, `strip()`, `join` and `s[:k]`.
- `Retrieval` (retrieval.dfy): `retrieve_documents`. It requests `k + 2`
  hits and returns the first `k`.
- `Tools` (tools.dfy): query sanitising, policy-doc formatting, web-result
  formatting and the RSS keyword filter, each with its empty-result sentinel.
- `Agents` (agents.dfy): the state and the framework's merge rule. Messages
  are appended; every other returned key replaces the old value. Also the
  three nodes and the base graph Researcher → Analyst → Writer → END, with a
  closed form of one whole run.
- `HumanLoop` (human_loop.dfy): the approval node, the router, the edges and
  interrupt point, checkpoints with resume, and one round of the
  command-line approval loop.
- `Ingestion` (ingestion.dfy): the batching loop into a store object that
  records the batches it receives.

Facts about the code that the model keeps:

- The code does no keyword re-ranking: `retrieve_documents` accepts
  `keywords_filter` and ignores it.
- The policy-doc tool drops the similarity scores from its output.
- The RSS filter tests each keyword as a plain substring of the lowercased
  title and summary, not as a whole word.
- The RSS loop has no per-feed error handling: there is no `try` around a
  feed, so one feed's error is not contained.
- Sanitising `{value: remote work}` gives ` remote work`, with a leading
  blank (`Tools.SanitizeWrappedQuery`).
- A query containing `}` but no `{` is not sanitised at all, so its `}`
  survives (`Tools.SanitizeDropsBraces`).

Two consequences of the code are proved and worth knowing:

- `HumanLoop.FeedbackRound`: with the intended pause node (see Findings),
  when the run goes back to the Writer, the Writer reads the human feedback
  as its "analysis", because it reads only the last message. It does not
  read the previous draft.
- `HumanLoop.CliRejectsDisapprove`: any feedback containing `approve` in any
  case ends the graph. This includes `disapprove`. The command-line driver
  itself stops only on the exact word.

## Model

| member | source | states |
|---|---|---|
| `Text.ReplaceAbsent` | src/tools.py:9 | `str.replace` of a pattern that does not occur leaves the string unchanged |
| `Text.ReplaceRemovesChar` | src/tools.py:9 | `str.replace` of one character by text without it leaves no occurrence of that character |
| `Text.ReplaceCharPointwise` | src/tools.py:21 | `str.replace` of one character by another keeps the length and changes exactly the positions holding that character |
| `Text.Split` | src/tools.py:63 | `split()`: words are non-empty and contain no whitespace; there are no words exactly when the text is all whitespace |
| `Text.SplitWordsOccur` | src/tools.py:63 | every word of `split()` occurs in the text |
| `Text.SplitSkipsSpace` | src/tools.py:63 | whitespace in front of a text adds no words to its `split()` |
| `Text.SplitTakesWord` | src/tools.py:63 | a non-empty run of non-whitespace, followed by whitespace or by the end of the text, is the next word of `split()`; with `Text.SplitSkipsSpace` this fixes the words as the maximal non-whitespace runs, in order |
| `Text.Strip` | src/phase4_human_loop.py:109 | `strip()`: the result occurs in the input and begins and ends with non-whitespace |
| `Text.StripDropsOnlySpace` | src/phase4_human_loop.py:109 | `strip()` removes only whitespace: the result occurs at a position with nothing but whitespace before and after it |
| `Retrieval.RetrieveDocuments` | src/retrieval.py:7-21 | returns the store's answer to a request for `k + 2`, sliced to `[:k]`; for `k >= 0` its length is `min(k, hits)`; it is a prefix of the store's answer; `keywordsFilter` has no effect |
| `Retrieval.RetrievedIsBoundedPrefix` | src/retrieval.py:14-21 | for `k >= 0`, the result has `min(k, n)` hits and each equals the store's hit at the same index, order and score untouched |
| `Retrieval.RetrievedEmptyStore` | src/retrieval.py:14-21 | an empty store answer gives an empty result |
| `Tools.SanitizeDropsBraces` | src/tools.py:8-9 | the sanitised query has no `{`; if the query had a `{`, it has no `}` either; a query without `{` is unchanged |
| `Tools.SanitizeUnwraps` | src/tools.py:8-9 | `{value:X}` sanitises to `X` when `X` has no braces and no `value:` |
| `Tools.SanitizeWrappedQuery` | src/tools.py:8-9 | `{value: remote work}` sanitises to ` remote work`, with the leading blank |
| `Tools.BasenameStart` | src/tools.py:20 | the basename starts just after the last `/` or `\`, and no separator follows |
| `Tools.FileUriConvertsSeparators` | src/tools.py:21-25 | the link URI is `file:///` followed by the path character for character, each backslash turned into a slash and every other character kept; no backslash is left |
| `Tools.LookupPolicyDocs` | src/tools.py:7-28 | sanitise, retrieve 3 hits, then: no hits gives the sentinel plus the sanitised query; otherwise one block per hit, in order, joined by a blank line |
| `Tools.FormatBlocks` | src/tools.py:16-26 | the loop over the hits yields exactly one block per hit, in retrieval order |
| `Tools.PolicyDocsShowsEveryHit` | src/tools.py:16-28 | the answer contains the block of every retrieved hit |
| `Tools.DocBlockShowsContentAndLink` | src/tools.py:18-26 | a hit's block contains its text and the `file:///` URI of its source (default `unknown PDF`) |
| `Tools.WebSearchStub` | src/tools.py:32-49 | asks for 5 results; `No results found` exactly when there are none; otherwise one block per result, in order, joined by `\n\n---\n` |
| `Tools.RssFeedSearch` | src/tools.py:53-76 | the nested loop yields the blocks of the matching entries among the first 10 of each of the three feeds, feed by feed and then entry by entry; none gives the sentinel |
| `Tools.MatchingBlocks` | src/tools.py:67-74 | the loop over one feed's entries yields the blocks of exactly the matching entries, in feed order |
| `Tools.KeptIff` | src/tools.py:68-74 | an entry is kept exactly when it is one of the entries and some keyword occurs in its lowercased title + blank + summary |
| `Tools.FeedBlocksBounded` | src/tools.py:67-74 | only a feed's first 10 entries are searched, so each feed contributes at most 10 blocks |
| `Tools.RssBlocksBounded` | src/tools.py:65-74 | over any list of feeds, the blocks number at most 10 times the number of feeds |
| `Tools.RssAtMostThirty` | src/tools.py:56-67 | over the three configured feeds, at most 30 entries are reported |
| `Tools.RssBlankQueryMatchesNothing` | src/tools.py:63-76 | an empty or all-whitespace query matches nothing and gives the sentinel |
| `Agents.MergeKeepsHistory` | src/agents.py:14-17 | under the `operator.add` reducer the old messages remain a prefix and what follows them is exactly the returned messages |
| `Agents.MergeNothing` | src/agents.py:14-17 | an update with no keys leaves the state unchanged |
| `Agents.CallTool` | src/agents.py:46-53 | dispatch on the exact tool name returns that tool's answer to the query, and `Unknown tool` for any other name |
| `Agents.GatherFindings` | src/agents.py:39-55 | the loop over the tool calls yields one `Source: name / Data: answer` finding per call, in call order |
| `Agents.ResearcherNode` | src/agents.py:30-60 | an empty history is an error; otherwise one new message (the model's reply to the system instruction and the last message) and `researcher_data` set to one finding per tool call, in call order (none when there are no calls) |
| `Agents.UnknownToolFinding` | src/agents.py:46-55 | a name outside the three tools gives `Source: {name}\nData:\nUnknown tool` |
| `Agents.ResearcherStep` | src/agents.py:57-60 | after the merge, the reply is appended last, `researcher_data` is replaced by as many findings as calls, and `chart_data` is untouched |
| `Agents.AnalystNode` | src/agents.py:66-83 | exactly one new message, `chart_data` reset to `[]`, `researcher_data` not returned |
| `Agents.AnalystPromptHoldsFindings` | src/agents.py:69-76 | the Analyst's prompt contains every finding |
| `Agents.AnalystWithoutFindings` | src/agents.py:69 | with no `researcher_data` key, or an empty one, the data part of the prompt is empty |
| `Agents.WriterNode` | src/agents.py:89-110 | an empty history is an error; otherwise exactly one new message and no other key |
| `Agents.WriterReadsOnlyLastContent` | src/agents.py:92 | two states whose last messages have the same content give the same Writer result |
| `Agents.WriterPromptHoldsInsights` | src/agents.py:92-106 | the Writer's prompt contains the insights unchanged |
| `Agents.BaseNext` | src/agents.py:122-126 | each node's successor is along the fixed edge set |
| `Agents.BaseRunsEachNodeOnce` | src/agents.py:116-126 | from the entry point the nodes run Researcher, Analyst, Writer, each exactly once |
| `Agents.RunBase` | src/agents.py:116-128 | a run fails exactly on empty input; otherwise it equals the closed form: three messages appended, findings stored, `chart_data` empty, the Analyst fed the joined findings, the Writer fed the Analyst's output |
| `Agents.BaseOutcomeNewsletter` | src/agents.py:145-149 | a run appends three messages after the input, and the last is the Writer's reply to the message before it |
| `HumanLoop.HumanApprovalDoublesHistory` | src/phase4_human_loop.py:18-23 | the node as written returns the whole state; merged through the reducer, this doubles the message history and leaves the other fields alone |
| `HumanLoop.HumanApprovalPause` | src/phase4_human_loop.py:18-23 | the intended pause node: merging its update leaves the state unchanged |
| `HumanLoop.RouteAfterHuman` | src/phase4_human_loop.py:29-37 | an empty history is an error; otherwise the route is END exactly when the lowercased last message contains `approve`, and Writer otherwise |
| `HumanLoop.RouteReadsOnlyLastContent` | src/phase4_human_loop.py:29-37 | the route depends only on the last message's content |
| `HumanLoop.RouteStableAcrossApproval` | src/phase4_human_loop.py:18-37 | passing through the approval node, as written or as intended, does not change the route, so routing again gives the same answer |
| `HumanLoop.RouteEndsOnApproveInside` | src/phase4_human_loop.py:30-34 | a message holding any word that lowercases to `approve` routes to END |
| `HumanLoop.RouteEndsOnDisapprove` | src/phase4_human_loop.py:30-34 | `disapprove` routes to END |
| `HumanLoop.Next` | src/phase4_human_loop.py:52-60 | every transition stays within the edge set; only the approval node's transition depends on the state |
| `HumanLoop.ApprovalEnteredOnlyFromWriter` | src/phase4_human_loop.py:52-70 | Writer is the only predecessor of the approval node, and that node is the only interrupt point |
| `HumanLoop.Start` | src/phase4_human_loop.py:67-90 | the first stretch runs the base nodes and suspends before the approval node |
| `HumanLoop.Resume` | src/phase4_human_loop.py:57-60 | resuming a suspended run ends either at END or suspended again before the approval node; a finished run stays finished |
| `HumanLoop.ResumeAfterMessage` | src/phase4_human_loop.py:29-60 | with the intended pause node, resuming before the approval node ends the run exactly when the last message contains `approve` in any case; otherwise the Writer answers that message and the run suspends again |
| `HumanLoop.CliApprovalImpliesRouteEnd` | src/phase4_human_loop.py:109 | feedback the driver accepts as approval also contains `approve` after lowering |
| `HumanLoop.CliRejectsDisapprove` | src/phase4_human_loop.py:109 | `disapprove` is not approval for the driver, yet it contains `approve` |
| `HumanLoop.FeedbackRound` | src/phase4_human_loop.py:109-120 | with the intended pause node, feedback other than `approve` is appended as one human message; the run ends exactly when it contains `approve`, otherwise the Writer runs on the feedback and the run suspends again; findings and chart data are untouched |
| `HumanLoop.FeedbackResumeRewrites` | src/phase4_human_loop.py:113-120 | with the intended pause node, injecting the feedback and resuming appends one human message, then either ends or appends the Writer's reply to the feedback; findings and chart data are untouched |
| `HumanLoop.ApprovalRoundFinalizes` | src/phase4_human_loop.py:109-111 | exact approval stops the loop and leaves the checkpoint as it was |
| `Ingestion.BatchesRebuildChunks` | src/ingestion.py:28-32 | the batches, concatenated in order, are exactly the chunks |
| `Ingestion.BatchesCount` | src/ingestion.py:29-32 | there are `ceil(n/100)` batches; zero chunks means no store call |
| `Ingestion.BatchSizes` | src/ingestion.py:31 | every batch has 100 chunks except possibly the last, which has between 1 and 100 |
| `Ingestion.BatchAt` | src/ingestion.py:30-31 | batch `j` is `chunks[100 j : 100 j + 100]`, cut off at the end of the chunks |
| `Ingestion.ProgressTotalAsWrittenOverCounts` | src/ingestion.py:33 | the printed total `n//100 + 1` is one more than the number of batches exactly when `n` is a positive multiple of 100 |
| `Ingestion.ProgressTotalHundredChunks` | src/ingestion.py:33 | 100 chunks make one batch but are announced as "of 2" |
| `Ingestion.ProgressTotal` | src/ingestion.py:33 | the intended total is the least `t` with `100 t >= n` |
| `Ingestion.VectorStore.AddDocuments` | src/ingestion.py:32 | the store records the batch after the ones it already has |
| `Ingestion.IngestDocuments` | src/ingestion.py:9-36 | the store receives exactly the batches, in order; returns the page and chunk counts; progress line `j` is numbered `j + 1` and gives the batch's length |

## Left out

- The language models, the vector store, its embeddings, the web search
  provider, the feed fetcher, the PDF loader and the text splitter are
  parameters. Their own behaviour is not modelled, including their
  failures, which propagate as exceptions in the code. So are the store's
  answer to a request of `k + 2 <= 0` and model-binding details such as
  `bind_tools`.
- The model assumes every tool call has `name` and `args`, and every feed
  entry has `title` and `link`. The code reads these directly, so a missing
  key or attribute would raise.
- The model takes the reply to always have a `tool_calls` list (`hasattr` is
  always true) and the query passed to a tool to always be a string (the
  `isinstance` test is always true).
- The graph library's runtime is not modelled: streaming, the in-memory
  checkpointer, `get_state`, `update_state` and the thread id. Only the edges,
  the interrupt point and the merge rule are. A feedback update keeps the
  resume point at the approval node.
- Console output and `input()` are I/O. Only the numbers of the progress
  line are kept. The driver's "No state found" branch and its behaviour after
  the graph has reached END (it keeps prompting) are not modelled.
- `Text.Lower` maps only A-Z. Python's `lower()` also maps non-ASCII letters.
- `Tools.BasenameStart` splits on `/` and `\`, as on Windows. A drive prefix
  without a separator (`D:file.pdf`) is not split off.
- Scores are `real` values that pass through untouched. Floating point is not
  modelled.
- Hard-coded paths, `os.makedirs`, `os.listdir` and the embedding model
  names are configuration.
- `Ingestion.IngestDocuments`: its progress lines carry the corrected total
  (see Findings), not the one line 33 prints.
- `HumanLoop.Resume`: runs the intended pause node (see Findings), not the
  node as written, which would double the history on every resume.
- `HumanLoop.ResumeAfterMessage`, `HumanLoop.FeedbackResumeRewrites` and
  `HumanLoop.FeedbackRound`: they are about `HumanLoop.Resume`, so they hold
  with the intended pause node. With the node as written, each resume would
  also append a second copy of the history before routing.

## Findings

| source | as written | input that shows it | evidently intended | confidence | as-written member | corrected member |
|---|---|---|---|---|---|---|
| src/ingestion.py:33 | the total number of batches is printed as `total_chunks//BATCH_SIZE + 1` | 100 chunks: one batch, announced as "batch 1 of 2" | the number of batches, `ceil(n/100)` | high; not executed | `Ingestion.ProgressTotalAsWrittenOverCounts` | `Ingestion.ProgressTotal` |
| src/phase4_human_loop.py:18-23 | the pause node returns the whole state, which the `operator.add` reducer (src/agents.py:15) appends to the existing messages | any state with one message: after the node the history holds that message twice | a pass-through that changes nothing | medium (rests on the library writing every returned key through its reducer); not executed | `HumanLoop.HumanApprovalDoublesHistory` | `HumanLoop.HumanApprovalPause` |
