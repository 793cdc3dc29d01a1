# ARGOS proof of concept: the task-orchestration core in Dafny

ARGOS is a research assistant built from cooperating agents that talk through a
Redis server. This project models that layer:

- **Coordinator.** Splits a user query into search tasks. It pushes one JSON envelope per task onto the `tasks:research` list, records the task ids under `session:<id>`, and announces the dispatch on the `agent:activity` channel.
- **Research worker.** Drains the list. For each search task it examines at most five hits and stores each readable paper as a `paper:<query prefix>:<second>` hash, with its text cut to 4000 characters. It then announces exactly one outcome.
- **Planning agent.** Reads paper hashes and computes the words shared by at least two papers and a feasibility ratio. It stores the synthesis for an hour and announces it.
- **Analysis agent.** Reads syntheses back by key, averages their feasibility, stores the aggregate for an hour and announces it.
- **Search adapters.** The parser of the Tavily MCP text reply, and the offline stand-in for the search client that lists a sample directory.
- **Connection side.** The voice handler turns final transcripts into `voice_input` tasks and turns `agent_response` messages into socket frames. The web server's connection manager echoes and broadcasts chat texts and serves `/api/papers` and `/api/decompose`.

The store is modelled once:

- `Store.State` holds the lists, hashes, strings with a time to live, and the log of every PUBLISH.
- Pure functions give each command's meaning (LPUSH, RPOP, HSET, SETEX, ...).
- The `*Reply` / `After*` functions add the client's guard: without a connection, writes do nothing and reads answer `None`.
- `Store.RedisClient` is a class whose methods are specified by those functions.
- Every agent method is specified as `redis.Snapshot() == F(old(redis.Snapshot()), ...)` for a function `F` of the old state. The properties of the agents are lemmas about those functions.

Values in the store are `Wire.Value`: either the document a `json.dumps` produced (`Doc`) or plain text (`Text`). `json.loads` succeeds exactly on documents.

Everything the code gets from outside becomes a parameter:

- uuids (`uuid: nat -> string`)
- server and wall clocks
- the LLM decomposition (`Decomposition`)
- the search reply (`SearchOutcome`)
- the PDF text extractor (`extract`)
- the speech recognizer's results and the speech synthesizer (`tts`)
- the directory listing
- the texts a socket receives
- the stop-word list
- the iteration order of a Python set

## Model

| member | source | states |
|---|---|---|
| Store.PushEnqueues | src/redis_client.py:27-29 | LPUSH adds the task at the end of the consumption order; other lists are unchanged |
| Store.PopDequeues | src/redis_client.py:31-33 | RPOP answers None exactly when the list is empty or missing and then changes nothing; otherwise it returns the oldest entry and removes only it |
| Store.DisconnectedIsInert | src/redis_client.py:27-60 | without a connection every write leaves the state as it was and every read answers None |
| Store.PushTaskEnqueues | src/redis_client.py:27-29 | `push_task` on a connected client grows only the named list, by the pushed value at its back, and touches no hash, string or message |
| Store.PopTaskDequeues | src/redis_client.py:31-33 | `pop_task` answers None iff disconnected or empty (state unchanged); otherwise it returns the oldest task and shrinks only that list |
| Store.PushAllEnqueues | src/redis_client.py:27-29 | pushing a sequence appends it, in order, to the consumption order of that list only |
| Store.PopManyTakesOldest | src/redis_client.py:31-33 | n pops return the n oldest entries in order and leave the rest |
| Store.FifoOrder | src/redis_client.py:27-33 | pushing t1..tn onto an empty list and popping n times yields t1..tn and empties the list |
| Store.HashReadsLastWrite | src/redis_client.py:36-42 | `get_hash_field` after `set_hash_field` returns the value written; every other hash/field pair reads as before; lists and messages are untouched |
| Store.HashOverwrite | src/redis_client.py:36-38 | a second write of the same field replaces the first |
| Store.AllFieldsAreThoseWritten | src/redis_client.py:44-46 | `get_all_hash_fields` on a fresh hash returns exactly the fields written to it |
| Store.TtlWindow | src/redis_client.py:49-55 | after `set_with_ttl(k, v, t)` at second `now`, `get(k)` returns v before `now + t` and None from then on |
| Store.PublishOnlyAppends | src/redis_client.py:58-60 | `publish_message` appends one message to the log and changes nothing else |
| Store.PubSub.constructor | src/redis_client.py:64-65 | a new subscription listens on exactly the given channel |
| Store.PubSub.Unsubscribe | src/voice_handler.py:136 | unsubscribing removes exactly that channel |
| Store.RedisClient.constructor | src/redis_client.py:8-21 | the client starts connected iff the ping succeeded, over the server's contents, with an empty message log |
| Store.RedisClient.PushTask | src/redis_client.py:27-29 | the new state is `AfterPush` of the old one |
| Store.RedisClient.PopTask | src/redis_client.py:31-33 | the reply is `PopReply` and the new state `AfterPop` of the old state |
| Store.RedisClient.SetHashField | src/redis_client.py:36-38 | the new state is `AfterHSet` of the old one |
| Store.RedisClient.GetHashField | src/redis_client.py:40-42 | the reply is the stored field, None when missing or disconnected |
| Store.RedisClient.GetAllHashFields | src/redis_client.py:44-46 | the reply is the whole hash (empty when missing), None when disconnected |
| Store.RedisClient.SetWithTtl | src/redis_client.py:49-51 | the new state is `AfterSetEx` of the old one |
| Store.RedisClient.Get | src/redis_client.py:53-55 | the reply is the live value at the given second, None when expired, missing or disconnected |
| Store.RedisClient.PublishMessage | src/redis_client.py:58-60 | the new state is `AfterPublish` of the old one |
| Store.RedisClient.SubscribeToChannel | src/redis_client.py:62-66 | a fresh subscription to exactly that channel when connected, None otherwise |
| MockStore.LatestIsLastPublished | tests/mocks.py:18-22 | the remembered message of a channel is the data of the last publish on it; a channel never published to has none |
| MockStore.DoubleAgreesWithStore | tests/mocks.py:1-33 | replaying the same pushes, pops, hash writes and publishes on the double and on the store gives the same lists and hashes, and the double's messages are the store's log reduced to the latest per channel |
| MockStore.MockRedisClient.constructor | tests/mocks.py:3-6 | the double starts with no lists, hashes or messages |
| MockStore.MockRedisClient.PushTask | tests/mocks.py:8-11 | inserts at index 0 of the named list (creating it) and changes nothing else |
| MockStore.MockRedisClient.PopTask | tests/mocks.py:13-16 | removes and returns the last element, or None on a missing or empty list, and changes nothing else |
| MockStore.MockRedisClient.PublishMessage | tests/mocks.py:18-19 | replaces the channel's remembered message and changes nothing else |
| MockStore.MockRedisClient.GetPublishedMessage | tests/mocks.py:21-22 | returns the remembered message, None if nothing was published there |
| MockStore.MockRedisClient.SetHashField | tests/mocks.py:24-27 | creates the hash if absent and sets one field, nothing else |
| MockStore.MockRedisClient.GetHashField | tests/mocks.py:29-30 | None on a missing hash or field |
| MockStore.MockRedisClient.GetAllHashFields | tests/mocks.py:32-33 | the hash, or the empty map when missing |
| Envelope.MakeTask | src/agents/coordinator.py:47-50 | returns the given id, and the envelope decodes to `{"task_id", "type", "payload"}` with exactly those values |
| Envelope.Decode | src/agents/research.py:31-38 | text that is not JSON is `Undecodable`; a JSON object whose type is not `search_and_parse` is `Ignored`; a search task whose payload holds a string query is `Search` of exactly that query; any other document (not an object, or a search task without a string query) is `Malformed`; each case holds iff its condition does |
| Envelope.SearchEnvelopeRoundTrip | src/agents/research.py:31-38 | every envelope the coordinator writes is read by the worker as the search task of its query |
| Coordinator.Plan | src/agents/coordinator.py:59-81 | the flag stays on only when it was on and the predictor answered |
| Coordinator.PlanShape | src/agents/coordinator.py:59-81 | with the flag off or a failing predictor the tasks are exactly q, q+" arXiv pdf", q+" review article", q+" survey", q+" site:arxiv.org" and the flag ends off; otherwise they are the predicted list |
| Coordinator.FlagIsSticky | src/agents/coordinator.py:66-81 | once off, the flag stays off and every later call dispatches the five fallback tasks |
| Coordinator.CoordinatorAgent.constructor | src/agents/coordinator.py:29-45 | the flag starts as whether the predictor could be configured |
| Coordinator.CoordinatorAgent.DecomposeAndDispatch | src/agents/coordinator.py:52-104 | returns one fresh id per planned task, in minting order; updates the flag as `Plan` says; leaves the store as `Dispatched` (pushes, session record, one event) |
| Coordinator.CoordinatorAgent.DispatchTasks | src/agents/coordinator.py:83-103 | mints one id per task in order and leaves the store as `Dispatched`: one envelope per task pushed in task order, the session record when a session id is given, one `dispatched` event |
| Coordinator.PushStep | src/agents/coordinator.py:84-89 | pushing the envelope of the next task extends the pushed prefix by exactly that envelope |
| Coordinator.DispatchPushesOnePerTask | src/agents/coordinator.py:83-89 | the research list gains exactly one envelope per task, in task order, the i-th carrying the i-th id and decoding to the i-th task; no other list changes |
| Coordinator.DispatchRecordsSession | src/agents/coordinator.py:92-95 | with a non-empty session id, `session:<id>.tasks` holds the JSON of the returned ids; without one no hash changes |
| Coordinator.DispatchPublishesOnce | src/agents/coordinator.py:97-103 | exactly one `dispatched` event carrying all ids is appended to the log, after the pushes; no string changes |
| Coordinator.DispatchDisconnected | src/agents/coordinator.py:83-103 | without a connection dispatch changes nothing |
| Coordinator.PushAllDisconnected | src/agents/coordinator.py:83-89 | without a connection the pushes change nothing |
| Coordinator.Pieces | src/agents/coordinator.py:155 | no piece contains a line break; the pieces differ from `splitlines()` only by blank pieces (the text "" gives [""], a final break a last ""), which `LineTasks` filters out |
| Coordinator.StripLeft | src/agents/coordinator.py:155 | the result is a suffix of the input that does not start with whitespace, and every character removed before it is whitespace: exactly `lstrip()` |
| Coordinator.StripRight | src/agents/coordinator.py:155 | the result is a prefix of the input that does not end with whitespace, and every character removed after it is whitespace: exactly `rstrip()` |
| Coordinator.StrippedNonBlankAppend | src/agents/coordinator.py:155 | filtering and stripping lines distributes over concatenation |
| Coordinator.PiecesAtBreak | src/agents/coordinator.py:155 | a line break splits the text into the lines before and after it |
| Coordinator.LineTasksAreStrippedLines | src/agents/coordinator.py:155 | every fallback task is `Trimmed`: non-empty, with no whitespace at either end |
| Coordinator.StripTrims | src/agents/coordinator.py:155 | a line that is not blank strips to a non-empty text with no whitespace at either end |
| Coordinator.BlankIffAllSpace | src/agents/coordinator.py:155 | a line strips to the empty text, and so gives no task, iff every character of it is whitespace |
| Coordinator.LineTasksConcat | src/agents/coordinator.py:152-155 | the tasks of two lines joined by a line break are the tasks of the first followed by those of the second, keeping source order |
| Coordinator.OneLineOneTask | src/agents/coordinator.py:155 | a single non-blank line gives exactly its stripped text |
| Coordinator.OneLinePiece | src/agents/coordinator.py:155 | text without a line break is one piece |
| Coordinator.Measure | src/agents/coordinator.py:106-112 | leading spaces alone measure their count under both tab rules |
| Coordinator.ImportAsWrittenFails | src/agents/coordinator.py:106-112 | with the `try:` of `create_adk_agent` indented by two tabs under an eight-space docstring line, the indentation check raises `TabError` |
| Coordinator.SpacedLayoutImports | src/agents/coordinator.py:106-112 | the same lines indented by spaces pass the check |
| Coordinator.SpacesNeverTabError | src/agents/coordinator.py:106-112 | lines indented by spaces alone never raise `TabError` |
| CoordinatorTool.DecomposeAndDispatch | src/agents/coordinator/agent.py:21-71 | the same dispatch with the flag recomputed for the call: returns one fresh id per task and leaves the store as `Dispatched` |
| CoordinatorTool.DispatchTasks | src/agents/coordinator/agent.py:53-70 | the tool's literal envelopes, session record and event leave the store as the class's `Dispatched` does, with one fresh id per task |
| CoordinatorTool.ToolRetriesPredictor | src/agents/coordinator/agent.py:26-51 | a predictor failure in one call does not stop a later call from using the prediction |
| Research.UrlOf | src/agents/research.py:58 | the url used is the hit's `url`, or its `link` only in the worker class |
| Research.ResearchAgent.constructor | src/agents/research.py:13-20 | the explicit key wins over the environment's; the local stand-in is used iff there is no usable key or the key is "mock" |
| Research.ResearchAgent.ExecuteSearchAndParse | src/agents/research.py:40-77 | leaves the store as `Searched` of the old one |
| Research.ResearchAgent.StorePapers | src/agents/research.py:56-70 | the hit loop returns the ids and leaves the store as `Harvest` with the link/heading fallbacks; `HarvestStoresPapers` gives the stored fields |
| Research.ResearchAgent.ListenAndProcess | src/agents/research.py:22-38 | the final store and whether the loop died are exactly `Drain` from the old store |
| Research.HarvestTouchesOnlyPapers | src/agents/research.py:56-70 | the hit loop writes only `paper:` hashes: no list, string, message or other hash changes |
| Research.SearchedKeepsQueues | src/agents/research.py:40-77 | a search task never changes a list or the connection |
| Research.HarvestKeepsUsableHits | src/agents/research.py:57-70 | one id per hit with a url and non-empty text, each starting with the query's first 32 characters and ":" |
| Research.SearchedFindsAtMostFive | src/agents/research.py:49-61 | only the first five hits count, so at most five ids; a raised search finds nothing |
| Research.SearchedPublishesOnce | src/agents/research.py:49-77 | exactly one event per task: `search_failed` with the message, `completed` with the ids, or `no_pdfs_found` with the query |
| Research.SearchedRecordsLastSearch | src/agents/research.py:73-77 | `last_search[query]` is the JSON of the ids only when some were found; a failed search writes no hash |
| Research.HarvestKeepsPapersBounded | src/agents/research.py:67-69 | stored paper texts stay plain text of at most 4000 characters |
| Research.StorePaperFields | src/agents/research.py:67-69 | storing one paper sets its title, url and truncated text and leaves every other hash as it was |
| Research.HarvestStoresPapers | src/agents/research.py:57-70 | the hash `paper:<id>` of each kept hit holds that hit's title, url and first 4000 characters of text, unless a later kept hit was handled in the same second |
| Research.HarvestStep | src/agents/research.py:64-70 | one more hit leaves an earlier kept hit's hash intact when it was handled in another second, or writes its own |
| Research.HarvestWithoutHitsKeepsHashes | src/agents/research.py:57-70 | when no hit is kept, no hash changes |
| Research.TextFieldWriteBounded | src/agents/research.py:69 | one write keeps the 4000-character bound when it respects it |
| Research.SearchedKeepsPapersBounded | src/agents/research.py:40-77 | a whole search task keeps every paper text within 4000 characters |
| Research.PaperIdDistinguishesSeconds | src/agents/research.py:65 | ids of the same query are equal iff taken in the same second |
| Research.SameSecondOverwrites | src/agents/research.py:65-70 | two papers found in the same second get the same id twice and the second overwrites the first's hash |
| Research.DrainDisconnected | src/agents/research.py:27-30 | without a connection the loop stops at once and changes nothing |
| Research.DrainEmptiesWellFormedQueue | src/agents/research.py:27-38 | when no entry is empty or malformed the loop ends normally with the list empty |
| Research.DrainHandlesDispatch | src/agents/research.py:27-38 | a list filled by the coordinator is drained completely without the loop dying |
| ResearchTool.SearchAndParse | src/agents/research/agent.py:13-46 | returns the found ids and leaves the store as `Searched` without the link/heading fallbacks, so the returned list is the one announced in the `completed` event |
| ResearchTool.StorePapers | src/agents/research/agent.py:26-38 | the tool's hit loop returns the ids and leaves the store as `Harvest` without fallbacks; `HarvestStoresPapers` gives the stored fields |
| ResearchTool.HarvestVariantsAgree | src/agents/research/agent.py:27-38 | on hits that need no fallback the tool's hit loop equals the class's |
| ResearchTool.VariantsAgreeOnPlainHits | src/agents/research/agent.py:26-46 | on such hits the tool and the class do the same whole task |
| ResearchTool.LinkOnlyHitSkippedByTool | src/agents/research/agent.py:28-31 | a hit with only a `link` is stored by the class but skipped by the tool |
| ResearchTool.ToHit | src/agents/research/agent.py:28-29 | an MCP record gives a hit with no `link` or `heading` |
| ResearchTool.McpResultsReadAlike | src/agents/research/agent.py:26-38 | the parsed MCP records are read by the class and the tool alike |
| McpClient.Split | src/mcp_client.py:76 | at least one piece, the first a prefix of the text, and no piece contains the two-character separator backslash, n |
| McpClient.SplitJoin | src/mcp_client.py:76 | joining the pieces with the separator restores the text |
| McpClient.SplitNoSep | src/mcp_client.py:76 | text without the separator is a single piece |
| McpClient.SplitUnique | src/mcp_client.py:76 | separator-free pieces that join to the text are exactly its split, so split and join are inverse |
| McpClient.ScanShape | src/mcp_client.py:74-87 | after the loop over lines: the pending record is empty iff there was no Title line and no field line before one; it has a title once a Title line was seen; the emitted records number the Title lines (plus one for an orphan field line) minus the pending one; emitted and pending titles are the Title remainders in order |
| McpClient.StepShape | src/mcp_client.py:77-86 | one line keeps that relation between the records, the pending record and the Title lines seen so far |
| McpClient.ParseCount | src/mcp_client.py:74-87 | the number of records is the number of Title lines, plus one when a URL or Content line comes before the first Title |
| McpClient.ParseTitles | src/mcp_client.py:77-80 | the records' titles are the Title lines' remainders after 7 characters, in source order |
| McpClient.NoMarkersNoResults | src/mcp_client.py:74-87 | text with no Title, URL or Content line (the empty text included) gives no records |
| McpClient.Blocks | src/mcp_client.py:77-80 | the lines cut before every Title line; there is at least one block |
| McpClient.LastWith | src/mcp_client.py:81-84 | present iff some line starts with the prefix |
| McpClient.MarkersExclusive | src/mcp_client.py:77-84 | a line starts with at most one of "Title: ", "URL: " and "Content: " |
| McpClient.LastWithSnoc | src/mcp_client.py:81-84 | a later line with the prefix replaces the value; another line keeps it |
| McpClient.TitlePartSnoc | src/mcp_client.py:77-80 | a line that is not a Title line leaves the block's title as it was |
| McpClient.BlocksConcat | src/mcp_client.py:76-86 | the blocks, concatenated, are the lines |
| McpClient.BlocksCutAtTitles | src/mcp_client.py:77-80 | every block after the first starts with a Title line, the first does not, and no block has a Title line after its first line |
| McpClient.RecordOfSnoc | src/mcp_client.py:81-84 | one loop step on a non-Title line updates the pending record as the block's record changes |
| McpClient.TitleLineRecord | src/mcp_client.py:77-80 | a Title line alone gives the record holding only its title |
| McpClient.ScanIsBlocks | src/mcp_client.py:74-86 | after the loop the emitted records are those of all blocks but the last, and the pending record is the last block's |
| McpClient.ParseIsBlocks | src/mcp_client.py:74-87 | the records are one per block: its title and the values of its last URL and last Content lines; the leading block without a title gives a record only when it has a URL or Content line |
| McpClient.TavilyMCPClient.constructor | src/mcp_client.py:12-19 | a client starts with no session and no transport |
| McpClient.TavilyMCPClient.Connect | src/mcp_client.py:21-27 | afterwards a session is open; an existing session is kept as it is |
| McpClient.TavilyMCPClient.Close | src/mcp_client.py:29-36 | afterwards neither session nor transport is open |
| McpClient.TavilyMCPClient.Search | src/mcp_client.py:38-66 | connects if needed (a session is open afterwards; the transport is opened with it when there was no session, and is otherwise as it was) and returns the parsed records of the text reply, or none when the reply has no text |
| McpClient.TavilyMCPClient.ParseTavilyText | src/mcp_client.py:68-87 | the line loop computes `ParseResults`, which `ParseIsBlocks` shows is one record per block of lines |
| McpClient.SearchOnce | src/mcp_client.py:89-97 | a fresh client is used for one search and is closed afterwards |
| TavilyMock.ReplaceChar | src/mocks/tavily_mock.py:22 | every `_` becomes a space and nothing else changes |
| TavilyMock.RemoveAll | src/mocks/tavily_mock.py:22 | removing ".pdf" never lengthens the name, and a name with no occurrence of ".pdf" is unchanged |
| TavilyMock.RemoveAllFirst | src/mocks/tavily_mock.py:22 | removal goes left to right: the text before the first occurrence is kept, that occurrence is dropped, the rest is processed |
| TavilyMock.TitleOfPdfName | src/mocks/tavily_mock.py:22 | the title of `<stem>.pdf` is the stem with `_` made spaces, when the spaced stem itself contains no ".pdf" |
| TavilyMock.PdfPositions | src/mocks/tavily_mock.py:18-20 | one position per filtered entry, and the i-th position holds the i-th filtered entry |
| TavilyMock.PdfPositionsIncrease | src/mocks/tavily_mock.py:18-20 | the positions strictly increase, so the filter keeps the listing's order |
| TavilyMock.PdfPositionsExact | src/mocks/tavily_mock.py:18-20 | a position is listed iff its name ends in ".pdf" in any letter case |
| TavilyMock.SamplePapers | src/mocks/tavily_mock.py:21-25 | one sample result per name, in order |
| TavilyMock.MockTavilyClient.constructor | src/mocks/tavily_mock.py:8-10 | keeps the key and the sample directory |
| TavilyMock.MockTavilyClient.Search | src/mocks/tavily_mock.py:12-34 | echoes the query and returns `MockResults` of the listing |
| TavilyMock.PdfsAreTheFilteredEntries | src/mocks/tavily_mock.py:18-20 | a name is kept iff it is listed and ends in ".pdf" in any letter case |
| TavilyMock.MockResultsFromListing | src/mocks/tavily_mock.py:17-25 | one result per PDF among the first five entries, so at most five; the i-th result is the sample for the i-th such PDF in listing order, and every result comes from one of them |
| TavilyMock.MockResultsWithoutDirectory | src/mocks/tavily_mock.py:26-32 | a missing directory yields exactly the one "Mock Paper" result |
| TavilyMock.RemoveAllKeepsOnlyItsCharacters | src/mocks/tavily_mock.py:22 | removal introduces no character that was not there |
| TavilyMock.TitleHasNoUnderscore | src/mocks/tavily_mock.py:22 | a title never contains `_` |
| Analysis.Numbers | src/agents/analysis.py:27-30 | defined iff every score is a number (booleans count as 0 or 1); then one number per score, each that score's value |
| Analysis.AnalysisAgent.constructor | src/agents/analysis.py:8-9 | keeps the client |
| Analysis.AnalysisAgent.AssessFeasibility | src/agents/analysis.py:11-36 | the result and the new store are `Assessed` of the old store |
| Analysis.AnalysisAgent.CollectScores | src/agents/analysis.py:18-27 | the key loop reads the store without changing it and returns `Collect` of the keys: the sources and scores, or the exception that stopped it |
| Analysis.CollectStopsAtCrash | src/agents/analysis.py:18-27 | once reading a key raises, later keys change nothing |
| Analysis.CollectPairsSourcesWithScores | src/agents/analysis.py:26-27 | one score per source, and the sources are the readable object keys in input order |
| Analysis.SumBounds | src/agents/analysis.py:30 | a sum of n scores in [lo, hi] lies in [n·lo, n·hi] |
| Analysis.MeanWithinBounds | src/agents/analysis.py:29-30 | the mean of scores in [lo, hi] lies in [lo, hi] |
| Analysis.AssessedStoresWhatItReturns | src/agents/analysis.py:33-36 | on success the string map is the old one with `analysis:<second>` set to the returned aggregate, expiring after 3600 seconds, and that aggregate reads back until then; one `completed` event with that key is published; lists and hashes are untouched |
| Analysis.AssessedFailsCleanly | src/agents/analysis.py:18-35 | a failure leaves the store as it was, and a missing connection is a failure |
| Analysis.NothingReadableScoresZero | src/agents/analysis.py:16-30 | when every key is missing, expired or holds text that is not JSON, the aggregate has no sources and score 0.0 |
| Analysis.NothingReadableCollectsNothing | src/agents/analysis.py:18-21 | when every key is missing, expired or holds text that is not JSON, nothing is collected |
| AnalysisTool.AssessFeasibility | src/agents/analysis/agent.py:9-30 | the same contract as the class method: result and store are `Assessed` |
| AnalysisTool.CollectScores | src/agents/analysis/agent.py:13-22 | the tool's key loop returns `Collect` of the keys without changing the store |
| Planning.PaperText | src/agents/planning/agent.py:17-20 | a missing `text` field gives ""; otherwise the text's first min(length, 5000) characters |
| Planning.ReadTexts | src/agents/planning/agent.py:16-21 | one text per paper id |
| Planning.ReadPapers | src/agents/planning/agent.py:16-21 | the read loop returns `ReadTexts` of the paper ids and changes nothing |
| Planning.Clean | src/agents/planning/agent.py:26 | the cleaned text holds only lowercase letters and whitespace and is never longer than the document |
| Planning.CleanAppend | src/agents/planning/agent.py:26 | cleaning works character by character in order: a letter is lowered, whitespace kept, anything else dropped |
| Planning.Run | src/agents/planning/agent.py:28 | the longest whitespace-free prefix: it ends at the end of the text or just before a whitespace character, and is non-empty when the text starts with a non-space |
| Planning.Words | src/agents/planning/agent.py:28 | `split()` gives non-empty words made of non-space characters of the text |
| Planning.RunAppendSpace | src/agents/planning/agent.py:28 | a run ends at the first whitespace character |
| Planning.WordsAppendSpace | src/agents/planning/agent.py:28 | a whitespace character separates the words before it from the words after it |
| Planning.WordsOfOneRun | src/agents/planning/agent.py:28 | a non-empty whitespace-free text is one word; a text of whitespace alone has none |
| Planning.WordSets | src/agents/planning/agent.py:27-30 | one word set per document |
| Planning.ListOrder | src/agents/planning/agent.py:48 | the members of the set that `order` lists, each once; when `order` lists the whole set, exactly the set |
| Planning.LongCount | src/agents/planning/agent.py:49-50 | the number of long documents is at most the number of documents |
| Planning.Synthesize | src/agents/planning/agent.py:12-58 | given an `order` that lists every shared word, as iterating a set does, returns `Synthesized` of the texts read and leaves the store as `AfterSynthesis` |
| Planning.DocCountsCountDocuments | src/agents/planning/agent.py:34-36 | the counter gives, for each word, the number of documents containing it |
| Planning.CountDocuments | src/agents/planning/agent.py:34-36 | the counting loop returns `DocCounts` of the word sets |
| Planning.CountPositive | src/agents/planning/agent.py:34-36 | a count is positive iff some document contains the word |
| Planning.CountAtLeastTwo | src/agents/planning/agent.py:38 | a count exceeds one iff two different documents contain the word |
| Planning.MultiDocIsShared | src/agents/planning/agent.py:34-38 | a word is multi-document iff two different documents contain it |
| Planning.WordSetMembers | src/agents/planning/agent.py:26-30 | a document's words are non-empty, not stop words, and all lowercase letters |
| Planning.OverlapIsShared | src/agents/planning/agent.py:26-48 | the overlap has at most ten distinct words, each a cleaned non-stop word found in two different papers |
| Planning.SharedWord | src/agents/planning/agent.py:26-38 | a multi-document word is a cleaned non-stop word that two different papers contain |
| Planning.OverlapIsComplete | src/agents/planning/agent.py:38-48 | the overlap has min(10, number of shared words) entries |
| Planning.LongCountExtremes | src/agents/planning/agent.py:49-50 | all documents are long iff the count is n; none is iff it is 0 |
| Planning.FeasibilityRange | src/agents/planning/agent.py:49-50 | feasibility lies in [0, 10]; it is 10 iff every text is longer than 1000 characters and 0 iff none is |
| Planning.RatioRange | src/agents/planning/agent.py:49-50 | a ratio of c long documents out of n, times ten, lies in [0, 10], is 10 iff c = n and 0 iff c = 0 |
| Planning.ApplicationsNeedOverlap | src/agents/planning/agent.py:52-53 | there is one application exactly when the overlap is non-empty, never more |
| Planning.NoPapersNoSynthesis | src/agents/planning/agent.py:23-25 | no paper ids give overlap [], feasibility 0.0 and no applications |
| Planning.SynthesisIsStored | src/agents/planning/agent.py:55-57 | the string map is the old one with the given key, or `synthesis:<ids joined by commas>`, set to the synthesis, expiring after 3600 seconds; it reads back until then; one `synthesized` event is published; lists and hashes are untouched |
| Pipeline.AssessmentOfOneSynthesis | src/agents/analysis.py:18-30 | reading back a live synthesis gives one source with its overlap and its feasibility as the score, which lies in [0, 10] |
| Voice.InitAsWrittenAlwaysFails | src/voice_handler.py:33 | building the handler as written always raises, because the client wrapper has no `pubsub` attribute |
| Voice.VoiceHandler.constructor | src/voice_handler.py:17-36 | the reply channel is `session:<id>:response`; a fresh subscription listens on exactly it iff the client is connected; nothing has been sent, the socket is open and no listener runs |
| Voice.VoiceHandler.HandleAudioStream | src/voice_handler.py:75-111 | starts the listener and leaves the store as `Transcribed`; sends no frame |
| Voice.VoiceHandler.SendTextToSpeech | src/voice_handler.py:116-128 | sends exactly one binary frame with the synthesized audio |
| Voice.VoiceHandler.ListenForRedisResponses | src/voice_handler.py:38-63 | the frames sent and whether the loop raised are exactly `Listened` of the received items; without a subscription it raises and sends nothing |
| Voice.VoiceHandler.HandleMessages | src/voice_handler.py:40-63 | the loop over the received items sends `Listened` of them and stops at the first exception |
| Voice.VoiceHandler.HandleNext | src/voice_handler.py:41-63 | one more item extends the frames sent by exactly its own, unless the loop already stopped |
| Voice.VoiceHandler.HandleMessage | src/voice_handler.py:41-63 | one item sends exactly its `Respond` frames (media, audio, text) and raises as `Respond` says |
| Voice.VoiceHandler.Close | src/voice_handler.py:130-137 | cancels the listener, unsubscribes exactly the reply channel and closes the socket; without a subscription it raises and the socket stays open |
| Voice.ListenedStopsAtCrash | src/voice_handler.py:40-63 | after an exception no later item sends anything |
| Voice.ReplyChannelInjective | src/voice_handler.py:31-32 | different sessions get different reply channels |
| Voice.TranscriptsAreQueued | src/voice_handler.py:86-111 | each final result, in order, publishes one `transcribed` event (`Announced`) and pushes one `voice_input` envelope (`QueuedEnvelopes`) with the transcript, session id and reply channel; non-final results and other lists, hashes and strings are untouched |
| Voice.QueuedEnvelopes | src/voice_handler.py:101-111 | one envelope per final transcript |
| Voice.Announced | src/voice_handler.py:91-99 | one event per final transcript |
| Voice.QueuedSnoc | src/voice_handler.py:87-111 | one more final transcript adds one envelope and one event at the end |
| Voice.ListenStep | src/voice_handler.py:40-63 | before any exception, one more item appends its own frames to those of the items before it |
| Voice.ReplyFrameOrder | src/voice_handler.py:49-63 | the audio comes before the text frame, and a media frame (when url and type are set) before both |
| Voice.OnlyAgentResponsesSend | src/voice_handler.py:41-44 | items that are not messages, and messages of another type, send nothing and do not stop the loop |
| Server.RemoveFirst | src/main.py:24-25 | `remove` drops one element when the socket is present and nothing otherwise |
| Server.Broadcasts | src/main.py:30-32 | the i-th frame goes to the i-th connection, one per connection |
| Server.ConnectionManager.constructor | src/main.py:17-18 | no connections and nothing sent |
| Server.ConnectionManager.Connect | src/main.py:20-22 | accepts the socket and appends it at the end of the list |
| Server.ConnectionManager.Disconnect | src/main.py:24-25 | removes the first occurrence; fails iff the socket was not connected |
| Server.ConnectionManager.SendPersonalMessage | src/main.py:27-28 | sends one frame to that socket |
| Server.ConnectionManager.Broadcast | src/main.py:30-32 | sends the text once to every connection, in list order |
| Server.ConnectionManager.WebsocketEndpoint | src/main.py:64-75 | connects, then per received text echoes and broadcasts (`Chat`), then leaves the list and broadcasts the departure to the rest |
| Server.ConnectionManager.ReceiveAll | src/main.py:68-72 | the receive loop sends `Chat` of the received texts and keeps the connection list |
| Server.ConnectionManager.ReceiveOne | src/main.py:69-72 | one received text appends its echo and its broadcast after the frames of the earlier texts |
| Server.RemoveFirstKeepsOrder | src/main.py:24-25 | disconnecting removes exactly the first occurrence (`FirstIndex`) and keeps the other sockets in their order |
| Server.FirstIndex | src/main.py:24-25 | the position found holds the socket and no earlier position does |
| Server.ConnectThenDisconnectRestores | src/main.py:20-25 | a socket that joins and leaves restores the list it found |
| Server.ChatLength | src/main.py:68-72 | each received text produces one echo plus one frame per connection |
| Server.ChatAppend | src/main.py:68-72 | the frames of successive texts follow one another in arrival order |
| Server.ChatBlock | src/main.py:68-72 | the frames for each text are its echo to the sender and then its broadcast, between those of earlier and later texts |
| Server.EndpointRestoresConnections | src/main.py:73-75 | the departure message goes to exactly the connections that were there before the client came |
| Server.GetPapers | src/main.py:54-62 | the loop computes `Papers`, which fails when the client never connected |
| Server.PapersRows | src/main.py:57-61 | at most 20 rows, one per listed key in order; title and url are the stored fields or "" |
| Server.ApiDecompose | src/main.py:45-51 | a payload whose query is not a string, or whose session id is neither a string nor null, fails with the store unchanged; otherwise it always succeeds and answers `{"tasks": ids}` with exactly the ids a fresh coordinator dispatched, and the store is as `Dispatched` leaves it |

## Findings

| source | as written | input that shows it | evidently intended | confidence | as-written member | corrected member |
|---|---|---|---|---|---|---|
| src/voice_handler.py:33 | `redis_client.pubsub()` is called on the `RedisClient` wrapper, which defines no `pubsub` | constructing any `VoiceHandler`, for any socket: AttributeError before the handler exists | subscribe through the wrapper's `subscribe_to_channel(self.pubsub_channel)` (or `redis_client.client.pubsub()`) | high, not executed | Voice.InitAsWrittenAlwaysFails | Voice.VoiceHandler.constructor |
| src/agents/coordinator.py:107-112 | the docstring of `create_adk_agent` starts with eight spaces and the `try:` after it with two tabs | importing the module, as `from agents.coordinator import CoordinatorAgent` in src/main.py:8 does: the tokenizer raises `TabError`, so no coordinator can be built | the method body indented by eight spaces, like the rest of the class | high, not executed | Coordinator.ImportAsWrittenFails | Coordinator.SpacedLayoutImports |

The rest of the voice model uses the corrected constructor. With it a disconnected
client gives no subscription, and then listening and closing raise.
The coordinator model, `Coordinator.CoordinatorAgent`, is the class as the spaced
layout defines it.

## Left out

- Serialization: `json.dumps` text is kept as the document it encodes. Plain text that happens to parse as JSON is not modelled, and neither is key order inside objects.
- Redis details:
  - type errors (WRONGTYPE) from one key used as two kinds of value are not modelled;
  - an emptied list is kept as an empty entry instead of deleting the key;
  - `decode_responses` is not modelled.
- Concurrency: everything is sequential. This leaves out:
  - several workers racing on a list;
  - lost updates of `session:<id>` and `last_search`;
  - the asynchronous listener running beside the recognition loop in the voice handler;
  - pub/sub delivery.
- The outside world is represented by parameters (the list above). This covers the LLM calls (DSPy configuration, prediction and the ADK runner), the Tavily web client, speech recognition and synthesis, the MCP stdio session, sockets, clocks and uuids.
- `Coordinator.Decomposition` stands for `json.loads(result.tasks)` already being a list of strings. Other JSON shapes from the LLM are not modelled.
- src/paper_parser.py is not part of this model: text extraction is the parameter `extract`. src/agents/planning.py is not part of this model either (TF-IDF).
- Coordinator.CoordinatorAgent.DecomposeAndDispatch:
  - Predictor configuration (src/agents/coordinator.py:33-45) is reduced to the boolean `configured`.
  - `create_adk_agent` and the ADK runner loop are left out.
  - The runner's JSON path is left out too. Only its line-splitting fallback (line 155) is modelled, as `Coordinator.LineTasks`.
  - As written the module does not import (see Findings). The model is the class with the method bodies indented as the rest of the file is.
- Coordinator.Pieces, Coordinator.StripLeft: whitespace and line breaks follow Python's character classes for the code points listed in `Text.IsSpace`/`Text.IsLineBreak`. `\r\n` counts as two breaks; the empty piece between them is then filtered out, so the task list is unchanged.
- Research.ResearchAgent.ExecuteSearchAndParse:
  - The `no_tavily_key` branch (src/agents/research.py:43-46) is not modelled because `self.tavily` is always set, so that branch never runs.
  - The session id in the payload is unused by the source and ignored here.
- Research.Drain: an envelope that is not a JSON object, or whose payload is not an object, ends the worker (an uncaught exception). So does a query that is not a string; in Python such a query could sometimes survive to `query[:32]`.
- Research.Searched: `title or ""` with a non-string title, and a hit that is not a dictionary, are not modelled. Hits are records of strings, with "" for a missing field.
- Analysis.AnalysisAgent.AssessFeasibility:
  - The score is the exact mean. `round(..., 2)` is not modelled.
  - Booleans count as 0 or 1. Any other non-number is a failure, as Python's `sum` would raise.
- AnalysisTool.AssessFeasibility: same rounding and number treatment as the class method.
- Planning.Synthesize:
  - Feasibility is the exact ratio, without `round(..., 2)`.
  - The stop words (sklearn's `ENGLISH_STOP_WORDS`) are the parameter `stop`.
  - The order of `list(overlap_words)` is the parameter `order`. It is required to list every shared word (`Planning.ListsShared`), as iterating over a set does; only the order is left open.
  - The frequency sort into `sorted_multi_doc_words` is not modelled, because its order is lost in the set.
  - Lowercasing is ASCII only.
  - A `text` field that holds a JSON document reads as empty. The research agent only ever stores plain text there.
  - `metadata` (titles) is built but never used, and is not modelled.
- Voice.VoiceHandler.ListenForRedisResponses:
  - A truthy reply text that is not a string is treated as raising in the speech synthesizer.
  - The subscription confirmations that `listen()` yields are items whose kind is not "message".
- Voice.VoiceHandler.HandleAudioStream:
  - `alternatives[0]` is taken to exist.
  - Errors from the recognizer are not modelled.
  - `audio_stream` is always None and its cancel is not modelled.
- Server.ApiDecompose: only a string `query`, with a string, null or absent `session_id`, is modelled. Any other payload (an absent query included) is reported as a failure that changes nothing, whereas Python would format `None` or the value's representation into the fallback tasks.
- Server.GetPapers: the `KEYS paper:*` reply, including its order, is the parameter `listing`.
- Server.ConnectionManager.WebsocketEndpoint:
  - The received texts are a parameter.
  - The route runs one client at a time, with the other connections fixed.
  - Send failures are not modelled.
- The `/` and `/status` routes (fixed answers) are left out.
- The voice-input consumer, the frontend, and the configuration and debug scripts are left out.
