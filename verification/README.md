# Sasori: context projection, durable stores, wire protocols and workflow definitions

A Dafny model of the parts of Sasori that carry state and arithmetic, with proofs of what they promise over every
input, every run and every interleaving. `dafny verify dfyconfig.toml` checks the whole project.

## What is modelled

Each component has a specification on values (a function or a state machine), a method or class in the source's own
imperative form that is proved to compute exactly that specification, and the laws of the specification as lemmas.

* **Context projection** (`Messages`, `Rejection`, `History`, `Budget`, `Compaction`, `Maximality`). A message history
  is cut into atoms, refused tool turns are rewritten as text, and a suffix of turns is grown until the next turn would
  not fit the unit budget. The unit estimator, the hash and the rendering of refused calls are opaque functions
  (`Messages.Env`); the marker is the text the source writes.
* **Semantic compaction** (`SummaryCache`, `Semantic`, `SemanticRaces`). The bounded memo with its pinned first-miss
  race, as interleavings of callers that hold tickets, and the model that replaces the structural marker by a summary.
  `complete` is split where other callers may run: at the call to the summarizer and at each use of the cache.
* **Run store, artifacts, catalog** (`RunTables`, `RunStore`, `Artifacts`, `CatalogTables`, `Catalog`, `Decimals`,
  `Etag`, `Paging`). Tables are maps in a class, a transaction is all or nothing, drivers are interleaved
  operations, a crash may strike after any step of an artifact write and a fault at any hook point of a catalog write.
* **Wire protocols** (`Utf8`, `Sse`, `SseBytes`, `AnthropicStream`, `JsonValues`). The event stream reader, from the
  bytes the network delivers in pieces up to events, and the assembler of streamed blocks.
* **Server concurrency** (`Server`). Requests as threads that take one step at a time, with the lock on the handler
  count, and the thread that closes the server.
* **Workflows and plugins** (`WorkflowSpec`, `WorkflowManifest`, `WorkflowProjection`, `WorkflowRun`, `PluginUpgrade`,
  `Ordering`). Definitions and their data form, composer and validator of the static manifest, builder and validator of
  the public projection, the states of a driven run it is composed from, and the upgrade diff.

Some properties do not hold as one might state them. Each of these has a concrete counterexample and the exact
condition under which the code does meet the property:

* A protected message is not always preserved. One that is followed by bare refusals is rewritten on the uncompacted
  path (`Compaction.PreludeCanBeRewritten`); the prefix survives if and only if no tool result follows it
  (`Compaction.PreludeKeptExactly`). A compacted projection keeps it always (`Compaction.CompactionShape`).
* The retained suffix is maximal one turn at a time only, because the cost of the marker depends on what it replaces
  (`Maximality.OnlyLocallyMaximal`). It is the longest that fits if and only if shorter suffixes fit wherever longer
  ones do (`Maximality.ProjectionIsLongestExactly`), for which it is enough that keeping one more turn never costs less
  than it saves on the marker (`Maximality.NeverCheaperIsLongest`).
* The structural projection puts a system message behind a protected prelude, so its system messages lead if and only
  if there is no prelude (`Semantic.PreludePutsSystemBehind`, `Semantic.StructuralSystemLeadsExactly`); the semantic
  projection does not have that limit.
* How the network cuts a response can decide whether it is read, because a chunk that brings the terminal event is
  decoded and counted to its end (`SseBytes.CuttingCanMatter`). With a declared length it never does
  (`SseBytes.DeclaredExactly`); without one, `SseBytes.EveryCuttingExactly` says exactly when. The events of a
  successful reading never depend on it (`SseBytes.SuccessAgrees`).
* A silent upgrade diff does not by itself mean that the old permissions cover the new ones: the diff never looks at
  the whole-host flag (`PluginUpgrade.FullHostIsNotReported`). They are covered if and only if that flag is not newly
  set, which no parsed manifest does (`PluginUpgrade.SilentCovers`).
* The manifest validator accepts a composed manifest if and only if the tool names and the application id given to the
  composer are not empty and the tool schema digests are digests (`WorkflowManifest.ComposedCanBeRefused`,
  `WorkflowManifest.AcceptedExactlyComposed`).
* The public projection of a healthy workflow run is not always there. From the commit of a tool's result to the
  driver's next commit it is refused (`WorkflowRun.ResultHidesTheRun`, `WorkflowRun.FirstResultHidesTheRun`); so it is
  after a failed step until the run is failed, and after an operator recorded a result until the run is driven on
  (`WorkflowRun.RecordedResultHidesTheRun`). In all other states of a run it is there if it is small enough
  (`WorkflowRun.EveryRunShowsExactly`); for any stored state `WorkflowRun.ComposedExactly` says when.
* The handler count can grow after the closing flag was set (`Server.CountCanGrowAfterClosing`). A zero seen after
  closing is final if and only if no request is between its flag check and the count (`Server.DrainedExactly`), which
  the lock guarantees to the thread that waits for it (`Server.DrainedForever`).

## Model

| member | source | states |
|---|---|---|
| Rejection.NormalizeRejectionAtom | src/sasori_context/budget.py:183-284 | the loop over calls and results recognises exactly the refused turns and returns their rewriting |
| Rejection.AssignmentAccounts | src/sasori_context/budget.py:207-255 | each call of a paired turn owns a result of its own: the exact refusal if the call is structurally bad, no structural refusal if it is good |
| Rejection.AssignmentLeaves | src/sasori_context/budget.py:207-262 | what pairing leaves over is exactly the results no call took, and the turn counts as normalized exactly when some call was bad |
| Rejection.RecognisedTurnIsAccounted | src/sasori_context/budget.py:183-262 | a rewritten turn is fully accounted for: every call has its right record, every other result is a bare refusal, and something was refused |
| Rejection.RecognisedExactly | src/sasori_context/budget.py:183-284 | a turn is recognised exactly when some one-to-one assignment gives each call its right record, every other result is a bare refusal and something was refused: the greedy order plays no part |
| History.Atoms | src/sasori_context/budget.py:287-355 | the loop gives the segments of the history, or the first structural error in segment order |
| History.CheckGroup | src/sasori_context/budget.py:336-353 | the result loop of one call group gives the verdict of the recursive specification |
| History.CheckedResults | src/sasori_context/budget.py:336-353 | accepted results answer distinct calls under the right name, and every call is answered |
| History.AtomsAreSegments | src/sasori_context/budget.py:287-355 | an accepted history is cut exactly before each message that is not a tool result, and the atoms flatten back to it |
| History.SegmentAcceptedExactly | src/sasori_context/budget.py:291-353 | one segment is accepted exactly when it is a recognised refused turn or replayable as it stands |
| History.AcceptedExactly | src/sasori_context/budget.py:287-355 | a history is accepted exactly when it does not start with a tool result and each segment is a recognised refused turn, plain text or a complete replayable call group |
| History.AtomsConcat | src/sasori_context/budget.py:287-355 | atoms distribute over concatenation when the right part does not start with a tool result, errors included |
| History.WireHistory | src/sasori_context/budget.py:358-363 | the loop gives the wire form of the history or its error |
| History.WireConcat | src/sasori_context/budget.py:358-363 | the wire form distributes over concatenation, errors included |
| History.WireIdempotent | src/sasori_context/budget.py:358-363 | projecting to the wire twice is projecting once |
| History.WireIsReplayable | src/sasori_context/budget.py:287-363 | every segment of a wire history is plain text or a group with complete, unique, non-empty call ids each answered exactly once |
| Budget.ProtectedRunEnd | src/sasori_context/budget.py:372-390 | the run of protected messages ends where the specification says, and each must be plain assistant data |
| Budget.ProtectedPrefixLength | src/sasori_context/budget.py:366-398 | the length of the system and protected-data prefix, or why there is none |
| Budget.Turns | src/sasori_context/budget.py:401-408 | the loop groups atoms into turns as specified, or returns the error of the cut |
| Budget.TurnsLossless | src/sasori_context/budget.py:401-412 | turns flatten back to the history; each turn but the first starts with a user message and none contains a second one |
| Budget.TurnsUnique | src/sasori_context/budget.py:401-412 | that shape leaves no choice: two turn lists of one history are equal |
| Budget.Measure | src/sasori_context/budget.py:146-153 | the loop sums the units of the messages |
| Messages.UnitsConcat | src/sasori_context/budget.py:146-153 | units add up over concatenation |
| Messages.FlattenConcat | src/sasori_context/budget.py:411-412 | flattening distributes over concatenation |
| Budget.GrowStops | src/sasori_context/budget.py:503-526 | the growing suffix stops at the first turn that would not fit, and every start on the way fits |
| Budget.CandidateShape | src/sasori_context/budget.py:472-519 | a candidate is the untouched prefix, the marker and the wire form of the retained turns, and always exists |
| Budget.Project | src/sasori_context/budget.py:454-539 | the whole projection loop computes the specified projection or error |
| Compaction.KeepingAllIsTheHistory | src/sasori_context/budget.py:454-539 | keeping every turn gives the uncompacted wire history |
| Compaction.CompactRemoves | src/sasori_context/budget.py:528-531 | the fallback for an empty removal is unreachable: a successful compaction removed at least one turn and fits |
| Compaction.ProjectionFits | src/sasori_context/budget.py:454-539 | every successful projection is within the message units, and its unit count is the one of its messages |
| Compaction.CompactedIffTooLarge | src/sasori_context/budget.py:462-470 | a history is compacted exactly when its wire form does not fit, and is otherwise sent whole; the original units are those of the history |
| Compaction.CompactionShape | src/sasori_context/budget.py:472-539 | a compacted projection is prefix, one marker and the wire form of the last turns; at least the hot turns are kept, removed and kept make up the history, one more turn would not fit |
| Compaction.RefusedExactly | src/sasori_context/budget.py:474-501 | the budget is refused exactly when the wire form is too large and there is no turn to cut or the hot turns do not fit |
| Compaction.ProjectionIsWire | src/sasori_context/budget.py:454-539 | every successful projection is its own wire form and consists of replayable segments |
| Compaction.TurnsIffNoToolFollows | src/sasori_context/budget.py:401-408 | behind an accepted prefix, turns exist exactly when no tool result follows it |
| Compaction.PreludeKeptExactly | src/sasori_context/budget.py:294-304 | the uncompacted path keeps the prefix exactly when no tool result follows it |
| Compaction.PreludeCanBeRewritten | src/sasori_context/budget.py:294-304 | counterexample: a protected message followed by a bare refusal is replaced by a rewritten record |
| Maximality.GrowthIsLongestExactly | src/sasori_context/budget.py:503-526 | the growing suffix is the longest that fits exactly when shorter suffixes fit wherever longer ones do |
| Maximality.ProjectionIsLongestExactly | src/sasori_context/budget.py:454-539 | what a compacted projection keeps is the longest suffix that fits, among those with the hot turns, exactly under that condition |
| Maximality.NeverCheaperIsLongest | src/sasori_context/budget.py:454-539 | it is, whenever keeping one more turn never costs less than it saves on the marker |
| Maximality.EvenMarkersAreLongest | src/sasori_context/budget.py:454-539 | it is, whenever all markers cost the same |
| Maximality.OnlyLocallyMaximal | src/sasori_context/budget.py:415-526 | counterexample, with the marker text as it is written and whatever the hash: growth stops at a turn that does not fit although a longer suffix would |
| SummaryCache.SemanticSummaryCache.Begin | src/sasori_context/semantic.py:170-187 | a hit moves its key to the newest place; a miss pins the race of the key, and returns its winner if there is one |
| SummaryCache.SemanticSummaryCache.Publish | src/sasori_context/semantic.py:189-205 | the first publication wins and becomes resident; a later one changes nothing and gets the winner |
| SummaryCache.SemanticSummaryCache.Evict | src/sasori_context/semantic.py:203-204 | the loop keeps the newest entries, exactly as many as allowed |
| SummaryCache.SemanticSummaryCache.Finish | src/sasori_context/semantic.py:207-214 | releases one ticket, and drops the race with its last one |
| SummaryCache.EveryRunInvariant | src/sasori_context/semantic.py:157-218 | over every interleaving a live race counts exactly its outstanding tickets, an undecided one has no resident entry, and a resident entry of a live race is its winner |
| SummaryCache.RecencySnoc | src/sasori_context/semantic.py:170-205 | one more use moves its key to the end of the recency order |
| SummaryCache.ResidentsAreMostRecent | src/sasori_context/semantic.py:170-205 | after any run the residents, in order, are exactly the last distinct keys among hits and first publications |
| SummaryCache.PublicationStays | src/sasori_context/semantic.py:189-205 | a first publication never evicts itself and is the newest entry |
| SummaryCache.HeldTicketsWork | src/sasori_context/semantic.py:189-214 | whoever holds a ticket is never told that it is inactive |
| SummaryCache.FirstPublicationDecides | src/sasori_context/semantic.py:189-205 | a publication into an undecided race decides it with its own value |
| SummaryCache.OneRaceOneSummary | src/sasori_context/semantic.py:157-218 | after the first publication in a race all hits, joins and publications of its key yield the same summary while the race lives |
| Semantic.SemanticCompactionModel.Prepare | src/sasori_context/semantic.py:548-637 | what is forwarded fits the budget; a refusal has exactly its cause; otherwise the prefix lengths, the removed source, the cache key and the answer of the cache are the right ones |
| Semantic.SemanticCompactionModel.Check | src/sasori_context/semantic.py:661-705 | the checks on the validated reply end the caller, or leave it with a fitting summary to publish |
| Semantic.SemanticCompactionModel.Offer | src/sasori_context/semantic.py:707-722 | the publishing section: the first publication stands, a later one has to fit with the winner |
| Semantic.SemanticCompactionModel.GiveBack | src/sasori_context/semantic.py:723-725 | the section that gives the ticket back |
| Semantic.SemanticCompactionModel.Resume | src/sasori_context/semantic.py:661-730 | the three sections undisturbed: what is sent fits the budget and is built from the winning summary, the ticket is returned on every path, and only a fitting summary is published |
| SemanticRaces.EveryRunIsGood | src/sasori_context/semantic.py:548-730 | over every interleaving of the sections of any callers, the tickets of the cache are those its callers hold, and whoever holds one and has a summary has the winner of its race |
| SemanticRaces.EveryRunFromEmpty | src/sasori_context/semantic.py:548-730 | that holds from an empty cache on |
| SemanticRaces.TicketsAreNeverLost | src/sasori_context/semantic.py:189-214 | no caller finds its ticket gone |
| SemanticRaces.OneSummaryIsSent | src/sasori_context/semantic.py:548-730 | all messages sent for one key while its race lives are built from one summary |
| Semantic.MarkerMentionsItsDigest | src/sasori_context/budget.py:415-431 | the structural marker starts with its header and contains the digest of what it replaces |
| Semantic.MismatchNeverFires | src/sasori_context/semantic.py:591-612 | the consistency check passes on everything the projector compacts |
| Semantic.SemanticIsWire | src/sasori_context/semantic.py:639-659 | the semantic projection replaces the one marker by the derived marker and the summary note, keeps every other message in place, and is its own wire form |
| Semantic.SemanticSystemLeads | src/sasori_context/semantic.py:639-659 | if the input's system messages all lead, so do those of the semantic projection |
| Semantic.StructuralSystemLeadsExactly | src/sasori_context/budget.py:472-519 | the structural projection has that property exactly when there is no protected prelude |
| Semantic.PreludePutsSystemBehind | src/sasori_context/budget.py:472-519 | counterexample, whatever the hash: a history with a protected message in front, whose compacted projection has a system message behind it |
| Sse.SseReader.DispatchLine | src/sasori/_provider_common.py:1058-1095 | one line changes the reader, or fails, as the specification of a line says |
| Sse.SseReader.FeedText | src/sasori/_provider_common.py:1097-1124 | the character loop feeds a text as specified: byte-order mark, the three line endings, and nothing after the terminal event |
| SseBytes.ReadSse | src/sasori/_provider_common.py:1036-1190 | reading a body that the network cuts as it likes gives the specified events or error: declared length, byte limit, incremental decoding, and no read after the terminal event |
| Sse.FeedConcat | src/sasori/_provider_common.py:1097-1124 | feeding a text in two pieces is feeding it whole: state, terminal flag and error agree |
| Sse.ChunkingIrrelevant | src/sasori/_provider_common.py:1097-1190 | any two ways of cutting the same characters are read alike |
| Sse.FeedAfterTerminal | src/sasori/_provider_common.py:1097-1101 | characters after the terminal event change nothing |
| Sse.FeedFrame | src/sasori/_provider_common.py:1058-1124 | a printed frame is read back as its event, in each line-ending style |
| Sse.PrintReadRoundTrip | src/sasori/_provider_common.py:1048-1190 | printing any events that end at their first terminal one, with any one line ending, with or without a byte-order mark, cut anywhere, reads back as those events (a stricter form of sections 9.2.5 and 9.2.6 of the WHATWG HTML Standard) |
| Sse.ReadEndsAtTerminal | src/sasori/_provider_common.py:1058-1190 | whatever is sent, a successful reading returns named events of which the last, and no other, is terminal |
| Utf8.DecodedConcat | src/sasori/_provider_common.py:1056-1162 | decoding bytes in two pieces, keeping the tail of an unfinished character, is decoding them whole, errors included |
| Utf8.DecodeEncoded | src/sasori/_provider_common.py:1056-1162 | the encoding of a text decodes to that text |
| Utf8.EncodeDecoded | src/sasori/_provider_common.py:1056-1162 | bytes that decode are the encoding of what they decode to, followed by the unfinished tail: no other form is taken (section 4 of RFC 3629) |
| SseBytes.DeclaredExactly | src/sasori/_provider_common.py:1126-1190 | with a declared length a reading succeeds, in any cutting, exactly when the length is within the limit and that many bytes are whole characters that end a stream |
| SseBytes.SomeCuttingExactly | src/sasori/_provider_common.py:1126-1190 | without one, some cutting is read successfully exactly when bytes within the limit end a stream, and then the reading byte by byte is |
| SseBytes.SuccessAgrees | src/sasori/_provider_common.py:1126-1190 | any two cuttings that are read successfully give the same events |
| SseBytes.EveryCuttingExactly | src/sasori/_provider_common.py:1126-1190 | every cutting is read successfully exactly when the terminal event comes within the limit and the chunk that brings it can only end behind whole characters within the limit |
| SseBytes.CuttingCanMatter | src/sasori/_provider_common.py:1145-1162 | counterexample to independence of the network: the same bytes are read one by one and refused in one piece |
| SseBytes.PrintedBytesRead | src/sasori/_provider_common.py:1036-1190 | printed and encoded frames, sent with or without their length and cut anywhere, read back as their events |
| AnthropicStream.StreamPayload | src/sasori/provider_anthropic.py:188-376 | the event loop computes the specified message or error |
| AnthropicStream.PingsIgnored | src/sasori/provider_anthropic.py:205-206 | dropping every ping changes nothing |
| AnthropicStream.CloseIsContent | src/sasori/provider_anthropic.py:314-343 | closing a block succeeds exactly when its grammar has a content, and gives that content |
| AnthropicStream.WellFormedAccepted | src/sasori/provider_anthropic.py:188-376 | every well-formed stream is accepted, with the content its grammar assigns |
| AnthropicStream.AcceptsExactlyTheGrammar | src/sasori/provider_anthropic.py:188-376 | a message is returned exactly when the events, pings aside, are one message_start, blocks numbered from 0, one message_delta and one message_stop; and it is the message of that reading |
| AnthropicStream.TwoDeltasAreOne | src/sasori/provider_anthropic.py:277-313 | two deltas in a row do what one delta with the joined text does, errors included |
| AnthropicStream.FragmentationIrrelevant | src/sasori/provider_anthropic.py:188-376 | in any stream, how the text, thinking or tool JSON of a block is cut into deltas changes neither message nor error |
| RunStore.SQLiteStore.MaxSeq | src/sasori/sqlite_store.py:444-448 | the largest event number of a run, zero if it has none |
| RunStore.SQLiteStore.InsertEvents | src/sasori/sqlite_store.py:444-469 | appends the events under the next numbers and returns the last |
| RunStore.SQLiteStore.Mutate | src/sasori/sqlite_store.py:620-772 | the statements run inside a commit insert or change replies, calls and approvals as specified, or fail |
| RunStore.SQLiteStore.Commit | src/sasori/sqlite_store.py:471-514 | one compare-and-swap with checkpoint and events, or the tables exactly as before |
| RunStore.SQLiteStore.Start | src/sasori/sqlite_store.py:516-558 | a new run with its first checkpoint and event, or the tables exactly as before |
| RunStore.SQLiteStore.ResolveApproval | src/sasori/sqlite_store.py:743-772 | run and decision are read from earlier tables `seen`; a decision recorded there is returned or refused, a new one is committed on the run as it was seen |
| RunStore.SQLiteStore.RegisterArtifact | src/sasori/sqlite_store.py:774-880 | the step is read from earlier tables `seen`; registers a row with its own event, returns the first row on repetition, refuses a conflict and the 129th row |
| RunStore.SQLiteStore.StoredEvents | src/sasori/sqlite_store.py:900-930 | the events of a run after a cursor, in order |
| RunStore.AddEventsAdds | src/sasori/sqlite_store.py:444-469 | appending adds exactly the next numbers, in order, and touches nothing else |
| RunStore.MutationFrame | src/sasori/sqlite_store.py:620-772 | a mutation never touches runs, checkpoints, events or artifacts, keeps replies and never changes a recorded decision |
| RunStore.CommitsExactlyWhenNewest | src/sasori/sqlite_store.py:471-514 | a held snapshot commits exactly when it is still the newest of its run and its mutation applies |
| RunStore.StartKeeps | src/sasori/sqlite_store.py:516-558 | a start keeps every invariant, returns the first snapshot, appends its one event and touches no other run |
| RunStore.CommitKeeps | src/sasori/sqlite_store.py:471-514 | a commit keeps every invariant, loses nothing, moves its run on by one revision to the updated body, appends exactly its events and touches no other run |
| RunStore.ResolveKeeps | src/sasori/sqlite_store.py:743-772 | so does resolving an approval; afterwards the decision stands, and the run moved only if it was new |
| RunStore.CallsStayOk | src/sasori/sqlite_store.py:620-772 | every operation keeps fingerprints and usable call ids unique and every approval attached to a call |
| RunStore.DecisionReachesItsCall | src/sasori/sqlite_store.py:760-770 | a decision changes the status of exactly the one call it was asked for |
| RunStore.RegisterKeeps | src/sasori/sqlite_store.py:774-880 | so does registering an artifact: each row keeps exactly its own event, and a run at most 128 rows |
| RunStore.StepKeeps | src/sasori/sqlite_store.py:444-880 | every operation of a disciplined driver, successful or not, keeps the invariants and only extends the tables |
| RunStore.EveryReachableState | src/sasori/sqlite_store.py:444-880 | in every reachable state revision is generation, checkpoints are exactly 1 to it with the newest equal to the row, events have no gap, the application id is fixed, and all earlier history is still there |
| RunStore.EveryStateFromEmpty | src/sasori/sqlite_store.py:444-880 | all of that from an empty store on |
| RunStore.HeldForever | src/sasori/sqlite_store.py:471-514 | a snapshot the store returned stays a checkpoint of its run |
| RunStore.OneCommitPerRevision | src/sasori/sqlite_store.py:471-772 | of all drivers holding one revision at most one ever moves the run on, in any interleaving |
| RunStore.ReplayFromCursor | src/sasori/sqlite_store.py:900-930 | reading on from any cursor gives exactly the rest of the log |
| RunStore.LogOnlyGrows | src/sasori/sqlite_store.py:900-930 | what one reader saw is a prefix of what any later reader sees |
| Artifacts.ArtifactStore.ReadVerified | src/sasori_artifacts/store.py:339-369 | returns the blob exactly when its length and hash match |
| Artifacts.ArtifactStore.WriteBlob | src/sasori_artifacts/store.py:377-426 | the steps of a write, with a crash after any of them and another writer linking the path first, change the disk as specified |
| Artifacts.ArtifactStore.Put | src/sasori_artifacts/store.py:428-474 | writes the blob first and registers it after, as specified; every registered row has its verified blob |
| Artifacts.ArtifactStore.Get | src/sasori_artifacts/store.py:483-491 | returns the row and the content, or the error, as specified |
| Artifacts.WriteKeeps | src/sasori_artifacts/store.py:377-426 | whatever step it dies at, a write overwrites no path and adds none but its own; success leaves the verified blob, and a blob is found corrupted only if other content has its digest |
| Artifacts.PutKeeps | src/sasori_artifacts/store.py:428-474 | whatever step it dies at, every registered row keeps its verified blob and its own event, and nothing stored is lost; a stored row describes exactly the content |
| Artifacts.GetFindsExactly | src/sasori_artifacts/store.py:483-491 | a get finds exactly the artifacts of the run, and returns content of the registered length and digest |
| Artifacts.EveryRunKeeps | src/sasori_artifacts/store.py:377-491 | over any interleaving of puts, crashes and store operations rows have their blobs and nothing stored is lost or changed |
| Artifacts.EveryRunFromEmpty | src/sasori_artifacts/store.py:377-491 | that holds from an empty store on |
| Artifacts.ReadBackIsWhatWasPut | src/sasori_artifacts/store.py:428-491 | if the hash is injective on the stored contents, the blob of a row is the content it was stored for |
| Artifacts.PutThenGet | src/sasori_artifacts/store.py:428-491 | after any run in which a put succeeded, whatever crashed or was stored before and since, a get returns that very content under its row |
| Catalog.WorkflowCatalogStore.Create | src/sasori_flow/catalog.py:473-536 | writes revision 1, its head and the next sequence number, or rolls everything back, as specified for each fault |
| Catalog.WorkflowCatalogStore.Update | src/sasori_flow/catalog.py:539-638 | compare-and-swap on revision and digest with all or nothing under each fault; an update that changes nothing writes nothing |
| Catalog.HeadNeverRaises | src/sasori_flow/catalog.py:730-789 | in every valid state the integrity checks on a head pass and give the record of its current revision |
| Catalog.AllOrNothing | src/sasori_flow/catalog.py:484-638 | a fault at any hook point leaves the whole old state or the whole new one |
| Catalog.StepKeeps | src/sasori_flow/catalog.py:473-638 | every operation keeps the catalog invariant and only extends the tables |
| Catalog.EveryReachableState | src/sasori_flow/catalog.py:473-638 | in every reachable state heads have exactly the revisions 1 to the current one with the right parents, sequence numbers are distinct and below the next one, and nothing saved is lost |
| Catalog.EveryStateFromEmpty | src/sasori_flow/catalog.py:473-638 | that holds from an empty catalog on, and no head ever fails its integrity checks |
| Catalog.CreatesExactly | src/sasori_flow/catalog.py:473-536 | a create succeeds exactly for a valid new id with agreeing documents, and is read back as revision 1 with those documents |
| Catalog.UpdatesExactly | src/sasori_flow/catalog.py:539-638 | an update writes exactly when its precondition is current and it changes something, and is read back as the next revision with its documents |
| Catalog.LoadsItsRow | src/sasori_flow/catalog.py:792-817 | loading a revision succeeds exactly when it exists and gives the record of its row |
| Catalog.SavedForever | src/sasori_flow/catalog.py:792-817 | a saved record is loaded unchanged after any later operations |
| Catalog.OneWriterPerRevision | src/sasori_flow/catalog.py:571-629 | among writers holding one revision at most one ever writes |
| Catalog.PreconditionExactly | src/sasori_flow/catalog.py:574-589 | an update is refused as stale exactly when its precondition is not current, with the current one in the error; an unchanging update leaves it current |
| Decimals.NumberOfDecimal | src/sasori_flow/catalog.py:273-278 | a printed revision number reads back as itself |
| Decimals.DecimalOfNumber | src/sasori/server.py:1325-1328 | a number text without leading zeros is the print of its value |
| Etag.MatchPrinted | src/sasori/server.py:1325-1331 | a printed entity tag is matched with its own identity, revision and digest |
| Etag.MatchedIsPrinted | src/sasori/server.py:1325-1331 | a text that matches is the tag printed from its own parts |
| Etag.PreconditionRoundTrip | src/sasori/server.py:1308-1331 | an If-Match header is accepted with a revision and digest exactly when it is the tag of this catalog id for them and the revision is in range; other ids are refused |
| Paging.FullPage | src/sasori_flow/catalog.py:832-850 | after a full page exactly the rest is left below its last entry |
| Paging.NextBeforeExactly | src/sasori_flow/catalog.py:845-850 | the next cursor is there exactly when more than a page is left, and is then the last entry of the page; otherwise the page is all that is left |
| Paging.WalkVisitsAllOnce | src/sasori_flow/catalog.py:820-850 | following next cursors ends and visits exactly the entries of the first page's table, each once, newest first, while only newer ones are added |
| Catalog.WorkflowCatalogStore.List | src/sasori_flow/catalog.py:819-850 | checks its arguments and every head it reads, and returns the specified page or the first error |
| Catalog.ListsItsPage | src/sasori_flow/catalog.py:819-850 | in every valid state a page shows the newest heads before the cursor as they stand, and a next cursor exactly when more are left |
| Catalog.ExtendedIsLater | src/sasori_flow/catalog.py:473-638 | any operations leave the listed numbers in place and add only larger ones |
| Catalog.ListingVisitsAllOnce | src/sasori_flow/catalog.py:819-850 | following next cursors through any creates and updates in between, a client sees exactly the workflows there were at its first page, each once, newest first |
| Paging.Reconcile | src/sasori/server.py:533-543 | the reconcile loop ends and reaches every run once, newest first |
| Server.SasoriHTTPServer.RegisterHandler | src/sasori/server.py:892-897 | undisturbed, the locked section does what its steps do one by one: a request is counted, or gives its permit back if the server is closing |
| Server.SasoriHTTPServer.ProcessRequest | src/sasori/server.py:879-905 | undisturbed, a request either runs holding one permit and one count, or leaves both as they were |
| Server.SasoriHTTPServer.FinishRequestThread | src/sasori/server.py:925-932 | undisturbed, the end of a handler thread does what its steps do: permit and count are given back |
| Server.EveryRunConserves | src/sasori/server.py:879-960 | over every interleaving of single steps, with reading and writing the count as two of them, the lock excludes, available and held permits add up to the limit, and the count is the requests registered and not yet deregistered |
| Server.EveryRunFromStart | src/sasori/server.py:879-932 | that holds from the start of the server on |
| Server.ReleasesAreSafe | src/sasori/server.py:879-932 | the bounded semaphore is never released beyond its limit and the count never drops below zero |
| Server.PermitReleasedOnce | src/sasori/server.py:879-932 | a request takes at most one permit, and has given back exactly what it took when it is finished |
| Server.ClosingOnlyDrains | src/sasori/server.py:879-960 | once closing is set it stays set, and the only request that can still be counted is the one already past its flag check under the lock |
| Server.CountCanGrowAfterClosing | src/sasori/server.py:892-935 | counterexample: the flag is set outside the lock, and the count then goes from zero to one |
| Server.DrainedExactly | src/sasori/server.py:892-958 | after closing, a count of zero is final exactly when no request is between its flag check and the count |
| Server.DrainedForever | src/sasori/server.py:938-958 | a zero that the closing thread sees while it holds the lock is final, whatever requests still arrive |
| Server.DrainedMeansNone | src/sasori/server.py:879-958 | from the start of the server on, when the closing thread has reported the handlers gone there is none |
| WorkflowProjection.ValidateWorkflowProjection | src/sasori_flow/projection.py:246-352 | the loop with its growing sets accepts exactly the consistent projections |
| WorkflowProjection.AcceptedSemanticsHaveFrontier | src/sasori_flow/projection.py:107-243 | every accepted status pattern has its frontier at the loop position's step, and a pending request belongs to the step there |
| WorkflowProjection.FirstUnfinishedIs | src/sasori_flow/projection.py:339-349 | the first unfinished step is the one at the frontier |
| WorkflowProjection.AcceptedHasFrontier | src/sasori_flow/projection.py:107-352 | in every accepted projection all steps before the frontier are completed and all after it untouched or stopped, and the current step and a pending request name the frontier step |
| WorkflowProjection.AtMostOneUnderWay | src/sasori_flow/projection.py:107-352 | at most one step is under way or failed |
| WorkflowProjection.StepStatusFits | src/sasori_flow/projection.py:365-389 | the builder produces only statuses that fit their call and error code, and no live status in a terminal run |
| WorkflowProjection.PublicFromDetailed | src/sasori_flow/projection.py:392-474 | the building loop makes the specified projection, or refuses |
| WorkflowProjection.BuiltStepAcceptedExactly | src/sasori_flow/projection.py:290-435 | the validator accepts a built step exactly when its call has proper texts and an id, which only a stopped step may lack, and its status fits its effect |
| WorkflowRun.ViewIsUnique | src/sasori_flow/runtime.py:742-756 | what is checked before a projection makes its step ids, names and call ids unique, whatever the calls went through |
| WorkflowRun.ViewAcceptedExactly | src/sasori_flow/projection.py:107-474 | the validator accepts the built view of a checked run exactly when the status of the run fits the call it got to: a condition on status, result, call status and effect for each of the ten statuses |
| WorkflowRun.ComposedExactly | src/sasori/projection.py:21-70 | run view and workflow view of one state compose exactly when the checks pass, that condition holds, and the result with its envelope is small enough |
| WorkflowRun.TornReadIsRefused | src/sasori/projection.py:51-70 | a run view read before a commit with an event never composes with the workflow view after it |
| WorkflowRun.EveryRunShowsExactly | packages/sasori-core/src/sasori_core/runtime.py:1500-1580 | whatever a driver and its operators commit, the checks pass, and the projection is there exactly when the run is not between a result and the next reply, and it is small enough |
| WorkflowRun.ResultHidesTheRun | src/sasori_flow/projection.py:140-151 | counterexample: committing a tool's result takes the projection away, and the next commit of the driver gives it back |
| WorkflowRun.RecordedResultHidesTheRun | packages/sasori-core/src/sasori_core/runtime.py:795-871 | counterexample: recording the result of an unknown effect takes the projection away until the run is driven on |
| WorkflowRun.FirstResultHidesTheRun | src/sasori_flow/projection.py:140-151 | the first such window, in a literal run of a literal definition |
| PluginUpgrade.ManifestUpgradeDiff | src/sasori/plugins.py:905-1079 | the loops compute the specified list of changes, or the error |
| Ordering.SortedAscends | src/sasori/plugins.py:959-1042 | the sorted enumeration of keys is in code point order |
| PluginUpgrade.NoChangeExactlyWhenSame | src/sasori/plugins.py:905-1079 | the diff is empty exactly when the manifests agree in everything it looks at: no difference goes unreported |
| PluginUpgrade.SilentExactlyWhenSafe | src/sasori/plugins.py:905-1079 | no change requires approval exactly for the same plugin, entry point, distribution and dependencies, no higher mode, no new permission, and every new tool, skill and worker already there unchanged |
| PluginUpgrade.SilentCovers | src/sasori/plugins.py:117-131 | after a silent diff the old permissions cover the new ones exactly when the whole-host flag is not newly set; always for parsed manifests |
| PluginUpgrade.FullHostIsNotReported | src/sasori/plugins.py:946-978 | counterexample outside parsed manifests: a silent diff that newly asks for the whole host |
| PluginUpgrade.CoversTransitive | src/sasori/plugins.py:117-131 | coverage is transitive |
| PluginUpgrade.SilentUpgradesCompose | src/sasori/plugins.py:905-1079 | any number of silent upgrades add up to a silent one, and a grant covering the first version covers the last |
| WorkflowSpec.MakeSpec | src/sasori_flow/spec.py:287-329 | the constructor's loop accepts exactly the valid definitions: every binding names a declared input or an earlier step |
| WorkflowSpec.BindingRoundTrip | src/sasori_flow/authoring.py:71-84 | a valid binding's data parses back to it |
| WorkflowSpec.StepRoundTrip | src/sasori_flow/authoring.py:122-149 | a valid step's data parses back to it |
| WorkflowSpec.ParsesExactlyItsOwnData | src/sasori_flow/authoring.py:96-159 | parsing accepts exactly the data of valid definitions and returns the definition that prints it, hence the same digest |
| WorkflowSpec.ResolveArguments | src/sasori_flow/spec.py:422-448 | either every argument has its value within the size limit, or some binding has none, or the resolved arguments are too large |
| WorkflowSpec.EarlierOutputsSuffice | src/sasori_flow/spec.py:422-448 | with the outputs of the earlier steps no step output is missing, and only optional inputs can be |
| WorkflowSpec.Evaluate | src/sasori_flow/spec.py:287-448 | evaluating the steps of a valid definition in order never finds a step output missing and ends with the output of every step |
| WorkflowManifest.ComposeWorkflowManifest | src/sasori_flow/manifest.py:221-323 | the composing loop builds the specified JSON manifest, or refuses |
| WorkflowManifest.ValidateWorkflowManifest | src/sasori_flow/manifest.py:76-183 | the validating loop accepts exactly the JSON with the exact keys, the identity of the definition, its own table of expected columns and admissible dispatch columns |
| WorkflowManifest.ComposedIsValid | src/sasori_flow/manifest.py:76-323 | the validator accepts what the composer made exactly when tool names and application id are not empty and schema digests are digests |
| WorkflowManifest.ColumnsSplit | src/sasori_flow/manifest.py:119-289 | the composer's sixteen columns are the validator's thirteen expected ones and the three dispatch columns |
| WorkflowManifest.ValidIsComposed | src/sasori_flow/manifest.py:76-323 | an accepted manifest with a canonical text within the size limit is what the composer makes of the wrappers in its dispatch columns |
| WorkflowManifest.AcceptedExactlyComposed | src/sasori_flow/manifest.py:76-323 | the accepted manifests of that size are exactly the composed ones whose tool names and application id are not empty and whose schema digests are digests |
| WorkflowManifest.ComposedCanBeRefused | src/sasori_flow/manifest.py:76-323 | counterexample for any valid definition and fitting wrappers within the size limit: composed for an empty application id, or an empty tool name, a manifest is refused |
| WorkflowManifest.EveryDefinitionCanBeRefused | src/sasori_flow/manifest.py:76-323 | every valid definition has such a manifest, unless it is too large |
| WorkflowManifest.SortedIsOrdered | src/sasori_flow/manifest.py:256-270 | sorting step ids by position puts them in strictly increasing position |
| WorkflowManifest.DependenciesAreEarlier | src/sasori_flow/manifest.py:256-270 | each step depends on exactly the steps it refers to, all strictly earlier, once each and in step order |

## Left out

- WorkflowProjection.ValidateWorkflowProjection: key sets, text bounds, digest syntax, result types and sizes are one
  flag a step and one for the whole, because each is a check on a single field that relates to no other.

* Budget: the estimator is a total function to natural numbers, so its type error for other results is not modelled;
  message content is text; the hash and the canonical JSON text are opaque, and their failure on values without a
  canonical form is not modelled.
* Semantic compaction: the summary prompt, the checks on the reply, deadlines and cancellation (the validated reply, or
  its error, is a parameter of `Check`), diagnostics records and observers.
* Event stream reader: parsing of headers, timeouts and deadlines. A read that times out is tried again, so it is left
  out; the declared length is a number or absent.
* Anthropic adapter: `_text_and_calls`, `_wire_history`, request building and the HTTP call; the OpenAI adapter.
* Run store: SQL, schema migrations, locks and the JSON form of columns. Tool arguments, contract and timestamps of a
  call are one opaque column, as is the data of an event. Which status a driver chooses to commit is its own business:
  any disciplined driver is covered. Filtering of run lists by application.
* Artifacts: validation of names and media types, directories, links, permissions and flushing; the blobs are a map with
  an atomic link that never overwrites, and leftover temporary files are kept.
* Catalog: schema checks, document syntax and the binding to tools; parsing, digests and manifest checks are opaque
  functions.
* Etag: Python's limit on the digits of a number text is not modelled; a revision of thousands of digits is out of range
  here.
* Server: sockets, HTTP, authentication, the clock of the drain loop, and delivery of events to clients. The end of
  an event stream after a status poll can miss the last event, so nothing is claimed about it.
* Workflow definitions and manifests: the canonical text of a value is opaque, as are its length and which scalars JSON
  can carry; that different values have different texts is a hypothesis where it is used. Argument order in the
  resolved mapping, validation of run input and the builder class.
* Workflow runs: tool results are reduced to their error codes, and messages to what they replay to; arguments,
  idempotency keys, fingerprints and the text of results are not compared. The driver is its commits: which one it
  makes next is left open wherever the run loop, its model, its tools or an operator could choose.
* Plugins: parsing, registration, loading and disclosure; permission tuples are sets, change paths are lists of parts,
  and rendered values are kept as values.
* The rest of `sasori_core` and of the flow runtime, memory and worker internals, the command line, the workbench and
  the release scripts.
