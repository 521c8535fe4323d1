# Farfield: verified models

Farfield keeps an append-only history of agent activity in an object store whose only write is an
atomic create-if-absent. Everything else it shows is derived from that history and may be thrown
away: a conversation listing, a search index, batches waiting in a client process, operations in a
trace view. This project models the parts where that derivation is hard, and proves that what is
shown is what the history says.

The model has four components.

- **Commit protocol and conversation projection.** `Records`, `Aggregates`, `ObjectStore`,
  `Projection`, `ConversationView`, `AppendBatch` and `HistoryReads` are the code: the segment
  builder, the delta builder, the view object with its apply, refresh, install, load, rebuild and
  snapshot methods, and the readers. `CommitProtocol` puts them into one transition system: any number
  of writers that may crash or lose a response between any two writes, any number of views, snapshots
  and deltas that may be damaged, refreshes that run in two halves, rebuilds. `CommitTheorems` says
  what every run guarantees; `HistoryWrites` is the service object whose append is proved to take exactly
  those steps. `Reachability` extends runs step by step and gives literal batches;
  `UnreadableSegments`, `RoundedSequences` and `ShadowedRebuild` are complete runs that show what is not
  guaranteed, and `RebuildLasts` says when a rebuilt segment stays counted. `JsonNesting` measures how
  deeply a JSON text nests. `RecordOrder` treats the listing order.
- **Search.** `Tokens` is the tokenizer and the query parser. `SearchScan` defines what a query means
  by scanning documents, scores included. `SearchIndex` says what the inverted index holds as a
  function of the documents; `InvertedIndex` is the index object, updated in place, and its query
  methods, each proved equal to the scan. `SearchScores` bounds the scores and says what raises them, `SearchReorder` shows
  that document numbers do not matter, and `SearchSync` treats refreshes, observed writes, the cache
  file and restarts as interleaved critical sections. `SearchNumbers` refines it to processes that index
  their own writes with the sequence numbers they were given.
- **Background processors.** `Batching` holds what the three have in common. `PythonProcessor`,
  `GoProcessor` and `TypeScriptProcessor` each give a transition system whose steps are the sections
  that cannot be interrupted, under a lock or between two suspension points, and the object whose
  methods are proved to take exactly those steps. `GoFlush` adds the waiting flushes of the Go one and the
  token that wakes them.
- **Export and trace operations.** `OtlpExport` groups spans into segments and commits them through
  the history service of `HistoryWrites`. `TraceOperations` folds a timeline into operations.

Seven findings are stated as lemmas with the trace or the input that shows them, and with the exact
condition under which the code does meet the property.

- An append is acknowledged and its segment can never be read again when a sequence number is
  2^64 - 1024 or more, because the number written for it no longer fits 64 bits
  (`UnreadableSegments.GreatestSequenceUnreadable`), or when inline content nests 9998 deep or more,
  because the decoder follows 10000 levels and the segment adds three
  (`UnreadableSegments.DeepContentUnreadable`). A stored segment reads back if and only if every record
  of its batch is below both bounds (`CommitTheorems.SegmentReadsIff`, `AppendBatch.AllDecodeIff`); if
  not, nothing repairs it (`UnreadableSegments.UnreadableForEver`).
- Above 2^53 sequence numbers are rounded where they are stored, but not in what the writing call
  returns. A batch with another number can then pass for a retry while the original is refused
  (`RoundedSequences.RoundedRetryRun`), exactly when a number is rounded (`AppendBatch.RoundedRetryIff`). A call returns
  the stored segment if and only if its own numbers survive (`CommitTheorems.ReturnsStoredIff`).
- A Go `Flush` can return nil while a capture admitted before it is undelivered
  (`GoProcessor.FlushReturnsEarly`). It is a delivery boundary if and only if the batch size is 1
  (`GoProcessor.FlushBoundaryIff`).
- Of two Go flushes waiting at once, the one in a shutdown included, one can sleep on with everything
  delivered (`GoFlush.SecondSleepsOn`). No wakeup is ever lost if and only if at most one waits at a
  time (`GoFlush.AlwaysWakesIff`).
- A write observed inside a refresh that has already picked its segment is indexed twice
  (`SearchSync.InterleavingDuplicates`), and the cache carries the duplicate through a restart
  (`SearchSync.DuplicatesSurviveRestart`); exact condition `SearchSync.CommitKeepsSyncedIff`.
- A rebuilt conversation listing can be shadowed by a snapshot of a process that never saw a
  delta-less segment (`ShadowedRebuild.SmallRebuildIsShadowed`,
  `RebuildLasts.SmallRebuildForgets`). A rebuilt segment stays counted if and
  only if, when the rebuild is published, its delta is stored or every other view and every snapshot
  counts it already (`RebuildLasts.RebuildLastsIff`).
- The listing order is cyclic when an unsequenced record falls between two sequenced ones of the same
  instant (`RecordOrder.MixedSequencingCycles`; exact condition `RecordOrder.RecordOrderTotalIff`).

A smaller one: the TypeScript timer can be armed beside a running drain, because a flush loop clears it
only once (`TypeScriptProcessor.TimerBesideDrain`); no wakeup is lost by it
(`TypeScriptProcessor.RunKeepsInv`).

## Idealisations

- SHA-256 is injective: a digest is represented by the value it was taken of, and object keys that are
  hashes by what they hash. Canonical JSON appears as an idempotent `normalize` function on bytes;
  RFC 8785 number serialization (section 3.2.2.3) as the function from a sequence number to the
  integer literal written for it, which is exact up to 2^53, rounds 2^53 + 1 down, exceeds 64 bits from
  2^64 - 1024 on, and is stable once read. A stored record holds the number as written, so that a
  literal a reader cannot decode is expressible; what a call returns holds the number it was given.
- Go's JSON decoder refuses texts that nest more than 10000 arrays and objects; the canonical encoder has
  no such limit. Normalizing decodes content by itself and does not nest it deeper.
- Time is an integer; an instant outside the years 0 to 9999, which the encoder refuses, is not part of
  this model. The clock, fresh random ids, the natural logarithm (positive above 1), the
  Unicode tables, the encoded size of a segment, the outcome of a call to the client and the rendered
  text of a record's content are parameters.
- Scores are real numbers, so rounding does not break ties.
- The store is the contract at `storage/store.go:20-30`; a failed call may or may not have written.
- An order in which Go walks a map is arbitrary; so is the order in which a listing is read.
- Parallel reads are one sequential loop that may fail at any element.
- Strings are sequences of code points, that is, valid UTF-8; their lengths are counted in UTF-8 bytes, and comparing code
  points is comparing those bytes.
- A submitter that blocks on a full queue owns the lock, so room can only come from the worker taking
  something without it; whether it comes in time is a parameter, and nothing is claimed about progress.

## Model

| member | source | states |
|---|---|---|
| RecordOrder.RecordOrderTotalIff | history/history.go:221-229 | with distinct ids the listing order is a strict total order if and only if no unsequenced record sits by id between two sequenced ones of its instant |
| RecordOrder.UniformSequencing | history/search.go:170-178 | in particular when records sharing an instant are all sequenced or all unsequenced |
| RecordOrder.MixedSequencingCycles | history/history.go:221-229 | three records of one instant that the order puts in a cycle |
| RecordOrder.SortedIsInListingOrder | history/history.go:221-229 | a sorted list runs from early to late, within an instant by number where both have one that differs, else by id |
| Sorting.CollectSortedKeys | history/query.go:169-176 | a set of strings walked in any order comes out as its one sorted listing |
| Sorting.StringLessIff | history/query.go:169-176 | strings are ordered as in a dictionary: by the first character that differs, a prefix first |
| Aggregates.SummarizeAppend | history/query.go:92-139 | the summary of a concatenation is the merge of the summaries |
| Aggregates.SummarizePermutation | history/query.go:92-139 | reordering records changes no summary |
| Aggregates.SummarizeDescribes | history/query.go:92-139 | a summary has exactly the conversations of its records, with their number, earliest and latest instant, non-empty agents and kinds |
| Aggregates.DescriptionUnique | history/query.go:92-139 | that description determines the summary |
| Aggregates.TableUnique | history/conversation_projection.go:327-348 | any duplicate-free listing of a summary's rows sorts to the same table |
| Aggregates.BuildListing | history/conversation_projection.go:327-348 | the loop over the aggregates, with sorted agent and kind lists, sort and cut, lists them latest seen first and then by id, as many as the limit allows, with their own numbers, and cuts off only what comes after |
| Aggregates.AggregateConversations | history/query.go:92-139 | the direct aggregation gives that listing of the summary |
| Aggregates.ListingNewestFirst | history/conversation_projection.go:327-348 | the listing every method is proved equal to is newest first, complete up to the limit (100 for zero, all for a negative one), and cuts off only older conversations |
| Aggregates.AggregatesFromConversations | history/conversation_projection.go:350-364 | reading a table back gives the summary it restores to |
| Aggregates.RestoreTable | history/conversation_projection.go:350-364 | a summary survives being written to a snapshot and installed again |
| ObjectStore.Bucket.PutIfAbsent | storage/store.go:20-30 | creates, accepts equal bytes, refuses different bytes, or fails having written or not |
| ObjectStore.Bucket.Get | storage/store.go:20-30 | returns the stored object, or an error that says whether it is absent |
| ObjectStore.Bucket.List | storage/store.go:20-30 | every key under a prefix exactly once |
| Projection.BuildConversationDelta | history/conversation_projection.go:88-123 | succeeds exactly for non-empty single-conversation segments and then gives the delta their summary determines |
| Projection.AbsorbDelta | history/conversation_projection.go:298-325 | folding a segment's delta is merging with the summary of its records |
| Projection.SumAppliedRemove | history/conversation_projection.go:298-325 | the order in which applied segments are summed does not matter |
| Projection.SumAppliedGrows | history/conversation_projection.go:298-325 | a growing store leaves the sum of what is applied alone |
| Projection.FaithfulApply | history/conversation_projection.go:298-325 | applying a genuine unseen delta keeps a view equal to the aggregate of its applied segments |
| Projection.SumOfListing | history/conversation_projection.go:224-241 | folding whole segments gives the aggregate their delta keys name |
| ConversationView.ConversationProjection.Apply | history/conversation_projection.go:298-325 | a known key changes nothing; a new one merges its delta and is recorded |
| ConversationView.ConversationProjection.Refresh | history/conversation_projection.go:243-264 | on success, which on a reliable store is when every unseen delta reads, every listed delta is applied and a faithful view stays faithful; on a read error the view is untouched |
| ConversationView.ConversationProjection.Install | history/conversation_projection.go:404-413 | the view becomes what the snapshot restores to |
| ConversationView.ConversationProjection.WriteSnapshot | history/conversation_projection.go:366-392 | publishes exactly the view, under a name ordered by applied count and time; refused only where that name holds something else |
| ConversationView.ConversationProjection.Load | history/conversation_projection.go:184-208 | starts from the verifying snapshot that counts most deltas, the latest of those, then catches up, or from nothing when there is none, and then publishes; fails on sound stores exactly when none of several verifies |
| ConversationView.ConversationProjection.Rebuild | history/conversation_projection.go:224-241 | afterwards every stored segment and every delta is applied, the view is faithful and published; refused for a repeated id exactly when there is one, and succeeds on sound stores |
| ConversationView.PublishingIsGenuine | history/conversation_projection.go:366-392 | a snapshot of a faithful view is itself faithful, whatever the outcome of the write |
| ConversationView.ListRecords | history/history.go:201-231 | all records of all readable segments in listing order; on a reliable, readable store it is refused exactly when an id repeats |
| ConversationView.RepeatsInListing | history/history.go:214-220 | a listing repeats an id exactly when two records of the segments have it |
| ConversationView.ConversationProjection.Conversations | history/conversation_projection.go:163-182 | what is shown is the listing of exactly the applied segments, newest first; when a load or refresh was due every stored delta is applied, when none was nothing is read; a snapshot is published exactly when enough was folded since the last |
| AppendBatch.BuiltSegmentValid | history/segment.go:140-160 | a built segment passes its own validation unless record ids repeat |
| AppendBatch.CompareBatch | history/segment.go:364-395 | the field-by-field comparison of a request with a stored segment |
| AppendBatch.SameBatchIffEquivalent | history/segment.go:364-395 | a later batch matches a committed one if and only if it is the same request: canonical content and every supplied field, where sequence numbers are compared with the committed ones as written |
| AppendBatch.RoundedRetryIff | history/segment.go:364-395 | a batch with other sequence numbers can pass for a retry of a readable one if and only if not all numbers of the first survive the encoding |
| AppendBatch.StoredIsWritten | history/segment.go:132-160 | what is stored is what the call holds with its numbers as written; the two are equal if and only if the numbers survive |
| AppendBatch.WritingIsStable | internal/canonicaljson/canonical.go:14-24 | encoding a number that was read changes nothing, so stored records are encoded as they are |
| AppendBatch.DeltaUnseen | history/conversation_projection.go:88-123 | a delta does not depend on sequence numbers, so the one derived from what the call holds is the stored segment's |
| AppendBatch.OwnRetryIff | history/segment.go:364-395 | the same batch again finds its segment readable and matching if and only if its sequence numbers survive canonical number encoding, as all up to 2^53 do, and its inline content is shallow |
| AppendBatch.AllDecodeIff | internal/canonicaljson/canonical.go:14-24 | all records of a batch decode again if and only if each sequence number is below 2^64 - 1024 and each inline content nests at most 9997 deep, which it does if it was sent so |
| AppendBatch.BuiltReadableIff | history/segment.go:280-305 | a built segment always verifies, and reads back if and only if every record of its batch decodes |
| HistoryWrites.HistoryService.PrepareEntries | history/segment.go:92-148 | builds one entry per input, or stops at the first input that is not acceptable with the error that says why |
| HistoryWrites.HistoryService.Prepare | history/segment.go:54-160 | yields the segment exactly when every check passes, and otherwise the error of the first that does not |
| HistoryWrites.HistoryService.Append | history/segment.go:54-189 | takes only steps of the commit protocol, which acknowledge the call exactly when it succeeds, refuse it on a conflict and leave it dead otherwise; whatever the outcome a new segment has its blobs and a new delta its segment; success stores segment, blobs and delta and returns the caller's own numbers; a sound store accepts an equivalent retry and refuses anything else, with the error that says why |
| HistoryWrites.HistoryService.Store | history/segment.go:162-182 | the blobs and only then the segment; a failed blob write leaves segments alone |
| HistoryWrites.HistoryService.CommitSegment | history/segment.go:167-182 | writes the segment or reads back what holds its key, and says which |
| HistoryWrites.HistoryService.Project | history/conversation_projection.go:135-161 | success means the segment's own delta is stored and, if the view is loaded, applied; both are steps of the protocol |
| Records.TamperedSegmentRefused | history/segment.go:199-305 | a segment is read only as it was sealed, under its own key, with sound records and inline contents |
| Projection.TamperedProjectionRefused | history/conversation_projection.go:415-445 | so are deltas and snapshots, a delta only under its own source and with a possible span of time |
| HistoryReads.HistoryReader.ReadContent | history/history.go:150-190 | what is returned has the digest and size the record carries; a blob read succeeds exactly when the reference resolves; a missing blob is told apart |
| HistoryReads.HistoryReader.Timeline | history/query.go:33-77 | entries of one conversation, each with its verified content, in listing order; on sound stores it succeeds exactly when there is such a conversation, and a repeated id is refused only if there is one |
| HistoryReads.HistoryReader.VerifySegment | history/history.go:248-288 | no issue exactly when no id repeats and every blob resolves |
| HistoryReads.HistoryReader.Verify | history/history.go:248-288 | no issues exactly when every segment reads, every blob resolves and no record id repeats; then the orphans are exactly the unreferenced blobs |
| CommitProtocol.BuiltResolves | history/segment.go:92-160 | once a batch's blobs are written, all content references of its segment resolve |
| CommitProtocol.FoldAllFaithful | history/conversation_projection.go:243-264 | folding the unseen deltas in any order keeps the view faithful |
| CommitProtocol.FoldShowsScan | history/conversation_projection.go:298-348 | deltas folded in any order, repeats included, list exactly what direct aggregation of the records does in any order |
| CommitProtocol.StepKeepsInv | history/segment.go:54-189 | what every step of writers, views, snapshots, rebuilds, crashes and damage keeps |
| CommitTheorems.ViewsAndSnapshotsFaithful | history/conversation_projection.go:224-264 | in every run each view and each verifying snapshot is the aggregate of exactly the segments its applied keys name |
| CommitTheorems.ViewShowsScan | history/conversation_projection.go:327-348 | so a view's listing is the from-scratch aggregate of those records in any order |
| CommitTheorems.RunGrows | storage/store.go:20-30 | stored objects and acknowledgments are final |
| CommitTheorems.AcknowledgedIsCounted | history/conversation_projection.go:135-150 | an append acknowledged before a refresh lists is counted exactly once when that refresh ends |
| CommitTheorems.AcknowledgedAgree | history/segment.go:162-189 | all acknowledged calls under one key committed or found the one stored segment, and each returned it with its own sequence numbers, so two returned the same if and only if their numbers agree |
| CommitTheorems.ReturnsStoredIff | history/segment.go:162-189 | an acknowledged call returned the stored segment if and only if its numbers survive, and what readers decode if and only if its inline content is shallow besides |
| CommitTheorems.RetryDecided | history/segment.go:162-189 | a call that finds its key taken fails if the committed batch does not decode; otherwise it goes on if and only if its batch is equivalent to that one |
| CommitTheorems.EverySegmentHasOrigin | history/segment.go:54-189 | every stored segment was built from some request |
| CommitTheorems.DeltaConflictMeansDamage | history/conversation_projection.go:135-150 | writing a delta conflicts only with a damaged object |
| CommitTheorems.StoredContentIsInput | history/segment.go:92-148 | in every reachable store each record's content is the canonical input, inline or in a present blob |
| CommitTheorems.StoredRecordIsInput | history/segment.go:92-148 | and its envelope is the input's, field by field, with the id and the instant filled in if they were left out |
| CommitTheorems.SegmentReadsIff | history/segment.go:280-305 | in every reachable store a segment reads back if and only if every record of its batch decodes |
| CommitTheorems.ReachableIntegrity | history/history.go:150-190 | a reachable store reads back completely, blobs included, if and only if all committed batches decode |
| CommitTheorems.ReachableStoreClean | history/history.go:248-288 | a check of a reachable store is clean exactly when all committed batches decode and no record id is in two segments |
| CommitTheorems.GenuineDeltaAccepted | history/conversation_projection.go:415-428 | readers accept the delta of every valid segment |
| CommitTheorems.RefreshCanFinish | history/conversation_projection.go:243-264 | a refresh over undamaged deltas can finish |
| ShadowedRebuild.RebuildCanBeShadowed | history/conversation_projection.go:366-392 | a complete run after which an accepted snapshot counts a stored segment and a view freshly loaded from the newest snapshot, and refreshed, does not |
| ShadowedRebuild.SmallRebuildIsShadowed | history/conversation_projection.go:366-392 | that run exists for three literal batches |
| RebuildLasts.FreshViewCounts | history/conversation_projection.go:184-264 | a view that loads, lists and refreshes counts a segment if and only if its delta was listed or the snapshot it started from counted it |
| RebuildLasts.LastsIff | history/conversation_projection.go:184-264 | with undamaged deltas, every view loaded and refreshed in any continuation counts a stored segment if and only if its delta is stored or every snapshot and live view counts it already |
| RebuildLasts.RebuildLastsIff | history/conversation_projection.go:224-241 | after a publishing rebuild, whatever others did meanwhile, a folded segment stays counted for good if and only if at publication its delta is stored or everything else counts it |
| RebuildLasts.RebuildAloneLastsIff | history/conversation_projection.go:224-241 | undisturbed, the same can be told before the rebuild |
| RebuildLasts.RebuildNeedsDeltas | history/conversation_projection.go:224-241 | while for each folded segment some other view or snapshot does not count it, the rebuild lasts for all of them if and only if each has its delta stored when it is published |
| RebuildLasts.RebuildForgets | history/conversation_projection.go:224-241 | for any batch that builds and decodes, a run that ends with a complete rebuild of its segment which does not last |
| RebuildLasts.SmallRebuildForgets | history/conversation_projection.go:224-241 | and such a run for a literal batch |
| UnreadableSegments.AcknowledgedUnreadable | history/segment.go:162-189 | every buildable batch that does not decode has a run in which it is acknowledged, and its segment is stored and does not read back |
| UnreadableSegments.RetryFails | history/segment.go:162-189 | and the same batch sent again then fails with nothing damaged |
| UnreadableSegments.GreatestSequenceUnreadable | history/history.go:80-94 | it happens to a literal batch with sequence 18446744073709551615 |
| UnreadableSegments.DeepContentUnreadable | history/segment.go:288-292 | it happens to a literal batch with 9998 or more nested arrays as inline content |
| UnreadableSegments.DefaultServiceLosesDeepContent | history/history.go:16-17 | a service with the default limits takes such content |
| UnreadableSegments.UnreadableForEver | history/segment.go:162-189 | in every continuation the segment stays unreadable, every retry of its key fails and no rebuild can run |
| UnreadableSegments.RebuildEnabledIff | history/conversation_projection.go:224-241 | a rebuild can run if and only if all committed batches decode and no record id is in two segments |
| RoundedSequences.RoundedRetryRun | history/segment.go:162-189 | a run: 2^53 + 1 is committed, the batch with 2^53 is acknowledged as its retry and returns another segment, and the original is refused |
| Tokens.Tokenize | history/search.go:465-486 | the loop yields the terms of the text with positions counted from zero |
| Tokens.TermsByRuns | history/search.go:465-486 | any text is gaps and runs: each maximal run of word characters, in any case, gives exactly one term, its lower-casing, and nothing else gives any |
| Tokens.TermCount | history/search.go:465-486 | a text has no term exactly when it has no word character, and one exactly when it is a single run |
| Tokens.ParseSearchQuery | history/search.go:579-627 | the loop terminates and equals the recursive parser, errors included |
| Tokens.QuotedRefusedIff | history/search.go:586-606 | a quoted clause is refused exactly when it is not closed, or has no word character up to the closing quote, each with its own error |
| Tokens.WordRefusedIff | history/search.go:607-624 | an unquoted word is refused exactly when, but for a final star, it is not one run of word characters, or with a star that run has less than two |
| Tokens.ParsePrint | history/search.go:579-627 | parsing the printed form of any well-formed clauses gives them back |
| Tokens.ParseIsStable | history/search.go:579-627 | whatever parses is well-formed, so printing and parsing it again changes nothing |
| SearchIndex.PostingsExtend | history/search.go:495-504 | reading one more token changes the postings by exactly one position |
| SearchIndex.FiltersWithAll | history/search.go:505-516 | entering a document's fields and tags extends the filters to one more document |
| SearchIndex.PositionsOfMember | history/search.go:465-486 | stored positions are exactly the occurrences, ascending |
| SearchScan.TagValueInjectiveIff | history/search.go:513-515 | a tag's posting key identifies key and value if and only if neither contains NUL |
| SearchScan.FacetsMeanFilters | history/search.go:645-657 | for unambiguous tags the posting lookups hold of a record exactly when every filter does |
| SearchScan.SingleTagExact | history/search.go:655-657 | a query on one tag confuses no record if and only if its key and value are free of NUL |
| SearchScan.MatchingMeansFilters | history/search.go:629-663 | then the documents found are those that satisfy every clause, filter and time bound |
| SearchScan.HitsOrdered | history/search.go:672-682 | score, time and id order hits strictly and totally when record ids are distinct |
| SearchScan.RankedAnswerUnique | history/search.go:672-682 | so the ranked answer is unique |
| SearchScan.ScanShowsBest | history/search.go:672-704 | the answer every search is proved equal to shows best score first, then latest, then by id, as many hits as the limit allows, and leaves out only what comes after |
| SearchScan.ExpansionHolds | history/search.go:706-727 | a prefix clause holds of a document exactly when it contains a word of the expansion |
| SearchScores.IdfPositive | history/search.go:745-752 | the inverse document frequency is positive because no term is in more documents than there are |
| SearchScores.TermScoreBounds | history/search.go:745-762 | a term's score in a document containing it lies strictly between 0 and 2.2 times its idf |
| SearchScores.RarerWeighsMore | history/search.go:745-762 | with an increasing logarithm a rarer term weighs more, and one that half the documents contain weighs ln 2 |
| SearchScores.MoreOccurrences | history/search.go:745-762 | more occurrences score higher |
| SearchScores.LongerDocument | history/search.go:745-762 | the same occurrences in a longer document score lower |
| SearchScores.AverageDocument | history/search.go:745-762 | one occurrence in a document of average length scores the term's weight |
| SearchScores.PhraseScoresTwice | history/search.go:706-743 | a phrase scores twice the sum of its words, a prefix the sum of what it expands to |
| SearchScores.ClausesSumUp | history/search.go:789-807 | a query scores the sum of its clauses |
| SearchScores.HitScores | history/search.go:629-704 | every hit of a query with clauses scores above 0; without clauses all score 0 |
| InvertedIndex.IntersectScores | history/search.go:789-807 | walking the smaller table keeps what both have, with scores added |
| InvertedIndex.FilterScores | history/search.go:809-817 | keeps exactly the allowed documents, scores unchanged |
| InvertedIndex.SearchInts | history/search.go:784-787 | bisection finds the least index not below the value sought |
| InvertedIndex.ContainsPosition | history/search.go:784-787 | bisection decides membership in ascending positions |
| InvertedIndex.SearchStrings | history/search.go:710-711 | bisection splits a sorted vocabulary at the word sought |
| InvertedIndex.PrefixRun | history/search.go:710-717 | the words with a prefix are one run of the sorted vocabulary, starting there |
| InvertedIndex.OccurrencesCounted | history/search.go:745-752 | the size of a posting is the number of documents containing the term |
| InvertedIndex.SearchProjection.RebuildLocked | history/search.go:488-521 | builds the postings, filters, lengths, total and sorted vocabulary the documents determine |
| InvertedIndex.SearchProjection.AddDocumentsLocked | history/search.go:523-553 | extends the index in place to the longer list of documents |
| InvertedIndex.IndexDetermined | history/search.go:488-577 | two indexes over the same documents are equal in every part, so extending equals rebuilding |
| InvertedIndex.SearchProjection.HasPhraseLocked | history/search.go:764-782 | the positional test holds exactly when the phrase occurs as consecutive tokens |
| InvertedIndex.SearchProjection.ExpandPrefixLocked | history/search.go:708-721 | the run from the bisection point is the expansion in order, refused exactly beyond 512 words |
| InvertedIndex.SearchProjection.TermScoresLocked | history/search.go:745-762 | the table of BM25 scores of exactly the documents containing the term |
| InvertedIndex.SearchProjection.MatchClauseLocked | history/search.go:706-743 | the table of exactly the documents satisfying the clause, with its score; fails exactly when a prefix is too broad |
| InvertedIndex.SearchProjection.MatchAllLocked | history/search.go:638-651 | the same for a conjunction of clauses, every document when there are none |
| InvertedIndex.SearchProjection.ApplyFiltersLocked | history/search.go:645-657 | keeps exactly the candidates with every wanted field value |
| InvertedIndex.SearchProjection.Execute | history/search.go:629-704 | a search equals scanning every document: same errors, same total, same hits and scores; best first, up to the limit, with only worse ones left out |
| InvertedIndex.SearchProjection.Search | history/search.go:211-223 | the request with its limit and time bounds checked first, each with its own error; then the same |
| InvertedIndex.SearchProjection.QueryRecords | history/search.go:137-187 | refused below zero and beyond 1000, otherwise the first of the filtered records, up to the limit, from early to late as a listing is |
| InvertedIndex.SearchProjection.ClearLocked | history/search.go:307-313 | the index of no documents |
| InvertedIndex.SearchProjection.PickLocked | history/search.go:290-306 | what the listed segments lack, unless a known one is no longer listed |
| InvertedIndex.SearchProjection.CommitLocked | history/search.go:354-361 | adds every source that was read, without looking again |
| InvertedIndex.SearchProjection.ObserveSegment | history/search.go:394-415 | adds a write of this process unless its source is known |
| InvertedIndex.SearchProjection.CacheLocked | history/search.go:852-867 | a sealed cache with the sources and a reordering of the documents |
| InvertedIndex.SearchProjection.ReadCache | history/search.go:887-916 | accepts exactly an intact cache of this store and version |
| InvertedIndex.SearchProjection.InstallCacheLocked | history/search.go:879-885 | the index of the cached documents |
| InvertedIndex.CacheIsCanonical | history/search.go:852-860 | indexes over the same documents in different order write the same cache |
| InvertedIndex.SearchReinstalled | history/search.go:852-916 | an index installed from the cache file another one wrote answers every query as the writer does, up to the encoding of sequence numbers and exactly when they survive; one that does not decode makes the file unusable |
| SearchReorder.StatisticsOrderFree | history/search.go:745-762 | the statistics behind a score ignore document order |
| SearchReorder.ScanOrderFree | history/search.go:879-885 | two numberings of the same documents give every query the same answer, so a reinstalled cache does |
| SearchSync.AddKeepsSyncedIff | history/search.go:354-358 | adding a source keeps every source present once if and only if it was absent |
| SearchSync.CommitKeepsSyncedIff | history/search.go:354-358 | a refresh's commit keeps every source present once if and only if nothing it picked was added meanwhile |
| SearchSync.ObserveKeepsSynced | history/search.go:394-415 | an observed write, which re-checks, always does |
| SearchSync.ReorderedSynced | history/search.go:852-885 | so does a cache round trip |
| SearchSync.StepKeepsGoodIff | history/search.go:225-415 | every step keeps index and cache in step with the store if and only if it is not an observe of a source already picked |
| SearchSync.CleanRunsStaySynced | history/search.go:225-415 | in every run without that interleaving each source is present exactly once in the index and in the cache, restarts and reinstalled caches included, with sequence numbers as the store reads them |
| SearchSync.CommitCovers | history/search.go:281-372 | a refresh that commits has indexed everything its listing returned |
| SearchSync.InterleavingDuplicates | history/search.go:290-358 | the failing run: open, pick, observe, commit |
| SearchSync.DuplicatesSurviveRestart | history/search.go:363-369 | the same run continued: the cache is written, the process restarts, the duplicate is installed again, and the next refresh finds nothing to add or remove |
| SearchSync.SearchIsScan | history/search.go:629-704 | with each source present once, searching the index is scanning its segments read in any order |
| SearchNumbers.ScanRenumbered | history/search.go:629-704 | changing sequence numbers changes nothing in any answer but those numbers |
| SearchNumbers.ExactStepFollows | history/search.go:394-415 | a step of a process that indexes its own writes with the numbers it was given is, up to their encoding, a step of the system above |
| SearchNumbers.ExactRunsStaySynced | history/search.go:225-415 | so in every run without that interleaving each source is present exactly once up to the encoding of numbers |
| SearchNumbers.ExactSearchIsScan | history/search.go:629-704 | and a search answers, up to that encoding, what scanning the stored segments does |
| SearchNumbers.UnreadableStopsRefresh | history/search.go:332-353 | a refresh that lists a segment which does not read, in a process that has not indexed it, never commits |
| Batching.GroupByConversation | sdk/go/processor.go:200-204 | one group per conversation holding its events in order; conversations in order of first appearance |
| Batching.HandGroup | sdk/python/src/farfield/_processor.py:169-172 | handing over a conversation's group keeps the account of what was handed over |
| Batching.SettleBatch | sdk/python/src/farfield/_processor.py:161-188 | when every conversation had its turn the whole batch is accounted for |
| Batching.WithinAdd | sdk/go/processor.go:205-216 | finishing one more conversation of a batch counts exactly its events |
| PythonProcessor.BackgroundProcessor.Submit | sdk/python/src/farfield/_processor.py:76-99 | admits exactly when open and there is room, or the worker makes room in time for a blocking put; it is then the put and count steps; otherwise raises or counts a drop |
| PythonProcessor.BackgroundProcessor.Collect | sdk/python/src/farfield/_processor.py:146-158 | taking one more item is the collect step; the stop marker ends the batch |
| PythonProcessor.BackgroundProcessor.HandOver | sdk/python/src/farfield/_processor.py:169-181 | one call to the client and its note under the lock are two steps |
| PythonProcessor.BackgroundProcessor.DeliverBatch | sdk/python/src/farfield/_processor.py:161-188 | the grouping loop takes only system steps, hands over the rest of the batch and counts all of it, once |
| PythonProcessor.BackgroundProcessor.WorkerRound | sdk/python/src/farfield/_processor.py:138-159 | a round of the worker keeps the invariant and leaves only with everything delivered |
| PythonProcessor.StepKeepsInv | sdk/python/src/farfield/_processor.py:76-188 | what every step of submitters, worker and shutdown keeps |
| PythonProcessor.Conservation | sdk/python/src/farfield/_processor.py:84-98 | whenever the lock is free enqueued is committed plus failed plus pending |
| PythonProcessor.CountersTell | sdk/python/src/farfield/_processor.py:84-188 | dropped counts what was turned away, batches the successful calls, committed and failed what successful and failed calls held |
| PythonProcessor.AtMostOnceInOrder | sdk/python/src/farfield/_processor.py:138-188 | per conversation what was handed over is a prefix of what was admitted, in single-conversation groups within the batch size |
| PythonProcessor.FlushMeansCommitted | sdk/python/src/farfield/_processor.py:101-111 | a flush returning true means everything admitted before it was confirmed |
| PythonProcessor.ExitMeansAllHanded | sdk/python/src/farfield/_processor.py:113-159 | when the worker has left, every admitted event was handed over exactly once |
| GoProcessor.BackgroundProcessor.Submit | sdk/go/processor.go:84-119 | admits exactly when open and there is room, or the worker can and does make room in time for a blocking send; it is then the send and count steps; otherwise drops, or fails when its context ends |
| GoProcessor.BackgroundProcessor.Receive | sdk/go/processor.go:169-173 | receiving is the take step, and leaving only from a closed and empty channel |
| GoProcessor.BackgroundProcessor.HandOver | sdk/go/processor.go:205-216 | one call and its counters under the mutex are two steps |
| GoProcessor.BackgroundProcessor.DeliverBatch | sdk/go/processor.go:200-225 | the loop over the groups in any order takes only system steps and settles the whole batch |
| GoProcessor.BackgroundProcessor.WorkerRound | sdk/go/processor.go:169-198 | a round of the worker keeps the invariant and leaves only with everything delivered |
| GoProcessor.StepKeepsInv | sdk/go/processor.go:84-225 | what every step over the mutex and the channel keeps |
| GoProcessor.Conservation | sdk/go/processor.go:95-119 | whenever the mutex is free enqueued is committed plus failed plus pending |
| GoProcessor.CountersTell | sdk/go/processor.go:95-225 | dropped counts what was turned away, batches the successful calls, committed and failed what successful and failed calls held |
| GoProcessor.AtMostOnceInOrder | sdk/go/processor.go:169-225 | per conversation what was handed over is a prefix of what was admitted |
| GoProcessor.ExitMeansAllHanded | sdk/go/processor.go:147-161 | a completed shutdown has handed over every admitted capture exactly once |
| GoProcessor.FlushStrongIff | sdk/go/processor.go:122-144 | a nil flush has all earlier captures confirmed if and only if none of them, in the batch in hand, is of a conversation still to be delivered |
| GoProcessor.QuietFlushConfirmsAll | sdk/go/processor.go:122-144 | which holds when nothing was submitted after the flush began |
| GoProcessor.FlushReturnsEarly | sdk/go/processor.go:122-144 | for every batch size above 1, a run in which the flush returns nil with an earlier capture undelivered |
| GoProcessor.FlushBoundaryIff | sdk/go/processor.go:122-144 | every nil flush of every run is a delivery boundary if and only if the batch size is 1 |
| GoFlush.SoloWakes | sdk/go/processor.go:122-144 | while no two flushes wait at once, a waiting flush with nothing to wait for has a token coming |
| GoFlush.SoloFlushReturns | sdk/go/processor.go:122-144 | so none waits once the processor is at rest |
| GoFlush.SecondSleepsOn | sdk/go/processor.go:205-224 | a run of two: the shutdown's flush sleeps on with everything delivered and the worker gone |
| GoFlush.StuckForEver | sdk/go/processor.go:122-161 | nothing but the end of its own context wakes it |
| GoFlush.AlwaysWakesIff | sdk/go/processor.go:122-144 | no wakeup is lost in any run with at most k flushes waiting at once if and only if k is at most 1 |
| TypeScriptProcessor.BackgroundProcessor.Submit | sdk/typescript/src/processor.ts:57-83 | admits exactly when open with room; the turn is the submit step |
| TypeScriptProcessor.BackgroundProcessor.StartDrain | sdk/typescript/src/processor.ts:115-134 | cuts the front of the queue off as a grouped batch exactly when no drain runs and there is something to deliver |
| TypeScriptProcessor.BackgroundProcessor.Flush | sdk/typescript/src/processor.ts:86-90 | the first turn of a flush is the flush step, and it returns at once exactly when nothing is queued and no drain runs |
| TypeScriptProcessor.BackgroundProcessor.FlusherWakes | sdk/typescript/src/processor.ts:86-90 | so is each later test of its loop |
| TypeScriptProcessor.BackgroundProcessor.DrainSettles | sdk/typescript/src/processor.ts:115-125 | the end of a drain is its step |
| TypeScriptProcessor.BackgroundProcessor.CallSettles | sdk/typescript/src/processor.ts:135-150 | the turn after a call, committed or failed, is its step |
| TypeScriptProcessor.BackgroundProcessor.DeliverNext | sdk/typescript/src/processor.ts:127-152 | a whole delivery takes only system steps and ends with every group handed over |
| TypeScriptProcessor.StepKeepsInv | sdk/typescript/src/processor.ts:57-152 | what every turn of the event loop keeps |
| TypeScriptProcessor.RunKeepsInv | sdk/typescript/src/processor.ts:57-125 | no wakeup is lost in any run: queued events have a timer, a drain or, once closed, a flush loop |
| TypeScriptProcessor.TimerBesideDrain | sdk/typescript/src/processor.ts:86-125 | a run that ends with the timer armed beside a running drain |
| TypeScriptProcessor.OneDelivery | sdk/typescript/src/processor.ts:115-125 | no step begins a delivery while one runs |
| TypeScriptProcessor.Conservation | sdk/typescript/src/processor.ts:127-152 | enqueued is committed plus failed plus pending, except that a group whose error is being observed counts twice |
| TypeScriptProcessor.CountersTell | sdk/typescript/src/processor.ts:57-152 | dropped counts what was turned away, batches the successful calls, committed and failed what successful and failed calls held |
| TypeScriptProcessor.AtMostOnceInOrder | sdk/typescript/src/processor.ts:127-152 | per conversation what was handed over is a prefix of what was admitted |
| TypeScriptProcessor.InternalStepsRunDown | sdk/typescript/src/processor.ts:86-125 | without new calls every step lowers a measure bounded by zero, so flushes terminate |
| TypeScriptProcessor.AtRest | sdk/typescript/src/processor.ts:86-125 | at rest nothing is queued, pending or waiting, and everything admitted was handed over exactly once |
| TypeScriptProcessor.FlushReturnsDone | sdk/typescript/src/processor.ts:86-90 | a flush returns only with nothing queued or pending; success means all committed |
| OtlpExport.RecordIDIdentifies | ingest/otlp/otlp.go:164-224 | record ids are valid and equal exactly for equal trace and span ids |
| OtlpExport.ValidExternalID | ingest/otlp/otlp.go:253-264 | the exporter's id test is History's |
| OtlpExport.ConversationIDValid | ingest/otlp/otlp.go:238-251 | whatever the attributes, the conversation id is one History accepts |
| OtlpExport.SpanMeans | ingest/otlp/otlp.go:154-224 | why a span is rejected, and what becomes of each field of a valid one; it happens when it started, or ended if no start is usable |
| OtlpExport.ConversationShared | ingest/otlp/otlp.go:238-251 | spans of one session share a conversation whatever their traces; spans without one share it exactly when they share a trace |
| OtlpExport.ParentLinks | ingest/otlp/otlp.go:164-224 | a parent id is the span id of exactly the span it names |
| OtlpExport.BatchesPartition | ingest/otlp/otlp.go:68-91 | the segments of an export partition its valid spans, each holding 1 to 1000 of one conversation |
| OtlpExport.BatchesAscend | ingest/otlp/otlp.go:68-91 | segments follow conversation by conversation, and within one by record id |
| OtlpExport.ReorderedSpans | ingest/otlp/otlp.go:49-93 | with distinct trace and span ids any order of the spans gives the same batches, hence the same segment ids |
| OtlpExport.CommittedStays | ingest/otlp/otlp.go:83-86 | what an export has committed stays committed |
| OtlpExport.Ingestor.Collect | ingest/otlp/otlp.go:50-66 | valid spans grouped by conversation in order, and the rejections of all others in order |
| OtlpExport.Ingestor.CommitBatch | ingest/otlp/otlp.go:83-88 | success means the batch is in the store, and a new segment reads back if and only if its content is shallow; a shallow batch already there changes nothing |
| OtlpExport.Ingestor.Export | ingest/otlp/otlp.go:49-93 | the rejections are exactly those of the invalid spans, in order; accepted plus rejected is everything received exactly when no commit failed, and then all batches are committed; a repeat of shallow batches leaves the store as it was |
| OtlpExport.Ingestor.ExportReordered | ingest/otlp/otlp.go:49-93 | exporting the same spans in another order after a complete export of shallow content succeeds with the same counts and leaves the store unchanged |
| TraceOperations.MatchingToolResult | server/ui/src/lib/trace-operations.ts:92-106 | finds the first free fitting result before the next call of the same tool, and finds it whenever there is one |
| TraceOperations.PairUnique | server/ui/src/lib/trace-operations.ts:92-106 | there is at most one such result |
| TraceOperations.FitsMeans | server/ui/src/lib/trace-operations.ts:84-106 | an entry could be a call's result exactly when it is a result that follows at once, names its use id, or has its tool and trace |
| TraceOperations.NextResultPairs | server/ui/src/lib/trace-operations.ts:92-106 | a free result right after a call is always its result |
| TraceOperations.CollectChunks | server/ui/src/lib/trace-operations.ts:125-132 | the longest run of assistant messages of one trace |
| TraceOperations.MergedMeans | server/ui/src/lib/trace-operations.ts:125-141 | a merged message has the texts of its chunks in order and everything else of the first |
| TraceOperations.OperationSpan | server/ui/src/lib/trace-operations.ts:62-82 | an operation runs from its first entry to its last, never for less than nothing |
| TraceOperations.OperationStatusMeans | server/ui/src/lib/trace-operations.ts:56-60 | it failed if any entry did, and otherwise has the last status one of them has |
| TraceOperations.BuildTraceOperations | server/ui/src/lib/trace-operations.ts:108-146 | every entry belongs to exactly one operation, counts add up, operations start in input order; a call has the result it pairs with and stands alone only if there is none, an assistant message stands alone only if none follows, and every other operation is a single entry or a whole merged run |
| TraceOperations.ClaimedOnce | server/ui/src/lib/trace-operations.ts:108-146 | no entry serves two operations; a result is claimed by one call only |

## Left out

- S3, GCS and filesystem adapters, the HTTP server, the CLI and the SDK clients with their retries: I/O.
- The canonical JSON encoder, SHA-256, gzip, random ids and temporary files: foreign code behind the parameters above.
- `ValidateKey`, scope merging, hook adapters, attribute-to-kind tables, demo data and React components: easy members or user interface.
- Search snippets and the rendering of content as searchable text (`searchSnippet`, `searchableJSON`): formatting. Reusing a clause's backing array during prefix expansion affects only which word a snippet looks for, so terms are immutable here.
- The filters are one map over (field, value) pairs instead of a map of maps; aggregates and documents are values instead of pointers.
- The list of applied keys in a snapshot is a set; sorting it only serves the checksum.
- `matches` in history/query.go is not modelled: nothing calls it.
- Operation titles, categories and summaries, the density filter and the focus filter of the trace view.
- `ensureLoaded` marks the index loaded before its first refresh succeeds, so nothing is claimed about the completeness of a search after a cold start whose refresh failed.
- Blocking submitters: that room comes in time is a parameter; only safety is stated.
- InvertedIndex.SearchProjection.Execute: when record ids repeat, only the errors, the total and membership of the hits are stated, because the order among equal hits is then not determined.
- InvertedIndex.SearchProjection.Search: likewise for repeated record ids.
- OtlpExport.Ingestor.Export: that a repeat succeeds assumes each batch still passes the size limit, since the encoded size of a segment may depend on the time it is built; so does OtlpExport.Ingestor.ExportReordered.
- OtlpExport.Ingestor.CommitBatch: for a segment that was there before, readability is promised only of shallow batches, since another service may have stored it with other limits; an export of deeper content is committed and cannot be repeated.
- OtlpExport.ReorderedSpans: with repeated trace and span ids the order within a batch depends on an unstable sort, and History refuses the repeated record id.
- TraceOperations.BuildTraceOperations: returns, beside the operations, the input positions each stands for; the source keeps only the entries.
- PythonProcessor.BackgroundProcessor.WorkerRound: one round with nothing else running, as are `GoProcessor.BackgroundProcessor.WorkerRound` and `TypeScriptProcessor.BackgroundProcessor.DeliverNext`; interleavings are the subject of the step and run lemmas.
- RebuildLasts.LastsIff: assumes undamaged deltas, since a damaged one keeps refreshes from finishing; the "if" half (`RebuildLasts.LastsIf`) does not.
- CommitTheorems.RefreshCanFinish: states that a step is enabled, not that a scheduler takes it.
