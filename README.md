# いじゅナビ: RAG bookkeeping and session views, modelled in Dafny

This project models the core of the いじゅナビ relocation-advice web application. The core is in two files.

`ijunavi/rag_service.py` is the bookkeeping around the retrieval-augmented answer pipeline:
- the shared build-status record and its partial update;
- grouping CSV tables into row-range documents;
- the wide-to-long reshape of the store-count file and its sentence documents;
- the data-folder fingerprint;
- the rebuild-or-reuse decision for the vector index, and the batched build loop with its progress records;
- the post-processing of the chain's answer into a headline and a list of spots.

`ijunavi/views.py` holds the session-backed views:
- the `start` / `send` / `reset` chat state machine, including how an age is read from the user's message;
- removing a bookmark by index;
- the history lines of the profile page.

Modules, one per concern:

| file | module | models |
|---|---|---|
| `common.dfy` | `Common` | `Option`, `min`, first position in a list, `int()` of a float |
| `text.dfy` | `Text` | `str.strip()`, `str.isdigit()`, `int(str)` (which skips a narrower set of whitespace than `str.strip()`), `str(int)` |
| `rag_status.dfy` | `RagStatus` | `RAG_STATUS`, `_set_status`, `get_rag_status` |
| `chunking.dfy` | `Chunking` | `csv_df_to_grouped_docs` |
| `tenpo.dfy` | `Tenpo` | `load_tenpo2511_as_long_df` (after reading), `tenpo_long_df_to_docs` |
| `fingerprint.dfy` | `Fingerprint` | `compute_data_fingerprint` |
| `vectorstore.dfy` | `VectorStore` | `initialize_vectorstore`, `initialize_rag` |
| `recommendation.dfy` | `Recommendation` | the answer handling of `generate_recommendation` |
| `views.dfy` | `Views` | `chat_view`, `_get_bookmarks`, `bookmark_remove`, `_get_profile`, `mypage_view` |

What changes state in place is modelled as classes and methods:
- The status record is `RagStatus.StatusTracker`. A ghost `history` field lists every snapshot a poller could observe, starting with the initial `idle` record.
- The database directory is `VectorStore.VectorDb`.
- The Django session is `Views.Session`, a class over a `map` from key to value.

The loops of the source are `while`/`for` loops proved against specification functions. Those functions carry the properties as lemmas. The pure parts are functions:
- the rebuild condition;
- the percentage formula;
- the headline/body split;
- the reshape.

Parameters stand for what the code delegates to libraries:
- `digest` is SHA-256 of the JSON text of the file list.
- `toJson` is `DataFrame.to_json(orient="records")`.
- `showNum` is numpy's rendering of a number in an f-string.
- The file walk is the sequence of files found, in discovery order.
- What `qa_chain.invoke` returned or raised is an `Invocation` value.
- The API key is an `Option<string>`.
- Whether `setup_qa_chain` succeeds is a boolean.

Two behaviours of the code are worth stating directly:
- `tenpo_long_df_to_docs` writes the store count into each sentence (`…の店舗数は{sc}。`).
- A failed `initialize_rag` only leaves the chain unset. Nothing in `rag_service.py` moves the status record to `error`, so `VectorDb.InitializeRag` never does either: a failed build leaves the last `building` record. The caller that may set `error` is not part of this model.

## Model

| member | source | states |
|---|---|---|
| Common.Trunc | ijunavi/rag_service.py:79 | `int()` of a float truncates toward zero: the result is the integer part, below for positive and above for negative values |
| Text.Strip | ijunavi/views.py:53 | the result is the input without its leading and trailing whitespace: a contiguous slice, empty exactly when the input is all whitespace, otherwise starting and ending with a non-space |
| Text.StripIdempotent | ijunavi/views.py:53 | stripping twice equals stripping once |
| Text.Digits | ijunavi/views.py:62 | the `isdigit()` characters of the message, in order: every kept character is a digit, and the result is empty exactly when the message has no digit |
| Text.DigitsAppend | ijunavi/views.py:62 | filtering digits distributes over concatenation |
| Text.DigitsOfDigitString | ijunavi/views.py:62 | a string made only of digits is kept whole |
| Text.NatToStringDecimal | ijunavi/views.py:70 | `str(n)` consists of decimal digits and has no leading zero |
| Text.NatToStringAscii | ijunavi/views.py:70 | `str(n)` uses only the ASCII digits `0` to `9` |
| Text.NatToStringRoundTrip | ijunavi/views.py:70 | reading back the decimal rendering of `n` gives `n` |
| Text.ParseIntRoundTrip | ijunavi/views.py:163 | `ParseInt(IntToString(i)) == i` (`int(str(i)) == i`) for every integer within the digit limit, negative ones included |
| Text.ParseJoinedDigits | ijunavi/views.py:61-64 | `ParseInt` (`int()`) of joined `isdigit()` characters fails exactly on the empty string, on a digit that is not decimal (such as a superscript), or beyond the 4300-digit limit; otherwise it is the decimal value of the digits |
| Text.JoinedDecimal | ijunavi/views.py:62-64 | a non-empty string of decimal digits reads as its decimal value, or fails when it has more than 4300 digits |
| Text.TooManyDigits | ijunavi/views.py:62-64 | a literal of more than 4300 digits is refused |
| Text.JoinedNotDecimal | ijunavi/views.py:62-64 | joined `isdigit()` characters of which one is not a decimal digit are refused |
| Text.ParseIntWhitespace | ijunavi/views.py:163 | `int()` ignores the whitespace it skips around a literal (`str.isspace()` characters other than the ASCII separators U+001C to U+001F), and fails on a text without any decimal digit |
| Text.ParseIntSeparatorPadded | ijunavi/views.py:163 | an ASCII separator U+001C to U+001F is `isspace()` whitespace but not `int()` whitespace: a literal with one at either end is refused |
| Text.DigitsAroundNumber | ijunavi/views.py:62 | a text that holds `str(n)` and no other digit yields exactly the digits of `str(n)` |
| Text.DigitsAroundRun | ijunavi/views.py:62 | a text with a single run of digits yields exactly that run |
| RagStatus.ApplyChangesOnlyPassedKeys | ijunavi/rag_service.py:51-53 | `Apply` (`_set_status`) changes exactly the passed keys to the passed values; every other field is unchanged |
| RagStatus.ApplyIdempotent | ijunavi/rag_service.py:51-53 | repeating an update changes nothing more |
| RagStatus.ApplyMerge | ijunavi/rag_service.py:51-53 | two successive updates equal one in which the later keys win |
| RagStatus.FullUpdateOverwrites | ijunavi/rag_service.py:253-260 | an update passing all six keys sets the whole record, whatever it held |
| RagStatus.StatusTracker.constructor | ijunavi/rag_service.py:37-44 | the record starts `idle` with zero counts and empty texts |
| RagStatus.StatusTracker.GetRagStatus | ijunavi/rag_service.py:47-49 | returns a value copy of the record |
| RagStatus.StatusTracker.SetStatus | ijunavi/rag_service.py:51-53 | the new record is the old one updated with the passed keys, and the new snapshot is appended to the observable history |
| RagStatus.SnapshotSurvivesUpdate | ijunavi/rag_service.py:47-53 | a snapshot taken before an update is unaffected by it; the one after is the old one with the update applied |
| Chunking.CeilDiv | ijunavi/rag_service.py:58 | `ceil(n/d)`: the least `q` with `q*d >= n` |
| Chunking.CeilDivUnique | ijunavi/rag_service.py:58 | those two bounds single out `ceil(n/d)` |
| Chunking.RangeSize | ijunavi/rag_service.py:58-59 | each of the `ceil(total/g)` ranges starts inside the table, and all but the last are full |
| Chunking.RowRangesTile | ijunavi/rag_service.py:55-68 | the documents tile the table: none for an empty table, the first starts at row 1, the last ends at `total`, each starts right after the previous, each holds 1 to `g` rows, all but the last exactly `g` |
| Chunking.CsvRangeDoc | ijunavi/rag_service.py:59-67 | one document covers rows `start+1` through `end`, carries the source name, and its text is the file name, the row range and the JSON of exactly those rows |
| Chunking.CsvDfToGroupedDocs | ijunavi/rag_service.py:55-68 | yields `ceil(total/g)` documents, document `k` covering rows `k*g+1` through `min(k*g+g, total)`, each carrying the source name and the text of its own rows |
| Tenpo.RenameColumns | ijunavi/rag_service.py:108-109 | with at least two columns, the second becomes `timing` and the first `year`, or `timing` when both labels are equal; a label repeating the first or second is renamed with it, every other label is kept, and so is the column count; fewer than two columns are left as they are |
| Tenpo.PresentOf | ijunavi/rag_service.py:115 | `IdColumns`, built with it, holds exactly the candidates `year`, `timing`, `集計日` that are columns |
| Tenpo.Without | ijunavi/rag_service.py:120 | the kept columns are exactly those not excluded |
| Tenpo.PrefColumnsExclude | ijunavi/rag_service.py:119-120 | `PrefColumns`: a column is a prefecture column exactly when it is none of `year`, `timing`, `集計日`, `合計` |
| Tenpo.ReshapeErrorIff | ijunavi/rag_service.py:115-117 | `ReshapeToLong` raises exactly when none of `year`, `timing`, `集計日` is a column after renaming, which needs fewer than two columns |
| Tenpo.MeltColumn | ijunavi/rag_service.py:122-130 | melting one column yields at most one long row per table row |
| Tenpo.MeltColumnMembers | ijunavi/rag_service.py:122-130 | a long row comes from a column exactly when some table row has a numeric cell there with that count and those id values: non-numeric cells are dropped and nothing is invented |
| Tenpo.MeltColumnAppend | ijunavi/rag_service.py:122-130 | melting stacked tables stacks the melted rows: the melt keeps row order |
| Tenpo.MeltColumnRow | ijunavi/rag_service.py:122-130 | a single row melts to one long row, with its id values, the column name and the number, exactly when its cell is numeric, and to none otherwise |
| Tenpo.MeltColumnCount | ijunavi/rag_service.py:122-130 | a column melts to exactly as many long rows as it has numeric cells |
| Tenpo.NumericRowsSnoc | ijunavi/rag_service.py:129-130 | one more table row adds one numeric cell exactly when its cell is numeric |
| Tenpo.MeltPrefectures | ijunavi/rag_service.py:122-127 | every row of `Melt` names one of the prefecture columns |
| Tenpo.MeltMembers | ijunavi/rag_service.py:122-130 | a long row is in `Melt` exactly when its prefecture is one of the melted columns and the row comes from that column |
| Tenpo.ReshapeToLongRows | ijunavi/rag_service.py:105-142 | the long table `ReshapeToLong` returns holds exactly the rows whose prefecture is a column other than `year`, `timing`, `集計日`, `合計`, drawn from a table row whose cell there is numeric, with that number and that row's id values |
| Tenpo.ToNumericRendered | ijunavi/rag_service.py:129 | `ToNumeric` (`pd.to_numeric`) reads the rendered text of every integer back as that number |
| Tenpo.ToNumericUnsigned | ijunavi/rag_service.py:129 | a string of ASCII digits reads as its decimal value |
| Tenpo.ToNumericSigned | ijunavi/rag_service.py:129 | a `-` followed by ASCII digits reads as the negated value |
| Tenpo.JoinLinesCount | ijunavi/rag_service.py:161 | joining `n` lines without a line break yields `n - 1` line breaks |
| Tenpo.TenpoLineNoBreak | ijunavi/rag_service.py:151-160 | the sentence `TenpoLine` builds for a long row whose rendered values contain no line break has no line break |
| Tenpo.PartPage | ijunavi/rag_service.py:151-161 | the inner loop builds exactly one sentence per long row, in order, joined by line breaks |
| Tenpo.RangeDoc | ijunavi/rag_service.py:148-164 | one document covers rows `start+1` through `end`, with the sentences of exactly those rows |
| Tenpo.TenpoLongDfToDocs | ijunavi/rag_service.py:144-165 | the same row ranges as the generic grouping, and each document's text is the sentences of its own rows |
| Tenpo.OneLinePerRow | ijunavi/rag_service.py:151-161 | when no rendered value of the rows contains a line break, a document has exactly one line per long row it covers |
| Fingerprint.LexLeTotal | ijunavi/rag_service.py:81 | Python's string order is total |
| Fingerprint.LexLeAntisymmetric | ijunavi/rag_service.py:81 | Python's string order is antisymmetric |
| Fingerprint.LexLeTransitive | ijunavi/rag_service.py:81 | Python's string order is transitive |
| Fingerprint.Insert | ijunavi/rag_service.py:81 | insertion adds exactly the one entry |
| Fingerprint.SortByName | ijunavi/rag_service.py:81 | the sort is a permutation of its input |
| Fingerprint.InsertSorted | ijunavi/rag_service.py:81 | insertion keeps a list sorted by name |
| Fingerprint.SortByNameSorted | ijunavi/rag_service.py:81 | the sorted list is in ascending order of names |
| Fingerprint.InsertWithName | ijunavi/rag_service.py:81 | insertion into a sorted list places the entry after every entry of the same name |
| Fingerprint.SortByNameStable | ijunavi/rag_service.py:81 | the sort is stable: the entries of each name keep their order of discovery |
| Fingerprint.WithNameAppend | ijunavi/rag_service.py:81 | the entries of one name in two lists put together are those of the first list, then those of the second |
| Fingerprint.SortedUnique | ijunavi/rag_service.py:81-84 | two name-sorted lists without repeated names that hold the same entries are equal |
| Fingerprint.AllowedItems | ijunavi/rag_service.py:72-80 | only allow-listed names are recorded, at most one entry per file found |
| Fingerprint.AllowedItemsMembers | ijunavi/rag_service.py:72-80 | an entry is recorded exactly when an allow-listed file with that name, size and truncated mtime was found |
| Fingerprint.ComputeDataFingerprint | ijunavi/rag_service.py:70-85 | the loop yields the fingerprint function: the allow-listed entries sorted by name, and the digest of that list |
| Fingerprint.FingerprintShape | ijunavi/rag_service.py:72-81 | the `files` list holds only allow-listed names, is sorted by name and holds exactly the entries found |
| Fingerprint.DistinctNamesOfPermutation | ijunavi/rag_service.py:81 | reordering keeps names distinct |
| Fingerprint.DistinctCountsOne | ijunavi/rag_service.py:81 | in a list without repeated names every entry occurs once |
| Fingerprint.DiscoveryOrderIrrelevant | ijunavi/rag_service.py:72-84 | the same entries found in any order give the same list and the same hash |
| Fingerprint.HashDetectsChange | ijunavi/rag_service.py:83-84 | under an injective digest, different sets of entries give different hashes |
| Fingerprint.SubsecondChangeInvisible | ijunavi/rag_service.py:79 | an mtime change within the same whole second does not change the recorded entries |
| VectorStore.DecideReuseIff | ijunavi/rag_service.py:221-223 | `Decide` reuses the index exactly when the directory holds files and the saved fingerprint is an object whose `hash` equals the current one |
| VectorStore.DecideFailsIff | ijunavi/rag_service.py:223 | the condition itself raises exactly on a truthy saved value that is not an object |
| VectorStore.SavedFingerprintReused | ijunavi/rag_service.py:95-97 | the fingerprint a build saves makes the next check reuse the index while the files are unchanged |
| VectorStore.PercentBounds | ijunavi/rag_service.py:268 | `PercentOf` is the floor of `done*100/total`, lies in 0..100 and is 100 at `done == total` |
| VectorStore.PercentMonotone | ijunavi/rag_service.py:268 | the percentage never decreases as `done` grows |
| VectorStore.BatchCountsBounds | ijunavi/rag_service.py:263-267 | the counts after each batch strictly increase, stay within `total`, end at `total`, and are none exactly when no batch is left |
| VectorStore.TraceFromBounds | ijunavi/rag_service.py:263-276 | each batch record says `building` for `total`, with a count above the batch start and within `total` and a percentage of at most 100; the last count is `total` |
| VectorStore.TraceFromMonotone | ijunavi/rag_service.py:263-276 | along the batches `current` strictly increases and `percent` never decreases |
| VectorStore.BuildTraceEnds | ijunavi/rag_service.py:252-287 | `BuildTrace` opens with `building` at 0, publishes `building` records whose last batch reaches `total`, and ends with `ready` at `current == total` and `percent == 100` |
| VectorStore.BuildTraceBounded | ijunavi/rag_service.py:252-287 | every published record has `0 <= current <= total` and `0 <= percent <= 100` |
| VectorStore.BuildTraceProgress | ijunavi/rag_service.py:252-276 | until the final record, `current` strictly increases and `percent` never decreases |
| VectorStore.BuildTraceAfter | ijunavi/rag_service.py:252-287 | the opening record, the batch records and the final record make up the build trace |
| VectorStore.EmptyBuildTrace | ijunavi/rag_service.py:252-287 | with no chunks the loop never runs: `building` at 0/0, then `ready` at 100 |
| VectorStore.PublishedStep | ijunavi/rag_service.py:267-276 | publishing one batch record moves it from the remaining trace to the history |
| VectorStore.TraceFromStep | ijunavi/rag_service.py:263-268 | the remaining trace is the next batch's record, then the rest |
| VectorStore.RecordsCons | ijunavi/rag_service.py:269-276 | the records of a count followed by more counts |
| VectorStore.CompletesAt | ijunavi/rag_service.py:263-265 | a loop stopped before batch `k`, with every earlier batch added, added every chunk exactly when batch `k` starts at or past the end |
| VectorStore.LastBuildingAtEnd | ijunavi/rag_service.py:263-276 | once the loop has passed the end, the last record is `building` with `current == total` and `percent` 100 (0 for no chunks) |
| VectorStore.CutTraceIsPrefix | ijunavi/rag_service.py:252-287 | a build cut short has published a proper prefix of the full build trace, made only of `building` records |
| VectorStore.VectorDb.AddInBatches | ijunavi/rag_service.py:252-276 | publishes the opening `building` record, then adds the batches; when none raises, the index gains every chunk in order, the history gains the opening record and one record per batch, and the record reads `current == total`; when batch `failAt` raises, exactly the earlier batches are added and published and the record is the last `building` one; `ok` says which case happened; the directory and the fingerprint file are untouched |
| VectorStore.VectorDb.RunBatches | ijunavi/rag_service.py:263-276 | the loop stops at the end of the chunks or at the failing batch, with exactly the batches before it added, their records published and the last of them as the record |
| VectorStore.VectorDb.AddBatch | ijunavi/rag_service.py:263-276 | the batch starting at `i` (200 chunks, fewer only at the end) is appended to the index, and exactly its record, with `current == i + len(batch)` and its percentage, is published and becomes the record |
| VectorStore.VectorDb.RebuildIndex | ijunavi/rag_service.py:239-287 | the directory is cleared; without a failing batch the index holds exactly the chunks, the fingerprint is saved, the history gains the whole build trace and the record is `ready` with `current == total` and `percent == 100`; after a failing batch the index holds exactly the earlier batches, no fingerprint file exists, and the history gains a proper prefix of the trace made only of `building` records |
| VectorStore.VectorDb.InitializeVectorstore | ijunavi/rag_service.py:204-290 | a missing or empty key changes nothing; otherwise the outcome follows the decision: a saved value that is not an object raises before anything changes; reuse publishes only the reused record; a rebuild indexes exactly the chunks, saves the fingerprint, publishes the build trace, leaves `ready` with `current == total` and `percent == 100`, and makes the next check reuse; a failing batch leaves the earlier batches indexed, no fingerprint, a `building` record, and makes the next check rebuild |
| VectorStore.VectorDb.InitializeRag | ijunavi/rag_service.py:355-385 | chunks are loaded only when a rebuild is due; the chain is ready exactly when a key is set, the chain is built and the index is reused or fully rebuilt; a raising check or a missing key changes nothing; reuse publishes only the reused record; a full rebuild indexes exactly the chunks, saves the fingerprint, publishes the build trace and leaves `ready` at `current == total`; after reuse or a full rebuild the next check reuses; a failed build leaves the earlier batches indexed, no fingerprint file, only `building` records added with the last batch's record current, and the next check rebuilding, so no failure moves the record to `error` |
| Recommendation.NewlineIndex | ijunavi/rag_service.py:402 | the position of the first line break, or the length when there is none |
| Recommendation.SplitOnce | ijunavi/rag_service.py:402 | `split('\n', 1)` returns one or two parts, two exactly when there is a line break, and joining them with the break gives back the answer |
| Recommendation.HeadlineAndBody | ijunavi/rag_service.py:402-404 | the headline is the first line stripped and has no line break (the fallback is unreachable); without a line break the body is the headline, otherwise the rest stripped |
| Recommendation.BaseName | ijunavi/rag_service.py:413 | `Path(p).name` contains no `/` |
| Recommendation.LastSegment | ijunavi/rag_service.py:413 | the text after the last `/` is a suffix without `/` |
| Recommendation.BaseNameOfFileName | ijunavi/rag_service.py:413 | a plain file name is its own base name |
| Recommendation.PlainSegment | ijunavi/rag_service.py:413 | a string without `/` is its own last segment |
| Recommendation.SourceNames | ijunavi/rag_service.py:413 | one name per source document |
| Recommendation.FirstSeen | ijunavi/rag_service.py:410-417 | the de-duplicated names hold every name that occurs, and each once |
| Common.FirstIndex | ijunavi/rag_service.py:414 | the first position of a value: holding it and preceded only by other values (also the column a label selects) |
| Recommendation.FirstIndexOfPrefix | ijunavi/rag_service.py:414 | a first position does not move when more names follow |
| Recommendation.FirstSeenOrder | ijunavi/rag_service.py:410-417 | the names are listed in the order of their first occurrence |
| Recommendation.FirstSeenPrefix | ijunavi/rag_service.py:412-419 | the names first seen in a prefix lead the names first seen in the whole list |
| Recommendation.FirstSeenSnoc | ijunavi/rag_service.py:414-417 | one more name is listed after the others unless already seen |
| Recommendation.Take | ijunavi/rag_service.py:418-419 | the first `min(n, len)` names |
| Recommendation.SourceLinesSnoc | ijunavi/rag_service.py:415 | reference lines distribute over appending a name |
| Recommendation.SpotsStep | ijunavi/rag_service.py:413-417 | one round adds the name to the seen set, and a line and one to the count exactly when the name is new |
| Recommendation.TakeAll | ijunavi/rag_service.py:412-419 | fewer than three distinct names are all listed |
| Recommendation.TakeAtLimit | ijunavi/rag_service.py:418-419 | once three names are listed the loop stops with exactly the first three distinct names |
| Recommendation.VisitName | ijunavi/rag_service.py:413-417 | one loop round keeps the count, the seen set and the lines equal to those of the prefix one longer |
| Recommendation.NameSpots | ijunavi/rag_service.py:409-419 | the separator, then the first three distinct names in order of first appearance as reference lines |
| Recommendation.SourceSpots | ijunavi/rag_service.py:408-419 | the same for the sources' base names, with `不明` for a missing `source` |
| Recommendation.GenerateRecommendation | ijunavi/rag_service.py:387-432 | a failed initialization and a raised invocation give the fixed error results; otherwise the headline and the body come from the answer (or the default answer), then the source lines only when there are sources |
| Recommendation.ListedSources | ijunavi/rag_service.py:408-419 | at most three names, no name twice, each a source's name, in first-appearance order, and fewer than three only when every name is listed |
| Views.ReplyWith | ijunavi/views.py:52-83 | `Reply`, with the age `int()` reads, keeps the chat flag, appends the user message and one or two bot messages, ends at step 2 unless it stays at 1, and adds or changes no answer but `age` |
| Views.WithoutChatKeys | ijunavi/views.py:86-89 | `reset` removes exactly the four chat keys and keeps every other key and value |
| Views.ChatView | ijunavi/views.py:26-97 | a GET changes nothing; `start`, non-blank `send` on an active chat, and `reset` write exactly their keys and answer with the page or the redirect; a blank or inactive `send` and any other action change nothing |
| Views.StartChat | ijunavi/views.py:41-49 | `start` writes the flag, the three opening messages, step 1 and empty answers |
| Views.SendChat | ijunavi/views.py:52-83 | a non-blank `send` writes `answers` at step 1 only, then `messages` and `step`, as the reply says |
| Views.AgeReply | ijunavi/views.py:55-75 | the step-1 branch computes exactly the reply: the retry message, or the stored age with its two messages and step 2 |
| Views.StartedChat | ijunavi/views.py:41-49 | after `start` the chat reads as active at step 1 with no answers and exactly three bot messages ending with the age question |
| Views.ResetRestartsChat | ijunavi/views.py:32-35 | after `reset` the chat reads with the defaults: inactive, no messages, step 0, no answers; other keys survive |
| Views.AgeAccepted | ijunavi/views.py:58-73 | at step 1 an age `int()` accepts is stored as the decimal value of the joined digits; the confirmation and trial-end messages follow and the step is 2 |
| Views.AgeRejected | ijunavi/views.py:60-67 | at step 1 a message `int()` rejects gets the retry message; step and answers are unchanged |
| Views.NoDigitsRejected | ijunavi/views.py:62-67 | a message without digits is rejected |
| Views.SuperscriptRejected | ijunavi/views.py:62-67 | a superscript digit counts for `isdigit()` but makes `int()` fail, so `2²` is rejected |
| Views.AgeInSentence | ijunavi/views.py:62-70 | a number inside a sentence without other digits is read as that number and confirmed |
| Views.NumbersRunTogether | ijunavi/views.py:62 | all digits are joined, so `20歳、3人` is read as 203 |
| Views.SampleDigits | ijunavi/views.py:62 | the digits of `20歳、3人` are `203` |
| Views.SampleValue | ijunavi/views.py:62 | `203` denotes 203 |
| Views.LaterStepNotConfigured | ijunavi/views.py:77-80 | at any step but 1 the reply is the user message plus the "not configured" message, at step 2 |
| Views.StepStaysInRange | ijunavi/views.py:34 | from steps 0 to 2 a reply moves to step 1 or 2 and never back |
| Views.RemoveAt | ijunavi/views.py:165 | `pop(i)` removes exactly the element at `i`; the others keep their order |
| Views.RemovalIndex | ijunavi/views.py:160-164 | an index is used exactly when one is given, `int()` accepts it and it lies in `0 <= i < len`; the position used is the value `int()` read |
| Views.GetBookmarks | ijunavi/views.py:116-128 | returns the stored list, storing `[]` when there is none |
| Views.BookmarkRemove | ijunavi/views.py:157-169 | on a POST the bookmark at a valid index is removed and any other index leaves the list as it was; a GET changes nothing |
| Views.RemoveRenderedIndex | ijunavi/views.py:163-166 | the index `str(i)` of a listed bookmark removes exactly that one |
| Views.NegativeIndexIgnored | ijunavi/views.py:163-164 | a negative index is never taken as a count from the end |
| Views.SeparatorIndexIgnored | ijunavi/views.py:162-164 | an index with an ASCII separator U+001C to U+001F at either end removes nothing, because `int()` raises on it |
| Views.HistoryLines | ijunavi/views.py:134-143 | one line per message among the last two, or the single "no history yet" line |
| Views.MypageView | ijunavi/views.py:130-148 | through `_get_profile`, a missing or empty profile is replaced by the placeholder, which is stored; an existing one is returned unchanged; the history lines are those of the chat messages |

## Left out

- Embedding, the Chroma store, the chat model and `RetrievalQA`: their effects are the document list of `VectorDb` and the `Invocation` parameter.
- VectorStore.VectorDb.AddInBatches: which batch `add_documents` raises on is the parameter `failAt`. A failing batch is modelled as adding none of its chunks, and the loop stops before it. Chroma adding part of a batch before raising is not modelled.
- `setup_qa_chain` and the prompt template: whether a chain was built is a parameter of `VectorDb.InitializeRag`.
- The lazy global `qa_chain` cache: `Recommendation.GenerateRecommendation` takes whether a chain is available after `initialize_rag()`.
- `RAG_LOCK` and the threads that poll the record: the status record is one sequential object; its ghost history stands for what pollers can observe.
- `pd.read_csv`, the `cp932` fallback of `_read_csv_safely`, and the file walk `rglob`/`stat`: the tables and the files found are inputs.
- `load_saved_fingerprint` and `save_fingerprint`: the fingerprint file is a field holding its parsed value. JSON text and its parsing are not modelled, and the saved `files` list is reduced to its truthiness.
- SHA-256 and `json.dumps`: the digest is a function parameter.
- `load_and_split_documents`: the driver over files, its per-file error isolation and the `RecursiveCharacterTextSplitter`. Its result is the `loadChunks` parameter of `VectorDb.InitializeRag`.
- `print` and `traceback` logging.
- `shutil.rmtree` and `os.makedirs`: these are the resets of the `VectorDb` fields.
- Environment variables: the API key is a parameter.
- The race between the fingerprint computed in `initialize_rag` and the one in `initialize_vectorstore`: both see the same files here.
- Chunking.CsvDfToGroupedDocs: requires `groupRows > 0`. Python's `range` raises for step 0, and every caller passes 800.
- Tenpo.TenpoLongDfToDocs: requires `groupRows > 0`, for the same reason; every caller passes 1200.
- Tenpo.ReshapeToLong: a table whose labels repeat after renaming is outside the model (pandas would then select several columns by one label).
- Tenpo.ToNumeric covers numbers and optionally signed ASCII digit strings. `pd.to_numeric`'s other accepted texts (decimals, exponents) are not modelled.
- Tenpo.CellText: numpy's rendering of a number is the parameter `showNum`.
- Tenpo.Cell: numbers are finite reals. A cell `pd.read_csv` reads as a float infinity (`inf`, `-inf`, `Infinity`) survives `pd.to_numeric` and `dropna`, and then makes `int(r["store_count"])` raise `OverflowError` while the rows are turned into sentences; that raising path is not modelled.
- VectorStore.PercentOf: `int(done * 100 / total)` is computed on exact integers. Float rounding of the ratio is not modelled. For totals below 2^40 the rounding error stays below the distance `1/total` to the next integer, so the floor agrees, but that argument is not part of the proofs.
- Fingerprint.DiscoveryOrderIrrelevant: requires the allow-listed entries to have distinct names. Two files with the same base name in different sub-folders keep their discovery order under the stable sort, so the hash can then depend on that order.
- Text.IsDecimal and Text.IsOtherDigit: `int()` is modelled for ASCII, Arabic-Indic, extended Arabic-Indic, Devanagari and full-width decimal digits. `isdigit()` additionally accepts, in this model, the superscript and subscript digits, the Ethiopic digits U+1369–U+1371, U+19DA, and the enclosed digits U+2460–2468, U+2474–247C, U+2488–2490, U+24EA, U+24F5–24FD, U+24FF, U+2776–277E, U+2780–2788 and U+278A–2792. Decimal digits of other scripts and all digits outside the Basic Multilingual Plane are not part of this model.
- Views.Session: the session holds values of the kinds the views write (`WellTyped`); a session whose keys hold other types is outside the model.
- `chat_history`, `bookmark_view`, `top`, `login_view`, `signup_view` and the redirects' targets: these only render templates.
- Template rendering: the page context is the returned value.
