# Bloom-filter cache and search-side helpers of an Elasticsearch fork, in Dafny

This project models the per-segment Bloom-filter cache of an Elasticsearch
index (`SimpleBloomCache`) and ten smaller pieces of code around it. It proves
what each piece promises. One Dafny module stands for one Java file:

| module | Java class | form |
|---|---|---|
| `BloomCache` | `SimpleBloomCache` and its loader and entry | a class over nested maps, with a queue of pending loaders |
| `AbstractFieldMapper` | the common field mapper, its builder, `merge`, `parse`, `doXContentBody` | builder and mapper classes; pure rules for defaults and conflicts |
| `TypeParsers` | the mapping-option parsers | pure value parsers; entry loops through the builder's setters |
| `BooleanFieldMapper` | the boolean field mapper, its builder and type parser | classes over the common mapper; pure encodings |
| `FetchPhase` | the field selector, hit loop, field grouping and extraction of the fetch phase | methods with loops, each proved against a function |
| `UidField` | the uid field, its version scans and its one-token stream | scan loops; a class for the field and one for the stream |
| `Lucene` | version parsing, top-docs and explanation streams, the exists collector | writers and readers as loops, proved against encode/decode functions |
| `HighlightBuilder` | the highlight request builder | a class with setters; `toXContent` writes an event sequence |
| `PublicTermsFilter` | the sorted terms filter | a class over a sorted sequence; bit set in an array |
| `SimilarityService` | the registry of similarity providers | a registry-building loop; lookups |
| `ReplicationRequest` | `IndexReplicationOperationRequest` | a class with setters; stream form as tokens |

`Wrappers` holds `Option` and `Result`. `XContent` stands for the
XContentBuilder: a written document is the sequence of its events
(`StartObject(name)`, `Field(key, value)`, `EndObject`).

How the system's notions appear in the model:

- The cache is a map from a segment's core key to a table, and a table maps a
  field name to an entry. An entry holds the doc count at build time, the
  filter (`Empty`, `None` or `Built(keys)`) and the `loading` flag. The
  compare-and-set of `loading` is a test of the flag followed by an update of
  the entry.
- A segment is its core key, its live doc count, whether it is a
  `SegmentReader`, its postings (field to term to documents) and its live
  documents.
- `filter(reader, field, asyncLoad)` is the function `Lookup`. It returns the
  new cache state, the filter handed back and the number of loaders launched.
  The method `SimpleBloomCache.Filter` is proved to do what `Lookup` says.
- An asynchronous load goes to a queue of pending loaders.
  `RunPendingTask` stands for the executor running the oldest one. A
  synchronous load runs inline. Whether a load throws is the parameter
  `fails`.
- Streams (`StreamInput`/`StreamOutput`) are sequences of tokens: a bool, a
  byte, a vint, a float, a UTF string and so on. A reader reads from a
  position and returns the value with the next position, or an error.
- Helpers of other classes are parameters of the model. This covers
  `Strings.toUnderscoreCase`, the `node*Value` conversions (which may
  raise), `Booleans.parseBoolean`,
  `Numbers.bytesToLong`/`longToBytes`, `ReplicationType.fromId`/`id`, the
  analyzer lookup, `Uid.createUid`, the document-mapper lookup, a mapper's
  `valueForSearch`, the source lookup and a term's `hashCode`.
- A Java `null` is `None`. An exception is an `Err` or `Fail` value that
  names it.

In three points the cache's code does something other than its evident
design, and the model follows the code:

- The reload test divides `currentNumDocs / filter.numDocs` as Java ints and
  then compares the quotient with 0.6. The quotient is 0 or at least 1, so
  the reload fires on any drop of the live count below the recorded count,
  not only after 40% of the documents were deleted
  (`BloomCache.ReloadWantedIff`, `BloomCache.ReloadOnSmallDrop`). At 9000
  live docs against a recorded 10000, the code launches a reload.
- A loader that throws never resets `loading`, so that entry is never
  reloaded again (`BloomCache.FailedLoadBlocksReloads`). A design that retries
  later would reset the flag here.
- The thresholds 1000 and 0.6 are constants in the code. Only the maximum
  size is configurable, and the model takes it as a constructor parameter.

## Model

| member | source | states |
|---|---|---|
| `BloomCache.JavaIntDiv` | src/main/java/org/elasticsearch/index/cache/bloom/simple/SimpleBloomCache.java:156 | Java int division truncates toward zero; on non-negative operands it is the mathematical quotient |
| `BloomCache.ReloadWanted` | src/main/java/org/elasticsearch/index/cache/bloom/simple/SimpleBloomCache.java:156 | the reload rule as written: recorded count above 1000 and below maxSize, and the Java int quotient of the live count over the recorded count below the double 0.6 |
| `BloomCache.ReloadWantedIff` | src/main/java/org/elasticsearch/index/cache/bloom/simple/SimpleBloomCache.java:156 | the reload test with its int quotient compared to 0.6 holds exactly when the recorded count is above 1000 and below maxSize and the live count has dropped below the recorded count at all |
| `BloomCache.WithTable` | src/main/java/org/elasticsearch/index/cache/bloom/simple/SimpleBloomCache.java:121-133 | after the table step the reader's core key has a table |
| `BloomCache.WithEntry` | src/main/java/org/elasticsearch/index/cache/bloom/simple/SimpleBloomCache.java:134-154 | after the entry step the reader's table holds an entry for the field |
| `BloomCache.SumMapRemove` | src/main/java/org/elasticsearch/index/cache/bloom/simple/SimpleBloomCache.java:91-101 | the accumulated size does not depend on the order of the tables: removing one key takes exactly its share out |
| `BloomCache.LoadedFilter` | src/main/java/org/elasticsearch/index/cache/bloom/simple/SimpleBloomCache.java:184-199 | the filter a successful load builds: sized for the reader's doc count, holding each term of the field that has at least one live document |
| `BloomCache.Publish` | src/main/java/org/elasticsearch/index/cache/bloom/simple/SimpleBloomCache.java:201-218 | what a loader does to the tables: nothing when it throws; otherwise, if the reader's table still holds the field, that entry replaced by the new filter with the doc count at build time and loading cleared |
| `BloomCache.Launch` | src/main/java/org/elasticsearch/index/cache/bloom/simple/SimpleBloomCache.java:144-150 | a launched loader is queued on the executor when asynchronous, and otherwise runs at once and publishes its result |
| `BloomCache.Lookup` | src/main/java/org/elasticsearch/index/cache/bloom/simple/SimpleBloomCache.java:115-168 | `filter(reader, field, asyncLoad)` as a function of the cache state: EMPTY and nothing changed for a reader without docs; otherwise the table and entry created on first access, with a first load when the reader has fewer than maxSize docs; a reload when the reload rule holds and the loading flag was clear; the entry's filter as the caller sees it afterwards; and the number of loaders launched |
| `BloomCache.RunNext` | src/main/java/org/elasticsearch/index/cache/bloom/simple/SimpleBloomCache.java:146 | the executor running the oldest queued loader and publishing its result; nothing when the queue is empty |
| `BloomCache.SimpleBloomCache.constructor` | src/main/java/org/elasticsearch/index/cache/bloom/simple/SimpleBloomCache.java:59-65 | a new cache holds no table, no pending loader and no listener, with the given max size, and keeps the invariant |
| `BloomCache.SimpleBloomCache.Clear` | src/main/java/org/elasticsearch/index/cache/bloom/simple/SimpleBloomCache.java:72-75 | `clear()` drops every table and touches nothing else |
| `BloomCache.SimpleBloomCache.Close` | src/main/java/org/elasticsearch/index/cache/bloom/simple/SimpleBloomCache.java:67-70 | `close()` is `clear()` |
| `BloomCache.SimpleBloomCache.ClearReader` | src/main/java/org/elasticsearch/index/cache/bloom/simple/SimpleBloomCache.java:82-89 | `clear(reader)` removes the table of the reader's core key and no other, and keeps the invariant |
| `BloomCache.SimpleBloomCache.OnClose` | src/main/java/org/elasticsearch/index/cache/bloom/simple/SimpleBloomCache.java:77-80 | the core-closed listener removes the owner's table and no other |
| `BloomCache.SimpleBloomCache.SizeInBytes` | src/main/java/org/elasticsearch/index/cache/bloom/simple/SimpleBloomCache.java:91-101 | the nested accumulator loop returns the sum of the filter sizes over every entry of every table |
| `BloomCache.SimpleBloomCache.SizeInBytesOf` | src/main/java/org/elasticsearch/index/cache/bloom/simple/SimpleBloomCache.java:103-113 | the loop returns the sum of the sizes of the entries named after the field, over all tables |
| `BloomCache.SimpleBloomCache.RunLoader` | src/main/java/org/elasticsearch/index/cache/bloom/simple/SimpleBloomCache.java:181-219 | the loader changes the tables exactly as the publish rule says and queues nothing |
| `BloomCache.SimpleBloomCache.StartLoader` | src/main/java/org/elasticsearch/index/cache/bloom/simple/SimpleBloomCache.java:144-150 | a loader is queued on the executor when asynchronous and runs inline otherwise |
| `BloomCache.SimpleBloomCache.RunPendingTask` | src/main/java/org/elasticsearch/index/cache/bloom/simple/SimpleBloomCache.java:146 | the executor runs the oldest queued loader exactly when one is queued; the new state is `RunNext` and the invariant is kept |
| `BloomCache.SimpleBloomCache.EnsureTable` | src/main/java/org/elasticsearch/index/cache/bloom/simple/SimpleBloomCache.java:121-133 | the table step of `filter`: creates and listens to the table only on the first access of a core key |
| `BloomCache.SimpleBloomCache.EnsureEntry` | src/main/java/org/elasticsearch/index/cache/bloom/simple/SimpleBloomCache.java:134-154 | the entry step of `filter`: the entry is created with the live count and NONE, and a first load is launched only below maxSize |
| `BloomCache.SimpleBloomCache.Filter` | src/main/java/org/elasticsearch/index/cache/bloom/simple/SimpleBloomCache.java:115-169 | the new state and the result are those of `Lookup`, the invariant is kept, and a reader with documents never gets EMPTY |
| `BloomCache.AddTermDocs` | src/main/java/org/elasticsearch/index/cache/bloom/simple/SimpleBloomCache.java:192-197 | the inner doc loop adds the term exactly when it has a live document |
| `BloomCache.LoadFilter` | src/main/java/org/elasticsearch/index/cache/bloom/simple/SimpleBloomCache.java:184-199 | the loader's filter answers "possibly present" exactly for the terms of the field that have a live document |
| `BloomCache.LookupZeroDocs` | src/main/java/org/elasticsearch/index/cache/bloom/simple/SimpleBloomCache.java:117-120 | a reader with no live documents gets EMPTY and the cache, the queue and the listeners are left exactly as they were |
| `BloomCache.LookupTables` | src/main/java/org/elasticsearch/index/cache/bloom/simple/SimpleBloomCache.java:121-133 | afterwards the key has a table holding the field; a new table holds only that field; other keys' tables are untouched; a close listener is registered exactly when a table is created for a segment reader |
| `BloomCache.LookupShape` | src/main/java/org/elasticsearch/index/cache/bloom/simple/SimpleBloomCache.java:134-167 | after the table step, `filter` only adds or changes the field's entry of the reader's table |
| `BloomCache.WithEntryShape` | src/main/java/org/elasticsearch/index/cache/bloom/simple/SimpleBloomCache.java:134-154 | the entry step changes no other entry and no other table |
| `BloomCache.MarkAndLaunchShape` | src/main/java/org/elasticsearch/index/cache/bloom/simple/SimpleBloomCache.java:155-166 | marking an entry loading and launching its loader changes no other entry and no other table |
| `BloomCache.LookupFirstAccess` | src/main/java/org/elasticsearch/index/cache/bloom/simple/SimpleBloomCache.java:134-154 | on first access the entry records the live count and NONE; a load is launched, with loading set, exactly when the count is below maxSize; otherwise the entry is NONE and not loading |
| `BloomCache.JavaIntDivSelf` | src/main/java/org/elasticsearch/index/cache/bloom/simple/SimpleBloomCache.java:156 | a count divided by itself is 1, so an unchanged count never reloads |
| `BloomCache.LookupExisting` | src/main/java/org/elasticsearch/index/cache/bloom/simple/SimpleBloomCache.java:155-168 | on an existing entry a reload is launched exactly under the reload rule with loading false; without one nothing changes, with one the entry is marked loading first |
| `BloomCache.LookupLaunchesAtMostOnce` | src/main/java/org/elasticsearch/index/cache/bloom/simple/SimpleBloomCache.java:134-167 | one call of `filter` launches at most one loader |
| `BloomCache.LookupWhileLoading` | src/main/java/org/elasticsearch/index/cache/bloom/simple/SimpleBloomCache.java:155-167 | while an entry is loading no call launches a loader or changes the cache |
| `BloomCache.FailedLoadBlocksReloads` | src/main/java/org/elasticsearch/index/cache/bloom/simple/SimpleBloomCache.java:156-167 | an inline reload that throws leaves loading set, so no later call for that entry launches a loader again |
| `BloomCache.ReloadOnSmallDrop` | src/main/java/org/elasticsearch/index/cache/bloom/simple/SimpleBloomCache.java:156 | one deleted document below a recorded 10000 already triggers a reload |
| `BloomCache.PublishOnlyReplaces` | src/main/java/org/elasticsearch/index/cache/bloom/simple/SimpleBloomCache.java:201-218 | the loader never creates a table or an entry; it replaces only the loaded field's entry, with the count at build time and loading false, and only after a successful load |
| `BloomCache.LoadedFilterMembership` | src/main/java/org/elasticsearch/index/cache/bloom/simple/SimpleBloomCache.java:184-199 | a built filter holds exactly the field's terms with a live document |
| `BloomCache.SetEntryConsistent` | src/main/java/org/elasticsearch/index/cache/bloom/simple/SimpleBloomCache.java:139-140 | storing a well-formed entry keeps the cache invariant |
| `BloomCache.Consistent` | src/main/java/org/elasticsearch/index/cache/bloom/simple/SimpleBloomCache.java:134-208 | the cache invariant: EMPTY is never stored, and an entry with no filter that is not loading belongs to a reader with at least maxSize docs |
| `BloomCache.PublishConsistent` | src/main/java/org/elasticsearch/index/cache/bloom/simple/SimpleBloomCache.java:201-208 | publishing keeps the invariant: EMPTY is never stored, and a NONE entry not loading belongs to a reader at or above maxSize |
| `BloomCache.LaunchConsistent` | src/main/java/org/elasticsearch/index/cache/bloom/simple/SimpleBloomCache.java:143-150 | launching a loader keeps the invariant |
| `BloomCache.LookupConsistent` | src/main/java/org/elasticsearch/index/cache/bloom/simple/SimpleBloomCache.java:115-169 | every `filter` call keeps the invariant |
| `BloomCache.RunNextConsistent` | src/main/java/org/elasticsearch/index/cache/bloom/simple/SimpleBloomCache.java:146 | running a queued loader keeps the invariant |
| `BloomCache.ClearReaderConsistent` | src/main/java/org/elasticsearch/index/cache/bloom/simple/SimpleBloomCache.java:82-89 | `clear(reader)` keeps the invariant |
| `BloomCache.LookupNeverEmpty` | src/main/java/org/elasticsearch/index/cache/bloom/simple/SimpleBloomCache.java:115-168 | on a cache that keeps the invariant, `filter` never hands back EMPTY for a reader with documents |
| `BloomCache.ClearReaderIdempotent` | src/main/java/org/elasticsearch/index/cache/bloom/simple/SimpleBloomCache.java:82-89 | `clear(reader)` twice is `clear(reader)` once, and other keys' tables are unchanged |
| `BloomCache.ClearReaderSize` | src/main/java/org/elasticsearch/index/cache/bloom/simple/SimpleBloomCache.java:82-101 | after `clear(reader)` the total size drops by exactly that reader's table |
| `BloomCache.ClearedSize` | src/main/java/org/elasticsearch/index/cache/bloom/simple/SimpleBloomCache.java:72-75 | after `clear()` both sizes are 0 |
| `BloomCache.RestrictedTableSize` | src/main/java/org/elasticsearch/index/cache/bloom/simple/SimpleBloomCache.java:103-113 | one table contributes to `sizeInBytes(field)` exactly its entry of that field |
| `BloomCache.FieldSizeIsRestrictedTotal` | src/main/java/org/elasticsearch/index/cache/bloom/simple/SimpleBloomCache.java:91-113 | `sizeInBytes(field)` is `sizeInBytes()` of the cache cut down to the entries of that field |
| `BloomCache.SkuScenario` | src/main/java/org/elasticsearch/index/cache/bloom/simple/SimpleBloomCache.java:115-219 | with three live docs and keys A1, A2, A3, an inline first call returns a filter holding A1 and not ZZZ, and a second call returns the same filter and loads nothing |
| `AbstractFieldMapper.DefaultBuilderState` | src/main/java/org/elasticsearch/index/mapper/core/AbstractFieldMapper.java:123-153 | a fresh builder has no index name, no analyzers and no include_in_all |
| `AbstractFieldMapper.WithIndexAnalyzer` | src/main/java/org/elasticsearch/index/mapper/core/AbstractFieldMapper.java:205-211 | `indexAnalyzer(a)` sets the index analyzer and also the search analyzer when none was set, never overwriting one, and changes nothing else |
| `AbstractFieldMapper.Builder.constructor` | src/main/java/org/elasticsearch/index/mapper/core/AbstractFieldMapper.java:44-54 | a new builder holds the defaults: indexed, tokenized, not stored, no term vectors, boost 1, norms kept, documents, frequencies and positions |
| `AbstractFieldMapper.Builder.SetIndex` | src/main/java/org/elasticsearch/index/mapper/core/AbstractFieldMapper.java:155-158 | sets `index` and nothing else |
| `AbstractFieldMapper.Builder.SetStore` | src/main/java/org/elasticsearch/index/mapper/core/AbstractFieldMapper.java:160-163 | sets `store` and nothing else |
| `AbstractFieldMapper.Builder.SetTokenize` | src/main/java/org/elasticsearch/index/mapper/core/AbstractFieldMapper.java:165-168 | sets `tokenize` and nothing else |
| `AbstractFieldMapper.Builder.SetStoreTermVectors` | src/main/java/org/elasticsearch/index/mapper/core/AbstractFieldMapper.java:170-173 | sets `storeTermVectors` and nothing else |
| `AbstractFieldMapper.Builder.SetStoreTermVectorOffsets` | src/main/java/org/elasticsearch/index/mapper/core/AbstractFieldMapper.java:175-178 | sets `storeTermVectorOffsets` and nothing else |
| `AbstractFieldMapper.Builder.SetStoreTermVectorPositions` | src/main/java/org/elasticsearch/index/mapper/core/AbstractFieldMapper.java:180-183 | sets `storeTermVectorPositions` and nothing else |
| `AbstractFieldMapper.Builder.SetBoost` | src/main/java/org/elasticsearch/index/mapper/core/AbstractFieldMapper.java:185-188 | sets `boost` and nothing else |
| `AbstractFieldMapper.Builder.SetOmitNorms` | src/main/java/org/elasticsearch/index/mapper/core/AbstractFieldMapper.java:190-193 | sets `omitNorms` and nothing else |
| `AbstractFieldMapper.Builder.SetIndexOptions` | src/main/java/org/elasticsearch/index/mapper/core/AbstractFieldMapper.java:195-198 | sets `indexOptions` and nothing else |
| `AbstractFieldMapper.Builder.SetIndexName` | src/main/java/org/elasticsearch/index/mapper/core/AbstractFieldMapper.java:200-203 | sets `indexName` and nothing else |
| `AbstractFieldMapper.Builder.SetIndexAnalyzer` | src/main/java/org/elasticsearch/index/mapper/core/AbstractFieldMapper.java:205-211 | the builder after `indexAnalyzer(a)` is as `WithIndexAnalyzer` describes |
| `AbstractFieldMapper.Builder.SetSearchAnalyzer` | src/main/java/org/elasticsearch/index/mapper/core/AbstractFieldMapper.java:213-216 | sets `searchAnalyzer` and nothing else |
| `AbstractFieldMapper.Builder.SetIncludeInAll` | src/main/java/org/elasticsearch/index/mapper/core/AbstractFieldMapper.java:218-221 | sets `includeInAll` and nothing else |
| `AbstractFieldMapper.ActualIndexName` | src/main/java/org/elasticsearch/index/mapper/core/AbstractFieldMapper.java:224-228 | the index name is the configured one when set, else the field name |
| `AbstractFieldMapper.BuildNames` | src/main/java/org/elasticsearch/index/mapper/core/AbstractFieldMapper.java:223-234 | names: the field name, the index name with and without the path, the full path name |
| `AbstractFieldMapper.IndexNameDefaultsToName` | src/main/java/org/elasticsearch/index/mapper/core/AbstractFieldMapper.java:223-230 | a builder that never set an index name builds index name `name`, whatever else was set |
| `AbstractFieldMapper.KeywordDefault` | src/main/java/org/elasticsearch/index/mapper/core/AbstractFieldMapper.java:279-290 | a missing analyzer of an indexed, untokenized field becomes the keyword analyzer; otherwise the given one is kept |
| `AbstractFieldMapper.KeywordDefaultAbsent` | src/main/java/org/elasticsearch/index/mapper/core/AbstractFieldMapper.java:279-290 | an analyzer is absent after construction exactly when it was absent and the field is not indexed or is tokenized |
| `AbstractFieldMapper.MergeContext.constructor` | src/main/java/org/elasticsearch/index/mapper/core/AbstractFieldMapper.java:499 | a merge context starts with no conflict |
| `AbstractFieldMapper.MergeContext.AddConflict` | src/main/java/org/elasticsearch/index/mapper/core/AbstractFieldMapper.java:505 | a conflict is appended to the list of conflicts |
| `AbstractFieldMapper.Document.constructor` | src/main/java/org/elasticsearch/index/mapper/core/AbstractFieldMapper.java:397 | a document starts with no field |
| `AbstractFieldMapper.Document.Add` | src/main/java/org/elasticsearch/index/mapper/core/AbstractFieldMapper.java:397 | a field is appended to the document |
| `AbstractFieldMapper.FieldMapper.constructor` | src/main/java/org/elasticsearch/index/mapper/core/AbstractFieldMapper.java:265-291 | the mapper holds the given settings; each analyzer is defaulted to the keyword analyzer on its own |
| `AbstractFieldMapper.FieldMapper.GetFieldType` | src/main/java/org/elasticsearch/index/mapper/core/AbstractFieldMapper.java:293-304 | the Lucene field type carries every flag and the index options of the mapper |
| `AbstractFieldMapper.FieldMapper.Parse` | src/main/java/org/elasticsearch/index/mapper/core/AbstractFieldMapper.java:387-402 | no created field leaves the document alone; a created field gets the mapper's boost unless the boost is custom and is added only if the listener approves it; an exception becomes a parsing failure naming the field |
| `AbstractFieldMapper.FieldMapper.SameClass` | src/main/java/org/elasticsearch/index/mapper/core/AbstractFieldMapper.java:500 | the merge partner is a field mapper of exactly this mapper's class |
| `AbstractFieldMapper.FieldMapper.Merge` | src/main/java/org/elasticsearch/index/mapper/core/AbstractFieldMapper.java:499-550 | another class gives one conflict and changes nothing; otherwise one conflict per differing flag or analyzer, and the boost is taken over exactly when not simulating, conflicts or not |
| `AbstractFieldMapper.AddFlagConflicts` | src/main/java/org/elasticsearch/index/mapper/core/AbstractFieldMapper.java:510-527 | one conflict per differing flag |
| `AbstractFieldMapper.AddAnalyzerConflict` | src/main/java/org/elasticsearch/index/mapper/core/AbstractFieldMapper.java:528-545 | one conflict when exactly one analyzer is absent or their names differ |
| `AbstractFieldMapper.FlagConflicts` | src/main/java/org/elasticsearch/index/mapper/core/AbstractFieldMapper.java:510-527 | one conflict message per differing flag among index, tokenize, store, term-vector offsets and term-vector positions, in that order |
| `AbstractFieldMapper.MergeConflicts` | src/main/java/org/elasticsearch/index/mapper/core/AbstractFieldMapper.java:510-545 | the flag conflicts, then one for a different index analyzer, then one for a different search analyzer |
| `AbstractFieldMapper.MergeConflictCount` | src/main/java/org/elasticsearch/index/mapper/core/AbstractFieldMapper.java:510-545 | the number of conflicts is the number of differing flags plus the number of disagreeing analyzers |
| `AbstractFieldMapper.MergeNoConflictIff` | src/main/java/org/elasticsearch/index/mapper/core/AbstractFieldMapper.java:510-545 | a merge is conflict-free exactly when the five flags and both analyzers agree |
| `AbstractFieldMapper.MergeWithSelfNoConflict` | src/main/java/org/elasticsearch/index/mapper/core/AbstractFieldMapper.java:510-545 | merging with a mapper of identical settings gives no conflict, whatever the boosts |
| `AbstractFieldMapper.MergeConflictsSymmetric` | src/main/java/org/elasticsearch/index/mapper/core/AbstractFieldMapper.java:510-545 | the number of conflicts does not depend on the direction of the merge |
| `AbstractFieldMapper.DoXContentBody` | src/main/java/org/elasticsearch/index/mapper/core/AbstractFieldMapper.java:565-583 | the common XContent body: the type, then `index_name` when it differs from the name, `boost` when not 1.0, then the analyzer keys |
| `AbstractFieldMapper.AnalyzerBody` | src/main/java/org/elasticsearch/index/mapper/core/AbstractFieldMapper.java:573-583 | one `analyzer` key when both analyzers have the same emitted name; otherwise `index_analyzer` and `search_analyzer`, each for an emitted analyzer (its name neither starts with `_` nor is `default`) |
| `AbstractFieldMapper.BodyKeys` | src/main/java/org/elasticsearch/index/mapper/core/AbstractFieldMapper.java:565-572 | the body starts with "type", then "index_name" when it differs from the name, then "boost" when not 1, then the analyzer keys |
| `AbstractFieldMapper.AnalyzerOutput` | src/main/java/org/elasticsearch/index/mapper/core/AbstractFieldMapper.java:573-583 | a single "analyzer" key exactly when both analyzers share a shown name; otherwise one key per analyzer whose name is shown |
| `AbstractFieldMapper.EmittedAnalyzerNames` | src/main/java/org/elasticsearch/index/mapper/core/AbstractFieldMapper.java:573-583 | no analyzer name in the output starts with "_" or is "default" |
| `TypeParsers.ParseStoreTermVector` | src/main/java/org/elasticsearch/index/mapper/core/TypeParsers.java:135-150 | "no"/"false" give false, "yes"/"true"/"with_offsets"/"with_positions"/"with_positions_offsets" give true, anything else fails |
| `TypeParsers.ParseStoreTermVectorOffsets` | src/main/java/org/elasticsearch/index/mapper/core/TypeParsers.java:152-164 | never fails; true exactly for yes, true, with_offsets, with_positions_offsets |
| `TypeParsers.ParseStoreTermVectorPositions` | src/main/java/org/elasticsearch/index/mapper/core/TypeParsers.java:166-178 | never fails; true exactly for yes, true, with_positions, with_positions_offsets |
| `TypeParsers.ParseIndex` | src/main/java/org/elasticsearch/index/mapper/core/TypeParsers.java:180-189 | no/false give false, yes/true/not_analyzed give true, anything else fails |
| `TypeParsers.ParseTokenize` | src/main/java/org/elasticsearch/index/mapper/core/TypeParsers.java:191-200 | no/false give false, yes/true give true, anything else fails |
| `TypeParsers.ParseStore` | src/main/java/org/elasticsearch/index/mapper/core/TypeParsers.java:203-216 | "no" is false, "yes" is true, anything else is the boolean value of the node, or the exception of that conversion |
| `TypeParsers.ParsePathType` | src/main/java/org/elasticsearch/index/mapper/core/TypeParsers.java:218-227 | "just_name" and "full" are the two path types; anything else fails |
| `TypeParsers.TermVectorFlagsImplyStored` | src/main/java/org/elasticsearch/index/mapper/core/TypeParsers.java:135-178 | a value that stores offsets or positions stores term vectors |
| `TypeParsers.TermVectorOffImpliesFlagsOff` | src/main/java/org/elasticsearch/index/mapper/core/TypeParsers.java:135-178 | a value that disables term vectors disables offsets and positions |
| `TypeParsers.IndexExtendsTokenize` | src/main/java/org/elasticsearch/index/mapper/core/TypeParsers.java:180-200 | `parseIndex` agrees with `parseTokenize` where that succeeds, and accepts "not_analyzed" besides |
| `TypeParsers.ApplyProp` | src/main/java/org/elasticsearch/index/mapper/core/TypeParsers.java:57-127 | the effect of one mapping entry on the builder, or the exception it raises: a null value whose text is read, a value the parser of the option rejects, a `node*Value` conversion that raises (boost, omit_norms, omit_term_freq_and_positions, include_in_all) or an unknown analyzer; a key that is not an option changes nothing |
| `TypeParsers.ParseFieldSpec` | src/main/java/org/elasticsearch/index/mapper/core/TypeParsers.java:55-129 | `parseField` over the entries in order: the builder after the entries before the first failing one, and that failure, or Pass |
| `TypeParsers.ApplyEntry` | src/main/java/org/elasticsearch/index/mapper/core/TypeParsers.java:57-127 | one entry applied through the setters does what the entry rules say, or raises their failure |
| `TypeParsers.SetIndexOption` | src/main/java/org/elasticsearch/index/mapper/core/TypeParsers.java:63-77 | the `index` entry through the setters |
| `TypeParsers.SetTermVectorOption` | src/main/java/org/elasticsearch/index/mapper/core/TypeParsers.java:80-86 | the `term_vector` entry through the setters |
| `TypeParsers.SetAnalyzerOption` | src/main/java/org/elasticsearch/index/mapper/core/TypeParsers.java:102-124 | the three analyzer entries through the setters |
| `TypeParsers.ParseField` | src/main/java/org/elasticsearch/index/mapper/core/TypeParsers.java:55-129 | the loop leaves the builder as the entry-by-entry rules do, stopping at the first exception |
| `TypeParsers.IndexEntry` | src/main/java/org/elasticsearch/index/mapper/core/TypeParsers.java:63-77 | "analyzed"/"tokenized" set index and tokenize; "not_analyzed" indexes untokenized; any other value sets only index via `parseIndex`, or fails as it does |
| `TypeParsers.TermVectorEntry` | src/main/java/org/elasticsearch/index/mapper/core/TypeParsers.java:80-86 | `term_vector` always sets storeTermVectors; offsets and positions change only for a value starting with "with_" |
| `TypeParsers.WithPositionsOffsets` | src/main/java/org/elasticsearch/index/mapper/core/TypeParsers.java:80-90 | "with_positions_offsets" turns on all three term-vector flags |
| `TypeParsers.AnalyzerEntry` | src/main/java/org/elasticsearch/index/mapper/core/TypeParsers.java:102-124 | `analyzer` sets both analyzers; an unknown name under any of the three keys fails |
| `TypeParsers.NullAnalyzerIgnored` | src/main/java/org/elasticsearch/index/mapper/core/TypeParsers.java:102-124 | a null analyzer value changes nothing |
| `TypeParsers.OmitTermFreqEntry` | src/main/java/org/elasticsearch/index/mapper/core/TypeParsers.java:95-101 | `omit_term_freq_and_positions` true gives documents only, false documents, frequencies and positions, and a value the conversion cannot read raises its exception |
| `TypeParsers.UnknownEntriesIgnored` | src/main/java/org/elasticsearch/index/mapper/core/TypeParsers.java:55-129 | entries naming no option leave the builder unchanged |
| `TypeParsers.ParseFieldStopsAtFailure` | src/main/java/org/elasticsearch/index/mapper/core/TypeParsers.java:55-129 | after a failing entry, later entries have no effect |
| `TypeParsers.ApplyPropRaises` | src/main/java/org/elasticsearch/index/mapper/core/TypeParsers.java:57-127 | whether an entry raises does not depend on the builder: exactly for a null value whose text is read, a value the parser of the option rejects, a conversion that raises, or an analyzer name not found |
| `TypeParsers.ParseFieldRaisesIff` | src/main/java/org/elasticsearch/index/mapper/core/TypeParsers.java:55-129 | `parseField` raises exactly when one of the entries raises |
| `TypeParsers.NullBoostRaises` | src/main/java/org/elasticsearch/index/mapper/core/TypeParsers.java:91-92 | with a conversion that raises on null, as `nodeFloatValue` does, `"boost": null` raises and the walk stops there with the builder unchanged |
| `TypeParsers.NumberBuilder.constructor` | src/main/java/org/elasticsearch/index/mapper/core/TypeParsers.java:40 | a number builder starts from the common defaults and the number options it is given |
| `TypeParsers.ParseNumberField` | src/main/java/org/elasticsearch/index/mapper/core/TypeParsers.java:40-53 | the common options first; their failure is raised before any number option is read; otherwise precision_step, fuzzy_factor and ignore_malformed are read in order, stopping at the first conversion that raises or a null fuzzy_factor |
| `TypeParsers.NumberFieldRaisesIff` | src/main/java/org/elasticsearch/index/mapper/core/TypeParsers.java:41-52 | the number-option walk raises exactly when a precision_step or ignore_malformed value cannot be converted or a fuzzy_factor is null |
| `TypeParsers.NumberUnknownEntriesIgnored` | src/main/java/org/elasticsearch/index/mapper/core/TypeParsers.java:41-52 | entries that name no number option leave the number options unchanged |
| `BooleanFieldMapper.Builder.constructor` | src/main/java/org/elasticsearch/index/mapper/core/BooleanFieldMapper.java:59-63 | a boolean builder starts with the common defaults except that norms are omitted, and no null value |
| `BooleanFieldMapper.Builder.NullValue` | src/main/java/org/elasticsearch/index/mapper/core/BooleanFieldMapper.java:65-68 | sets the null value |
| `BooleanFieldMapper.Builder.Build` | src/main/java/org/elasticsearch/index/mapper/core/BooleanFieldMapper.java:106-109 | builds the mapper of the builder's state with the same null value |
| `BooleanFieldMapper.BuiltValue` | src/main/java/org/elasticsearch/index/mapper/core/BooleanFieldMapper.java:106-109 | the built mapper has the builder's names and the keyword analyzer for both analyzers |
| `BooleanFieldMapper.BooleanFieldMapper.constructor` | src/main/java/org/elasticsearch/index/mapper/core/BooleanFieldMapper.java:130-135 | the mapper holds the given settings, the keyword analyzer twice and the null value |
| `BooleanFieldMapper.BooleanFieldMapper.NullValueFilter` | src/main/java/org/elasticsearch/index/mapper/core/BooleanFieldMapper.java:172-177 | no filter exactly when no null value is set; otherwise a term filter on "T" or "F" |
| `BooleanFieldMapper.BooleanFieldMapper.ParseCreateField` | src/main/java/org/elasticsearch/index/mapper/core/BooleanFieldMapper.java:180-197 | no field when neither indexed nor stored, or for a null token without a null value; the parser's exception exactly when an indexed or stored field meets a token whose `booleanValue()` read throws; else a field holding "T" or "F" for the token or the null value |
| `BooleanFieldMapper.BooleanFieldMapper.Parse` | src/main/java/org/elasticsearch/index/mapper/core/AbstractFieldMapper.java:387-402 | the common `parse` with the boolean field: it fails, with the mapper's parsing exception and the document unchanged, exactly when the field cannot be created; otherwise the field, with the mapper's boost, is added when the listener approves it |
| `BooleanFieldMapper.EncodeBool` | src/main/java/org/elasticsearch/index/mapper/core/BooleanFieldMapper.java:188-191 | a boolean is indexed as "T" exactly when true, else "F" |
| `BooleanFieldMapper.IndexedValue` | src/main/java/org/elasticsearch/index/mapper/core/BooleanFieldMapper.java:158-169 | always "T" or "F"; null, empty and "F" give "F"; otherwise "T" exactly when `parseBoolean` holds |
| `BooleanFieldMapper.ValueFromString` | src/main/java/org/elasticsearch/index/mapper/core/BooleanFieldMapper.java:148-150 | TRUE exactly when the text starts with 'T'; empty text fails |
| `BooleanFieldMapper.Value` | src/main/java/org/elasticsearch/index/mapper/core/BooleanFieldMapper.java:143-145 | reads a field's text as `valueFromString` does |
| `BooleanFieldMapper.ValueAsString` | src/main/java/org/elasticsearch/index/mapper/core/BooleanFieldMapper.java:153-155 | "true" exactly when the text starts with 'T', else "false"; empty text fails |
| `BooleanFieldMapper.IndexedValueRoundTrip` | src/main/java/org/elasticsearch/index/mapper/core/BooleanFieldMapper.java:148-169 | `valueFromString(indexedValue(s))` is TRUE exactly when `indexedValue(s)` is "T" |
| `BooleanFieldMapper.EncodeBoolRoundTrip` | src/main/java/org/elasticsearch/index/mapper/core/BooleanFieldMapper.java:148-155 | an encoded boolean reads back as itself, and shows as "true"/"false" |
| `BooleanFieldMapper.CreatedFieldReadsBack` | src/main/java/org/elasticsearch/index/mapper/core/BooleanFieldMapper.java:143-145 | every field the mapper creates reads back as the boolean it was made from |
| `BooleanFieldMapper.Parse` | src/main/java/org/elasticsearch/index/mapper/core/BooleanFieldMapper.java:112-126 | the type parser applies the common options and then the `null_value` entries, the last one winning; a failure of the common options is raised with no null value set, and a `null_value` that `nodeBooleanValue` cannot convert raises its exception |
| `BooleanFieldMapper.NullValueUnset` | src/main/java/org/elasticsearch/index/mapper/core/BooleanFieldMapper.java:117-123 | without a `null_value` entry the null value stays unset |
| `BooleanFieldMapper.NullValueLastWins` | src/main/java/org/elasticsearch/index/mapper/core/BooleanFieldMapper.java:117-123 | when every `null_value` converts, the last `null_value` entry decides the null value |
| `BooleanFieldMapper.NullValueRaisesIff` | src/main/java/org/elasticsearch/index/mapper/core/BooleanFieldMapper.java:117-123 | reading the null value raises exactly when some `null_value` entry cannot be converted |
| `BooleanFieldMapper.NullNullValueRaises` | src/main/java/org/elasticsearch/index/mapper/core/BooleanFieldMapper.java:121 | with a conversion that raises on null, as `nodeBooleanValue` does, `"null_value": null` raises |
| `FetchPhase.ExtractRequests` | src/main/java/org/elasticsearch/search/fetch/FetchPhase.java:112-129 | a name is extracted exactly when it was requested and is not "*", "_source" or a stored mapped field |
| `FetchPhase.ComputeSelection` | src/main/java/org/elasticsearch/search/fetch/FetchPhase.java:84-153 | the selector, extract list and source flag for each kind of request: no names (partial fields, script fields, neither), an empty list, and an explicit list with or without "*", stored fields, extract names and "_source" |
| `FetchPhase.SelectionOf` | src/main/java/org/elasticsearch/search/fetch/FetchPhase.java:84-153 | the selection each kind of request gets: no field names, an empty list, or named fields split into stored names and names to extract, with the flag saying whether the source is returned |
| `FetchPhase.ScanNames` | src/main/java/org/elasticsearch/search/fetch/FetchPhase.java:111-130 | the loop over the names sets load-all exactly for "*", the source flag exactly for "_source", selects the stored mapped fields and extracts the rest in request order |
| `FetchPhase.UidAlwaysLoaded` | src/main/java/org/elasticsearch/search/fetch/FetchPhase.java:84-153 | whatever the request, the uid field is loaded |
| `FetchPhase.ExtractionLoadsSource` | src/main/java/org/elasticsearch/search/fetch/FetchPhase.java:132-148 | whenever fields are extracted from the source, the source is loaded |
| `FetchPhase.SourceRequestedButNotLoaded` | src/main/java/org/elasticsearch/search/fetch/FetchPhase.java:138-144 | asking for "_source" and a stored field returns a hit flagged as wanting the source while the source is not loaded |
| `FetchPhase.CorrectedSelection` | src/main/java/org/elasticsearch/search/fetch/FetchPhase.java:138-144 | the corrected selector loads everything the written one does and keeps its extract list and source flag |
| `FetchPhase.CorrectedLoadsSource` | src/main/java/org/elasticsearch/search/fetch/FetchPhase.java:138-148 | with the correction the source is loaded whenever it is returned or extracted from |
| `FetchPhase.RequestedNamesCovered` | src/main/java/org/elasticsearch/search/fetch/FetchPhase.java:112-129 | each requested name other than "*" and "_source" is extracted exactly when it is not a stored mapped field, and stored mapped ones are loaded |
| `FetchPhase.AddValue` | src/main/java/org/elasticsearch/search/fetch/FetchPhase.java:209-218 | appends a value to the hit field of that name, creating it when missing, leaving the other hit fields alone |
| `FetchPhase.ShownName` | src/main/java/org/elasticsearch/search/fetch/FetchPhase.java:195-201 | a loaded field is shown under its mapper's full name, or under its own name without a mapper |
| `FetchPhase.ShownValue` | src/main/java/org/elasticsearch/search/fetch/FetchPhase.java:194-207 | the intended value of a loaded field: the mapper's value, else the bytes, else the string |
| `FetchPhase.ShownValueAsWritten` | src/main/java/org/elasticsearch/search/fetch/FetchPhase.java:194-207 | the value as written: the mapper's value, else the bytes, and a NullPointerException when there are no bytes |
| `FetchPhase.GroupSpec` | src/main/java/org/elasticsearch/search/fetch/FetchPhase.java:175-219 | the corrected grouping: each loaded field other than `_uid`, `_source` and `_routing`, in document order, adds its shown value to the hit field of its shown name |
| `FetchPhase.GroupCollectsInOrder` | src/main/java/org/elasticsearch/search/fetch/FetchPhase.java:175-219 | a hit field exists exactly when a non-internal loaded field is shown under its name, and holds those values in document order after any earlier ones |
| `FetchPhase.InternalFieldsSkipped` | src/main/java/org/elasticsearch/search/fetch/FetchPhase.java:179-192 | "_uid", "_source" and "_routing" never make hit fields |
| `FetchPhase.GroupFields` | src/main/java/org/elasticsearch/search/fetch/FetchPhase.java:175-219 | the grouping loop builds exactly the intended hit fields of the document's loaded fields |
| `FetchPhase.AsWrittenAgrees` | src/main/java/org/elasticsearch/search/fetch/FetchPhase.java:194-207 | wherever the code as written does not throw, it groups as intended |
| `FetchPhase.UnmappedStringFieldThrows` | src/main/java/org/elasticsearch/search/fetch/FetchPhase.java:203-207 | an unmapped stored field with only a string value makes the code as written throw, where the intended code shows the string |
| `FetchPhase.GroupAsWritten` | src/main/java/org/elasticsearch/search/fetch/FetchPhase.java:175-219 | the grouping as written: the same steps, but the first non-internal field without a mapper value or bytes raises the NullPointerException |
| `FetchPhase.GroupAsWrittenOnlyNullPointer` | src/main/java/org/elasticsearch/search/fetch/FetchPhase.java:194-207 | the only exception the grouping as written raises is the NullPointerException |
| `FetchPhase.ExtractFields` | src/main/java/org/elasticsearch/search/fetch/FetchPhase.java:236-260 | the extraction loop adds the routing under "_parent" and each value the source has, in the extract order |
| `FetchPhase.ExtractSpec` | src/main/java/org/elasticsearch/search/fetch/FetchPhase.java:236-260 | the extracted fields in request order: `_parent` first gets the routing, then every name the source has a value for gets that value |
| `FetchPhase.ExtractOnlyAppends` | src/main/java/org/elasticsearch/search/fetch/FetchPhase.java:236-260 | extraction keeps every hit field with its earlier values as a prefix |
| `FetchPhase.Selected` | src/main/java/org/elasticsearch/search/fetch/FetchPhase.java:315-316 | a selecting visitor keeps exactly the stored fields whose names it selects |
| `FetchPhase.LoadDocument` | src/main/java/org/elasticsearch/search/fetch/FetchPhase.java:312-323 | the document loads when the doc id exists; it holds all stored fields under an absent or empty selector, else exactly the selected ones |
| `FetchPhase.Get` | src/main/java/org/elasticsearch/search/fetch/FetchPhase.java:290-301 | `doc.get(name)` finds a value exactly when some field of that name has a string value |
| `FetchPhase.FirstNamed` | src/main/java/org/elasticsearch/search/fetch/FetchPhase.java:282-288 | `doc.getField(name)` is a field of that name, and is absent only when none has it |
| `FetchPhase.FieldNames` | src/main/java/org/elasticsearch/search/fetch/FetchPhase.java:305-308 | the names listed in the missing-uid error are the document's field names, in order |
| `FetchPhase.RoutingOf` | src/main/java/org/elasticsearch/search/fetch/FetchPhase.java:290-296 | a document's routing: its `_routing` value, else its `_parent` value |
| `FetchPhase.HitFor` | src/main/java/org/elasticsearch/search/fetch/FetchPhase.java:156-260 | the hit of one doc id with the corrected grouping: the load failure, a missing uid or a type without a mapper is the exception; otherwise the hit with the doc id, uid and type, the source only when requested, the grouped stored fields and then the extracted ones |
| `FetchPhase.HitForAsWritten` | src/main/java/org/elasticsearch/search/fetch/FetchPhase.java:156-260 | the hit of one doc id as the code is written: the same steps, with the grouping as written |
| `FetchPhase.HitForRefinesAsWritten` | src/main/java/org/elasticsearch/search/fetch/FetchPhase.java:156-260 | wherever the code as written makes a hit, the corrected hit is the same; the two differ only where the code as written raises the NullPointerException and the corrected code makes a hit |
| `FetchPhase.SourceOnlyWhenRequested` | src/main/java/org/elasticsearch/search/fetch/FetchPhase.java:168-172 | a hit carries its doc id, and a source only when the source was requested |
| `FetchPhase.HitNeedsUidAndType` | src/main/java/org/elasticsearch/search/fetch/FetchPhase.java:158-166 | a hit is made only for a document whose uid was loaded and whose type has a mapper; the hit takes id and type from the uid |
| `FetchPhase.BuildHits` | src/main/java/org/elasticsearch/search/fetch/FetchPhase.java:155-173 | hit i is the corrected hit (`HitFor`) of doc id from + i; the first document whose hit fails ends the loop with its exception, after every earlier document made a hit |
| `FetchPhase.BuildHit` | src/main/java/org/elasticsearch/search/fetch/FetchPhase.java:156-260 | one iteration of the loop makes the corrected hit (`HitFor`) of the doc id, or raises its exception |
| `UidField.VersionSpec` | src/main/java/org/elasticsearch/common/lucene/uid/UidField.java:98-112 | the version the scan finds: the payload of the first doc whose payload holds one; -2 when a failure comes first or no doc qualifies |
| `UidField.LoadVersion` | src/main/java/org/elasticsearch/common/lucene/uid/UidField.java:87-113 | -1 without postings; otherwise the version in the first payload of at least 8 bytes, skipping docs without one; -2 when none qualifies or a read fails first |
| `UidField.VersionOfFirstQualifying` | src/main/java/org/elasticsearch/common/lucene/uid/UidField.java:98-108 | the scan returns the version decoded from the first qualifying payload |
| `UidField.NoQualifyingNoVersion` | src/main/java/org/elasticsearch/common/lucene/uid/UidField.java:109-112 | without a qualifying payload before any failure the version is -2 |
| `UidField.DocIdAndVersionSpec` | src/main/java/org/elasticsearch/common/lucene/uid/UidField.java:65-77 | the first qualifying doc with its version; otherwise the last doc seen with -2 |
| `UidField.LoadDocIdAndVersion` | src/main/java/org/elasticsearch/common/lucene/uid/UidField.java:54-81 | none without postings; otherwise the result of the doc-and-version scan starting from no document |
| `UidField.ScansAgreeOnVersion` | src/main/java/org/elasticsearch/common/lucene/uid/UidField.java:54-113 | both scans find the same version |
| `UidField.DocIdOfFirstQualifying` | src/main/java/org/elasticsearch/common/lucene/uid/UidField.java:65-75 | the doc found is the first qualifying doc, with its version |
| `UidField.NoneQualifiesGivesLastDoc` | src/main/java/org/elasticsearch/common/lucene/uid/UidField.java:65-77 | when no posting qualifies the result is the last doc seen, or no document, with -2 |
| `UidField.UidField.StringValue` | src/main/java/org/elasticsearch/common/lucene/uid/UidField.java:140-143 | the field's text is its current uid |
| `UidField.UidField.constructor` | src/main/java/org/elasticsearch/common/lucene/uid/UidField.java:119-130 | the field is indexed, stored, tokenized, omits norms, stores no term vectors, indexes documents, frequencies and positions, and owns a fresh unused token stream |
| `UidField.UidField.SetUid` | src/main/java/org/elasticsearch/common/lucene/uid/UidField.java:136-138 | sets the uid, which becomes the text, and nothing else |
| `UidField.UidField.SetVersion` | src/main/java/org/elasticsearch/common/lucene/uid/UidField.java:154-156 | sets the version and nothing else |
| `UidField.UidPayloadTokenStream.constructor` | src/main/java/org/elasticsearch/common/lucene/uid/UidField.java:172-174 | a new stream has produced no token |
| `UidField.UidPayloadTokenStream.Reset` | src/main/java/org/elasticsearch/common/lucene/uid/UidField.java:176-179 | `reset` re-arms the stream |
| `UidField.UidPayloadTokenStream.IncrementToken` | src/main/java/org/elasticsearch/common/lucene/uid/UidField.java:181-191 | a token, the uid with the encoded version as payload, exactly when none was produced since the last reset; afterwards none |
| `UidField.OneTokenPerReset` | src/main/java/org/elasticsearch/common/lucene/uid/UidField.java:176-191 | after a reset the stream yields exactly one token, then none |
| `Lucene.ParseVersion` | src/main/java/org/elasticsearch/common/lucene/Lucene.java:57-87 | null gives the default; a version is returned only for its own name; otherwise the default |
| `Lucene.ParseVersionRoundTrip` | src/main/java/org/elasticsearch/common/lucene/Lucene.java:61-84 | "3.0" to "3.6" and "4.0" parse to their versions, whatever the default |
| `Lucene.ParseVersionUnknown` | src/main/java/org/elasticsearch/common/lucene/Lucene.java:85-86 | text that names no version gives the default |
| `Lucene.Tag` | src/main/java/org/elasticsearch/common/lucene/Lucene.java:284-316 | the tags null, String, Integer, Long, Float, Double, Byte, Short, Boolean are 0 to 8 |
| `Lucene.EncodeSortValue` | src/main/java/org/elasticsearch/common/lucene/Lucene.java:284-316 | a sort value is written tag first; writing fails exactly for a value of an unsupported class |
| `Lucene.DecodeTagged` | src/main/java/org/elasticsearch/common/lucene/Lucene.java:210-227 | the payload read for a known tag takes at most one token |
| `Lucene.DecodeSortValue` | src/main/java/org/elasticsearch/common/lucene/Lucene.java:209-230 | a sort value consumes its tag and payload |
| `Lucene.SortValueRoundTrip` | src/main/java/org/elasticsearch/common/lucene/Lucene.java:209-316 | a written sort value reads back as the same value, of the same kind |
| `Lucene.UnknownTagFails` | src/main/java/org/elasticsearch/common/lucene/Lucene.java:228-229 | a tag outside 0 to 8 fails the read |
| `Lucene.Ordinal` | src/main/java/org/elasticsearch/common/lucene/Lucene.java:269-271 | sort types are written as ordinals 0 to 12 |
| `Lucene.SortTypeOf` | src/main/java/org/elasticsearch/common/lucene/Lucene.java:173-201 | an ordinal outside 0 to 12 reads as SCORE |
| `Lucene.SortTypeRoundTrip` | src/main/java/org/elasticsearch/common/lucene/Lucene.java:173-201 | a written ordinal reads back as its sort type, and the ordinals 0 to 12 are exactly the sort types |
| `Lucene.EncodeSortField` | src/main/java/org/elasticsearch/common/lucene/Lucene.java:261-274 | a sort field is written as field flag and name, type ordinal, reverse flag |
| `Lucene.DecodeSortField` | src/main/java/org/elasticsearch/common/lucene/Lucene.java:168-202 | a sort field read consumes what it reads |
| `Lucene.SortFieldRoundTrip` | src/main/java/org/elasticsearch/common/lucene/Lucene.java:168-274 | a written sort field reads back with its name, its written type and its reverse flag |
| `Lucene.DecodeList` | src/main/java/org/elasticsearch/common/lucene/Lucene.java:205-206 | a counted read of n elements gives n elements and fails on a negative count |
| `Lucene.ListRoundTrip` | src/main/java/org/elasticsearch/common/lucene/Lucene.java:205-321 | when each element reads back as itself, the counted list does, consuming exactly what was written |
| `Lucene.DecodeSortValues` | src/main/java/org/elasticsearch/common/lucene/Lucene.java:207-231 | n sort values are read; a negative count fails |
| `Lucene.DecodeScoreDoc` | src/main/java/org/elasticsearch/common/lucene/Lucene.java:241 | a score doc is a doc id and a score |
| `Lucene.ValuesFail` | src/main/java/org/elasticsearch/common/lucene/Lucene.java:284-316 | writing sort values fails exactly when one is of an unsupported class |
| `Lucene.DecodeFieldDoc` | src/main/java/org/elasticsearch/common/lucene/Lucene.java:207-232 | a field doc read consumes its values, doc id and score |
| `Lucene.ValuesRoundTrip` | src/main/java/org/elasticsearch/common/lucene/Lucene.java:207-317 | written sort values read back in order |
| `Lucene.FieldDocRoundTrip` | src/main/java/org/elasticsearch/common/lucene/Lucene.java:207-320 | a written field doc reads back with its values, doc id and score |
| `Lucene.DecodeSortFields` | src/main/java/org/elasticsearch/common/lucene/Lucene.java:167-203 | n sort fields are read; a negative count fails |
| `Lucene.DecodeScoreDocs` | src/main/java/org/elasticsearch/common/lucene/Lucene.java:239-242 | n score docs are read; a negative count fails |
| `Lucene.AsReadAll` | src/main/java/org/elasticsearch/common/lucene/Lucene.java:202 | each sort field reads back as its written form, in order |
| `Lucene.SortFieldsRoundTrip` | src/main/java/org/elasticsearch/common/lucene/Lucene.java:167-274 | written sort fields read back, in order |
| `Lucene.ScoreDocsRoundTrip` | src/main/java/org/elasticsearch/common/lucene/Lucene.java:239-335 | written score docs read back, in order |
| `Lucene.FieldDocsRoundTrip` | src/main/java/org/elasticsearch/common/lucene/Lucene.java:205-321 | written field docs read back, in order |
| `Lucene.WriteNothingPastEnd` | src/main/java/org/elasticsearch/common/lucene/Lucene.java:248-251 | with from past the end only `false` is written, and reading `false` gives no docs |
| `Lucene.WriteFailsOnUnsupportedValue` | src/main/java/org/elasticsearch/common/lucene/Lucene.java:313-315 | writing fails exactly when a written field doc holds a sort value of an unsupported class |
| `Lucene.FieldDocsFail` | src/main/java/org/elasticsearch/common/lucene/Lucene.java:278-321 | writing field docs fails exactly when one holds an unsupported sort value |
| `Lucene.HeaderRead` | src/main/java/org/elasticsearch/common/lucene/Lucene.java:158-167 | after the header the reader goes to the sorted or the plain body as the second flag says |
| `Lucene.SortedRoundTrip` | src/main/java/org/elasticsearch/common/lucene/Lucene.java:158-321 | sorted top docs read back as the docs from `from` on, the written sort fields, the hit count and the maximum score |
| `Lucene.SortedShape` | src/main/java/org/elasticsearch/common/lucene/Lucene.java:252-321 | the sorted stream is header, sort fields, the count length - from, then the field docs from `from` on |
| `Lucene.SortedBodyRead` | src/main/java/org/elasticsearch/common/lucene/Lucene.java:205-234 | sort fields, a count and field docs read as sorted top docs |
| `Lucene.PlainRoundTrip` | src/main/java/org/elasticsearch/common/lucene/Lucene.java:235-336 | plain top docs read back as the docs from `from` on, the hit count and the maximum score |
| `Lucene.TopDocsRoundTrip` | src/main/java/org/elasticsearch/common/lucene/Lucene.java:158-337 | `readTopDocs(writeTopDocs(td, from))` is null when from is past the end, else the docs from `from` on, with the same counts and written sort fields |
| `Lucene.EncodeTopDocs` | src/main/java/org/elasticsearch/common/lucene/Lucene.java:247-337 | the stream of `writeTopDocs` from `from` on: false when `from` is past the end; otherwise the header with the sort fields and field docs, or with the score docs; an unsupported sort value fails the write |
| `Lucene.DecodeTopDocs` | src/main/java/org/elasticsearch/common/lucene/Lucene.java:158-245 | `readTopDocs`: None for the false marker; otherwise the header, then sorted or plain docs |
| `Lucene.WriteTopDocs` | src/main/java/org/elasticsearch/common/lucene/Lucene.java:247-337 | the writer produces exactly the stream of `EncodeTopDocs`, or its failure on an unsupported sort value |
| `Lucene.WriteSortFields` | src/main/java/org/elasticsearch/common/lucene/Lucene.java:260-274 | the sort-field loop writes each field in turn |
| `Lucene.WriteScoreDocs` | src/main/java/org/elasticsearch/common/lucene/Lucene.java:327-335 | the loop skips exactly the first `from` docs and writes the rest |
| `Lucene.WriteFieldDocs` | src/main/java/org/elasticsearch/common/lucene/Lucene.java:276-321 | the loop skips exactly the first `from` docs and writes the rest as `EncodeFieldDocs` does, failing on an unsupported value |
| `Lucene.WriteFieldDoc` | src/main/java/org/elasticsearch/common/lucene/Lucene.java:282-320 | one field doc as `EncodeFieldDoc` writes it: its value count, the tagged values, the doc id and the score, or the failure on an unsupported value |
| `Lucene.ReadTopDocs` | src/main/java/org/elasticsearch/common/lucene/Lucene.java:158-245 | the array-filling loops read exactly what the read rules say |
| `Lucene.ReadSortFields` | src/main/java/org/elasticsearch/common/lucene/Lucene.java:167-203 | the sort-field loop |
| `Lucene.ReadScoreDocs` | src/main/java/org/elasticsearch/common/lucene/Lucene.java:239-242 | the score-doc loop |
| `Lucene.ReadFieldDocs` | src/main/java/org/elasticsearch/common/lucene/Lucene.java:205-233 | the field-doc loop |
| `Lucene.ReadFieldDoc` | src/main/java/org/elasticsearch/common/lucene/Lucene.java:206-232 | one field doc with its values |
| `Lucene.ReadSortValues` | src/main/java/org/elasticsearch/common/lucene/Lucene.java:207-231 | the sort-value loop |
| `Lucene.DecodeExplanation` | src/main/java/org/elasticsearch/common/lucene/Lucene.java:339-350 | an explanation read consumes its value, description and details |
| `Lucene.EncodeExplanation` | src/main/java/org/elasticsearch/common/lucene/Lucene.java:352-365 | `writeExplanation`: the value, the description, then false for no details, or true, their count and each detail in turn |
| `Lucene.DecodeDetails` | src/main/java/org/elasticsearch/common/lucene/Lucene.java:343-348 | n sub-explanations; a count of zero or less reads none |
| `Lucene.ExplanationRoundTrip` | src/main/java/org/elasticsearch/common/lucene/Lucene.java:339-365 | a written explanation reads back with its value, description and details in order |
| `Lucene.DetailsRoundTrip` | src/main/java/org/elasticsearch/common/lucene/Lucene.java:343-363 | written details read back in order |
| `Lucene.NoDetailsWrittenAsFalse` | src/main/java/org/elasticsearch/common/lucene/Lucene.java:356-357 | an explanation without details is written with a single `false` after the description |
| `Lucene.WriteExplanation` | src/main/java/org/elasticsearch/common/lucene/Lucene.java:352-365 | the recursive writer with its loop writes the explanation's stream |
| `Lucene.ReadExplanation` | src/main/java/org/elasticsearch/common/lucene/Lucene.java:339-350 | the recursive reader with its loop reads the explanation as the read rules say |
| `Lucene.ExistsCollector.constructor` | src/main/java/org/elasticsearch/common/lucene/Lucene.java:424-426 | a new collector has found nothing |
| `Lucene.ExistsCollector.Reset` | src/main/java/org/elasticsearch/common/lucene/Lucene.java:428-430 | `exists` is false after `reset` |
| `Lucene.ExistsCollector.SetScorer` | src/main/java/org/elasticsearch/common/lucene/Lucene.java:437-439 | `exists` is false after `setScorer` |
| `Lucene.ExistsCollector.Collect` | src/main/java/org/elasticsearch/common/lucene/Lucene.java:442-444 | `exists` is true after any `collect` |
| `Lucene.ExistsCollector.SetNextReader` | src/main/java/org/elasticsearch/common/lucene/Lucene.java:447-448 | moving to the next segment keeps the flag |
| `Lucene.ExistsCollector.AcceptsDocsOutOfOrder` | src/main/java/org/elasticsearch/common/lucene/Lucene.java:451-453 | the collector accepts documents out of order |
| `HighlightBuilder.NewField` | modules/elasticsearch/src/main/java/org/elasticsearch/search/highlight/HighlightBuilder.java:207-215 | a new field has fragment size, fragment offset and number of fragments -1 |
| `HighlightBuilder.Appended` | modules/elasticsearch/src/main/java/org/elasticsearch/search/highlight/HighlightBuilder.java:56-60 | the list is created when missing and the field goes last, after the earlier ones |
| `HighlightBuilder.HighlightBuilder.constructor` | modules/elasticsearch/src/main/java/org/elasticsearch/search/highlight/HighlightBuilder.java:36-48 | a new builder has no fields and no options |
| `HighlightBuilder.HighlightBuilder.AddField` | modules/elasticsearch/src/main/java/org/elasticsearch/search/highlight/HighlightBuilder.java:56-62 | `field(name)` appends a field with every setting -1 and changes nothing else |
| `HighlightBuilder.HighlightBuilder.AddFieldWithSize` | modules/elasticsearch/src/main/java/org/elasticsearch/search/highlight/HighlightBuilder.java:73-79 | `field(name, size)` appends a field with only the fragment size set |
| `HighlightBuilder.HighlightBuilder.AddFieldWithFragments` | modules/elasticsearch/src/main/java/org/elasticsearch/search/highlight/HighlightBuilder.java:90-96 | appends a field with the fragment size and the number of fragments set |
| `HighlightBuilder.HighlightBuilder.AddFieldWithOffset` | modules/elasticsearch/src/main/java/org/elasticsearch/search/highlight/HighlightBuilder.java:109-116 | appends a field with all three settings set |
| `HighlightBuilder.HighlightBuilder.SetTagsSchema` | modules/elasticsearch/src/main/java/org/elasticsearch/search/highlight/HighlightBuilder.java:125-128 | sets the tags schema and nothing else; the last value wins |
| `HighlightBuilder.HighlightBuilder.SetEncoder` | modules/elasticsearch/src/main/java/org/elasticsearch/search/highlight/HighlightBuilder.java:137-140 | sets the encoder and nothing else |
| `HighlightBuilder.HighlightBuilder.SetPreTags` | modules/elasticsearch/src/main/java/org/elasticsearch/search/highlight/HighlightBuilder.java:144-147 | sets the pre tags and nothing else |
| `HighlightBuilder.HighlightBuilder.SetPostTags` | modules/elasticsearch/src/main/java/org/elasticsearch/search/highlight/HighlightBuilder.java:152-155 | sets the post tags and nothing else |
| `HighlightBuilder.HighlightBuilder.SetOrder` | modules/elasticsearch/src/main/java/org/elasticsearch/search/highlight/HighlightBuilder.java:162-165 | sets the order and nothing else |
| `HighlightBuilder.HighlightBuilder.WriteOptions` | modules/elasticsearch/src/main/java/org/elasticsearch/search/highlight/HighlightBuilder.java:169-183 | writes the options that are set, in their fixed order |
| `HighlightBuilder.HighlightBuilder.ToXContent` | modules/elasticsearch/src/main/java/org/elasticsearch/search/highlight/HighlightBuilder.java:167-205 | writes the "highlight" object of the builder's state |
| `HighlightBuilder.WriteFields` | modules/elasticsearch/src/main/java/org/elasticsearch/search/highlight/HighlightBuilder.java:186-199 | the field loop writes one object per field, in order |
| `HighlightBuilder.WriteField` | modules/elasticsearch/src/main/java/org/elasticsearch/search/highlight/HighlightBuilder.java:187-198 | one field's object, leaving out the settings that are -1 |
| `HighlightBuilder.Options` | modules/elasticsearch/src/main/java/org/elasticsearch/search/highlight/HighlightBuilder.java:169-183 | `tags_schema`, `pre_tags`, `post_tags`, `order` and `encoder`, each only when set, in that order |
| `HighlightBuilder.FieldBody` | modules/elasticsearch/src/main/java/org/elasticsearch/search/highlight/HighlightBuilder.java:187-198 | one field's object: `fragment_size`, `number_of_fragments` and `fragment_offset`, each only when not -1 |
| `HighlightBuilder.Render` | modules/elasticsearch/src/main/java/org/elasticsearch/search/highlight/HighlightBuilder.java:167-205 | the `highlight` object: the options, then a `fields` object when fields were added |
| `HighlightBuilder.FieldBodyObjects` | modules/elasticsearch/src/main/java/org/elasticsearch/search/highlight/HighlightBuilder.java:187-198 | a field's object is one object named after the field |
| `HighlightBuilder.FieldsBodyObjects` | modules/elasticsearch/src/main/java/org/elasticsearch/search/highlight/HighlightBuilder.java:186-199 | the field objects are named after the fields, in the order they were added |
| `HighlightBuilder.OptionsOpenNothing` | modules/elasticsearch/src/main/java/org/elasticsearch/search/highlight/HighlightBuilder.java:169-183 | the options open no object |
| `HighlightBuilder.RenderObjects` | modules/elasticsearch/src/main/java/org/elasticsearch/search/highlight/HighlightBuilder.java:167-205 | the objects written are "highlight", then "fields" exactly when a field was added, with one object per field in order |
| `HighlightBuilder.OptionKeys` | modules/elasticsearch/src/main/java/org/elasticsearch/search/highlight/HighlightBuilder.java:169-183 | the top-level keys are the options set, in the order tags_schema, pre_tags, post_tags, order, encoder |
| `HighlightBuilder.FieldKeys` | modules/elasticsearch/src/main/java/org/elasticsearch/search/highlight/HighlightBuilder.java:188-196 | a field's keys are the settings that are not -1, in the order fragment_size, number_of_fragments, fragment_offset |
| `HighlightBuilder.SettingKeys` | modules/elasticsearch/src/main/java/org/elasticsearch/search/highlight/HighlightBuilder.java:188-196 | a setting of -1 is left out |
| `HighlightBuilder.DefaultFieldsWriteNoSettings` | modules/elasticsearch/src/main/java/org/elasticsearch/search/highlight/HighlightBuilder.java:209-211 | a field added by name alone writes no setting, and one added with a size only writes at most the size |
| `PublicTermsFilter.SortedUnique` | src/main/java/org/apache/lucene/search/PublicTermsFilter.java:40 | two sorted term sequences with the same terms are the same sequence, so the tree set is determined by its terms |
| `PublicTermsFilter.Wrap32` | src/main/java/org/apache/lucene/search/PublicTermsFilter.java:71 | the value wrapped into Java's 32-bit int range, congruent to the unbounded one |
| `PublicTermsFilter.HashFrom` | src/main/java/org/apache/lucene/search/PublicTermsFilter.java:68-72 | the fold stays a 32-bit int and is the start value over no terms |
| `PublicTermsFilter.HashSpec` | src/main/java/org/apache/lucene/search/PublicTermsFilter.java:66-74 | the hash code of the filter: 9, then 31 * h + the term's hash for each term in sorted order, in 32-bit arithmetic |
| `PublicTermsFilter.EqualSetsEqualHash` | src/main/java/org/apache/lucene/search/PublicTermsFilter.java:55-74 | filters with equal term sets have equal hash codes |
| `PublicTermsFilter.TermString` | src/main/java/org/apache/lucene/search/PublicTermsFilter.java:101 | a term's text form is never empty |
| `PublicTermsFilter.Joined` | src/main/java/org/apache/lucene/search/PublicTermsFilter.java:94-104 | strings joined by single spaces |
| `PublicTermsFilter.SplitJoined` | src/main/java/org/apache/lucene/search/PublicTermsFilter.java:96-103 | the joined text cut at its spaces gives back the pieces, when none holds a space |
| `PublicTermsFilter.TextFormSplits` | src/main/java/org/apache/lucene/search/PublicTermsFilter.java:94-104 | the text form cut at its spaces gives one piece per term in sorted order: single separators, none leading or trailing |
| `PublicTermsFilter.LiveDocs` | src/main/java/org/apache/lucene/search/PublicTermsFilter.java:81 | a term's enumeration yields exactly its live postings |
| `PublicTermsFilter.Matches` | src/main/java/org/apache/lucene/search/PublicTermsFilter.java:76-92 | the documents the filter matches: the live documents that hold any of the terms |
| `PublicTermsFilter.InsertSorted` | src/main/java/org/apache/lucene/search/PublicTermsFilter.java:47-49 | inserting a new term at its place keeps the terms sorted and adds exactly that term |
| `PublicTermsFilter.PublicTermsFilter.constructor` | src/main/java/org/apache/lucene/search/PublicTermsFilter.java:40 | a new filter has no terms |
| `PublicTermsFilter.PublicTermsFilter.AddTerm` | src/main/java/org/apache/lucene/search/PublicTermsFilter.java:47-49 | `addTerm` adds the term to the sorted set; adding one already there changes nothing |
| `PublicTermsFilter.PublicTermsFilter.GetTerms` | src/main/java/org/apache/lucene/search/PublicTermsFilter.java:51-53 | `getTerms` is the term set |
| `PublicTermsFilter.PublicTermsFilter.Equals` | src/main/java/org/apache/lucene/search/PublicTermsFilter.java:55-64 | two filters are equal exactly when their term sets are |
| `PublicTermsFilter.PublicTermsFilter.HashCode` | src/main/java/org/apache/lucene/search/PublicTermsFilter.java:66-74 | 9, then 31 * h + hash(term) over the sorted terms, in 32-bit arithmetic |
| `PublicTermsFilter.PublicTermsFilter.ToString` | src/main/java/org/apache/lucene/search/PublicTermsFilter.java:94-104 | the text forms of the sorted terms, joined by single spaces |
| `PublicTermsFilter.PublicTermsFilter.GetDocIdSet` | src/main/java/org/apache/lucene/search/PublicTermsFilter.java:76-92 | null when no term occurs in the segment; otherwise a bit set of the segment's size holding exactly the live documents of the terms |
| `PublicTermsFilter.AddDocs` | src/main/java/org/apache/lucene/search/PublicTermsFilter.java:86-88 | one term's loop sets exactly the bits of its live documents and keeps the others |
| `ReplicationRequest.Encode` | src/main/java/org/elasticsearch/action/support/replication/IndexReplicationOperationRequest.java:96-102 | the four values in the order replication id, consistency id, timeout, index; a null index cannot be written |
| `ReplicationRequest.Decode` | src/main/java/org/elasticsearch/action/support/replication/IndexReplicationOperationRequest.java:88-94 | the four values read in the same order; a failure keeps the values read before it; the listener flag is untouched |
| `ReplicationRequest.RoundTrip` | src/main/java/org/elasticsearch/action/support/replication/IndexReplicationOperationRequest.java:88-102 | when each id reads back as its value, a written request reads back as itself, except the reader's own listener flag, and uses exactly the four tokens |
| `ReplicationRequest.UnknownTypeChangesNothing` | src/main/java/org/elasticsearch/action/support/replication/IndexReplicationOperationRequest.java:90 | an unknown replication id fails the read with nothing changed |
| `ReplicationRequest.Validate` | src/main/java/org/elasticsearch/action/support/replication/IndexReplicationOperationRequest.java:79-86 | one error, "index name missing", exactly when the index is null |
| `ReplicationRequest.ValidRequestsWrite` | src/main/java/org/elasticsearch/action/support/replication/IndexReplicationOperationRequest.java:79-102 | a request that validates can be written |
| `ReplicationRequest.IndexReplicationOperationRequest.constructor` | src/main/java/org/elasticsearch/action/support/replication/IndexReplicationOperationRequest.java:38-45 | no index, an unthreaded listener, DEFAULT replication and consistency, the default timeout |
| `ReplicationRequest.IndexReplicationOperationRequest.SetIndex` | src/main/java/org/elasticsearch/action/support/replication/IndexReplicationOperationRequest.java:55-58 | sets the index and nothing else |
| `ReplicationRequest.IndexReplicationOperationRequest.SetListenerThreaded` | src/main/java/org/elasticsearch/action/support/replication/IndexReplicationOperationRequest.java:73-77 | sets the listener flag and nothing else |
| `ReplicationRequest.IndexReplicationOperationRequest.WriteTo` | src/main/java/org/elasticsearch/action/support/replication/IndexReplicationOperationRequest.java:96-102 | writes the request's own values as `writeTo` does |
| `ReplicationRequest.IndexReplicationOperationRequest.ReadFrom` | src/main/java/org/elasticsearch/action/support/replication/IndexReplicationOperationRequest.java:88-94 | assigns each value as it is read, keeping those read before a failure |
| `SimilarityService.GroupOf` | src/main/java/org/elasticsearch/index/similarity/SimilarityService.java:58-61 | the name's settings group, or empty settings when it has none |
| `SimilarityService.CreatedBy` | src/main/java/org/elasticsearch/index/similarity/SimilarityService.java:58-64 | the provider a configured factory creates for a name, with that name's settings group |
| `SimilarityService.Configured` | src/main/java/org/elasticsearch/index/similarity/SimilarityService.java:52-66 | one created provider per configured name; none when there are no factories |
| `SimilarityService.WithDefault` | src/main/java/org/elasticsearch/index/similarity/SimilarityService.java:69-74 | adds the default for a name only when the name is not taken, keeping every other provider |
| `SimilarityService.Registry` | src/main/java/org/elasticsearch/index/similarity/SimilarityService.java:46-76 | the providers: one per configured factory, then the default `index` and `search` providers where those names are not configured |
| `SimilarityService.BuildProviders` | src/main/java/org/elasticsearch/index/similarity/SimilarityService.java:51-75 | the constructor's build gives the registry: configured providers, then the two defaults |
| `SimilarityService.CreateProviders` | src/main/java/org/elasticsearch/index/similarity/SimilarityService.java:52-66 | the factory loop gives each name the provider its factory creates with the name's settings |
| `SimilarityService.SimilarityService.constructor` | src/main/java/org/elasticsearch/index/similarity/SimilarityService.java:46-76 | the service holds the registry of its factories and settings |
| `SimilarityService.SimilarityService.WithDefaults` | src/main/java/org/elasticsearch/index/similarity/SimilarityService.java:42-44 | the one-argument constructor: no factories, empty settings |
| `SimilarityService.SimilarityService.SimilarityProvider` | src/main/java/org/elasticsearch/index/similarity/SimilarityService.java:78-80 | the provider of a name exactly when the name is registered |
| `SimilarityService.SimilarityService.DefaultIndexSimilarity` | src/main/java/org/elasticsearch/index/similarity/SimilarityService.java:82-85 | the provider registered under `index` |
| `SimilarityService.SimilarityService.DefaultSearchSimilarity` | src/main/java/org/elasticsearch/index/similarity/SimilarityService.java:87-90 | the provider registered under `search` |
| `SimilarityService.ConfiguredProvidersKept` | src/main/java/org/elasticsearch/index/similarity/SimilarityService.java:52-74 | every configured name keeps the provider its factory created, and the registry holds exactly the configured names, "index" and "search" |
| `SimilarityService.DefaultsPresent` | src/main/java/org/elasticsearch/index/similarity/SimilarityService.java:68-74 | "index" and "search" are always present, and get defaults only when not configured |
| `SimilarityService.NoFactoriesOnlyDefaults` | src/main/java/org/elasticsearch/index/similarity/SimilarityService.java:42-52 | with null factories the registry holds exactly the two defaults |
| `SimilarityService.DefaultLookups` | src/main/java/org/elasticsearch/index/similarity/SimilarityService.java:82-90 | the default index and search lookups always find a provider, the configured one when there is one |

## Left out

- Concurrency in `SimpleBloomCache` is not modelled: `creationMutex`, `synchronized (fieldCache)`, the concurrent maps and `AtomicBoolean`. The model is one thread, and the thread pool is a queue of pending loaders.
- The filter's internals are not modelled: `BloomFilterFactory.getFilter(numDocs, 15)`, hashing and its byte size. A built filter is the set of its keys and records the doc count it was sized for. Its size is a parameter `sizeOf`.
- The settings lookup of `index.cache.bloom.max_size` (default 500 mega) is not modelled. `BloomCache.SimpleBloomCache.constructor` takes the maximum size as it is.
- The three catch blocks of the loader (`SimpleBloomCache.java` 209-218) are one failure, the parameter `fails`. The warning they log is output and is left out.
- The warning `Lucene.parseVersion` logs for a version name it does not know (`Lucene.java` 85) is output and is left out; the default version is still returned.
- Postings, term enumeration and live docs of Lucene (`MultiFields`, `DocsEnum`, `TermsEnum`) are maps and sets. Offsets inside `BytesRef` are not modelled.
- The byte formats of `StreamInput`/`StreamOutput` are left out: VInt, UTF, float and double bits. Values are tokens, and floats and doubles are opaque values.
- The `XContentMapValues.node*Value` conversions are not part of this model. They are parameters of the parser context that may raise, so which null or malformed values raise depends on them.
- Mapping entries come as a sequence in the iteration order of the mapping's map. Java's `HashMap` order is not modelled.
- `AbstractFieldMapper` declares some fields twice, and its `termVector` field is never assigned. So the comparison at `AbstractFieldMapper.java` 519 is not part of this model, and `merge` compares the other five flags.
- `BooleanFieldMapper.doXContentBody` (lines 205-228) refers to constants that do not exist (`TERM_VECTOR`, `TERM_VECTO`), so it is not part of this model.
- `AbstractFieldMapper.OpenBuilder` (lines 56-121) and the builder overrides in `BooleanFieldMapper` (lines 70-103) only re-expose or delegate to the common setters, which are modelled.
- The other members of `AbstractFieldMapper` are not part of this model: queries, filters, field data and getters.
- `BooleanFieldMapper.useFieldQueryWithQueryString` and `contentType` return constants and are not modelled.
- The fluent `return this` of the builders and requests is not modelled. A chain of setters is a sequence of method calls on the same object.
- The sub-phases of the fetch phase, the reader context and doc base, and the final `InternalSearchHits` are not modelled. Neither are source parsing and `extractValue`, which are parameters.
- The following parts of `Lucene` are not modelled: `cloneType`, `getDefaultFieldType`, `count`, `docId`, `safeClose`, `getSegmentInfo` (reflection) and `CountCollector` (float scores).
- `PublicTermsFilter` terms are ordered by field, then by text, each compared character by character as Unicode code points. Lucene compares the text as unsigned UTF-8 bytes, which is the same order. It compares the field with `String.compareTo`, which orders UTF-16 code units; that differs from code-point order only between a supplementary character and a character from U+E000 to U+FFFF, and the model does not capture that difference.
- `PublicTermsFilter.equals` is not modelled in two respects: its class check, since the other object is a `PublicTermsFilter` or null, and a null term set, which cannot arise.
- A term's text form is taken as `field:text`, which is what Lucene's `Term.toString` returns.
- `PublicTermsFilter.getDocIdSet` does not use its `Bits` argument, and neither does the model.
- BuildHits: the hit loop groups stored fields with the corrected rule (`GroupSpec`), not the code as written. On a loaded field with neither a mapper value nor bytes, the code as written throws a NullPointerException and fails the whole fetch, while the model makes the hit. `FetchPhase.HitForAsWritten` is the hit as written, and `FetchPhase.HitForRefinesAsWritten` proves that this is the only difference.
- BuildHit: the same as `BuildHits`, for one document.
- WriteTopDocs: when a sort value is unsupported, the failure carries no tokens. In the source, the header, the sort fields, the count and the earlier field docs are already written when the IOException is thrown.
- WriteFieldDocs: when a sort value is unsupported, the failure carries no tokens. In the source, the field docs before the failing one are already written.
- WriteFieldDoc: when a sort value is unsupported, the failure carries no tokens. In the source, the value count and the earlier values are already written.
- EncodeTopDocs: an unsupported sort value gives a failure with no partial stream, as for `WriteTopDocs`.
- `ReplicationRequest.IndexReplicationOperationRequest.WriteTo`: a null index fails the write with no tokens. In the source, the three values before it are already written when `writeUTF(null)` throws.
- The getters of `IndexReplicationOperationRequest` (lines 47-71) only return fields and are not modelled.
- `ShardReplicationOperationRequest.DEFAULT_TIMEOUT` is not part of this model. The constructor takes it as a parameter.
- `TimeValue` is one opaque token of the stream.
- A similarity provider is not modelled as an object. It is a value naming the factory, the name and the settings it was created with (`Created`), or the default provider of a name (`Default`). The index and its settings, which only the default factory receives, are left out.
- `UidField` is partly left out:
  - `readerValue`, `tokenStreamValue` and the `uid()`/`version()` getters are not modelled;
  - the reader carried in `DocIdAndVersion` is not modelled;
  - an exception during a scan is a failing step of the postings.
- `ExistsCollector.exists()` is the function `Exists` of the collector's flag. Its scorer and reader arguments are not used and are left out.
- Sort values of any class the stream does not carry are one `OtherValue` kind with the class name.
- An explanation's value and a field's boost (`AbstractFieldMapper.Builder.SetBoost`, `AbstractFieldMapper.FieldMapper.Merge`, `AbstractFieldMapper.DoXContentBody`, the `boost` option of `parseField`) are `real`s, not 32-bit floats, so float rounding is not modelled.

## Findings

| source | as written | input that shows it | evidently intended | confidence | as-written member | corrected member |
|---|---|---|---|---|---|---|
| src/main/java/org/elasticsearch/search/fetch/FetchPhase.java:203-207 | with no mapper value, the value is always `new BytesArray(field.binaryValue().bytes)`, so the string fallback at 206-207 can never run | an unmapped stored field "title" holding only the string "hello": `binaryValue()` is null and the read throws a NullPointerException | fall back to the bytes when there are bytes, and to the string otherwise | not executed | `FetchPhase.GroupAsWritten`, `FetchPhase.UnmappedStringFieldThrows` | `FetchPhase.GroupSpec`, `FetchPhase.GroupCollectsInOrder`, `FetchPhase.GroupFields` |
| src/main/java/org/elasticsearch/search/fetch/FetchPhase.java:138-144 | with specific stored fields requested, `_source` joins the selector only when fields are extracted, even when `_source` itself was requested | field names `["_source", "title"]` with "title" stored and mapped: the source is flagged as requested but is not loaded, so the hit has no source | also add `_source` when the source was requested | not executed | `FetchPhase.ComputeSelection`, `FetchPhase.SourceRequestedButNotLoaded` | `FetchPhase.CorrectedSelection`, `FetchPhase.CorrectedLoadsSource` |
