# RethinkDB B-tree row operations, in Dafny

A model of the row-level core of RethinkDB's `src/rdb_protocol/btree.cc`, with
proofs about it. This is the code that reads, writes and replaces documents in
a table's primary B-tree, records what changed, and keeps the table's
secondary indexes in step. The model covers:

- **Point operations**: `rdb_get`, `rdb_set`, `rdb_delete`, and the two slot
  writers `kv_location_set` / `kv_location_delete`. The B-tree is a map from
  key to (document, slot bytes).
- **The replace executor** `rdb_replace_and_return_superblock`:
  - the user's replace function is applied to the old value (null when absent);
  - the result is validated;
  - one of five transitions is performed (skipped, inserted, deleted,
    unchanged, replaced);
  - query errors and interruptions become an error entry in the response.
- **`rdb_batched_replace`**, by its sequential effect: replaces run in key
  order and modification reports reach the indexes in that order. Statistics
  are merged in key order too, which is one of the orders the source allows
  (see "Left out").
- **Secondary-index maintenance**:
  - `compute_keys` and `rdb_update_single_sindex` (remove the old document's
    index keys, then point the new document's keys at the new slot bytes);
  - `rdb_update_sindexes` with its zero-padded blob reference;
  - the range-erase key tester `sindex_key_range_tester_t`.
- **The modification-info wire format**: tag `HAS_VALUE = 0` or
  `HAS_NO_VALUE = 1` per half, with its round trip.
- **The range-scan callback** (`rdb_rget_depth_first_traversal_callback_t`,
  `init` and `handle_pair`): last-considered-key bookkeeping, the
  oversharding filter, multi-index tag selection, the transform pipeline,
  streaming against a row budget, and terminal folding.
- **`rdb_distribution_get`**: the `keys_per_bucket` estimate and the map it fills.

Files:

| file | module | contents |
|---|---|---|
| `wrappers.dfy` | `Wrappers` | `Option`, `Result` |
| `keys.dfy` | `Keys` | store keys, their order, `store_key_t::max()`, key ranges |
| `documents.dfy` | `Documents` | documents (`datum_t`) as a datatype |
| `modification.dfy` | `Modification` | modification info/report, wire format, round trip |
| `pointops.dfy` | `PointOps` | the primary store as a class; get/set/delete/replace and their specification functions |
| `pointops_props.dfy` | `PointProperties` | the transition table, failures, set/delete rules |
| `sindex.dfy` | `Sindex` | key derivation, index update, erase tester, ref padding |
| `batched.dfy` | `Batched` | batched replace |
| `rangescan.dfy` | `RangeScan` | the range-scan callback as a class, and its step function |
| `distribution.dfy` | `Distribution` | distribution buckets |

Each code path that changes state is a `method`:

- `PointOps.PrimaryStore`, `Sindex.SecondaryIndex` and `RangeScan.RgetCallback`
  hold the fields the source updates in place. Their methods are the
  operations on one store, index or callback.
- `Batched.ReplaceAndReport`, `Batched.BatchedReplace` and
  `Sindex.UpdateSindexes` are module-level methods. They drive several of
  those objects together, as the source's free functions do.
- Each such method is proved equal to a specification function of the old
  state (`SetSpec`, `DeleteSpec`, `ReplaceSpec`, `ApplyReport`, `BatchSpec`,
  `HandlePairStep`).
- The properties are lemmas about those functions.

Collaborators defined elsewhere in RethinkDB enter as function-valued fields
of plain datatypes:

- `PointOps.Table`: the primary-key printer (which can fail with a query
  error, as `print_primary` can), document printer and slot encoder;
- `Sindex.KeyCodec` and `Sindex.IndexDef`: the secondary key printer and
  extractors, and the index function;
- `RangeScan.ScanConfig`: the transforms, terminal, index function and the
  batcher's row budget.

Where the code relies on a relation between these collaborators, the relation
is stated as a named predicate and required:

- `PointOps.EncodingFits`: an encoded value takes 1 to `btree_maxreflen` bytes.
- `Sindex.Coherent`: `extract_primary` and `extract_tag` undo `print_secondary`.

## Model

| member | source | states |
|---|---|---|
| `PointOps.PrimaryStore.RdbGet` | src/rdb_protocol/btree.cc:57-70 | an absent key reads as a null document; a present key reads as its stored document |
| `PointOps.LocationSet` | src/rdb_protocol/btree.cc:101-139 | the key maps to the document and its encoding, every other key is unchanged, the report's added bytes are the new encoding and its deleted bytes are the old slot's bytes exactly when the key existed |
| `PointOps.LocationDelete` | src/rdb_protocol/btree.cc:72-99 | the key is gone, every other key is unchanged, and the report's deleted bytes are the old slot's bytes |
| `PointOps.PrimaryStore.KvLocationSet` | src/rdb_protocol/btree.cc:101-139 | the in-place write yields exactly `LocationSet` of the old store and keeps every slot the encoding of its document |
| `PointOps.PrimaryStore.KvLocationDelete` | src/rdb_protocol/btree.cc:72-99 | the in-place removal yields exactly `LocationDelete` of the old store and keeps the store well-formed |
| `PointOps.PrimaryStore.RdbSet` | src/rdb_protocol/btree.cc:365-394 | the new store, answer and report are those of `SetSpec` on the old store; the store stays well-formed |
| `PointProperties.SetWritesIffAllowed` | src/rdb_protocol/btree.cc:377-393 | rdb_set writes iff `overwrite` is set or the key is absent, and answers DUPLICATE iff a value existed, even when it overwrote it |
| `PointProperties.SetTwiceKeepsFirst` | src/rdb_protocol/btree.cc:377-393 | two non-overwriting sets of an absent key: STORED then DUPLICATE, and the first document stays |
| `PointProperties.SetReportOnWrite` | src/rdb_protocol/btree.cc:379-391 | a set that writes reports the new document with its bytes, and the old document with its bytes exactly when one existed; the report is sound |
| `PointProperties.DuplicateSetReportHasNoBytes` | src/rdb_protocol/btree.cc:379-391 | a non-overwriting set of an existing key writes nothing yet names both documents in the report with empty bytes, so that report is not sound |
| `PointOps.PrimaryStore.RdbDelete` | src/rdb_protocol/btree.cc:449-467 | corrected closing check: deleted bytes are non-empty exactly when the answer is DELETED, and nothing is added; the effect is `DeleteSpec` |
| `PointOps.PrimaryStore.RdbDeleteAsWritten` | src/rdb_protocol/btree.cc:449-467 | rdb_delete with the guarantee as written; it holds only when the key is present or the report already held deleted bytes |
| `PointProperties.DeletePresentReportsDeleted` | src/rdb_protocol/btree.cc:457-466 | deleting a present key removes it, answers DELETED, and reports its document and bytes as deleted and nothing as added |
| `PointProperties.DeleteMissingReportsNothing` | src/rdb_protocol/btree.cc:457-466 | deleting a missing key answers MISSING and changes neither the store nor the report |
| `PointProperties.MissingDeleteFailsGuarantee` | src/rdb_protocol/btree.cc:465 | with a fresh report, a missing key violates rdb_delete's closing guarantee |
| `PointOps.ValidReplaceError` | src/rdb_protocol/btree.cc:203-204 | an accepted object has the primary-key field, and keeps an existing row's primary-key value |
| `PointOps.Classify` | src/rdb_protocol/btree.cc:199-266 | null gives skipped (absent) or deleted (present); an accepted non-null result is an object whose primary key prints to the key; insert iff the key was absent; unchanged iff the key was present and the objects are equal; a primary-key value that cannot be printed is refused with print_primary's own error; a refusal is never for null |
| `PointOps.AddError` | src/rdb_protocol/btree.cc:268-272 | the error entry: `errors` is 1, `first_error` is the message, other fields unchanged |
| `PointOps.PrimaryStore.Replace` | src/rdb_protocol/btree.cc:155-279 | the new store, response and report are those of `ReplaceSpec`; the store stays well-formed |
| `PointOps.PrimaryStore.CommitTransition` | src/rdb_protocol/btree.cc:228-266 | the write for a classified transition is exactly `Commit`, with the transition's report guarantees checked |
| `PointProperties.AbsentToNullSkips` | src/rdb_protocol/btree.cc:228-230 | absent + null: only "skipped", no write, empty report |
| `PointProperties.AbsentToObjectInserts` | src/rdb_protocol/btree.cc:231-239 | absent + keyed object: only "inserted", key written, report holds the added half only |
| `PointProperties.PresentToNullDeletes` | src/rdb_protocol/btree.cc:241-247 | present + null: only "deleted", key removed, report holds the deleted half only |
| `PointProperties.PresentToEqualUnchanged` | src/rdb_protocol/btree.cc:249-253 | present + equal object: only "unchanged", no write, empty report |
| `PointProperties.PresentToOtherReplaces` | src/rdb_protocol/btree.cc:254-264 | present + different object with the same key: only "replaced", key rewritten, both halves reported |
| `PointProperties.NonObjectIsRefused` | src/rdb_protocol/btree.cc:215-219 | a non-null non-object result is refused with "Inserted value must be an OBJECT", with no write and no status |
| `PointProperties.ChangedPrimaryKeyIsRefused` | src/rdb_protocol/btree.cc:205-214 | on any store, present or absent key, an object whose primary key prints to another key is refused with "Primary key ... cannot be changed" (null -> new when the key was absent, old -> new otherwise), with no write and no status |
| `PointProperties.UnprintablePrimaryKeyIsReported` | src/rdb_protocol/btree.cc:205-209 | a primary-key value that print_primary rejects becomes `errors`/`first_error` with print_primary's message, with no write and no status |
| `PointProperties.EvaluationFailureIsReported` | src/rdb_protocol/btree.cc:268-277 | a query error or interruption becomes `errors`/`first_error` (the interruption message names line 271), with no write and no status |
| `PointProperties.ReplaceRecordsOneOutcome` | src/rdb_protocol/btree.cc:221-267 | every replace records either exactly one status counter set to 1 and no error, or an error with no status and store and report unchanged |
| `PointProperties.ReplaceKeepsRowsKeyed` | src/rdb_protocol/btree.cc:199-266 | replace preserves "every row is an object whose primary key prints to its own key" |
| `PointProperties.ReplaceKeepsPrimaryKeys` | src/rdb_protocol/btree.cc:183-186 | replace preserves "every row has its primary-key field", which the next replace of that row requires |
| `PointProperties.ReplaceKeepsSlotsEncoded` | src/rdb_protocol/btree.cc:228-266 | replace preserves "every slot holds its document's encoding" |
| `PointProperties.ReplaceReportSound` | src/rdb_protocol/btree.cc:234-263 | a replace's report has a document in a half iff it has slot bytes there, within a blob reference |
| `Batched.ReplaceAndReport` | src/rdb_protocol/btree.cc:296-319 | one per-key task: the store changes as `ReplaceSpec`, and every index receives its report |
| `Batched.BatchedReplace` | src/rdb_protocol/btree.cc:321-363 | the final store, statistics (merged in submission order) and applied reports are those of the in-order fold `BatchSpec`; each index is the in-order application of those reports |
| `Batched.BatchReportsInSubmissionOrder` | src/rdb_protocol/btree.cc:307-318 | there is one report per key, and report i is for keys[i] |
| `Batched.BatchIsSequentialFold` | src/rdb_protocol/btree.cc:341-360 | report i is exactly what replacing keys[i] (with its index) did to the store that keys[..i] left |
| `Batched.BatchReportsSound` | src/rdb_protocol/btree.cc:310-318 | over a well-formed store, every report of a batch is sound and the store stays well-formed |
| `Sindex.TaggedKeysShape` | src/rdb_protocol/btree.cc:1039-1043 | the tagged derivation succeeds iff every element prints; then key i is element i printed with tag i |
| `Sindex.TaggedKeysFailureSticks` | src/rdb_protocol/btree.cc:1040-1043 | once an element fails to print, the whole derivation fails with that error |
| `Sindex.DerivedKeysShape` | src/rdb_protocol/btree.cc:1032-1047 | multi index over an array of n elements: n keys in order, key i printed with tag i; otherwise exactly one untagged key; a failing index function fails the derivation |
| `Sindex.ComputeKeys` | src/rdb_protocol/btree.cc:1032-1047 | the push loop into an empty vector yields exactly `DerivedKeys` |
| `Sindex.ApplyReportContents` | src/rdb_protocol/btree.cc:1078-1142 | after a report, each added key holds the added bytes; each deleted key that is not re-added is gone; every other key is unchanged |
| `Sindex.SameKeysLeaveOneEntry` | src/rdb_protocol/btree.cc:1078-1142 | when old and new documents derive the same keys, each key has exactly one entry, holding the new bytes, and nothing else changes |
| `Sindex.DerivationErrorSkipsSide` | src/rdb_protocol/btree.cc:1107-1141 | a derivation error on the deleted side deletes nothing; on the added side it adds nothing |
| `Sindex.EmptyReportChangesNothing` | src/rdb_protocol/btree.cc:1078-1112 | a report with neither document leaves the index unchanged |
| `Sindex.SecondaryIndex.UpdateSingle` | src/rdb_protocol/btree.cc:1050-1143 | the index after the update is `ApplyReport` of the old index |
| `Sindex.SecondaryIndex.DeleteEach` | src/rdb_protocol/btree.cc:1087-1106 | the delete loop removes exactly the listed keys, tolerating absent ones |
| `Sindex.SecondaryIndex.SetEach` | src/rdb_protocol/btree.cc:1120-1138 | the set loop points exactly the listed keys at the given bytes |
| `Sindex.PadRef` | src/rdb_protocol/btree.cc:1162-1165 | the padded reference is `btree_maxreflen` bytes long: the deleted bytes followed by zeros |
| `Sindex.UpdateSindexes` | src/rdb_protocol/btree.cc:1145-1170 | every index becomes `ApplyReport` of itself; the padded reference is released exactly when a document was deleted |
| `Sindex.ErasureFollowsPrimaryKey` | src/rdb_protocol/btree.cc:488-493 | given coherent key helpers, an index key derived for a row is erased iff the row's primary key is in the erased range |
| `Modification.Serialize` | src/rdb_protocol/btree.cc:962-978 | deleted half then added half; each is tag 0 and the pair when present, or tag 1 alone when absent; an absent half must have no bytes |
| `Modification.HalfRoundTrip` | src/rdb_protocol/btree.cc:963-998 | reading a written half gives it back when present, and leaves the destination as it was when absent |
| `Modification.RoundTrip` | src/rdb_protocol/btree.cc:962-1001 | reading what was written, into a default info, gives back the same info and stops exactly at its end |
| `Modification.RoundTripOverPrior` | src/rdb_protocol/btree.cc:980-1001 | reading into an info that already holds data keeps its halves wherever the stream says absent |
| `Modification.NonZeroTagReadsAbsent` | src/rdb_protocol/btree.cc:987-990 | any tag other than 0 reads as absent |
| `Modification.TruncatedPairFails` | src/rdb_protocol/btree.cc:987-989 | a stream that ends after a HAS_VALUE tag is a read error |
| `RangeScan.InitSeedsLastConsidered` | src/rdb_protocol/btree.cc:682-708 | init seeds the last considered key at range.left going forward, at range.right.key going backward, or at `store_key_t::max()` when unbounded, which every storable key is at or before; it fails init iff the terminal's initialisation fails |
| `RangeScan.RgetCallback.constructor` | src/rdb_protocol/btree.cc:682-708 | the new callback's state is `InitState` of its configuration and range |
| `RangeScan.AdvanceIsFurthest` | src/rdb_protocol/btree.cc:760-763 | the advanced key is the further of the old key and the current key in the scan direction |
| `RangeScan.LastConsideredNeverRetreats` | src/rdb_protocol/btree.cc:711-849 | no call of handle_pair moves the last considered key backward |
| `RangeScan.TraversalNeverRetreats` | src/rdb_protocol/btree.cc:758-763 | over a whole traversal, however many pairs it takes, the last considered key ends at or beyond where it started in the scan direction |
| `RangeScan.SamplerInstalledIffInitSucceeds` | src/rdb_protocol/btree.cc:682-708 | init installs the profiling sampler exactly when it does not set bad_init, and sets bad_init exactly when the terminal's initialisation throws |
| `RangeScan.HandlePairKeepsSampler` | src/rdb_protocol/btree.cc:711-849 | handle_pair changes neither the sampler nor bad_init, so a state without the sampler stays without it for the whole traversal |
| `RangeScan.FailedInitReachesEmptySampler` | src/rdb_protocol/btree.cc:694-718 | as written: after a throwing terminal initialisation, bad_init is set but the sampler that handle_pair dereferences first is empty |
| `RangeScan.BadInitStops` | src/rdb_protocol/btree.cc:716-718 | corrected: after a failed init, every call returns false and changes nothing, as the catch blocks intend |
| `RangeScan.ForeignShardRowSkipped` | src/rdb_protocol/btree.cc:719-725 | a row whose primary key is outside this shard continues the scan with the state unchanged, not even the last considered key |
| `RangeScan.OutOfIndexRangeSkipped` | src/rdb_protocol/btree.cc:760-786 | a row whose index value (on a multi index, the array element its key's tag selects) is out of the index range continues the scan after only advancing the last considered key |
| `RangeScan.MultiIndexUsesTaggedElement` | src/rdb_protocol/btree.cc:775-782 | on a multi index whose value is an array, the row is tested and streamed under the element its key's tag names |
| `RangeScan.PrimaryRowStreamed` | src/rdb_protocol/btree.cc:812-828 | without transforms or terminal, the row is appended as one item and the call continues iff the batch budget is not yet reached |
| `RangeScan.ContinuingKeepsReady` | src/rdb_protocol/btree.cc:711-849 | a call that returns true leaves the result shaped for the next call; a call that returns false ended in bad init, an error, or a full batch |
| `RangeScan.PipelineFailureSticks` | src/rdb_protocol/btree.cc:789-809 | once a transform stage fails, the pipeline fails with that error |
| `RangeScan.FlatMapFailureSticks` | src/rdb_protocol/btree.cc:794-797 | once a datum fails in a stage, the stage fails with that error |
| `RangeScan.FoldFailureSticks` | src/rdb_protocol/btree.cc:829-842 | once the terminal fails on a datum, the fold fails with that error |
| `RangeScan.ApplyStage` | src/rdb_protocol/btree.cc:790-801 | one stage's loop yields exactly `FlatMap`: the outputs concatenated in order, or the first error |
| `RangeScan.RunTransforms` | src/rdb_protocol/btree.cc:787-809 | the transform loop yields exactly `Pipeline` of the row |
| `RangeScan.ApplyTerminal` | src/rdb_protocol/btree.cc:829-842 | the terminal loop yields exactly `Fold`: each datum absorbed in order, or the first error |
| `RangeScan.RgetCallback.PushItems` | src/rdb_protocol/btree.cc:812-828 | the stream grows by one item per datum, in order, and the batcher's row count by the number of data |
| `RangeScan.RgetCallback.Emit` | src/rdb_protocol/btree.cc:788-841 | the transform-then-stream-or-fold tail of handle_pair changes the state and answers exactly as `EmitStep` of the old state |
| `RangeScan.RgetCallback.HandlePair` | src/rdb_protocol/btree.cc:711-849 | the new state and the answer are exactly `HandlePairStep` of the old state |
| `RangeScan.PlainScanFillsBatch` | src/rdb_protocol/btree.cc:890-904 | a plain primary scan streams the first min(#pairs, room) pairs in scan order, where room is the budget less the rows already counted; the batcher reports the budget reached (and the response is truncated) iff #pairs >= room, so an exact fit streams every pair and still reaches the budget |
| `Distribution.KeysPerBucket` | src/rdb_protocol/btree.cc:944-949 | the whole count without splits; otherwise at least 1, and the floor of count / #splits when the count reaches #splits |
| `Distribution.DistributionGet` | src/rdb_protocol/btree.cc:935-957 | the result's keys are the left key and every split key, each mapped to `KeysPerBucket` |

## Left out

- The B-tree engine itself is outside this model: leaf location, superblock
  hand-off, buffers and timestamps. The B-tree is a map.
- The blob layer is outside this model: `serialize_onto_blob`,
  `detach_subtree`, value sizing and `rdb_value_deleter_t::delete_value`. A
  slot's bytes are an abstract function of the document. `UpdateSindexes`
  returns the padded reference it would hand to the deleter.
- Coroutines in `rdb_batched_replace`, `rdb_update_sindexes` and
  `post_construct_secondary_indexes` are not modelled: `spawn_sometime`, the
  FIFO enforcer, `auto_drainer_t` and superblock promises. Only the in-order
  sequential effect is modelled; index updates for one report run one index
  after another, which gives the same result because each index is separate.
- Not modelled: `post_construct_secondary_indexes`, `rdb_backfill` and its
  callback, and the engine calls in `rdb_erase_range` / `sindex_erase_range`.
  Of the latter only the key tester is modelled. In that code the secondary
  indexes are erased before the primary range.
- `on_mod_report` pushes each report onto the index queue before updating the
  indexes. The queue write is not modelled.
- Not modelled: profiling, tracing and statistics counters. Of the profiling
  objects only whether init installed the sampler is kept (`samplerSet`),
  because `handle_pair` dereferences it (see "## Findings").
- Interruption is modelled only where the replace executor catches it. An
  interruption propagated out of `handle_pair` is not modelled.
- Documents are a datatype with integer numbers. Floating point, `datum_t`
  printing and `get_type_name` beyond the six type names are not modelled.
  The printed forms of documents are the `Table.render` parameter.
- Not modelled: the backtrace decoration that `transform_exception` and
  `terminal_exception` add. An evaluation error ends the scan as
  `Failed(message)`.
- `PointOps.ValidReplaceError`: `datum_t::rcheck_valid_replace` is defined
  outside this model. Only the two facts the replace code depends on are
  modelled: the primary-key field is present, and an existing row's
  primary-key value is kept. Its messages are modelled strings.
- `datum_ptr_t::add_error` and `ql::stats_merge` are defined outside this
  file. The response is a map from field name to document. `AddError` models
  `add_error` only on a response that has no error yet, which is the only
  case the replace executor produces. Statistics merging is a parameter of
  `BatchedReplace`.
- `Batched.BatchedReplace`: the source merges each key's response into the
  statistics (btree.cc:313) before it waits for its turn at the FIFO
  (btree.cc:317), so statistics are merged in completion order, which the
  scheduler decides. The model fixes submission order for the merge, as it
  does for the replaces and the reports. For a `merge` that is commutative
  and associative the two agree. For any other `merge` the model gives one
  possible schedule, not a result the program guarantees.
- The batcher counts rows only. Its byte-size and time budgets are not
  modelled.
- The lazy loading of row values is not modelled. It is an optimisation that
  changes no result.
- `RangeScan.RgetCallback.HandlePair` requires what the source only
  `guarantee`s (a process abort): on a multi index the key carries a tag
  within the array. It also requires that the result has the shape the next
  call needs (`guarantee(stream)`).
- `reversed(sorting)` is defined outside this file. It is modelled as "the
  sorting is descending".
- `PointOps.PrimaryStore.Replace` requires that an existing row has its
  primary-key field, as the source guarantees at line 185.
  `PointProperties.ReplaceKeepsPrimaryKeys` shows that replace preserves this.

## Findings

| source | as written | input that shows it | evidently intended | confidence | as-written member | corrected member |
|---|---|---|---|---|---|---|
| src/rdb_protocol/btree.cc:465 | after every `rdb_delete`, `guarantee(!mod_info->deleted.second.empty() && ...)` | deleting a key that is not in the table, with a fresh report: the MISSING branch leaves the deleted bytes empty and the guarantee aborts | deleted bytes are required only when the key existed (the DELETED answer) | high, not executed | `PointProperties.MissingDeleteFailsGuarantee` | `PointOps.PrimaryStore.RdbDelete` |
| src/rdb_protocol/btree.cc:714 | `handle_pair` calls `sampler->new_sample()` before testing `bad_init` at line 716 | a range scan with a terminal whose initialisation throws, over a range holding at least one row: init jumps to its catch before `sampler.init` (line 699), so the first `handle_pair` dereferences an empty `scoped_ptr_t` | a failed init makes every `handle_pair` return false, as the catch comments at lines 700 and 704 say | high, not executed | `RangeScan.FailedInitReachesEmptySampler` | `RangeScan.BadInitStops` |

The code also differs from the behaviour documented for these operations in
two places (a duplicate `rdb_set` that does nothing, and a `rdb_delete` of a
missing key that leaves the report empty). For each, the model keeps the code
as written:

- `rdb_set` without `overwrite` on an existing key writes nothing, yet still
  fills the report with both documents and empty slot bytes
  (`PointProperties.DuplicateSetReportHasNoBytes`).
- `rdb_delete` enforces its closing guarantee on every path, not only the
  DELETED path (`PointOps.PrimaryStore.RdbDeleteAsWritten`; the first finding
  above gives the corrected member).
