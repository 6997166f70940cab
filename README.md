# ISOmorphe batch transform/migrate engine, in Dafny

ISOmorphe edits the metadata records of a GeoNetwork catalog in bulk. A
session runs in three steps:

- **select**: a search over the catalog gives a list of records.
- **transform**: an XSLT file is applied to each record. Each record gets
  one outcome in a transform batch: success, failure, or skipped with a
  reason.
- **migrate**: the successes are written back. A write either updates the
  record in place through the editor endpoint or creates a new record in
  a group. Each write gets one outcome in a migrate batch.

The model covers this engine (`isomorphe/`) and the first generation of the
same logic (`ecospheres_migrator/`). Each source file has its own module:

| module | file | source |
|---|---|---|
| `Geonetwork` | `geonetwork.dfy` | `isomorphe/geonetwork.py`: record types; the metadata type and workflow state derived from a search hit; the uuid of a created record, read back from the catalog's answer; the requests `update_record` and `put_record` send |
| `GeonetworkSearch` | `search.dfy` | `isomorphe/geonetwork.py`: the `__extra__` overrides; the version 3 and version 4 search parameters; `uuid_filter`; the pagination loop of `get_records` |
| `Batch` | `batch.dfy` | `isomorphe/batch.py`: outcome variants, `SkipReason`, and the append-only classes `TransformBatch` and `MigrateBatch` |
| `Migrator` | `migrator.dfy` | `isomorphe/migrator.py`: `Transformation`, and the `Migrator` class with `select`, `transform` and `migrate` |
| `LegacyGeonetwork` | `legacy_geonetwork.dfy` | `ecospheres_migrator/geonetwork.py` |
| `LegacyBatch` | `legacy_batch.dfy` | `ecospheres_migrator/batch.py` |
| `LegacyMigrator` | `legacy_migrator.dfy` | `ecospheres_migrator/migrator.py` |

Four support modules model the Python building blocks the code relies on:

- `Wrappers`: `Option` and `Result`, where an exception is an `Err` with its message.
- `Text`: `split`, `join`, `strip`, `lower`, `removesuffix` and `int()`.
- `Dicts`: insertion-ordered dictionaries, with `|` and `|=` as `Update`.
- `Seqs`: order-preserving filters; `MapAll`, a comprehension whose element call may raise; and `Traverse`, a loop over a list that keeps going until the first exception.

The catalog and the XSLT engine are not modelled. They are given as functions:

- The search endpoint: parameters and a position in, a page or an error out.
- The record fetch.
- The `extract_record_info` rewrite.
- The answer to each write request.
- The XSLT transformation.
- `xml_to_string`, the canonical text that original and result are compared by.

Each loop in the source is a Dafny method with loop invariants. The method
is proved equal to a function that states what the loop computes, and the
lemmas state what that function guarantees. The batches are classes whose
methods append to a `records` field.

Where the files disagree, the model follows the code. `isomorphe/migrator.py`
imports `RecordStatus`, `TransformLog`, `derive_from` and
`batch.select(statuses=...)`, but `isomorphe/batch.py` defines none of them.
The model therefore gives the success records the fields `migrator.py` passes
(`result`, `log`). It treats `RecordStatus` as a set of flags tested for
`SUCCESS`, and `select` as an order-preserving choice among the success
records. The choice is made by a given predicate `keeps`.

The code also differs from what the `always_apply` docstring says. That
docstring states that an "always apply" transformation is never skipped. In
the code, unsupported records and records with a working copy are still
skipped before the transformation runs (`Migrator.SkipBeforeTransform`). Only
the "no changes" skip is suppressed (`Migrator.AlwaysApplySucceeds`).

## Model

| member | source | states |
|---|---|---|
| `Migrator.Transformation.DisplayName` | isomorphe/migrator.py:53-55 | the displayed name with `~always` appended gives back the stem of an "always apply" transformation; any other transformation is displayed under its stem |
| `Migrator.DisplayNameOfSuffixed` | isomorphe/migrator.py:45-55 | any name with `~always` appended makes an "always apply" transformation that is displayed under that name |
| `Migrator.AlwaysApplyIffRenamed` | isomorphe/migrator.py:72-78 | a transformation is "always apply" exactly when its displayed name differs from its stem |
| `Migrator.SelectQuery` | isomorphe/migrator.py:104-105 | merging the `harvested` default with no filters raises; with filters it succeeds |
| `Migrator.SelectQueryOverrides` | isomorphe/migrator.py:104-105 | in the merged query each caller filter keeps its value; `harvested` is False unless the caller sets it; no other key appears |
| `Migrator.SelectDefaultNotHarvested` | isomorphe/migrator.py:104-107 | on a version 3 catalog, filters that say nothing about harvesting search with `_isHarvested` = "n" |
| `Migrator.Migrator.constructor` | isomorphe/migrator.py:88-92 | the migrator works on the catalog it is given |
| `Migrator.Migrator.Select` | isomorphe/migrator.py:98-110 | `select` returns what `get_records` returns for the merged query |
| `Migrator.Classify` | isomorphe/migrator.py:139-189 | the first rule that applies wins. An unsupported type is skipped as UNSUPPORTED_METADATA_TYPE. A working copy is skipped as HAS_WORKING_COPY. Otherwise a transformation error is a failure carrying that error. Otherwise the outcome is a success, carrying the canonical result and the log, exactly when the canonical text changed or the transformation is "always apply". Any other outcome is skipped with no reason and keeps the log |
| `Migrator.SkipBeforeTransform` | isomorphe/migrator.py:139-154 | an unsupported record or a working copy is skipped whatever the transformation would do |
| `Migrator.AlwaysApplySucceeds` | isomorphe/migrator.py:166-175 | an "always apply" transformation that runs without error on a supported record without working copy always succeeds |
| `Migrator.ProcessRecord` | isomorphe/migrator.py:127-189 | the outcome of one record is an error exactly when fetching it or rewriting it raises. Otherwise the outcome is the classification `Classify` states for the rewritten document, carrying the record's uuid, type and state, the catalog url, and the canonical text of that document |
| `Migrator.TransformOnePerRecord` | isomorphe/migrator.py:125-190 | a transform that completes has exactly one outcome per selected record, in selection order, each the classification `ProcessRecord` gives that record and carrying its uuid, type and state |
| `Migrator.TransformAbortsOnFetchError` | isomorphe/migrator.py:122-131 | the transform raises exactly when some record cannot be fetched or rewritten, and it raises the error of the first such record; transformation errors never abort it |
| `Migrator.Migrator.Transform` | isomorphe/migrator.py:112-192 | the loop fails with the error of the sources or of the first failed fetch; otherwise it returns a new batch named after the transformation, holding the outcomes `TransformOnePerRecord` describes |
| `Migrator.MigrateOneOutcome` | isomorphe/migrator.py:210-246 | every outcome copies the success's uuid, original, result and type, and the catalog url. In place: success exactly when the update raises nothing, with the source uuid as target, and otherwise the update's error. As a creation: failure "Group must be set when not overwriting" without a group; otherwise success exactly when the creation succeeds, with the uuid read from the answer as target, and failure with the creation's error otherwise |
| `Migrator.MigrateIsolated` | isomorphe/migrator.py:209-246 | a failure never affects another record: migrating two runs one after the other gives each run's outcomes unchanged, so the outcomes are one per selected success, in order |
| `Migrator.OverwriteKeepsWorkflow` | isomorphe/migrator.py:218-221 | the in-place update of `migrate` sends no status and asks for no re-approval; it succeeds exactly when the editor view and the save succeed |
| `Migrator.Migrator.WriteBack` | isomorphe/migrator.py:217-246 | the body of the `try` records the outcome `MigrateOneOutcome` describes |
| `Migrator.Migrator.WriteAll` | isomorphe/migrator.py:209-246 | the loop appends to the batch one outcome per selected success, in order, each the outcome `MigrateOneOutcome` describes for that record alone |
| `Migrator.Migrator.Migrate` | isomorphe/migrator.py:194-248 | a new batch, in mode OVERWRITE exactly when overwriting, keeping the job id. It holds one outcome per record that `select` keeps for the statuses containing SUCCESS, and every such record is a transform success |
| `Batch.SkipReason.Code` | isomorphe/batch.py:88-91 | the codes are 1, 2 and 3, and each code reads back as its reason |
| `Batch.SkipReasonOf` | isomorphe/batch.py:88-91 | a code names a reason exactly when it is 1, 2 or 3 |
| `Batch.MessagesDistinct` | isomorphe/batch.py:77-85 | two reasons have the same message exactly when they are the same reason |
| `Batch.SuccessStatuses` | isomorphe/migrator.py:208 | keeps exactly the statuses that contain SUCCESS, every copy of each, in order |
| `Batch.TransformBatch.constructor` | isomorphe/batch.py:102-104 | a new batch is empty and keeps the transformation name |
| `Batch.TransformBatch.Add` | isomorphe/batch.py:106-107 | `add` appends at the end and changes nothing else; the successes grow by the record exactly when it is a success |
| `Batch.TransformBatch.Successes` | isomorphe/batch.py:109-110 | the success records of the batch and nothing else, each as many times as the batch holds it, in batch order |
| `Batch.TransformBatch.Failures` | isomorphe/batch.py:112-113 | the failure records of the batch and nothing else, each as many times as the batch holds it, in batch order |
| `Batch.TransformBatch.Skipped` | isomorphe/batch.py:115-116 | the skipped records of the batch and nothing else, each as many times as the batch holds it, in batch order |
| `Batch.TransformBatch.Select` | isomorphe/migrator.py:209 | what `select` keeps are success records of the batch, in batch order |
| `Batch.TransformCounts` | isomorphe/batch.py:109-116 | the three variants split the batch: their counts add up to the number of records |
| `Batch.MigrateMode.Value` | isomorphe/batch.py:149-151 | each mode's value reads back as that mode |
| `Batch.MigrateModeOf` | isomorphe/batch.py:149-151 | only "create" and "overwrite" name a mode |
| `Batch.MigrateBatch.constructor` | isomorphe/batch.py:155-158 | a new batch is empty, with the mode and job id given |
| `Batch.MigrateBatch.Add` | isomorphe/batch.py:160-161 | `add` appends at the end |
| `Batch.MigrateBatch.Successes` | isomorphe/batch.py:163-164 | the success records of the batch and nothing else, each as many times as the batch holds it, in batch order |
| `Batch.MigrateBatch.Failures` | isomorphe/batch.py:166-167 | the failure records of the batch and nothing else, each as many times as the batch holds it, in batch order |
| `Batch.MigrateCounts` | isomorphe/batch.py:163-167 | successes and failures split a migrate batch |
| `Geonetwork.MetadataType.Value` | isomorphe/geonetwork.py:17-21 | each type's code reads back as that type |
| `Geonetwork.MetadataTypeOf` | isomorphe/geonetwork.py:17-21 | only "n", "y", "s" and "t" name a type; anything else raises |
| `Geonetwork.WorkflowStatus.Code` | isomorphe/geonetwork.py:24-30 | the codes are 0 to 5, and each reads back as its status |
| `Geonetwork.WorkflowStatusOf` | isomorphe/geonetwork.py:24-30 | a number names a status exactly when it is between 0 and 5 |
| `Geonetwork.GetMetadataType` | isomorphe/geonetwork.py:170-172 | without `isTemplate` the type is METADATA; otherwise the code is read, raising unless it is one of the four, and the type found has that code |
| `Geonetwork.ParseStatus` | isomorphe/geonetwork.py:180 | `WorkflowStatus(int(s))` succeeds exactly for the integers 0 to 5 and gives the status with that code |
| `Geonetwork.GetWorkflowState` | isomorphe/geonetwork.py:174-193 | there is no state exactly when `mdStatus` is absent. The stage is WORKING_COPY exactly when `draft` = "e", and then the status is UNKNOWN whatever `mdStatus` holds. Otherwise the status is `mdStatus`, the stage is APPROVED when the status is APPROVED and NEVER_APPROVED for every other status, and an unreadable status raises |
| `Geonetwork.AsRecord` | isomorphe/geonetwork.py:424-434 | a hit without uuid gives no record. A hit with an unreadable type or state raises. Otherwise the record has the hit's uuid, its title ("" when absent), and the derived type and state |
| `Geonetwork.MatchFrom` | isomorphe/geonetwork.py:240-242 | the leftmost position, at or after the start, where a quoted lowercase 8-4-4-4-12 uuid begins |
| `Geonetwork.SearchUuid` | isomorphe/geonetwork.py:240-243 | nothing exactly when no quoted uuid occurs in the message; otherwise the uuid inside the leftmost match |
| `Geonetwork.SearchUuidOfImportMessage` | isomorphe/geonetwork.py:219-243 | in GeoNetwork's message "Metadata imported from XML with UUID '…'", the uuid found is the imported one |
| `Geonetwork.FirstUuid` | isomorphe/geonetwork.py:237-244 | nothing exactly when every message is present and holds no uuid; a uuid found is well formed |
| `Geonetwork.UuidOfPutResponse` | isomorphe/geonetwork.py:233-244 | a missing or empty `metadataInfos` gives nothing; any uuid returned is well formed |
| `Geonetwork.ExtractUuidFromPutResponse` | isomorphe/geonetwork.py:219-244 | the nested loop, which returns at the first match, gives the first uuid over all messages in order |
| `Geonetwork.StatusSent` | isomorphe/geonetwork.py:307-320 | the form never carries APPROVED. It carries no status exactly when there is no state. It carries SUBMITTED for an APPROVED record and the record's own status otherwise |
| `Geonetwork.StatusFieldReadBack` | isomorphe/geonetwork.py:318-320 | the status field of the form reads back, as an integer, as the status sent |
| `Geonetwork.FormFields` | isomorphe/geonetwork.py:297-320 | the form sent holds `minor`, `template` and `data` as filled in, and `status` only once it is set |
| `Geonetwork.SavedForm` | isomorphe/geonetwork.py:297-320 | `minor` is "false" exactly when the date stamp is to be updated, the record type reads back from `template`, and the form carries the new XML. The status is absent exactly without a workflow, SUBMITTED for an APPROVED record, the record's own status otherwise, and never APPROVED |
| `Geonetwork.UpdateRequestsShape` | isomorphe/geonetwork.py:286-335 | the editor view goes first. The save follows exactly when the view succeeds on a record without working copy, and it carries the form `SavedForm` describes. The re-approval follows exactly when the save succeeds on a record in stage APPROVED |
| `Geonetwork.UpdateErrorMeaning` | isomorphe/geonetwork.py:286-335 | the update raises nothing exactly when the record has no working copy and every request sent succeeds; an error raised is a sent request's error, or the working-copy refusal once the view succeeds |
| `Geonetwork.UpdateRecord` | isomorphe/geonetwork.py:270-335 | the step-by-step update sends the requests `UpdateRequestsShape` describes and ends with the error `UpdateErrorMeaning` describes |
| `Geonetwork.CreateParams` | isomorphe/geonetwork.py:258-262 | a creation asks for a generated uuid in the given group; `metadataType` is TEMPLATE exactly for a template and METADATA exactly for a plain record |
| `Geonetwork.PutOutcome` | isomorphe/geonetwork.py:255-268 | a failed creation raises its error; a successful one gives what `UuidOfPutResponse` reads from the answer, which is well formed |
| `Geonetwork.PutRecord` | isomorphe/geonetwork.py:246-268 | `put_record(...)["new_record_uuid"]` is the outcome `PutOutcome` describes |
| `GeonetworkSearch.ParsePiece` | isomorphe/geonetwork.py:134 | a piece unpacks exactly when it holds one "="; neither side has whitespace at its ends |
| `GeonetworkSearch.ParsePieceSides` | isomorphe/geonetwork.py:134 | the key is the text before the "=" and the value the text after it, each with the whitespace at its ends cut off |
| `Text.Strip` | isomorphe/geonetwork.py:134 | `strip` cuts only whitespace, off either end, and leaves none there; text without whitespace at its ends is kept as it is |
| `GeonetworkSearch.ParsePieces` | isomorphe/geonetwork.py:134 | the pieces unpack exactly when each does, giving one pair per piece in order |
| `GeonetworkSearch.ParseExtraOfRender` | isomorphe/geonetwork.py:134 | pairs of plain text written as `k=v,…` are read back as the same pairs, in order |
| `GeonetworkSearch.ApplyExtra` | isomorphe/geonetwork.py:133-134 | a query without `__extra__` is kept as it is, and a falsy `__extra__` is only removed. The step raises exactly when a non-empty query has a truthy `__extra__` that is a boolean or does not parse |
| `GeonetworkSearch.ExtraOverrides` | isomorphe/geonetwork.py:133-134 | a non-empty query with a non-empty `__extra__` text goes through exactly when the text parses. A parsed pair then overrides the query's value for its key, the last pair winning. Every other key keeps its value, and `__extra__` itself is gone |
| `GeonetworkSearch.MappedLookup` | isomorphe/geonetwork.py:404-407 | when no other key maps to the same field, the mapped query holds the translated value of a key under its mapped field, and nothing when the key is absent |
| `GeonetworkSearch.HarvestedV3` | isomorphe/geonetwork.py:387-408 | version 3 sends `_isHarvested` = "y"/"n" by the truthiness of `harvested` |
| `GeonetworkSearch.PassThroughV3` | isomorphe/geonetwork.py:396-408 | version 3 passes an unmapped key through unchanged |
| `GeonetworkSearch.HarvestedV4` | isomorphe/geonetwork.py:445-469 | version 4 sends `isHarvested` as `str(v).lower()` |
| `GeonetworkSearch.UuidFilter` | isomorphe/geonetwork.py:436-439 | one parameter, `_uuid` for version 3 and `uuid` for version 4 |
| `GeonetworkSearch.UuidFilterV3Words` | isomorphe/geonetwork.py:439 | splitting the version 3 filter on spaces gives back the uuids, with "or" between each two |
| `GeonetworkSearch.RecordsOfHits` | isomorphe/geonetwork.py:143-153 | the inner loop keeps, in order, the records of the hits that have one, and stops at the first hit that raises |
| `GeonetworkSearch.PageRecordsOfHits` | isomorphe/geonetwork.py:143-154 | a page that raises nothing gives exactly one record per hit with a uuid, in hit order, carrying that uuid |
| `GeonetworkSearch.CollectPages` | isomorphe/geonetwork.py:137-156 | the pagination loop advances by the page length from position 0 and stops at the first empty page; the records of all pages accumulate in order |
| `GeonetworkSearch.GetRecords` | isomorphe/geonetwork.py:132-156 | `get_records` applies `__extra__`, then pages through the search with the parameters of the catalog's version |
| `GeonetworkSearch.CollectDerivable` | isomorphe/geonetwork.py:137-156 | every record `get_records` returns has a state a search hit can give |
| `LegacyGeonetwork.RecordOf` | ecospheres_migrator/geonetwork.py:115-136 | a hit without uuid raises. `template` holds exactly when `isTemplate` is "y". The state is absent exactly when `mdStatus` is. The stage is WORKING_COPY exactly when `draft` = "e", with status UNKNOWN. Otherwise the status read from `mdStatus` is kept, with stage APPROVED when the status is APPROVED and NEVER_APPROVED for every other status |
| `LegacyGeonetwork.SingleRecordWrapped` | ecospheres_migrator/geonetwork.py:111-113 | a page holding a single record gives that record alone |
| `LegacyGeonetwork.ScrollAll` | ecospheres_migrator/geonetwork.py:99-140 | a property that every page's records have holds of everything the `@to` loop returns |
| `LegacyGeonetwork.RecordsWellFormed` | ecospheres_migrator/geonetwork.py:87-142 | every record `get_records` returns has a state a search hit can give |
| `LegacyGeonetwork.ReadPage` | ecospheres_migrator/geonetwork.py:114-139 | the inner loop gives one record per hit, in order, and stops at the first hit that raises |
| `LegacyGeonetwork.GetRecords` | ecospheres_migrator/geonetwork.py:87-142 | the query is merged over the base parameters. The loop starts at position 1, stops at the first empty page and goes on from `@to + 1`, accumulating the records in order |
| `LegacyGeonetwork.LastNonEmptyListWins` | ecospheres_migrator/geonetwork.py:177-188 | the result is the first match in the last non-empty list of `metadataInfos`, or nothing, whatever the earlier lists held |
| `LegacyGeonetwork.AllListsEmpty` | ecospheres_migrator/geonetwork.py:177-188 | when every list is empty the result is nothing |
| `LegacyGeonetwork.ExtractUuidFromPutResponse` | ecospheres_migrator/geonetwork.py:160-188 | the nested loop, whose `break` leaves only the inner loop, computes the scan that `LastNonEmptyListWins` describes |
| `LegacyGeonetwork.EarlierMatchLost` | ecospheres_migrator/geonetwork.py:177-188 | an import message in the first list and a message without uuid in a second list make the legacy scan return nothing; the later client returns the imported uuid |
| `LegacyGeonetwork.CreateParamsAgree` | ecospheres_migrator/geonetwork.py:199-208 | for a plain record or a template, the first client asks for the same creation as the later one: a generated uuid, the given group, and METADATA or TEMPLATE as `metadataType` |
| `LegacyGeonetwork.SavedForm` | ecospheres_migrator/geonetwork.py:238-260 | `template` is "y" exactly for a template and "n" otherwise, and the form carries the XML. The status is absent exactly without a workflow, SUBMITTED for an APPROVED record, the record's own status otherwise, and never APPROVED |
| `LegacyGeonetwork.UpdateRequestsShape` | ecospheres_migrator/geonetwork.py:227-275 | the editor view goes first. The save follows exactly when the view succeeds on a record without working copy. The re-approval "Approved by Migrator" follows exactly when the save succeeds on a record in stage APPROVED |
| `LegacyGeonetwork.UpdateErrorMeaning` | ecospheres_migrator/geonetwork.py:227-275 | no error exactly when there is no working copy and every request sent succeeds; a working copy is refused once the view succeeds |
| `LegacyGeonetwork.UpdateRecord` | ecospheres_migrator/geonetwork.py:216-275 | the step-by-step update sends the requests and ends with the error the two lemmas above describe |
| `LegacyBatch.Batch.constructor` | ecospheres_migrator/batch.py:22-23 | a new batch is empty |
| `LegacyBatch.Batch.AddSuccess` | ecospheres_migrator/batch.py:25-27 | appends a record with result and info and no error. It joins the successes, and the failures are unchanged |
| `LegacyBatch.Batch.AddFailure` | ecospheres_migrator/batch.py:29-31 | appends a record with the error and no result. It joins the failures, and the successes are unchanged |
| `LegacyBatch.Batch.Successes` | ecospheres_migrator/batch.py:33-34 | exactly the records without error, each as many times as the batch holds it, in order |
| `LegacyBatch.Batch.Failures` | ecospheres_migrator/batch.py:36-37 | exactly the records with an error, each as many times as the batch holds it, in order |
| `LegacyBatch.SuccessesFailuresPartition` | ecospheres_migrator/batch.py:33-37 | successes and failures partition the records: as multisets they add up to the records |
| `LegacyMigrator.ParsePair` | ecospheres_migrator/migrator.py:72 | a piece is one pair exactly when it holds one "="; the pair, joined by "=", gives the piece back |
| `LegacyMigrator.ParsePairs` | ecospheres_migrator/migrator.py:72 | the pieces are pairs exactly when each is, giving one pair per piece in order |
| `LegacyMigrator.SelectParams` | ecospheres_migrator/migrator.py:62-72 | no query or an empty one gives the defaults. A query raises exactly when one of its `,`-pieces is not a single `k=v` |
| `LegacyMigrator.SelectExcludesHarvested` | ecospheres_migrator/migrator.py:62-72 | unless the query names `_isHarvested`, the search asks for `_isHarvested` = "n" |
| `LegacyMigrator.QueryOverrides` | ecospheres_migrator/migrator.py:70-72 | a query `k=v` sets `k` to `v`, over any default |
| `LegacyMigrator.ListRecordsMeaning` | ecospheres_migrator/migrator.py:155-161 | one record per entry, in order, with the entry's uuid and title. An entry without uuid raises. A single record, which the catalog does not wrap in a list, raises too |
| `LegacyMigrator.ListRecords` | ecospheres_migrator/migrator.py:155-161 | the appending loop computes what `ListRecordsMeaning` describes |
| `LegacyMigrator.SingleRecordPageRaises` | ecospheres_migrator/migrator.py:88 | a first page holding a single record makes `select` raise |
| `LegacyMigrator.Select` | ecospheres_migrator/migrator.py:56-95 | from position 1, each page's records are listed, and the loop goes on from `@to + 1` until a page lists none; the selection accumulates in order |
| `LegacyMigrator.ErrorTransformationRaisesFirst` | ecospheres_migrator/migrator.py:102-103 | the transformation `error` raises whatever the catalog would answer |
| `LegacyMigrator.PackedOnePerRecord` | ecospheres_migrator/migrator.py:105-115 | a transform that completes was not `error`, read the sources, and packs exactly one entry per selected record, in order, under its uuid |
| `LegacyMigrator.Transform` | ecospheres_migrator/migrator.py:97-118 | the guard, then the sources, then each record's XML and info, packed in selection order; the first failing call raises |

## Left out

- HTTP and sessions are not modelled: `connect`, authentication, the XSRF token, server version detection, headers, URLs and `raise_for_status`. Each request is an oracle that answers with an error or a value.
- XSLT and lxml are not modelled:
  - The transformation is a given function returning a result and its log, or an error.
  - `xml_to_string` is a given canonicaliser.
  - `extract_record_info` (and the legacy `extract_info`) is a given rewrite that may raise.
  - `Transformation.params`, `Transformation.transform`, the `strparam` quoting of parameters and `TransformErrorLog` are not modelled.
- `MefArchive`, `to_mef` and `add_to_zip` (zip packaging) are not modelled. The legacy `transform` returns the packed entries `(uuid, info.xml, metadata.xml)` instead of zip bytes.
- The legacy `migrate` only sleeps, so it is not modelled. Neither is the legacy `TRANSFORMATIONS` list; only its `error` guard matters.
- `get_sources`, `get_record`, `delete_record`, `add_group` and `get_groups` are catalog calls and are not modelled.
- `app.py`, `auth.py` and the job queues are not modelled. The group check of the web layer is one of these; in the engine a missing group is a per-record failure.
- `Batch.TransformBatch.Select`: `batch.select` is not defined in `isomorphe/batch.py`. It is modelled as any order-preserving choice among the success records, made by a given predicate. No status codes or needs-check ordering are modelled.
- `GeonetworkSearch.CollectPages`, `GeonetworkSearch.GetRecords` and `Migrator.Migrator.Select` assume that the search endpoint gives empty pages from some position on. The source loops for as long as the catalog keeps answering with hits.
- `LegacyGeonetwork.GetRecords` and `LegacyMigrator.Select` assume that each filled page's `@to` lies at or after the position asked for, and that pages are empty past some position. The source loops forever if `@to` does not advance.
- Search hits come with the JSON paths of each version already followed. Three details of that are not modelled: version 4's `_source` nesting, its title given as a list, and the difference between a missing and an empty `hits`.
- `GeonetworkSearch.SearchParamsOf` models version 4's query string, field list and sort but not the remaining JSON nesting (`query.bool.filter`).
- `GeonetworkSearch.UuidFilter`: for version 4, only the parameter name is stated, not the bracketed list.
- The editor save of `update_record` is a record of the form fields the code decides: `minor`, `template`, `data` and `status`. The constant fields appear only in `Geonetwork.FormFields`, and the url-encoding is not modelled.
- `Text.ParseInt` models Python's `int()` on surrounding whitespace, an optional sign and ASCII digits; `_` separators and other digit sets are not modelled.
- Error messages follow Python 3.11 and later. Three of them are abbreviated, because Python's text quotes data the model does not hold:
  - the processing error of `get_records` leaves out the hit it quotes;
  - the unpacking error of the legacy `select` leaves out the piece number and length;
  - a legacy hit without uuid always raises `'uuid'`, also when its whole `geonet:info` is missing.
- Errors that quote a string (`int()`, `MetadataType(...)`) quote it as `repr` does for text without quotes.
- `Text.Lower` lower-cases ASCII letters only. Version 4 applies it to `str(v)` of the `harvested` flag.
- Logging is left out.

## Findings

| source | as written | input that shows it | evidently intended | confidence | as-written member | corrected member |
|---|---|---|---|---|---|---|
| ecospheres_migrator/geonetwork.py:177-188 | the `break` after a match leaves only the inner loop, so every later non-empty list of `metadataInfos` overwrites `uuid_match` | `metadataInfos` = `{"1": [{"message": "Metadata imported from XML with UUID '<uuid>'"}], "2": [{"message": "done"}]}` returns `None` | the uuid of the first matching message is returned, as `isomorphe/geonetwork.py:237-244` does with `return` | high, not executed | `LegacyGeonetwork.EarlierMatchLost` | `Geonetwork.ExtractUuidFromPutResponse` |
