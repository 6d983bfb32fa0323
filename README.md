# Crate core pieces in Dafny

This project models seven small pieces of the Crate database and proves
properties about them.

- **Projection compiler** (`ProjectionToProjectorVisitor`, module
  `ProjectionToProjector`, `projections.dfy`). It turns one projection of
  an execution plan into the projector that runs it. The model returns a
  descriptor of the projector, not a runnable operator. It covers:
  - the input layout and order-by positions of an ordered top-N;
  - the choice between a bounded top-N sorter and an unbounded sorter;
  - the shard guard on update and delete projections;
  - node versus shard granularity;
  - the output file URI of a writer projection;
  - the single-relation rule of sys-table updates;
  - the "Unsupported projection" default.
- **Mapping merge** (`TransportSchemaUpdateAction`, module
  `SchemaUpdate`, `schema_update.dfy`). It merges a new mapping of a
  partitioned table into every mapping of the table's index template.
  - `MergeIntoSource` is the loop over the update's keys. It recurses into
    nested objects and is proved against reference functions:
    - `Merged` is the merged mapping;
    - `HasConflict` says whether the merge fails;
    - `IsConflict` gives the error it fails with.
  - Lemmas prove what the merge means: merging a mapping with itself,
    idempotence, that the result reflects the update, the ignored contents
    of the version-metadata entries (the entries themselves are still
    compared), and the `dynamic` flag rewrite.
- **Export response** (`AbstractTransportExportAction.newResponse`,
  module `ExportResponses`, `export_response.dfy`). It counts per-shard
  slots into successes, failures and missing shards. It is proved against
  three one-pass reference functions over the slots.
- **HTML SAX decorator** (`HTMLContentHandler`, module `HtmlContent`,
  `html_content_handler.dfy`). It is a class with the title state and the
  log of forwarded events. Every event method keeps that log equal to the
  stream transformer `Decorate` over the events received so far. The
  lemmas about `Decorate` cover:
  - one forwarded event per input event;
  - composition of streams;
  - the reset performed by `startDocument`;
  - an independent characterization of the title state.
- **OID numbering** (`OidIterable`, module `OidIterables`,
  `oid_iterable.dfy`). The iterator is a class whose counter is a Java
  `int` that wraps around. A full iteration equals `Numbered`, which pairs
  each element with its wrapped position.
- **Foreign-OID join** (`ForeignOidIterable`, module
  `ForeignOidIterables`, `foreign_oid_iterable.dfy`). It builds a key→oid
  map in which the last duplicate wins. Each delegate element then gets
  the oid of the last foreign element with its key, or 0.
- **CollectionBucket** (module `CollectionBuckets`,
  `collection_bucket.dfy`). It models the size, the rows it iterates, and
  `toString`.

Two shared modules support these: `Wrappers` (`Option`, `Result`) and
`JavaText`. `JavaText` writes out the `java.lang.String` operations the
code relies on:
- `startsWith` and `endsWith`;
- `String.join`;
- `replace`, as a left-to-right replacement of non-overlapping occurrences;
- `equalsIgnoreCase`, as far as comparisons with an ASCII string such as "TITLE" need it (see "## Left out");
- decimal rendering of integers.

Constants defined in files that are not part of this model:
- `TopN.NO_LIMIT` is taken as `-1`.
- `IndexMappings.VERSION_STRING` is taken as `"version"`.
- Tika's `XHTMLContentHandler.XHTML` is taken as
  `"http://www.w3.org/1999/xhtml"`.
- `ShardDMLExecutor.DEFAULT_BULK_SIZE` is a field of the modelled visitor
  (`Visitor.defaultBulkSize`).

Java `assert`s that the code relies on are preconditions of the model,
and the model also checks them with a Dafny `assert`. There are two:
- a plain top-N has a limit;
- a sys update has at least one assignment, and all of its assignments
  are on one relation.

Behaviour modelled as the code has it:
- **JSON null in the source mapping.** A source value that is JSON null
  makes `mergeIntoSource` throw `NullPointerException` (`MergeError.NullPointer`)
  whenever the key is not ignored and the update is not an allowed one.
  This happens because the code calls `sourceValue.equals` on it. As a
  result, merging an update into itself is proved to succeed only for
  null-free mappings.
- **Error-message key.** The fully qualified key in the "Can't overwrite"
  message is `join(".", path) + "." + key`. At the top level it therefore
  starts with a ".".
- **Missing foreign key.** A delegate element with no matching foreign
  key gets foreign oid 0, the default of hppc's `ObjectIntMap.get`. 0 is
  also the oid of the first foreign element.

## Model

| member | source | states |
|---|---|---|
| ProjectionToProjector.SupportedGranularity | sql/src/main/java/io/crate/execution/engine/pipeline/ProjectionToProjectorVisitor.java:181-188 | granularity is NODE exactly when the visitor has no shard id, SHARD otherwise |
| ProjectionToProjector.CheckShardLevel | sql/src/main/java/io/crate/execution/engine/pipeline/ProjectionToProjectorVisitor.java:482-486 | passes only with the visitor's shard; otherwise fails with `UnsupportedOperationException` carrying the given message |
| ProjectionToProjector.ShardLevelMatchesGranularity | sql/src/main/java/io/crate/execution/engine/pipeline/ProjectionToProjectorVisitor.java:181-188 | the shard guard passes exactly on a visitor whose granularity is SHARD |
| ProjectionToProjector.VisitOrderedTopN | sql/src/main/java/io/crate/execution/engine/pipeline/ProjectionToProjectorVisitor.java:190-229 | inputs are outputs followed by order-by symbols; the order-by positions are exactly `numOutputs .. inputs.size()-1` and each points at its order-by symbol; the result is a bounded top-N sorter with limit and offset exactly when `limit > NO_LIMIT`, otherwise an unbounded sorter with the offset; both get the same reverse flags, nulls-first flags and `numOutputs` |
| ProjectionToProjector.OrderedTopNBuiltUnique | sql/src/main/java/io/crate/execution/engine/pipeline/ProjectionToProjectorVisitor.java:190-229 | the description of the ordered top-N projector determines it completely: two projectors that both fit it are equal |
| ProjectionToProjector.FileUri | sql/src/main/java/io/crate/execution/engine/pipeline/ProjectionToProjectorVisitor.java:296-310 | the file URI starts with the directory URI, ends with "/" + file name + (".gz" for GZIP), and adds a "/" only when the directory URI lacks one |
| ProjectionToProjector.FileUriTrailingSlash | sql/src/main/java/io/crate/execution/engine/pipeline/ProjectionToProjectorVisitor.java:303-305 | a directory URI with or without its trailing "/" yields the same file URI |
| ProjectionToProjector.FileUriCompression | sql/src/main/java/io/crate/execution/engine/pipeline/ProjectionToProjectorVisitor.java:307-309 | GZIP compression appends ".gz" after the file name and nothing else; without compression the URI ends with "/" + file name |
| ProjectionToProjector.BuildFileUri | sql/src/main/java/io/crate/execution/engine/pipeline/ProjectionToProjectorVisitor.java:296-310 | the `StringBuilder` appends produce `FileUri` |
| ProjectionToProjector.VisitSysUpdate | sql/src/main/java/io/crate/execution/engine/pipeline/ProjectionToProjectorVisitor.java:517-546 | for a non-empty, single-relation assignment list: one assigned column and one value input per assignment, in order; the read context's table (first entry) and the row updater's relation (last entry) are the same relation |
| ProjectionToProjector.SysUpdateBuiltUnique | sql/src/main/java/io/crate/execution/engine/pipeline/ProjectionToProjectorVisitor.java:517-546 | the description of the sys-update projector determines it completely: two projectors that both fit it are equal |
| ProjectionToProjector.VisitUpdate | sql/src/main/java/io/crate/execution/engine/pipeline/ProjectionToProjectorVisitor.java:437-461 | fails with the update message exactly on a node-level visitor; otherwise an upsert DML projector for the visitor's shard with the default bulk size |
| ProjectionToProjector.VisitDelete | sql/src/main/java/io/crate/execution/engine/pipeline/ProjectionToProjectorVisitor.java:463-480 | fails with the delete message exactly on a node-level visitor; otherwise a delete DML projector for the visitor's shard with the default bulk size |
| ProjectionToProjector.Process | sql/src/main/java/io/crate/execution/engine/pipeline/ProjectionToProjectorVisitor.java:548-556 | compilation fails exactly for an unknown projection class ("Unsupported projection") or a DML projection on a node-level visitor; an ordered top-N satisfies all of `OrderedTopNBuilt` (input layout, order-by positions, flags, `numOutputs`, bounded or unbounded sorter with limit and offset) and a sys update all of `SysUpdateBuilt` (columns and values in entry order, one relation); a plain top-N gets a simple top-N projector with its limit and offset; a writer gets the `FileUri`, its compression, and null inputs exactly when it has none (its inputs otherwise); every other visit passes its projection's fields to its projector |
| SchemaUpdate.FqKey | sql/src/main/java/io/crate/execution/ddl/TransportSchemaUpdateAction.java:234 | the reported key ends with "." + key |
| SchemaUpdate.IsUpdateIgnored | sql/src/main/java/io/crate/execution/ddl/TransportSchemaUpdateAction.java:245-248 | a path is ignored exactly when it has more than three parts and starts with `default`, `_meta`, `version` |
| SchemaUpdate.IgnoredSubtree | sql/src/main/java/io/crate/execution/ddl/TransportSchemaUpdateAction.java:245-248 | the path of the version-metadata object itself is not ignored, so its entries are compared; the path of one of its entries is ignored, so what lies inside an entry (paths with more than three parts, such as `default._meta.version.created.*`) is not compared; everything below an ignored path is ignored too |
| SchemaUpdate.UpdateAllowed | sql/src/main/java/io/crate/execution/ddl/TransportSchemaUpdateAction.java:250-255 | allowed exactly for the key `dynamic` when a boolean `true` or `false` is replaced by the string `"true"` or `"false"` of the same value |
| SchemaUpdate.MergeIntoSource | sql/src/main/java/io/crate/execution/ddl/TransportSchemaUpdateAction.java:221-243 | succeeds exactly when no key conflicts; on success the result is `Merged`: keys are the union, source-only keys unchanged, update-only keys inserted with the update value; on failure the error is one a conflicting key raises |
| SchemaUpdate.MergeEntry | sql/src/main/java/io/crate/execution/ddl/TransportSchemaUpdateAction.java:225-238 | for a key the source has: succeeds exactly when the two values do not conflict; two objects merge recursively, an allowed `dynamic` update replaces the flag, otherwise the source value stays; a failure is a conflict of that key (NullPointerException for a null source value, "Can't overwrite" otherwise) |
| SchemaUpdate.MergedKeys | sql/src/main/java/io/crate/execution/ddl/TransportSchemaUpdateAction.java:222-243 | the merged mapping has the keys of both; source-only keys keep their value; update-only keys get the update's value |
| SchemaUpdate.MergeMapping | sql/src/main/java/io/crate/execution/ddl/TransportSchemaUpdateAction.java:217-219 | the one-argument overload merges at the empty path, with the same success condition and result |
| SchemaUpdate.ConflictIsDetected | sql/src/main/java/io/crate/execution/ddl/TransportSchemaUpdateAction.java:231-237 | every error the merge can raise comes from a conflicting key |
| SchemaUpdate.MergeSelfUnchanged | sql/src/main/java/io/crate/execution/ddl/TransportSchemaUpdateAction.java:221-243 | merging a mapping into itself leaves it unchanged |
| SchemaUpdate.MergeSelfSucceeds | sql/src/main/java/io/crate/execution/ddl/TransportSchemaUpdateAction.java:231-237 | merging a null-free mapping into itself never fails |
| SchemaUpdate.MergeIdempotent | sql/src/main/java/io/crate/execution/ddl/TransportSchemaUpdateAction.java:221-243 | merging the same update twice gives the result of merging it once, and the second merge of a null-free update succeeds too |
| SchemaUpdate.ReflectsSelf | sql/src/main/java/io/crate/execution/ddl/TransportSchemaUpdateAction.java:227-229 | every mapping carries its own values at every nesting level |
| SchemaUpdate.MergeReflectsUpdate | sql/src/main/java/io/crate/execution/ddl/TransportSchemaUpdateAction.java:221-243 | after a successful merge every value of the update is found at the same place in the result, except inside an entry of `default._meta.version` (paths with more than three parts), where differences are dropped |
| SchemaUpdate.VersionMetaConflictIgnored | sql/src/main/java/io/crate/execution/ddl/TransportSchemaUpdateAction.java:233-248 | inside an entry of `default._meta.version` (merging at a path with more than three parts, such as `default._meta.version.created.*`) a differing leaf value neither fails the merge nor changes the source; the entries of `version` themselves are still compared |
| SchemaUpdate.VersionEntryCompared | sql/src/main/java/io/crate/execution/ddl/TransportSchemaUpdateAction.java:233-248 | a differing leaf that is a direct entry of `default._meta.version` still makes the merge fail |
| SchemaUpdate.DynamicFlagReplaced | sql/src/main/java/io/crate/execution/ddl/TransportSchemaUpdateAction.java:231-255 | a boolean `dynamic` flag is replaced by the matching string without a conflict |
| SchemaUpdate.UpdateTemplate | sql/src/main/java/io/crate/execution/ddl/TransportSchemaUpdateAction.java:195-215 | a missing template raises `ResourceNotFoundException` with its message; otherwise it succeeds exactly when every template mapping merges without conflict, and then stores the template with the new mapping merged into each of its mappings; a failure carries a conflict of one of the mappings |
| ExportResponses.Responses | inout/src/main/java/io/crate/action/export/AbstractTransportExportAction.java:163-166 | no more responses than slots |
| ExportResponses.Failures | inout/src/main/java/io/crate/action/export/AbstractTransportExportAction.java:157-162 | no more failures than slots |
| ExportResponses.SlotsPartition | inout/src/main/java/io/crate/action/export/AbstractTransportExportAction.java:153-167 | each slot is exactly one of response, failure, missing |
| ExportResponses.ResponsesAppend | inout/src/main/java/io/crate/action/export/AbstractTransportExportAction.java:163-166 | responses of a concatenation are the concatenated responses |
| ExportResponses.FailuresAppend | inout/src/main/java/io/crate/action/export/AbstractTransportExportAction.java:157-162 | failures of a concatenation are the concatenated failures |
| ExportResponses.MissingCountAppend | inout/src/main/java/io/crate/action/export/AbstractTransportExportAction.java:155-156 | missing counts add up over a concatenation |
| ExportResponses.FailuresEmpty | inout/src/main/java/io/crate/action/export/AbstractTransportExportAction.java:157-162 | there are no failures exactly when no slot holds a failure |
| ExportResponses.ResponsesMembers | inout/src/main/java/io/crate/action/export/AbstractTransportExportAction.java:163-166 | a response is reported exactly when some slot holds it |
| ExportResponses.NewResponse | inout/src/main/java/io/crate/action/export/AbstractTransportExportAction.java:147-169 | responses in slot order; total is the slot count; successful is the response count; failed counts missing and failed slots; successful + failed = total; the failure list is null exactly when no slot failed, and otherwise holds one entry per failed slot in order |
| HtmlContent.RewriteSrc | blob/src/main/java/io/crate/blob/HTMLContentHandler.java:61-69 | only the value of a `src` attribute starting with "embedded:" changes, and it then starts with `images\\`; every other attribute is unchanged |
| HtmlContent.RewriteSrcLeavesNoEmbedded | blob/src/main/java/io/crate/blob/HTMLContentHandler.java:63-67 | after the rewrite of an embedded `src`, "embedded:" occurs nowhere in the new value: every occurrence was replaced, and no replacement can form a new one |
| JavaText.ReplaceAllLeavesNoTarget | blob/src/main/java/io/crate/blob/HTMLContentHandler.java:65 | `replace` leaves no occurrence of the target when the replacement's first character is not in the target and no occurrence of the target can overlap a replacement |
| HtmlContent.ImgAttributes | blob/src/main/java/io/crate/blob/HTMLContentHandler.java:53-71 | each original attribute, rewritten, in order, followed by `width="100px"` |
| HtmlContent.Forward | blob/src/main/java/io/crate/blob/HTMLContentHandler.java:51-103 | start and end events are forwarded unchanged except for an `img`'s attributes; a character event changes only when the title is open and its length is 0, and then becomes `(new char[0], 0, 1)` |
| HtmlContent.IsXhtmlTitle | blob/src/main/java/io/crate/blob/HTMLContentHandler.java:76-78 | an element is an XHTML title exactly when its namespace is the XHTML one and its local name is "title" in any mix of cases, with 'İ' or 'ı' also accepted for the 'I' |
| HtmlContent.NextOpen | blob/src/main/java/io/crate/blob/HTMLContentHandler.java:45-88 | `startDocument` and an XHTML title end close the title, an XHTML title start opens it, every other event leaves the state as it was |
| HtmlContent.Decorate | blob/src/main/java/io/crate/blob/HTMLContentHandler.java:45-103 | one forwarded event per input event |
| HtmlContent.DecorateAt | blob/src/main/java/io/crate/blob/HTMLContentHandler.java:45-103 | the i-th forwarded event is the i-th input event transformed under the title state the events before it left |
| HtmlContent.DecorateAppend | blob/src/main/java/io/crate/blob/HTMLContentHandler.java:45-103 | decorating a concatenation is decorating the second part from the state the first part left |
| HtmlContent.StartDocumentResets | blob/src/main/java/io/crate/blob/HTMLContentHandler.java:46-49 | nothing before a `startDocument` affects what is forwarded after it |
| HtmlContent.TitleOpenAfter | blob/src/main/java/io/crate/blob/HTMLContentHandler.java:76-87 | the title is open exactly when the last event touching it opened an XHTML `TITLE` (case-insensitive), or none touched it and it was open before |
| HtmlContent.AttributesImpl.constructor | blob/src/main/java/io/crate/blob/HTMLContentHandler.java:58 | the copy holds the original attributes |
| HtmlContent.AttributesImpl.SetValue | blob/src/main/java/io/crate/blob/HTMLContentHandler.java:66 | only the value of attribute i changes |
| HtmlContent.AttributesImpl.AddAttribute | blob/src/main/java/io/crate/blob/HTMLContentHandler.java:70 | the attribute is appended at the end |
| HtmlContent.RewriteImgAttributes | blob/src/main/java/io/crate/blob/HTMLContentHandler.java:61-70 | the loop leaves the attributes as `ImgAttributes` of the original list: each rewritten in place, then the width appended |
| HtmlContent.HTMLContentHandler.constructor | blob/src/main/java/io/crate/blob/HTMLContentHandler.java:34-43 | nothing forwarded yet and no title open |
| HtmlContent.HTMLContentHandler.StartDocument | blob/src/main/java/io/crate/blob/HTMLContentHandler.java:45-49 | forwards `startDocument` and closes the title |
| HtmlContent.HTMLContentHandler.StartElement | blob/src/main/java/io/crate/blob/HTMLContentHandler.java:51-79 | forwards the event once, with the `img` rewrite; mutates the caller's attributes exactly when they are an `AttributesImpl` of an `img`; afterwards the title is open if it was or this is an XHTML title |
| HtmlContent.HTMLContentHandler.EndElement | blob/src/main/java/io/crate/blob/HTMLContentHandler.java:81-88 | forwards the event once; afterwards an XHTML title is closed, any other element leaves the state |
| HtmlContent.HTMLContentHandler.Characters | blob/src/main/java/io/crate/blob/HTMLContentHandler.java:90-103 | forwards the event unchanged, or `(new char[0], 0, 1)` for an empty event inside an open title; the state does not change |
| OidIterables.Wrap32 | sql/src/main/java/io/crate/metadata/pgcatalog/OidIterable.java:40 | the counter is always a Java `int` |
| OidIterables.IncrementInt32 | sql/src/main/java/io/crate/metadata/pgcatalog/OidIterable.java:52 | the incremented counter is a Java `int` and equals the wrapped value of the count plus one |
| OidIterables.Wrap32Next | sql/src/main/java/io/crate/metadata/pgcatalog/OidIterable.java:52 | advancing the `int` counter by one is wrapping the next count |
| OidIterables.Wrap32Small | sql/src/main/java/io/crate/metadata/pgcatalog/OidIterable.java:52 | counts up to `Integer.MAX_VALUE` do not wrap |
| OidIterables.Numbered | sql/src/main/java/io/crate/metadata/pgcatalog/OidIterable.java:37-55 | one provider per element |
| OidIterables.OidIterator.constructor | sql/src/main/java/io/crate/metadata/pgcatalog/OidIterable.java:39-43 | every `iterator()` starts at oid 0 with a fresh delegate iterator |
| OidIterables.OidIterator.HasNext | sql/src/main/java/io/crate/metadata/pgcatalog/OidIterable.java:45-48 | there is a next element exactly when `next()` was called fewer times than the delegate has elements |
| OidIterables.OidIterator.Next | sql/src/main/java/io/crate/metadata/pgcatalog/OidIterable.java:50-53 | yields the current counter value with the delegate's next element and advances the counter; on an exhausted iterator, which throws, the counter still advances |
| OidIterables.Iterate | sql/src/main/java/io/crate/metadata/pgcatalog/OidIterable.java:37-55 | a full iteration yields `Numbered(delegate)`: the delegate's elements, in order, each with its wrapped position |
| OidIterables.NumberedOid | sql/src/main/java/io/crate/metadata/pgcatalog/OidIterable.java:40-53 | the i-th element carries oid i while i fits in an `int` |
| OidIterables.NumberedOidsIncrease | sql/src/main/java/io/crate/metadata/pgcatalog/OidIterable.java:52 | within one iteration of at most 2^31 elements oids strictly increase |
| OidIterables.NumberedWraps | sql/src/main/java/io/crate/metadata/pgcatalog/OidIterable.java:52 | element 2^31 gets `Integer.MIN_VALUE` |
| ForeignOidIterables.LastMatch | sql/src/main/java/io/crate/metadata/pgcatalog/ForeignOidIterable.java:71-75 | the index of a foreign element with the key, with no later one; none when no element has it |
| ForeignOidIterables.ForeignOidMapLastWins | sql/src/main/java/io/crate/metadata/pgcatalog/ForeignOidIterable.java:69-77 | the map holds exactly the foreign keys, each with the oid of the last foreign element having it |
| ForeignOidIterables.BuildForeignOidMap | sql/src/main/java/io/crate/metadata/pgcatalog/ForeignOidIterable.java:69-77 | the `put` loop builds the last-wins map; a key is present exactly when some foreign element has it |
| ForeignOidIterables.ForeignOidLookup | sql/src/main/java/io/crate/metadata/pgcatalog/ForeignOidIterable.java:64 | a lookup with default 0 in the map gives the position of the last foreign match, or 0 |
| ForeignOidIterables.LastMatchNumbered | sql/src/main/java/io/crate/metadata/pgcatalog/ForeignOidIterable.java:71-72 | numbering the foreign elements does not move their last match |
| ForeignOidIterables.Iterate | sql/src/main/java/io/crate/metadata/pgcatalog/ForeignOidIterable.java:49-67 | as many results as delegate elements, in order; each wraps the delegate's provider unchanged and carries the oid of the last foreign element whose key equals the element's foreign key, or 0 |
| CollectionBuckets.Size | dex/src/main/java/io/crate/data/CollectionBucket.java:46-49 | a Java `int` between 0 and `Integer.MAX_VALUE` |
| CollectionBuckets.RowsOf | dex/src/main/java/io/crate/data/CollectionBucket.java:51-54 | one row per backing array, in order, with that array's cells |
| CollectionBuckets.Iterate | dex/src/main/java/io/crate/data/CollectionBucket.java:51-54 | `iterator()` yields one row per backing array, in the collection's order, row i holding array i |
| CollectionBuckets.IterateMatchesSize | dex/src/main/java/io/crate/data/CollectionBucket.java:46-54 | iteration yields `size()` rows, row i being array i |
| CollectionBuckets.ToString | dex/src/main/java/io/crate/data/CollectionBucket.java:56-61 | the text has the form `CollectionBucket{numRows=...}` |
| CollectionBuckets.ToStringReportsSize | dex/src/main/java/io/crate/data/CollectionBucket.java:56-61 | the reported number is a decimal that reads back as `size()` |

## Left out

- The concrete projectors (`SortingTopNProjector`, `GroupingProjector`, `IndexWriterProjector`, `ShardDMLExecutor`, `FetchProjector` and the rest) are not part of this model; the compiler returns descriptors of them.
- `ProjectionToProjector.Process`: the visits for eval, group, merge-count, aggregation, source and column index writers, filter and fetch only record their projection's fields. Their input contexts, aggregation contexts, index name resolvers, table settings lookups, cluster services and transport actions live in code that is not part of this model.
- Symbol evaluation and normalization are left out: the writer's `uri` and file name and the sys update's value symbols are given as already-evaluated inputs. So are `symbolMapToObject` overwrites, output names and output format.
- `ProjectionToProjector.VisitSysUpdate`: the lookups `staticTableDefinitionGetter` and `sysUpdaterGetter` are assumed to succeed, because their tables are not part of this model. The read context and the row updater are recorded by relation.
- `InputFactory.Context` is assumed to create one top-level input per added symbol, in order; it is not part of this model.
- The job id, the RAM accounting context and the transaction context are left out: they are passed through without any decision depending on them.
- The master-node operation, the put-mapping request, cluster-state tasks and `newMappingAlreadyApplied` of `TransportSchemaUpdateAction` are left out: they are asynchronous RPC and rely on `XContentHelper.update`, which is not part of this model.
- JSON parsing and serialisation (`parseMapping`, `XContentBuilder`) are left out; mappings are given as values.
- `SchemaUpdate.MergeIntoSource`: the source mutates nested maps in place and may have put some keys before it throws. The model returns the merged mapping on success and only the error on failure. This partial state is not observable here, because `updateTemplate` abandons the whole update when a merge throws.
- `SchemaUpdate.Value`: JSON numbers are mathematical integers, so Java's `equals` between different boxed number types (an `Integer` against a `Long`) is not modelled.
- `AbstractTransportExportAction.shardOperation`, `shards` and the block checks are left out: they are I/O against search contexts and routing.
- `ExportResponses.NewResponse`: only the slot contents the broadcast framework stores (null, a shard failure or a shard response) are modelled. A slot of any other class would throw `ClassCastException`.
- `HtmlContent.HTMLContentHandler.Characters`: what the decorated handler does with the `(new char[0], 0, 1)` event is not modelled; the `ArrayIndexOutOfBoundsException` it may raise is swallowed, as in the source.
- The decorated downstream handler is left out as code: its effect is recorded as the sequence of forwarded events, and forwarded attributes are recorded as the list's value at forwarding time.
- Null `localName`, `uri` and attribute values are not modelled; SAX parsers supply strings.
- `JavaText.EqualsIgnoreCase`: Unicode case tables are not modelled. The model folds the ASCII letters and the four non-ASCII characters whose case mapping lands on an ASCII letter ('ı', 'ſ', 'İ' and the Kelvin sign), so it agrees with Java's `equalsIgnoreCase` when one side is ASCII, as `"TITLE"` is at its only use. It is not Java's general `equalsIgnoreCase`: two non-ASCII case partners such as 'é' and 'É' compare unequal here.
- `OidIterables.OidIterator`: the `AtomicInteger` is a plain counter, since nothing in the logic is concurrent.
- `CollectionBuckets`: the `numColumns` constructor and `Buckets.arrayToSharedRow` are not part of this model. A row is the backing array's cells, and the bucket holds the collection as a value, so "no copy" is not expressed. `arrayToSharedRow` is created once per bucket and, as its name says, reuses one row object for every array and every iteration; the model yields an independent `Row` value per array, so it does not capture that a row a consumer keeps changes when the iteration moves on.
