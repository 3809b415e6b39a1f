# Change capture for LoopBack models, in Dafny

This project models `model-changes.js`, a LoopBack mixin that records every create, update and delete of a tracked model as a new row in a separate "change" model, which acts as the audit sink. When the mixin is installed on a model it does the following:

- It derives settings from its options: action names, the foreign-key field `relKey`, and a whitelist/blacklist `audit` table.
- It registers the sink in a process-wide recursion guard, `trackAgainst`.
- It hooks `before save`, `before delete`, `after save` and `after delete`.

The before-hook resolves the entity's pre-state, either by id or through a filter query, and stashes it on the context. The after-hooks turn the affected entities into audit payloads:

- Declared properties are projected through the `audit` table.
- The id is moved into `relKey`, and any actor or remote-method attribution is added.
- The action name is tagged on.
- An update that would record nothing is suppressed.

In delta mode an update is first reduced to the properties that changed. For a bulk update, each row is diffed against its own original. Each hook issues at most one write to the sink.

Modules, one per file:

- `JsValues` (values.dfy): JavaScript values, truthiness, and property access that may throw.
- `Config` (config.dfy): the options, the derived settings, and the `audit` table loop.
- `Context` (context.dfy): the hook context, as a class and as a value snapshot.
- `Gating` (gating.dfy): action classification, the action whitelist and remote-only filter, the options forwarded to the store, and the recursion guard registry.
- `Deltas` (deltas.dfy): `extractDeltas` and the per-row correlation of a bulk update.
- `Payload` (payload.dfy): `buildModelPayload`, as a loop method proved equal to a specification function.
- `Recording` (recording.dfy): `recordModelChange` and the audit sink's write log.
- `PreState` (prestate.dfy): `findPrevious`.
- `Handlers` (handlers.dfy): the installed mixin (`Tracker`), whose methods are the three handlers. Each handler is proved equal to a pure function of the context and the store, and lemmas state the end-to-end behaviour.

The store is abstract:

- Reads are function parameters: `findById` and `find` are the store's answers at the moment of the call.
- Writes are appended to `AuditSink.log`, one `Write` per `ChangeStreamModel.create` call.

Some behaviours of the code are modelled as written:

- `findPrevious` reads the literal property `id` and the literal option `remoteCtx`, not the model's id key or the configured remote-context key.
- The after-delete handler applies neither the recursion guard nor the action filter.
- The registry entry is written before the check that the mixin is configured. An absent `changeModel` is stored under the key `"undefined"`.
- The before-hook filters first and then checks the guard; the after-save hook does these in the opposite order.
- An update whose fields are all undefined is still written when the actor field has a defined value.
- When the create and update action names coincide, a create payload can be suppressed like an update.

## Model

| member | source | states |
|---|---|---|
| Config.BuildAuditTable | model-changes.js:42-53 | the table has an entry for every whitelisted or blacklisted property; an entry is `false` exactly when the property is blacklisted (the blacklist wins); strict auditing is on exactly when a whitelist is given |
| Config.AuditedByLists | model-changes.js:228-235 | with a whitelist, a property is projected iff it is whitelisted and not blacklisted, or it is the id key; without one, iff it is not blacklisted |
| Gating.Registry.Register | model-changes.js:17 | the registry maps the sink name to the tracked model's name, and every other entry is unchanged |
| Gating.ActionTypeCases | model-changes.js:169-177 | with distinct action names: create iff the instance is new; update iff not new and data is truthy or an instance is present; delete otherwise |
| Gating.RemoteMethodNameResolves | model-changes.js:160-167 | the resolved remote method name is truthy iff the remote context is an object whose `method` is an object with a truthy `name`, and then it is that name |
| Gating.ShouldFilterExactly | model-changes.js:146-158 | an action passes the gate iff it is on the action whitelist (when one exists) and, under remote-only, a remote method name resolves |
| Gating.CtxOpts | model-changes.js:291-303 | the forwarded options hold exactly `transaction` and the remote context key, each only when truthy, with the original values |
| Gating.CtxOptsKeepsRemoteMethod | model-changes.js:154-154 | the payload builder, which sees only the forwarded options, resolves the same remote method name the gate saw |
| Deltas.Changed | model-changes.js:217-223 | the delta's keys are the updated snapshot's keys whose values differ from the prior snapshot, plus the id key, and each keeps the update's value |
| Deltas.ExtractDeltasCases | model-changes.js:210-224 | no prior snapshot gives the update unchanged; no update gives the empty object; otherwise the delta keys above |
| Deltas.ChangedValueAt | model-changes.js:219-223 | a non-id property reads as `undefined` in the delta when unchanged, and as the new value when changed |
| Deltas.ChangedPatchesOld | model-changes.js:219-223 | patching the prior snapshot with the delta gives back every property of the update |
| Deltas.ChangedIdempotent | model-changes.js:219-223 | diffing a delta against the same prior snapshot again returns the same delta |
| Deltas.UnchangedLeavesOnlyId | model-changes.js:219-223 | an update that changes nothing reduces to its id alone |
| Deltas.OriginalsKeys | model-changes.js:110-113 | the `originals` map has an entry for an id iff some previous row carries that id |
| Deltas.OriginalsLast | model-changes.js:110-113 | an id maps to the last previous row carrying it |
| Deltas.Correlated | model-changes.js:115-121 | one recorded row per updated row |
| Deltas.CorrelatedMatched | model-changes.js:110-121 | each updated row is diffed against the last previous row with the same id |
| Deltas.CorrelatedUnmatched | model-changes.js:115-121 | an updated row with no original is recorded whole |
| Deltas.CorrelateDeltas | model-changes.js:109-121 | the two loops compute exactly the per-row correlation above |
| Payload.ProjectProps | model-changes.js:228-237 | the property loop copies exactly the declared properties that pass projection, each with the data's value |
| Payload.DefinedKeys | model-changes.js:252-253 | the keys holding a defined value; there are none exactly when every field is `undefined` |
| Payload.BuildPayload | model-changes.js:226-260 | the property loop and slot overwrites compute exactly the specified payload, null included |
| Payload.PayloadKeysAndFields | model-changes.js:226-237 | no key enters a payload except projected declared properties and the id, foreign-key, action and attribution slots; every projected field not overwritten by a slot carries the data's value |
| Payload.PayloadSlots | model-changes.js:238-259 | the foreign key holds the original id (or `undefined` when the id is not projected); the action key holds the action; the id key is `undefined`; the actor and remote-method slots hold their resolved values, unless a later slot has the same name |
| Payload.SuppressedExactly | model-changes.js:251-256 | the payload is null iff the action is the update action, no remote method is tagged, the actor (if set) is `undefined` and every projected non-id field is `undefined`; other actions never yield null |
| Payload.RemoteTagNeverSuppressed | model-changes.js:245-256 | a tagged remote method name keeps any payload from being suppressed |
| Recording.AuditSink.Create | model-changes.js:191-200 | one create call appends exactly one write to the sink log |
| Recording.SomesAppend | model-changes.js:186-188 | dropping nulls distributes over concatenation, so input order is kept |
| Recording.SomesEmpty | model-changes.js:186-194 | nothing is kept iff every payload is null |
| Recording.SomesAllPresent | model-changes.js:186-188 | with no nulls every payload is kept, position by position |
| Recording.SomesMembers | model-changes.js:186-188 | the kept payloads are exactly the non-null ones |
| Recording.WritesFor | model-changes.js:179-208 | at most one write; none for a falsy value; for one entity, one write iff its payload is non-null, holding that payload; for an array, none iff every payload is null |
| Recording.BatchKeepsNonNull | model-changes.js:181-191 | an array's one write holds exactly the non-null payloads in input order, and none when all are null; with no null, one payload per entity at its own position |
| Recording.BatchNonUpdate | model-changes.js:181-191 | a non-update batch of at least one entity yields one write holding a payload per entity, in order, each with its entity's id in the foreign key |
| Recording.BuildBatch | model-changes.js:181-188 | the map and filter loops keep exactly the non-null payloads, in order |
| Recording.RecordModelChange | model-changes.js:179-208 | the sink log grows by exactly the specified writes |
| PreState.PreviousLookup | model-changes.js:264-285 | no lookup iff the instance is new; otherwise the first truthy candidate among instance id, data id, where id and remote request argument id, by id; with none, the `where` filter |
| PreState.FreshExactlyForCreates | model-changes.js:264-288 | the pre-state is skipped exactly for the actions classified as creates |
| PreState.InstanceIdWins | model-changes.js:265-278 | an instance with a truthy `id` is read back by that id |
| PreState.NoIdQueriesFilter | model-changes.js:277-284 | with no id anywhere the pre-state is the filter query's rows |
| Handlers.BeforeStash | model-changes.js:60-68 | a filtered action or a sink model resolves no pre-state; an invocation that is neither resolves exactly `findPrevious`'s pre-state |
| Handlers.InqIdsAreOriginalKeys | model-changes.js:101-116 | an id is in the bulk re-read's `inq` list iff the delta correlation holds an original for it |
| Handlers.AfterSaveWrites | model-changes.js:80-133 | at most one write, and none for a sink model or a filtered action |
| Handlers.AfterDeleteWrites | model-changes.js:135-144 | at most one write, and none when the before-hook stashed nothing |
| Handlers.CreateRecordedOnce | model-changes.js:90-91 | a tracked create writes exactly one payload, with the created id in the foreign key and the create action in the action key |
| Handlers.UpdateRecordsFields | model-changes.js:93-98 | a single update with a defined projected field (in delta mode, one that changed) is written exactly once; the written payload holds each projected field's new value, or in delta mode the new value where it changed and `undefined` where it did not |
| Handlers.NoOpUpdateSuppressed | model-changes.js:93-98 | in delta mode, with no attribution fields, an update that changes nothing is not recorded |
| Handlers.BulkUpdateWithoutRowsRecordsNothing | model-changes.js:99-128 | a bulk update whose before-hook matched no row writes nothing |
| Handlers.BulkUpdateRecordsRows | model-changes.js:99-125 | a bulk update re-reads the rows by the previous rows' ids; it writes nothing iff every re-read row's payload (its diff in delta mode) is null, and otherwise exactly one batch holding the non-null payloads in row order; when no payload is null, the batch has one payload per re-read row, at that row's position |
| Handlers.BulkDeltaRowDiffedAgainstOriginal | model-changes.js:109-123 | in delta mode a re-read row is recorded as its diff against the last previous row with its id, unless that diff is suppressed |
| Handlers.RemoteOnlyTagsPayloads | model-changes.js:85-89 | under remote-only with remote-method tagging, a tracked invocation tags its payloads with the method name the gate saw, so none is suppressed |
| Handlers.BulkDeleteRecordsEveryRow | model-changes.js:139-140 | a bulk delete writes one payload per previous row, each with that row's id in the foreign key |
| Handlers.DeleteRecordedAfterStash | model-changes.js:69-74 | starting from an empty stash, a delete records something iff the entity was found by id and the context carries the instance, or the filter query matched a row |
| Handlers.Tracker.constructor | model-changes.js:13-53 | registers the sink, whether or not tracking installs; settings exist iff the sink and foreign key are named, with the audit table built from the lists |
| Handlers.Tracker.BeforeHandler | model-changes.js:60-78 | the context is left alone when skipped; otherwise the resolved pre-state is stashed, an array in `previousValues` and anything else in `previousValue` |
| Handlers.Tracker.AfterSaveHandler | model-changes.js:80-133 | the sink log grows by exactly the specified after-save writes |
| Handlers.Tracker.AfterDeleteHandler | model-changes.js:135-144 | the sink log grows by exactly the specified after-delete writes |

## Left out

- The host ORM's hook plumbing is not modelled: `Model.getApp` and its error path, `Model.observe` registration, and the `next` callbacks. The handlers are plain methods.
- Promise sequencing is not modelled. Each handler is one sequential step, and a failing store call (`.catch(next)`) is not modelled.
- The store's `findById`, `find` and `create` are foreign calls. Reads are given as functions and writes as the sink log. The forwarded options (the transaction and remote context) passed to `findById`, `find` and `create` are dropped, so the `transaction` entry that `Gating.CtxOpts` computes is read by nothing in the model.
- The pre-state is stashed in fields of the context rather than as properties of `ctx.options`. `ctx.Model` and `ctx.options` are assumed present.
- `_.isEqual` and `toJSON` become structural equality on `Value`, and `_.pick` becomes map restriction. Numbers are integers, with no floating point.
- The `originals` map is keyed by the id `Value` itself. JavaScript's coercion of object keys to strings, which can conflate distinct ids, is not modelled.
- A property of a non-object primitive reads as `undefined`. String indexing and properties inherited through prototypes are not modelled.
- Options that are present but not strings or arrays are not modelled (`Options`). Array options are taken as given, and truthy non-array lists count as absent.
- The bulk re-read uses `Model.dataSource.idName`, which the model takes to be the model's id key.
- Debug logging and `console.warn` are not modelled.
- Handlers.AfterSaveWrites: its own contract only bounds the number of writes and states the guard cases. The create, single-update and bulk-update branches are stated by the `Handlers` lemmas listed above.
- Handlers.AfterDeleteWrites: its own contract only bounds the number of writes and states the empty-stash case. The single and bulk branches are stated by `Handlers.DeleteRecordedAfterStash` and `Handlers.BulkDeleteRecordsEveryRow`.
