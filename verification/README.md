# Azure Digital Twins snapshot broadcaster, modelled in Dafny

This project models the event pipeline of the WoDT Azure Digital Twins adapter function
(`DTsSnapshotBroadcaster.cs`). The function receives an Azure Digital Twins change event
as a CloudEvent. It then does one of three things:

- it drops the event;
- it publishes one message, addressed to the `digitalTwinUpdate` client method, whose single
  argument is a snapshot of the twin: its id, the event kind (`CREATE`, `DELETE` or `UPDATE`),
  the event time and, except after a delete, the twin's properties and its outgoing relationships;
- it aborts with an exception.

The pipeline has four stages:

- **Classification** (`Classifier`). A fixed table of five event types says where the subject
  twin id comes from (the event subject, or `data.$sourceId` in the payload). It also says where
  the twin's model comes from (`data.$metadata.$model`, `data.modelId`, or the source twin read
  from the store).
- **Model filter** (`Broadcaster.Run`). Events whose model is null or is the external-twin
  sentinel `dtmi:io:github:wodt:ExternalDT;1` are dropped.
- **Kind mapping** (`EventTypes.MapEventType`).
- **Snapshot assembly** (`Snapshots.HandleEvent`). This strips bookkeeping keys from the twin. It
  also walks the relationships in the store's order. It drops those without `$targetId` and
  strips bookkeeping keys from the rest. It marks each kept relationship `external` or not, and
  points an external one at its target's `uri`.

Modules:

- `Outcomes`: `Option`, the exceptions the pipeline can raise (`Fault`), and `Result`.
- `JsonNodes`: parsed JSON trees and the null-propagating reads `node?.AsObject()[key]` and `node?.ToString()`.
- `TwinStore`: the read-only twin store, as an immutable map from twin id to model id, JSON document and relationship list. `GetTwin` stands in for the client's twin read: it returns the stored twin, or raises not-found.
- `EventTypes`: the event-type constants, the switch table as `Classify`, and `MapEventType`.
- `Classifier`: the CloudEvent, `TwinIdFromEvent` and `ModelFromEvent`.
- `Snapshots`: the published `Snapshot`, the specification `Handle` and the imperative `HandleEvent`.
  `HandleEvent` loops over the relationships and is proved equal to `Handle`.
- `Broadcaster`: `Run`, the filter and publish decision.

Exceptions are modelled as `Err(fault)` results, and `Run` reports them as `Failed(fault)`. The
source has no handler for them, so each one fails the function invocation. This happens, for
example, when:

- the payload is missing, is not JSON text, or its root is neither an object nor JSON null (a JSON null root reads as a null object, so every field read from it is null);
- a field that must be an object holds something else;
- a relationship event has no `$sourceId`;
- a twin is not found;
- an external target twin has no `uri`, or its `uri` is JSON null.

An event that cannot be classified is dropped quietly only when a read yields a null model:
when the type is not one of the five, or when a field on the way to a twin event's embedded
model is missing or null. For a relationship event, a missing or null `data.$sourceId` gives a
null twin id, and the store read of that null id raises (`RelationshipEventSourceMissing`). Every other
unreadable payload raises, so the event fails (`MalformedPayloadFails`, `PayloadFieldNotObjectFails`).

The pipeline is deterministic: `Handle` and `ModelFromEvent` are functions of the event and
the store, so handling the same event against the same store gives the same delivery.

## Model

| member | source | states |
|---|---|---|
| EventTypes.MapEventType | DTsSnapshotBroadcaster.cs:174-181 | the kind is `CREATE` exactly for the twin-create type, `DELETE` exactly for the twin-delete type, and `UPDATE` for every other string |
| EventTypes.EventKindOfCategory | DTsSnapshotBroadcaster.cs:174-181 | twin updates, both relationship events and unrecognised types all surface as `UPDATE` |
| EventTypes.ClassifyTag | DTsSnapshotBroadcaster.cs:24-32 | the five event-type constants are distinct, so each selects its own arm of the switches |
| EventTypes.TagClassify | DTsSnapshotBroadcaster.cs:96-127 | only the five constants are recognised by the switches; any other string falls to the default arm |
| EventTypes.NeedsSnapshot | DTsSnapshotBroadcaster.cs:142-145 | the full state is fetched exactly for twin create, twin update and both relationship events, so never for a delete |
| JsonNodes.NodeText | DTsSnapshotBroadcaster.cs:103 | `?.ToString()` on a node: null (absent or JSON null) stays null and nothing else does. A string node gives its contents, a number its literal text, and a boolean `true`/`false`. Only an array or object node raises, with `UnrenderedText` |
| JsonNodes.ElementText | DTsSnapshotBroadcaster.cs:164 | `ToString()` on a typed twin's contents value: it raises exactly for JSON null (a null reference) and for arrays and objects. A string gives its contents and a number its literal text, as through `NodeText`, while booleans read `True`/`False` |
| JsonNodes.ReadPathNotObject | DTsSnapshotBroadcaster.cs:100-107 | when the walk reaches a scalar or array before the last key is read, `AsObject()` throws there and the whole chain fails with `NotAnObject` |
| JsonNodes.ReadPathFromNull | DTsSnapshotBroadcaster.cs:99-103 | a `?.` chain started from null yields null whatever the keys |
| JsonNodes.ReadPathFound | DTsSnapshotBroadcaster.cs:99-103 | a non-null value nested under the keys of a path in objects is what the chain reads |
| JsonNodes.ReadPathStops | DTsSnapshotBroadcaster.cs:105-108 | when the walk reaches an object that lacks the next key, or holds null there, the chain yields null rather than failing |
| Classifier.UnrecognizedYieldsNothing | DTsSnapshotBroadcaster.cs:113-126 | an unrecognised event type gives a null twin id and a null model whatever the payload |
| Classifier.TwinIdFromEvent | DTsSnapshotBroadcaster.cs:117-128 | twin create, delete and update events are about the event subject and never fail; only relationship events read the payload, so only they can raise, and only payload faults. `RelationshipEventIdIsSource`, `RelationshipEventSourceMissing` and `UnrecognizedYieldsNothing` characterise the other arms |
| Classifier.ModelFromEvent | DTsSnapshotBroadcaster.cs:95-115 | unrecognised types give a null model. Twin events can raise only payload faults, since they never read the store. A relationship event never gives a null model: it gives its source twin's model or raises, and a not-found fault names the event's source id, which is absent from the store. The lemmas below characterise each arm |
| Classifier.RelationshipEventIdIsSource | DTsSnapshotBroadcaster.cs:121-125 | relationship events are about the twin named by `data.$sourceId` in the payload |
| Classifier.RelationshipEventSourceMissing | DTsSnapshotBroadcaster.cs:109-125 | a relationship event whose payload lacks `data.$sourceId`, or holds null on the way, names no twin, and reading its model then raises on the null id (`NullTwinId`). `Run` therefore reports `Failed(NullTwinId)`; the event is not dropped |
| Classifier.TwinEventModelFromPayload | DTsSnapshotBroadcaster.cs:98-108 | create and delete take the model from `data.$metadata.$model`, update from `data.modelId` |
| Classifier.TwinEventModelMissing | DTsSnapshotBroadcaster.cs:98-108 | a missing or null field on the way to the embedded model gives a null model |
| Classifier.NullPayloadYieldsNull | DTsSnapshotBroadcaster.cs:99-125 | a payload that is JSON null gives a null model for twin events; for relationship events it gives a null twin id and the store read then fails on the null id |
| Classifier.MalformedPayloadFails | DTsSnapshotBroadcaster.cs:99-125 | for every recognised event type, a payload that is missing, is not JSON text, or has a root that is neither an object nor null makes the model read fail with `MalformedPayload` (and the id read too, for relationship events); `Run` then reports `Failed(MalformedPayload)` |
| Classifier.PayloadFieldNotObjectFails | DTsSnapshotBroadcaster.cs:99-125 | a field on the way to the embedded model or to `$sourceId` that holds a scalar or an array makes the model read fail with `NotAnObject` (and the id read too, for relationship events); `Run` then reports `Failed(NotAnObject)` |
| Classifier.RelationshipEventModelFromStore | DTsSnapshotBroadcaster.cs:109-112 | relationship events take the model of the source twin in the store, and fail with not-found when it is absent |
| Snapshots.RemoveKeys | DTsSnapshotBroadcaster.cs:148 | removing the listed keys leaves exactly the other keys, with their values unchanged |
| Snapshots.HandleEvent | DTsSnapshotBroadcaster.cs:130-172 | the loop over the relationships builds exactly the snapshot the specification `Handle` describes, including its faults |
| Snapshots.ShapeRelationship | DTsSnapshotBroadcaster.cs:156-166 | a relationship is skipped exactly when it has no target id. A relationship whose target is stored and internal is always kept, as itself without `$relationshipId` and `$etag`, with `external` false and the target id. One whose target is stored and external, with a readable `uri`, is always kept with `external` true and the `uri` as `$targetId`. Every fault has one of three causes: the target id cannot be read, the target is not stored (`TwinNotFound` of that id), or the external target's `uri` cannot be read |
| Snapshots.Handle | DTsSnapshotBroadcaster.cs:130-172 | a snapshot has properties and relationships exactly for the event types that fetch the twin. For those types, with a readable twin id, handling fails exactly when the twin is not stored or its relationship list fails, and succeeds otherwise. The other types read nothing from the store, so they fail exactly when the twin id cannot be read |
| Snapshots.ShapeRelationshipsOkIff | DTsSnapshotBroadcaster.cs:155-167 | the relationship list is produced exactly when every relationship in it can be processed |
| Snapshots.FirstFaultWins | DTsSnapshotBroadcaster.cs:155-167 | the first relationship that raises, in the store's order, aborts the whole event with its fault |
| Snapshots.WithTargetMembers | DTsSnapshotBroadcaster.cs:157-158 | the relationships kept are relationships of the input that have a target, all of them, and no more of them than the input holds |
| Snapshots.WithTargetIsSubsequence | DTsSnapshotBroadcaster.cs:155-158 | the relationships kept sit at strictly increasing positions of the input, so the input's order is kept, and every targeted relationship's position is among them |
| Snapshots.ShapeRelationshipsIsFilterMap | DTsSnapshotBroadcaster.cs:152-167 | the published relationships are the store's targeted relationships in the store's order, each transformed, so at most as many as the input |
| Snapshots.UntargetedIsDropped | DTsSnapshotBroadcaster.cs:157-158 | a relationship with no `$targetId`, or a null one, is skipped without error |
| Snapshots.ShapedRelationshipFields | DTsSnapshotBroadcaster.cs:159-164 | a kept relationship loses `$relationshipId` and `$etag` and keeps every other key unchanged except `external` and `$targetId`. `external` is true exactly when the target twin has the external model. `$targetId` is the target's `uri` text when the target is external and the original target id otherwise |
| Snapshots.ExternalWithoutUriFails | DTsSnapshotBroadcaster.cs:161-164 | an external target twin without a `uri` raises instead of being dropped |
| Snapshots.HandleNullIffNoTwinId | DTsSnapshotBroadcaster.cs:130-171 | handling returns null exactly when the event names no twin |
| Snapshots.SnapshotHeader | DTsSnapshotBroadcaster.cs:133-139 | every snapshot carries the event's twin id, the mapped event kind and the event time |
| Snapshots.DeleteSnapshot | DTsSnapshotBroadcaster.cs:141-145 | a twin delete with a subject always gives a snapshot without properties or relationships, and reads nothing from the store |
| Snapshots.FullSnapshot | DTsSnapshotBroadcaster.cs:141-167 | for the other four event types, the properties are the stored document minus `$dtId`, `$etag` and `$metadata`, with other values unchanged, and the relationship list is present |
| Broadcaster.Run | DTsSnapshotBroadcaster.cs:61-92 | a model fault fails the event; a null or external model drops it; otherwise a null snapshot drops it and a snapshot fault fails it; and exactly one message, to `digitalTwinUpdate` with the snapshot as its only argument, is published otherwise |

## Left out

- The `negotiate` HTTP function (`GetSignalRInfo`): it only passes the SignalR connection information through.
- SignalR delivery (`AddAsync`, `Task`): publishing is the `Published` delivery value. Asynchronous delivery, delivery failures and concurrency between invocations are not modelled.
- JSON text: parsing the CloudEvent data and serialising the snapshot (`ToJsonString`) are not modelled. The payload arrives already parsed; `None` stands for missing or unparsable data. The message argument is the snapshot value, not its JSON text. JSON object key order is not kept, because only serialisation can observe it.
- `NodeText`, `ElementText`: `ToString()` of an array or object yields JSON text in the source. It is indented for the payload nodes read through `JsonNode`, and raw for the `uri` contents value. The model raises `UnrenderedText` instead, because the serialiser is not modelled. This only matters when an id, model or `uri` field holds an array or object.
- `ElementText`: the model takes a JSON-null `uri` to be stored in the typed twin's contents as a null reference, so `ToString()` on it raises (`NullElement`). This is a modelling decision about the JSON library's extension-data reader, which is not part of this model.
- Client construction, the `ADT_SERVICE_URL` setting, credentials and HTTP transport: the client is replaced by an immutable `Store` value. The store cannot be unreachable, and relationship paging is a plain sequence.
- The store does not change while one event is handled. The source reads it several times, so a concurrent change could be seen part-way in the source.
- Each stored twin's `modelId` is taken as given, with no requirement that it match the `$metadata.$model` in its document.
- Logging calls.
- The event time is opaque text, copied through unchanged.
- `release.config.js` is release tooling and is not part of this model.
