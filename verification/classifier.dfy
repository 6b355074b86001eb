/**
 * Classification of a CloudEvent: which twin it is about and which model that twin has.
 * Both reads follow the event type switch; twin-event models are embedded in the payload,
 * relationship-event models are read from the source twin in the store.
 */
module Classifier {
  import opened Outcomes
  import opened JsonNodes
  import opened TwinStore
  import opened EventTypes

  /**
   * A CloudEvent as received. `data` is the payload already parsed; `None` stands for a
   * payload that is missing or is not JSON text. `time` is copied through untouched.
   */
  datatype CloudEvent = CloudEvent(eventType: string, subject: Option<string>, time: Option<string>, data: Option<Json>)

  const SourceIdPath: seq<string> := ["data", "$sourceId"]
  const EmbeddedModelPath: seq<string> := ["data", "$metadata", "$model"]
  const UpdateModelPath: seq<string> := ["data", "modelId"]

  /** Deserialising the payload as a JSON object: JSON null gives null, anything else but an object throws. */
  function Payload(data: Option<Json>): Result<Option<Json>>
  {
    match data
    case None => Err(MalformedPayload)
    case Some(JNull) => Ok(None)
    case Some(JObject(fields)) => Ok(Some(JObject(fields)))
    case Some(_) => Err(MalformedPayload)
  }

  /** The text found under `path` in the payload, null when a step is missing. */
  function TextAt(data: Option<Json>, path: seq<string>): Result<Option<string>>
  {
    match Payload(data)
    case Err(f) => Err(f)
    case Ok(root) =>
      match ReadPath(root, path)
      case Err(f) => Err(f)
      case Ok(node) => NodeText(node)
  }

  /**
   * The id of the twin an event is about. Twin events are about their subject and never
   * fail; only relationship events read the payload, so only they can raise a payload fault.
   */
  function TwinIdFromEvent(e: CloudEvent): (r: Result<Option<string>>)
    ensures Classify(e.eventType) in {TwinCreate, TwinDelete, TwinUpdate} ==> r == Ok(e.subject)
    ensures r.Err? ==> Classify(e.eventType) in {RelationshipCreate, RelationshipDelete}
    ensures r.Err? ==> r.fault in {MalformedPayload, NotAnObject, UnrenderedText}
  {
    match Classify(e.eventType)
    case TwinCreate | TwinDelete | TwinUpdate => Ok(e.subject)
    case RelationshipCreate | RelationshipDelete => TextAt(e.data, SourceIdPath)
    case Unrecognized => Ok(None)
  }

  /**
   * The model id of the twin an event is about. Twin events read only the payload, so they
   * can raise only payload faults. A relationship event never yields a null model: it gives
   * its source twin's model or raises, and not-found names a twin absent from the store.
   */
  function ModelFromEvent(e: CloudEvent, store: Store): (r: Result<Option<string>>)
    ensures Classify(e.eventType) == Unrecognized ==> r == Ok(None)
    ensures Classify(e.eventType) in {TwinCreate, TwinDelete, TwinUpdate} && r.Err? ==>
              r.fault in {MalformedPayload, NotAnObject, UnrenderedText}
    ensures Classify(e.eventType) in {RelationshipCreate, RelationshipDelete} && r.Ok? ==> r.value.Some?
    ensures r.Err? && r.fault.TwinNotFound? ==>
              Classify(e.eventType) in {RelationshipCreate, RelationshipDelete}
              && TwinIdFromEvent(e) == Ok(Some(r.fault.id)) && r.fault.id !in store
  {
    match Classify(e.eventType)
    case TwinCreate | TwinDelete => TextAt(e.data, EmbeddedModelPath)
    case TwinUpdate => TextAt(e.data, UpdateModelPath)
    case RelationshipCreate | RelationshipDelete =>
      (match TwinIdFromEvent(e)
       case Err(f) => Err(f)
       case Ok(None) => Err(NullTwinId)
       case Ok(Some(id)) =>
         match GetTwin(store, id)
         case Err(f) => Err(f)
         case Ok(twin) => Ok(Some(twin.modelId)))
    case Unrecognized => Ok(None)
  }

  /** Twin events embed their model in the payload, at a path that depends on the type. */
  predicate EmbedsModelAt(eventType: string, path: seq<string>)
  {
    || (Classify(eventType) in {TwinCreate, TwinDelete} && path == EmbeddedModelPath)
    || (Classify(eventType) == TwinUpdate && path == UpdateModelPath)
  }

  /** An unrecognised event type names neither a twin nor a model, whatever its payload. */
  lemma UnrecognizedYieldsNothing(e: CloudEvent, store: Store)
    requires Classify(e.eventType) == Unrecognized
    ensures TwinIdFromEvent(e) == Ok(None)
    ensures ModelFromEvent(e, store) == Ok(None)
  {
  }

  /** Relationship events are about the relationship's source twin named in the payload. */
  lemma RelationshipEventIdIsSource(e: CloudEvent, root: Json, id: string)
    requires Classify(e.eventType) in {RelationshipCreate, RelationshipDelete}
    requires e.data == Some(root) && root.JObject?
    requires HasPath(root, SourceIdPath, JString(id))
    ensures TwinIdFromEvent(e) == Ok(Some(id))
  {
    ReadPathFound(root, SourceIdPath, JString(id));
  }

  /**
   * A relationship event whose payload lacks `data.$sourceId` (or holds null on the way)
   * names no twin, and reading the model then fails on the null twin id.
   */
  lemma RelationshipEventSourceMissing(e: CloudEvent, store: Store, root: Json, i: nat, m: map<string, Json>)
    requires Classify(e.eventType) in {RelationshipCreate, RelationshipDelete}
    requires e.data == Some(root) && root.JObject?
    requires i < |SourceIdPath| && HasPath(root, SourceIdPath[..i], JObject(m)) && Get(m, SourceIdPath[i]) == None
    ensures TwinIdFromEvent(e) == Ok(None)
    ensures ModelFromEvent(e, store) == Err(NullTwinId)
  {
    ReadPathStops(root, SourceIdPath, i, m);
  }

  /**
   * Twin create and delete events carry the model under `data.$metadata.$model`,
   * twin update events under `data.modelId`.
   */
  lemma TwinEventModelFromPayload(e: CloudEvent, store: Store, root: Json, path: seq<string>, model: string)
    requires EmbedsModelAt(e.eventType, path)
    requires e.data == Some(root) && root.JObject?
    requires HasPath(root, path, JString(model))
    ensures ModelFromEvent(e, store) == Ok(Some(model))
  {
    ReadPathFound(root, path, JString(model));
  }

  /** When the walk to the embedded model meets a missing (or null) field, the model is null. */
  lemma TwinEventModelMissing(e: CloudEvent, store: Store, root: Json, path: seq<string>, i: nat, m: map<string, Json>)
    requires EmbedsModelAt(e.eventType, path)
    requires e.data == Some(root) && root.JObject?
    requires i < |path| && HasPath(root, path[..i], JObject(m)) && Get(m, path[i]) == None
    ensures ModelFromEvent(e, store) == Ok(None)
  {
    ReadPathStops(root, path, i, m);
  }

  /** A payload that is JSON null gives neither twin id nor model for any event type that reads it. */
  lemma NullPayloadYieldsNull(e: CloudEvent, store: Store)
    requires e.data == Some(JNull)
    ensures Classify(e.eventType) in {TwinCreate, TwinDelete, TwinUpdate} ==> ModelFromEvent(e, store) == Ok(None)
    ensures Classify(e.eventType) in {RelationshipCreate, RelationshipDelete} ==>
              TwinIdFromEvent(e) == Ok(None) && ModelFromEvent(e, store) == Err(NullTwinId)
  {
    ReadPathFromNull(SourceIdPath);
    ReadPathFromNull(EmbeddedModelPath);
    ReadPathFromNull(UpdateModelPath);
  }

  /**
   * A payload that is missing, is not JSON text, or has a root that is neither an object
   * nor null makes deserialisation throw for every recognised event type: the event fails
   * rather than being dropped.
   */
  lemma MalformedPayloadFails(e: CloudEvent, store: Store)
    requires Classify(e.eventType) != Unrecognized
    requires e.data.None? || (!e.data.value.JNull? && !e.data.value.JObject?)
    ensures ModelFromEvent(e, store) == Err(MalformedPayload)
    ensures Classify(e.eventType) in {RelationshipCreate, RelationshipDelete} ==> TwinIdFromEvent(e) == Err(MalformedPayload)
  {
  }

  /**
   * A payload field on the way to the model (or to `$sourceId`) that holds a scalar or an
   * array makes `AsObject()` throw: the event fails rather than being dropped.
   */
  lemma PayloadFieldNotObjectFails(e: CloudEvent, store: Store, root: Json, path: seq<string>, i: nat, v: Json)
    requires EmbedsModelAt(e.eventType, path)
          || (Classify(e.eventType) in {RelationshipCreate, RelationshipDelete} && path == SourceIdPath)
    requires e.data == Some(root) && root.JObject?
    requires i < |path| && HasPath(root, path[..i], v) && !v.JNull? && !v.JObject?
    ensures ModelFromEvent(e, store) == Err(NotAnObject)
    ensures Classify(e.eventType) in {RelationshipCreate, RelationshipDelete} ==> TwinIdFromEvent(e) == Err(NotAnObject)
  {
    ReadPathNotObject(root, path, i, v);
  }

  /** Relationship events take the model of their source twin in the store. */
  lemma RelationshipEventModelFromStore(e: CloudEvent, store: Store, id: string)
    requires Classify(e.eventType) in {RelationshipCreate, RelationshipDelete}
    requires TwinIdFromEvent(e) == Ok(Some(id))
    ensures id in store ==> ModelFromEvent(e, store) == Ok(Some(store[id].modelId))
    ensures id !in store ==> ModelFromEvent(e, store) == Err(TwinNotFound(id))
  {
  }
}
