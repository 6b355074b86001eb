/**
 * The five Azure Digital Twins event types the broadcaster recognises, the external-twin
 * model sentinel, and the mapping from an event type to the published event kind.
 */
module EventTypes {

  const RelationshipCreateType: string := "Microsoft.DigitalTwins.Relationship.Create"
  const RelationshipDeleteType: string := "Microsoft.DigitalTwins.Relationship.Delete"
  const TwinCreateType: string := "Microsoft.DigitalTwins.Twin.Create"
  const TwinDeleteType: string := "Microsoft.DigitalTwins.Twin.Delete"
  const TwinUpdateType: string := "Microsoft.DigitalTwins.Twin.Update"

  /** Model of the twins that mirror twins of another platform. */
  const ExternalDTModel: string := "dtmi:io:github:wodt:ExternalDT;1"

  /** The arms of the event-type switches. */
  datatype Category = TwinCreate | TwinDelete | TwinUpdate | RelationshipCreate | RelationshipDelete | Unrecognized

  /** Which arm of the switch an event type string selects. */
  function Classify(eventType: string): Category
  {
    if eventType == TwinCreateType then TwinCreate
    else if eventType == TwinDeleteType then TwinDelete
    else if eventType == TwinUpdateType then TwinUpdate
    else if eventType == RelationshipCreateType then RelationshipCreate
    else if eventType == RelationshipDeleteType then RelationshipDelete
    else Unrecognized
  }

  /** The event type string of a recognised category. */
  function Tag(c: Category): string
    requires c != Unrecognized
  {
    match c
    case TwinCreate => TwinCreateType
    case TwinDelete => TwinDeleteType
    case TwinUpdate => TwinUpdateType
    case RelationshipCreate => RelationshipCreateType
    case RelationshipDelete => RelationshipDeleteType
  }

  /** The five type strings are distinct, so each selects its own arm. */
  lemma ClassifyTag(c: Category)
    requires c != Unrecognized
    ensures Classify(Tag(c)) == c
  {
  }

  /** Only the five type strings are recognised. */
  lemma TagClassify(eventType: string)
    requires Classify(eventType) != Unrecognized
    ensures Tag(Classify(eventType)) == eventType
  {
  }

  /** The event kind published to clients. */
  function MapEventType(eventType: string): (kind: string)
    ensures kind == "CREATE" <==> eventType == TwinCreateType
    ensures kind == "DELETE" <==> eventType == TwinDeleteType
    ensures kind == "UPDATE" <==> eventType != TwinCreateType && eventType != TwinDeleteType
  {
    if eventType == TwinCreateType then "CREATE"
    else if eventType == TwinDeleteType then "DELETE"
    else "UPDATE"
  }

  /** Twin updates and both relationship events surface as updates; unknown types too. */
  lemma EventKindOfCategory(eventType: string)
    ensures Classify(eventType) == TwinCreate ==> MapEventType(eventType) == "CREATE"
    ensures Classify(eventType) == TwinDelete ==> MapEventType(eventType) == "DELETE"
    ensures Classify(eventType) in {TwinUpdate, RelationshipCreate, RelationshipDelete, Unrecognized} ==>
              MapEventType(eventType) == "UPDATE"
  {
  }

  /** Events after which the twin's full current state is fetched. */
  function NeedsSnapshot(eventType: string): (r: bool)
    ensures r <==> Classify(eventType) in {TwinCreate, TwinUpdate, RelationshipCreate, RelationshipDelete}
  {
    eventType == TwinCreateType || eventType == TwinUpdateType
    || eventType == RelationshipCreateType || eventType == RelationshipDeleteType
  }
}
