/**
 * The event handler: classify the event, drop events about unknown or external
 * models, assemble the snapshot and publish it as one message to the clients' hub.
 */
module Broadcaster {
  import opened Outcomes
  import opened EventTypes
  import opened TwinStore
  import opened Classifier
  import opened Snapshots

  /** The client method every published message invokes. */
  const UpdateTarget: string := "digitalTwinUpdate"

  /** A message for the real-time hub: the client method to call and its arguments. */
  datatype Message = Message(target: string, arguments: seq<Snapshot>)

  /** What handling one event does: nothing, publish one message, or abort with a fault. */
  datatype Delivery = Dropped | Published(message: Message) | Failed(fault: Fault)

  /** The model filter: the event concerns a twin of a known, non-external model. */
  predicate OfInterest(model: Result<Option<string>>)
  {
    model.Ok? && model.value.Some? && model.value.value != ExternalDTModel
  }

  /** Handling one CloudEvent against the current state of the twin store. */
  method Run(e: CloudEvent, store: Store) returns (d: Delivery)
    ensures ModelFromEvent(e, store).Err? ==> d == Failed(ModelFromEvent(e, store).fault)
    ensures ModelFromEvent(e, store) == Ok(None) ==> d == Dropped
    ensures ModelFromEvent(e, store) == Ok(Some(ExternalDTModel)) ==> d == Dropped
    ensures OfInterest(ModelFromEvent(e, store)) && Handle(e, store) == Ok(None) ==> d == Dropped
    ensures OfInterest(ModelFromEvent(e, store)) && Handle(e, store).Err? ==> d == Failed(Handle(e, store).fault)
    ensures d.Published? <==> OfInterest(ModelFromEvent(e, store)) && Handle(e, store).Ok? && Handle(e, store).value.Some?
    ensures d.Published? ==> d.message == Message(UpdateTarget, [Handle(e, store).value.value])
  {
    var dtModel := ModelFromEvent(e, store);
    if dtModel.Err? {
      return Failed(dtModel.fault);
    }
    if dtModel.value.None? || dtModel.value.value == ExternalDTModel {
      return Dropped;
    }
    var eventToClients := HandleEvent(e, store);
    if eventToClients.Err? {
      return Failed(eventToClients.fault);
    }
    if eventToClients.value.None? {
      return Dropped;
    }
    return Published(Message(UpdateTarget, [eventToClients.value.value]));
  }
}
