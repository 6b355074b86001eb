/** Optional values and the results of operations that the broadcaster can abort with an exception. */
module Outcomes {

  /** A value that may be absent, standing for a C# reference that may be null. */
  datatype Option<+T> = None | Some(value: T)

  /** The exceptions the event pipeline can raise while it handles one event. */
  datatype Fault =
    | MalformedPayload          // JsonSerializer.Deserialize<JsonObject> throws: no data, unparsable text, or a non-object root
    | NotAnObject               // AsObject() on a node that is not a JSON object
    | UnrenderedText            // ToString() of an array or object node: its JSON text is not modelled
    | NullTwinId                // GetDigitalTwin called with a null twin id
    | TwinNotFound(id: string)  // the twin store has no twin with this id
    | MissingUri(id: string)    // an external twin has no `uri` content: the dictionary indexer throws
    | NullElement               // ToString() on a contents value that is JSON null, held as a null reference

  /** Either the value an operation produced or the fault it was aborted with. */
  datatype Result<+T> = Ok(value: T) | Err(fault: Fault)
}
