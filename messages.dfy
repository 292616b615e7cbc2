/** The shape of a decoded websocket frame, as far as the listener reads it. */
module Messages {
  import opened Wrappers

  /** The `data` field of a decoded frame. */
  datatype Payload =
    | Absent                                          // `data` missing or null
    | Text(text: string)                              // a plain string, as a LOGS frame carries
    | Fields(sid: Option<string>, promptId: Option<string>)  // an object; other keys are opaque

  /** A decoded frame: `{ event, data }`. */
  datatype Message = Message(event: string, data: Payload)

  /** The event kind whose payload is a log line. */
  const LogsEvent: string := "LOGS"

  /** JavaScript truthiness of an optional string: present and not empty. */
  predicate Truthy(o: Option<string>)
  {
    o.Some? && o.value != ""
  }

  /** `data.sid`; a string payload has no such property. */
  function SidOf(p: Payload): (r: Option<string>)
    ensures Truthy(r) ==> p.Fields?
  {
    if p.Fields? then p.sid else None
  }

  /** `data.prompt_id`; a string payload has no such property. */
  function PromptIdOf(p: Payload): (r: Option<string>)
    ensures Truthy(r) ==> p.Fields?
  {
    if p.Fields? then p.promptId else None
  }
}
