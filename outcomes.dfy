/** Failure values shared by the chat server model. */
module Outcomes {

  /** The exceptions that escape a handler of the chat server. Each one ends
      the session loop of the connection that raised it (the `finally` of
      `producer` then unregisters the connection). */
  datatype Fault =
    | Undecodable              // the frame is not JSON, or not a JSON object
    | MissingKey(key: string)  // a KeyError on a field of the decoded payload
    | NotBound                 // `del connected[websocket]` on an unbound connection
    | NotRegistered            // `USERS.remove(websocket)` on an unknown connection
    | EmptyWait                // `asyncio.wait` given an empty list of sends

  datatype Option<+T> = None | Some(value: T)

  /** The outcome of a handler: its value, or the fault that ended the session. */
  datatype Result<+T> = Ok(value: T) | Err(fault: Fault)
}
