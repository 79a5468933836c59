/** The inbound side of `producer`: frames, and the action envelope decoded from them. */
module Session {
  import opened Outcomes
  import opened Bindings

  /** One received text frame, already run through `json.loads`. */
  datatype Inbound =
    | Blank                                // the empty message, skipped by `if message:`
    | Garbled                              // not JSON, or JSON that is not an object
    | Envelope(fields: map<string, string>) // a JSON object with string fields

  /** A frame together with the clock reading taken if it is handled as `message_to`. */
  datatype Frame = Frame(clock: string, body: Inbound)

  /** What the dispatch of `producer` does with a frame. */
  datatype Action =
    | Skip
    | Connect(name: Name)
    | Disconnect
    | MessageTo(name: Name, userTo: Name, message: string)
    | Replay(name: Name, userTo: Name)
    | Other(tag: string)

  /** The `action` values the dispatch recognises. */
  const KnownActions: set<string> := {"connect", "disconnect", "message_to", "replay"}

  /** The field lookups of the dispatch: `data['action']` first, then the fields of that
      action in the order the handler call reads them; a missing one is a KeyError. */
  function Decode(body: Inbound): Result<Action>
  {
    match body
    case Blank => Ok(Skip)
    case Garbled => Err(Undecodable)
    case Envelope(fields) =>
      if "action" !in fields then Err(MissingKey("action"))
      else
        var action := fields["action"];
        if action == "connect" then
          if "name" !in fields then Err(MissingKey("name"))
          else Ok(Connect(fields["name"]))
        else if action == "disconnect" then Ok(Disconnect)
        else if action == "message_to" then
          if "name" !in fields then Err(MissingKey("name"))
          else if "user_to" !in fields then Err(MissingKey("user_to"))
          else if "message" !in fields then Err(MissingKey("message"))
          else Ok(MessageTo(fields["name"], fields["user_to"], fields["message"]))
        else if action == "replay" then
          if "name" !in fields then Err(MissingKey("name"))
          else if "user_to" !in fields then Err(MissingKey("user_to"))
          else Ok(Replay(fields["name"], fields["user_to"]))
        else Ok(Other(action))
  }

  /** The envelope a client writes for an action. */
  function Encode(a: Action): map<string, string>
  {
    match a
    case Skip => map[]
    case Connect(name) => map["action" := "connect", "name" := name]
    case Disconnect => map["action" := "disconnect"]
    case MessageTo(name, userTo, message) =>
      map["action" := "message_to", "name" := name, "user_to" := userTo, "message" := message]
    case Replay(name, userTo) => map["action" := "replay", "name" := name, "user_to" := userTo]
    case Other(tag) => map["action" := tag]
  }

  /** Every envelope decodes to the action it encodes, whatever other fields it
      carries: the payload's `name` is taken as given. */
  lemma DecodeEncode(a: Action, extra: map<string, string>)
    requires !a.Skip?
    requires a.Other? ==> a.tag !in KnownActions
    ensures Decode(Envelope(extra + Encode(a))) == Ok(a)
  {
  }

  /** Decoding fails only on an undecodable frame or a missing key. */
  lemma DecodeFaults(body: Inbound)
    ensures Decode(body).Err? ==>
      Decode(body).fault == Undecodable || Decode(body).fault.MissingKey?
    ensures Decode(body) == Err(Undecodable) <==> body.Garbled?
    ensures Decode(body) == Ok(Skip) <==> body.Blank?
  {
  }
}
