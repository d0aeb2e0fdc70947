/**
 How a viewer page reacts to an MQTT message on its ring topic: the payload
 is parsed as JSON and only a message whose `event` property is exactly the
 string `"ring"` (JavaScript `===`) brings up the ring notification.
 */
module RingEvent {
  import opened Common

  /** The result of a JavaScript property read `value.key`. */
  datatype Property = Value(v: Json) | Undefined | TypeError

  /** `value.key` on a parsed JSON value: reading a property of `null`
      throws a TypeError; otherwise the read yields the object's own field,
      or `undefined`. The contract holds only for names that no built-in
      prototype defines, such as `event` (the only name read here): `length`
      on a string or `toString` on any value would find a built-in. */
  function PropertyOf(value: Json, key: string): (p: Property)
    ensures p.TypeError? <==> value.JNull?
    ensures p.Value? <==> value.JObject? && key in value.fields
    ensures p.Value? ==> p.v == value.fields[key]
  {
    match value
    case JNull => TypeError
    case JObject(fields) => if key in fields then Value(fields[key]) else Undefined
    case _ => Undefined
  }

  /** A JSON document that is a ring message. */
  predicate IsRingMessage(message: Json)
  {
    message.JObject? && "event" in message.fields && message.fields["event"] == JString("ring")
  }

  /** What the `message` handler does with a payload. */
  datatype Dispatch =
    | Ring          // showRingNotification is called
    | Ignore        // a well-formed message of another kind
    | ParseFailed   // JSON.parse threw
    | AccessFailed  // the payload parsed to null and `.event` threw

  /** The decision taken by the `message` handler for a payload, given as the
      result of `JSON.parse` (`None` when the text is not JSON). */
  function DispatchOf(payload: Option<Json>): (d: Dispatch)
    ensures d.Ring? <==> payload.Some? && IsRingMessage(payload.value)
    ensures d.ParseFailed? <==> payload.None?
    ensures d.AccessFailed? <==> payload == Some(JNull)
  {
    match payload
    case None => ParseFailed
    case Some(message) =>
      match PropertyOf(message, "event")
      case TypeError => AccessFailed
      case Value(JString(e)) => if e == "ring" then Ring else Ignore
      case _ => Ignore
  }
}
