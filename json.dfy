/** Payload bags and their text form (the `payload_json` columns).

    `JSON.stringify` and `JSON.parse` are modelled as an abstract pair: a
    stored text is either the text `JSON.stringify` produced for a value, or
    text that `JSON.parse` rejects.  Parsing the text of a value gives the
    value back, which is what RFC 8259 serialisation of a finite JSON value
    guarantees. */
module Json {
  import opened Wrappers

  datatype JsonValue =
    | JNull
    | JBool(b: bool)
    | JNum(n: real)
    | JStr(s: string)
    | JArr(items: seq<JsonValue>)
    | JObj(fields: map<string, JsonValue>)

  /** A JSON object: the schema-less payload of every cached row. */
  type JsonObject = map<string, JsonValue>

  /** The content of a text column holding JSON. */
  datatype JsonText = Stringified(value: JsonValue) | Unparseable(raw: string)

  /** `JSON.stringify(v)`. */
  function Stringify(v: JsonValue): JsonText {
    Stringified(v)
  }

  /** `JSON.parse(t)`; `None` when it throws. */
  function Parse(t: JsonText): Option<JsonValue> {
    match t
    case Stringified(v) => Some(v)
    case Unparseable(_) => None
  }

  /** `serializePayload`: an absent payload is stored as `{}`; the text
      always parses, to an object. */
  function SerializePayload(payload: Option<JsonObject>): (r: JsonText)
    ensures Parse(r) == Some(JObj(payload.GetOr(map[])))
  {
    Stringify(JObj(payload.GetOr(map[])))
  }

  /** `parsePayload`: the parsed object, or `{}` for text that does not
      parse or parses to something other than an object. */
  function ParsePayload(t: JsonText): (r: JsonObject)
    ensures Parse(t) == Some(JObj(r)) || r == map[]
  {
    match Parse(t)
    case Some(JObj(fields)) => fields
    case _ => map[]
  }

  /** Whatever payload is written is read back unchanged; no payload reads
      back as `{}`. */
  lemma PayloadRoundTrip(payload: Option<JsonObject>)
    ensures ParsePayload(SerializePayload(payload)) == payload.GetOr(map[])
  {
  }

  /** Invalid JSON, arrays and every non-object value read as `{}`. */
  lemma NonObjectPayloadIsEmpty(t: JsonText)
    requires Parse(t).None? || !Parse(t).value.JObj?
    ensures ParsePayload(t) == map[]
  {
  }

  /** `typeof payload[key] === 'string' ? payload[key] : fallback`. */
  function StringField(payload: JsonObject, key: string, fallback: string): (r: string)
    ensures key in payload && payload[key].JStr? ==> r == payload[key].s
    ensures !(key in payload && payload[key].JStr?) ==> r == fallback
  {
    if key in payload && payload[key].JStr? then payload[key].s else fallback
  }
}
