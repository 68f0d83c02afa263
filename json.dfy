/**
 * Decoded JSON documents, the three states of a byte buffer that
 * `json.Unmarshal` distinguishes, and the decode errors it reports.
 * Byte-level parsing is not part of this model: a buffer is given
 * already as "empty", "not well-formed" or "one well-formed value".
 */
module Json {

  datatype Json =
    | JNull
    | JBool(b: bool)
    | JNumber(literal: string)
    | JString(s: string)
    | JArray(items: seq<Json>)
    | JObject(fields: map<string, Json>)

  /** A byte buffer handed to `json.Unmarshal`: empty (a nil `json.RawMessage`),
      not well-formed, or one well-formed value. */
  datatype RawJson = Absent | Malformed(reason: string) | Value(value: Json)

  /** The errors `json.Unmarshal` returns: the input ended before a value
      began, a syntax error, or a value of the wrong kind for its Go target
      (`field` is empty when the target is the top-level value). */
  datatype DecodeError =
    | UnexpectedEnd
    | Syntax(reason: string)
    | TypeMismatch(found: string, field: string, target: string)

  /** The name encoding/json gives a JSON value's kind in its type errors. */
  function KindName(j: Json): string
  {
    match j
    case JNull => "null"
    case JBool(_) => "bool"
    case JNumber(_) => "number"
    case JString(_) => "string"
    case JArray(_) => "array"
    case JObject(_) => "object"
  }

  /** The text of `err.Error()` for a decode error. */
  function ErrorText(e: DecodeError): string
  {
    match e
    case UnexpectedEnd => "unexpected end of JSON input"
    case Syntax(reason) => reason
    case TypeMismatch(found, field, target) =>
      if field == "" then "json: cannot unmarshal " + found + " into Go value of type " + target
      else "json: cannot unmarshal " + found + " into Go struct field " + field + " of type " + target
  }

  /** The raw bytes a `json.RawMessage` struct field holds after decoding an
      object: absent when the key is missing, otherwise the member's value
      (a JSON `null` member is kept as the bytes `null`). */
  function RawField(fields: map<string, Json>, key: string): RawJson
  {
    if key in fields then Value(fields[key]) else Absent
  }

  /** True when an object member is missing or JSON `null`: either way
      encoding/json leaves the Go field at its zero value. */
  predicate IsUnset(fields: map<string, Json>, key: string)
  {
    key !in fields || fields[key].JNull?
  }
}
