/**
 * JSON documents as the IPC files hold them (RFC 8259 values).  Encoding
 * and decoding belong to Python's `json` library and are abstracted here
 * as a serialise/parse pair: a file is either a complete serialised
 * document or bytes that do not parse (for instance a document the other
 * process has only half written, since `open(path, "w")` truncates first).
 */
module JsonDoc {
  import opened Wrappers

  /** A JSON value.  Numbers are kept as integers: the only numbers the
      channel writes are timestamps, which are opaque here. */
  datatype Json =
    | JNull
    | JBool(b: bool)
    | JNumber(n: int)
    | JString(s: string)
    | JArray(items: seq<Json>)
    | JObject(fields: map<string, Json>)

  /** What a file on disk holds. */
  datatype FileContent =
    | Serialized(doc: Json)
    | Unparseable(raw: string)

  /** `json.dump`: what writing `doc` leaves in the file; reading it back
      with `Parse` gives `doc` again. */
  function Serialize(doc: Json): (f: FileContent)
    ensures Parse(f) == Some(doc)
  {
    Serialized(doc)
  }

  /** `json.load`: `None` stands for the exception it raises. */
  function Parse(f: FileContent): Option<Json> {
    match f
    case Serialized(doc) => Some(doc)
    case Unparseable(_) => None
  }
}
