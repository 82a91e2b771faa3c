/**
  The decoded JSON that the OData service returns, as far as the application looks at it:
  records are dictionaries from field names to values, a response body is an envelope that
  may hold its records under `value`, and a fetch either yields such a body or an error text.
 */
module Json {
  import opened Wrappers

  /** A field value: text, JSON null, or a nested list of records (a booking's guest references).
      Numbers and booleans never reach the formatting code and are not distinguished from text. */
  datatype Value = Text(s: string) | Null | Rows(rows: seq<map<string, Value>>)

  /** One record of an entity set: field name to value. */
  type Record = map<string, Value>

  /** The field stored under `key` as decoded, JSON null included; None when the record has no such field. */
  function Get(r: Record, key: string): Option<Value>
  {
    if key in r then Some(r[key]) else None
  }

  /**
    `record.get(key)` as Python sees it: JSON null decodes to None, so a null field and a missing
    one both give None, and compare equal to each other.
   */
  function Lookup(r: Record, key: string): (v: Option<Value>)
    ensures v.None? <==> key !in r || r[key] == Null
    ensures v.Some? ==> v == Get(r, key)
  {
    if key in r && r[key] != Null then Some(r[key]) else None
  }

  /** A decoded response body; `value` is None when the body has no `value` key. */
  datatype Envelope = Envelope(value: Option<seq<Record>>)

  /** `body.get("value", [])`: the records of an envelope, none when the key is missing. */
  function Records(e: Envelope): seq<Record>
  {
    match e.value
    case Some(rows) => rows
    case None => []
  }

  /** What `get_data` hands back: the error text it builds, or the decoded body. */
  datatype Fetch = Err(msg: string) | Ok(body: Envelope)

  /** Values whose `str()` the model renders: absent, null and text. */
  predicate Printable(v: Option<Value>)
  {
    v.None? || !v.value.Rows?
  }

  /** `str(v)` inside an f-string: text as it is, and "None" for a missing field or JSON null. */
  function Show(v: Option<Value>): string
    requires Printable(v)
  {
    match v
    case None => "None"
    case Some(Null) => "None"
    case Some(Text(s)) => s
  }
}
