/** Bytes and parsed JSON documents, shared by the packet and the task frame. */
module Values {
  import opened Wrappers

  newtype Byte = b: int | 0 <= b < 256
  type Bytes = seq<Byte>

  datatype Json = Null | Bool(flag: bool) | Int(number: int) | Float(text: string) | Str(text: string)
                | Arr(items: seq<Json>) | Obj(fields: map<string, Json>)

  function Field(fields: map<string, Json>, key: string): Json {
    if key in fields then fields[key] else Null
  }

  function AsText(value: Json): Option<string> {
    if value.Str? then Some(value.text) else None
  }
}
