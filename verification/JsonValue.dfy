/** JSON values. Objects are maps: `serde_json` keeps them sorted by key, and its equality ignores order. */
module JsonValue {
  datatype Json =
    | Null
    | Bool(b: bool)
    | Number(literal: string)
    | Str(text: string)
    | Array(items: seq<Json>)
    | Object(fields: map<string, Json>)
}
