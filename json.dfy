/** JSON values, for the request and record fields that the handlers store without looking inside. */
module JsonValues {
  datatype Json =
    | Null
    | Bool(b: bool)
    | Number(n: real)
    | Str(s: string)
    | Array(items: seq<Json>)
    | Object(members: seq<(string, Json)>)
}
