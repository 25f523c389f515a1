/** Decoded JSON values. A number is kept as its text, an object as a finite map. */
module Json {
  datatype Json =
    | Null
    | Bool(value: bool)
    | Num(text: string)
    | Str(s: string)
    | Arr(items: seq<Json>)
    | Obj(fields: map<string, Json>)
}
