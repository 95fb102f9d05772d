/** JSON values. */
module Json {
  import opened Bytes

  datatype Json =
    | Null
    | Bool(truth: bool)
    | Num(value: real)
    | Text(text: seq<Byte>)
    | Array(items: seq<Json>)
    | Object(members: map<seq<Byte>, Json>)
}
