/** JSON documents as values; writing and parsing text are taken to be inverse. */
module JsonValue {
  import opened Common

  datatype Json = Null | Num(n: int) | Bool(b: bool) | Str(s: string) | Arr(elems: seq<Json>) | Obj(fields: map<string, Json>)

  predicate Has(j: Json, key: string) { j.Obj? && key in j.fields }

  function Field(j: Json, key: string): Json
    requires Has(j, key)
  {
    j.fields[key]
  }

  predicate IsNum(j: Json, key: string) { Has(j, key) && Field(j, key).Num? }
}
