/** JSON documents as encoding/json produces them. Timestamps stay abstract (JTime). */
module Json {

  datatype Json =
    | JNull
    | JBool(b: bool)
    | JInt(i: int)
    | JStr(s: string)
    | JTime(t: int)
    | JArr(items: seq<Json>)
    | JObj(fields: seq<Field>)

  /** One member of a JSON object, in the order the encoder writes it. */
  datatype Field = Field(key: string, value: Json)

  /** The member names of an object, in order. */
  function Keys(fields: seq<Field>): (ks: seq<string>)
    ensures |ks| == |fields|
    ensures forall i :: 0 <= i < |fields| ==> ks[i] == fields[i].key
  {
    if fields == [] then [] else [fields[0].key] + Keys(fields[1..])
  }

  /** True when `j` is an object with a member named `k`. */
  predicate HasKey(j: Json, k: string)
  {
    j.JObj? && k in Keys(j.fields)
  }
}
