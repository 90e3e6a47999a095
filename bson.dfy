/** Untyped values as they travel over the bus and into the database driver:
    the model of Go's `interface{}` payloads and `map[string]interface{}` documents. */
module Bson {

  datatype Option<+T> = None | Some(value: T)

  /** An ObjectId, represented by its hexadecimal text. */
  datatype ObjectId = ObjectId(hex: string)

  /** A JSON-like value. `Obj` is a `map[string]interface{}`, `Oid` a `bson.ObjectId`,
      `Null` Go's nil (also the nil map a closed channel yields). */
  datatype Value =
    | Null
    | Bool(b: bool)
    | Num(n: int)
    | Str(s: string)
    | Oid(id: ObjectId)
    | List(items: seq<Value>)
    | Obj(fields: Document)

  type Document = map<string, Value>

  /** `m[key].(string)`: the string stored under `key`, if there is one. */
  function StringAt(m: Document, key: string): (r: Option<string>)
    ensures r.Some? <==> key in m && m[key].Str?
    ensures r.Some? ==> m[key] == Str(r.value)
  {
    if key in m && m[key].Str? then Some(m[key].s) else None
  }

  /** `m[key].(map[string]interface{})`: the document stored under `key`, if there is one. */
  function DocumentAt(m: Document, key: string): (r: Option<Document>)
    ensures r.Some? <==> key in m && m[key].Obj?
    ensures r.Some? ==> m[key] == Obj(r.value)
  {
    if key in m && m[key].Obj? then Some(m[key].fields) else None
  }

  /** The query `{"_id": id}` used to address one document by its identifier. */
  function IdQuery(id: ObjectId): (q: Value)
    ensures q.Obj? && q.fields.Keys == {"_id"} && q.fields["_id"] == Oid(id)
  {
    Obj(map["_id" := Oid(id)])
  }

  /** A slice of documents as a value (`[]map[string]interface{}`). */
  function DocumentList(docs: seq<Document>): (v: Value)
    ensures v.List? && |v.items| == |docs|
    ensures forall i :: 0 <= i < |docs| ==> v.items[i] == Obj(docs[i])
  {
    List(seq(|docs|, i requires 0 <= i < |docs| => Obj(docs[i])))
  }
}
