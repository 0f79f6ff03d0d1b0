/** JSON documents as Python's json module hands them to YKSBot/app.py:
    the stored profile, each exam entry and the submitted results are all
    values of this one type. */
module Json {
  import opened Outcomes

  /** A decoded JSON value. Integers and floats are kept apart because
      Python prints them differently; a float is kept as the numeral that
      denotes it, since nothing in the handler computes with it. An object
      keeps its members in insertion order, as a Python dict does. */
  datatype Json =
    | JNull
    | JBool(b: bool)
    | JInt(i: int)
    | JFloat(literal: string)
    | JString(s: string)
    | JArray(items: seq<Json>)
    | JObject(fields: seq<(string, Json)>)

  /** `d.get(key)`: the value of the member named key, if there is one. */
  function Get(fields: seq<(string, Json)>, key: string): Option<Json> {
    if |fields| == 0 then None
    else if fields[0].0 == key then Some(fields[0].1)
    else Get(fields[1..], key)
  }

  /** `d[key] = value`: an existing member keeps its position and takes the
      new value; a new member goes at the end. */
  function Put(fields: seq<(string, Json)>, key: string, value: Json): (r: seq<(string, Json)>)
    ensures Get(r, key) == Some(value)
    ensures forall k :: k != key ==> Get(r, k) == Get(fields, k)
    ensures Get(fields, key).Some? ==>
      |r| == |fields| && forall i :: 0 <= i < |r| ==> r[i].0 == fields[i].0
  {
    if |fields| == 0 then [(key, value)]
    else if fields[0].0 == key then [(key, value)] + fields[1..]
    else [fields[0]] + Put(fields[1..], key, value)
  }

  /** `doc[key]` on a decoded document: a non-dict raises TypeError, a
      missing key raises KeyError. */
  function Lookup(doc: Json, key: string): (r: Result<Json>)
    ensures r.Ok? <==> doc.JObject? && Get(doc.fields, key).Some?
    ensures r.Ok? ==> Get(doc.fields, key) == Some(r.value)
    ensures !doc.JObject? ==> r == Err(NotAnObject)
    ensures doc.JObject? && Get(doc.fields, key).None? ==> r == Err(MissingKey(key))
  {
    if !doc.JObject? then Err(NotAnObject)
    else match Get(doc.fields, key)
      case None => Err(MissingKey(key))
      case Some(v) => Ok(v)
  }
}
