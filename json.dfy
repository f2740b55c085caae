/**
 * JSON objects as the client sends and receives them: an ordered list of
 * named members. Only what the request bodies and their read-back need is
 * modelled; `encoding/json` itself is not.
 */
module Json {
  import opened Wrappers
  import opened Strconv

  datatype Value = String(text: string) | Number(n: int)

  datatype Member = Member(name: string, value: Value)

  type Object = seq<Member>

  /** The member names in the order they are written. */
  function Names(obj: Object): (names: seq<string>)
    ensures |names| == |obj|
    ensures forall j :: 0 <= j < |obj| ==> names[j] == obj[j].name
  {
    if obj == [] then [] else [obj[0].name] + Names(obj[1..])
  }

  /** The value of the first member called `name`, if there is one. */
  function Lookup(obj: Object, name: string): (r: Option<Value>)
    ensures r.None? <==> name !in Names(obj)
    ensures r.Some? ==> Member(name, r.value) in obj
  {
    if obj == [] then None
    else if obj[0].name == name then Some(obj[0].value)
    else Lookup(obj[1..], name)
  }

  /** No two members share a name. */
  predicate DistinctNames(obj: Object)
  {
    forall i, j :: 0 <= i < j < |obj| ==> obj[i].name != obj[j].name
  }

  /** In an object without repeated names, every member is found under its own name. */
  lemma {:induction false} LookupDistinct(obj: Object, i: int)
    requires DistinctNames(obj) && 0 <= i < |obj|
    ensures Lookup(obj, obj[i].name) == Some(obj[i].value)
  {
    if i > 0 {
      LookupDistinct(obj[1..], i - 1);
    }
  }

  /**
   * Decoding a member into a Go `string` field: an absent member leaves the
   * zero value "", a member of another JSON type is a decoding error.
   */
  function StringField(obj: Object, name: string): (r: Option<string>)
    ensures Lookup(obj, name) == None ==> r == Some("")
    ensures Lookup(obj, name) == Some(String(r.value)) <== r.Some? && name in Names(obj)
    ensures Lookup(obj, name).Some? && Lookup(obj, name).value.String? ==> r == Some(Lookup(obj, name).value.text)
  {
    match Lookup(obj, name)
    case None => Some("")
    case Some(String(s)) => Some(s)
    case Some(Number(_)) => None
  }

  /**
   * Decoding a member into a Go `int` field: an absent member leaves 0; a
   * number outside the 64-bit range, or a member of another type, is an error.
   */
  function Int64Field(obj: Object, name: string): (r: Option<int64>)
    ensures Lookup(obj, name) == None ==> r == Some(0)
    ensures r.Some? && name in Names(obj) ==> Lookup(obj, name) == Some(Number(r.value as int))
    ensures Lookup(obj, name).Some? && Lookup(obj, name).value.Number?
            ==> (r.Some? <==> -0x8000_0000_0000_0000 <= Lookup(obj, name).value.n <= Int64Max)
  {
    match Lookup(obj, name)
    case None => Some(0)
    case Some(Number(n)) =>
      if -0x8000_0000_0000_0000 <= n <= Int64Max then Some(n as int64) else None
    case Some(String(_)) => None
  }
}
