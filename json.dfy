/**
 * JSON values as the parser hands them to the program (RFC 8259), with
 * property lookup and truthiness as JavaScript reads them.
 */
module Json {
  import opened Wrappers

  /** A parsed JSON value; numbers are kept as integers. */
  datatype Json =
    | JNull
    | JBool(b: bool)
    | JNum(n: int)
    | JString(s: string)
    | JArray(items: seq<Json>)
    | JObject(members: seq<(string, Json)>)

  /** The value of the last member named `key`: a parsed object keeps the
      last of repeated names. */
  function Lookup(members: seq<(string, Json)>, key: string): (r: Option<Json>)
    ensures r.None? <==> forall i :: 0 <= i < |members| ==> members[i].0 != key
    ensures r.Some? ==> (key, r.value) in members
  {
    if members == [] then None
    else
      var init := members[..|members| - 1];
      var last := members[|members| - 1];
      assert forall i :: 0 <= i < |init| ==> init[i] == members[i];
      if last.0 == key then Some(last.1) else Lookup(init, key)
  }

  /** A later member of the same name hides the earlier ones; a member of
      another name leaves the lookup as it was. */
  lemma LookupAppend(members: seq<(string, Json)>, m: (string, Json), key: string)
    ensures Lookup(members + [m], key) == if m.0 == key then Some(m.1) else Lookup(members, key)
  {
    assert (members + [m])[..|members|] == members;
  }

  /** `v.key` on a parsed value: a member of an object, missing on anything
      else (null is dealt with by the callers, since reading it throws). */
  function Field(v: Json, key: string): Option<Json> {
    match v
    case JObject(members) => Lookup(members, key)
    case _ => None
  }

  /** JavaScript truthiness of a present value. */
  predicate Truthy(v: Json) {
    match v
    case JNull => false
    case JBool(b) => b
    case JNum(n) => n != 0
    case JString(s) => s != ""
    case JArray(_) => true
    case JObject(_) => true
  }

  /** Truthiness of a value that may be missing (`undefined` is falsy). */
  predicate TruthyField(v: Option<Json>) {
    v.Some? && Truthy(v.value)
  }
}
