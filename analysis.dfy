/**
 * The shape of an analysis result, and the coercion both the server and
 * the page apply to a parsed reply: each of the three lists is kept when it
 * is an array and replaced by the empty list otherwise.
 */
module ResumeAnalysis {
  import opened Wrappers
  import opened Json

  /** The three lists of an analysis. The elements are kept as parsed: the
      coercion checks only that each list is an array. */
  datatype Analysis = Analysis(strengths: seq<Json>, improvements: seq<Json>, tailoring: seq<Json>)

  const EMPTY_ANALYSIS: Analysis := Analysis([], [], [])

  /** The error raised by reading a property of `null`. */
  const NULL_READ_ERROR: string := "Cannot read properties of null (reading 'strengths')"

  /** `Array.isArray(v) ? v : []`. */
  function ArrayOrEmpty(v: Option<Json>): (r: seq<Json>)
    ensures v.Some? && v.value.JArray? ==> r == v.value.items
    ensures !(v.Some? && v.value.JArray?) ==> r == []
  {
    if v.Some? && v.value.JArray? then v.value.items else []
  }

  /** The coerced analysis of a parsed value; reading the fields of `null`
      throws. */
  function Coerce(v: Json): (r: Result<Analysis, string>)
    ensures r.Failure? <==> v.JNull?
    ensures r.Success? ==> r.value == Analysis(ArrayOrEmpty(Field(v, "strengths")),
                                               ArrayOrEmpty(Field(v, "improvements")),
                                               ArrayOrEmpty(Field(v, "tailoring")))
  {
    if v.JNull? then Failure(NULL_READ_ERROR)
    else Success(Analysis(ArrayOrEmpty(Field(v, "strengths")),
                          ArrayOrEmpty(Field(v, "improvements")),
                          ArrayOrEmpty(Field(v, "tailoring"))))
  }

  /** The analysis as the JSON object the server sends. */
  function ToJson(a: Analysis): Json {
    JObject([("strengths", JArray(a.strengths)), ("improvements", JArray(a.improvements)),
             ("tailoring", JArray(a.tailoring))])
  }

  /** Coercing what the server sends gives back the analysis it sent. */
  lemma CoerceToJson(a: Analysis)
    ensures Coerce(ToJson(a)) == Success(a)
  {
    var m := ToJson(a).members;
    assert Lookup(m, "tailoring") == Some(JArray(a.tailoring));
    assert m[..2][..1] == [("strengths", JArray(a.strengths))];
    assert Lookup(m, "improvements") == Lookup(m[..2], "improvements");
    assert Lookup(m, "strengths") == Lookup(m[..2][..1], "strengths");
  }

  /** Coercion is idempotent: a coerced analysis, sent again, is unchanged. */
  lemma CoerceIdempotent(v: Json)
    requires !v.JNull?
    ensures Coerce(ToJson(Coerce(v).value)) == Coerce(v)
  {
    CoerceToJson(Coerce(v).value);
  }

  /** A value with no array in any of the three fields yields the empty
      analysis. */
  lemma CoerceNoArrays(v: Json)
    requires !v.JNull?
    requires forall key :: Field(v, key).Some? ==> !Field(v, key).value.JArray?
    ensures Coerce(v) == Success(EMPTY_ANALYSIS)
  {
    assert !(Field(v, "strengths").Some? && Field(v, "strengths").value.JArray?);
    assert !(Field(v, "improvements").Some? && Field(v, "improvements").value.JArray?);
    assert !(Field(v, "tailoring").Some? && Field(v, "tailoring").value.JArray?);
  }
}
