/**
 * The API server: the health check, and the resume-analysis handler with
 * its ordered early returns, the brace-delimited span it cuts out of the
 * model's reply, and the coercion of what that span parses to.
 */
module Server {
  import opened Wrappers
  import opened Text
  import opened Json
  import opened ResumeAnalysis

  /** An HTTP status and a JSON body. */
  datatype Response = Response(status: nat, body: Json)

  /** `{ error: message }`. */
  function ErrorBody(message: string): Json {
    JObject([("error", JString(message))])
  }

  const NOT_CONFIGURED: string := "OpenAI API key not configured"
  const RESUME_REQUIRED: string := "resumeText is required"
  /** The error raised by calling `trim` on a value that is not a string. */
  const TRIM_TYPE_ERROR: string := "resumeText.trim is not a function"
  const INTERNAL_ERROR: string := "Internal Server Error"

  /** `Boolean(apiKey)`: the client exists exactly when the key is set and
      non-empty. */
  predicate KeySet(apiKey: Option<string>) {
    apiKey.Some? && apiKey.value != ""
  }

  /** `GET /health`. */
  function Health(apiKey: Option<string>): (r: Json)
    ensures Field(r, "ok") == Some(JBool(true))
    ensures Field(r, "openaiConfigured") == Some(JBool(KeySet(apiKey)))
  {
    var configured := ("openaiConfigured", JBool(KeySet(apiKey)));
    assert |"openaiConfigured"| != |"ok"|;
    LookupAppend([("ok", JBool(true))], configured, "ok");
    assert [("ok", JBool(true))] + [configured] == [("ok", JBool(true)), configured];
    JObject([("ok", JBool(true)), configured])
  }

  /** `req.body ?? {}`. */
  function RequestBody(body: Option<Json>): Json {
    if body.None? || body.value.JNull? then JObject([]) else body.value
  }

  /** `jobDescription = ""`: the default stands in for a missing field. */
  function JobDescription(body: Option<Json>): (r: Json)
    ensures Field(RequestBody(body), "jobDescription").None? ==> r == JString("")
    ensures Field(RequestBody(body), "jobDescription").Some? ==> r == Field(RequestBody(body), "jobDescription").value
  {
    Field(RequestBody(body), "jobDescription").GetOr(JString(""))
  }

  /** What the `resumeText` check finds. */
  datatype ResumeCheck = Usable(text: string) | Missing | NotAString

  /** `!resumeText || !resumeText.trim()`: missing when absent, falsy or
      a string of white space; a truthy value that is not a string makes
      the `trim` call throw. */
  function CheckResume(body: Option<Json>): (r: ResumeCheck)
    ensures r.Missing? <==>
      var v := Field(RequestBody(body), "resumeText");
      !TruthyField(v) || (v.value.JString? && AllWhitespace(v.value.s))
    ensures r.Usable? ==> Field(RequestBody(body), "resumeText") == Some(JString(r.text)) && Trim(r.text) != ""
    ensures r.NotAString? <==>
      var v := Field(RequestBody(body), "resumeText");
      TruthyField(v) && !v.value.JString?
  {
    var v := Field(RequestBody(body), "resumeText");
    if !TruthyField(v) then Missing
    else if !v.value.JString? then NotAString
    else if Trim(v.value.s) == "" then Missing
    else Usable(v.value.s)
  }

  /** `(err as Error)?.message || "Internal Server Error"`. */
  function ErrorText(message: string): (r: string)
    ensures r != ""
    ensures message != "" ==> r == message
  {
    if message == "" then INTERNAL_ERROR else message
  }

  /** The span from the first `{` to the last `}`, both included, when the
      first comes before the last. */
  function JsonSpan(text: string): (r: Option<string>)
    ensures r.None? <==> '{' !in text || '}' !in text || LastIndexOf(text, '}') < IndexOf(text, '{')
    ensures r.Some? ==> 0 <= IndexOf(text, '{') < LastIndexOf(text, '}') < |text| &&
                        r.value == text[IndexOf(text, '{')..LastIndexOf(text, '}') + 1]
    ensures r.Some? ==> |r.value| >= 2 && r.value[0] == '{' && r.value[|r.value| - 1] == '}'
  {
    var start := IndexOf(text, '{');
    var end := LastIndexOf(text, '}');
    if start != -1 && end != -1 && end > start then Some(text[start..end + 1]) else None
  }

  /** A reply of the form `pre {mid} post`, with no `{` before and no `}`
      after, yields exactly `{mid}`. */
  lemma JsonSpanOf(pre: string, mid: string, post: string)
    requires '{' !in pre && '}' !in post
    ensures JsonSpan(pre + "{" + mid + "}" + post) == Some("{" + mid + "}")
  {
    var span := "{" + mid + "}";
    var text := pre + span + post;
    assert text == pre + "{" + mid + "}" + post;
    var open, close := |pre|, |pre| + |span| - 1;
    assert text[open] == span[0] == '{';
    assert text[close] == span[|span| - 1] == '}';
    assert text[..open] == pre;
    IndexOfAt(text, '{', open);
    assert text[close + 1..] == post;
    LastIndexOfAt(text, '}', close);
    assert text[open..close + 1] == span;
  }

  /** `POST /api/analyze-resume`. `completion` stands for the model's
      reply (the message content, which may be missing) or the error the
      client call raised; `parse` for `JSON.parse`. */
  method AnalyzeResume(apiKey: Option<string>, body: Option<Json>,
                       completion: Result<Option<string>, string>,
                       parse: string -> Result<Json, string>) returns (res: Response)
    ensures !KeySet(apiKey) ==> res == Response(503, ErrorBody(NOT_CONFIGURED))
    ensures KeySet(apiKey) && CheckResume(body).Missing? ==> res == Response(400, ErrorBody(RESUME_REQUIRED))
    ensures KeySet(apiKey) && CheckResume(body).NotAString? ==> res == Response(500, ErrorBody(TRIM_TYPE_ERROR))
    ensures KeySet(apiKey) && CheckResume(body).Usable? && completion.Failure? ==>
      res == Response(500, ErrorBody(ErrorText(completion.error)))
    ensures KeySet(apiKey) && CheckResume(body).Usable? && completion.Success? ==>
      var span := JsonSpan(completion.value.GetOr(""));
      && (span.None? ==> res == Response(200, ToJson(EMPTY_ANALYSIS)))
      && (span.Some? && parse(span.value).Failure? ==> res == Response(500, ErrorBody(ErrorText(parse(span.value).error))))
      && (span.Some? && parse(span.value).Success? && parse(span.value).value.JNull? ==>
            res == Response(500, ErrorBody(NULL_READ_ERROR)))
      && (span.Some? && parse(span.value).Success? && !parse(span.value).value.JNull? ==>
            res == Response(200, ToJson(Coerce(parse(span.value).value).value)))
    ensures res.status == 200 ==> exists a :: res.body == ToJson(a)
  {
    if !KeySet(apiKey) {
      return Response(503, ErrorBody(NOT_CONFIGURED));
    }
    var check := CheckResume(body);
    if check.Missing? {
      return Response(400, ErrorBody(RESUME_REQUIRED));
    }
    if check.NotAString? {
      return Response(500, ErrorBody(TRIM_TYPE_ERROR));
    }
    if completion.Failure? {
      return Response(500, ErrorBody(ErrorText(completion.error)));
    }
    var text := completion.value.GetOr("");
    var analysis := EMPTY_ANALYSIS;
    var span := JsonSpan(text);
    if span.Some? {
      var parsed := parse(span.value);
      if parsed.Failure? {
        return Response(500, ErrorBody(ErrorText(parsed.error)));
      }
      var coerced := Coerce(parsed.value);
      if coerced.Failure? {
        return Response(500, ErrorBody(coerced.error));
      }
      analysis := coerced.value;
    } else {
      analysis := EMPTY_ANALYSIS;
    }
    return Response(200, ToJson(analysis));
  }
}
