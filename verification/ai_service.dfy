/** The generative-API adapter: the request body built from a prompt and a
    response schema, the status check and path extraction that turn a reply
    into either an error or the embedded text, and the two prompt/schema pairs
    (engagement analysis and tone rewrite).

    The network call, `response.json()` and `JSON.parse` are not modelled:
    `send` stands for the POST (payload in, outcome out) and `parse` for
    `JSON.parse` applied to whatever value was found at the text path. */
module AiService {
  import opened Wrappers
  import opened Json
  import opened Schema
  import Decimal

  // ---------------------------------------------------------------- request

  /** Keys of an object, in order. */
  function Keys(fs: seq<Field>): (ks: seq<string>)
    ensures |ks| == |fs|
    ensures forall i :: 0 <= i < |fs| ==> ks[i] == fs[i].key
  {
    seq(|fs|, i requires 0 <= i < |fs| => fs[i].key)
  }

  /** Reads `v[k1][k2]...` with optional chaining at every step. */
  function Path(v: Option<Json>, keys: seq<Key>): Option<Json>
    decreases |keys|
  {
    if |keys| == 0 then v else Path(Chain(v, keys[0]), keys[1..])
  }

  /** The request body: one user turn with one text part, and a generation
      config that asks for JSON constrained by `schema`. */
  function Payload(prompt: string, schema: Json): (p: Json)
    ensures ReadRequest(p) == Some((prompt, schema))
  {
    var part := JObj([Field("text", JStr(prompt))]);
    var turn := JObj([Field("role", JStr("user")), Field("parts", JArr([part]))]);
    var config := JObj([Field("responseMimeType", JStr("application/json")),
                        Field("responseSchema", schema)]);
    var p := JObj([Field("contents", JArr([turn])), Field("generationConfig", config)]);
    LookupSnoc([p.fields[0]], p.fields[1], "contents");
    LookupSnoc([turn.fields[0]], turn.fields[1], "parts");
    LookupSnoc([config.fields[0]], config.fields[1], "responseSchema");
    p
  }

  /** The prompt a server reads: `contents[0].parts[0].text`. */
  function PromptField(p: Json): Option<Json>
  {
    Chain(Chain(Chain(Chain(Chain(Some(p), Name("contents")), Index(0)), Name("parts")), Index(0)), Name("text"))
  }

  /** The schema a server reads: `generationConfig.responseSchema`. */
  function SchemaField(p: Json): Option<Json>
  {
    Chain(Chain(Some(p), Name("generationConfig")), Name("responseSchema"))
  }

  /** What a server reads out of a request body: the prompt text and the
      schema, if the body has the shape `Payload` builds. */
  function ReadRequest(p: Json): Option<(string, Json)>
  {
    match (PromptField(p), SchemaField(p))
    case (Some(JStr(prompt)), Some(schema)) => Some((prompt, schema))
    case _ => None
  }

  /** Nothing else is in the body: two top-level keys, exactly one turn with
      role `user` and exactly one part, and a config holding only the MIME
      type and the schema. */
  lemma PayloadShape(prompt: string, schema: Json)
    ensures var p := Payload(prompt, schema);
      && p.JObj? && Keys(p.fields) == ["contents", "generationConfig"]
      && var contents := Lookup(p.fields, "contents");
      && contents.Some? && contents.value.JArr? && |contents.value.items| == 1
      && var turn := contents.value.items[0];
      && turn.JObj? && Keys(turn.fields) == ["role", "parts"]
      && Lookup(turn.fields, "role") == Some(JStr("user"))
      && var parts := Lookup(turn.fields, "parts");
      && parts.Some? && parts.value.JArr? && |parts.value.items| == 1
      && parts.value.items[0].JObj? && Keys(parts.value.items[0].fields) == ["text"]
      && Lookup(parts.value.items[0].fields, "text") == Some(JStr(prompt))
      && var config := Lookup(p.fields, "generationConfig");
      && config.Some? && config.value.JObj?
      && Keys(config.value.fields) == ["responseMimeType", "responseSchema"]
      && Lookup(config.value.fields, "responseMimeType") == Some(JStr("application/json"))
      && Lookup(config.value.fields, "responseSchema") == Some(schema)
  {
    var p := Payload(prompt, schema);
    var turn := p.fields[0].value.items[0];
    var config := p.fields[1].value;
    LookupSnoc([p.fields[0]], p.fields[1], "contents");
    LookupSnoc([p.fields[0]], p.fields[1], "generationConfig");
    LookupSnoc([turn.fields[0]], turn.fields[1], "role");
    LookupSnoc([turn.fields[0]], turn.fields[1], "parts");
    LookupSnoc([config.fields[0]], config.fields[1], "responseMimeType");
    LookupSnoc([config.fields[0]], config.fields[1], "responseSchema");
  }

  /** The body carries exactly the prompt and schema it was built from, so
      distinct calls produce distinct bodies. */
  lemma PayloadInjective(p1: string, s1: Json, p2: string, s2: Json)
    ensures Payload(p1, s1) == Payload(p2, s2) ==> p1 == p2 && s1 == s2
  {
  }

  // --------------------------------------------------------------- response

  /** A received HTTP response; `body` is `None` when `response.json()` rejects. */
  datatype Response = Response(status: nat, body: Option<Json>)

  /** What the POST produces: a rejected promise (network failure) or a response. */
  datatype FetchOutcome = NetworkFailure | Responded(response: Response)

  /** Every way `makeAPIRequest` can throw. */
  datatype ApiError =
    | NetworkError          // fetch rejected
    | HttpError(status: nat) // status outside 200-299
    | BodyNotJson           // response.json() rejected
    | NullBody              // body is null: reading `candidates` throws
    | InvalidStructure      // the text path is missing or falsy
    | TextNotJson           // JSON.parse threw on the text

  /** `response.ok`: the status is in 200-299 (the Fetch standard's "ok status"). */
  predicate OkStatus(status: nat) { 200 <= status <= 299 }

  const HttpErrorPrefix := "HTTP error! status: "
  const InvalidStructureMessage := "Invalid response structure from API"

  /** Message of the error the adapter throws itself; `None` for errors the
      platform raises with its own wording. */
  function Message(e: ApiError): (m: Option<string>)
    ensures m.Some? <==> e.HttpError? || e.InvalidStructure?
    ensures e.HttpError? ==> StatusOfMessage(m.value) == Some(e.status)
    ensures e.InvalidStructure? ==> m == Some(InvalidStructureMessage)
  {
    match e
    case HttpError(status) =>
      ShowStatusRoundTrip(status);
      Some(HttpErrorPrefix + Decimal.Show(status))
    case InvalidStructure => Some(InvalidStructureMessage)
    case _ => None
  }

  /** Recovers the status from an HTTP error message: the prefix followed by
      the status in shortest decimal form, as a template literal prints it. */
  function StatusOfMessage(m: string): Option<nat>
  {
    if |m| > |HttpErrorPrefix| && m[..|HttpErrorPrefix|] == HttpErrorPrefix
       && Decimal.Canonical(m[|HttpErrorPrefix|..])
    then Some(Decimal.Read(m[|HttpErrorPrefix|..]))
    else None
  }

  lemma ShowStatusRoundTrip(status: nat)
    ensures StatusOfMessage(HttpErrorPrefix + Decimal.Show(status)) == Some(status)
  {
    var m := HttpErrorPrefix + Decimal.Show(status);
    assert m[..|HttpErrorPrefix|] == HttpErrorPrefix;
    assert m[|HttpErrorPrefix|..] == Decimal.Show(status);
    Decimal.ReadShow(status);
  }

  /** The HTTP error message is the only string that reads back as its
      status: the message is fixed character for character. */
  lemma HttpMessageUnique(m: string, status: nat)
    requires StatusOfMessage(m) == Some(status)
    ensures Message(HttpError(status)) == Some(m)
  {
    var digits := m[|HttpErrorPrefix|..];
    Decimal.ShowRead(digits);
    assert m == HttpErrorPrefix + digits;
  }

  /** The path `candidates[0].content.parts[0].text` of a reply. */
  const TextPath := [Index(0), Name("content"), Name("parts"), Index(0), Name("text")]

  /** Status check passed, the body read: `result.candidates` (a plain read,
      which throws on a null body) followed by optional chaining down to
      `text`, which must be truthy. */
  function ExtractText(body: Json): (r: Result<Json, ApiError>)
    ensures body == JNull <==> r == Failure(NullBody)
    ensures r.Success? ==> Truthy(r.value)
    ensures r.Success? ==> Path(Some(body), [Name("candidates")] + TextPath) == Some(r.value)
    ensures r.Failure? ==> r.error in {NullBody, InvalidStructure}
    ensures body != JNull && r.Failure? ==>
      var t := Path(Some(body), [Name("candidates")] + TextPath); t.None? || !Truthy(t.value)
  {
    if body == JNull then Failure(NullBody)
    else
      var candidates := Member(body, Name("candidates"));
      var text := Chain(Chain(Chain(Chain(Chain(candidates, Index(0)), Name("content")),
                                    Name("parts")), Index(0)), Name("text"));
      if text.None? || !Truthy(text.value) then Failure(InvalidStructure)
      else Success(text.value)
  }

  /** `makeAPIRequest(prompt, schema)`: send the payload, reject a non-ok
      status before looking at the body, extract the text, parse it, and
      return the parse verbatim. */
  function MakeRequest(prompt: string, schema: Json,
                       send: Json -> FetchOutcome, parse: Json -> Option<Json>): (r: Result<Json, ApiError>)
    ensures send(Payload(prompt, schema)).NetworkFailure? ==> r == Failure(NetworkError)
    ensures var out := send(Payload(prompt, schema));
      out.Responded? && !OkStatus(out.response.status) ==> r == Failure(HttpError(out.response.status))
    ensures var out := send(Payload(prompt, schema));
      (out.Responded? && OkStatus(out.response.status) && out.response.body.None?) ==> r == Failure(BodyNotJson)
    ensures var out := send(Payload(prompt, schema));
      (out.Responded? && OkStatus(out.response.status) && out.response.body.Some?
       && ExtractText(out.response.body.value).Failure?)
      ==> r == Failure(ExtractText(out.response.body.value).error)
    ensures var out := send(Payload(prompt, schema));
      (out.Responded? && OkStatus(out.response.status) && out.response.body.Some?
       && ExtractText(out.response.body.value).Success?
       && parse(ExtractText(out.response.body.value).value).None?)
      ==> r == Failure(TextNotJson)
    ensures r.Success? <==>
      var out := send(Payload(prompt, schema));
      && out.Responded? && OkStatus(out.response.status) && out.response.body.Some?
      && ExtractText(out.response.body.value).Success?
      && parse(ExtractText(out.response.body.value).value).Some?
    ensures r.Success? ==>
      r.value == parse(ExtractText(send(Payload(prompt, schema)).response.body.value).value).value
  {
    match send(Payload(prompt, schema))
    case NetworkFailure => Failure(NetworkError)
    case Responded(response) =>
      if !OkStatus(response.status) then Failure(HttpError(response.status))
      else if response.body.None? then Failure(BodyNotJson)
      else
        match ExtractText(response.body.value)
        case Failure(e) => Failure(e)
        case Success(text) =>
          if parse(text).None? then Failure(TextNotJson) else Success(parse(text).value)
  }

  /** The canonical reply carrying `text` at the path the adapter reads. */
  function Reply(text: Json): Json
  {
    JObj([Field("candidates", JArr([
      JObj([Field("content", JObj([Field("parts", JArr([JObj([Field("text", text)])]))]))])]))])
  }

  /** Path extraction inverts `Reply` exactly on truthy values; a falsy text
      (an empty string in particular) is reported as a structure error. */
  lemma ExtractReply(text: Json)
    ensures Truthy(text) ==> ExtractText(Reply(text)) == Success(text)
    ensures !Truthy(text) ==> ExtractText(Reply(text)) == Failure(InvalidStructure)
  {
  }

  lemma EmptyTextRejected()
    ensures ExtractText(Reply(JStr(""))) == Failure(InvalidStructure)
  {
  }

  /** Each missing link yields the structure error, never a crash. */
  lemma MissingCandidates()
    ensures ExtractText(JObj([])) == Failure(InvalidStructure)
    ensures ExtractText(JObj([Field("candidates", JArr([]))])) == Failure(InvalidStructure)
  {
  }

  lemma MissingContent()
    ensures ExtractText(JObj([Field("candidates", JArr([JNull]))])) == Failure(InvalidStructure)
  {
  }

  lemma MissingParts()
    ensures ExtractText(JObj([Field("candidates", JArr([JObj([Field("content", JObj([]))])]))]))
         == Failure(InvalidStructure)
  {
  }

  /** A non-ok status decides the outcome whatever the body holds. */
  lemma StatusBeforeBody(prompt: string, schema: Json, status: nat, b1: Option<Json>, b2: Option<Json>,
                         parse: Json -> Option<Json>)
    requires !OkStatus(status)
    ensures MakeRequest(prompt, schema, _ => Responded(Response(status, b1)), parse)
         == MakeRequest(prompt, schema, _ => Responded(Response(status, b2)), parse)
         == Failure(HttpError(status))
  {
  }

  /** An ok reply carrying a truthy text yields exactly what parsing that text
      gives: the result is handed back verbatim. */
  lemma ReplyRoundTrip(prompt: string, schema: Json, status: nat, text: Json, v: Json,
                       parse: Json -> Option<Json>)
    requires OkStatus(status) && Truthy(text) && parse(text) == Some(v)
    ensures MakeRequest(prompt, schema, _ => Responded(Response(status, Some(Reply(text)))), parse) == Success(v)
  {
    ExtractReply(text);
  }

  // ---------------------------------------------------------------- prompts

  /** `lead + text + tail`, with `text` spliced in verbatim (no escaping). */
  function Embed(lead: string, text: string, tail: string): string
  {
    lead + text + tail
  }

  /** The text between `lead` and `tail`, if `prompt` is framed by them. */
  function Unembed(lead: string, tail: string, prompt: string): Option<string>
  {
    if |prompt| >= |lead| + |tail| && prompt[..|lead|] == lead && prompt[|prompt| - |tail|..] == tail
    then Some(prompt[|lead|..|prompt| - |tail|])
    else None
  }

  lemma UnembedEmbed(lead: string, text: string, tail: string)
    ensures Unembed(lead, tail, Embed(lead, text, tail)) == Some(text)
  {
    var p := Embed(lead, text, tail);
    assert p[..|lead|] == lead;
    assert p[|p| - |tail|..] == tail;
    assert p[|lead|..|p| - |tail|] == text;
  }

  const AnalyzeLead := "Analyze the following social media post text. Provide a JSON object with your analysis.\n    Post: \""
  const AnalyzeTail := "\"\n    Provide an estimated engagement score out of 10 (float), the overall sentiment (one word: Positive, Neutral, or Negative), and an array of 4 short, actionable suggestions for improvement."
  const RewriteLead := "Rewrite the following social media post in three different tones: Casual, Professional, and Excited. Provide the result as a JSON object.\n    Original Post: \""
  const RewriteTail := "\""

  /** The analysis instruction, quoting the post verbatim. */
  function AnalyzePrompt(text: string): (p: string)
    ensures Unembed(AnalyzeLead, AnalyzeTail, p) == Some(text)
  {
    UnembedEmbed(AnalyzeLead, text, AnalyzeTail);
    Embed(AnalyzeLead, text, AnalyzeTail)
  }

  /** The rewrite instruction, quoting the post verbatim. */
  function RewritePrompt(text: string): (p: string)
    ensures Unembed(RewriteLead, RewriteTail, p) == Some(text)
  {
    UnembedEmbed(RewriteLead, text, RewriteTail);
    Embed(RewriteLead, text, RewriteTail)
  }

  /** The analysis schema: a number, a string and an array of strings, all required. */
  const AnalyzeSchema := SObject(
    [Property("engagementScore", SNumber), Property("sentiment", SString),
     Property("suggestions", SArray(SString))],
    ["engagementScore", "sentiment", "suggestions"])

  /** The rewrite schema: three required strings, one per tone. */
  const RewriteSchema := SObject(
    [Property("casual", SString), Property("professional", SString), Property("excited", SString)],
    ["casual", "professional", "excited"])

  /** A value conforms to the analysis schema exactly when the three fields
      are present with the declared types. */
  lemma AnalyzeSchemaMeaning(v: Json)
    ensures Conforms(v, AnalyzeSchema) <==>
      && v.JObj?
      && Lookup(v.fields, "engagementScore").Some? && Lookup(v.fields, "engagementScore").value.JNum?
      && Lookup(v.fields, "sentiment").Some? && Lookup(v.fields, "sentiment").value.JStr?
      && Lookup(v.fields, "suggestions").Some? && Lookup(v.fields, "suggestions").value.JArr?
      && forall k :: 0 <= k < |Lookup(v.fields, "suggestions").value.items| ==>
           Lookup(v.fields, "suggestions").value.items[k].JStr?
  {
    var ps := AnalyzeSchema.properties;
    assert forall n :: n in AnalyzeSchema.required <==> n == "engagementScore" || n == "sentiment" || n == "suggestions";
    if v.JObj? {
      assert (forall k :: 0 <= k < |ps| ==> PropertyConforms(v.fields, ps[k]))
         <==> PropertyConforms(v.fields, ps[0]) && PropertyConforms(v.fields, ps[1]) && PropertyConforms(v.fields, ps[2]);
    }
  }

  /** A value conforms to the rewrite schema exactly when the three tone
      fields are present strings. */
  lemma RewriteSchemaMeaning(v: Json)
    ensures Conforms(v, RewriteSchema) <==>
      && v.JObj?
      && Lookup(v.fields, "casual").Some? && Lookup(v.fields, "casual").value.JStr?
      && Lookup(v.fields, "professional").Some? && Lookup(v.fields, "professional").value.JStr?
      && Lookup(v.fields, "excited").Some? && Lookup(v.fields, "excited").value.JStr?
  {
    var ps := RewriteSchema.properties;
    assert forall n :: n in RewriteSchema.required <==> n == "casual" || n == "professional" || n == "excited";
    if v.JObj? {
      assert (forall k :: 0 <= k < |ps| ==> PropertyConforms(v.fields, ps[k]))
         <==> PropertyConforms(v.fields, ps[0]) && PropertyConforms(v.fields, ps[1]) && PropertyConforms(v.fields, ps[2]);
    }
  }

  /** The request body of `analyzePost(text)`. */
  function AnalyzeRequest(text: string): (p: Json)
    ensures match ReadRequest(p)
      case None => false
      case Some((prompt, schema)) =>
        Unembed(AnalyzeLead, AnalyzeTail, prompt) == Some(text) && Decode(schema) == Some(AnalyzeSchema)
  {
    Payload(AnalyzePrompt(text), Encode(AnalyzeSchema))
  }

  /** The request body of `rewritePost(text)`. */
  function RewriteRequest(text: string): (p: Json)
    ensures match ReadRequest(p)
      case None => false
      case Some((prompt, schema)) =>
        Unembed(RewriteLead, RewriteTail, prompt) == Some(text) && Decode(schema) == Some(RewriteSchema)
  {
    Payload(RewritePrompt(text), Encode(RewriteSchema))
  }

  /** `analyzePost(text)`. */
  function AnalyzePost(text: string, send: Json -> FetchOutcome, parse: Json -> Option<Json>): (r: Result<Json, ApiError>)
    ensures var out := send(AnalyzeRequest(text));
      out.Responded? && !OkStatus(out.response.status) ==> r == Failure(HttpError(out.response.status))
    ensures r.Success? ==> exists t :: Truthy(t) && parse(t) == Some(r.value)
  {
    MakeRequest(AnalyzePrompt(text), Encode(AnalyzeSchema), send, parse)
  }

  /** `rewritePost(text)`. */
  function RewritePost(text: string, send: Json -> FetchOutcome, parse: Json -> Option<Json>): (r: Result<Json, ApiError>)
    ensures var out := send(RewriteRequest(text));
      out.Responded? && !OkStatus(out.response.status) ==> r == Failure(HttpError(out.response.status))
    ensures r.Success? ==> exists t :: Truthy(t) && parse(t) == Some(r.value)
  {
    MakeRequest(RewritePrompt(text), Encode(RewriteSchema), send, parse)
  }

  /** The client does not check the schema: a reply whose text parses to a
      value with no analysis fields at all (here, `null`) is a success. */
  lemma NoClientValidation(text: string)
    ensures var parse := (t: Json) => Some(JNull);
      var send := (p: Json) => Responded(Response(200, Some(Reply(JStr("null")))));
      && AnalyzePost(text, send, parse) == Success(JNull)
      && !Conforms(JNull, AnalyzeSchema)
  {
    ExtractReply(JStr("null"));
  }
}
