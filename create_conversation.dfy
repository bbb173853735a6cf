/**
 * The conversation-creation client: builds the request body from the stored
 * settings, sends one POST to the conversational-video API and turns the
 * response into either the parsed conversation or a thrown error.
 *
 * The network is not modelled: what `fetch` delivers is a parameter
 * (`Transport`), and the request the client would send is returned beside the
 * outcome so that its contents can be stated.
 */
module ConversationApi {
  import opened Wrappers
  import opened JsText

  const DefaultPersona: string := "pcce34deac2a"
  const DefaultReplica: string := "rb17cf590e15"
  const DefaultGreeting: string := "Hey there! I'm your technical co-pilot! Let's get get started building with Tavus."
  const Endpoint: string := "https://tavusapi.com/v2/conversations"

  /**
   * The settings store. `None` is an absent (undefined or null) field;
   * `others` holds the fields this client does not read.
   */
  datatype Settings = Settings(
    persona: Option<string>,
    replica: Option<string>,
    greeting: Option<string>,
    context: Option<string>,
    others: map<string, string>)

  /** JavaScript truthiness of an optional string: present and not empty. */
  predicate Truthy(o: Option<string>) {
    o.Some? && o.value != ""
  }

  /** `o || fallback` */
  function OrElse(o: Option<string>, fallback: string): string {
    if Truthy(o) then o.value else fallback
  }

  /** `o ?? fallback`: only undefined and null fall back, the empty string is kept. */
  function Coalesce(o: Option<string>, fallback: string): string {
    if o.Some? then o.value else fallback
  }

  /** The JSON body of the request. */
  datatype Payload = Payload(
    persona_id: string,
    replica_id: string,
    custom_greeting: string,
    conversational_context: string)

  /** Builds the request body, falling back to fixed defaults field by field. */
  function BuildPayload(s: Settings): (p: Payload)
    ensures Truthy(s.persona) ==> p.persona_id == s.persona.value
    ensures !Truthy(s.persona) ==> p.persona_id == DefaultPersona
    ensures Truthy(s.replica) ==> p.replica_id == s.replica.value
    ensures !Truthy(s.replica) ==> p.replica_id == DefaultReplica
    ensures s.greeting.Some? ==> p.custom_greeting == s.greeting.value
    ensures s.greeting.None? ==> p.custom_greeting == DefaultGreeting
    ensures p.conversational_context == if s.context.Some? then s.context.value else ""
    ensures p.persona_id != "" && p.replica_id != ""
  {
    var contextString := OrElse(s.context, "");
    Payload(
      OrElse(s.persona, DefaultPersona),
      OrElse(s.replica, DefaultReplica),
      Coalesce(s.greeting, DefaultGreeting),
      contextString)
  }

  /** Settings holding exactly the values of a payload. */
  function SettingsOf(p: Payload, others: map<string, string>): Settings {
    Settings(Some(p.persona_id), Some(p.replica_id), Some(p.custom_greeting), Some(p.conversational_context), others)
  }

  /** Every payload with non-empty ids is produced by the settings that hold its values, whatever the other fields. */
  lemma PayloadRoundTrip(p: Payload, others: map<string, string>)
    requires p.persona_id != "" && p.replica_id != ""
    ensures BuildPayload(SettingsOf(p, others)) == p
  {
  }

  /** The body depends only on the four fields it reads. */
  lemma PayloadIgnoresOtherFields(s: Settings, t: Settings)
    requires s.persona == t.persona && s.replica == t.replica
    requires s.greeting == t.greeting && s.context == t.context
    ensures BuildPayload(s) == BuildPayload(t)
  {
  }

  /** The single request the client sends. */
  datatype Request = Request(
    url: string,
    httpMethod: string,
    contentType: string,
    apiKey: string,
    body: Payload)

  /** The request for a token and a settings snapshot; the `x-api-key` header is `token ?? ""`. */
  function BuildRequest(token: Option<string>, s: Settings): (r: Request)
    ensures r.url == Endpoint && r.httpMethod == "POST" && r.contentType == "application/json"
    ensures r.apiKey == Coalesce(token, "")
    ensures r.body == BuildPayload(s)
  {
    Request(Endpoint, "POST", "application/json", Coalesce(token, ""), BuildPayload(s))
  }

  /** The parsed success body: the conversation's identifier and join URL. */
  datatype ConversationData = ConversationData(conversation_id: string, conversation_url: string)

  /** An HTTP response: its `ok` flag, status, body text and the body parsed as JSON (`None` if it is not JSON). */
  datatype HttpResponse = HttpResponse(ok: bool, status: nat, text: string, json: Option<ConversationData>)

  /** What `fetch` delivers: a response, or a rejection with no response. */
  datatype Transport = Responded(response: HttpResponse) | NetworkFailure(reason: string)

  /** What the client throws. */
  datatype ClientError =
    | HttpError(message: string)     // the Error thrown on a non-ok response
    | FetchRejected(reason: string)  // fetch itself rejected
    | InvalidJson                    // response.json() rejected

  const HttpErrorPrefix: string := "HTTP error! status: "
  const HttpErrorSeparator: string := ", message: "

  /** The message of the error thrown on a non-ok response: the status in decimal, then the body text verbatim at the end. */
  function HttpErrorMessage(status: nat, text: string): (m: string)
    ensures |m| == |HttpErrorPrefix| + |NatToString(status)| + |HttpErrorSeparator| + |text|
    ensures m[..|HttpErrorPrefix|] == HttpErrorPrefix
    ensures m[|HttpErrorPrefix|..|HttpErrorPrefix| + |NatToString(status)|] == NatToString(status)
    ensures m[|m| - |text|..] == text
  {
    HttpErrorPrefix + NatToString(status) + HttpErrorSeparator + text
  }

  /** Reads the status and the body text back out of an error message. */
  function ParseHttpErrorMessage(m: string): Option<(nat, string)> {
    if |m| < |HttpErrorPrefix| || m[..|HttpErrorPrefix|] != HttpErrorPrefix then None
    else
      var rest := m[|HttpErrorPrefix|..];
      var k := DigitPrefixLength(rest);
      var tail := rest[k..];
      if k == 0 || |tail| < |HttpErrorSeparator| || tail[..|HttpErrorSeparator|] != HttpErrorSeparator then None
      else Some((ParseNat(rest[..k]), tail[|HttpErrorSeparator|..]))
  }

  /** The error message carries both the status and the full body text: both can be read back from it. */
  lemma HttpErrorMessageRoundTrip(status: nat, text: string)
    ensures ParseHttpErrorMessage(HttpErrorMessage(status, text)) == Some((status, text))
  {
    var digits := NatToString(status);
    var m := HttpErrorMessage(status, text);
    assert m == HttpErrorPrefix + (digits + (HttpErrorSeparator + text));
    assert m[..|HttpErrorPrefix|] == HttpErrorPrefix;
    var rest := m[|HttpErrorPrefix|..];
    assert rest == digits + (HttpErrorSeparator + text);
    assert (HttpErrorSeparator + text)[0] == ',';
    DigitPrefixOfDigits(digits, HttpErrorSeparator + text);
    assert rest[..|digits|] == digits;
    assert rest[|digits|..] == HttpErrorSeparator + text;
    ParseNatToString(status);
  }

  /** Turns what `fetch` delivered into the client's outcome. */
  function ReadResponse(t: Transport): (r: Result<ConversationData, ClientError>)
    ensures t.NetworkFailure? ==> r == Err(FetchRejected(t.reason))
    ensures t.Responded? && !t.response.ok ==>
              r.Err? && r.error.HttpError?
              && ParseHttpErrorMessage(r.error.message) == Some((t.response.status, t.response.text))
    ensures t.Responded? && t.response.ok ==>
              if t.response.json.Some? then r == Ok(t.response.json.value) else r == Err(InvalidJson)
  {
    match t
    case NetworkFailure(reason) => Err(FetchRejected(reason))
    case Responded(response) =>
      if !response.ok then
        HttpErrorMessageRoundTrip(response.status, response.text);
        Err(HttpError(HttpErrorMessage(response.status, response.text)))
      else if response.json.Some? then
        Ok(response.json.value)
      else
        Err(InvalidJson)
  }

  /** Whether `fetch` delivered an ok response whose body parses: the one case in which the client resolves. */
  predicate Delivers(t: Transport) {
    t.Responded? && t.response.ok && t.response.json.Some?
  }

  /** One call of the client: the request it sends and what it resolves or rejects with. */
  datatype Call = Call(request: Request, outcome: Result<ConversationData, ClientError>)

  /** `createConversation(token)` with the settings store read as `s` and the network's answer `t`. */
  function CreateConversation(token: Option<string>, s: Settings, t: Transport): (c: Call)
    ensures c.request.apiKey == Coalesce(token, "") && c.request.body == BuildPayload(s)
    ensures c.outcome.Ok? <==> Delivers(t)
    ensures Delivers(t) ==> c.outcome.value == t.response.json.value
  {
    Call(BuildRequest(token, s), ReadResponse(t))
  }
}
