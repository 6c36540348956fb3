/** The Gupshup WhatsApp client (lib/providers/whatsapp/gupshup.ts): the shape
    of the form-encoded request `sendTemplate` and `sendText` post, and the
    mapping from what `fetch` produced to `{ok, providerMessageId | error}`.
    The network exchange is an input: `fetch` and `response.json()` are
    replaced by the `Exchange` they ended in. */
module Provider {
  import opened Wrappers
  import opened Text
  import opened Types
  import opened JsValues

  /** A value of the `application/x-www-form-urlencoded` body. The `message`
      field carries `JSON.stringify` of a JSON value; the serialisation and the
      percent-encoding of the WHATWG URL Standard (section 5) are not modelled. */
  datatype FormValue = Plain(text: string) | JsonText(json: Json)

  /** A request as handed to `fetch`. */
  datatype HttpRequest = HttpRequest(
    verb: string,
    url: string,
    headers: seq<(string, string)>,
    form: seq<(string, FormValue)>)

  /** The body `response.json()` produced: a JSON parse failure (a SyntaxError
      with its message), or the parsed value. */
  datatype ResponseBody =
    | Unparseable(syntaxError: string)
    | Parsed(data: Json)

  /** How the exchange ended: a response with its status, or a rejected
      `fetch` — `Some(message)` when an Error was thrown, `None` otherwise. */
  datatype Exchange =
    | Responded(status: int, body: ResponseBody)
    | Threw(error: Option<string>)

  /** `GupshupResponse`. */
  datatype SendResult = SendResult(ok: bool, providerMessageId: Option<string>, error: Option<string>)

  /** A request and the result the client returned for it. */
  datatype Call = Call(request: HttpRequest, result: SendResult)

  /** A `GupshupProvider` instance. */
  datatype Client = Client(apiKey: string, baseUrl: string)

  /** `SendTemplateParams`. */
  datatype TemplateArgs = TemplateArgs(to: string, source: string, templateId: string, params: seq<string>)

  /** `SendTextParams`. */
  datatype TextArgs = TextArgs(to: string, source: string, text: string)

  /** A present environment variable, or the text JavaScript makes of
      `undefined` when a missing one is forced with `!` and then stringified. */
  function EnvText(v: Option<string>): string {
    v.GetOr("undefined")
  }

  /** The module-level `gupshup` instance built from the environment. */
  function ClientFromEnv(apiKey: Option<string>, baseUrl: Option<string>): Client {
    Client(EnvText(apiKey), EnvText(baseUrl))
  }

  // ---------------------------------------------------------------------------
  // Request shape
  // ---------------------------------------------------------------------------

  /** A JavaScript string array as JSON. */
  function JsonStrings(ss: seq<string>): (r: seq<Json>)
    ensures |r| == |ss|
    ensures forall i :: 0 <= i < |ss| ==> r[i] == JString(ss[i])
  {
    seq(|ss|, i requires 0 <= i < |ss| => JString(ss[i]))
  }

  function TemplateMessage(templateId: string, params: seq<string>): Json {
    JObject([("type", JString("template")),
             ("template", JObject([("id", JString(templateId)), ("params", JArray(JsonStrings(params)))]))])
  }

  function TextMessage(text: string): Json {
    JObject([("type", JString("text")), ("text", JString(text))])
  }

  /** The POST both send operations make to `baseUrl + '/msg'`. */
  function MessageRequest(apiKey: string, baseUrl: string, to: string, source: string, message: Json): HttpRequest {
    HttpRequest(
      "POST",
      baseUrl + "/msg",
      [("apikey", apiKey), ("Content-Type", "application/x-www-form-urlencoded")],
      [("channel", Plain("whatsapp")), ("source", Plain(source)), ("destination", Plain(to)),
       ("message", JsonText(message))])
  }

  function Keys<V>(fields: seq<(string, V)>): (ks: seq<string>)
    ensures |ks| == |fields|
    ensures forall i :: 0 <= i < |fields| ==> ks[i] == fields[i].0
  {
    seq(|fields|, i requires 0 <= i < |fields| => fields[i].0)
  }

  /** The first value stored under `key`, as a JavaScript object lookup sees
      the URLSearchParams built from a literal object. */
  function Lookup<V>(fields: seq<(string, V)>, key: string): (r: Option<V>)
    ensures r.Some? <==> exists i :: 0 <= i < |fields| && fields[i].0 == key
    decreases |fields|
  {
    if |fields| == 0 then None
    else if fields[0].0 == key then Some(fields[0].1)
    else Lookup(fields[1..], key)
  }

  /** `Lookup` finds the first field carrying the key. */
  lemma {:induction false} LookupFirst<V>(fields: seq<(string, V)>, key: string, i: nat)
    requires i < |fields| && fields[i].0 == key
    requires forall j :: 0 <= j < i ==> fields[j].0 != key
    ensures Lookup(fields, key) == Some(fields[i].1)
    decreases i
  {
    if i > 0 {
      LookupFirst(fields[1..], key, i - 1);
    }
  }

  // ---------------------------------------------------------------------------
  // Response mapping
  // ---------------------------------------------------------------------------

  /** `response.ok` (WHATWG Fetch Standard): a status in the range 200-299. */
  predicate HttpOk(status: int) {
    200 <= status <= 299
  }

  /** JavaScript truthiness of a property read: `undefined`, null, false, 0
      and the empty string are falsy. */
  predicate Truthy(v: Option<Json>) {
    v.Some? && match v.value
      case JNull => false
      case JBool(b) => b
      case JNumber(n) => n != 0
      case JString(s) => s != ""
      case JArray(_) => true
      case JObject(_) => true
  }

  /** The message of the TypeError a property read on a null body throws. */
  function NullPropertyError(key: string): string {
    "Cannot read properties of null (reading '" + key + "')"
  }

  /** A field of the body as the text the result carries: a string as it is,
      any other value as `String(value)`; `undefined` and null as nothing. */
  function FieldText(v: Option<Json>): (r: Option<string>)
    ensures r.None? <==> v.None? || v.value.JNull?
    ensures v.Some? && v.value.JString? ==> r == Some(v.value.s)
  {
    if v.None? || v.value.JNull? then None
    else if v.value.JString? then Some(v.value.s)
    else Some(JsString(v.value))
  }

  /** The mapping both send operations apply; it never throws. The body is
      parsed before the status is looked at, so an unparseable body yields the
      parse error even on a non-2xx status, and a body that parses to null
      makes the property read throw a TypeError that the `catch` turns into the
      error, even on a 2xx status. */
  function MapExchange(x: Exchange): (r: SendResult)
    ensures r.ok <==> x.Responded? && x.body.Parsed? && !x.body.data.JNull? && HttpOk(x.status)
    ensures r.ok ==> r.error.None? && r.providerMessageId == FieldText(Get(x.body.data, "messageId"))
    ensures !r.ok ==> r.error.Some? && r.providerMessageId.None?
  {
    match x
    case Threw(e) =>
      SendResult(false, None, Some(e.GetOr("Unknown error")))
    case Responded(status, body) =>
      match body
      case Unparseable(err) => SendResult(false, None, Some(err))
      case Parsed(data) =>
        if data.JNull? then
          SendResult(false, None, Some(NullPropertyError(if HttpOk(status) then "messageId" else "message")))
        else if !HttpOk(status) then
          var message := Get(data, "message");
          SendResult(false, None, Some(if Truthy(message) then FieldText(message).value else "HTTP " + IntToDecimal(status)))
        else
          SendResult(true, FieldText(Get(data, "messageId")), None)
  }

  /** The error text of a failed exchange, case by case. */
  lemma MapExchangeErrors(x: Exchange)
    ensures x.Threw? && x.error.Some? ==> MapExchange(x).error == x.error
    ensures x.Threw? && x.error.None? ==> MapExchange(x).error == Some("Unknown error")
    ensures x.Responded? && x.body.Unparseable? ==> MapExchange(x).error == Some(x.body.syntaxError)
    ensures x.Responded? && x.body.Parsed? && x.body.data.JNull? ==>
      MapExchange(x).error == Some(NullPropertyError(if HttpOk(x.status) then "messageId" else "message"))
    ensures x.Responded? && x.body.Parsed? && !x.body.data.JNull? && !HttpOk(x.status) ==>
      var message := Get(x.body.data, "message");
      && (Truthy(message) ==> MapExchange(x).error == FieldText(message))
      && (!Truthy(message) ==> MapExchange(x).error == Some("HTTP " + IntToDecimal(x.status)))
  {
  }

  /** A non-2xx reply whose body carries a non-empty string `message` reports
      exactly that message. */
  lemma ProviderMessageReported(status: int, data: Json, message: string)
    requires !HttpOk(status) && message != ""
    requires Get(data, "message") == Some(JString(message))
    ensures MapExchange(Responded(status, Parsed(data))) == SendResult(false, None, Some(message))
  {
  }

  /** A 2xx reply whose body parses to null is a failure, not a success
      without a message id. */
  lemma NullBodyFails(status: int)
    requires HttpOk(status)
    ensures MapExchange(Responded(status, Parsed(JNull))).ok == false
    ensures MapExchange(Responded(status, Parsed(JNull))).error == Some(NullPropertyError("messageId"))
  {
  }

  /** The fallback error names the status: reading the numeral after "HTTP "
      gives back the status code. */
  lemma StatusErrorNamesStatus(status: nat, data: Json)
    requires !HttpOk(status) && !data.JNull? && !Truthy(Get(data, "message"))
    ensures var e := MapExchange(Responded(status, Parsed(data))).error.value;
      |e| > 5 && e[..5] == "HTTP " && AllDigits(e[5..]) && DecimalValue(e[5..]) == status
  {
    var e := MapExchange(Responded(status, Parsed(data))).error.value;
    assert e == "HTTP " + NatToDecimal(status);
    assert e[5..] == NatToDecimal(status);
    DecimalRoundTrip(status);
  }

  // ---------------------------------------------------------------------------
  // The two operations of GupshupProvider
  // ---------------------------------------------------------------------------

  /** `GupshupProvider.sendTemplate`. */
  function SendTemplate(client: Client, args: TemplateArgs, x: Exchange): (c: Call)
    ensures c.result == MapExchange(x)
    ensures c.request.verb == "POST" && c.request.url == client.baseUrl + "/msg"
    ensures Lookup(c.request.headers, "apikey") == Some(client.apiKey)
  {
    Call(MessageRequest(client.apiKey, client.baseUrl, args.to, args.source,
                        TemplateMessage(args.templateId, args.params)),
         MapExchange(x))
  }

  /** `GupshupProvider.sendText`. */
  function SendText(client: Client, args: TextArgs, x: Exchange): (c: Call)
    ensures c.result == MapExchange(x)
    ensures c.request.verb == "POST" && c.request.url == client.baseUrl + "/msg"
    ensures Lookup(c.request.headers, "apikey") == Some(client.apiKey)
  {
    Call(MessageRequest(client.apiKey, client.baseUrl, args.to, args.source, TextMessage(args.text)),
         MapExchange(x))
  }

  /** The template form has exactly the fields channel, source, destination
      and message, holding "whatsapp", the source, the recipient and the
      template message with its id and parameters in order. */
  lemma TemplateFormFields(client: Client, args: TemplateArgs, x: Exchange)
    ensures var form := SendTemplate(client, args, x).request.form;
      && Keys(form) == ["channel", "source", "destination", "message"]
      && Lookup(form, "channel") == Some(Plain("whatsapp"))
      && Lookup(form, "source") == Some(Plain(args.source))
      && Lookup(form, "destination") == Some(Plain(args.to))
      && Lookup(form, "message") == Some(JsonText(TemplateMessage(args.templateId, args.params)))
  {
    var form := SendTemplate(client, args, x).request.form;
    assert Keys(form) == ["channel", "source", "destination", "message"];
    LookupFirst(form, "destination", 2);
    LookupFirst(form, "message", 3);
  }

  /** The template message carries the template id and the parameters, each
      as a JSON string, in their original order. */
  lemma TemplateMessageContents(templateId: string, params: seq<string>)
    ensures var m := TemplateMessage(templateId, params);
      && Lookup(m.entries, "type") == Some(JString("template"))
      && Lookup(m.entries, "template").Some?
      && var t := Lookup(m.entries, "template").value;
      && t.JObject?
      && Lookup(t.entries, "id") == Some(JString(templateId))
      && Lookup(t.entries, "params").Some?
      && var p := Lookup(t.entries, "params").value;
      && p.JArray? && |p.items| == |params|
      && forall i :: 0 <= i < |params| ==> p.items[i] == JString(params[i])
  {
  }

  /** `sendText` makes the same request as `sendTemplate` except for the
      message field, and maps the exchange identically. */
  lemma SendTextDiffersOnlyInMessage(client: Client, to: string, source: string, templateId: string,
                                     params: seq<string>, text: string, x: Exchange)
    ensures var t := SendTemplate(client, TemplateArgs(to, source, templateId, params), x);
      var m := SendText(client, TextArgs(to, source, text), x);
      && t.result == m.result
      && t.request.verb == m.request.verb
      && t.request.url == m.request.url
      && t.request.headers == m.request.headers
      && t.request.form[..3] == m.request.form[..3]
      && m.request.form[3] == ("message", JsonText(TextMessage(text)))
  {
  }
}
