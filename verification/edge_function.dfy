/** The Supabase edge function `send-whatsapp`
    (supabase/functions/send-whatsapp/index.ts): the same dispatch loop as
    the job route, with its own inline copy of the Gupshup `sendTemplate`,
    environment variables read per request with `?? ''`, and CORS headers on
    every response. */
module EdgeFunction {
  import opened Wrappers
  import opened Text
  import opened Types
  import opened JsValues
  import opened Provider
  import opened Dispatch
  import opened JobRoute

  /** The environment variables the function reads; a missing one becomes "". */
  datatype EdgeEnv = EdgeEnv(
    supabaseUrl: Option<string>,
    serviceRoleKey: Option<string>,
    apiKey: Option<string>,
    baseUrl: Option<string>,
    sourceNumber: Option<string>)

  function OrEmpty(v: Option<string>): string {
    v.GetOr("")
  }

  const CorsHeaders: seq<(string, string)> := [
    ("Access-Control-Allow-Origin", "*"),
    ("Access-Control-Allow-Headers", "authorization, x-client-info, apikey, content-type")]

  /** The reply: the preflight "ok", or a JSON job reply. */
  datatype EdgeReply = Preflight | Job(reply: JobReply)

  datatype EdgeResponse = EdgeResponse(
    status: int,
    headers: seq<(string, string)>,
    reply: EdgeReply,
    table: seq<OutboxMessage>,
    requests: seq<HttpRequest>)

  /** The inline `sendTemplate(apiKey, baseUrl, params)`, written out as the
      function does it. */
  function EdgeSendTemplate(apiKey: string, baseUrl: string, args: TemplateArgs, x: Exchange): (c: Call)
    ensures c.request.url == baseUrl + "/msg"
    ensures c.result.ok <==> x.Responded? && x.body.Parsed? && x.body.data != JNull && 200 <= x.status <= 299
  {
    var message := JObject([("type", JString("template")),
                            ("template", JObject([("id", JString(args.templateId)),
                                                  ("params", JArray(JsonStrings(args.params)))]))]);
    var request := HttpRequest("POST", baseUrl + "/msg",
                               [("apikey", apiKey), ("Content-Type", "application/x-www-form-urlencoded")],
                               [("channel", Plain("whatsapp")), ("source", Plain(args.source)),
                                ("destination", Plain(args.to)), ("message", JsonText(message))]);
    var result :=
      match x
      case Threw(e) => SendResult(false, None, Some(if e.Some? then e.value else "Unknown error"))
      case Responded(status, Unparseable(err)) => SendResult(false, None, Some(err))
      case Responded(status, Parsed(data)) =>
        if data == JNull then
          SendResult(false, None, Some("Cannot read properties of null (reading '"
                                       + (if 200 <= status <= 299 then "messageId" else "message") + "')"))
        else if !(200 <= status <= 299) then
          var m := Get(data, "message");
          SendResult(false, None, Some(if Truthy(m) then FieldText(m).value else "HTTP " + IntToDecimal(status)))
        else SendResult(true, FieldText(Get(data, "messageId")), None);
    Call(request, result)
  }

  /** The inline copy behaves exactly like the shared client's `sendTemplate`:
      same request, same result, for every exchange. */
  lemma EdgeSendTemplateIsClient(apiKey: string, baseUrl: string, args: TemplateArgs, x: Exchange)
    ensures EdgeSendTemplate(apiKey, baseUrl, args, x) == SendTemplate(Client(apiKey, baseUrl), args, x)
  {
    var e := EdgeSendTemplate(apiKey, baseUrl, args, x);
    var c := SendTemplate(Client(apiKey, baseUrl), args, x);
    assert e.request == c.request;
    MapExchangeErrors(x);
    assert e.result == c.result;
  }

  function EdgeAttempt(env: EdgeEnv, c: Candidate, x: Exchange): (a: Attempt)
    ensures a.Raised? <==> c.message.payload.JNull?
  {
    match TemplateParams(c.message.payload)
    case Err(e) => Raised(e)
    case Ok(params) =>
      var call := EdgeSendTemplate(OrEmpty(env.apiKey), OrEmpty(env.baseUrl),
                                   TemplateArgs(c.customerNumber, OrEmpty(env.sourceNumber), c.providerTemplateId, params), x);
      Requested(call.request, call.result)
  }

  function EdgeRuns(env: EdgeEnv, batch: seq<Candidate>, world: nat -> RowWorld): (runs: seq<RowRun>)
    ensures |runs| == |batch|
    decreases |batch|
  {
    if |batch| == 0 then []
    else
      [RowRun(batch[0], EdgeAttempt(env, batch[0], world(0).exchange), world(0).at, world(0).updateFails)]
        + EdgeRuns(env, batch[1..], (i: nat) => world(i + 1))
  }

  /** `createClient` refuses an empty URL or key with an Error, which the
      handler's `catch` turns into the 500 reply. */
  predicate ClientConfigured(env: EdgeEnv) {
    OrEmpty(env.supabaseUrl) != "" && OrEmpty(env.serviceRoleKey) != ""
  }

  /** `Deno.serve`'s handler. */
  function EdgeServe(verb: string, env: EdgeEnv, query: QueryOutcome, table: seq<OutboxMessage>,
                     world: nat -> RowWorld): (r: EdgeResponse)
    ensures verb == "OPTIONS" ==> r.reply == Preflight && r.table == table && r.requests == []
    ensures 2 <= |r.headers| && r.headers[..2] == CorsHeaders
    ensures r.status == 500 <==> verb != "OPTIONS" && (!ClientConfigured(env) || query.QueryRejected?)
    ensures |r.table| == |table|
  {
    var json := CorsHeaders + [("Content-Type", "application/json")];
    if verb == "OPTIONS" then EdgeResponse(200, CorsHeaders, Preflight, table, [])
    else if !ClientConfigured(env) || query.QueryRejected? then
      EdgeResponse(500, json, Job(JobFailed), table, [])
    else
      var batch := if query.QueryRows? then SelectBatch(query.joined) else [];
      if |batch| == 0 then EdgeResponse(200, json, Job(Processed(0)), table, [])
      else
        var s := Drain(DrainState(table, 0, []), EdgeRuns(env, batch, world));
        EdgeResponse(200, json, Job(Processed(s.processed)), s.table, s.requests)
  }

  /** The route's environment read as the edge function would see it when
      every variable is set. */
  function AsRouteEnv(env: EdgeEnv): RouteEnv {
    RouteEnv(env.apiKey, env.baseUrl, env.sourceNumber)
  }

  predicate AllSet(env: EdgeEnv) {
    env.apiKey.Some? && env.baseUrl.Some? && env.sourceNumber.Some?
  }

  lemma {:induction false} RunsAgree(env: EdgeEnv, batch: seq<Candidate>, world: nat -> RowWorld)
    requires AllSet(env)
    ensures EdgeRuns(env, batch, world) == RouteRuns(AsRouteEnv(env), batch, world)
    decreases |batch|
  {
    if |batch| > 0 {
      var x := world(0).exchange;
      var c := batch[0];
      if !c.message.payload.JNull? {
        var params := TemplateParams(c.message.payload).value;
        EdgeSendTemplateIsClient(env.apiKey.value, env.baseUrl.value,
                                 TemplateArgs(c.customerNumber, env.sourceNumber.value, c.providerTemplateId, params), x);
      }
      RunsAgree(env, batch[1..], (i: nat) => world(i + 1));
    }
  }

  /** With every variable set and the database client configured, a
      non-preflight request to the edge function writes the same outbox,
      sends the same requests and reports the same count as the job route. */
  lemma EdgeMatchesRoute(verb: string, env: EdgeEnv, query: QueryOutcome, table: seq<OutboxMessage>,
                         world: nat -> RowWorld)
    requires verb != "OPTIONS" && AllSet(env) && ClientConfigured(env)
    ensures var e := EdgeServe(verb, env, query, table, world);
      var r := RoutePost(AsRouteEnv(env), query, table, world);
      && e.reply == Job(r.reply) && e.table == r.table && e.requests == r.requests
      && e.status == HttpStatus(r.reply)
  {
    if query.QueryRows? && |SelectBatch(query.joined)| > 0 {
      RunsAgree(env, SelectBatch(query.joined), world);
    }
  }

  /** Where the two differ: with GUPSHUP_API_KEY unset, the route sends the
      header `apikey: undefined` and the edge function sends an empty key. */
  lemma MissingApiKeyDiffers(routeCall: Call, edgeCall: Call, baseUrl: string, args: TemplateArgs, x: Exchange)
    requires routeCall == SendTemplate(ClientFromEnv(None, Some(baseUrl)), args, x)
    requires edgeCall == EdgeSendTemplate(OrEmpty(None), baseUrl, args, x)
    ensures Lookup(routeCall.request.headers, "apikey") == Some("undefined")
    ensures Lookup(edgeCall.request.headers, "apikey") == Some("")
    ensures routeCall.result == edgeCall.result
  {
    EdgeSendTemplateIsClient("", baseUrl, args, x);
  }

  /** A preflight request touches nothing and carries only the CORS headers. */
  lemma PreflightIsInert(env: EdgeEnv, query: QueryOutcome, table: seq<OutboxMessage>, world: nat -> RowWorld)
    ensures EdgeServe("OPTIONS", env, query, table, world) == EdgeResponse(200, CorsHeaders, Preflight, table, [])
  {
  }
}
