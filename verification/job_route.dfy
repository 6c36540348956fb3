/** The Next.js job endpoint `POST /api/jobs/send-whatsapp`
    (app/api/jobs/send-whatsapp/route.ts): read the batch, send each row's
    template through the module-level Gupshup client, record the outcome and
    reply `{ processed }`. */
module JobRoute {
  import opened Wrappers
  import opened Types
  import opened JsValues
  import opened Provider
  import opened Outbox
  import opened Dispatch

  /** The environment variables the route reads. A missing one is forced with
      `!` and reaches the request as the text "undefined". */
  datatype RouteEnv = RouteEnv(apiKey: Option<string>, baseUrl: Option<string>, sourceNumber: Option<string>)

  /** How the batch query ended: its promise rejected, it returned an error,
      or it returned the joined rows (filtering, ordering and the limit are
      applied by `SelectBatch`). */
  datatype QueryOutcome = QueryRejected | QueryError | QueryRows(joined: seq<Candidate>)

  /** What the outside world contributes to one batch row: how the HTTP
      exchange with the provider ended, the clock reading for the update, and
      whether the database refused that update (its `{ error }` is ignored). */
  datatype RowWorld = RowWorld(exchange: Exchange, at: Timestamp, updateFails: bool)

  /** The JSON reply: `{ processed: n }` with status 200, or
      `{ error: 'Job processing failed' }` with status 500. */
  datatype JobReply = Processed(count: nat) | JobFailed

  /** The reply, the outbox after the run and the provider requests made. */
  datatype JobRun = JobRun(reply: JobReply, table: seq<OutboxMessage>, requests: seq<HttpRequest>)

  const JobFailedMessage := "Job processing failed"

  function HttpStatus(r: JobReply): int {
    if r.JobFailed? then 500 else 200
  }

  /** The `try` block for one row: building the parameters throws for a null
      payload; otherwise the client is called with the customer's number, the
      source number and the template's provider id. */
  function RouteAttempt(env: RouteEnv, c: Candidate, x: Exchange): (a: Attempt)
    ensures a.Raised? <==> c.message.payload.JNull?
    ensures a.Raised? ==> a.message == NullToObjectError
    ensures a.Requested? ==> a.result == MapExchange(x)
  {
    match TemplateParams(c.message.payload)
    case Err(e) => Raised(e)
    case Ok(params) =>
      var call := SendTemplate(ClientFromEnv(env.apiKey, env.baseUrl),
                               TemplateArgs(c.customerNumber, EnvText(env.sourceNumber), c.providerTemplateId, params), x);
      Requested(call.request, call.result)
  }

  /** The batch rows paired with what happened to each, in batch order;
      `world(i)` is what the outside world did for the i-th row. */
  function RouteRuns(env: RouteEnv, batch: seq<Candidate>, world: nat -> RowWorld): (runs: seq<RowRun>)
    ensures |runs| == |batch|
    ensures forall i :: 0 <= i < |batch| ==>
      runs[i] == RowRun(batch[i], RouteAttempt(env, batch[i], world(i).exchange), world(i).at, world(i).updateFails)
    decreases |batch|
  {
    if |batch| == 0 then []
    else
      [RowRun(batch[0], RouteAttempt(env, batch[0], world(0).exchange), world(0).at, world(0).updateFails)]
        + RouteRuns(env, batch[1..], (i: nat) => world(i + 1))
  }

  /** The number of rows whose payload is not null. */
  function NonNullPayloads(batch: seq<Candidate>): (n: nat)
    ensures n <= |batch|
    decreases |batch|
  {
    if |batch| == 0 then 0
    else (if batch[0].message.payload.JNull? then 0 else 1) + NonNullPayloads(batch[1..])
  }

  /** `POST`. */
  function RoutePost(env: RouteEnv, query: QueryOutcome, table: seq<OutboxMessage>,
                     world: nat -> RowWorld): (r: JobRun)
    ensures r.reply.JobFailed? <==> query.QueryRejected?
    ensures |r.table| == |table|
    ensures r.reply.Processed? ==> r.reply.count == |r.requests|
    ensures !query.QueryRows? ==> r.table == table && r.requests == []
  {
    match query
    case QueryRejected => JobRun(JobFailed, table, [])
    case QueryError => JobRun(Processed(0), table, [])
    case QueryRows(joined) =>
      var batch := SelectBatch(joined);
      if |batch| == 0 then JobRun(Processed(0), table, [])
      else
        var runs := RouteRuns(env, batch, world);
        var s := Drain(DrainState(table, 0, []), runs);
        DrainCounts(DrainState(table, 0, []), runs);
        JobRun(Processed(s.processed), s.table, s.requests)
  }

  /** Each run of the route counts one per batch row whose payload is not
      null. */
  lemma {:induction false} RouteRunsCount(env: RouteEnv, batch: seq<Candidate>, world: nat -> RowWorld)
    ensures CountRequested(RouteRuns(env, batch, world)) == NonNullPayloads(batch)
    decreases |batch|
  {
    if |batch| > 0 {
      RouteRunsCount(env, batch[1..], (i: nat) => world(i + 1));
    }
  }

  /** `processed` is the number of batch rows with a non-null payload, so at
      most ten. */
  lemma RoutePostProcessed(env: RouteEnv, joined: seq<Candidate>, table: seq<OutboxMessage>,
                           world: nat -> RowWorld)
    ensures var r := RoutePost(env, QueryRows(joined), table, world);
      && r.reply == Processed(NonNullPayloads(SelectBatch(joined)))
      && r.reply.count <= BatchLimit
  {
    var batch := SelectBatch(joined);
    SelectBatchSpec(joined);
    if |batch| > 0 {
      RouteRunsCount(env, batch, world);
      DrainCounts(DrainState(table, 0, []), RouteRuns(env, batch, world));
    }
  }

  /** Only batch rows are written: every other outbox row is left as it was,
      and a changed row is now SENT or FAILED. */
  lemma RoutePostFrame(env: RouteEnv, joined: seq<Candidate>, table: seq<OutboxMessage>,
                       world: nat -> RowWorld)
    ensures var r := RoutePost(env, QueryRows(joined), table, world);
      var runs := RouteRuns(env, SelectBatch(joined), world);
      && (forall i :: 0 <= i < |table| && table[i].id !in Ids(runs) ==> r.table[i] == table[i])
      && (forall i :: 0 <= i < |table| && r.table[i] != table[i] ==> r.table[i].status in {Sent, Failed})
  {
    var batch := SelectBatch(joined);
    if |batch| > 0 {
      DrainFrame(DrainState(table, 0, []), RouteRuns(env, batch, world));
    }
  }

  /** Every request the route makes posts to the configured base URL plus
      "/msg" with the configured API key — or with "undefined" in place of a
      missing variable. */
  lemma RouteRequestTarget(env: RouteEnv, c: Candidate, x: Exchange)
    requires !c.message.payload.JNull?
    ensures var a := RouteAttempt(env, c, x);
      && a.Requested?
      && a.request.url == EnvText(env.baseUrl) + "/msg"
      && Lookup(a.request.headers, "apikey") == Some(EnvText(env.apiKey))
      && Lookup(a.request.form, "destination") == Some(Plain(c.customerNumber))
      && Lookup(a.request.form, "source") == Some(Plain(EnvText(env.sourceNumber)))
  {
    var params := TemplateParams(c.message.payload).value;
    TemplateFormFields(ClientFromEnv(env.apiKey, env.baseUrl),
                       TemplateArgs(c.customerNumber, EnvText(env.sourceNumber), c.providerTemplateId, params), x);
  }

  /** A query error and an empty batch are both answered `{ processed: 0 }`
      with status 200, and nothing is written. */
  lemma EmptyBatchIsQuiet(env: RouteEnv, joined: seq<Candidate>, table: seq<OutboxMessage>,
                          world: nat -> RowWorld)
    requires |Eligibles(joined)| == 0
    ensures RoutePost(env, QueryRows(joined), table, world) == JobRun(Processed(0), table, [])
    ensures HttpStatus(RoutePost(env, QueryError, table, world).reply) == 200
  {
    SelectBatchSpec(joined);
  }

  /** Message ids are pairwise distinct (the outbox's primary key). */
  predicate DistinctMessages(batch: seq<Candidate>) {
    forall i, j :: 0 <= i < j < |batch| ==> batch[i].message.id != batch[j].message.id
  }

  /** A message the provider accepted but whose SENT update the database
      refused is still counted in the reply and stays QUEUED, so the next run
      selects and sends it again. */
  lemma UnrecordedSendIsResent(env: RouteEnv, joined: seq<Candidate>, table: seq<OutboxMessage>,
                               world: nat -> RowWorld, k: nat, i: nat)
    requires k < |SelectBatch(joined)| && DistinctMessages(SelectBatch(joined))
    requires i < |table| && table[i].id == SelectBatch(joined)[k].message.id && table[i].status == Queued
    requires !SelectBatch(joined)[k].message.payload.JNull?
    requires MapExchange(world(k).exchange).ok && world(k).updateFails
    ensures var r := RoutePost(env, QueryRows(joined), table, world);
      r.table[i] == table[i] && r.reply.Processed? && r.reply.count >= 1
  {
    var batch := SelectBatch(joined);
    var runs := RouteRuns(env, batch, world);
    assert runs[k].candidate == batch[k];
    assert DistinctIds(runs) by {
      forall a, b | 0 <= a < b < |runs| ensures runs[a].candidate.message.id != runs[b].candidate.message.id {
        assert runs[a].candidate == batch[a] && runs[b].candidate == batch[b];
      }
    }
    UnrecordedSendStaysQueued(DrainState(table, 0, []), runs, k, i);
    DrainRowEffect(DrainState(table, 0, []), runs, k, i);
  }
}
