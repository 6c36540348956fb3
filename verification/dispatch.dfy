/** The outbox dispatch step shared by the Next.js job route
    (app/api/jobs/send-whatsapp/route.ts) and the edge function
    (supabase/functions/send-whatsapp/index.ts): choose the batch, then run
    each batch row through the provider and record SENT or FAILED. Both files
    contain the same loop; it is modelled once here as a fold over the batch,
    and the two entry points differ only in how each row's provider call is
    made. */
module Dispatch {
  import opened Wrappers
  import opened Types
  import opened Provider
  import opened Outbox

  // ---------------------------------------------------------------------------
  // Batch selection
  // ---------------------------------------------------------------------------

  /** The most rows one run handles (`.limit(10)`). */
  const BatchLimit: nat := 10

  /** One row of the inner join `message_outbox ⋈ customers ⋈ message_templates
      ⋈ workspaces` the query reads: the message with the joined customer's
      number and opt-out stamp and the template's provider id. How PostgREST
      matches the joined rows is not modelled; the join is an input. */
  datatype Candidate = Candidate(
    message: OutboxMessage,
    customerNumber: string,
    customerOptedOutAt: Option<Timestamp>,
    providerTemplateId: string)

  /** `.eq('status', 'QUEUED').is('customers.opted_out_at', null)`. */
  predicate Eligible(c: Candidate) {
    c.message.status == Queued && c.customerOptedOutAt.None?
  }

  /** The eligible rows of the join, each as often as the join holds it, in
      join order. */
  function Eligibles(cs: seq<Candidate>): (r: seq<Candidate>)
    ensures forall x :: x in r ==> Eligible(x)
    ensures multiset(r) <= multiset(cs)
    ensures forall x :: Eligible(x) ==> multiset(r)[x] == multiset(cs)[x]
    ensures forall x :: x in cs && Eligible(x) ==> x in r
    decreases |cs|
  {
    if |cs| == 0 then []
    else
      assert cs == [cs[0]] + cs[1..];
      if Eligible(cs[0]) then [cs[0]] + Eligibles(cs[1..]) else Eligibles(cs[1..])
  }

  predicate OldestFirst(s: seq<Candidate>) {
    forall i, j :: 0 <= i < j < |s| ==> s[i].message.createdAt <= s[j].message.createdAt
  }

  /** Place `x` before the first row that is not older than it. */
  function InsertByAge(x: Candidate, s: seq<Candidate>): (r: seq<Candidate>)
    requires OldestFirst(s)
    ensures |r| == |s| + 1
    ensures OldestFirst(r)
    ensures multiset(r) == multiset(s) + multiset{x}
    decreases |s|
  {
    if |s| == 0 || x.message.createdAt <= s[0].message.createdAt then [x] + s
    else
      assert s == [s[0]] + s[1..];
      var rest := InsertByAge(x, s[1..]);
      assert forall j :: 0 <= j < |rest| ==> s[0].message.createdAt <= rest[j].message.createdAt by {
        forall j | 0 <= j < |rest| ensures s[0].message.createdAt <= rest[j].message.createdAt {
          assert rest[j] in multiset(rest);
        }
      }
      [s[0]] + rest
  }

  /** `.order('created_at', { ascending: true })`. Rows of equal age keep
      their join order, which the database leaves unspecified. */
  function SortByAge(s: seq<Candidate>): (r: seq<Candidate>)
    ensures OldestFirst(r)
    ensures multiset(r) == multiset(s)
    decreases |s|
  {
    if |s| == 0 then []
    else
      assert s == [s[0]] + s[1..];
      InsertByAge(s[0], SortByAge(s[1..]))
  }

  /** The batch one run processes. */
  function SelectBatch(joined: seq<Candidate>): seq<Candidate> {
    var sorted := SortByAge(Eligibles(joined));
    if |sorted| <= BatchLimit then sorted else sorted[..BatchLimit]
  }

  /** The batch holds at most ten rows, all QUEUED with a customer who has not
      opted out, oldest first, taken from the join, and it is as large as it
      can be. */
  lemma SelectBatchSpec(joined: seq<Candidate>)
    ensures var b := SelectBatch(joined);
      var e := Eligibles(joined);
      && |b| == (if |e| <= BatchLimit then |e| else BatchLimit)
      && (forall x :: x in b ==> Eligible(x))
      && OldestFirst(b)
      && multiset(b) <= multiset(e) <= multiset(joined)
  {
    var e := Eligibles(joined);
    var sorted := SortByAge(e);
    var b := SelectBatch(joined);
    assert |sorted| == |e| by {
      assert |multiset(sorted)| == |multiset(e)|;
    }
    assert sorted == b + sorted[|b|..];
    assert multiset(sorted) == multiset(b) + multiset(sorted[|b|..]);
    forall x | x in b ensures Eligible(x) {
      assert x in multiset(e);
    }
  }

  /** In an oldest-first sequence the prefix is no younger than the suffix. */
  lemma PrefixNoYounger(s: seq<Candidate>, k: nat)
    requires OldestFirst(s) && k <= |s|
    ensures forall x, y :: x in s[k..] && y in s[..k] ==> y.message.createdAt <= x.message.createdAt
  {
    forall x, y | x in s[k..] && y in s[..k]
      ensures y.message.createdAt <= x.message.createdAt
    {
      var j :| 0 <= j < |s[k..]| && s[k..][j] == x;
      var i :| 0 <= i < |s[..k]| && s[..k][i] == y;
      assert s[k + j] == x && s[i] == y;
    }
  }

  /** Oldest first: every eligible row a run leaves behind is no older than
      any row it takes. */
  lemma SelectBatchOldest(joined: seq<Candidate>)
    ensures var b := SelectBatch(joined);
      forall x, y :: x in multiset(Eligibles(joined)) - multiset(b) && y in b ==>
        y.message.createdAt <= x.message.createdAt
  {
    var e := Eligibles(joined);
    var sorted := SortByAge(e);
    var b := SelectBatch(joined);
    var k := |b|;
    assert b == sorted[..k];
    assert sorted == sorted[..k] + sorted[k..];
    assert multiset(e) == multiset(b) + multiset(sorted[k..]);
    assert multiset(e) - multiset(b) == multiset(sorted[k..]);
    PrefixNoYounger(sorted, k);
  }

  /** A customer who has opted out is never in the batch, whatever the status
      of the row. */
  lemma OptedOutNeverSelected(joined: seq<Candidate>, c: Candidate)
    requires c.customerOptedOutAt.Some?
    ensures c !in SelectBatch(joined)
  {
    SelectBatchSpec(joined);
  }

  /** With a backlog of at least ten eligible rows a run takes exactly ten and
      leaves the rest — fifteen queued rows leave five behind. */
  lemma BacklogTakesTen(joined: seq<Candidate>)
    requires |Eligibles(joined)| >= BatchLimit
    ensures |SelectBatch(joined)| == BatchLimit
    ensures |multiset(Eligibles(joined)) - multiset(SelectBatch(joined))| == |Eligibles(joined)| - BatchLimit
  {
    SelectBatchSpec(joined);
    var e := Eligibles(joined);
    var b := SelectBatch(joined);
    assert multiset(e) == (multiset(e) - multiset(b)) + multiset(b);
  }

  // ---------------------------------------------------------------------------
  // The per-row step and the fold
  // ---------------------------------------------------------------------------

  /** How one row's `try` block ended: an exception raised before the provider
      was called (building the parameters), or the provider call with the
      request it made and the result it returned. */
  datatype Attempt =
    | Raised(message: string)
    | Requested(request: HttpRequest, result: SendResult)

  /** One batch row, what its attempt ended in, the clock reading the update
      stamps into `last_attempt_at`, and whether the database refused that
      update. supabase-js reports a refused update as `{ error }` rather than
      throwing, and the loop never looks at it. */
  datatype RowRun = RowRun(candidate: Candidate, attempt: Attempt, at: Timestamp, updateFails: bool)

  /** The state the loop threads: the table, the `processed` counter and the
      requests sent so far, in order. */
  datatype DrainState = DrainState(table: seq<OutboxMessage>, processed: nat, requests: seq<HttpRequest>)

  /** The update one row receives. */
  function RowPatch(r: RowRun): (p: Patch)
    ensures p != MarkDelivered
  {
    match r.attempt
    case Raised(msg) => MarkFailed(Some(msg), r.candidate.message.attempts + 1, r.at)
    case Requested(_, res) =>
      if res.ok then MarkSent(res.providerMessageId, r.at)
      else MarkFailed(res.error, r.candidate.message.attempts + 1, r.at)
  }

  /** The loop body: update the row by id (a refused update leaves the table
      as it was), and count it and its request unless the attempt raised. */
  function RowStep(s: DrainState, r: RowRun): DrainState {
    var table := if r.updateFails then s.table else UpdateById(s.table, r.candidate.message.id, RowPatch(r));
    match r.attempt
    case Raised(_) => DrainState(table, s.processed, s.requests)
    case Requested(req, _) => DrainState(table, s.processed + 1, s.requests + [req])
  }

  /** The `for … of messages` loop as a left fold. */
  function Drain(s: DrainState, runs: seq<RowRun>): (r: DrainState)
    ensures |r.table| == |s.table|
    decreases |runs|
  {
    if |runs| == 0 then s else Drain(RowStep(s, runs[0]), runs[1..])
  }

  function CountRequested(runs: seq<RowRun>): (n: nat)
    ensures n <= |runs|
    decreases |runs|
  {
    if |runs| == 0 then 0
    else (if runs[0].attempt.Requested? then 1 else 0) + CountRequested(runs[1..])
  }

  function Ids(runs: seq<RowRun>): set<Id> {
    set r | r in runs :: r.candidate.message.id
  }

  /** `processed` counts exactly the rows whose attempt reached the provider,
      one request each, whether or not their update was recorded; a row that
      raised is not counted. */
  lemma {:induction false} DrainCounts(s: DrainState, runs: seq<RowRun>)
    ensures Drain(s, runs).processed == s.processed + CountRequested(runs)
    ensures |Drain(s, runs).requests| == |s.requests| + CountRequested(runs)
    ensures |Drain(s, runs).table| == |s.table|
    decreases |runs|
  {
    if |runs| > 0 {
      DrainCounts(RowStep(s, runs[0]), runs[1..]);
    }
  }

  /** Rows whose id is not in the batch are untouched, and every row that did
      change is now SENT or FAILED: the loop never writes DELIVERED or QUEUED. */
  lemma {:induction false} DrainFrame(s: DrainState, runs: seq<RowRun>)
    ensures |Drain(s, runs).table| == |s.table|
    ensures forall i :: 0 <= i < |s.table| && s.table[i].id !in Ids(runs) ==>
      Drain(s, runs).table[i] == s.table[i]
    ensures forall i :: 0 <= i < |s.table| && Drain(s, runs).table[i] != s.table[i] ==>
      Drain(s, runs).table[i].status in {Sent, Failed}
    ensures forall i :: 0 <= i < |s.table| ==> Drain(s, runs).table[i].id == s.table[i].id
    decreases |runs|
  {
    if |runs| > 0 {
      var s' := RowStep(s, runs[0]);
      DrainFrame(s', runs[1..]);
      assert Ids(runs) == {runs[0].candidate.message.id} + Ids(runs[1..]) by {
        assert runs == [runs[0]] + runs[1..];
      }
      forall i | 0 <= i < |s.table| && Drain(s, runs).table[i] != s.table[i]
        ensures Drain(s, runs).table[i].status in {Sent, Failed}
      {
        if Drain(s', runs[1..]).table[i] == s'.table[i] {
          var p := RowPatch(runs[0]);
          assert p.MarkSent? || p.MarkFailed?;
        }
      }
    }
  }

  /** Ids are pairwise distinct (the table's primary key). */
  predicate DistinctIds(runs: seq<RowRun>) {
    forall i, j :: 0 <= i < j < |runs| ==> runs[i].candidate.message.id != runs[j].candidate.message.id
  }

  /** With distinct ids, the row a batch entry names ends up exactly as that
      entry's own update left it: patched when the update was applied, and
      untouched when the database refused it. */
  lemma {:induction false} DrainRowEffect(s: DrainState, runs: seq<RowRun>, k: nat, i: nat)
    requires DistinctIds(runs)
    requires k < |runs| && i < |s.table| && s.table[i].id == runs[k].candidate.message.id
    ensures Drain(s, runs).table[i] == if runs[k].updateFails then s.table[i] else Apply(s.table[i], RowPatch(runs[k]))
    decreases |runs|
  {
    var s' := RowStep(s, runs[0]);
    if k == 0 {
      DrainFrame(s', runs[1..]);
      forall j | 0 <= j < |runs[1..]| ensures runs[1..][j].candidate.message.id != s.table[i].id {
        assert runs[1..][j] == runs[j + 1];
      }
      assert s.table[i].id !in Ids(runs[1..]);
    } else {
      assert runs[0].candidate.message.id != runs[k].candidate.message.id;
      assert s'.table[i] == s.table[i];
      DrainRowEffect(s', runs[1..], k - 1, i);
    }
  }

  /** What a processed row ends up holding, case by case: unchanged when the
      database refused its update; otherwise SENT with the provider's message
      id (if it returned one) and the attempt time, attempts unchanged; or
      FAILED with the provider's error (or the exception's message) and the
      candidate's attempts plus one. */
  lemma RowOutcome(s: DrainState, runs: seq<RowRun>, k: nat, i: nat)
    requires DistinctIds(runs)
    requires k < |runs| && i < |s.table| && s.table[i].id == runs[k].candidate.message.id
    ensures runs[k].updateFails ==> Drain(s, runs).table[i] == s.table[i]
    ensures var r := runs[k]; var before := s.table[i]; var after := Drain(s, runs).table[i];
      !r.updateFails ==>
      && after.id == before.id
      && after.workspaceId == before.workspaceId && after.payload == before.payload
      && after.createdAt == before.createdAt
      && after.lastAttemptAt == Some(r.at)
      && (r.attempt.Requested? && r.attempt.result.ok ==>
            && after.status == Sent
            && after.attempts == before.attempts
            && after.errorCode == before.errorCode
            && (r.attempt.result.providerMessageId.Some? ==>
                  after.providerMessageId == r.attempt.result.providerMessageId))
      && (r.attempt.Requested? && !r.attempt.result.ok ==>
            && after.status == Failed
            && after.attempts == r.candidate.message.attempts + 1
            && (r.attempt.result.error.Some? ==> after.errorCode == r.attempt.result.error))
      && (r.attempt.Raised? ==>
            && after.status == Failed
            && after.attempts == r.candidate.message.attempts + 1
            && after.errorCode == Some(r.attempt.message))
  {
    DrainRowEffect(s, runs, k, i);
  }

  /** A message the provider accepted whose SENT update the database refused
      stays as it was (QUEUED, for a row the batch query selected) and is
      still counted in `processed`: the next run sends it again. */
  lemma UnrecordedSendStaysQueued(s: DrainState, runs: seq<RowRun>, k: nat, i: nat)
    requires DistinctIds(runs)
    requires k < |runs| && i < |s.table| && s.table[i].id == runs[k].candidate.message.id
    requires runs[k].attempt.Requested? && runs[k].attempt.result.ok && runs[k].updateFails
    requires s.table[i].status == Queued
    ensures Drain(s, runs).table[i].status == Queued
    ensures Drain(s, runs).processed == s.processed + CountRequested(runs)
    ensures CountRequested(runs) >= 1
  {
    DrainRowEffect(s, runs, k, i);
    DrainCounts(s, runs);
    CountRequestedPositive(runs, k);
  }

  /** A run that reached the provider makes the count positive. */
  lemma {:induction false} CountRequestedPositive(runs: seq<RowRun>, k: nat)
    requires k < |runs| && runs[k].attempt.Requested?
    ensures CountRequested(runs) >= 1
    decreases k
  {
    if k > 0 {
      CountRequestedPositive(runs[1..], k - 1);
    }
  }
}
