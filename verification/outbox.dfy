/** Writes to the `message_outbox` table. Every write in the sources is a
    PostgREST `update(patch).eq(column, value)`: the patch's columns are set on
    every row the filter matches and no other row changes. A column whose value
    is `undefined` in the patch object is dropped by `JSON.stringify` and so
    keeps its stored value. */
module Outbox {
  import opened Wrappers
  import opened Types

  /** The three patches the pipeline applies to an outbox row. */
  datatype Patch =
    | MarkSent(providerMessageId: Option<string>, at: Timestamp)
    | MarkFailed(errorCode: Option<string>, attempts: int, at: Timestamp)
    | MarkDelivered

  /** A patch applied to one row. */
  function Apply(m: OutboxMessage, p: Patch): OutboxMessage {
    match p
    case MarkSent(pid, at) =>
      m.(status := Sent,
         providerMessageId := if pid.Some? then pid else m.providerMessageId,
         lastAttemptAt := Some(at))
    case MarkFailed(err, attempts, at) =>
      m.(status := Failed,
         errorCode := if err.Some? then err else m.errorCode,
         attempts := attempts,
         lastAttemptAt := Some(at))
    case MarkDelivered =>
      m.(status := MessageStatus.Delivered)
  }

  /** The status a patch leaves a row in, whatever the row held before. */
  function PatchStatus(p: Patch): MessageStatus {
    match p
    case MarkSent(_, _) => Sent
    case MarkFailed(_, _, _) => Failed
    case MarkDelivered => MessageStatus.Delivered
  }

  /** `update(p).eq('id', id)`. */
  function UpdateById(table: seq<OutboxMessage>, id: Id, p: Patch): (r: seq<OutboxMessage>)
    ensures |r| == |table|
    ensures forall i :: 0 <= i < |table| && table[i].id != id ==> r[i] == table[i]
    ensures forall i :: 0 <= i < |table| && table[i].id == id ==>
      r[i] == Apply(table[i], p) && r[i].status == PatchStatus(p) && r[i].id == id
  {
    seq(|table|, i requires 0 <= i < |table| => if table[i].id == id then Apply(table[i], p) else table[i])
  }

  /** `update(p).eq('provider_message_id', pid)`: a null column never equals
      the filter value. */
  function UpdateByProviderId(table: seq<OutboxMessage>, pid: string, p: Patch): (r: seq<OutboxMessage>)
    ensures |r| == |table|
    ensures forall i :: 0 <= i < |table| && table[i].providerMessageId != Some(pid) ==> r[i] == table[i]
    ensures forall i :: 0 <= i < |table| && table[i].providerMessageId == Some(pid) ==>
      r[i] == Apply(table[i], p) && r[i].status == PatchStatus(p)
  {
    seq(|table|, i requires 0 <= i < |table| =>
      if table[i].providerMessageId == Some(pid) then Apply(table[i], p) else table[i])
  }
}
