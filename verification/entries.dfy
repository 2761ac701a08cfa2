/**
 The registry entry of one provisioned index and the meaning of every registry call on
 the cell that holds it (`None` while no entry exists). The lock-based registry, the
 ETag table and the provisioning protocol are all stated against `Perform`.
 */
module Entries {
  import opened Options

  type Time = int
  type Token = string

  datatype Status = Provisioning | Ready | Failed | Retired

  datatype Template = Template(
    templateId: string,
    templateVersion: nat,
    dimensions: Option<int>,
    metric: string,
    fields: seq<string>)

  datatype Entry = Entry(
    indexName: string,
    vertical: string,
    scenarioId: string,
    templateId: string,
    templateVersion: nat,
    dimensions: int,
    metric: string,
    embeddingModel: string,
    status: Status,
    createdAt: Time,
    lastVerifiedAt: Option<Time>,
    documentCount: Option<int>,
    claimToken: Option<Token>,
    claimedAt: Option<Time>,
    lastErrorMessage: Option<string>,
    resolvedTemplate: Option<Template>)

  /** The fields a registry write must never change once the row exists. */
  datatype Settings = Settings(
    indexName: string,
    vertical: string,
    scenarioId: string,
    templateId: string,
    templateVersion: nat,
    dimensions: int,
    metric: string,
    embeddingModel: string,
    createdAt: Time)

  function SettingsOf(e: Entry): Settings {
    Settings(e.indexName, e.vertical, e.scenarioId, e.templateId, e.templateVersion,
             e.dimensions, e.metric, e.embeddingModel, e.createdAt)
  }

  /** One call of the registry port, with the clock reading it would take. */
  datatype Op =
    | Register(candidate: Entry)
    | Reclaim(observed: Entry, replacement: Entry)
    | MarkReady(expected: Option<Token>, now: Time)
    | MarkFailed(reason: string, expected: Option<Token>)
    | Touch(now: Time)
    | Retire

  datatype Reply = Returned(entry: Entry) | Conflict

  function ReadyOf(e: Entry, now: Time): Entry {
    e.(status := Ready, lastVerifiedAt := Some(now),
       claimToken := None, claimedAt := None, resolvedTemplate := None)
  }

  function FailedOf(e: Entry, reason: string): Entry {
    e.(status := Failed, lastErrorMessage := Some(reason),
       claimToken := None, claimedAt := None, resolvedTemplate := None)
  }

  /** `_check_claim_token`: an absent expectation skips the comparison. */
  predicate TokenMatches(e: Entry, expected: Option<Token>) {
    expected.Some? ==> e.claimToken == expected
  }

  /** The entry a call would write over `cell`, or `None` when it writes nothing. */
  function Written(cell: Option<Entry>, op: Op): Option<Entry> {
    match op
    case Register(e) => if cell.None? then Some(e) else None
    case Reclaim(o, n) => if cell == Some(o) then Some(n) else None
    case MarkReady(t, now) =>
      if cell.Some? && TokenMatches(cell.value, t) then Some(ReadyOf(cell.value, now)) else None
    case MarkFailed(reason, t) =>
      if cell.Some? && TokenMatches(cell.value, t) then Some(FailedOf(cell.value, reason)) else None
    case Touch(now) =>
      if cell.Some? then Some(cell.value.(lastVerifiedAt := Some(now))) else None
    case Retire =>
      if cell.Some? then Some(cell.value.(status := Retired)) else None
  }

  /** The cell after the call and what the caller is told. */
  function Perform(cell: Option<Entry>, op: Op): (Option<Entry>, Reply) {
    match Written(cell, op)
    case Some(e) => (Some(e), Returned(e))
    case None =>
      if op.Register? && cell.Some? then (cell, Returned(cell.value)) else (cell, Conflict)
  }

  /** The token a write puts into the cell. */
  function NewToken(op: Op): Option<Token> {
    match op
    case Register(e) => e.claimToken
    case Reclaim(_, n) => n.claimToken
    case _ => None
  }
}
