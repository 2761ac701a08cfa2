/**
 How Chunker, Embedder, Indexer and Analyzer route their outcomes to the ledger. What the
 stage's own work did is a parameter; the row may have been moved by anyone before the
 stage's write, so the contracts cover every row.
 */
module Stages {
  import opened Options
  import opened Ledger
  import opened LedgerTraces

  datatype Severity = Permanent | Transient

  datatype Code =
    | ChunkerEmptyElements | TokenizerLoadFailed | ChunkerInternal
    | EmbedderEmptyChunks | EmbedderInputTooLong | EmbedderMrlUnsupported | EmbedderDependencyMissing
    | EmbedderRateLimited | EmbedderUpstreamError | EmbedderTimeout | EmbedderInternal
    | IndexerEmptyRecords | IndexerDimensionMismatch | IndexerMixedModelBatch
    | IndexerSchemaConflict | IndexerRecordTooLarge | IndexerDependencyMissing
    | IndexerRateLimited | IndexerUpstreamError | IndexerTimeout | IndexerPartialBatchFailure | IndexerInternal
    | AnalyzerUnsupportedType | AnalyzerNoParser | AnalyzerDependencyMissing
    | ParserTimeout | DocintRateLimited | DocintUpstreamError | ParserInternal

  function SeverityOf(c: Code): Severity {
    match c
    case ChunkerEmptyElements | EmbedderEmptyChunks | EmbedderInputTooLong | EmbedderMrlUnsupported
       | EmbedderDependencyMissing | IndexerEmptyRecords | IndexerDimensionMismatch | IndexerMixedModelBatch
       | IndexerSchemaConflict | IndexerRecordTooLarge | IndexerDependencyMissing
       | AnalyzerUnsupportedType | AnalyzerNoParser | AnalyzerDependencyMissing => Permanent
    case _ => Transient
  }

  /** The registered spelling of each code, as the ledger stores it. */
  type Names = Code -> string

  /** One stage of the pipeline: which codes end the document and which are retried. */
  datatype Profile = Profile(
    stage: Status,
    preflight: set<Code>,
    permanent: set<Code>,
    transient: set<Code>,
    internal: Code,
    triagesRetry: bool)

  const CHUNKER := Profile(Chunking, {ChunkerEmptyElements}, {}, {TokenizerLoadFailed}, ChunkerInternal, false)

  const EMBEDDER := Profile(Embedding, {EmbedderEmptyChunks, EmbedderInputTooLong}, {},
    {EmbedderRateLimited, EmbedderUpstreamError, EmbedderTimeout}, EmbedderInternal, false)

  const INDEXER := Profile(Indexing,
    {IndexerEmptyRecords, IndexerMixedModelBatch, IndexerDimensionMismatch},
    {IndexerSchemaConflict, IndexerRecordTooLarge},
    {IndexerRateLimited, IndexerUpstreamError, IndexerTimeout, IndexerPartialBatchFailure}, IndexerInternal, true)

  predicate IsStage(p: Profile) { p == CHUNKER || p == EMBEDDER || p == INDEXER }

  predicate HasExit(p: Profile) { p.stage in {Chunking, Embedding, Indexing} }

  /** What the stage's own work came to: its input was refused, it raised a declared error,
      it raised anything else, or it delivered. */
  datatype Work = Refuses(code: Code) | Fails(code: Code) | Crashes | Delivers

  datatype Decision = Terminalize(code: Code) | Retry(code: Code) | Advance

  function Route(p: Profile, work: Work): Decision {
    match work
    case Refuses(code) => Terminalize(code)
    case Fails(code) =>
      if code in p.permanent then Terminalize(code)
      else if code in p.transient then Retry(code)
      else Retry(p.internal)
    case Crashes => Retry(p.internal)
    case Delivers => Advance
  }

  function RequestFor(names: Names, p: Profile, d: Decision, reason: string): Request
    requires HasExit(p)
  {
    match d
    case Terminalize(code) => Request(Failed, Failed, Some(names(code)), Some(reason), None)
    case Retry(code) => Request(p.stage, p.stage, Some(names(code)), Some(reason), None)
    case Advance => Request(ExitOf(p.stage), ExitOf(p.stage), None, None, None)
  }

  datatype Result = Delivered | Raised(code: Code) | LedgerRefused(observed: Option<Row>) | BadId

  class StageWorker {
    const ledger: InMemoryLedgerStore
    const profile: Profile
    const names: Names

    constructor (ledger: InMemoryLedgerStore, profile: Profile, names: Names)
      requires IsStage(profile)
      ensures this.ledger == ledger && this.profile == profile && this.names == names
    {
      this.ledger := ledger;
      this.names := names;
      this.profile := profile;
    }

    method Terminalize(docId: string, code: Code, reason: string, now: Time) returns (r: Result)
      requires ledger.Valid() && HasExit(profile)
      modifies ledger`rows
      ensures ledger.Valid() && WroteOrTriaged(old(ledger.rows), docId, Decision.Terminalize(code), reason, now, r)
    {
      var w := ledger.Transition(docId, Request(Failed, Failed, Some(names(code)), Some(reason), None), now);
      match w {
        case IdentityInvalid => return BadId;
        case TransitionInvalid(observed) =>
          if !IsBenignLoss(observed, Failed, Failed) { return LedgerRefused(observed); }
        case Written(_) =>
      }
      r := Raised(code);
    }

    /** The self-transition of a retry. Chunker and Embedder do not triage a lost one. */
    method Retry(docId: string, code: Code, reason: string, now: Time) returns (r: Result)
      requires ledger.Valid() && HasExit(profile)
      modifies ledger`rows
      ensures ledger.Valid() && WroteOrTriaged(old(ledger.rows), docId, Decision.Retry(code), reason, now, r)
    {
      var w := ledger.Transition(docId, Request(profile.stage, profile.stage, Some(names(code)), Some(reason), None), now);
      match w {
        case IdentityInvalid => return BadId;
        case TransitionInvalid(observed) =>
          if !profile.triagesRetry || !IsBenignLoss(observed, profile.stage, profile.stage) {
            return LedgerRefused(observed);
          }
        case Written(_) =>
      }
      r := Raised(code);
    }

    method Advance(docId: string, ghost reason: string, now: Time) returns (r: Result)
      requires ledger.Valid() && HasExit(profile)
      modifies ledger`rows
      ensures ledger.Valid() && WroteOrTriaged(old(ledger.rows), docId, Decision.Advance, reason, now, r)
    {
      var exit := ExitOf(profile.stage);
      var w := ledger.Transition(docId, Request(exit, exit, None, None, None), now);
      match w {
        case IdentityInvalid => return BadId;
        case TransitionInvalid(observed) =>
          if !IsBenignLoss(observed, exit, exit) { return LedgerRefused(observed); }
        case Written(_) =>
      }
      r := Delivered;
    }

    /** One delivery of the document to this stage. */
    method Deliver(docId: string, work: Work, reason: string, now: Time) returns (r: Result)
      requires ledger.Valid() && IsStage(profile) && (work.Refuses? ==> work.code in profile.preflight)
      modifies ledger`rows
      ensures ledger.Valid() && WroteOrTriaged(old(ledger.rows), docId, Route(profile, work), reason, now, r)
      ensures IsHexId(docId) && docId in old(ledger.rows) && old(ledger.rows)[docId].status == profile.stage ==>
                && Routed(names, profile, old(ledger.rows)[docId], ledger.rows[docId], r)
                && Answers(profile, work, ledger.rows[docId].status, r)
      ensures IsHexId(docId) && docId in old(ledger.rows) && Overtaken(profile, old(ledger.rows)[docId]) ==>
                AnswersLate(profile, work, old(ledger.rows)[docId], ledger.rows[docId], r)
    {
      if docId in ledger.rows && Overtaken(profile, ledger.rows[docId]) {
        LateRoute(names, profile, work, ledger.rows[docId], reason);
      }
      if docId in ledger.rows && ledger.rows[docId].status == profile.stage {
        RouteIsRight(names, profile, work, ledger.rows[docId], reason, now);
      }
      match work {
        case Refuses(code) => r := Terminalize(docId, code, reason, now);
        case Fails(code) =>
          if code in profile.permanent {
            r := Terminalize(docId, code, reason, now);
          } else if code in profile.transient {
            r := Retry(docId, code, reason, now);
          } else {
            r := Retry(docId, profile.internal, reason, now);
          }
        case Crashes => r := Retry(docId, profile.internal, reason, now);
        case Delivers => r := Advance(docId, reason, now);
      }
    }

    /** Any number of deliveries whose work fails transiently. */
    method Redeliver(docId: string, works: seq<Work>, reason: string, now: Time)
      requires ledger.Valid() && IsStage(profile) && IsHexId(docId)
      requires docId in ledger.rows && ledger.rows[docId].status == profile.stage
      requires forall i :: 0 <= i < |works| ==> Route(profile, works[i]).Retry?
      modifies ledger`rows
      ensures ledger.Valid() && docId in ledger.rows
      ensures ledger.rows[docId].status == profile.stage
      ensures ledger.rows[docId].attempts == old(ledger.rows)[docId].attempts + |works|
      ensures ledger.rows - {docId} == old(ledger.rows) - {docId}
    {
      for i := 0 to |works|
        invariant ledger.Valid() && docId in ledger.rows
        invariant ledger.rows[docId].status == profile.stage
        invariant ledger.rows[docId].attempts == old(ledger.rows)[docId].attempts + i
        invariant ledger.rows - {docId} == old(ledger.rows) - {docId}
      {
        var r := Deliver(docId, works[i], reason, now);
      }
    }

    /** The stage's one write either took effect as requested, or changed nothing and was
        triaged by the row it lost to. */
    ghost predicate WroteOrTriaged(before: map<string, Row>, docId: string, d: Decision, reason: string, now: Time, r: Result)
      requires HasExit(profile)
      reads this, ledger`rows
    {
      var req := RequestFor(names, profile, d, reason);
      var told := if d.Advance? then Delivered else Raised(d.code);
      if !IsHexId(docId) then r == BadId && ledger.rows == before
      else if docId in before && Accepts(before[docId], req) then
        r == told && ledger.rows == before[docId := Updated(before[docId], req, now)]
      else
        var observed := if docId in before then Some(before[docId]) else None;
        && ledger.rows == before
        && r == if IsBenignLoss(observed, req.to, req.to) && (d.Retry? ==> profile.triagesRetry)
                then told else LedgerRefused(observed)
    }
  }

  /** From a row standing at the stage: the code raised is permanent exactly when the row ends
      failed with that code, a transient one leaves the row at the stage with one more
      attempt, and success moves it one stage on. */
  ghost predicate Routed(names: Names, p: Profile, before: Row, after: Row, r: Result)
    requires HasExit(p)
  {
    && (r.Delivered? || r.Raised?)
    && (r.Delivered? ==> after.status == ExitOf(p.stage) && after.attempts == 1 && after.errorCode == None)
    && (r.Raised? ==>
          && after.errorCode == Some(names(r.code))
          && (SeverityOf(r.code) == Permanent <==> after.status == Failed)
          && (SeverityOf(r.code) == Permanent ==> after.attempts == before.attempts)
          && (SeverityOf(r.code) == Transient ==> after.status == p.stage && after.attempts == before.attempts + 1))
  }

  /** The registered severities: the transient codes are the timeouts, the throttling and upstream
      errors, partial batches, the tokenizer, and every stage's internal error. */
  lemma TransientCodes(c: Code)
    ensures SeverityOf(c) == Transient <==>
              c in {TokenizerLoadFailed, ChunkerInternal, EmbedderRateLimited, EmbedderUpstreamError, EmbedderTimeout, EmbedderInternal,
                    IndexerRateLimited, IndexerUpstreamError, IndexerTimeout, IndexerPartialBatchFailure, IndexerInternal,
                    ParserTimeout, DocintRateLimited, DocintUpstreamError, ParserInternal}
  {
  }

  /** What a delivery comes to, from the stage's own work alone: success moves the row on, a crash
      is an internal error and leaves it, refused input and permanent errors fail it, declared
      transient errors keep their code and leave it, and any other error is internal. */
  ghost predicate Answers(p: Profile, work: Work, after: Status, r: Result)
    requires HasExit(p)
  {
    match work
    case Delivers => r == Delivered && after == ExitOf(p.stage)
    case Crashes => r == Raised(p.internal) && after == p.stage
    case Refuses(c) => r == Raised(c) && after == Failed
    case Fails(c) =>
      if c in p.permanent then r == Raised(c) && after == Failed
      else if c in p.transient then r == Raised(c) && after == p.stage
      else r == Raised(p.internal) && after == p.stage
  }

  /** Another worker has already taken the row past the stage. */
  predicate Overtaken(p: Profile, row: Row)
    requires HasExit(p)
  {
    OnPath(row.status) && PathIndex(row.status) > PathIndex(p.stage)
  }

  /** What a delivery comes to that was overtaken: success stays success, a retry changes nothing and
      is refused except by the indexer, and a permanent failure ends every document that is not
      indexed yet. */
  ghost predicate AnswersLate(p: Profile, work: Work, before: Row, after: Row, r: Result)
    requires HasExit(p)
  {
    match work
    case Delivers => r == Delivered && after.status == before.status
    case Refuses(c) => r == Raised(c) && after.status == if before.status == Indexed then Indexed else Failed
    case Crashes => after == before && r == if p.stage == Indexing then Raised(p.internal) else LedgerRefused(Some(before))
    case Fails(c) =>
      if c in p.permanent then r == Raised(c) && after.status == if before.status == Indexed then Indexed else Failed
      else
        && after == before
        && r == if p.stage != Indexing then LedgerRefused(Some(before)) else Raised(if c in p.transient then c else p.internal)
  }

  lemma LateRoute(names: Names, p: Profile, work: Work, row: Row, reason: string)
    requires IsStage(p) && row.stage == row.status && Overtaken(p, row)
    ensures var d := Route(p, work);
            var req := RequestFor(names, p, d, reason);
            && (d.Retry? ==> !Accepts(row, req) && IsBenignLoss(Some(row), req.to, req.to))
            && (d.Terminalize? ==> (Accepts(row, req) <==> row.status != Indexed) && (row.status == Indexed ==> IsBenignLoss(Some(row), req.to, req.to)))
            && (d.Advance? ==> (Accepts(row, req) ==> row.status == req.to) && IsBenignLoss(Some(row), req.to, req.to))
  {
  }

  /** The errors each stage declares: they are reported under their own code, and end the document
      exactly if they are permanent. */
  lemma DeclaredErrorsKeepTheirCode(c: Code)
    ensures c == TokenizerLoadFailed ==> Route(CHUNKER, Work.Fails(c)) == Decision.Retry(c)
    ensures c in {EmbedderRateLimited, EmbedderUpstreamError, EmbedderTimeout} ==> Route(EMBEDDER, Work.Fails(c)) == Decision.Retry(c)
    ensures c in {IndexerRateLimited, IndexerUpstreamError, IndexerTimeout, IndexerPartialBatchFailure} ==>
              Route(INDEXER, Work.Fails(c)) == Decision.Retry(c)
    ensures c in {IndexerSchemaConflict, IndexerRecordTooLarge} ==> Route(INDEXER, Work.Fails(c)) == Decision.Terminalize(c)
    ensures CHUNKER.internal == ChunkerInternal && EMBEDDER.internal == EmbedderInternal && INDEXER.internal == IndexerInternal
    ensures CHUNKER.stage == Chunking && EMBEDDER.stage == Embedding && INDEXER.stage == Indexing
  {
  }

  lemma RouteIsRight(names: Names, p: Profile, work: Work, row: Row, reason: string, now: Time)
    requires IsStage(p) && row.status == p.stage && (work.Refuses? ==> work.code in p.preflight)
    ensures var d := Route(p, work);
            var req := RequestFor(names, p, d, reason);
            && Accepts(row, req)
            && Routed(names, p, row, Updated(row, req, now), if d.Advance? then Delivered else Raised(d.code))
            && Answers(p, work, req.to, if d.Advance? then Delivered else Raised(d.code))
  {
  }

  // ---- the analyzer ----

  datatype Parse = Unusable(code: Code) | ParserFails(code: Code) | Parses

  /** The request a parse outcome leads to. */
  function ParseRequest(names: Names, parse: Parse, reason: string): Request {
    match parse
    case Unusable(code) => Request(Failed, Failed, Some(names(code)), Some(reason), None)
    case ParserFails(code) => Request(Analyzing, Analyzing, Some(names(code)), Some(reason), None)
    case Parses => Request(Chunking, Chunking, None, None, None)
  }

  /** Was the row open to the analyzer's entry write, or already past its stage? */
  predicate Enters(row: Row) { row.status in {Pending, Analyzing} }

  predicate IsPast(row: Row) { OnPath(row.status) && PathIndex(row.status) > 1 }

  lemma EntryWrite(row: Row)
    requires row.stage == row.status
    ensures Accepts(row, Request(Analyzing, Analyzing, None, None, None)) <==> Enters(row)
    ensures !Enters(row) ==> (IsBenignLoss(Some(row), Analyzing, Analyzing) <==> IsPast(row))
  {
  }

  /** What the caller of the outcome write gets, by the status it meets: a success is accepted
      or overtaken unless the row is off the path or back at pending, a permanent failure is
      refused only by a settled row, and a retry only lands before or at the stage. */
  function Settled(mid: Row, parse: Parse): Result {
    match parse
    case Parses =>
      if mid.status in {Analyzing, Chunking, Embedding, Indexing, Indexed} then Delivered else LedgerRefused(Some(mid))
    case Unusable(code) =>
      if mid.status in {Indexed, Failed, Archived} then LedgerRefused(Some(mid)) else Raised(code)
    case ParserFails(code) =>
      if mid.status in {Pending, Analyzing} then Raised(code) else LedgerRefused(Some(mid))
  }

  /** Which outcome writes take effect. */
  predicate OutcomeLands(mid: Row, parse: Parse) {
    match parse
    case Parses => mid.status in {Analyzing, Chunking}
    case Unusable(_) => mid.status !in {Indexed, Failed, Archived}
    case ParserFails(_) => mid.status in {Pending, Analyzing}
  }

  lemma OutcomeWrite(names: Names, mid: Row, parse: Parse, reason: string)
    requires mid.stage == mid.status
    ensures Accepts(mid, ParseRequest(names, parse, reason)) <==> OutcomeLands(mid, parse)
    ensures IsBenignLoss(Some(mid), Chunking, Chunking) <==> mid.status in {Chunking, Embedding, Indexing, Indexed}
  {
  }

  /** What the outcome write leaves of the row it meets: the code and the reason of a failure, which
      ends the document or is one more attempt, or the next stage. */
  ghost predicate Leaves(names: Names, mid: Row, parse: Parse, reason: string, now: Time, after: Row) {
    if !OutcomeLands(mid, parse) then after == mid
    else
      && after.updatedAt == now
      && match parse
         case Parses => after.status == Chunking && (mid.status == Analyzing ==> after.errorCode.None? && after.attempts == 1)
         case Unusable(code) =>
           after.status == Failed && after.errorCode == Some(names(code)) && after.errorMessage == Some(reason) && after.attempts == mid.attempts
         case ParserFails(code) =>
           && after.status == Analyzing && after.errorCode == Some(names(code)) && after.errorMessage == Some(reason)
           && after.attempts == if mid.status == Analyzing then mid.attempts + 1 else 1
  }

  /** The answer and the row of an undisturbed call on a row that is open to it. */
  ghost predicate Analyzes(names: Names, parse: Parse, reason: string, after: Row, r: Result) {
    match parse
    case Parses => r == Delivered && after.status == Chunking && after.errorCode.None?
    case Unusable(code) =>
      r == Raised(code) && after.status == Failed && after.errorCode == Some(names(code)) && after.errorMessage == Some(reason)
    case ParserFails(code) =>
      r == Raised(code) && after.status == Analyzing && after.errorCode == Some(names(code)) && after.errorMessage == Some(reason)
  }

  /** The write after parsing; only the successful one is triaged. */
  method Settle(ledger: InMemoryLedgerStore, names: Names, docId: string, parse: Parse, reason: string, now: Time)
    returns (r: Result)
    requires ledger.Valid() && IsHexId(docId) && docId in ledger.rows
    modifies ledger`rows
    ensures ledger.Valid()
    ensures r == Settled(old(ledger.rows)[docId], parse)
    ensures ledger.rows == old(ledger.rows)[docId := Step(old(ledger.rows)[docId], Event(ParseRequest(names, parse, reason), now))]
    ensures Leaves(names, old(ledger.rows)[docId], parse, reason, now, ledger.rows[docId])
  {
    OutcomeWrite(names, ledger.rows[docId], parse, reason);
    var w := ledger.Transition(docId, ParseRequest(names, parse, reason), now);
    if w.TransitionInvalid? && !(parse.Parses? && IsBenignLoss(w.observed, Chunking, Chunking)) {
      return LedgerRefused(w.observed);
    }
    r := if parse.Parses? then Delivered else Raised(parse.code);
  }

  /** The row an `analyze` call leaves and what its caller gets, when others apply `between`
      while it parses. A lost entry is benign only if the row is past the stage; the worker
      then parses again and writes nothing on success, but it still writes on failure. */
  function Analyzed(names: Names, row: Row, parse: Parse, between: seq<Event>, reason: string, now: Time): (Row, Result) {
    if !Enters(row) && !IsPast(row) then (row, LedgerRefused(Some(row)))
    else
      var start := if Enters(row) then Updated(row, Request(Analyzing, Analyzing, None, None, None), now) else row;
      var mid := Run(start, between);
      if parse.Parses? && IsPast(row) then (mid, Delivered)
      else (Step(mid, Event(ParseRequest(names, parse, reason), now)), Settled(mid, parse))
  }

  /** The entry write and its triage: how the call ends at once, or whether the row was entered. */
  method Enter(ledger: InMemoryLedgerStore, docId: string, now: Time) returns (stop: Option<Result>, entered: bool)
    requires ledger.Valid()
    modifies ledger`rows
    ensures ledger.Valid()
    ensures !IsHexId(docId) ==> stop == Some(BadId) && ledger.rows == old(ledger.rows)
    ensures IsHexId(docId) && docId !in old(ledger.rows) ==> stop == Some(LedgerRefused(None)) && ledger.rows == old(ledger.rows)
    ensures IsHexId(docId) && docId in old(ledger.rows) ==>
              var row := old(ledger.rows)[docId];
              && entered == Enters(row)
              && stop == (if Enters(row) || IsPast(row) then None else Some(LedgerRefused(Some(row))))
              && ledger.rows ==
                   if entered then old(ledger.rows)[docId := Updated(row, Request(Analyzing, Analyzing, None, None, None), now)]
                   else old(ledger.rows)
  {
    if docId in ledger.rows { EntryWrite(ledger.rows[docId]); }
    var w := ledger.Transition(docId, Request(Analyzing, Analyzing, None, None, None), now);
    match w {
      case IdentityInvalid => return Some(BadId), false;
      case TransitionInvalid(observed) =>
        if !IsBenignLoss(observed, Analyzing, Analyzing) { return Some(LedgerRefused(observed)), false; }
        return None, false;
      case Written(_) => return None, true;
    }
  }

  /** Undisturbed, a call on a row that is open to it does just what its parsing says. */
  lemma AnalyzedQuietly(names: Names, row: Row, parse: Parse, reason: string, now: Time)
    requires row.stage == row.status && row.status in {Pending, Analyzing}
    ensures var (row', r) := Analyzed(names, row, parse, [], reason, now); Analyzes(names, parse, reason, row', r)
  {
    var start := Updated(row, Request(Analyzing, Analyzing, None, None, None), now);
    assert Run(start, []) == start;
    OutcomeWrite(names, start, parse, reason);
  }

  method Analyze(ledger: InMemoryLedgerStore, names: Names, docId: string, parse: Parse, between: seq<Event>, reason: string, now: Time)
    returns (r: Result)
    requires ledger.Valid()
    modifies ledger`rows
    ensures ledger.Valid()
    ensures !IsHexId(docId) ==> r == BadId && ledger.rows == old(ledger.rows)
    ensures IsHexId(docId) && docId !in old(ledger.rows) ==> r == LedgerRefused(None) && ledger.rows == old(ledger.rows)
    ensures IsHexId(docId) && docId in old(ledger.rows) ==>
              var (row', r') := Analyzed(names, old(ledger.rows)[docId], parse, between, reason, now);
              r == r' && ledger.rows == old(ledger.rows)[docId := row']
  {
    ghost var before := ledger.rows;
    var stop, entered := Enter(ledger, docId, now);
    if stop.Some? {
      assert docId in before ==> before[docId := before[docId]] == before;
      return stop.value;
    }
    r := ParseAndSettle(ledger, names, docId, parse, entered, between, reason, now);
    assert ledger.rows == before[docId := ledger.rows[docId]];
  }

  /** After the entry: others move while the document is parsed, then the outcome is written. */
  method ParseAndSettle(ledger: InMemoryLedgerStore, names: Names, docId: string, parse: Parse, entered: bool,
                        between: seq<Event>, reason: string, now: Time)
    returns (r: Result)
    requires ledger.Valid() && IsHexId(docId) && docId in ledger.rows
    modifies ledger`rows
    ensures ledger.Valid() && docId in ledger.rows && ledger.rows == old(ledger.rows)[docId := ledger.rows[docId]]
    ensures var mid := Run(old(ledger.rows)[docId], between);
            (ledger.rows[docId], r) ==
              if parse.Parses? && !entered then (mid, Delivered)
              else (Step(mid, Event(ParseRequest(names, parse, reason), now)), Settled(mid, parse))
  {
    Interfere(ledger, docId, between);
    if parse.Parses? && !entered { return Delivered; }
    r := Settle(ledger, names, docId, parse, reason, now);
  }

  // ---- what an analyze call does to the row ----

  /** One `analyze` call: how its parsing ends and what others do meanwhile. */
  datatype AnalyzeCall = AnalyzeCall(parse: Parse, between: seq<Event>, reason: string, now: Time)

  function After(names: Names, row: Row, c: AnalyzeCall): Row {
    Analyzed(names, row, c.parse, c.between, c.reason, c.now).0
  }

  function EntryEvent(c: AnalyzeCall): Event { Event(Request(Analyzing, Analyzing, None, None, None), c.now) }

  function OutcomeEvent(names: Names, c: AnalyzeCall): Event { Event(ParseRequest(names, c.parse, c.reason), c.now) }

  /** The requests the ledger sees during the call, the analyzer's own included. */
  function CallTrace(names: Names, row: Row, c: AnalyzeCall): seq<Event> {
    if Enters(row) then [EntryEvent(c)] + c.between + [OutcomeEvent(names, c)]
    else if !IsPast(row) then []
    else if c.parse.Parses? then c.between
    else c.between + [OutcomeEvent(names, c)]
  }

  lemma RunOne(row: Row, e: Event)
    ensures Run(row, [e]) == Step(row, e)
  {
    assert [e][..0] == [] && Run(row, [e][..0]) == row;
  }

  /** An analyze call is a stretch of ledger history, so everything proved of histories holds of
      documents that any number of analyzers work on. */
  lemma AnalyzedIsRun(names: Names, row: Row, c: AnalyzeCall)
    requires row.stage == row.status
    ensures After(names, row, c) == Run(row, CallTrace(names, row, c))
  {
    var own := [OutcomeEvent(names, c)];
    if Enters(row) {
      EntryWrite(row);
      RunOne(row, EntryEvent(c));
      RunSplits(row, [EntryEvent(c)], c.between);
      RunSplits(row, [EntryEvent(c)] + c.between, own);
      RunOne(Run(row, [EntryEvent(c)] + c.between), own[0]);
    } else if IsPast(row) && !c.parse.Parses? {
      RunSplits(row, c.between, own);
      RunOne(Run(row, c.between), own[0]);
    }
  }

  lemma OutcomeMovesRow(names: Names, mid: Row, c: AnalyzeCall)
    requires mid.stage == mid.status && IsPast(mid) && !c.parse.Parses?
    ensures c.parse.Unusable? && mid.status != Indexed ==> Step(mid, OutcomeEvent(names, c)).status == Failed
    ensures !(c.parse.Unusable? && mid.status != Indexed) ==> Step(mid, OutcomeEvent(names, c)) == mid
  {
  }

  /** A call that lost its entry leaves the row exactly as the others made it if and only if it
      parsed, or its failure met a settled row, or its retry met a row that is neither pending nor
      analyzing. */
  lemma LostEntryWritesIff(names: Names, row: Row, c: AnalyzeCall)
    requires row.stage == row.status && IsPast(row)
    ensures var mid := Run(row, c.between);
            After(names, row, c) == mid <==>
              || c.parse.Parses?
              || (c.parse.Unusable? && mid.status in {Indexed, Failed, Archived})
              || (c.parse.ParserFails? && mid.status !in {Pending, Analyzing})
  {
    RunKeepsStage(row, c.between);
    var mid := Run(row, c.between);
    OutcomeWrite(names, mid, c.parse, c.reason);
    if c.parse.Unusable? && mid.status !in {Indexed, Failed, Archived} {
      assert Step(mid, OutcomeEvent(names, c)).status == Failed;
    }
    if c.parse.ParserFails? && mid.status in {Pending, Analyzing} {
      assert mid.status == Analyzing ==> Step(mid, OutcomeEvent(names, c)).attempts == mid.attempts + 1;
      assert mid.status == Pending ==> Step(mid, OutcomeEvent(names, c)).status == Analyzing;
    }
  }

  /** And it leaves the document failed if and only if the others did, or its own failure met a
      row that was neither completed nor archived. */
  lemma LostEntryFailsIff(names: Names, row: Row, c: AnalyzeCall)
    requires row.stage == row.status && IsPast(row)
    ensures var mid := Run(row, c.between);
            After(names, row, c).status == Failed <==>
              mid.status == Failed || (c.parse.Unusable? && mid.status !in {Indexed, Archived})
  {
    RunKeepsStage(row, c.between);
    OutcomeWrite(names, Run(row, c.between), c.parse, c.reason);
  }

  /** So a duplicate that nobody interferes with fails a document another worker has already
      moved past the stage, at every status short of completion. */
  lemma LateAnalyzerFailsProgress(names: Names, row: Row, code: Code, reason: string, now: Time)
    requires row.stage == row.status && row.status in {Chunking, Embedding, Indexing}
    ensures IsBenignLoss(Some(row), Analyzing, Analyzing)
    ensures Analyzed(names, row, Unusable(code), [], reason, now).0.status == Failed
    ensures Analyzed(names, row, Unusable(code), [], reason, now).1 == Raised(code)
  {
    LostEntryFailsIff(names, row, AnalyzeCall(Unusable(code), [], reason, now));
  }

  // ---- redeliveries to a document that is past the stage ----

  /** The row after the first `n` calls. */
  function Redelivered(names: Names, row: Row, calls: seq<AnalyzeCall>, n: nat): Row
    requires n <= |calls|
  {
    if n == 0 then row else After(names, Redelivered(names, row, calls, n - 1), calls[n - 1])
  }

  /** The row as the others alone have it after the first `n` calls. */
  function Others(row: Row, calls: seq<AnalyzeCall>, n: nat): Row
    requires n <= |calls|
  {
    if n == 0 then row else Run(Others(row, calls, n - 1), calls[n - 1].between)
  }

  /** Call `k` finds the document unusable before the others have completed it. */
  predicate Kills(row: Row, calls: seq<AnalyzeCall>, k: nat)
    requires k < |calls|
  {
    calls[k].parse.Unusable? && Others(row, calls, k + 1).status != Indexed
  }

  predicate Killed(row: Row, calls: seq<AnalyzeCall>, n: nat)
    requires n <= |calls|
  {
    n > 0 && (Killed(row, calls, n - 1) || Kills(row, calls, n - 1))
  }

  lemma {:induction false} KilledIff(row: Row, calls: seq<AnalyzeCall>, n: nat)
    requires n <= |calls|
    ensures Killed(row, calls, n) <==> exists k :: 0 <= k < n && Kills(row, calls, k)
  {
    if n > 0 { KilledIff(row, calls, n - 1); }
  }

  /** Until a call kills the document the analyzers leave no trace at all; from then on it is
      failed. */
  lemma {:induction false} RedeliveredTo(names: Names, row: Row, calls: seq<AnalyzeCall>, n: nat)
    requires row.stage == row.status && n <= |calls|
    requires forall k :: 0 <= k <= |calls| ==> IsPast(Others(row, calls, k))
    ensures Others(row, calls, n).stage == Others(row, calls, n).status
    ensures if Killed(row, calls, n) then Redelivered(names, row, calls, n).status == Failed
            else Redelivered(names, row, calls, n) == Others(row, calls, n)
  {
    if n > 0 {
      RedeliveredTo(names, row, calls, n - 1);
      RunKeepsStage(Others(row, calls, n - 1), calls[n - 1].between);
      assert IsPast(Others(row, calls, n - 1)) && IsPast(Others(row, calls, n));
      OneMoreCall(names, Redelivered(names, row, calls, n - 1), calls[n - 1]);
    }
  }

  lemma OneMoreCall(names: Names, row: Row, c: AnalyzeCall)
    ensures row.status == Failed ==> After(names, row, c) == row
    ensures row.stage == row.status && IsPast(row) && IsPast(Run(row, c.between)) ==>
              var mid := Run(row, c.between);
              if c.parse.Unusable? && mid.status != Indexed then After(names, row, c).status == Failed
              else After(names, row, c) == mid
  {
    if row.stage == row.status && IsPast(row) && IsPast(Run(row, c.between)) {
      RunKeepsStage(row, c.between);
      if !c.parse.Parses? { OutcomeMovesRow(names, Run(row, c.between), c); }
    }
  }

  /** Over any number of redeliveries, while the others by themselves keep the document past the
      stage: it ends failed if and only if some call found the document unusable before the others
      had completed it; otherwise it ends exactly where the others took it. */
  lemma RedeliveriesFailIff(names: Names, row: Row, calls: seq<AnalyzeCall>)
    requires row.stage == row.status
    requires forall k :: 0 <= k <= |calls| ==> IsPast(Others(row, calls, k))
    ensures var end := Redelivered(names, row, calls, |calls|);
            && (end.status == Failed <==> exists k :: 0 <= k < |calls| && Kills(row, calls, k))
            && (end.status != Failed ==> end == Others(row, calls, |calls|))
  {
    RedeliveredTo(names, row, calls, |calls|);
    KilledIff(row, calls, |calls|);
    assert IsPast(Others(row, calls, |calls|));
  }
}
