/** The state ledger: its transition table, its race triage, and the in-memory store. */
module Ledger {
  import opened Options

  type Time = int

  datatype Status =
    | Pending | Analyzing | Chunking | Embedding | Indexing | Indexed
    | Failed | NeedsReview | Archived

  datatype Row = Row(
    docId: string,
    status: Status,
    stage: Status,
    attempts: nat,
    errorCode: Option<string>,
    errorMessage: Option<string>,
    configVersion: string,
    ingestedAt: Time,
    updatedAt: Time,
    assignedScenario: Option<string>)

  datatype Request = Request(
    to: Status,
    stage: Status,
    errorCode: Option<string>,
    errorMessage: Option<string>,
    assignedScenario: Option<string>)

  predicate Terminal(s: Status) { s.Indexed? || s.Failed? || s.Archived? }

  function LegalTargets(s: Status): set<Status> {
    match s
    case Pending => {Analyzing, Failed, NeedsReview}
    case Analyzing => {Chunking, Failed}
    case Chunking => {Embedding, Failed}
    case Embedding => {Indexing, Failed}
    case Indexing => {Indexed, Failed}
    case Indexed => {}
    case Failed => {Pending, Archived}
    case NeedsReview => {Pending, Failed}
    case Archived => {}
  }

  datatype Rejection = UnknownDoc | StageMismatch | TerminalStatus | IllegalEdge | MissingErrorCode

  /** `validate_transition`, checks in the source's order. */
  function Validate(current: Option<Row>, req: Request): Option<Rejection> {
    if current.None? then Some(UnknownDoc)
    else if req.stage != req.to then Some(StageMismatch)
    else if Terminal(current.value.status) && req.to !in LegalTargets(current.value.status) then Some(TerminalStatus)
    else if !(req.to in LegalTargets(current.value.status) || req.to == current.value.status) then Some(IllegalEdge)
    else if req.to == Failed && req.errorCode.None? then Some(MissingErrorCode)
    else None
  }

  predicate Accepts(row: Row, req: Request) { Validate(Some(row), req).None? }

  function NextAttempts(row: Row, to: Status): nat {
    if to == Failed then row.attempts
    else if row.status == Failed && to == Pending then 0
    else if to == row.status then row.attempts + 1
    else 1
  }

  /** The row an accepted request writes. */
  function Updated(row: Row, req: Request, now: Time): Row {
    var keepErrors := req.to == row.status && req.errorCode.None?;
    Row(row.docId, req.to, req.stage, NextAttempts(row, req.to),
        if keepErrors then row.errorCode else req.errorCode,
        if keepErrors then row.errorMessage else req.errorMessage,
        row.configVersion, row.ingestedAt, now,
        if req.assignedScenario.Some? then req.assignedScenario else row.assignedScenario)
  }

  function NewRow(docId: string, configVersion: string, now: Time): Row {
    Row(docId, Pending, Pending, 0, None, None, configVersion, now, now, None)
  }

  /** The linear path through the table. */
  predicate OnPath(s: Status) { !s.Failed? && !s.NeedsReview? && !s.Archived? }

  function PathIndex(s: Status): nat
    requires OnPath(s)
  {
    match s
    case Pending => 0
    case Analyzing => 1
    case Chunking => 2
    case Embedding => 3
    case Indexing => 4
    case Indexed => 5
  }

  /** `is_benign_concurrent_loss`, in its exact order; total because both operands are on the
      path by the time their positions are compared. */
  predicate IsBenignLoss(observed: Option<Row>, to: Status, stage: Status) {
    if stage != to then false
    else if observed.None? then false
    else
      var row := observed.value;
      if row.status != row.stage then false
      else if to == Failed then row.status == Indexed
      else if row.status == Failed then false
      else if to == NeedsReview then row.status != Pending
      else if row.status == NeedsReview then false
      else if to == Archived then row.status == Archived
      else if row.status == Archived then false
      else PathIndex(row.status) >= PathIndex(to)
  }

  /** 64 lowercase hex digits; the pattern's `$` also lets one trailing newline through. */
  predicate IsHexId(s: string) {
    && (|s| == 64 || (|s| == 65 && s[64] == '\n'))
    && forall i :: 0 <= i < 64 ==> '0' <= s[i] <= '9' || 'a' <= s[i] <= 'f'
  }

  /** The accepted identifiers: 64 lowercase hex digits, alone or followed by one newline. */
  lemma HexIdIs(s: string)
    ensures |s| == 64 ==> (IsHexId(s) <==> forall i :: 0 <= i < 64 ==> s[i] in "0123456789abcdef")
    ensures |s| == 64 && IsHexId(s) ==> IsHexId(s + "\n")
    ensures IsHexId(s) ==> |s| == 64 || (|s| == 65 && s[64] == '\n' && IsHexId(s[..64]))
  {
    assert "0123456789abcdef"[0] == '0' && "0123456789abcdef"[9] == '9' && "0123456789abcdef"[10] == 'a' && "0123456789abcdef"[15] == 'f';
  }

  /** Why a request is rejected, in the order of precedence: an unknown document, a stage that is not
      the target, a finished document, an edge that does not exist, a failure without a code. */
  lemma RejectionIs(current: Option<Row>, req: Request)
    ensures Validate(current, req) == Some(UnknownDoc) <==> current.None?
    ensures Validate(current, req) == Some(StageMismatch) <==> current.Some? && req.stage != req.to
    ensures current.Some? && req.stage == req.to ==>
              var s := current.value.status;
              && (Validate(current, req) == Some(TerminalStatus) <==>
                    s in {Indexed, Archived} || (s == Failed && req.to !in {Pending, Archived}))
              && (Validate(current, req) == Some(MissingErrorCode) <==>
                    req.to == Failed && req.errorCode.None? && s !in {Indexed, Archived, Failed})
  {
  }

  datatype Outcome = Written(row: Row) | IdentityInvalid | TransitionInvalid(observed: Option<Row>)

  // ---- newest first ----

  /** Stable descending insertion by `updatedAt`: before the first strictly older row. */
  function InsertNewest(r: Row, rows: seq<Row>): seq<Row> {
    if rows == [] then [r]
    else if rows[0].updatedAt < r.updatedAt then [r] + rows
    else [rows[0]] + InsertNewest(r, rows[1..])
  }

  /** How many rows a row goes behind. */
  function Place(r: Row, rows: seq<Row>): (k: nat)
    ensures k <= |rows|
  {
    if rows == [] || rows[0].updatedAt < r.updatedAt then 0 else 1 + Place(r, rows[1..])
  }

  lemma {:induction false} InsertNewestAt(r: Row, rows: seq<Row>)
    ensures InsertNewest(r, rows) == rows[..Place(r, rows)] + [r] + rows[Place(r, rows)..]
  {
    if rows != [] && rows[0].updatedAt >= r.updatedAt {
      var tail, j := rows[1..], Place(r, rows[1..]);
      InsertNewestAt(r, tail);
      assert rows[..j + 1] == [rows[0]] + tail[..j] && rows[j + 1..] == tail[j..];
    }
  }

  /** Behind everything as new, before everything older: equals keep the order in which they came. */
  lemma {:induction false} PlaceIs(r: Row, rows: seq<Row>, i: nat)
    requires Descending(rows) && i < |rows|
    ensures i < Place(r, rows) <==> rows[i].updatedAt >= r.updatedAt
  {
    if rows[0].updatedAt >= r.updatedAt && i > 0 {
      PlaceIs(r, rows[1..], i - 1);
      assert rows[i] == rows[1..][i - 1];
    }
  }

  function NewestFirst(rows: seq<Row>): seq<Row> {
    if rows == [] then [] else InsertNewest(rows[|rows| - 1], NewestFirst(rows[..|rows| - 1]))
  }

  predicate Descending(rows: seq<Row>) {
    forall i, j :: 0 <= i < j < |rows| ==> rows[i].updatedAt >= rows[j].updatedAt
  }

  lemma {:induction false} InsertNewestKeeps(r: Row, rows: seq<Row>)
    ensures multiset(InsertNewest(r, rows)) == multiset(rows) + multiset{r}
    ensures forall x :: x in InsertNewest(r, rows) <==> x == r || x in rows
  {
    if rows != [] {
      assert rows == [rows[0]] + rows[1..];
      if rows[0].updatedAt >= r.updatedAt { InsertNewestKeeps(r, rows[1..]); }
    }
  }

  lemma {:induction false} InsertNewestOrders(r: Row, rows: seq<Row>)
    requires Descending(rows)
    ensures Descending(InsertNewest(r, rows))
  {
    if rows != [] && rows[0].updatedAt >= r.updatedAt {
      InsertNewestOrders(r, rows[1..]);
      InsertNewestKeeps(r, rows[1..]);
      var tail := InsertNewest(r, rows[1..]);
      forall i | 0 <= i < |tail| ensures rows[0].updatedAt >= tail[i].updatedAt {
        assert tail[i] in tail;
      }
    }
  }

  lemma {:induction false} NewestFirstOrders(rows: seq<Row>)
    ensures Descending(NewestFirst(rows))
    ensures multiset(NewestFirst(rows)) == multiset(rows)
    ensures forall x :: x in NewestFirst(rows) <==> x in rows
  {
    if rows != [] {
      var n := |rows| - 1;
      NewestFirstOrders(rows[..n]);
      InsertNewestOrders(rows[n], NewestFirst(rows[..n]));
      InsertNewestKeeps(rows[n], NewestFirst(rows[..n]));
      assert rows == rows[..n] + [rows[n]];
    }
  }

  function Matching(order: seq<string>, rows: map<string, Row>, status: Status): seq<Row>
    requires forall i :: 0 <= i < |order| ==> order[i] in rows
  {
    if order == [] then []
    else
      var n := |order| - 1;
      Matching(order[..n], rows, status) + (if rows[order[n]].status == status then [rows[order[n]]] else [])
  }

  function Listed(order: seq<string>, rows: map<string, Row>, status: Status, limit: int): seq<Row>
    requires forall i :: 0 <= i < |order| ==> order[i] in rows
  {
    var all := NewestFirst(Matching(order, rows, status));
    if limit <= 0 then [] else if limit < |all| then all[..limit] else all
  }

  /** Every method is one lock section. `order` is the dictionary's insertion order. */
  class InMemoryLedgerStore {
    var rows: map<string, Row>
    var order: seq<string>

    ghost predicate Valid()
      reads this
    {
      && (forall i :: 0 <= i < |order| ==> order[i] in rows)
      && (forall d :: d in rows ==> d in order && rows[d].docId == d && rows[d].stage == rows[d].status)
      && (forall i, j :: 0 <= i < j < |order| ==> order[i] != order[j])
    }

    constructor ()
      ensures Valid() && rows == map[] && order == []
    {
      rows := map[];
      order := [];
    }

    method Create(docId: string, configVersion: string, now: Time) returns (r: Outcome)
      requires Valid()
      modifies this
      ensures Valid()
      ensures !IsHexId(docId) ==> r == IdentityInvalid && rows == old(rows) && order == old(order)
      ensures IsHexId(docId) && docId in old(rows) ==>
                r == Written(old(rows)[docId]) && rows == old(rows) && order == old(order)
      ensures IsHexId(docId) && docId !in old(rows) ==>
                && r == Written(NewRow(docId, configVersion, now))
                && rows == old(rows)[docId := NewRow(docId, configVersion, now)]
                && order == old(order) + [docId]
    {
      if !IsHexId(docId) { return IdentityInvalid; }
      if docId in rows { return Written(rows[docId]); }
      var row := NewRow(docId, configVersion, now);
      rows := rows[docId := row];
      order := order + [docId];
      r := Written(row);
    }

    /** Writes exactly the validated update, or nothing at all. */
    method Transition(docId: string, req: Request, now: Time) returns (r: Outcome)
      requires Valid()
      modifies this`rows
      ensures Valid()
      ensures !IsHexId(docId) ==> r == IdentityInvalid && rows == old(rows)
      ensures IsHexId(docId) && !(docId in old(rows) && Accepts(old(rows)[docId], req)) ==>
                && r == TransitionInvalid(if docId in rows then Some(rows[docId]) else None)
                && rows == old(rows)
      ensures IsHexId(docId) && docId in old(rows) && Accepts(old(rows)[docId], req) ==>
                && r == Written(Updated(old(rows)[docId], req, now))
                && rows == old(rows)[docId := Updated(old(rows)[docId], req, now)]
    {
      if !IsHexId(docId) { return IdentityInvalid; }
      var current := if docId in rows then Some(rows[docId]) else None;
      if Validate(current, req).Some? { return TransitionInvalid(current); }
      var row := Updated(current.value, req, now);
      rows := rows[docId := row];
      r := Written(row);
    }

    method Get(docId: string) returns (r: Option<Row>)
      ensures r == if docId in rows then Some(rows[docId]) else None
    {
      r := if docId in rows then Some(rows[docId]) else None;
    }

    method ListByStatus(status: Status, limit: int) returns (r: seq<Row>)
      requires Valid()
      ensures r == Listed(order, rows, status, limit)
    {
      if limit <= 0 { return []; }
      var sorted: seq<Row> := [];
      for i := 0 to |order|
        invariant sorted == NewestFirst(Matching(order[..i], rows, status))
      {
        ListNext(order, rows, status, i);
        if rows[order[i]].status == status { sorted := InsertNewest(rows[order[i]], sorted); }
      }
      assert order[..|order|] == order;
      r := if limit < |sorted| then sorted[..limit] else sorted;
    }
  }

  lemma ListNext(order: seq<string>, rows: map<string, Row>, status: Status, i: nat)
    requires i < |order| && forall i :: 0 <= i < |order| ==> order[i] in rows
    ensures NewestFirst(Matching(order[..i + 1], rows, status)) ==
              if rows[order[i]].status == status
              then InsertNewest(rows[order[i]], NewestFirst(Matching(order[..i], rows, status)))
              else NewestFirst(Matching(order[..i], rows, status))
  {
    assert order[..i + 1][..i] == order[..i];
    var m := Matching(order[..i], rows, status);
    if rows[order[i]].status == status {
      assert (m + [rows[order[i]]])[..|m|] == m;
    } else {
      assert m + [] == m;
    }
  }

  lemma {:induction false} MatchingSound(order: seq<string>, rows: map<string, Row>, status: Status)
    requires forall i :: 0 <= i < |order| ==> order[i] in rows
    requires forall d :: d in rows ==> rows[d].docId == d
    ensures forall x :: x in Matching(order, rows, status) ==>
              x.docId in rows && rows[x.docId] == x && x.status == status
  {
    if order != [] { MatchingSound(order[..|order| - 1], rows, status); }
  }

  /** A listing shows current rows of the asked status, newest first, within the limit. */
  lemma ListedIsSound(order: seq<string>, rows: map<string, Row>, status: Status, limit: int)
    requires forall i :: 0 <= i < |order| ==> order[i] in rows
    requires forall d :: d in rows ==> rows[d].docId == d
    ensures var r := Listed(order, rows, status, limit);
            && Descending(r) && |r| <= (if limit <= 0 then 0 else limit)
            && r <= NewestFirst(Matching(order, rows, status))
            && (limit > 0 && |r| < limit ==> r == NewestFirst(Matching(order, rows, status)))
            && forall i :: 0 <= i < |r| ==> r[i].docId in rows && r[i] == rows[r[i].docId] && r[i].status == status
  {
    var m := Matching(order, rows, status);
    var all := NewestFirst(m);
    MatchingSound(order, rows, status);
    NewestFirstOrders(m);
    forall i | 0 <= i < |all| ensures all[i] in m {
      assert all[i] in all;
    }
  }
}
