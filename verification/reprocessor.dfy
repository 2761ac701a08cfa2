/** Operator tooling over failed rows: listing, summaries, requeue one by one and in batches. */
module Reprocessor {
  import opened Options
  import opened Ledger
  import opened LedgerTraces
  import opened Identity

  const SCAN_LIMIT := 10_000
  const UNKNOWN_CODE := "UNKNOWN"

  /** The recorded code; a missing or empty one reads as unknown. */
  function CodeOf(row: Row): string {
    if row.errorCode.None? || row.errorCode.value == [] then UNKNOWN_CODE else row.errorCode.value
  }

  /** Stage inference goes by a table of code prefixes; the first match wins. */
  datatype Prefix = Prefix(text: string, stage: string)

  function InferStage(table: seq<Prefix>, unknown: string, code: string): string {
    if table == [] then unknown
    else if table[0].text <= code then table[0].stage
    else InferStage(table[1..], unknown, code)
  }

  const STAGE_PREFIXES: seq<Prefix> := [
    Prefix("ANALYZER_", "analyzing"), Prefix("PARSER_", "analyzing"), Prefix("DOCINT_", "analyzing"),
    Prefix("CHUNKER_", "chunking"), Prefix("TOKENIZER_", "chunking"),
    Prefix("EMBEDDER_", "embedding"), Prefix("INDEXER_", "indexing")]

  function StageOf(code: string): string { InferStage(STAGE_PREFIXES, "unknown", code) }

  /** The stages by prefix, and unknown for every other code. */
  lemma StagesAre(rest: string, code: string)
    ensures StageOf("ANALYZER_" + rest) == StageOf("PARSER_" + rest) == StageOf("DOCINT_" + rest) == "analyzing"
    ensures StageOf("CHUNKER_" + rest) == StageOf("TOKENIZER_" + rest) == "chunking"
    ensures StageOf("EMBEDDER_" + rest) == "embedding"
    ensures StageOf("INDEXER_" + rest) == "indexing"
    ensures (forall i :: 0 <= i < |STAGE_PREFIXES| ==> !(STAGE_PREFIXES[i].text <= code)) ==> StageOf(code) == "unknown"
  {
    PrefixWins(0, rest);
    PrefixWins(1, rest);
    PrefixWins(2, rest);
    PrefixWins(3, rest);
    PrefixWins(4, rest);
    PrefixWins(5, rest);
    PrefixWins(6, rest);
    Unprefixed(STAGE_PREFIXES, "unknown", code);
  }

  /** The prefixes start with different letters, so each code matches at most one. */
  lemma PrefixWins(k: nat, rest: string)
    requires k < |STAGE_PREFIXES|
    ensures StageOf(STAGE_PREFIXES[k].text + rest) == STAGE_PREFIXES[k].stage
  {
    var code := STAGE_PREFIXES[k].text + rest;
    forall i | 0 <= i < k ensures !(STAGE_PREFIXES[i].text <= code) {
      assert STAGE_PREFIXES[i].text[0] != STAGE_PREFIXES[k].text[0] == code[0];
    }
    FirstPrefix(STAGE_PREFIXES, "unknown", code, k);
  }

  lemma {:induction false} FirstPrefix(table: seq<Prefix>, unknown: string, code: string, k: nat)
    requires k < |table| && table[k].text <= code && forall i :: 0 <= i < k ==> !(table[i].text <= code)
    ensures InferStage(table, unknown, code) == table[k].stage
  {
    if k > 0 { FirstPrefix(table[1..], unknown, code, k - 1); }
  }

  lemma {:induction false} Unprefixed(table: seq<Prefix>, unknown: string, code: string)
    ensures (forall i :: 0 <= i < |table| ==> !(table[i].text <= code)) ==> InferStage(table, unknown, code) == unknown
  {
    if table != [] { Unprefixed(table[1..], unknown, code); }
  }

  datatype Filter = Filter(code: Option<string>, stage: Option<string>, since: Option<Time>)

  predicate Passes(f: Filter, row: Row) {
    && (f.code.Some? ==> CodeOf(row) == f.code.value)
    && (f.stage.Some? ==> StageOf(CodeOf(row)) == f.stage.value)
    && (f.since.Some? ==> row.updatedAt >= f.since.value)
  }

  function Kept(f: Filter, rows: seq<Row>): seq<Row> {
    if rows == [] then []
    else
      var n := |rows| - 1;
      Kept(f, rows[..n]) + (if Passes(f, rows[n]) then [rows[n]] else [])
  }

  function Take<T>(xs: seq<T>, limit: int): seq<T> {
    if limit <= 0 then [] else if limit < |xs| then xs[..limit] else xs
  }

  function Failures(ledger: map<string, Row>, order: seq<string>): seq<Row>
    requires forall i :: 0 <= i < |order| ==> order[i] in ledger
  {
    Listed(order, ledger, Failed, SCAN_LIMIT)
  }

  predicate DistinctIds(rows: seq<Row>) {
    forall i, j :: 0 <= i < j < |rows| ==> rows[i].docId != rows[j].docId
  }

  // ---- listing ----

  /** What an operator sees of a failed row. The severity of a code comes from the error registry. */
  datatype FailedItem = FailedItem(
    docId: string,
    stage: string,
    errorCode: string,
    errorMessage: Option<string>,
    severity: string,
    attempts: nat,
    failedAt: Time,
    firstIngestedAt: Time,
    assignedScenario: Option<string>)

  /** An item shows the row's own fields, an unknown code for none, and the stage and severity of
      its code. */
  predicate Shows(classify: string -> string, item: FailedItem, row: Row) {
    && item.docId == row.docId && item.errorMessage == row.errorMessage && item.attempts == row.attempts
    && item.failedAt == row.updatedAt && item.firstIngestedAt == row.ingestedAt
    && item.assignedScenario == row.assignedScenario
    && (if row.errorCode.Some? && row.errorCode.value != [] then item.errorCode == row.errorCode.value else item.errorCode == UNKNOWN_CODE)
    && item.stage == StageOf(item.errorCode) && item.severity == classify(item.errorCode)
  }

  function ItemOf(classify: string -> string, row: Row): FailedItem {
    FailedItem(row.docId, StageOf(CodeOf(row)), CodeOf(row), row.errorMessage, classify(CodeOf(row)), row.attempts,
               row.updatedAt, row.ingestedAt, row.assignedScenario)
  }

  lemma {:induction false} KeptIsExact(f: Filter, rows: seq<Row>)
    ensures forall x :: x in Kept(f, rows) <==> x in rows && Passes(f, x)
    ensures Descending(rows) ==> Descending(Kept(f, rows))
    ensures DistinctIds(rows) ==> DistinctIds(Kept(f, rows))
  {
    if rows != [] {
      var n := |rows| - 1;
      assert rows == rows[..n] + [rows[n]];
      KeptIsExact(f, rows[..n]);
      var head := Kept(f, rows[..n]);
      forall i | 0 <= i < |head| ensures exists j :: 0 <= j < n && rows[j] == head[i] {
        assert head[i] in head && head[i] in rows[..n];
      }
    }
  }

  lemma {:induction false} MatchingHasDistinctIds(order: seq<string>, rows: map<string, Row>, status: Status)
    requires forall i :: 0 <= i < |order| ==> order[i] in rows
    requires forall d :: d in rows ==> rows[d].docId == d
    requires forall i, j :: 0 <= i < j < |order| ==> order[i] != order[j]
    ensures DistinctIds(Matching(order, rows, status))
    ensures forall x :: x in Matching(order, rows, status) <==> x.docId in order && rows[x.docId] == x && x.status == status
  {
    if order != [] {
      var n := |order| - 1;
      MatchingHasDistinctIds(order[..n], rows, status);
      var head := Matching(order[..n], rows, status);
      assert order == order[..n] + [order[n]];
      forall i | 0 <= i < |head| ensures head[i].docId != order[n] {
        assert head[i] in head;
      }
    }
  }

  lemma InsertKeepsDistinct(r: Row, rows: seq<Row>)
    requires DistinctIds(rows) && forall i :: 0 <= i < |rows| ==> rows[i].docId != r.docId
    ensures DistinctIds(InsertNewest(r, rows))
    ensures forall x :: x in InsertNewest(r, rows) <==> x == r || x in rows
  {
    if rows != [] && rows[0].updatedAt >= r.updatedAt {
      InsertKeepsDistinct(r, rows[1..]);
      var tail := InsertNewest(r, rows[1..]);
      forall i | 0 <= i < |tail| ensures tail[i].docId != rows[0].docId {
        assert tail[i] in tail;
      }
      assert rows == [rows[0]] + rows[1..];
    }
  }

  lemma {:induction false} SortKeepsDistinct(rows: seq<Row>)
    requires DistinctIds(rows)
    ensures DistinctIds(NewestFirst(rows))
    ensures forall x :: x in NewestFirst(rows) <==> x in rows
  {
    if rows != [] {
      var n := |rows| - 1;
      SortKeepsDistinct(rows[..n]);
      var sorted := NewestFirst(rows[..n]);
      forall i | 0 <= i < |sorted| ensures sorted[i].docId != rows[n].docId {
        assert sorted[i] in sorted && sorted[i] in rows[..n];
      }
      InsertKeepsDistinct(rows[n], sorted);
      assert rows == rows[..n] + [rows[n]];
    }
  }

  ghost predicate Indexes(order: seq<string>, rows: map<string, Row>) {
    && (forall i :: 0 <= i < |order| ==> order[i] in rows)
    && (forall d :: d in rows ==> d in order && rows[d].docId == d)
    && (forall i, j :: 0 <= i < j < |order| ==> order[i] != order[j])
  }

  /** The scan: distinct failed documents, newest first, all of them up to the scan limit. */
  lemma FailuresAreExact(order: seq<string>, rows: map<string, Row>)
    requires Indexes(order, rows)
    ensures var found := Failures(rows, order);
            && DistinctIds(found) && Descending(found)
            && (|found| == if |Matching(order, rows, Failed)| <= SCAN_LIMIT then |Matching(order, rows, Failed)| else SCAN_LIMIT)
            && (forall x :: x in found ==> x.docId in rows && rows[x.docId] == x && x.status == Failed)
            && (|Matching(order, rows, Failed)| <= SCAN_LIMIT ==>
                  forall d :: d in rows && rows[d].status == Failed ==> rows[d] in found)
    ensures forall x, y :: x in Failures(rows, order) && y in Matching(order, rows, Failed) && y !in Failures(rows, order) ==>
              x.updatedAt >= y.updatedAt
  {
    var m := Matching(order, rows, Failed);
    var all := NewestFirst(m);
    FailedRows(order, rows);
    assert Failures(rows, order) == Take(all, SCAN_LIMIT);
    forall x, y | x in Failures(rows, order) && y in m && y !in Failures(rows, order) ensures x.updatedAt >= y.updatedAt {
      ScanKeepsNewest(order, rows, x, y);
    }
  }

  lemma FailedRows(order: seq<string>, rows: map<string, Row>)
    requires Indexes(order, rows)
    ensures var all := NewestFirst(Matching(order, rows, Failed));
            && DistinctIds(all) && Descending(all) && |all| == |Matching(order, rows, Failed)|
            && forall x :: x in all <==> x.docId in rows && rows[x.docId] == x && x.status == Failed
  {
    var m := Matching(order, rows, Failed);
    MatchingHasDistinctIds(order, rows, Failed);
    SortKeepsDistinct(m);
    NewestFirstOrders(m);
    assert |multiset(NewestFirst(m))| == |multiset(m)|;
  }

  lemma ScanKeepsNewest(order: seq<string>, rows: map<string, Row>, x: Row, y: Row)
    requires Indexes(order, rows)
    requires x in Failures(rows, order) && y in Matching(order, rows, Failed) && y !in Failures(rows, order)
    ensures x.updatedAt >= y.updatedAt
  {
    var m := Matching(order, rows, Failed);
    NewestFirstOrders(m);
    assert y in NewestFirst(m);
    KeptAreNewest(NewestFirst(m), SCAN_LIMIT, x, y);
  }

  lemma KeptAreNewest(all: seq<Row>, limit: nat, x: Row, y: Row)
    requires Descending(all) && x in Take(all, limit) && y in all && y !in Take(all, limit)
    ensures x.updatedAt >= y.updatedAt
  {
    var i :| 0 <= i < |Take(all, limit)| && Take(all, limit)[i] == x;
    var j :| 0 <= j < |all| && all[j] == y;
    assert i < limit && all[i] == x && j >= limit;
  }

  function Found(order: seq<string>, rows: map<string, Row>, f: Filter, limit: int): seq<Row>
    requires forall i :: 0 <= i < |order| ==> order[i] in rows
  {
    Take(Kept(f, Failures(rows, order)), limit)
  }

  /** A listing holds distinct documents with their current rows, newest failure first, every
      one passing the filter; unless one of the two limits cuts it, it misses no match. */
  lemma ListingIsExact(order: seq<string>, rows: map<string, Row>, f: Filter, limit: int)
    requires Indexes(order, rows)
    ensures var found := Found(order, rows, f, limit);
            && DistinctIds(found) && Descending(found) && |found| <= (if limit <= 0 then 0 else limit)
            && (forall x :: x in found ==> x.docId in rows && rows[x.docId] == x && x.status == Failed && Passes(f, x))
            && (|Matching(order, rows, Failed)| <= SCAN_LIMIT && |found| < limit ==>
                  forall d :: d in rows && rows[d].status == Failed && Passes(f, rows[d]) ==> rows[d] in found)
  {
    FailuresAreExact(order, rows);
    KeptIsExact(f, Failures(rows, order));
  }

  // ---- what the scan limit hides ----

  /** All failed rows, newest first, without any limit. */
  function AllFailures(order: seq<string>, rows: map<string, Row>): seq<Row>
    requires forall i :: 0 <= i < |order| ==> order[i] in rows
  {
    NewestFirst(Matching(order, rows, Failed))
  }

  lemma {:induction false} KeptAppends(f: Filter, a: seq<Row>, b: seq<Row>)
    ensures Kept(f, a + b) == Kept(f, a) + Kept(f, b)
  {
    if b == [] {
      assert a + b == a;
    } else {
      assert (a + b)[..|a + b| - 1] == a + b[..|b| - 1];
      KeptAppends(f, a, b[..|b| - 1]);
    }
  }

  /** The first `limit` elements. */
  lemma TakeIs<T>(xs: seq<T>, limit: int)
    ensures Take(xs, limit) <= xs
    ensures |Take(xs, limit)| == if limit <= 0 then 0 else if limit < |xs| then limit else |xs|
  {
  }

  /** Which rows a filter lets through, by their fields. */
  lemma PassesIff(f: Filter, row: Row)
    ensures Passes(f, row) <==>
              && (f.code.None? || f.code.value == CodeOf(row))
              && (f.stage.None? || f.stage.value == StageOf(CodeOf(row)))
              && (f.since.None? || f.since.value <= row.updatedAt)
  {
  }

  lemma TakeAppends<T>(xs: seq<T>, ys: seq<T>, limit: nat)
    requires limit > 0
    ensures Take(xs, limit) == Take(xs + ys, limit) <==> |xs| >= limit || ys == []
  {
    if |xs| < limit && ys != [] {
      assert |Take(xs, limit)| < |Take(xs + ys, limit)|;
    } else if ys == [] {
      assert xs + ys == xs;
    } else {
      assert Take(xs, limit) == Take(xs + ys, limit);
    }
  }

  /** The scan limit is invisible to a listing if and only if it cuts nothing off, or the limit is
      filled before the cut, or nothing behind the cut would have passed the filter. */
  lemma ListingIsCompleteIff(order: seq<string>, rows: map<string, Row>, f: Filter, limit: nat)
    requires Indexes(order, rows) && limit > 0
    ensures var all := AllFailures(order, rows);
            Found(order, rows, f, limit) == Take(Kept(f, all), limit) <==>
              || |all| <= SCAN_LIMIT
              || |Kept(f, all[..SCAN_LIMIT])| >= limit
              || forall i :: SCAN_LIMIT <= i < |all| ==> !Passes(f, all[i])
  {
    var all := AllFailures(order, rows);
    assert Failures(rows, order) == Take(all, SCAN_LIMIT);
    if |all| > SCAN_LIMIT { CutIff(f, all, SCAN_LIMIT, limit); }
  }

  lemma CutIff(f: Filter, all: seq<Row>, cut: nat, limit: nat)
    requires limit > 0 && cut < |all|
    ensures Take(Kept(f, all[..cut]), limit) == Take(Kept(f, all), limit) <==>
              |Kept(f, all[..cut])| >= limit || forall i :: cut <= i < |all| ==> !Passes(f, all[i])
  {
    var a, b := all[..cut], all[cut..];
    assert all == a + b;
    KeptAppends(f, a, b);
    TakeAppends(Kept(f, a), Kept(f, b), limit);
    NothingKeptIff(f, b);
    assert forall i :: cut <= i < |all| ==> all[i] == b[i - cut];
    assert forall j :: 0 <= j < |b| ==> b[j] == all[j + cut];
  }

  lemma NothingKeptIff(f: Filter, rows: seq<Row>)
    ensures Kept(f, rows) == [] <==> forall i :: 0 <= i < |rows| ==> !Passes(f, rows[i])
  {
    KeptIsExact(f, rows);
    if Kept(f, rows) != [] {
      assert Kept(f, rows)[0] in Kept(f, rows);
    }
    forall i | 0 <= i < |rows| && Passes(f, rows[i]) ensures Kept(f, rows) != [] {
      assert rows[i] in rows && rows[i] in Kept(f, rows);
    }
  }

  /** Failures crowd a code out: if none of the newest `SCAN_LIMIT` has it, the listing is empty
      and a batch requeues nothing, however many older failures do. */
  lemma CrowdedOut(order: seq<string>, rows: map<string, Row>, code: string, limit: int, cap: int)
    requires Indexes(order, rows)
    requires forall x :: x in Failures(rows, order) ==> CodeOf(x) != code
    ensures Found(order, rows, Filter(Some(code), None, None), limit) == []
    ensures Candidates(order, rows, code, limit, cap) == []
  {
    var f := Filter(Some(code), None, None);
    NothingKeptIff(f, Failures(rows, order));
    forall i | 0 <= i < |Failures(rows, order)| ensures !Passes(f, Failures(rows, order)[i]) {
      assert Failures(rows, order)[i] in Failures(rows, order);
    }
  }

  /** A batch without candidates completes without touching a row. */
  lemma NothingToRequeue(rows: map<string, Row>, r: BatchResult, done: nat, end: map<string, Row>)
    requires Accounts(rows, [], [], r, done, end)
    ensures r == Completed([], []) && end == rows
  {
  }

  // ---- an input that is crowded out ----

  /** A document id for each number, in the form the ledger accepts. */
  function NthId(i: nat): string {
    var digits := Decimal(i);
    if |digits| <= 64 then seq(64 - |digits|, j => 'a') + digits else digits
  }

  lemma {:induction false} FewDigits(i: nat, n: nat)
    requires n > 0 && i < Power(n)
    ensures |Decimal(i)| <= n
  {
    if i >= 10 {
      assert n > 1;
      FewDigits(i / 10, n - 1);
    }
  }

  function Power(n: nat): nat { if n == 0 then 1 else 10 * Power(n - 1) }

  lemma FiveDigits(i: nat)
    requires i <= SCAN_LIMIT
    ensures |Decimal(i)| <= 5
  {
    assert Power(1) == 10 && Power(2) == 100 && Power(3) == 1000 && Power(4) == 10000 && Power(5) == 100000;
    FewDigits(i, 5);
  }

  lemma NthIdIsHex(i: nat)
    requires i <= SCAN_LIMIT
    ensures IsHexId(NthId(i))
  {
    FiveDigits(i);
  }

  lemma NthIdIsInjective(i: nat, j: nat)
    requires i <= SCAN_LIMIT && j <= SCAN_LIMIT && NthId(i) == NthId(j)
    ensures i == j
  {
    FiveDigits(i);
    FiveDigits(j);
    var a, b, s, t := Decimal(i), Decimal(j), NthId(i), NthId(j);
    assert s[64 - |a|] == a[0] && t[64 - |b|] == b[0];
    assert |a| == |b|;
    assert a == s[64 - |a|..] && b == t[64 - |b|..];
    DecimalIsInjective(i, j);
  }

  /** The oldest failure has the wanted code, all newer ones another. */
  function NthRow(i: nat, code: string, other: string): Row {
    Row(NthId(i), Failed, Failed, 1, Some(if i == 0 then code else other), None, "", 0, i, None)
  }

  function NthRows(n: nat, code: string, other: string): map<string, Row> {
    if n == 0 then map[] else NthRows(n - 1, code, other)[NthId(n - 1) := NthRow(n - 1, code, other)]
  }

  function NthOrder(n: nat): seq<string> { seq(n, i requires 0 <= i < n => NthId(i)) }

  lemma {:induction false} NthRowsAre(n: nat, code: string, other: string)
    requires n <= SCAN_LIMIT + 1
    ensures forall d :: d in NthRows(n, code, other) <==> d in NthOrder(n)
    ensures forall i :: 0 <= i < n ==> NthId(i) in NthRows(n, code, other) && NthRows(n, code, other)[NthId(i)] == NthRow(i, code, other)
  {
    if n > 0 {
      NthRowsAre(n - 1, code, other);
      forall i | 0 <= i < n - 1 ensures NthId(i) != NthId(n - 1) {
        if NthId(i) == NthId(n - 1) { NthIdIsInjective(i, n - 1); }
      }
      assert NthOrder(n) == NthOrder(n - 1) + [NthId(n - 1)];
    }
  }

  lemma {:induction false} AllMatch(order: seq<string>, rows: map<string, Row>)
    requires forall i :: 0 <= i < |order| ==> order[i] in rows && rows[order[i]].status == Failed
    ensures |Matching(order, rows, Failed)| == |order|
  {
    if order != [] { AllMatch(order[..|order| - 1], rows); }
  }

  lemma NthIndexes(code: string, other: string)
    ensures var n := SCAN_LIMIT + 1; Indexes(NthOrder(n), NthRows(n, code, other)) && HexIds(NthRows(n, code, other))
  {
    var n := SCAN_LIMIT + 1;
    var order, rows := NthOrder(n), NthRows(n, code, other);
    NthRowsAre(n, code, other);
    forall d | d in rows ensures rows[d].docId == d && IsHexId(d) {
      var i :| 0 <= i < n && order[i] == d;
      NthIdIsHex(i);
    }
    forall i, j | 0 <= i < j < |order| ensures order[i] != order[j] {
      if order[i] == order[j] { NthIdIsInjective(i, j); }
    }
  }

  /** The oldest of more than `SCAN_LIMIT` failures is not scanned. */
  lemma OldestIsCut(order: seq<string>, rows: map<string, Row>, oldest: Row)
    requires Indexes(order, rows) && |Matching(order, rows, Failed)| == SCAN_LIMIT + 1
    requires forall x :: x in Matching(order, rows, Failed) && x != oldest ==> x.updatedAt > oldest.updatedAt
    ensures oldest !in Failures(rows, order)
  {
    var m := Matching(order, rows, Failed);
    var all := NewestFirst(m);
    MatchingHasDistinctIds(order, rows, Failed);
    SortKeepsDistinct(m);
    NewestFirstOrders(m);
    assert |multiset(all)| == |multiset(m)|;
    var last := all[SCAN_LIMIT];
    assert last in all && last in m;
    forall p | 0 <= p < SCAN_LIMIT ensures all[p] != oldest {
      assert all[p].docId != last.docId && all[p].updatedAt >= last.updatedAt;
    }
  }

  /** What the scan sees of that ledger: everything but the oldest failure. */
  lemma NthScan(code: string, other: string, x: Row)
    requires var n := SCAN_LIMIT + 1; Indexes(NthOrder(n), NthRows(n, code, other))
    requires var n := SCAN_LIMIT + 1; x in Failures(NthRows(n, code, other), NthOrder(n))
    ensures x.errorCode == Some(other)
  {
    var n := SCAN_LIMIT + 1;
    var order, rows, oldest := NthOrder(n), NthRows(n, code, other), NthRow(0, code, other);
    NthRowsAre(n, code, other);
    AllMatch(order, rows);
    MatchingHasDistinctIds(order, rows, Failed);
    forall y | y in Matching(order, rows, Failed) && y != oldest ensures y.updatedAt > oldest.updatedAt && y.errorCode == Some(other) {
      var i :| 0 <= i < n && order[i] == y.docId;
      assert y == NthRow(i, code, other);
    }
    OldestIsCut(order, rows, oldest);
    ScannedMatch(order, rows, x);
  }

  lemma ScannedMatch(order: seq<string>, rows: map<string, Row>, x: Row)
    requires Indexes(order, rows) && x in Failures(rows, order)
    ensures x in Matching(order, rows, Failed)
  {
    FailuresAreExact(order, rows);
    MatchingHasDistinctIds(order, rows, Failed);
  }

  /** The failing input: a ledger in which one document failed with `code`, yet no listing and no
      batch for that code ever sees it. */
  lemma HiddenFailure(code: string, other: string, limit: int, cap: int)
    requires code != [] && other != [] && code != other
    ensures var n := SCAN_LIMIT + 1;
            var order, rows := NthOrder(n), NthRows(n, code, other);
            && Indexes(order, rows) && HexIds(rows)
            && NthId(0) in rows && rows[NthId(0)].status == Failed && rows[NthId(0)].errorCode == Some(code)
            && Found(order, rows, Filter(Some(code), None, None), limit) == []
            && Candidates(order, rows, code, limit, cap) == []
  {
    var n := SCAN_LIMIT + 1;
    var order, rows := NthOrder(n), NthRows(n, code, other);
    NthIndexes(code, other);
    NthRowsAre(n, code, other);
    forall x | x in Failures(rows, order) ensures CodeOf(x) != code { NthScan(code, other, x); }
    CrowdedOut(order, rows, code, limit, cap);
  }

  /** The same for batches: the candidates are the newest matches of the whole ledger exactly
      under the condition of `ListingIsCompleteIff`. */
  lemma CandidatesAreCompleteIff(order: seq<string>, rows: map<string, Row>, code: string, limit: int, cap: int)
    requires Indexes(order, rows) && limit > 0 && cap > 0
    ensures var all, f, n := AllFailures(order, rows), Filter(Some(code), None, None), if limit < cap then limit else cap;
            Candidates(order, rows, code, limit, cap) == Ids(Take(Kept(f, all), n)) <==>
              || |all| <= SCAN_LIMIT
              || |Kept(f, all[..SCAN_LIMIT])| >= n
              || forall i :: SCAN_LIMIT <= i < |all| ==> !Passes(f, all[i])
  {
    var all, f, n := AllFailures(order, rows), Filter(Some(code), None, None), if limit < cap then limit else cap;
    ListingIsCompleteIff(order, rows, f, n);
    MatchingHasDistinctIds(order, rows, Failed);
    SortKeepsDistinct(Matching(order, rows, Failed));
    KeptIsExact(f, all);
    ListingIsExact(order, rows, f, n);
    SameIdsSameRows(rows, Found(order, rows, f, n), Take(Kept(f, all), n));
  }

  lemma SameIdsSameRows(rows: map<string, Row>, a: seq<Row>, b: seq<Row>)
    requires forall x :: x in a || x in b ==> x.docId in rows && rows[x.docId] == x
    ensures Ids(a) == Ids(b) <==> a == b
  {
    if Ids(a) == Ids(b) {
      assert |a| == |Ids(a)| == |b|;
      forall i | 0 <= i < |a| ensures a[i] == b[i] {
        assert Ids(a)[i] == a[i].docId && Ids(b)[i] == b[i].docId && a[i] in a && b[i] in b;
      }
    }
  }

  // ---- counting ----

  /** The sum of a count map. */
  ghost function Total(m: map<string, nat>): nat {
    if m == map[] then 0
    else
      var k :| k in m;
      m[k] + Total(m - {k})
  }

  lemma {:induction false} TotalSplits(m: map<string, nat>, k: string)
    requires k in m
    ensures Total(m) == m[k] + Total(m - {k})
  {
    var c :| c in m && Total(m) == m[c] + Total(m - {c});
    if c != k {
      TotalSplits(m - {c}, k);
      TotalSplits(m - {k}, c);
      assert m - {c} - {k} == m - {k} - {c};
    }
  }

  function Bump(m: map<string, nat>, k: string): map<string, nat> {
    m[k := if k in m then m[k] + 1 else 1]
  }

  lemma BumpAddsOne(m: map<string, nat>, k: string)
    ensures Total(Bump(m, k)) == Total(m) + 1
  {
    TotalSplits(Bump(m, k), k);
    assert Bump(m, k) - {k} == m - {k};
    if k in m { TotalSplits(m, k); } else { assert m - {k} == m; }
  }

  /** How many rows have the given key. */
  function Tally(key: Row -> string, rows: seq<Row>, k: string): nat {
    if rows == [] then 0
    else Tally(key, rows[..|rows| - 1], k) + (if key(rows[|rows| - 1]) == k then 1 else 0)
  }

  ghost predicate Counts(m: map<string, nat>, key: Row -> string, rows: seq<Row>) {
    && (forall k :: k in m <==> Tally(key, rows, k) > 0)
    && (forall k :: k in m ==> m[k] == Tally(key, rows, k))
    && Total(m) == |rows|
  }

  lemma CountsExtend(m: map<string, nat>, key: Row -> string, rows: seq<Row>, row: Row)
    requires Counts(m, key, rows)
    ensures Counts(Bump(m, key(row)), key, rows + [row])
  {
    assert (rows + [row])[..|rows|] == rows;
    BumpAddsOne(m, key(row));
  }

  datatype Summary = Summary(
    total: nat,
    byErrorCode: map<string, nat>,
    byStage: map<string, nat>,
    oldest: Option<Time>,
    newest: Option<Time>)

  function StageKey(row: Row): string { StageOf(CodeOf(row)) }

  /** What the two maps count by: the code and its stage, and unknown twice for a row without one. */
  lemma CountedBy(row: Row, code: string)
    ensures row.errorCode == Some(code) && code != [] ==> CodeOf(row) == code && StageKey(row) == StageOf(code)
    ensures row.errorCode == None || row.errorCode == Some([]) ==> CodeOf(row) == "UNKNOWN" && StageKey(row) == "unknown"
  {
    forall i | 0 <= i < |STAGE_PREFIXES| ensures !(STAGE_PREFIXES[i].text <= UNKNOWN_CODE) {
      assert STAGE_PREFIXES[i].text[0] != 'U' == UNKNOWN_CODE[0];
    }
    StagesAre("", UNKNOWN_CODE);
  }

  /** Each count map tallies the rows exactly and sums to the total; the two times are the
      extremes. */
  ghost predicate Summarizes(r: Summary, rows: seq<Row>) {
    && r.total == |rows|
    && Counts(r.byErrorCode, CodeOf, rows)
    && Counts(r.byStage, StageKey, rows)
    && (rows == [] <==> r.newest.None?) && (rows == [] <==> r.oldest.None?)
    && (rows != [] ==>
          && (exists i :: 0 <= i < |rows| && rows[i].updatedAt == r.newest.value)
          && (exists i :: 0 <= i < |rows| && rows[i].updatedAt == r.oldest.value))
    && (forall i :: 0 <= i < |rows| ==> r.oldest.value <= rows[i].updatedAt <= r.newest.value)
  }

  function Widened(r: Summary, row: Row): Summary {
    Summary(r.total + 1, Bump(r.byErrorCode, CodeOf(row)), Bump(r.byStage, StageKey(row)),
            if r.oldest.None? || row.updatedAt < r.oldest.value then Some(row.updatedAt) else r.oldest,
            if r.newest.None? || row.updatedAt > r.newest.value then Some(row.updatedAt) else r.newest)
  }

  lemma SummaryExtends(r: Summary, rows: seq<Row>, row: Row)
    requires Summarizes(r, rows)
    ensures Summarizes(Widened(r, row), rows + [row])
  {
    CountsExtend(r.byErrorCode, CodeOf, rows, row);
    CountsExtend(r.byStage, StageKey, rows, row);
    var all := rows + [row];
    assert all[|rows|] == row;
    if rows != [] {
      var i :| 0 <= i < |rows| && rows[i].updatedAt == r.newest.value;
      var j :| 0 <= j < |rows| && rows[j].updatedAt == r.oldest.value;
      assert all[i] == rows[i] && all[j] == rows[j];
    }
  }

  method SummaryOf(rows: seq<Row>) returns (r: Summary)
    ensures Summarizes(r, rows)
  {
    r := Summary(0, map[], map[], None, None);
    for i := 0 to |rows|
      invariant Summarizes(r, rows[..i])
    {
      assert rows[..i + 1] == rows[..i] + [rows[i]];
      SummaryExtends(r, rows[..i], rows[i]);
      r := Widened(r, rows[i]);
    }
    assert rows[..|rows|] == rows;
  }

  // ---- other operators ----

  datatype DocEvent = DocEvent(docId: string, event: Event)

  function Serve(rows: map<string, Row>, e: DocEvent): map<string, Row> {
    if IsHexId(e.docId) && e.docId in rows then rows[e.docId := Step(rows[e.docId], e.event)] else rows
  }

  function ServeAll(rows: map<string, Row>, es: seq<DocEvent>): map<string, Row> {
    if es == [] then rows else Serve(ServeAll(rows, es[..|es| - 1]), es[|es| - 1])
  }

  /** The requests about one document. */
  function About(docId: string, es: seq<DocEvent>): seq<Event> {
    if es == [] then []
    else
      var past := About(docId, es[..|es| - 1]);
      if es[|es| - 1].docId == docId then past + [es[|es| - 1].event] else past
  }

  /** Documents are independent: each row sees exactly its own requests. */
  lemma {:induction false} RowsAreIndependent(rows: map<string, Row>, es: seq<DocEvent>)
    requires HexIds(rows)
    ensures ServeAll(rows, es).Keys == rows.Keys
    ensures forall d :: d in rows ==> ServeAll(rows, es)[d] == Run(rows[d], About(d, es))
  {
    if es != [] {
      var n := |es| - 1;
      RowsAreIndependent(rows, es[..n]);
      forall d | d in rows ensures ServeAll(rows, es)[d] == Run(rows[d], About(d, es)) {
        var past := About(d, es[..n]);
        assert (past + [es[n].event])[..|past|] == past;
      }
    }
  }

  method Others(ledger: InMemoryLedgerStore, es: seq<DocEvent>)
    requires ledger.Valid()
    modifies ledger`rows
    ensures ledger.Valid() && ledger.rows == ServeAll(old(ledger.rows), es)
  {
    for i := 0 to |es|
      invariant ledger.Valid() && ledger.rows == ServeAll(old(ledger.rows), es[..i])
    {
      assert es[..i + 1][..i] == es[..i];
      var _ := ledger.Transition(es[i].docId, es[i].event.req, es[i].event.now);
    }
    assert es[..|es|] == es;
  }

  // ---- requeue ----

  const REQUEUE := Request(Pending, Pending, None, None, None)

  function ArchiveRequest(row: Row, reason: string): Request {
    Request(Archived, Archived, row.errorCode, Some(reason), None)
  }

  lemma RequeueOutcome(row: Row)
    requires row.stage == row.status
    ensures Accepts(row, REQUEUE) <==> row.status in {Pending, Failed, NeedsReview}
    ensures IsBenignLoss(Some(row), Pending, Pending) <==> OnPath(row.status)
  {
  }

  ghost predicate HexIds(rows: map<string, Row>) { forall d {:trigger IsHexId(d)} :: d in rows ==> IsHexId(d) }

  /** A request that follows others on a stored document. */
  lemma Lands(rows: map<string, Row>, es: seq<DocEvent>, docId: string, e: Event)
    requires HexIds(rows) && docId in rows
    ensures IsHexId(docId) && docId in ServeAll(rows, es) && HexIds(ServeAll(rows, es))
    ensures ServeAll(rows, es + [DocEvent(docId, e)])
         == ServeAll(rows, es)[docId := Step(ServeAll(rows, es)[docId], e)]
  {
    RowsAreIndependent(rows, es);
    assert (es + [DocEvent(docId, e)])[..|es|] == es;
  }

  datatype RequeueResult =
    | Requeued(previousCode: string, at: Time)
    | DocNotFound
    | NotFailed
    | LedgerRefused(observed: Option<Row>)

  datatype ArchiveResult = NowArchived | NoSuchDoc | NotFailedNow | ArchiveRefused(observed: Option<Row>)

  /** What other operators do before one requeue call of a batch, and inside it, after its
      check that the document is failed. */
  datatype Turn = Turn(before: seq<DocEvent>, inside: seq<DocEvent>, now: Time)

  datatype Verdict = Requeues | Skips | Aborts

  /** A requeue call that found its document failed ends in an error only if the document was
      archived under its feet. */
  function VerdictOf(rows: map<string, Row>, docId: string, turn: Turn): Verdict {
    var seen := ServeAll(rows, turn.before);
    if docId in seen && seen[docId].status != Failed then Skips
    else
      var met := ServeAll(seen, turn.inside);
      if docId in met && met[docId].status == Archived then Aborts else Requeues
  }

  function OwnRequest(docId: string, turn: Turn): DocEvent { DocEvent(docId, Event(REQUEUE, turn.now)) }

  /** The rows after one turn. */
  function Turned(rows: map<string, Row>, docId: string, turn: Turn): map<string, Row> {
    var seen := ServeAll(rows, turn.before);
    if VerdictOf(rows, docId, turn).Skips? then seen
    else ServeAll(seen, turn.inside + [OwnRequest(docId, turn)])
  }

  /** The rows after the first `n` turns. */
  function After(rows: map<string, Row>, ids: seq<string>, turns: seq<Turn>, n: nat): map<string, Row>
    requires n <= |ids| && n <= |turns|
  {
    if n == 0 then rows else Turned(After(rows, ids, turns, n - 1), ids[n - 1], turns[n - 1])
  }

  /** How the first `n` turns end. */
  function VerdictsTo(rows: map<string, Row>, ids: seq<string>, turns: seq<Turn>, n: nat): (vs: seq<Verdict>)
    requires n <= |turns| == |ids|
    ensures |vs| == n
  {
    if n == 0 then []
    else VerdictsTo(rows, ids, turns, n - 1) + [VerdictOf(After(rows, ids, turns, n - 1), ids[n - 1], turns[n - 1])]
  }

  lemma {:induction false} VerdictOfTurn(rows: map<string, Row>, ids: seq<string>, turns: seq<Turn>, n: nat, i: nat)
    requires i < n <= |turns| == |ids|
    ensures VerdictsTo(rows, ids, turns, n)[i] == VerdictOf(After(rows, ids, turns, i), ids[i], turns[i])
  {
    if i < n - 1 { VerdictOfTurn(rows, ids, turns, n - 1, i); }
  }

  function Verdicts(rows: map<string, Row>, ids: seq<string>, turns: seq<Turn>): (vs: seq<Verdict>)
    requires |turns| == |ids|
    ensures |vs| == |ids|
  {
    VerdictsTo(rows, ids, turns, |ids|)
  }

  /** The first `n` ids whose turn ended with the given verdict, in order. */
  function Pick<T>(ids: seq<T>, vs: seq<Verdict>, v: Verdict, n: nat): seq<T>
    requires n <= |ids| && n <= |vs|
  {
    if n == 0 then []
    else
      var past := Pick(ids, vs, v, n - 1);
      if vs[n - 1] == v then past + [ids[n - 1]] else past
  }

  function Ids(rows: seq<Row>): seq<string> {
    seq(|rows|, i requires 0 <= i < |rows| => rows[i].docId)
  }

  class Operator {
    const ledger: InMemoryLedgerStore
    const maxBatchRequeue: int

    constructor (ledger: InMemoryLedgerStore, maxBatchRequeue: int)
      ensures this.ledger == ledger && this.maxBatchRequeue == maxBatchRequeue
    {
      this.ledger := ledger;
      this.maxBatchRequeue := maxBatchRequeue;
    }

    method MatchingRows(f: Filter, limit: int) returns (r: seq<Row>)
      requires ledger.Valid()
      ensures r == Found(ledger.order, ledger.rows, f, limit)
    {
      if limit <= 0 { return []; }
      var rows := ledger.ListByStatus(Failed, SCAN_LIMIT);
      r := Take(Kept(f, rows), limit);
    }

    /** Distinct documents, newest failure first, each showing its current failed row and passing
        the filter. */
    method ListFailed(classify: string -> string, f: Filter, limit: int) returns (r: seq<FailedItem>)
      requires ledger.Valid()
      ensures |r| == |Found(ledger.order, ledger.rows, f, limit)| && |r| <= (if limit <= 0 then 0 else limit)
      ensures forall i :: 0 <= i < |r| ==> r[i] == ItemOf(classify, Found(ledger.order, ledger.rows, f, limit)[i])
      ensures forall i :: 0 <= i < |r| ==> r[i].docId in ledger.rows && ledger.rows[r[i].docId].status == Failed
      ensures forall i :: 0 <= i < |r| ==>
                && (f.code.Some? ==> r[i].errorCode == f.code.value)
                && (f.stage.Some? ==> r[i].stage == f.stage.value)
                && (f.since.Some? ==> r[i].failedAt >= f.since.value)
      ensures forall i :: 0 <= i < |r| ==> Shows(classify, r[i], ledger.rows[r[i].docId])
      ensures forall i, j :: 0 <= i < j < |r| ==> r[i].docId != r[j].docId && r[i].failedAt >= r[j].failedAt
    {
      ListingIsExact(ledger.order, ledger.rows, f, limit);
      var rows := MatchingRows(f, limit);
      assert forall i :: 0 <= i < |rows| ==> rows[i] in rows;
      r := seq(|rows|, i requires 0 <= i < |rows| => ItemOf(classify, rows[i]));
    }

    /** The summary of the scanned failures; its total is the number of failed documents unless
        there are more than the scan limit. */
    method Summarize() returns (r: Summary)
      requires ledger.Valid()
      ensures Summarizes(r, Failures(ledger.rows, ledger.order))
      ensures var failed := |Matching(ledger.order, ledger.rows, Failed)|;
              r.total == if failed <= SCAN_LIMIT then failed else SCAN_LIMIT
    {
      FailuresAreExact(ledger.order, ledger.rows);
      var rows := ledger.ListByStatus(Failed, SCAN_LIMIT);
      r := SummaryOf(rows);
    }

    /** One requeue call; `inside` is what others do between its check and its write. */
    method Requeue(docId: string, inside: seq<DocEvent>, now: Time) returns (r: RequeueResult)
      requires ledger.Valid() && HexIds(ledger.rows)
      modifies ledger`rows
      ensures ledger.Valid()
      ensures r.DocNotFound? <==> docId !in old(ledger.rows)
      ensures r.NotFailed? <==> docId in old(ledger.rows) && old(ledger.rows)[docId].status != Failed
      ensures r.DocNotFound? || r.NotFailed? ==> ledger.rows == old(ledger.rows)
      ensures r.Requeued? || r.LedgerRefused? ==>
                && ledger.rows == ServeAll(old(ledger.rows), inside + [DocEvent(docId, Event(REQUEUE, now))])
                && docId in ServeAll(old(ledger.rows), inside)
                && (r.LedgerRefused? <==> ServeAll(old(ledger.rows), inside)[docId].status == Archived)
                && (r.LedgerRefused? ==> r.observed == Some(ServeAll(old(ledger.rows), inside)[docId]))
      ensures r.Requeued? ==> r.previousCode == CodeOf(old(ledger.rows)[docId]) && r.at == ledger.rows[docId].updatedAt
    {
      var current := ledger.Get(docId);
      if current.None? { return DocNotFound; }
      if current.value.status != Failed { return NotFailed; }
      var previous := CodeOf(current.value);
      Lands(ledger.rows, inside, docId, Event(REQUEUE, now));
      Others(ledger, inside);
      RequeueOutcome(ledger.rows[docId]);
      var w := ledger.Transition(docId, REQUEUE, now);
      if w.TransitionInvalid? {
        if !IsBenignLoss(w.observed, Pending, Pending) { return LedgerRefused(w.observed); }
        return Requeued(previous, w.observed.value.updatedAt);
      }
      r := Requeued(previous, w.row.updatedAt);
    }
  
    /** Listed once, then requeued one by one. */
    method RequeueByErrorCode(code: string, limit: int, turns: seq<Turn>) returns (r: BatchResult, ghost done: nat)
      requires ledger.Valid() && HexIds(ledger.rows)
      requires |turns| == |Candidates(ledger.order, ledger.rows, code, limit, maxBatchRequeue)|
      modifies ledger`rows
      ensures ledger.Valid() && done <= |turns|
      ensures Accounts(old(ledger.rows), old(Candidates(ledger.order, ledger.rows, code, limit, maxBatchRequeue)),
                       turns, r, done, ledger.rows)
    {
      var effective := if limit < maxBatchRequeue then limit else maxBatchRequeue;
      ListingIsExact(ledger.order, ledger.rows, Filter(Some(code), None, None), effective);
      var candidates := MatchingRows(Filter(Some(code), None, None), effective);
      assert forall i :: 0 <= i < |candidates| ==> candidates[i] in candidates;
      r, done := RequeueAll(Ids(candidates), turns);
    }

    /** A document that has left failed by its turn is skipped; one archived inside its own turn
        stops the batch with an error. */
    method RequeueAll(ids: seq<string>, turns: seq<Turn>) returns (r: BatchResult, ghost done: nat)
      requires ledger.Valid() && HexIds(ledger.rows)
      requires |turns| == |ids| && forall i :: 0 <= i < |ids| ==> ids[i] in ledger.rows
      modifies ledger`rows
      ensures ledger.Valid() && done <= |turns|
      ensures Accounts(old(ledger.rows), ids, turns, r, done, ledger.rows)
    {
      ghost var start := ledger.rows;
      var requeued, skipped := [], [];
      for i := 0 to |ids|
        invariant ledger.Valid() && HexIds(ledger.rows) && ledger.rows.Keys == start.Keys
        invariant SoFar(start, ids, turns, requeued, skipped, i, ledger.rows)
      {
        SoFarExtends(start, ids, turns, requeued, skipped, i, ledger.rows);
        var v := TakeTurn(ids[i], turns[i]);
        if v.Aborts? { return Stopped, i + 1; }
        if v.Skips? { skipped := skipped + [ids[i]]; } else { requeued := requeued + [ids[i]]; }
      }
      return Completed(requeued, skipped), |ids|;
    }

    method TakeTurn(docId: string, turn: Turn) returns (v: Verdict)
      requires ledger.Valid() && HexIds(ledger.rows) && docId in ledger.rows
      modifies ledger`rows
      ensures ledger.Valid() && HexIds(ledger.rows) && ledger.rows.Keys == old(ledger.rows).Keys
      ensures v == VerdictOf(old(ledger.rows), docId, turn) && ledger.rows == Turned(old(ledger.rows), docId, turn)
    {
      TurnServed(ledger.rows, docId, turn);
      Others(ledger, turn.before);
      var one := Requeue(docId, turn.inside, turn.now);
      v := if one.NotFailed? then Skips else if one.LedgerRefused? then Aborts else Requeues;
    }

    /** Archiving keeps the failure's code and records the reason; the row is then final. */
    method Archive(docId: string, reason: string, inside: seq<DocEvent>, now: Time) returns (r: ArchiveResult)
      requires ledger.Valid() && HexIds(ledger.rows)
      modifies ledger`rows
      ensures ledger.Valid()
      ensures r.NoSuchDoc? <==> docId !in old(ledger.rows)
      ensures r.NotFailedNow? <==> docId in old(ledger.rows) && old(ledger.rows)[docId].status != Failed
      ensures r.NoSuchDoc? || r.NotFailedNow? ==> ledger.rows == old(ledger.rows)
      ensures r.NowArchived? || r.ArchiveRefused? ==>
                && docId in ServeAll(old(ledger.rows), inside)
                && ledger.rows == ServeAll(old(ledger.rows),
                     inside + [DocEvent(docId, Event(ArchiveRequest(old(ledger.rows)[docId], reason), now))])
                && (r.NowArchived? <==> ServeAll(old(ledger.rows), inside)[docId].status in {Failed, Archived})
                && (r.NowArchived? <==> ledger.rows[docId].status == Archived)
                && (r.ArchiveRefused? ==> r.observed == Some(ServeAll(old(ledger.rows), inside)[docId]))
      ensures r.NowArchived? && inside == [] ==>
                && ledger.rows[docId].errorCode == old(ledger.rows)[docId].errorCode
                && ledger.rows[docId].errorMessage == Some(reason) && ledger.rows[docId].updatedAt == now
    {
      var current := ledger.Get(docId);
      if current.None? { return NoSuchDoc; }
      if current.value.status != Failed { return NotFailedNow; }
      var req := ArchiveRequest(current.value, reason);
      Lands(ledger.rows, inside, docId, Event(req, now));
      Others(ledger, inside);
      ArchiveOutcome(ledger.rows[docId], current.value, reason);
      var w := ledger.Transition(docId, req, now);
      if w.TransitionInvalid? && !IsBenignLoss(w.observed, Archived, Archived) { return ArchiveRefused(w.observed); }
      r := NowArchived;
    }
  }

  lemma ArchiveOutcome(row: Row, seen: Row, reason: string)
    requires row.stage == row.status
    ensures Accepts(row, ArchiveRequest(seen, reason)) <==> row.status == Failed
    ensures IsBenignLoss(Some(row), Archived, Archived) <==> row.status == Archived
  {
  }

  datatype BatchResult = Completed(requeued: seq<string>, skipped: seq<string>) | Stopped

  function Candidates(order: seq<string>, rows: map<string, Row>, code: string, limit: int, cap: int): seq<string>
    requires forall i :: 0 <= i < |order| ==> order[i] in rows
  {
    Ids(Found(order, rows, Filter(Some(code), None, None), if limit < cap then limit else cap))
  }

  /** A batch's result and final rows, given what others did. */
  ghost predicate Accounts(rows: map<string, Row>, ids: seq<string>, turns: seq<Turn>, r: BatchResult, done: nat,
                           end: map<string, Row>)
    requires |turns| == |ids|
  {
    && done <= |ids|
    && end == After(rows, ids, turns, done)
    && var vs := Verdicts(rows, ids, turns);
       && (r.Completed? ==>
             && done == |ids| && Pick(ids, vs, Aborts, |ids|) == []
             && r.requeued == Pick(ids, vs, Requeues, |ids|)
             && r.skipped == Pick(ids, vs, Skips, |ids|))
       && (r.Stopped? ==> 0 < done && Pick(ids, vs, Aborts, done) == [ids[done - 1]])
  }

  ghost predicate SoFar(rows: map<string, Row>, ids: seq<string>, turns: seq<Turn>, requeued: seq<string>,
                        skipped: seq<string>, i: nat, w: map<string, Row>)
    requires i <= |turns| == |ids|
  {
    && w == After(rows, ids, turns, i)
    && var vs := Verdicts(rows, ids, turns);
       && Pick(ids, vs, Aborts, i) == []
       && requeued == Pick(ids, vs, Requeues, i)
       && skipped == Pick(ids, vs, Skips, i)
  }

  lemma SoFarExtends(rows: map<string, Row>, ids: seq<string>, turns: seq<Turn>, requeued: seq<string>,
                     skipped: seq<string>, i: nat, w: map<string, Row>)
    requires i < |turns| == |ids| && SoFar(rows, ids, turns, requeued, skipped, i, w)
    ensures var w' := Turned(w, ids[i], turns[i]);
            match VerdictOf(w, ids[i], turns[i])
            case Requeues => SoFar(rows, ids, turns, requeued + [ids[i]], skipped, i + 1, w')
            case Skips => SoFar(rows, ids, turns, requeued, skipped + [ids[i]], i + 1, w')
            case Aborts => Accounts(rows, ids, turns, Stopped, i + 1, w')
  {
    VerdictOfTurn(rows, ids, turns, |ids|, i);
  }

  lemma TurnServed(rows: map<string, Row>, docId: string, turn: Turn)
    requires HexIds(rows) && docId in rows
    ensures var seen := ServeAll(rows, turn.before);
            && HexIds(seen) && docId in seen && docId in ServeAll(seen, turn.inside)
            && Turned(rows, docId, turn).Keys == rows.Keys && HexIds(Turned(rows, docId, turn))
  {
    RowsAreIndependent(rows, turn.before);
    var seen := ServeAll(rows, turn.before);
    RowsAreIndependent(seen, turn.inside);
    RowsAreIndependent(seen, turn.inside + [OwnRequest(docId, turn)]);
  }

  // ---- batch accounting ----

  /** Every candidate the batch has dealt with, whatever became of it. */
  ghost function Dealt<T>(ids: seq<T>, vs: seq<Verdict>, n: nat): multiset<T>
    requires n <= |ids| == |vs|
  {
    multiset(Pick(ids, vs, Requeues, n)) + multiset(Pick(ids, vs, Skips, n)) + multiset(Pick(ids, vs, Aborts, n))
  }

  lemma DealtNext<T>(ids: seq<T>, vs: seq<Verdict>, n: nat)
    requires n < |ids| == |vs|
    ensures Dealt(ids, vs, n + 1) == Dealt(ids, vs, n) + multiset{ids[n]}
  {
    var a, b, c := Pick(ids, vs, Requeues, n), Pick(ids, vs, Skips, n), Pick(ids, vs, Aborts, n);
    var a', b', c' := Pick(ids, vs, Requeues, n + 1), Pick(ids, vs, Skips, n + 1), Pick(ids, vs, Aborts, n + 1);
    SplitNext(vs[n], ids[n], a, b, c, a', b', c');
  }

  lemma TakeNext<T>(ids: seq<T>, n: nat)
    requires n < |ids|
    ensures multiset(ids[..n + 1]) == multiset(ids[..n]) + multiset{ids[n]}
  {
    assert ids[..n + 1] == ids[..n] + [ids[n]];
    SnocMultiset(ids[..n], ids[n]);
  }

  /** Every candidate is accounted for exactly once. */
  lemma {:induction false} BatchSplits<T>(ids: seq<T>, vs: seq<Verdict>, n: nat)
    requires n <= |ids| == |vs|
    ensures multiset(ids[..n]) == Dealt(ids, vs, n)
  {
    if n == 0 {
      assert ids[..0] == [];
    } else {
      var m := n - 1;
      BatchSplits(ids, vs, m);
      DealtNext(ids, vs, m);
      TakeNext(ids, m);
      assert m + 1 == n;
    }
  }

  lemma SplitNext<T>(v: Verdict, x: T, a: seq<T>, b: seq<T>, c: seq<T>, a': seq<T>, b': seq<T>, c': seq<T>)
    requires v == Requeues ==> a' == a + [x] && b' == b && c' == c
    requires v == Skips ==> a' == a && b' == b + [x] && c' == c
    requires v == Aborts ==> a' == a && b' == b && c' == c + [x]
    ensures multiset(a') + multiset(b') + multiset(c') == multiset(a) + multiset(b) + multiset(c) + multiset{x}
  {
    AddOne(multiset(a), multiset(b), multiset(c), x);
    match v
    case Requeues => SnocMultiset(a, x);
    case Skips => SnocMultiset(b, x);
    case Aborts => SnocMultiset(c, x);
  }

  lemma SnocMultiset<T>(xs: seq<T>, x: T)
    ensures multiset(xs + [x]) == multiset(xs) + multiset{x}
  {
  }

  lemma AddOne<T>(a: multiset<T>, b: multiset<T>, c: multiset<T>, x: T)
    ensures a + b + c + multiset{x} == (a + multiset{x}) + b + c == a + (b + multiset{x}) + c == a + b + (c + multiset{x})
  {
  }

  ghost predicate OnlyBetween(turns: seq<Turn>) { forall i :: 0 <= i < |turns| ==> turns[i].inside == [] }

  ghost predicate Distinct(ids: seq<string>) { forall i, j :: 0 <= i < j < |ids| ==> ids[i] != ids[j] }

  ghost predicate Stored(ids: seq<string>, rows: map<string, Row>) {
    HexIds(rows) && forall i :: 0 <= i < |ids| ==> ids[i] in rows
  }

  function Reset(row: Row, now: Time): Row {
    row.(status := Pending, stage := Pending, attempts := 0, errorCode := None, errorMessage := None, updatedAt := now)
  }

  /** With others acting only between the requeue calls, no turn fails; a requeued row goes from
      failed to pending with a clean slate, and a turn touches nothing else. */
  lemma TurnIsClean(rows: map<string, Row>, docId: string, turn: Turn)
    requires HexIds(rows) && docId in rows && turn.inside == []
    ensures var seen := ServeAll(rows, turn.before);
            && docId in seen
            && VerdictOf(rows, docId, turn) == (if seen[docId].status == Failed then Requeues else Skips)
            && Turned(rows, docId, turn) ==
                 (if seen[docId].status == Failed then seen[docId := Reset(seen[docId], turn.now)] else seen)
  {
    TurnServed(rows, docId, turn);
    Lands(ServeAll(rows, turn.before), [], docId, Event(REQUEUE, turn.now));
  }

  /** One turn, row by row: others' requests, then the reset if this row is the one requeued. */
  lemma TurnOnRow(rows: map<string, Row>, docId: string, turn: Turn, d: string)
    requires HexIds(rows) && docId in rows && turn.inside == [] && d in rows
    ensures d in Turned(rows, docId, turn)
    ensures var met := Run(rows[d], About(d, turn.before));
            Turned(rows, docId, turn)[d] ==
              if d == docId && VerdictOf(rows, docId, turn) == Requeues then Reset(met, turn.now) else met
  {
    TurnIsClean(rows, docId, turn);
    RowsAreIndependent(rows, turn.before);
  }

  lemma {:induction false} AfterKeepsIds(rows: map<string, Row>, ids: seq<string>, turns: seq<Turn>, n: nat)
    requires n <= |turns| == |ids| && Stored(ids, rows)
    ensures After(rows, ids, turns, n).Keys == rows.Keys && HexIds(After(rows, ids, turns, n))
  {
    if n > 0 {
      AfterKeepsIds(rows, ids, turns, n - 1);
      TurnServed(After(rows, ids, turns, n - 1), ids[n - 1], turns[n - 1]);
    }
  }

  /** What others asked of one document in the turns from `lo` up to `hi`. */
  function OthersOn(turns: seq<Turn>, d: string, lo: nat, hi: nat): seq<Event>
    requires lo <= hi <= |turns|
    decreases hi
  {
    if lo == hi then [] else OthersOn(turns, d, lo, hi - 1) + About(d, turns[hi - 1].before)
  }

  lemma NextOnRow(rows: map<string, Row>, ids: seq<string>, turns: seq<Turn>, d: string, i: nat)
    requires i < |turns| == |ids| && Stored(ids, rows) && OnlyBetween(turns) && d in rows
    ensures d in After(rows, ids, turns, i) && d in After(rows, ids, turns, i + 1)
    ensures var met := Run(After(rows, ids, turns, i)[d], About(d, turns[i].before));
            After(rows, ids, turns, i + 1)[d] ==
              if d == ids[i] && Verdicts(rows, ids, turns)[i] == Requeues then Reset(met, turns[i].now) else met
  {
    AfterKeepsIds(rows, ids, turns, i);
    VerdictOfTurn(rows, ids, turns, |ids|, i);
    TurnOnRow(After(rows, ids, turns, i), ids[i], turns[i], d);
  }

  /** Through turns that do not requeue it, a row sees only what others ask for. */
  lemma {:induction false} UntouchedBetween(rows: map<string, Row>, ids: seq<string>, turns: seq<Turn>, d: string, lo: nat, hi: nat)
    requires lo <= hi <= |turns| == |ids| && Stored(ids, rows) && OnlyBetween(turns) && d in rows
    requires forall j :: lo <= j < hi && ids[j] == d ==> Verdicts(rows, ids, turns)[j] != Requeues
    ensures d in After(rows, ids, turns, lo) && d in After(rows, ids, turns, hi)
    ensures After(rows, ids, turns, hi)[d] == Run(After(rows, ids, turns, lo)[d], OthersOn(turns, d, lo, hi))
    decreases hi
  {
    AfterKeepsIds(rows, ids, turns, lo);
    if lo < hi {
      UntouchedBetween(rows, ids, turns, d, lo, hi - 1);
      NextOnRow(rows, ids, turns, d, hi - 1);
      RunSplits(After(rows, ids, turns, lo)[d], OthersOn(turns, d, lo, hi - 1), About(d, turns[hi - 1].before));
    }
  }

  /** A requeued document: others' requests, one reset at its turn, others' requests again. */
  lemma RequeuedOnce(rows: map<string, Row>, ids: seq<string>, turns: seq<Turn>, i: nat)
    requires i < |turns| == |ids| && Stored(ids, rows) && OnlyBetween(turns) && Distinct(ids)
    requires Verdicts(rows, ids, turns)[i] == Requeues
    ensures var d := ids[i];
            var n := |ids|;
            var met := Run(rows[d], OthersOn(turns, d, 0, i + 1));
            && d in After(rows, ids, turns, n) && met.status == Failed
            && After(rows, ids, turns, n)[d] == Run(Reset(met, turns[i].now), OthersOn(turns, d, i + 1, n))
  {
    var d := ids[i];
    UntouchedBetween(rows, ids, turns, d, 0, i);
    AfterKeepsIds(rows, ids, turns, i);
    VerdictOfTurn(rows, ids, turns, |ids|, i);
    var w := After(rows, ids, turns, i);
    NextOnRow(rows, ids, turns, d, i);
    TurnIsClean(w, d, turns[i]);
    RowsAreIndependent(w, turns[i].before);
    RunSplits(rows[d], OthersOn(turns, d, 0, i), About(d, turns[i].before));
    UntouchedBetween(rows, ids, turns, d, i + 1, |ids|);
  }

  ghost predicate Quiet(rows: map<string, Row>, ids: seq<string>, turns: seq<Turn>) {
    && |turns| == |ids| && HexIds(rows) && Distinct(ids)
    && (forall i :: 0 <= i < |turns| ==> turns[i].before == [] && turns[i].inside == [])
    && (forall i :: 0 <= i < |ids| ==> ids[i] in rows && rows[ids[i]].status == Failed)
  }

  lemma {:induction false} NobodyAsks(turns: seq<Turn>, d: string, lo: nat, hi: nat)
    requires lo <= hi <= |turns| && forall i :: 0 <= i < |turns| ==> turns[i].before == []
    ensures OthersOn(turns, d, lo, hi) == []
    decreases hi
  {
    if lo < hi { NobodyAsks(turns, d, lo, hi - 1); }
  }

  /** Left alone, a batch requeues every candidate it listed, and resets exactly those rows. */
  lemma {:induction false} QuietBatch(rows: map<string, Row>, ids: seq<string>, turns: seq<Turn>, i: nat)
    requires Quiet(rows, ids, turns) && i < |ids|
    ensures Verdicts(rows, ids, turns)[i] == Requeues
    ensures ids[i] in After(rows, ids, turns, |ids|)
    ensures After(rows, ids, turns, |ids|)[ids[i]] == Reset(rows[ids[i]], turns[i].now)
  {
    var d := ids[i];
    UntouchedBetween(rows, ids, turns, d, 0, i);
    AfterKeepsIds(rows, ids, turns, i);
    VerdictOfTurn(rows, ids, turns, |ids|, i);
    NobodyAsks(turns, d, 0, i);
    TurnIsClean(After(rows, ids, turns, i), d, turns[i]);
    RequeuedOnce(rows, ids, turns, i);
    NobodyAsks(turns, d, 0, i + 1);
    NobodyAsks(turns, d, i + 1, |ids|);
  }

  /** The candidates a batch lists: distinct, currently failed with that code, within both caps. */
  lemma CandidatesAreFailed(order: seq<string>, rows: map<string, Row>, code: string, limit: int, cap: int)
    requires Indexes(order, rows)
    ensures var ids := Candidates(order, rows, code, limit, cap);
            && Distinct(ids) && (ids == [] || (|ids| <= limit && |ids| <= cap))
            && forall i :: 0 <= i < |ids| ==> ids[i] in rows && rows[ids[i]].status == Failed && CodeOf(rows[ids[i]]) == code
  {
    var effective := if limit < cap then limit else cap;
    ListingIsExact(order, rows, Filter(Some(code), None, None), effective);
    var found := Found(order, rows, Filter(Some(code), None, None), effective);
    assert forall i :: 0 <= i < |found| ==> found[i] in found;
  }
}
