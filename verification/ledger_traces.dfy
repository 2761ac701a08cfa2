/**
 Ledger rows over whole histories: any sequence of requests, legal or not, from any number
 of workers and operators, in the order the store's lock served them.
 */
module LedgerTraces {
  import opened Options
  import opened Ledger

  datatype Event = Event(req: Request, now: Time)

  function Step(row: Row, e: Event): Row {
    if Accepts(row, e.req) then Updated(row, e.req, e.now) else row
  }

  function Run(row: Row, es: seq<Event>): Row {
    if es == [] then row else Step(Run(row, es[..|es| - 1]), es[|es| - 1])
  }

  lemma {:induction false} RunSplits(row: Row, a: seq<Event>, b: seq<Event>)
    ensures Run(row, a + b) == Run(Run(row, a), b)
  {
    if b == [] {
      assert a + b == a;
    } else {
      var n := |b| - 1;
      assert (a + b)[..|a + b| - 1] == a + b[..n];
      RunSplits(row, a, b[..n]);
    }
  }

  lemma {:induction false} RunKeepsStage(row: Row, es: seq<Event>)
    requires row.stage == row.status
    ensures Run(row, es).stage == Run(row, es).status
  {
    if es != [] { RunKeepsStage(row, es[..|es| - 1]); }
  }

  /** The requests that were accepted, in order. */
  function Accepted(row: Row, es: seq<Event>): seq<Event> {
    if es == [] then []
    else
      var n := |es| - 1;
      Accepted(row, es[..n]) + (if Accepts(Run(row, es[..n]), es[n].req) then [es[n]] else [])
  }

  function Targets(es: seq<Event>): seq<Status> {
    seq(|es|, i requires 0 <= i < |es| => es[i].req.to)
  }

  /** The statuses the row went through, starting with its creation. */
  function Visits(row: Row, es: seq<Event>): seq<Status> {
    [row.status] + Targets(Accepted(row, es))
  }

  /** Other writers' requests on one row, in the order the store's lock serves them. */
  method Interfere(ledger: InMemoryLedgerStore, docId: string, between: seq<Event>)
    requires ledger.Valid() && IsHexId(docId) && docId in ledger.rows
    modifies ledger`rows
    ensures ledger.Valid() && ledger.rows == old(ledger.rows)[docId := Run(old(ledger.rows)[docId], between)]
  {
    for i := 0 to |between|
      invariant ledger.Valid()
      invariant ledger.rows == old(ledger.rows)[docId := Run(old(ledger.rows)[docId], between[..i])]
    {
      assert between[..i + 1][..i] == between[..i];
      var _ := ledger.Transition(docId, between[i].req, between[i].now);
    }
    assert between[..|between|] == between;
  }

  predicate LegalEdge(a: Status, b: Status) {
    b in LegalTargets(a) || (a == b && !Terminal(a))
  }

  ghost predicate LegalPath(h: seq<Status>) {
    |h| > 0 && forall i :: 0 < i < |h| ==> LegalEdge(h[i - 1], h[i])
  }

  // ---- the closed form ----

  /** Where the last run of equal statuses begins. */
  function RunStart(h: seq<Status>): (p: nat)
    requires |h| > 0
    ensures p < |h|
    ensures forall i :: p <= i < |h| ==> h[i] == h[|h| - 1]
    ensures p == 0 || h[p - 1] != h[|h| - 1]
  {
    var n := |h| - 1;
    if n == 0 || h[n - 1] != h[n] then n else RunStart(h[..n])
  }

  /** Length of the trailing run, its first write counted unless it is a creation or a
      requeue; a failure keeps the count of the stage it failed at. */
  function TrailingAttempts(h: seq<Status>): nat
    requires |h| > 0
    decreases |h|
  {
    var n := |h| - 1;
    if h[n] == Failed && n > 0 then TrailingAttempts(h[..n])
    else
      var p := RunStart(h);
      (n - p) + (if p == 0 || (h[p - 1] == Failed && h[n] == Pending) then 0 else 1)
  }

  /** The last scenario any accepted request supplied. */
  function LastSupplied(es: seq<Event>): Option<string> {
    if es == [] then None
    else if es[|es| - 1].req.assignedScenario.Some? then es[|es| - 1].req.assignedScenario
    else LastSupplied(es[..|es| - 1])
  }

  /** The accepted request whose error fields the row carries: the last one of the trailing run
      that supplied a code, or else the one that began the run; none while the row has only ever
      rewritten its creation status without a code. */
  function ErrorSource(acc: seq<Event>, h: seq<Status>): (r: Option<nat>)
    requires |h| == |acc| + 1
    ensures r.Some? ==>
              && r.value < |acc| && (acc[r.value].req.errorCode.Some? || h[r.value] != h[r.value + 1])
              && forall j :: r.value < j < |acc| ==> acc[j].req.errorCode.None? && h[j] == h[j + 1]
    ensures r.None? ==> forall j :: 0 <= j < |acc| ==> acc[j].req.errorCode.None? && h[j] == h[j + 1]
  {
    var n := |acc|;
    if n == 0 then None
    else if acc[n - 1].req.errorCode.Some? || h[n - 1] != h[n] then Some(n - 1)
    else ErrorSource(acc[..n - 1], h[..n])
  }

  function ErrorCodeOf(acc: seq<Event>, h: seq<Status>): Option<string>
    requires |h| == |acc| + 1
  {
    var at := ErrorSource(acc, h);
    if at.None? then None else acc[at.value].req.errorCode
  }

  function ErrorMessageOf(acc: seq<Event>, h: seq<Status>): Option<string>
    requires |h| == |acc| + 1
  {
    var at := ErrorSource(acc, h);
    if at.None? then None else acc[at.value].req.errorMessage
  }

  lemma ErrorsExtend(acc: seq<Event>, h: seq<Status>, e: Event, row: Row)
    requires |h| == |acc| + 1 && row.status == h[|acc|]
    requires row.errorCode == ErrorCodeOf(acc, h) && row.errorMessage == ErrorMessageOf(acc, h)
    ensures var row' := Updated(row, e.req, e.now);
            && row'.errorCode == ErrorCodeOf(acc + [e], h + [e.req.to])
            && row'.errorMessage == ErrorMessageOf(acc + [e], h + [e.req.to])
  {
    assert (acc + [e])[..|acc|] == acc && (h + [e.req.to])[..|h|] == h;
  }

  lemma {:induction false} RunStartExtends(h: seq<Status>, s: Status)
    requires |h| > 0
    ensures RunStart(h + [s]) == if h[|h| - 1] == s then RunStart(h) else |h|
  {
    assert (h + [s])[..|h|] == h;
  }

  lemma AttemptsExtend(h: seq<Status>, s: Status, row: Row)
    requires LegalPath(h) && LegalEdge(h[|h| - 1], s)
    requires row.status == h[|h| - 1] && row.attempts == TrailingAttempts(h)
    ensures TrailingAttempts(h + [s]) == NextAttempts(row, s)
  {
    var h' := h + [s];
    assert h'[..|h|] == h;
    RunStartExtends(h, s);
  }

  /** A row in terms of the accepted requests and the statuses it went through. */
  ghost predicate Described(row: Row, row0: Row, acc: seq<Event>, h: seq<Status>) {
    && LegalPath(h) && |h| == |acc| + 1 && h[0] == row0.status
    && row.status == row.stage == h[|h| - 1]
    && row.docId == row0.docId && row.configVersion == row0.configVersion && row.ingestedAt == row0.ingestedAt
    && row.updatedAt == (if acc == [] then row0.updatedAt else acc[|acc| - 1].now)
    && row.assignedScenario == LastSupplied(acc)
    && row.attempts == TrailingAttempts(h)
    && row.errorCode == ErrorCodeOf(acc, h) && row.errorMessage == ErrorMessageOf(acc, h)
    && (row.status == Failed ==> row.errorCode.Some?)
  }

  lemma DescribedExtends(row: Row, row0: Row, acc: seq<Event>, h: seq<Status>, e: Event)
    requires Described(row, row0, acc, h) && Accepts(row, e.req)
    ensures Described(Updated(row, e.req, e.now), row0, acc + [e], h + [e.req.to])
  {
    assert (acc + [e])[..|acc|] == acc;
    AttemptsExtend(h, e.req.to, row);
    ErrorsExtend(acc, h, e, row);
  }

  /** Every row the store can hold, in terms of the accepted history alone. */
  lemma {:induction false} ClosedForm(docId: string, configVersion: string, at: Time, es: seq<Event>)
    ensures var row0 := NewRow(docId, configVersion, at);
            Described(Run(row0, es), row0, Accepted(row0, es), Visits(row0, es))
    ensures var row := Run(NewRow(docId, configVersion, at), es);
            row.docId == docId && row.configVersion == configVersion && row.ingestedAt == at
    ensures es == [] ==>
              var row := NewRow(docId, configVersion, at);
              && row.status == Pending && row.attempts == 0 && row.updatedAt == at
              && row.errorCode.None? && row.errorMessage.None? && row.assignedScenario.None?
  {
    var row0 := NewRow(docId, configVersion, at);
    if es != [] {
      var n := |es| - 1;
      ClosedForm(docId, configVersion, at, es[..n]);
      var prev := Run(row0, es[..n]);
      var acc := Accepted(row0, es[..n]);
      if Accepts(prev, es[n].req) {
        DescribedExtends(prev, row0, acc, Visits(row0, es[..n]), es[n]);
        assert Targets(acc + [es[n]]) == Targets(acc) + [es[n].req.to];
        assert Visits(row0, es) == Visits(row0, es[..n]) + [es[n].req.to];
      } else {
        assert Accepted(row0, es) == acc;
      }
    }
  }

  /** Requests that were rejected might as well never have been made. */
  lemma {:induction false} RejectedRequestsChangeNothing(row: Row, es: seq<Event>)
    ensures Run(row, Accepted(row, es)) == Run(row, es)
    ensures Accepted(row, Accepted(row, es)) == Accepted(row, es)
  {
    if es != [] {
      var n := |es| - 1;
      RejectedRequestsChangeNothing(row, es[..n]);
      var acc := Accepted(row, es[..n]);
      if Accepts(Run(row, es[..n]), es[n].req) {
        assert (acc + [es[n]])[..|acc|] == acc;
      } else {
        assert Accepted(row, es) == acc;
      }
    }
  }

  /** A row is pending again only from failed or from review, and from both it can be. */
  lemma PendingAgain(docId: string, configVersion: string, at: Time, es: seq<Event>, i: nat)
    requires var h := Visits(NewRow(docId, configVersion, at), es); 0 < i < |h| && h[i] == Pending && h[i - 1] != Pending
    ensures Visits(NewRow(docId, configVersion, at), es)[i - 1] in {Failed, NeedsReview}
  {
    ClosedForm(docId, configVersion, at, es);
    var h := Visits(NewRow(docId, configVersion, at), es);
    assert LegalEdge(h[i - 1], h[i]);
  }

  /** Which rows a request back to pending is accepted on: failed ones too, whoever asks. */
  lemma ReturnsToPendingIff(row: Row, req: Request)
    requires row.stage == row.status && req.to == Pending && req.stage == Pending
    ensures Accepts(row, req) <==> row.status in {Pending, Failed, NeedsReview}
  {
  }

  // ---- triage ----

  function LastPending(h: seq<Status>): (p: nat)
    requires |h| > 0 && h[0] == Pending
    ensures p < |h| && h[p] == Pending
    ensures forall i :: p < i < |h| ==> h[i] != Pending
  {
    var n := |h| - 1;
    if h[n] == Pending then n else LastPending(h[..n])
  }

  /** Did the row reach `s` since it was last pending? */
  ghost predicate VisitedSincePending(h: seq<Status>, s: Status)
    requires |h| > 0 && h[0] == Pending
  {
    exists i :: LastPending(h) <= i < |h| && h[i] == s
  }

  lemma VisitedExtends(h: seq<Status>, next: Status, s: Status)
    requires |h| > 0 && h[0] == Pending
    ensures VisitedSincePending(h + [next], s) <==>
              s == next || (next != Pending && VisitedSincePending(h, s))
  {
    var h' := h + [next];
    assert h'[..|h|] == h;
    if s == next {
      assert h'[|h|] == s;
    } else if next != Pending && VisitedSincePending(h, s) {
      var i :| LastPending(h) <= i < |h| && h[i] == s;
      assert h'[i] == s;
    }
  }

  /** While the row is on the path, what it visited since pending is exactly what lies
      at or before it on the path. */
  lemma {:induction false} PathIsVisitedInOrder(h: seq<Status>, s: Status)
    requires LegalPath(h) && h[0] == Pending && OnPath(s)
    ensures OnPath(h[|h| - 1]) ==>
              (VisitedSincePending(h, s) <==> PathIndex(s) <= PathIndex(h[|h| - 1]))
    ensures h[|h| - 1] == NeedsReview ==> (VisitedSincePending(h, s) <==> s == Pending)
    decreases |h|
  {
    var n := |h| - 1;
    if n == 0 {
      assert h[0] == Pending && LastPending(h) == 0;
    } else {
      assert h == h[..n] + [h[n]];
      assert LegalEdge(h[n - 1], h[n]);
      PathIsVisitedInOrder(h[..n], s);
      VisitedExtends(h[..n], h[n], s);
    }
  }

  /** The triage verdict on a forward target is exact: benign if and only if the row is still
      on the path and really reached that status since it was last pending. */
  lemma TriageIsExact(docId: string, configVersion: string, at: Time, es: seq<Event>, to: Status)
    requires OnPath(to)
    ensures var row0 := NewRow(docId, configVersion, at);
            var row := Run(row0, es);
            && Visits(row0, es)[0] == Pending
            && (IsBenignLoss(Some(row), to, to) <==> OnPath(row.status) && VisitedSincePending(Visits(row0, es), to))
  {
    ClosedForm(docId, configVersion, at, es);
    PathIsVisitedInOrder(Visits(NewRow(docId, configVersion, at), es), to);
  }

  /** The other three targets: a failure is lost only to a completed document, an archive only
      to an archive, and a parking to anything that has left pending without failing. */
  lemma TriageOffPath(row: Row)
    requires row.stage == row.status
    ensures IsBenignLoss(Some(row), Failed, Failed) <==> row.status == Indexed
    ensures IsBenignLoss(Some(row), Archived, Archived) <==> row.status == Archived
    ensures IsBenignLoss(Some(row), NeedsReview, NeedsReview) <==> row.status !in {Pending, Failed}
  {
  }

  /** Nothing is benign about a request or a row that contradicts itself, or a document that is not
      there. */
  lemma TriageNeedsConsistency(observed: Option<Row>, to: Status, stage: Status)
    ensures stage != to || observed.None? || observed.value.status != observed.value.stage ==> !IsBenignLoss(observed, to, stage)
  {
  }

  /** The status a stage leaves for. */
  function ExitOf(stage: Status): Status
    requires stage in {Analyzing, Chunking, Embedding, Indexing}
  {
    match stage
    case Analyzing => Chunking
    case Chunking => Embedding
    case Embedding => Indexing
    case Indexing => Indexed
  }

  lemma {:induction false} StaysBeyond(h: seq<Status>, i: nat, j: nat)
    requires LegalPath(h) && i <= j < |h| && h[i] in {Analyzing, Chunking, Embedding, Indexing}
    requires forall k :: i < k < |h| ==> h[k] != Pending
    ensures h[j] in {Failed, Archived} || (OnPath(h[j]) && PathIndex(h[j]) >= PathIndex(h[i]))
  {
    if i < j {
      StaysBeyond(h, i, j - 1);
      assert LegalEdge(h[j - 1], h[j]);
    }
  }

  /** A worker of a stage the row has entered, however late it is: unless the row went back to
      pending meanwhile, its exit write is accepted, or lost benignly, or the row has failed
      or been archived. */
  lemma StageExitIsSettled(docId: string, configVersion: string, at: Time, es: seq<Event>, i: nat)
    requires var h := Visits(NewRow(docId, configVersion, at), es);
             && i < |h| && h[i] in {Analyzing, Chunking, Embedding, Indexing}
             && forall k :: i < k < |h| ==> h[k] != Pending
    ensures var h := Visits(NewRow(docId, configVersion, at), es);
            var row := Run(NewRow(docId, configVersion, at), es);
            var exit := ExitOf(h[i]);
            || Accepts(row, Request(exit, exit, None, None, None))
            || IsBenignLoss(Some(row), exit, exit)
            || row.status in {Failed, Archived}
  {
    ClosedForm(docId, configVersion, at, es);
    var h := Visits(NewRow(docId, configVersion, at), es);
    StaysBeyond(h, i, |h| - 1);
    ExitSettledOn(Run(NewRow(docId, configVersion, at), es), h[i]);
  }

  /** A late worker's exit write is accepted, lost benignly, or explained by a failed or archived
      row. */
  predicate ExitSettled(row: Row, stage: Status)
    requires stage in {Analyzing, Chunking, Embedding, Indexing}
  {
    var exit := ExitOf(stage);
    || Accepts(row, Request(exit, exit, None, None, None))
    || IsBenignLoss(Some(row), exit, exit)
    || row.status in {Failed, Archived}
  }

  /** Exactly when: the row has failed or been archived, or stands at the stage or beyond it. And a
      stage that the row entered finds its exit unsettled only if the row went back to pending
      since and is behind the stage again. */
  lemma ExitSettledIff(docId: string, configVersion: string, at: Time, es: seq<Event>, stage: Status)
    requires stage in {Analyzing, Chunking, Embedding, Indexing}
    ensures var row := Run(NewRow(docId, configVersion, at), es);
            ExitSettled(row, stage) <==>
              row.status in {Failed, Archived} || (OnPath(row.status) && PathIndex(row.status) >= PathIndex(stage))
    ensures var h := Visits(NewRow(docId, configVersion, at), es);
            var row := Run(NewRow(docId, configVersion, at), es);
            !ExitSettled(row, stage) ==>
              forall i :: 0 <= i < |h| && h[i] == stage ==> exists k :: i < k < |h| && h[k] == Pending
  {
    ClosedForm(docId, configVersion, at, es);
    var h := Visits(NewRow(docId, configVersion, at), es);
    var row := Run(NewRow(docId, configVersion, at), es);
    ExitSettledOn(row, stage);
    if !ExitSettled(row, stage) { BehindAgain(h, stage); }
  }

  lemma ExitSettledOn(row: Row, stage: Status)
    requires row.stage == row.status && stage in {Analyzing, Chunking, Embedding, Indexing}
    ensures ExitSettled(row, stage) <==>
              row.status in {Failed, Archived} || (OnPath(row.status) && PathIndex(row.status) >= PathIndex(stage))
  {
  }

  lemma BehindAgain(h: seq<Status>, stage: Status)
    requires LegalPath(h) && stage in {Analyzing, Chunking, Embedding, Indexing}
    requires var last := h[|h| - 1]; last !in {Failed, Archived} && !(OnPath(last) && PathIndex(last) >= PathIndex(stage))
    ensures forall i :: 0 <= i < |h| && h[i] == stage ==> exists k :: i < k < |h| && h[k] == Pending
  {
    forall i | 0 <= i < |h| && h[i] == stage ensures exists k :: i < k < |h| && h[k] == Pending {
      if forall k :: i < k < |h| ==> h[k] != Pending { StaysBeyond(h, i, |h| - 1); }
    }
  }

  /** Such a straggler exists: after a requeue a straggler's exit write is refused and is
      neither benign nor explained by a failed or archived row. */
  lemma StragglerAfterRequeue(docId: string, configVersion: string, at: Time, code: string)
    ensures var ok := (s: Status) => Event(Request(s, s, None, None, None), at);
            var es := [ok(Analyzing), ok(Chunking), Event(Request(Failed, Failed, Some(code), None, None), at), ok(Pending)];
            var row := Run(NewRow(docId, configVersion, at), es);
            && row.status == Pending
            && !Accepts(row, Request(Embedding, Embedding, None, None, None))
            && !IsBenignLoss(Some(row), Embedding, Embedding)
  {
    var row0 := NewRow(docId, configVersion, at);
    var ok := (s: Status) => Event(Request(s, s, None, None, None), at);
    var fail := Event(Request(Failed, Failed, Some(code), None, None), at);
    var es := [ok(Analyzing), ok(Chunking), fail, ok(Pending)];
    assert es[..3] == [ok(Analyzing), ok(Chunking), fail];
    assert es[..3][..2] == [ok(Analyzing), ok(Chunking)];
    assert es[..3][..2][..1] == [ok(Analyzing)];
    assert Run(row0, es[..3][..2][..1][..0]) == row0;
    assert Run(row0, es[..3][..2][..1]).status == Analyzing;
    assert Run(row0, es[..3][..2]).status == Chunking;
    assert Run(row0, es[..3]).status == Failed;
  }
}
