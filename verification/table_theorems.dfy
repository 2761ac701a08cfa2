/** What callers of the ETag registry may conclude from its effects and its answers. */
module TableTheorems {
  import opened Options
  import opened Entries
  import opened Registry
  import opened Table

  ghost predicate Logged(log: seq<Effect>, id: CallId) {
    exists i :: 0 <= i < |log| && log[i].id == id
  }

  ghost predicate TokenLogged(log: seq<Effect>, token: Option<Token>) {
    exists i :: 0 <= i < |log| && NewToken(log[i].op) == token
  }

  ghost predicate UniqueTokens(calls: map<CallId, Call>) {
    forall i, j :: i in calls && j in calls && i != j && NewToken(calls[i].op).Some? ==>
      NewToken(calls[i].op) != NewToken(calls[j].op)
  }

  /** An answer that claims success is backed by an effect of the very same call. */
  ghost predicate AnswerOk(log: seq<Effect>, id: CallId, call: Call) {
    && (call.phase.Finished? && call.phase.verdict.Answered? && !Logged(log, id) ==>
          call.op.Register? && (call.op.candidate.claimToken.Some? ==>
            call.phase.verdict.entry.claimToken != call.op.candidate.claimToken))
    && (Logged(log, id) ==> call.sent || (call.phase.Finished? && call.phase.verdict.Answered?))
  }

  ghost predicate TokensLogged(rows: map<Key, Row>, log: seq<Effect>) {
    forall k :: k in rows && rows[k].entry.claimToken.Some? ==> TokenLogged(log, rows[k].entry.claimToken)
  }

  ghost predicate ReplyInv(s: State) {
    && UniqueTokens(s.calls)
    && TokensLogged(s.rows, s.log)
    && (forall id :: id in s.calls ==> AnswerOk(s.log, id, s.calls[id]))
  }

  lemma LoggedGrows(log: seq<Effect>, e: Effect)
    ensures forall id: CallId :: Logged(log + [e], id) <==> Logged(log, id) || e.id == id
    ensures forall t: Option<Token> :: TokenLogged(log, t) ==> TokenLogged(log + [e], t)
    ensures TokenLogged(log + [e], NewToken(e.op))
  {
    var log' := log + [e];
    assert log'[|log|] == e;
    forall id: CallId | Logged(log, id) ensures Logged(log', id) {
      var i :| 0 <= i < |log| && log[i].id == id;
      assert log'[i].id == id;
    }
    forall t: Option<Token> | TokenLogged(log, t) ensures TokenLogged(log', t) {
      var i :| 0 <= i < |log| && NewToken(log[i].op) == t;
      assert NewToken(log'[i].op) == t;
    }
  }

  /** Tokens reach a row only through the call that drew them. */
  lemma ServeTokens(home: string -> string, s: State, id: CallId)
    requires Inv(home, s) && ReplyInv(s) && id in s.calls && s.calls[id].request.Some?
    ensures TokensLogged(Serve(s, id).rows, Serve(s, id).log)
  {
    var call, s' := s.calls[id], Serve(s, id);
    if Accepts(s.rows, call.key, call.request.value) {
      LoggedGrows(s.log, Effect(id, call.name, call.op));
      ServedToken(home, s, id);
      forall k | k in s'.rows && s'.rows[k].entry.claimToken.Some? ensures TokenLogged(s'.log, s'.rows[k].entry.claimToken) {
        if k != call.key { assert TokenLogged(s.log, s.rows[k].entry.claimToken); }
      }
    }
  }

  lemma ServedToken(home: string -> string, s: State, id: CallId)
    requires Inv(home, s) && ReplyInv(s) && id in s.calls && s.calls[id].request.Some?
    requires Accepts(s.rows, s.calls[id].key, s.calls[id].request.value)
    ensures var token := s.calls[id].request.value.entry.claimToken;
            token.None? || token == NewToken(s.calls[id].op) || TokenLogged(s.log, token)
  {
    var call := s.calls[id];
    assert CallOk(home, s, call);
    if call.request.value.Replace? {
      assert RowOk(home, s, call.key);
    }
  }

  /** The effect of one delivery on the other calls' answers. */
  lemma ServeAnswers(s: State, id: CallId, i: CallId)
    requires ReplyInv(s) && id in s.calls && s.calls[id].request.Some? && i in s.calls
    ensures i != id || s.calls[id].sent ==> AnswerOk(Serve(s, id).log, i, s.calls[i])
  {
    var call := s.calls[id];
    assert AnswerOk(s.log, i, s.calls[i]);
    LoggedGrows(s.log, Effect(id, call.name, call.op));
  }

  /** Changing one call's phase changes no other answer. */
  lemma PhaseAnswers(s: State, id: CallId, call: Call)
    requires UniqueTokens(s.calls) && TokensLogged(s.rows, s.log)
    requires forall i :: i in s.calls && i != id ==> AnswerOk(s.log, i, s.calls[i])
    requires id in s.calls && call.op == s.calls[id].op && AnswerOk(s.log, id, call)
    ensures ReplyInv(s.(calls := s.calls[id := call]))
  {
  }

  lemma AttemptAnswers(home: string -> string, max: nat, s: State, id: CallId)
    requires Inv(home, s) && ReplyInv(s) && Enabled(max, s, Attempt(id))
    ensures ReplyInv(Next(max, s, Attempt(id)))
  {
    var t, s' := Serve(s, id), Next(max, s, Attempt(id));
    var call := s.calls[id];
    ServeTokens(home, s, id);
    forall i | i in t.calls && i != id ensures AnswerOk(t.log, i, t.calls[i]) {
      ServeAnswers(s, id, i);
    }
    assert CallOk(home, s, call) && AnswerOk(s.log, id, call);
    LoggedGrows(s.log, Effect(id, call.name, call.op));
    PhaseAnswers(t, id, s'.calls[id]);
  }

  lemma LateAnswers(home: string -> string, max: nat, s: State, id: CallId)
    requires Inv(home, s) && ReplyInv(s) && Enabled(max, s, LandLate(id))
    ensures ReplyInv(Next(max, s, LandLate(id)))
  {
    ServeTokens(home, s, id);
    forall i | i in s.calls ensures AnswerOk(Serve(s, id).log, i, s.calls[i]) {
      ServeAnswers(s, id, i);
    }
  }

  /** A token found in a row under this call's own name was put there by this call. */
  lemma OwnToken(home: string -> string, s: State, id: CallId, k: Key)
    requires Inv(home, s) && ReplyInv(s) && id in s.calls && k in s.rows
    requires NewToken(s.calls[id].op).Some? && s.rows[k].entry.claimToken == NewToken(s.calls[id].op)
    ensures Logged(s.log, id)
  {
    assert TokenLogged(s.log, s.rows[k].entry.claimToken);
    var i :| 0 <= i < |s.log| && NewToken(s.log[i].op) == s.rows[k].entry.claimToken;
    assert s.calls[s.log[i].id].op == s.log[i].op;
    assert s.log[i].id == id;
  }

  lemma RereadAnswers(home: string -> string, max: nat, s: State, id: CallId)
    requires Inv(home, s) && ReplyInv(s) && Enabled(max, s, Reread(id))
    ensures ReplyInv(Next(max, s, Reread(id)))
  {
    var call := s.calls[id];
    assert CallOk(home, s, call) && AnswerOk(s.log, id, call);
    if call.key in s.rows && call.op.candidate.claimToken.Some?
       && s.rows[call.key].entry.claimToken == call.op.candidate.claimToken {
      OwnToken(home, s, id, call.key);
    }
    PhaseAnswers(s, id, Next(max, s, Reread(id)).calls[id]);
  }

  lemma QuietAnswers(home: string -> string, max: nat, s: State, a: Action)
    requires Inv(home, s) && ReplyInv(s) && Enabled(max, s, a)
    requires a.ReadRow? || a.TimeOut? || a.ReadDown?
    ensures ReplyInv(Next(max, s, a))
  {
    assert AnswerOk(s.log, a.id, s.calls[a.id]) && CallOk(home, s, s.calls[a.id]);
    PhaseAnswers(s, a.id, Next(max, s, a).calls[a.id]);
  }

  lemma InvokeAnswers(home: string -> string, max: nat, s: State, a: Action)
    requires Inv(home, s) && ReplyInv(s) && Enabled(max, s, a) && a.Invoke?
    ensures ReplyInv(Next(max, s, a))
  {
    assert !Logged(s.log, a.id);
    var s' := Next(max, s, a);
    forall i | i in s'.calls && i != a.id ensures AnswerOk(s'.log, i, s'.calls[i]) {
      assert AnswerOk(s.log, i, s.calls[i]);
    }
  }

  lemma StepAnswers(home: string -> string, max: nat, s: State, a: Action)
    requires Inv(home, s) && ReplyInv(s) && Enabled(max, s, a)
    ensures ReplyInv(Next(max, s, a))
  {
    match a
    case Attempt(id) => AttemptAnswers(home, max, s, id);
    case LandLate(id) => LateAnswers(home, max, s, id);
    case Reread(id) => RereadAnswers(home, max, s, id);
    case Invoke(_, _, _) => InvokeAnswers(home, max, s, a);
    case _ => QuietAnswers(home, max, s, a);
  }

  lemma {:induction false} AnswersHold(home: string -> string, max: nat, s: State, run: seq<Action>)
    requires Inv(home, s) && ReplyInv(s) && Legal(max, s, run) && HomedRun(home, run)
    ensures Inv(home, Execute(max, s, run)) && ReplyInv(Execute(max, s, run))
    decreases |run|
  {
    if run != [] {
      Step(home, max, s, run[0]);
      StepAnswers(home, max, s, run[0]);
      AnswersHold(home, max, Next(max, s, run[0]), run[1..]);
    }
  }

  /** Over every run, with timeouts, retries and late deliveries: the rows are what the
      lock-based registry would hold after the logged calls, in that order; each call takes
      effect at most once and exactly as it was invoked; a success answer is backed by the
      caller's own effect; and a caller that saw no timeout is never told less than happened. */
  lemma RefinesLockBasedRegistry(home: string -> string, max: nat, s0: State, run: seq<Action>)
    requires Initial(s0) && Legal(max, s0, run) && HomedRun(home, run)
    ensures var s := Execute(max, s0, run);
            && (forall n: string :: Lookup(Replay(s.log), n) == EntryAt(s.rows, (home(n), n)))
            && (forall k :: k in s.rows ==> k.0 == home(k.1))
            && (forall i :: 0 <= i < |s.log| ==>
                  s.log[i].id in s.calls && s.calls[s.log[i].id].op == s.log[i].op
                  && s.calls[s.log[i].id].name == s.log[i].name)
            && (forall i, j :: 0 <= i < j < |s.log| ==> s.log[i].id != s.log[j].id)
            && (forall id :: id in s.calls && s.calls[id].phase.Finished? ==>
                  && (s.calls[id].phase.verdict.Answered? && !s.calls[id].op.Register? ==> Logged(s.log, id))
                  && (!s.calls[id].phase.verdict.Answered? && !s.calls[id].sent ==> !Logged(s.log, id)))
  {
    AnswersHold(home, max, s0, run);
    var s := Execute(max, s0, run);
    forall k | k in s.rows ensures k.0 == home(k.1) { assert RowOk(home, s, k); }
    forall id | id in s.calls && s.calls[id].phase.Finished?
      ensures s.calls[id].phase.verdict.Answered? && !s.calls[id].op.Register? ==> Logged(s.log, id)
      ensures !s.calls[id].phase.verdict.Answered? && !s.calls[id].sent ==> !Logged(s.log, id)
    {
      assert AnswerOk(s.log, id, s.calls[id]);
    }
  }

  /** A request that takes effect is, on any registry showing the same entries, the call itself. */
  lemma EffectSimulates(home: string -> string, s: State, id: CallId, abs: map<string, Entry>)
    requires Inv(home, s) && id in s.calls && s.calls[id].request.Some?
    requires Accepts(s.rows, s.calls[id].key, s.calls[id].request.value)
    requires forall n: string :: Lookup(abs, n) == EntryAt(s.rows, (home(n), n))
    ensures var call := s.calls[id];
            forall n: string ::
              Lookup(PerformOn(abs, call.name, call.op), n) == EntryAt(Serve(s, id).rows, (home(n), n))
  {
    var call := s.calls[id];
    assert CallOk(home, s, call);
    AcceptedMeansUntouched(home, s, id);
    assert Lookup(abs, call.name) == EntryAt(s.rows, call.key) == Lookup(Replay(s.log), call.name);
    var abs' := PerformOn(abs, call.name, call.op);
    assert abs' == abs[call.name := call.request.value.entry];
    forall n: string ensures Lookup(abs', n) == EntryAt(Serve(s, id).rows, (home(n), n)) {
      assert Lookup(abs, n) == EntryAt(s.rows, (home(n), n));
    }
  }

  /** One step of the table is one step, or no step, of the lock-based registry. */
  lemma StepSimulates(home: string -> string, max: nat, s: State, a: Action, abs: map<string, Entry>)
    requires Inv(home, s) && Enabled(max, s, a)
    requires forall n: string :: Lookup(abs, n) == EntryAt(s.rows, (home(n), n))
    ensures var s' := Next(max, s, a);
            || (s'.rows == s.rows && s'.log == s.log)
            || (&& a.id in s.calls && s'.log == s.log + [Effect(a.id, s.calls[a.id].name, s.calls[a.id].op)]
                && forall n: string ::
                     Lookup(PerformOn(abs, s.calls[a.id].name, s.calls[a.id].op), n) == EntryAt(s'.rows, (home(n), n)))
  {
    if (a.Attempt? || a.LandLate?) && Accepts(s.rows, s.calls[a.id].key, s.calls[a.id].request.value) {
      EffectSimulates(home, s, a.id, abs);
      assert Next(max, s, a).rows == Serve(s, a.id).rows;
    }
  }

  /** A registration answered with the caller's own token really is the caller's insert. */
  lemma OwnTokenMeansOwnInsert(home: string -> string, max: nat, s0: State, run: seq<Action>, id: CallId)
    requires Initial(s0) && Legal(max, s0, run) && HomedRun(home, run)
    requires var s := Execute(max, s0, run);
             && id in s.calls && s.calls[id].op.Register? && s.calls[id].phase.Finished?
             && s.calls[id].phase.verdict.Answered? && s.calls[id].op.candidate.claimToken.Some?
             && s.calls[id].phase.verdict.entry.claimToken == s.calls[id].op.candidate.claimToken
    ensures Logged(Execute(max, s0, run).log, id)
  {
    AnswersHold(home, max, s0, run);
    var s := Execute(max, s0, run);
    assert AnswerOk(s.log, id, s.calls[id]);
  }

  lemma {:induction false} ReplayUntouched(log: seq<Effect>, name: string, i: nat)
    requires i < |log| && log[i].name == name
    requires forall j :: 0 <= j < |log| && j != i ==> log[j].name != name
    ensures Lookup(Replay(log), name) == Written(None, log[i].op)
  {
    var n := |log| - 1;
    if i == n {
      ReplayAbsent(log[..n], name);
    } else {
      ReplayUntouched(log[..n], name, i);
    }
  }

  lemma {:induction false} ReplayAbsent(log: seq<Effect>, name: string)
    requires forall j :: 0 <= j < |log| ==> log[j].name != name
    ensures Lookup(Replay(log), name) == None
  {
    if log != [] { ReplayAbsent(log[..|log| - 1], name); }
  }

  /** A registration whose timed-out attempt landed is retried into a 409; while nobody has
      superseded it, reading the row back gives the caller its own entry. */
  lemma RetriedInsertFindsItself(home: string -> string, max: nat, s: State, id: CallId)
    requires Inv(home, s) && Enabled(max, s, Reread(id)) && Logged(s.log, id)
    requires forall i :: 0 <= i < |s.log| && s.log[i].name == s.calls[id].name ==> s.log[i].id == id
    ensures Next(max, s, Reread(id)).calls[id].phase == Finished(Answered(s.calls[id].op.candidate))
  {
    var call := s.calls[id];
    assert CallOk(home, s, call);
    var i :| 0 <= i < |s.log| && s.log[i].id == id;
    ReplayUntouched(s.log, call.name, i);
    assert Lookup(Replay(s.log), call.name) == EntryAt(s.rows, call.key);
  }

  predicate EndsAs(s: State, id: CallId, verdict: Verdict) {
    id in s.calls && s.calls[id].phase == Finished(verdict)
  }

  /** The other side of an ambiguous timeout. Every replace that the table would accept can
      land through its timed-out first attempt and still be reported as refused, because the
      retry carries the old ETag: a reclaimer may then own a claim it believes it lost. */
  lemma LandedYetRefused(home: string -> string, max: nat, s: State, id: CallId)
    requires Inv(home, s) && Enabled(max, s, Attempt(id)) && !s.calls[id].op.Register?
    requires Accepts(s.rows, s.calls[id].key, s.calls[id].request.value)
    requires s.calls[id].phase.attempts + 1 < max
    ensures var run := [TimeOut(id), LandLate(id), Attempt(id)];
            && Legal(max, s, run)
            && EndsAs(Execute(max, s, run), id, Refused)
            && Execute(max, s, run).log == s.log + [Effect(id, s.calls[id].name, s.calls[id].op)]
  {
    assert CallOk(home, s, s.calls[id]);
    var s1 := Next(max, s, TimeOut(id));
    var s2 := Next(max, s1, LandLate(id));
    var s3 := Next(max, s2, Attempt(id));
    Prepend(max, s2, Attempt(id), []);
    Prepend(max, s1, LandLate(id), [Attempt(id)]);
    Prepend(max, s, TimeOut(id), [LandLate(id), Attempt(id)]);
    assert [TimeOut(id)] + [LandLate(id), Attempt(id)] == [TimeOut(id), LandLate(id), Attempt(id)];
    assert [LandLate(id)] + [Attempt(id)] == [LandLate(id), Attempt(id)] && [Attempt(id)] + [] == [Attempt(id)];
    assert Execute(max, s, [TimeOut(id), LandLate(id), Attempt(id)]) == s3;
  }

  /** Why the vertical must follow from the name: two callers of one name in two verticals
      both insert, where the lock-based registry would hand the second the first's entry. */
  lemma TwoVerticalsBothWin(max: nat, a: Entry, b: Entry)
    requires a.indexName == b.indexName && a.vertical != b.vertical
    requires a.claimToken != b.claimToken
    ensures var run := [Invoke(0, a.indexName, Register(a)), Attempt(0), Invoke(1, a.indexName, Register(b)), Attempt(1)];
            var s0 := State(map[], [], map[], []);
            && Legal(max, s0, run)
            && EndsAs(Execute(max, s0, run), 0, Answered(a))
            && EndsAs(Execute(max, s0, run), 1, Answered(b))
            && Perform(Some(a), Register(b)).1 == Returned(a)
  {
    var s0 := State(map[], [], map[], []);
    var i0, a0, i1, a1 := Invoke(0, a.indexName, Register(a)), Attempt(0), Invoke(1, a.indexName, Register(b)), Attempt(1);
    InsertWins(max, s0, 0, a);
    var s1 := Next(max, s0, i0);
    var s2 := Next(max, s1, a0);
    InsertWins(max, s2, 1, b);
    var s3 := Next(max, s2, i1);
    FourSteps(max, s0, i0, a0, i1, a1, s1, s2, s3);
  }

  lemma FourSteps(max: nat, s: State, a: Action, b: Action, c: Action, d: Action, s1: State, s2: State, s3: State)
    requires Enabled(max, s, a) && s1 == Next(max, s, a) && Enabled(max, s1, b) && s2 == Next(max, s1, b)
    requires Enabled(max, s2, c) && s3 == Next(max, s2, c) && Enabled(max, s3, d)
    ensures Legal(max, s, [a, b, c, d]) && Execute(max, s, [a, b, c, d]) == Next(max, s3, d)
  {
    Prepend(max, s3, d, []);
    Prepend(max, s2, c, [d]);
    Prepend(max, s1, b, [c, d]);
    Prepend(max, s, a, [b, c, d]);
    assert [a] + [b, c, d] == [a, b, c, d] && [b] + [c, d] == [b, c, d] && [c] + [d] == [c, d] && [d] + [] == [d];
  }

  lemma Prepend(max: nat, s: State, a: Action, run: seq<Action>)
    requires Enabled(max, s, a) && Legal(max, Next(max, s, a), run)
    ensures Legal(max, s, [a] + run) && Execute(max, s, [a] + run) == Execute(max, Next(max, s, a), run)
  {
    assert ([a] + run)[0] == a && ([a] + run)[1..] == run;
  }

  /** An insert into an empty slot of the table succeeds. */
  lemma InsertWins(max: nat, s: State, id: CallId, e: Entry)
    requires (e.vertical, e.indexName) !in s.rows && Enabled(max, s, Invoke(id, e.indexName, Register(e)))
    ensures var s1 := Next(max, s, Invoke(id, e.indexName, Register(e)));
            && Enabled(max, s1, Attempt(id))
            && var s2 := Next(max, s1, Attempt(id));
               && EndsAs(s2, id, Answered(e))
               && s2.calls - {id} == s.calls && s2.calls.Keys == s.calls.Keys + {id}
               && (forall i :: i in s.calls ==> s2.calls[i] == s.calls[i])
               && s2.rows == s.rows[(e.vertical, e.indexName) := Row(e, |s.stamped|)]
               && s2.calls[id].op == Register(e)
  {
  }

  // ---- when a refusal can be believed ----

  /** In every run, a replacing call that was told it was refused took no effect. */
  ghost predicate RefusalsAreTrue(home: string -> string, max: nat) {
    forall s0, run, id :: (Initial(s0) && Legal(max, s0, run) && HomedRun(home, run)) ==>
      BelievesTruth(Execute(max, s0, run), id)
  }

  ghost predicate BelievesTruth(s: State, id: CallId) {
    id in s.calls && !s.calls[id].op.Register? && s.calls[id].phase == Finished(Refused) ==> !Logged(s.log, id)
  }

  /** Without a second attempt nobody is refused after a timeout. */
  ghost predicate NoRetries(s: State) {
    forall id :: id in s.calls ==>
      && (s.calls[id].phase.Reading? || s.calls[id].phase.Writing? ==> !s.calls[id].sent)
      && (s.calls[id].phase == Finished(Refused) && !s.calls[id].op.Register? ==> !s.calls[id].sent)
      && (s.calls[id].phase.Rereading? ==> s.calls[id].op.Register?)
  }

  lemma NoRetriesStep(max: nat, s: State, a: Action)
    requires max <= 1 && NoRetries(s) && Enabled(max, s, a)
    ensures NoRetries(Next(max, s, a))
  {
  }

  lemma {:induction false} NoRetriesHolds(max: nat, s: State, run: seq<Action>)
    requires max <= 1 && NoRetries(s) && Legal(max, s, run)
    ensures NoRetries(Execute(max, s, run))
    decreases |run|
  {
    if run != [] {
      NoRetriesStep(max, s, run[0]);
      NoRetriesHolds(max, Next(max, s, run[0]), run[1..]);
    }
  }

  lemma {:induction false} Join(max: nat, s: State, first: seq<Action>, second: seq<Action>)
    requires Legal(max, s, first) && Legal(max, Execute(max, s, first), second)
    ensures Legal(max, s, first + second) && Execute(max, s, first + second) == Execute(max, Execute(max, s, first), second)
    decreases |first|
  {
    if first == [] {
      assert first + second == second;
    } else {
      Join(max, Next(max, s, first[0]), first[1..], second);
      assert (first + second)[0] == first[0] && (first + second)[1..] == first[1..] + second;
    }
  }

  /** A touch of a stored entry reads the row and is on its way to the table. */
  lemma TouchIsSent(max: nat, s: State, key: Key, id: CallId)
    requires key in s.rows && id !in s.calls
    ensures var i1 := Invoke(id, key.1, Touch(0));
            var r1 := ReadRow(id, Some(key));
            && Enabled(max, s, i1) && Enabled(max, Next(max, s, i1), r1)
            && var s' := Next(max, Next(max, s, i1), r1);
               && Enabled(max, s', Attempt(id)) && s'.calls[id].op == Touch(0) && s'.calls[id].phase.attempts == 0
               && (s.rows[key].entry.vertical == key.0 ==> Accepts(s'.rows, s'.calls[id].key, s'.calls[id].request.value))
  {
  }

  lemma TouchOnItsWay(home: string -> string, max: nat, e: Entry) returns (run: seq<Action>)
    requires home(e.indexName) == e.vertical
    ensures var s0 := State(map[], [], map[], []);
            && Legal(max, s0, run) && HomedRun(home, run)
            && var s := Execute(max, s0, run);
               && Inv(home, s) && Enabled(max, s, Attempt(1)) && s.calls[1].op == Touch(0)
               && Accepts(s.rows, s.calls[1].key, s.calls[1].request.value) && s.calls[1].phase.attempts == 0
  {
    var s0, key := State(map[], [], map[], []), (e.vertical, e.indexName);
    var i0, a0 := Invoke(0, e.indexName, Register(e)), Attempt(0);
    var i1, r1 := Invoke(1, e.indexName, Touch(0)), ReadRow(1, Some(key));
    InsertWins(max, s0, 0, e);
    var s1 := Next(max, s0, i0);
    var s2 := Next(max, s1, a0);
    TouchIsSent(max, s2, key, 1);
    FourSteps(max, s0, i0, a0, i1, r1, s1, s2, Next(max, s2, i1));
    run := [i0, a0, i1, r1];
    FromNothing(home, max, run);
  }

  lemma FromNothing(home: string -> string, max: nat, run: seq<Action>)
    requires Legal(max, State(map[], [], map[], []), run) && HomedRun(home, run)
    ensures Inv(home, Execute(max, State(map[], [], map[], []), run))
  {
    Reaches(home, max, State(map[], [], map[], []), run);
  }

  /** The table's refusals can be believed if and only if it never retries. */
  lemma RefusalsAreTrueIff(home: string -> string, max: nat, e: Entry)
    requires home(e.indexName) == e.vertical
    ensures RefusalsAreTrue(home, max) <==> max <= 1
  {
    if max <= 1 {
      forall s0, run, id | Initial(s0) && Legal(max, s0, run) && HomedRun(home, run)
        ensures BelievesTruth(Execute(max, s0, run), id)
      {
        NoRetriesHolds(max, s0, run);
        AnswersHold(home, max, s0, run);
        var s := Execute(max, s0, run);
        if id in s.calls { assert AnswerOk(s.log, id, s.calls[id]); }
      }
    } else {
      var run := RefusedYetLanded(home, max, e);
      var s0 := State(map[], [], map[], []);
      assert Initial(s0) && !BelievesTruth(Execute(max, s0, run), 1);
    }
  }

  lemma RefusedYetLanded(home: string -> string, max: nat, e: Entry) returns (run: seq<Action>)
    requires home(e.indexName) == e.vertical && max > 1
    ensures var s0 := State(map[], [], map[], []);
            Legal(max, s0, run) && HomedRun(home, run) && !BelievesTruth(Execute(max, s0, run), 1)
  {
    var s0 := State(map[], [], map[], []);
    var first := TouchOnItsWay(home, max, e);
    var s := Execute(max, s0, first);
    var second := Deceived(home, max, s, 1);
    Join(max, s0, first, second);
    run := first + second;
  }

  lemma Deceived(home: string -> string, max: nat, s: State, id: CallId) returns (run: seq<Action>)
    requires Inv(home, s) && Enabled(max, s, Attempt(id)) && !s.calls[id].op.Register?
    requires Accepts(s.rows, s.calls[id].key, s.calls[id].request.value)
    requires s.calls[id].phase.attempts + 1 < max
    ensures Legal(max, s, run) && HomedRun(home, run) && !BelievesTruth(Execute(max, s, run), id)
  {
    run := [TimeOut(id), LandLate(id), Attempt(id)];
    LandedYetRefused(home, max, s, id);
    LateCallKept(max, s, run, id);
    assert Execute(max, s, run).log[|s.log|].id == id;
  }

  /** No step changes which operation a call is. */
  lemma {:induction false} LateCallKept(max: nat, s: State, run: seq<Action>, id: CallId)
    requires Legal(max, s, run) && id in s.calls
    ensures id in Execute(max, s, run).calls && Execute(max, s, run).calls[id].op == s.calls[id].op
    decreases |run|
  {
    if run != [] { LateCallKept(max, Next(max, s, run[0]), run[1..], id); }
  }
}
