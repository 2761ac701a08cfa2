/** What one call of the table registry tells its caller, and what it comes to when nobody interferes. */
module TableCalls {
  import opened Options
  import opened Entries
  import opened Registry
  import opened Table

  /** When a call ends as unavailable, refused or answered, over all steps. */
  lemma VerdictMeans(max: nat, s: State, a: Action, id: CallId)
    requires Enabled(max, s, a) && id in s.calls && !s.calls[id].phase.Finished? && Next(max, s, a).calls[id].phase.Finished?
    ensures var call, v := s.calls[id], Next(max, s, a).calls[id].phase.verdict;
            && a.id == id
            && (v.Unavailable? <==> a.ReadDown? || (a.TimeOut? && call.phase.attempts + 1 >= max))
            && (v.Refused? <==>
                  || (a.ReadRow? && (a.found.None? || Written(Some(s.rows[a.found.value].entry), call.op).None?))
                  || (a.Attempt? && !call.op.Register? && !Accepts(s.rows, call.key, call.request.value))
                  || (a.Reread? && call.key !in s.rows))
            && (v.Answered? <==>
                  || (a.Attempt? && Accepts(s.rows, call.key, call.request.value))
                  || (a.Reread? && call.key in s.rows))
            && (v.Answered? ==> call.key in Next(max, s, a).rows && v.entry == Next(max, s, a).rows[call.key].entry)
  {
  }

  /** The verdict that stands for a reply of the lock-based registry. */
  function VerdictOf(r: Reply): Verdict {
    match r
    case Returned(e) => Answered(e)
    case Conflict => Refused
  }

  /** The call has ended as a call of the lock-based registry would have: the same reply, the same
      entry under the name, every other row as it was. */
  ghost predicate EndsLike(home: string -> string, s: State, s': State, id: CallId, name: string, op: Op) {
    var (cell, reply) := Perform(Lookup(Replay(s.log), name), op);
    && id in s'.calls && s'.calls[id].phase == Finished(VerdictOf(reply))
    && EntryAt(s'.rows, (home(name), name)) == cell
    && forall k :: k != (home(name), name) ==> EntryAt(s'.rows, k) == EntryAt(s.rows, k)
  }

  lemma UncontendedRegister(home: string -> string, max: nat, s: State, id: CallId, e: Entry) returns (run: seq<Action>)
    requires Inv(home, s) && e.vertical == home(e.indexName) && Enabled(max, s, Invoke(id, e.indexName, Register(e)))
    ensures Legal(max, s, run) && EndsLike(home, s, Execute(max, s, run), id, e.indexName, Register(e))
    ensures Plain(run)
  {
    var invoke := Invoke(id, e.indexName, Register(e));
    assert Lookup(Replay(s.log), e.indexName) == EntryAt(s.rows, (home(e.indexName), e.indexName));
    if (e.vertical, e.indexName) in s.rows {
      FoundThere(home, max, s, id, e);
      run := [invoke, Attempt(id), Table.Reread(id)];
      Three(max, s, invoke, Attempt(id), Table.Reread(id));
    } else {
      Inserted(home, max, s, id, e);
      run := [invoke, Attempt(id)];
      Two(max, s, invoke, Attempt(id));
    }
  }

  lemma Inserted(home: string -> string, max: nat, s: State, id: CallId, e: Entry)
    requires e.vertical == home(e.indexName) && Enabled(max, s, Invoke(id, e.indexName, Register(e)))
    requires Lookup(Replay(s.log), e.indexName) == EntryAt(s.rows, (e.vertical, e.indexName)) == None
    ensures var s1 := Next(max, s, Invoke(id, e.indexName, Register(e)));
            Enabled(max, s1, Attempt(id)) && EndsLike(home, s, Next(max, s1, Attempt(id)), id, e.indexName, Register(e))
  {
  }

  lemma FoundThere(home: string -> string, max: nat, s: State, id: CallId, e: Entry)
    requires e.vertical == home(e.indexName) && Enabled(max, s, Invoke(id, e.indexName, Register(e)))
    requires (e.vertical, e.indexName) in s.rows
    requires Lookup(Replay(s.log), e.indexName) == EntryAt(s.rows, (e.vertical, e.indexName))
    ensures var s1 := Next(max, s, Invoke(id, e.indexName, Register(e)));
            && Enabled(max, s1, Attempt(id)) && Enabled(max, Next(max, s1, Attempt(id)), Table.Reread(id))
            && EndsLike(home, s, Next(max, Next(max, s1, Attempt(id)), Table.Reread(id)), id, e.indexName, Register(e))
  {
  }

  lemma Two(max: nat, s: State, a: Action, b: Action)
    requires Enabled(max, s, a) && Enabled(max, Next(max, s, a), b)
    ensures Legal(max, s, [a, b]) && Execute(max, s, [a, b]) == Next(max, Next(max, s, a), b)
  {
    var s2 := Next(max, Next(max, s, a), b);
    assert [a, b][1..] == [b] && [b][1..] == [];
    assert Legal(max, s2, []) && Execute(max, s2, []) == s2;
    assert Legal(max, Next(max, s, a), [b]);
  }

  lemma Three(max: nat, s: State, a: Action, b: Action, d: Action)
    requires Enabled(max, s, a) && Enabled(max, Next(max, s, a), b) && Enabled(max, Next(max, Next(max, s, a), b), d)
    ensures Legal(max, s, [a, b, d]) && Execute(max, s, [a, b, d]) == Next(max, Next(max, Next(max, s, a), b), d)
  {
    assert [a, b, d][1..] == [b, d];
    Two(max, Next(max, s, a), b, d);
  }

  /** The row a call reads when nobody interferes. */
  function HomeRow(home: string -> string, s: State, name: string): Option<Key> {
    if (home(name), name) in s.rows then Some((home(name), name)) else None
  }

  lemma ReadsHomeRow(home: string -> string, max: nat, s: State, id: CallId, name: string, op: Op)
    requires Inv(home, s) && Homed(home, name, op) && !op.Register? && Enabled(max, s, Invoke(id, name, op))
    ensures Enabled(max, Next(max, s, Invoke(id, name, op)), ReadRow(id, HomeRow(home, s, name)))
    ensures Lookup(Replay(s.log), name) == EntryAt(s.rows, (home(name), name))
    ensures (home(name), name) in s.rows ==> s.rows[(home(name), name)].entry.vertical == home(name)
  {
    forall k | k in s.rows ensures k.1 == name ==> k.0 == home(name) { assert RowOk(home, s, k); }
    if (home(name), name) in s.rows { assert RowOk(home, s, (home(name), name)); }
  }

  /** A call that changes a row reads it and replaces it. */
  lemma UncontendedReplace(home: string -> string, max: nat, s: State, id: CallId, name: string, op: Op) returns (run: seq<Action>)
    requires Inv(home, s) && Homed(home, name, op) && !op.Register? && Enabled(max, s, Invoke(id, name, op))
    ensures Legal(max, s, run) && EndsLike(home, s, Execute(max, s, run), id, name, op)
    ensures Plain(run)
  {
    var invoke, read := Invoke(id, name, op), ReadRow(id, HomeRow(home, s, name));
    var cell := EntryAt(s.rows, (home(name), name));
    ReadsHomeRow(home, max, s, id, name, op);
    if cell.None? || Written(cell, op).None? {
      Declined(home, max, s, id, name, op);
      run := [invoke, read];
      Two(max, s, invoke, read);
    } else {
      Replaced(home, max, s, id, name, op);
      run := [invoke, read, Attempt(id)];
      Three(max, s, invoke, read, Attempt(id));
    }
  }

  lemma Declined(home: string -> string, max: nat, s: State, id: CallId, name: string, op: Op)
    requires !op.Register? && Enabled(max, s, Invoke(id, name, op))
    requires Enabled(max, Next(max, s, Invoke(id, name, op)), ReadRow(id, HomeRow(home, s, name)))
    requires Lookup(Replay(s.log), name) == EntryAt(s.rows, (home(name), name))
    requires var cell := EntryAt(s.rows, (home(name), name)); cell.None? || Written(cell, op).None?
    ensures EndsLike(home, s, Next(max, Next(max, s, Invoke(id, name, op)), ReadRow(id, HomeRow(home, s, name))), id, name, op)
  {
    Missed(EntryAt(s.rows, (home(name), name)), op);
  }

  lemma Replaced(home: string -> string, max: nat, s: State, id: CallId, name: string, op: Op)
    requires !op.Register? && Homed(home, name, op) && Enabled(max, s, Invoke(id, name, op))
    requires Enabled(max, Next(max, s, Invoke(id, name, op)), ReadRow(id, HomeRow(home, s, name)))
    requires Lookup(Replay(s.log), name) == EntryAt(s.rows, (home(name), name))
    requires (home(name), name) in s.rows && s.rows[(home(name), name)].entry.vertical == home(name)
    requires Written(EntryAt(s.rows, (home(name), name)), op).Some?
    ensures var s2 := Next(max, Next(max, s, Invoke(id, name, op)), ReadRow(id, HomeRow(home, s, name)));
            Enabled(max, s2, Attempt(id)) && EndsLike(home, s, Next(max, s2, Attempt(id)), id, name, op)
  {
    WrittenStays(s.rows[(home(name), name)].entry, op, home(name));
  }

  lemma Missed(cell: Option<Entry>, op: Op)
    requires !op.Register? && (cell.None? || Written(cell, op).None?)
    ensures Perform(cell, op) == (cell, Conflict)
  {
  }

  lemma WrittenStays(e: Entry, op: Op, vertical: string)
    requires e.vertical == vertical && !op.Register? && (op.Reclaim? ==> op.replacement.vertical == vertical)
    requires Written(Some(e), op).Some?
    ensures Written(Some(e), op).value.vertical == vertical
  {
  }

  /** No timeout, no late landing, no outage. */
  predicate Plain(run: seq<Action>) {
    forall i :: 0 <= i < |run| ==> run[i].Invoke? || run[i].ReadRow? || run[i].Attempt? || run[i].Reread?
  }

  /** Left alone, every call ends and is exactly the call of the lock-based registry, whatever
      happened before. */
  lemma UncontendedCallIsAtomic(home: string -> string, max: nat, s0: State, before: seq<Action>, id: CallId, name: string, op: Op)
    returns (run: seq<Action>)
    requires Initial(s0) && Legal(max, s0, before) && HomedRun(home, before)
    requires Enabled(max, Execute(max, s0, before), Invoke(id, name, op)) && Homed(home, name, op)
    ensures var s := Execute(max, s0, before);
            Legal(max, s, run) && Plain(run) && EndsLike(home, s, Execute(max, s, run), id, name, op)
  {
    Reaches(home, max, s0, before);
    var s := Execute(max, s0, before);
    if op.Register? {
      run := UncontendedRegister(home, max, s, id, op.candidate);
    } else {
      run := UncontendedReplace(home, max, s, id, name, op);
    }
  }
}
