/** The lock-based registry: each method is one critical section over the entry dictionary. */
module Registry {
  import opened Options
  import opened Entries

  function Lookup(entries: map<string, Entry>, name: string): Option<Entry> {
    if name in entries then Some(entries[name]) else None
  }

  class InMemoryIndexRegistry {
    var entries: map<string, Entry>

    constructor ()
      ensures entries == map[]
    {
      entries := map[];
    }

    method Get(name: string) returns (r: Option<Entry>)
      ensures r == Lookup(entries, name)
    {
      if name in entries { r := Some(entries[name]); } else { r := None; }
    }

    /** Insert-if-absent under the candidate's own name; the loser gets what is stored. */
    method Register(e: Entry) returns (r: Entry)
      modifies this
      ensures Changed(old(entries), e.indexName, Op.Register(e), entries)
      ensures Returned(r) == Perform(Lookup(old(entries), e.indexName), Op.Register(e)).1
    {
      if e.indexName in entries {
        r := entries[e.indexName];
      } else {
        entries := entries[e.indexName := e];
        r := e;
      }
    }

    method Reclaim(name: string, observed: Entry, replacement: Entry) returns (r: Reply)
      modifies this
      ensures Changed(old(entries), name, Op.Reclaim(observed, replacement), entries)
      ensures r == Perform(Lookup(old(entries), name), Op.Reclaim(observed, replacement)).1
    {
      if name !in entries || entries[name] != observed {
        return Conflict;
      }
      entries := entries[name := replacement];
      r := Returned(replacement);
    }

    method TouchVerified(name: string, now: Time) returns (r: Reply)
      modifies this
      ensures Changed(old(entries), name, Touch(now), entries)
      ensures r == Perform(Lookup(old(entries), name), Touch(now)).1
    {
      if name !in entries { return Conflict; }
      var updated := entries[name].(lastVerifiedAt := Some(now));
      entries := entries[name := updated];
      r := Returned(updated);
    }

    method MarkReady(name: string, expected: Option<Token>, now: Time) returns (r: Reply)
      modifies this
      ensures Changed(old(entries), name, Op.MarkReady(expected, now), entries)
      ensures r == Perform(Lookup(old(entries), name), Op.MarkReady(expected, now)).1
    {
      if name !in entries { return Conflict; }
      var current := entries[name];
      if expected.Some? && current.claimToken != expected { return Conflict; }
      var updated := current.(status := Ready, lastVerifiedAt := Some(now),
        claimToken := None, claimedAt := None, resolvedTemplate := None);
      entries := entries[name := updated];
      r := Returned(updated);
    }

    method MarkFailed(name: string, reason: string, expected: Option<Token>) returns (r: Reply)
      modifies this
      ensures Changed(old(entries), name, Op.MarkFailed(reason, expected), entries)
      ensures r == Perform(Lookup(old(entries), name), Op.MarkFailed(reason, expected)).1
    {
      if name !in entries { return Conflict; }
      var current := entries[name];
      if expected.Some? && current.claimToken != expected { return Conflict; }
      var updated := current.(status := Failed, lastErrorMessage := Some(reason),
        claimToken := None, claimedAt := None, resolvedTemplate := None);
      entries := entries[name := updated];
      r := Returned(updated);
    }

    method MarkRetired(name: string) returns (r: Reply)
      modifies this
      ensures Changed(old(entries), name, Retire, entries)
      ensures r == Perform(Lookup(old(entries), name), Retire).1
    {
      if name !in entries { return Conflict; }
      var updated := entries[name].(status := Retired);
      entries := entries[name := updated];
      r := Returned(updated);
    }
  }

  /** The dictionary after one call: its own key moves as `Perform` says, every other key stays. */
  ghost predicate Changed(before: map<string, Entry>, name: string, op: Op, after: map<string, Entry>) {
    && Lookup(after, name) == Perform(Lookup(before, name), op).0
    && forall n: string :: n != name ==> Lookup(after, n) == Lookup(before, n)
  }

  /** The same as a function, so that whole histories can be folded. */
  function PerformOn(entries: map<string, Entry>, name: string, op: Op): map<string, Entry> {
    match Written(Lookup(entries, name), op)
    case Some(e) => entries[name := e]
    case None => entries
  }

  lemma PerformOnIsChanged(entries: map<string, Entry>, name: string, op: Op, after: map<string, Entry>)
    ensures Changed(entries, name, op, after) <==> after == PerformOn(entries, name, op)
  {
    var spec := PerformOn(entries, name, op);
    assert Changed(entries, name, op, spec);
    if Changed(entries, name, op, after) {
      forall n: string
        ensures n in after <==> n in spec
        ensures n in after && n in spec ==> after[n] == spec[n]
      {
        assert Lookup(after, n) == Lookup(spec, n);
      }
      assert after.Keys == spec.Keys;
      assert after == spec;
    }
  }
}
