/**
 The TTL cache in front of a registry. Reads may come from the cache, every write goes
 straight to the wrapped registry and clears the cache when it succeeds. `Peek`, `Ask`,
 `Store` and `Invalidate` are the single steps between which threads interleave; `Get` and
 the writes are sequences of them, and `Play` runs any interleaving of the steps.
 */
module Cache {
  import opened Options
  import opened Entries
  import opened Registry
  import opened CacheRuns

  /** The wrapped registry answered `value` for `name`, and the cache stamped it `at`. */
  datatype Fill = Fill(name: string, value: Option<Entry>, at: Time)

  class CachedIndexRegistry {
    const wrapped: InMemoryIndexRegistry
    const ttl: int
    var byName: map<string, Slot>
    ghost var answered: set<(string, Option<Entry>)>
    ghost var fills: set<Fill>

    /** Whatever is cached was answered by the wrapped registry and carries its fill stamp. */
    ghost predicate Valid()
      reads this
    {
      && (forall n :: n in byName ==> Fill(n, byName[n].value, byName[n].at) in fills)
      && (forall f :: f in fills ==> (f.name, f.value) in answered)
    }

    constructor (wrapped: InMemoryIndexRegistry, ttl: int)
      ensures Valid() && this.wrapped == wrapped && this.ttl == ttl && byName == map[] && answered == {}
    {
      this.wrapped := wrapped;
      this.ttl := ttl;
      byName := map[];
      answered := {};
      fills := {};
    }

    predicate IsExpired(cachedAt: Time, now: Time) { now - cachedAt >= ttl }

    /** The first lock section of `get`. */
    method Peek(name: string, now: Time) returns (hit: Option<Option<Entry>>)
      requires Valid()
      ensures hit == if name in byName && now - byName[name].at < ttl then Some(byName[name].value) else None
      ensures hit.Some? ==> exists f :: f in fills && f.name == name && f.value == hit.value && now - f.at < ttl
    {
      if name in byName && !IsExpired(byName[name].at, now) {
        hit := Some(byName[name].value);
        assert Fill(name, byName[name].value, byName[name].at) in fills;
      } else {
        hit := None;
      }
    }

    /** The unlocked call of the wrapped registry. */
    method Ask(name: string) returns (value: Option<Entry>)
      requires Valid()
      modifies this`answered
      ensures Valid() && value == Lookup(wrapped.entries, name)
      ensures answered == old(answered) + {(name, value)}
    {
      value := wrapped.Get(name);
      answered := answered + {(name, value)};
    }

    /** The second lock section of `get`. */
    method Store(name: string, value: Option<Entry>, now: Time)
      requires Valid() && (name, value) in answered
      modifies this`byName, this`fills
      ensures Valid() && byName == old(byName)[name := Slot(value, now)] && fills == old(fills) + {Fill(name, value, now)}
    {
      fills := fills + {Fill(name, value, now)};
      byName := byName[name := Slot(value, now)];
    }

    /** `get`: the wrapped registry's current answer, or an earlier one stamped less than
        `ttl` ago. */
    method Get(name: string, now: Time, later: Time) returns (r: Option<Entry>)
      requires Valid()
      modifies this`byName, this`answered, this`fills
      ensures Valid() && (name, r) in answered
      ensures if name in old(byName) && now - old(byName)[name].at < ttl
              then && byName == old(byName) && r == byName[name].value
                   && exists f :: f in fills && f.name == name && f.value == r && now - f.at < ttl
              else r == Lookup(wrapped.entries, name) && byName == old(byName)[name := Slot(r, later)]
    {
      var hit := Peek(name, now);
      if hit.Some? { return hit.value; }
      r := Ask(name);
      Store(name, r, later);
    }

    method Invalidate()
      requires Valid()
      modifies this`byName
      ensures Valid() && byName == map[]
    {
      byName := map[];
    }

    /** Never served from the cache; the outcome is the wrapped registry's alone. */
    method Register(e: Entry) returns (r: Entry)
      requires Valid()
      modifies wrapped, this`byName
      ensures Valid() && byName == map[]
      ensures Changed(old(wrapped.entries), e.indexName, Op.Register(e), wrapped.entries)
      ensures Returned(r) == Perform(Lookup(old(wrapped.entries), e.indexName), Op.Register(e)).1
    {
      r := wrapped.Register(e);
      Invalidate();
    }

    method Reclaim(name: string, observed: Entry, replacement: Entry) returns (r: Reply)
      requires Valid()
      modifies wrapped, this`byName
      ensures Valid() && byName == (if r.Returned? then map[] else old(byName))
      ensures Changed(old(wrapped.entries), name, Op.Reclaim(observed, replacement), wrapped.entries)
      ensures r == Perform(Lookup(old(wrapped.entries), name), Op.Reclaim(observed, replacement)).1
    {
      r := wrapped.Reclaim(name, observed, replacement);
      if r.Returned? { Invalidate(); }
    }

    method TouchVerified(name: string, now: Time) returns (r: Reply)
      requires Valid()
      modifies wrapped, this`byName
      ensures Valid() && byName == (if r.Returned? then map[] else old(byName))
      ensures Changed(old(wrapped.entries), name, Touch(now), wrapped.entries)
      ensures r == Perform(Lookup(old(wrapped.entries), name), Touch(now)).1
    {
      r := wrapped.TouchVerified(name, now);
      if r.Returned? { Invalidate(); }
    }

    method MarkReady(name: string, expected: Option<Token>, now: Time) returns (r: Reply)
      requires Valid()
      modifies wrapped, this`byName
      ensures Valid() && byName == (if r.Returned? then map[] else old(byName))
      ensures Changed(old(wrapped.entries), name, Op.MarkReady(expected, now), wrapped.entries)
      ensures r == Perform(Lookup(old(wrapped.entries), name), Op.MarkReady(expected, now)).1
    {
      r := wrapped.MarkReady(name, expected, now);
      if r.Returned? { Invalidate(); }
    }

    method MarkFailed(name: string, reason: string, expected: Option<Token>) returns (r: Reply)
      requires Valid()
      modifies wrapped, this`byName
      ensures Valid() && byName == (if r.Returned? then map[] else old(byName))
      ensures Changed(old(wrapped.entries), name, Op.MarkFailed(reason, expected), wrapped.entries)
      ensures r == Perform(Lookup(old(wrapped.entries), name), Op.MarkFailed(reason, expected)).1
    {
      r := wrapped.MarkFailed(name, reason, expected);
      if r.Returned? { Invalidate(); }
    }
  }

  /** Without a concurrent reader a touch is visible to the next read at once. */
  method ReadAfterTouch(cache: CachedIndexRegistry, name: string, now: Time)
    returns (written: Reply, r: Option<Entry>)
    requires cache.Valid()
    modifies cache, cache.wrapped
    ensures cache.Valid()
    ensures written.Returned? ==> r == Some(written.entry) && r.value.lastVerifiedAt == Some(now)
  {
    written := cache.TouchVerified(name, now);
    r := cache.Get(name, now, now);
  }

  /** The steps of the class, in any order in which threads may take them, do what the step
      system says. */
  method Play(cache: CachedIndexRegistry, run: seq<Action>) returns (asked: map<ThreadId, Asked>)
    requires cache.Valid()
    requires Legal(State(cache.wrapped.entries, cache.byName, map[]), run, |run|)
    modifies cache, cache.wrapped
    ensures cache.Valid()
    ensures State(cache.wrapped.entries, cache.byName, asked)
         == Execute(State(old(cache.wrapped.entries), old(cache.byName), map[]), run, |run|)
  {
    ghost var s := State(cache.wrapped.entries, cache.byName, map[]);
    asked := map[];
    for i := 0 to |run|
      invariant cache.Valid() && Legal(s, run, i)
      invariant State(cache.wrapped.entries, cache.byName, asked) == Execute(s, run, i)
      invariant forall t :: t in asked ==> (asked[t].name, asked[t].value) in cache.answered
    {
      LegalPrefix(s, run, |run|, i + 1);
      match run[i] {
        case Ask(t, name) =>
          var value := cache.Ask(name);
          asked := asked[t := Asked(name, value)];
        case Store(t, name, at) =>
          cache.Store(name, asked[t].value, at);
          asked := asked - {t};
        case Write(name, op) => WriteThrough(cache, name, op);
        case Clear => cache.Invalidate();
      }
    }
  }

  /** One call of the wrapped registry. */
  method WriteThrough(cache: CachedIndexRegistry, name: string, op: Op)
    requires cache.Valid() && (op.Register? ==> op.candidate.indexName == name)
    modifies cache.wrapped
    ensures cache.Valid() && cache.wrapped.entries == PerformOn(old(cache.wrapped.entries), name, op)
  {
    match op {
      case Register(e) => var _ := cache.wrapped.Register(e);
      case Reclaim(observed, replacement) => var _ := cache.wrapped.Reclaim(name, observed, replacement);
      case MarkReady(expected, now) => var _ := cache.wrapped.MarkReady(name, expected, now);
      case MarkFailed(reason, expected) => var _ := cache.wrapped.MarkFailed(name, reason, expected);
      case Touch(now) => var _ := cache.wrapped.TouchVerified(name, now);
      case Retire => var _ := cache.wrapped.MarkRetired(name);
    }
    PerformOnIsChanged(old(cache.wrapped.entries), name, op, cache.wrapped.entries);
  }
}
