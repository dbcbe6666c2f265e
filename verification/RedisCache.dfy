/** Redis keys with an expiry, on one millisecond clock. */
module RedisStore {
  /** Redis `SET ... EX ttl`: the key is gone from this moment on. */
  function Expiry(now: int, ttlSeconds: int): int {
    now + 1000 * ttlSeconds
  }

  predicate Live(expiresAt: int, now: int) {
    now < expiresAt
  }
}

/** The cache-aside of the Wowza client over the Redis service. */
module CacheModel {
  import opened Common
  import opened RedisStore

  /** What is cached, per server. */
  datatype Query =
    | Applications(server: string)
    | Streams(server: string, app: string)
    | Connections(server: string)
    | ServerStatus(server: string)

  function KeyOf(q: Query): string {
    match q
    case Applications(server) => "wowza:" + server + ":" + "applications"
    case Streams(server, app) => "wowza:" + server + ":" + "streams:" + app
    case Connections(server) => "wowza:" + server + ":" + "connections"
    case ServerStatus(server) => "wowza:" + server + ":" + "status"
  }

  function Ttl(q: Query): nat {
    match q
    case Applications(_) => 30
    case Streams(_, _) => 5
    case Connections(_) => 10
    case ServerStatus(_) => 15
  }

  /** A cached answer, with the call whose loader produced it and when, and when it was written. */
  datatype Entry = Entry(value: string, call: nat, loadedAt: int, writtenAt: int, expiresAt: int)

  /** A loader running for a call; `storing` if Redis was there when the call began. */
  datatype Loading = Loading(query: Query, storing: bool)

  datatype Load = Load(call: nat, query: Query, value: string, at: int)

  datatype Cache = Cache(
    now: int,
    available: bool,
    store: map<string, Entry>,
    calls: nat,                  // calls of getOrSet so far
    loading: map<nat, Loading>,
    writing: map<nat, Load>,     // answers on their way to Redis
    loads: seq<Load>)            // everything the loaders ever produced

  datatype Step =
    | Tick(to: int)
    | GoDown                                  // the client reported an error
    | Begin(query: Query, fails: bool)        // getOrSet up to its answer or its loader
    | Finish(call: nat, value: string)        // the loader has answered
    | Write(call: nat, ok: bool)              // the write of the answer has ended
    | Invalidate(query: Query, ok: bool)      // the end of a connect or disconnect
    | OtherSet(key: string, value: string, ttlSeconds: nat)

  /** Keys of this cache; the other users of Redis write none of these. */
  predicate IsCacheKey(key: string) {
    "wowza:" <= key
  }

  predicate Enabled(c: Cache, s: Step) {
    match s
    case Tick(to) => c.now <= to
    case Finish(call, _) => call in c.loading
    case Write(call, _) => call in c.writing
    case OtherSet(key, _, _) => !IsCacheKey(key)
    case _ => true
  }

  /** What getOrSet finds, if it looks. */
  function Hit(c: Cache, q: Query): Option<Entry> {
    if c.available && KeyOf(q) in c.store && Live(c.store[KeyOf(q)].expiresAt, c.now)
    then Some(c.store[KeyOf(q)]) else None
  }

  function BeginCall(c: Cache, q: Query, fails: bool): Cache {
    if Hit(c, q).Some? && !fails then c.(calls := c.calls + 1)
    else c.(calls := c.calls + 1, loading := c.loading[c.calls := Loading(q, c.available)])
  }

  function FinishCall(c: Cache, call: nat, value: string): Cache
    requires call in c.loading
  {
    var load := Load(call, c.loading[call].query, value, c.now);
    var loaded := c.(loading := c.loading - {call}, loads := c.loads + [load]);
    if c.loading[call].storing then loaded.(writing := c.writing[call := load]) else loaded
  }

  function WriteAnswer(c: Cache, call: nat, ok: bool): Cache
    requires call in c.writing
  {
    var load := c.writing[call];
    var written := c.(writing := c.writing - {call});
    if ok
    then written.(store := c.store[KeyOf(load.query) :=
           Entry(load.value, call, load.at, c.now, Expiry(c.now, Ttl(load.query)))])
    else written
  }

  function Next(c: Cache, s: Step): Cache {
    if !Enabled(c, s) then c else
    match s
    case Tick(to) => c.(now := to)
    case GoDown => c.(available := false)
    case Begin(q, fails) => BeginCall(c, q, fails)
    case Finish(call, value) => FinishCall(c, call, value)
    case Write(call, ok) => WriteAnswer(c, call, ok)
    case Invalidate(q, ok) => if c.available && ok then c.(store := c.store - {KeyOf(q)}) else c
    case OtherSet(key, value, ttl) =>
      if c.available then c.(store := c.store[key := Entry(value, c.calls, c.now, c.now, Expiry(c.now, ttl))]) else c
  }

  function Run(c: Cache, steps: seq<Step>): Cache
    decreases |steps|
  {
    if steps == [] then c else Run(Next(c, steps[0]), steps[1..])
  }

  function Init(now: int, available: bool): Cache {
    Cache(now, available, map[], 0, map[], map[], [])
  }
}

module CacheSafety {
  import opened Common
  import opened RedisStore
  import opened CacheModel

  // ---- keys ----

  predicate ColonFree(s: string) {
    forall i :: 0 <= i < |s| ==> s[i] != ':'
  }

  function FirstColon(s: string): nat {
    if s == "" || s[0] == ':' then 0 else 1 + FirstColon(s[1..])
  }

  lemma {:induction false} FirstColonAfter(a: string, x: string)
    requires ColonFree(a)
    ensures FirstColon(a + (":" + x)) == |a|
    decreases |a|
  {
    if a != "" {
      FirstColonAfter(a[1..], x);
      assert (a + (":" + x))[1..] == a[1..] + (":" + x);
    } else {
      assert a + (":" + x) == ":" + x;
    }
  }

  lemma SplitAtColon(a: string, b: string, x: string, y: string)
    requires ColonFree(a) && ColonFree(b) && a + (":" + x) == b + (":" + y)
    ensures a == b && x == y
  {
    FirstColonAfter(a, x);
    FirstColonAfter(b, y);
    var s, t := a + (":" + x), b + (":" + y);
    assert a == s[..|a|] && b == t[..|b|];
    assert x == s[|a| + 1..] && y == t[|b| + 1..];
  }

  function Suffix(q: Query): string {
    match q
    case Applications(_) => "applications"
    case Streams(_, app) => "streams:" + app
    case Connections(_) => "connections"
    case ServerStatus(_) => "status"
  }

  lemma KeyParts(q: Query)
    ensures KeyOf(q) == "wowza:" + (q.server + (":" + Suffix(q)))
  {
    assert KeyOf(q) == "wowza:" + q.server + ":" + Suffix(q);
  }

  lemma SuffixInjective(q: Query, r: Query)
    requires Suffix(q) == Suffix(r) && q.server == r.server
    ensures q == r
  {
    var s, t := Suffix(q), Suffix(r);
    assert s[0] == t[0] && s[1] == t[1];
    if q.Streams? && r.Streams? {
      assert s[8..] == q.app && t[8..] == r.app;
    }
  }

  /** Different queries never share a key, server ids being free of colons (UUIDs, or `env`). */
  lemma KeysInjective(q: Query, r: Query)
    requires ColonFree(q.server) && ColonFree(r.server) && KeyOf(q) == KeyOf(r)
    ensures q == r
  {
    KeyParts(q);
    KeyParts(r);
    var x, y := q.server + (":" + Suffix(q)), r.server + (":" + Suffix(r));
    assert x == KeyOf(q)[6..] && y == KeyOf(r)[6..];
    SplitAtColon(q.server, r.server, Suffix(q), Suffix(r));
    SuffixInjective(q, r);
  }

  lemma KeysAreCacheKeys(q: Query)
    ensures IsCacheKey(KeyOf(q))
  {
    KeyParts(q);
  }

  /** The prefixes of the other users of Redis keep them out of this cache. */
  lemma OtherPrefixes(rest: string)
    ensures !IsCacheKey("blacklist:" + rest) && !IsCacheKey("wowza_token:" + rest) && !IsCacheKey("download:" + rest)
  {
    assert ("blacklist:" + rest)[0] == 'b' && ("download:" + rest)[0] == 'd' && ("wowza_token:" + rest)[5] == '_';
    assert "wowza:"[0] == 'w' && "wowza:"[5] == ':';
  }

  // ---- bounded staleness ----

  /** The entry is what the loader of this very query produced, and expires its ttl after it was written. */
  ghost predicate Backed(c: Cache, q: Query) {
    KeyOf(q) in c.store ==>
      var e := c.store[KeyOf(q)];
      && Load(e.call, q, e.value, e.loadedAt) in c.loads
      && e.expiresAt == Expiry(e.writtenAt, Ttl(q))
      && e.loadedAt <= e.writtenAt <= c.now
  }

  /** Steps about servers with usable ids. */
  ghost predicate Named(s: Step) {
    (s.Begin? || s.Invalidate?) ==> ColonFree(s.query.server)
  }

  ghost predicate Inv(c: Cache) {
    (forall q: Query :: ColonFree(q.server) ==> Backed(c, q)) && InFlight(c)
  }

  /** Calls in flight are about servers with usable ids, and answers on their way are those of their loaders. */
  ghost predicate InFlight(c: Cache) {
    && (forall k :: k in c.loading ==> ColonFree(c.loading[k].query.server) && k < c.calls)
    && (forall k :: k in c.writing ==>
          var load := c.writing[k];
          ColonFree(load.query.server) && load.call == k && load in c.loads && load.at <= c.now)
  }

  lemma BackedStep(c: Cache, s: Step, q: Query)
    requires InFlight(c) && Backed(c, q) && Named(s) && ColonFree(q.server)
    ensures Backed(Next(c, s), q)
  {
    KeysAreCacheKeys(q);
    if s.Write? && s.call in c.writing && KeyOf(c.writing[s.call].query) == KeyOf(q) {
      KeysInjective(c.writing[s.call].query, q);
    }
    hide KeyOf, ColonFree, IsCacheKey;
  }

  lemma FinishInFlight(c: Cache, call: nat, value: string)
    requires InFlight(c) && call in c.loading
    ensures InFlight(FinishCall(c, call, value))
  {
    hide ColonFree;
    var c' := FinishCall(c, call, value);
    assert c'.loads[|c.loads|] == Load(call, c.loading[call].query, value, c.now);
    assert forall load :: load in c.loads ==> load in c'.loads;
  }

  lemma InFlightStep(c: Cache, s: Step)
    requires InFlight(c) && Named(s)
    ensures InFlight(Next(c, s))
  {
    hide KeyOf, ColonFree, IsCacheKey, Hit, FinishCall;
    if s.Finish? && s.call in c.loading { FinishInFlight(c, s.call, s.value); }
  }

  lemma InvStep(c: Cache, s: Step)
    requires Inv(c) && Named(s)
    ensures Inv(Next(c, s))
  {
    hide Next, Backed, InFlight, Named;
    InFlightStep(c, s);
    forall q: Query | ColonFree(q.server) ensures Backed(Next(c, s), q) { BackedStep(c, s, q); }
  }

  ghost predicate AllNamed(steps: seq<Step>) {
    forall i :: 0 <= i < |steps| ==> Named(steps[i])
  }

  lemma {:induction false} InvRun(c: Cache, steps: seq<Step>)
    requires Inv(c) && AllNamed(steps)
    ensures Inv(Run(c, steps))
    decreases |steps|
  {
    if steps != [] {
      InvStep(c, steps[0]);
      InvRun(Next(c, steps[0]), steps[1..]);
    }
  }

  /** The age in milliseconds up to which answers of the kind are served. */
  ghost predicate Young(q: Query, age: int) {
    match q
    case Applications(_) => age < 30000
    case ServerStatus(_) => age < 15000
    case Connections(_) => age < 10000
    case Streams(_, _) => age < 5000
  }

  /**
   A cached answer was produced by the loader of that query and written less than its ttl ago, in
   every run: its age is below the ttl and the time its write took.
   */
  lemma HitsAreRecent(now: int, available: bool, steps: seq<Step>, q: Query)
    requires AllNamed(steps) && ColonFree(q.server)
    ensures var c := Run(Init(now, available), steps);
            Hit(c, q).Some? ==>
              var e := Hit(c, q).value;
              && Load(e.call, q, e.value, e.loadedAt) in c.loads
              && e.loadedAt <= e.writtenAt <= c.now && Young(q, c.now - e.writtenAt)
  {
    InvRun(Init(now, available), steps);
    assert Backed(Run(Init(now, available), steps), q);
  }

  /** An answer that has been written is found exactly as long as answers of its kind are served. */
  lemma WrittenIsFoundWhileYoung(c: Cache, call: nat, to: int)
    requires c.available && call in c.writing && c.now <= to
    ensures var load := c.writing[call];
            var c' := Next(Next(c, Write(call, true)), Tick(to));
            && (Hit(c', load.query).Some? <==> Young(load.query, to - c.now))
            && (Hit(c', load.query).Some? ==> Hit(c', load.query).value.value == load.value)
  {
  }

  /** A call that finds nothing while Redis is there gets its answer cached, if the write works. */
  lemma AnswerIsCached(c: Cache, q: Query, value: string, loaded: int, written: int, to: int)
    requires c.available && Numbered(c) && c.now <= loaded <= written <= to && Hit(c, q) == None
    ensures var c1 := Next(Next(c, Begin(q, false)), Tick(loaded));
            var c2 := Next(Next(c1, Finish(c.calls, value)), Tick(written));
            var c' := Next(Next(c2, Write(c.calls, true)), Tick(to));
            && (Hit(c', q).Some? <==> Young(q, to - written))
            && (Hit(c', q).Some? ==> Hit(c', q).value.value == value && Hit(c', q).value.loadedAt == loaded)
  {
    var c1 := Next(Next(c, Begin(q, false)), Tick(loaded));
    var c2 := Next(Next(c1, Finish(c.calls, value)), Tick(written));
    assert c.calls in c2.writing && c2.writing[c.calls] == Load(c.calls, q, value, loaded);
    WrittenIsFoundWhileYoung(c2, c.calls, to);
  }

  /** A call runs its loader exactly if it finds no key that is live, or cannot read it. */
  lemma LoaderRunsIff(c: Cache, q: Query, fails: bool)
    requires Numbered(c)
    ensures var found := c.available && KeyOf(q) in c.store && c.now < c.store[KeyOf(q)].expiresAt;
            c.calls in Next(c, Begin(q, fails)).loading <==> !found || fails
  {
  }

  // ---- a completed connect or disconnect forces a fresh list ----

  /** No loader is running whose answer would be stored for the query, and no answer is on its way. */
  ghost predicate NoneLoading(c: Cache, q: Query) {
    && (forall k :: k in c.loading && c.loading[k].storing ==> KeyOf(c.loading[k].query) != KeyOf(q))
    && (forall k :: k in c.writing ==> KeyOf(c.writing[k].query) != KeyOf(q))
  }

  /** Calls in flight are numbered below those to come. */
  ghost predicate Numbered(c: Cache) {
    (forall k :: k in c.loading ==> k < c.calls) && (forall k :: k in c.writing ==> k < c.calls)
  }

  /** Nothing stored, or about to be, for the query comes from a call before the given one. */
  ghost predicate Since(c: Cache, q: Query, call: nat) {
    && call <= c.calls
    && (KeyOf(q) in c.store ==> c.store[KeyOf(q)].call >= call)
    && (forall k :: k in c.loading && c.loading[k].storing && KeyOf(c.loading[k].query) == KeyOf(q) ==> k >= call)
    && (forall k :: k in c.writing && KeyOf(c.writing[k].query) == KeyOf(q) ==> k >= call)
  }

  lemma SinceStep(c: Cache, s: Step, q: Query, call: nat)
    requires Since(c, q, call)
    ensures Since(Next(c, s), q, call)
  {
    KeysAreCacheKeys(q);
  }

  lemma {:induction false} SinceRun(c: Cache, steps: seq<Step>, q: Query, call: nat)
    requires Since(c, q, call)
    ensures Since(Run(c, steps), q, call)
    decreases |steps|
  {
    if steps != [] {
      SinceStep(c, steps[0], q, call);
      SinceRun(Next(c, steps[0]), steps[1..], q, call);
    }
  }

  /** From here on every cached answer to the query comes from a loader that began from here on. */
  ghost predicate FreshFrom(c: Cache, q: Query) {
    forall steps :: Hit(Run(c, steps), q).Some? ==> Hit(Run(c, steps), q).value.call >= c.calls
  }

  /** A successful delete forces a fresh answer exactly if no loader for it is under way. */
  lemma DeleteForcesFreshIffNoneLoading(c: Cache, q: Query)
    requires c.available && Numbered(c)
    ensures FreshFrom(Next(c, Invalidate(q, true)), q) <==> NoneLoading(c, q)
  {
    var c0 := Next(c, Invalidate(q, true));
    if NoneLoading(c, q) {
      assert Since(c0, q, c.calls);
      forall steps | Hit(Run(c0, steps), q).Some? ensures Hit(Run(c0, steps), q).value.call >= c0.calls {
        SinceRun(c0, steps, q, c.calls);
      }
    } else if k :| k in c.writing && KeyOf(c.writing[k].query) == KeyOf(q) {
      LateWrite(c0, q, k);
    } else {
      var k :| k in c.loading && c.loading[k].storing && KeyOf(c.loading[k].query) == KeyOf(q);
      var finish := Finish(k, "");
      LateWrite(Next(c0, finish), q, k);
      forall steps ensures Run(c0, [finish] + steps) == Run(Next(c0, finish), steps) {
        assert ([finish] + steps)[1..] == steps;
      }
    }
  }

  /** An answer that was on its way is found afterwards. */
  lemma LateWrite(c: Cache, q: Query, k: nat)
    requires c.available && k in c.writing && KeyOf(c.writing[k].query) == KeyOf(q)
    ensures exists steps :: Hit(Run(c, steps), q).Some? && Hit(Run(c, steps), q).value.call == k
  {
    var steps := [Write(k, true)];
    assert steps[1..] == [] && Run(c, steps) == Next(c, steps[0]);
    assert Hit(Run(c, steps), q).value.call == k;
  }

  // ---- degraded mode ----

  /** Once Redis is given up it is never used again: every call is its loader. */
  lemma {:induction false} DownIsForGood(c: Cache, steps: seq<Step>)
    requires !c.available
    ensures !Run(c, steps).available
    ensures forall q :: Hit(Run(c, steps), q) == None
    decreases |steps|
  {
    if steps != [] { DownIsForGood(Next(c, steps[0]), steps[1..]); }
  }

  /** An error of the client is enough. */
  lemma ErrorBringsDown(c: Cache, steps: seq<Step>)
    ensures !Run(Next(c, GoDown), steps).available
  {
    DownIsForGood(Next(c, GoDown), steps);
  }

  /** The store holds what it held, but for answers of calls that began earlier. */
  ghost predicate OnlyEarlier(before: map<string, Entry>, after: map<string, Entry>, calls: nat) {
    && (forall key :: key in before ==> key in after)
    && (forall key :: key in after ==> (key in before && after[key] == before[key]) || after[key].call < calls)
  }

  /** The call is still running its loader, which will not be stored, or the loader has produced its answer. */
  ghost predicate ByLoader(c: Cache, call: nat) {
    || (call in c.loading && !c.loading[call].storing)
    || (exists load :: load in c.loads && load.call == call)
  }

  /** No call from the first on is to be stored. */
  ghost predicate NoneStoring(c: Cache, first: nat) {
    && (forall k :: k in c.loading && k >= first ==> !c.loading[k].storing)
    && (forall k :: k in c.writing ==> k < first)
  }

  lemma DownStep(c: Cache, s: Step, first: nat, store: map<string, Entry>)
    requires !c.available && first <= c.calls && OnlyEarlier(store, c.store, first)
    requires forall k :: first <= k < c.calls ==> ByLoader(c, k)
    requires NoneStoring(c, first)
    ensures var c' := Next(c, s);
            && !c'.available && first <= c'.calls && OnlyEarlier(store, c'.store, first)
            && (forall k :: first <= k < c'.calls ==> ByLoader(c', k))
            && NoneStoring(c', first)
  {
    var c' := Next(c, s);
    forall k | first <= k < c'.calls ensures ByLoader(c', k) {
      if k < c.calls {
        assert ByLoader(c, k);
        if load :| load in c.loads && load.call == k {
          assert load in c'.loads;
        } else if s.Finish? && s.call == k {
          assert c'.loads[|c.loads|].call == k;
        }
      }
    }
  }

  lemma {:induction false} DownRun(c: Cache, steps: seq<Step>, first: nat, store: map<string, Entry>)
    requires !c.available && first <= c.calls && OnlyEarlier(store, c.store, first)
    requires forall k :: first <= k < c.calls ==> ByLoader(c, k)
    requires NoneStoring(c, first)
    ensures var c' := Run(c, steps);
            OnlyEarlier(store, c'.store, first) && forall k :: first <= k < c'.calls ==> ByLoader(c', k)
    decreases |steps|
  {
    if steps != [] {
      DownStep(c, steps[0], first, store);
      DownRun(Next(c, steps[0]), steps[1..], first, store);
    }
  }

  /**
   In degraded mode getOrSet is just the loader: however calls overlap, none begun from here on
   is answered from Redis or ever writes to it.
   */
  lemma DownIsJustTheLoader(c: Cache, steps: seq<Step>)
    requires !c.available && Numbered(c)
    ensures var c' := Run(c, steps);
            && OnlyEarlier(c.store, c'.store, c.calls)
            && (forall k :: c.calls <= k < c'.calls ==> ByLoader(c', k))
  {
    DownRun(c, steps, c.calls, c.store);
  }
}

/** The Redis service with its two fields, and the Redis it talks to. */
module RedisServices {
  import opened Common
  import opened RedisStore
  import opened CacheModel

  datatype Lookup = Answer(value: string) | RunLoader(call: nat, storing: bool)

  class RedisService {
    var available: bool
    var store: map<string, Entry>   // the contents of Redis
    var calls: nat
    ghost var now: int
    ghost var loading: map<nat, Loading>
    ghost var writing: map<nat, Load>
    ghost var loads: seq<Load>

    ghost function View(): Cache
      reads this
    {
      Cache(now, available, store, calls, loading, writing, loads)
    }

    constructor (ghost now: int, available: bool)
      ensures View() == Init(now, available)
    {
      this.available, store, calls := available, map[], 0;
      this.now, loading, writing, loads := now, map[], map[], [];
    }

    method OnError()
      modifies this`available
      ensures View() == Next(old(View()), GoDown)
    {
      if available {
        available := false;
      }
    }

    /** `at` is the clock of Redis, `fails` an error of the client or of parsing. */
    method BeginGetOrSet(query: Query, fails: bool, at: int) returns (r: Lookup)
      requires at == now
      modifies this
      ensures View() == Next(old(View()), Begin(query, fails))
      ensures r == (
        var hit := Hit(old(View()), query);
        if hit.Some? && !fails then Answer(hit.value.value) else RunLoader(old(calls), old(available)))
    {
      var call := calls;
      calls := calls + 1;
      var key := KeyOf(query);
      if available && !fails {
        if key in store && Live(store[key].expiresAt, at) {
          return Answer(store[key].value);
        }
      }
      loading := loading[call := Loading(query, available)];
      r := RunLoader(call, available);
    }

    /** The loader has answered; Some if the answer is then written to Redis. */
    method FinishGetOrSet(query: Query, call: nat, storing: bool, value: string, ghost at: int) returns (toWrite: Option<string>)
      requires at == now && call in loading && loading[call] == Loading(query, storing)
      modifies this
      ensures View() == Next(old(View()), Finish(call, value))
      ensures toWrite == if storing then Some(value) else None
      ensures storing ==> call in writing && writing[call] == Load(call, query, value, at)
    {
      loads := loads + [Load(call, query, value, at)];
      loading := loading - {call};
      if !storing {
        return None;
      }
      writing := writing[call := Load(call, query, value, at)];
      toWrite := Some(value);
    }

    /** The write reaches Redis at `at`, if `ok`. */
    method WriteGetOrSet(query: Query, call: nat, value: string, loadedAt: int, ok: bool, at: int)
      requires at == now && call in writing && writing[call] == Load(call, query, value, loadedAt)
      modifies this
      ensures View() == Next(old(View()), Write(call, ok))
    {
      if ok {
        store := store[KeyOf(query) := Entry(value, call, loadedAt, at, Expiry(at, Ttl(query)))];
      }
      writing := writing - {call};
    }

    method Invalidate(query: Query, ok: bool)
      modifies this`store
      ensures View() == Next(old(View()), CacheModel.Invalidate(query, ok))
    {
      if !available {
        return;
      }
      if ok {
        store := store - {KeyOf(query)};
      }
    }
  }
}
