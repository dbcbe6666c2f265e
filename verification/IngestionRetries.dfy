/** Bounds on the reconnections of one accepted start, and the arithmetic of its waits. */
module IngestionRetries {
  import opened Common
  import opened IngestionModel
  import opened IngestionInvariants

  // ---- the ledger of a generation ----

  ghost function Count(owners: seq<nat>, g: nat): nat {
    if owners == [] then 0
    else Count(owners[..|owners| - 1], g) + (if owners[|owners| - 1] == g then 1 else 0)
  }

  /** How many processes the generation has spawned. */
  ghost function Spawns(w: World, g: nat): nat {
    Count(w.spawned, g)
  }

  /** The delays of the timers of the generation, in the order they were armed. */
  ghost function Waits(armed: seq<Timer>, g: nat): seq<real> {
    if armed == [] then []
    else
      var last := armed[|armed| - 1];
      Waits(armed[..|armed| - 1], g) + (if last.owner == g then [last.delay] else [])
  }

  lemma CountAppend(owners: seq<nat>, h: nat, g: nat)
    ensures Count(owners + [h], g) == Count(owners, g) + (if h == g then 1 else 0)
  {
    assert (owners + [h])[..|owners|] == owners;
  }

  lemma WaitsAppend(armed: seq<Timer>, t: Timer, g: nat)
    ensures Waits(armed + [t], g) == Waits(armed, g) + (if t.owner == g then [t.delay] else [])
  {
    assert (armed + [t])[..|armed|] == armed;
  }

  lemma {:induction false} NoneYet(owners: seq<nat>, armed: seq<Timer>, g: nat)
    requires forall p :: 0 <= p < |owners| ==> owners[p] != g
    requires forall t :: 0 <= t < |armed| ==> armed[t].owner != g
    ensures Count(owners, g) == 0 && Waits(armed, g) == []
    decreases |owners| + |armed|
  {
    if owners != [] { NoneYet(owners[..|owners| - 1], armed, g); }
    if armed != [] { NoneYet(owners, armed[..|armed| - 1], g); }
  }

  /** Every wait is the backoff of its attempt plus a jitter below one second. */
  ghost predicate WaitsBackOff(config: Config, waits: seq<real>) {
    forall i :: 0 <= i < |waits| ==>
      Backoff(config, i + 1) as real <= waits[i] < Backoff(config, i + 1) as real + 1000.0
  }

  ghost function Rounds(gen: Generation): nat {
    var m := MaxAttempts(gen.config);
    if m > 0 && gen.attempts > m then m else gen.attempts
  }

  ghost predicate Ledger(w: World, g: nat)
    requires WellFormed(w) && g < |w.gens|
  {
    && |Waits(w.armed, g)| == Rounds(w.gens[g])
    && WaitsBackOff(w.gens[g].config, Waits(w.armed, g))
    && Spawns(w, g) + (if OwnsTimer(w, g) then 1 else 0) <= 1 + Rounds(w.gens[g])
  }

  ghost predicate Ledgers(w: World)
    requires WellFormed(w)
  {
    forall g: nat :: g < |w.gens| ==> Ledger(w, g)
  }

  lemma LedgerStart(w: World, config: Config)
    requires Inv(w) && Ledgers(w)
    ensures Ledgers(StartIngestion(w, config))
  {
    var w' := StartIngestion(w, config);
    if StartReply(w, config).Accepted? {
      forall g: nat | g < |w'.gens| ensures Ledger(w', g) {
        CountAppend(w.spawned, |w.gens|, g);
        if g == |w.gens| { NoneYet(w.spawned, w.armed, g); } else { assert Ledger(w, g); }
      }
    }
  }

  lemma LedgerKept(w: World, w': World)
    requires WellFormed(w) && WellFormed(w') && Ledgers(w)
    requires w'.spawned == w.spawned && w'.armed == w.armed && w'.pending <= w.pending
    requires |w'.gens| == |w.gens|
    requires forall g :: 0 <= g < |w.gens| ==>
      w'.gens[g].config == w.gens[g].config && w'.gens[g].attempts == w.gens[g].attempts
    ensures Ledgers(w')
  {
    forall g: nat | g < |w'.gens| ensures Ledger(w', g) { assert Ledger(w, g); }
  }

  ghost predicate Settled(w: World, g: nat) {
    Inv(w) && Ledgers(w) && g < |w.gens| && Idle(w, g)
  }

  lemma LedgerGiveUp(w: World, g: nat)
    requires Settled(w, g) && GivesUp(w.gens[g])
    requires w.gens[g].attempts <= MaxAttempts(w.gens[g].config)
    ensures Ledgers(GiveUp(w, g))
  {
    var w' := GiveUp(w, g);
    forall h: nat | h < |w'.gens| ensures Ledger(w', h) { assert Ledger(w, h); }
  }

  lemma LedgerArm(w: World, g: nat, jitter: Jitter)
    requires Settled(w, g) && !GivesUp(w.gens[g])
    ensures Ledgers(ArmTimer(w, g, jitter))
  {
    var w' := ArmTimer(w, g, jitter);
    var t := w'.armed[|w.armed|];
    forall h: nat | h < |w'.gens| ensures Ledger(w', h) {
      assert Ledger(w, h);
      WaitsAppend(w.armed, t, h);
    }
  }

  lemma LedgerClose(w: World, p: nat, code: Option<int>, jitter: Jitter)
    requires Inv(w) && Ledgers(w) && p in w.open
    ensures Ledgers(OnClose(w, p, code, jitter))
  {
    var w1 := w.(open := w.open - {p});
    InvDrop(w, w1.open, w.pending);
    LedgerKept(w, w1);
    var g := w.spawned[p];
    assert Bounded(w, g);
    if GivesUp(w1.gens[g]) { LedgerGiveUp(w1, g); } else { LedgerArm(w1, g, jitter); }
  }

  lemma LedgerTimer(w: World, t: nat)
    requires Inv(w) && Ledgers(w) && t in w.pending
    ensures Ledgers(OnTimer(w, t))
  {
    var g := w.armed[t].owner;
    var w' := OnTimer(w, t);
    assert OwnsTimer(w, g);
    forall h: nat | h < |w'.gens| ensures Ledger(w', h) {
      assert Ledger(w, h);
      CountAppend(w.spawned, g, h);
      assert h != g && OwnsTimer(w', h) ==> OwnsTimer(w, h);
      assert h == g ==> !OwnsTimer(w', h);
    }
  }

  lemma LedgerStep(w: World, e: Event)
    requires Inv(w) && Ledgers(w)
    ensures Ledgers(Step(w, e))
  {
    hide OnClose, OnTimer, StartIngestion;
    if Enabled(w, e) {
      match e
      case Probe(ok) => LedgerKept(w, Step(w, e));
      case Start(config) => LedgerStart(w, config);
      case Stop(id) => LedgerKept(w, Step(w, e));
      case Restart(id) =>
        if id in w.processes {
          InvStop(w, id);
          LedgerKept(w, StopRunning(w, id));
          LedgerStart(StopRunning(w, id), w.configs[id]);
        }
      case ProcessError(p) => LedgerKept(w, Step(w, e));
      case ProcessClose(p, code, jitter) => LedgerClose(w, p, code, jitter);
      case TimerFires(t) => LedgerTimer(w, t);
    }
  }

  lemma {:induction false} LedgerRun(w: World, es: seq<Event>)
    requires Inv(w) && Ledgers(w)
    ensures Ledgers(Run(w, es))
    decreases |es|
  {
    if es != [] {
      LedgerStep(w, es[0]);
      InvStep(w, es[0]);
      LedgerRun(Step(w, es[0]), es[1..]);
    }
  }

  /**
   With a positive maximum m, one accepted start counts at most m + 1 failures and spawns at most
   m + 1 times, in every run; it has waited m times when it gives up, and no more before.  Without
   a positive maximum it never gives up.
   */
  lemma SpawnsBounded(es: seq<Event>, g: nat, m: int)
    requires g < |Run(INIT, es).gens| && MaximumIs(Run(INIT, es).gens[g].config, m)
    ensures var w := Run(INIT, es);
            var gen, waits := w.gens[g], |Waits(w.armed, g)|;
            && (m > 0 ==> gen.attempts <= m + 1 && Spawns(w, g) <= m + 1 && waits <= m)
            && (gen.status == MaxRetries ==> m > 0 && waits == m)
            && (m <= 0 ==> gen.status != MaxRetries && waits == gen.attempts)
  {
    var w := Run(INIT, es);
    InvRun(INIT, es);
    LedgerRun(INIT, es);
    assert Bounded(w, g) && Ledger(w, g);
  }

  // ---- without a maximum there is no bound ----

  /** The generation is the current one of its stream and p is its process, listed and open. */
  ghost predicate Streaming(w: World, g: nat, p: nat)
    requires WellFormed(w)
  {
    && g < |w.gens| && p in w.open && w.spawned[p] == g
    && StreamOf(w, g) in w.processes
  }

  lemma FailingRound(w: World, g: nat, p: nat)
    requires Inv(w) && Streaming(w, g, p) && MaxAttempts(w.gens[g].config) <= 0
    ensures var w1 := Step(w, ProcessClose(p, Some(1), 0.0));
            && w1 == ArmTimer(w.(open := w.open - {p}), g, 0.0)
            && Enabled(w1, TimerFires(|w.armed|))
            && Step(w1, TimerFires(|w.armed|)) == OnTimer(w1, |w.armed|)
  {
    hide StartIngestion, RestartIngestion, StopIngestion;
  }

  /** One failure and one reconnection. */
  lemma OneRound(w: World, g: nat, p: nat) returns (es: seq<Event>)
    requires Inv(w) && Streaming(w, g, p) && MaxAttempts(w.gens[g].config) <= 0
    ensures Streaming(Run(w, es), g, |w.spawned|) && Inv(Run(w, es))
    ensures Run(w, es).gens[g].config == w.gens[g].config
    ensures Spawns(Run(w, es), g) == Spawns(w, g) + 1
  {
    var close, fire := ProcessClose(p, Some(1), 0.0), TimerFires(|w.armed|);
    es := [close] + [fire];
    var w1 := Step(w, close);
    var w2 := OnTimer(w1, |w.armed|);
    FailingRound(w, g, p);
    assert w2.spawned == w.spawned + [g];
    CountAppend(w.spawned, g, g);
    InvStep(w, close);
    InvTimer(w1, |w.armed|);
    hide Step, OnTimer, ArmTimer;
    RunAppend(w, [close], [fire]);
    RunOfOne(w, close);
    RunOfOne(w1, fire);
  }

  lemma {:induction false} ManyRounds(w: World, g: nat, p: nat, n: nat) returns (es: seq<Event>)
    requires Inv(w) && Streaming(w, g, p) && MaxAttempts(w.gens[g].config) <= 0
    ensures Spawns(Run(w, es), g) == Spawns(w, g) + n
    decreases n
  {
    if n == 0 {
      es := [];
    } else {
      var round := OneRound(w, g, p);
      var rest := ManyRounds(Run(w, round), g, |w.spawned|, n - 1);
      RunAppend(w, round, rest);
      es := round + rest;
    }
  }

  ghost predicate SpawnsAtMost(w: World, g: nat, bound: nat)
    requires Safe(w)
  {
    forall es :: Spawns(Run(w, es), g) <= bound
  }

  /** The spawns of an accepted start are bounded over all runs exactly if the maximum is positive. */
  lemma SpawnsBoundedIffMaximum(w: World, config: Config, m: int)
    requires Inv(w) && Ledgers(w) && StartReply(w, config).Accepted? && MaximumIs(config, m)
    ensures m > 0 ==> SpawnsAtMost(StartIngestion(w, config), |w.gens|, m + 1)
    ensures (exists b: nat :: SpawnsAtMost(StartIngestion(w, config), |w.gens|, b)) <==> m > 0
  {
    var g, w' := |w.gens|, StartIngestion(w, config);
    InvStart(w, config);
    LedgerStart(w, config);
    if MaxAttempts(config) > 0 {
      forall es ensures Spawns(Run(w', es), g) <= MaxAttempts(config) + 1 {
        InvRun(w', es);
        LedgerRun(w', es);
        ConfigKept(w', es, g);
        assert Ledger(Run(w', es), g);
      }
      assert SpawnsAtMost(w', g, MaxAttempts(config) + 1);
    } else {
      forall b: nat ensures !SpawnsAtMost(w', g, b) {
        var es := ManyRounds(w', g, |w.spawned|, b + 1);
      }
    }
  }

  lemma ConfigKeptStart(w: World, config: Config, g: nat)
    requires WellFormed(w) && g < |w.gens|
    ensures g < |StartIngestion(w, config).gens| && StartIngestion(w, config).gens[g].config == w.gens[g].config
  {
  }

  lemma ConfigKeptStep(w: World, e: Event, g: nat)
    requires Safe(w) && g < |w.gens|
    ensures g < |Step(w, e).gens| && Step(w, e).gens[g].config == w.gens[g].config
  {
    hide StartReply, SpawnFFmpeg;
    match e
    case Start(config) => ConfigKeptStart(w, config, g);
    case Restart(id) => if id in w.processes { ConfigKeptStart(StopRunning(w, id), w.configs[id], g); }
    case TimerFires(t) => if t in w.pending { ConfigKeptTimer(w, t, g); }
    case _ =>
  }

  lemma ConfigKeptTimer(w: World, t: nat, g: nat)
    requires WellFormed(w) && g < |w.gens| && t in w.pending
    ensures g < |OnTimer(w, t).gens| && OnTimer(w, t).gens[g].config == w.gens[g].config
  {
  }

  /** Generations are only ever added, and keep the configuration they were started with. */
  lemma {:induction false} ConfigKept(w: World, es: seq<Event>, g: nat)
    requires Safe(w) && g < |w.gens|
    ensures g < |Run(w, es).gens| && Run(w, es).gens[g].config == w.gens[g].config
    decreases |es|
  {
    if es != [] {
      ConfigKeptStep(w, es[0], g);
      ConfigKept(Step(w, es[0]), es[1..], g);
    }
  }
}
