/** What every run of the supervisor keeps, whatever the interleaving. */
module IngestionInvariants {
  import opened Common
  import opened IngestionModel

  /** The configured maximum of reconnections, ten where none is given. */
  ghost predicate MaximumIs(config: Config, m: int) {
    match config.maxReconnectAttempts
    case None => m == 10
    case Some(given) => m == given
  }

  /** The entries of the maps for an id describe a generation and a process of that stream. */
  ghost predicate Describes(w: World, id: string)
    requires Safe(w)
  {
    && (id in w.states ==>
          var gen := w.gens[w.states[id]];
          && gen.config.streamId == id
          && w.configs[id] == gen.config
          && gen.status in {Running, Reconnecting, Error, MaxRetries}
          && (gen.status in {Error, MaxRetries} ==> id !in w.processes))
    && (id in w.processes ==>
          w.processes[id] < |w.spawned| && StreamOf(w, w.spawned[w.processes[id]]) == id)
  }

  ghost predicate MapsDescribe(w: World)
    requires Safe(w)
  {
    forall id :: Describes(w, id)
  }

  ghost predicate OwnsProcess(w: World, g: nat)
    requires WellFormed(w)
  {
    exists p :: p in w.open && w.spawned[p] == g
  }

  ghost predicate OwnsTimer(w: World, g: nat)
    requires WellFormed(w)
  {
    exists t :: t in w.pending && w.armed[t].owner == g
  }

  ghost predicate Idle(w: World, g: nat)
    requires WellFormed(w)
  {
    !OwnsProcess(w, g) && !OwnsTimer(w, g)
  }

  /** Each generation owns at most one token. */
  ghost predicate OneToken(w: World)
    requires WellFormed(w)
  {
    && (forall p, q :: p in w.open && q in w.open && w.spawned[p] == w.spawned[q] ==> p == q)
    && (forall t, u :: t in w.pending && u in w.pending && w.armed[t].owner == w.armed[u].owner ==> t == u)
    && (forall p, t :: p in w.open && t in w.pending ==> w.spawned[p] != w.armed[t].owner)
  }

  /** Attempts never exceed the maximum by more than one, and then the generation owns nothing. */
  ghost predicate Bounded(w: World, g: nat)
    requires WellFormed(w) && g < |w.gens|
  {
    var m := MaxAttempts(w.gens[g].config);
    && (m > 0 ==> w.gens[g].attempts <= m + 1)
    && (w.gens[g].status == MaxRetries ==> m > 0 && w.gens[g].attempts == m + 1)
    && (m > 0 && w.gens[g].attempts == m + 1 ==> Idle(w, g))
  }

  ghost predicate RetriesBounded(w: World)
    requires WellFormed(w)
  {
    forall g: nat :: g < |w.gens| ==> Bounded(w, g)
  }

  ghost predicate Inv(w: World) {
    Safe(w) && MapsDescribe(w) && OneToken(w) && RetriesBounded(w)
  }

  lemma InvStart(w: World, config: Config)
    requires Inv(w)
    ensures Inv(StartIngestion(w, config))
  {
    if StartReply(w, config).Accepted? { InvAccepted(w, config); }
  }

  lemma InvAccepted(w: World, config: Config)
    requires Inv(w)
    ensures Inv(SpawnFFmpeg(Register(w, config), |w.gens|))
  {
    var w' := SpawnFFmpeg(Register(w, config), |w.gens|);
    forall id ensures Describes(w', id) { assert Describes(w, id); }
    forall g: nat | g < |w'.gens| ensures Bounded(w', g) {
      if g < |w.gens| { assert Bounded(w, g); }
    }
  }

  lemma InvStop(w: World, id: string)
    requires Inv(w) && id in w.processes
    ensures Inv(StopRunning(w, id))
  {
    var w' := StopRunning(w, id);
    assert Describes(w, id);
    forall x ensures Describes(w', x) { assert Describes(w, x); }
    forall g: nat | g < |w'.gens| ensures Bounded(w', g) { assert Bounded(w, g); }
  }

  lemma InvError(w: World, p: nat)
    requires Inv(w) && p in w.open
    ensures Inv(OnError(w, p))
  {
    var w' := OnError(w, p);
    forall x ensures Describes(w', x) { assert Describes(w, x); }
    forall g: nat | g < |w'.gens| ensures Bounded(w', g) { assert Bounded(w, g); }
  }

  lemma InvSpawn(w: World, g: nat)
    requires Inv(w) && g < |w.gens| && Idle(w, g) && StreamOf(w, g) in w.processes
    requires MaxAttempts(w.gens[g].config) > 0 ==> w.gens[g].attempts <= MaxAttempts(w.gens[g].config)
    ensures Safe(SpawnFFmpeg(w, g)) && Inv(SpawnFFmpeg(w, g))
  {
    var w' := SpawnFFmpeg(w, g);
    forall x ensures Describes(w', x) { assert Describes(w, x); }
    forall h: nat | h < |w'.gens| ensures Bounded(w', h) { assert Bounded(w, h); }
  }

  lemma InvGiveUp(w: World, g: nat)
    requires Inv(w) && g < |w.gens| && Idle(w, g) && GivesUp(w.gens[g])
    requires w.gens[g].attempts <= MaxAttempts(w.gens[g].config)
    ensures Safe(GiveUp(w, g)) && Inv(GiveUp(w, g))
  {
    var w' := GiveUp(w, g);
    forall x ensures Describes(w', x) { assert Describes(w, x); }
    forall h: nat | h < |w'.gens| ensures Bounded(w', h) { assert Bounded(w, h); }
  }

  lemma InvArm(w: World, g: nat, jitter: Jitter)
    requires Inv(w) && g < |w.gens| && Idle(w, g) && StreamOf(w, g) in w.processes && !GivesUp(w.gens[g])
    ensures Safe(ArmTimer(w, g, jitter)) && Inv(ArmTimer(w, g, jitter))
  {
    var w' := ArmTimer(w, g, jitter);
    forall x ensures Describes(w', x) { assert Describes(w, x); }
    forall h: nat | h < |w'.gens| ensures Bounded(w', h) { assert Bounded(w, h); }
  }

  /** Dropping a token leaves its owner with none. */
  lemma InvDrop(w: World, open: set<nat>, pending: set<nat>)
    requires Inv(w) && open <= w.open && pending <= w.pending
    ensures Inv(w.(open := open, pending := pending))
    ensures forall p :: p in w.open - open ==> Idle(w.(open := open, pending := pending), w.spawned[p])
    ensures forall t :: t in w.pending - pending ==> Idle(w.(open := open, pending := pending), w.armed[t].owner)
  {
    var w' := w.(open := open, pending := pending);
    forall x ensures Describes(w', x) { assert Describes(w, x); }
    forall h: nat | h < |w'.gens| ensures Bounded(w', h) { assert Bounded(w, h); }
  }

  lemma InvClose(w: World, p: nat, code: Option<int>, jitter: Jitter)
    requires Inv(w) && p in w.open
    ensures Inv(OnClose(w, p, code, jitter))
  {
    var g := w.spawned[p];
    assert Bounded(w, g);
    var w1 := w.(open := w.open - {p});
    InvDrop(w, w.open - {p}, w.pending);
    if StreamOf(w, g) in w.processes {
      if GivesUp(w1.gens[g]) { InvGiveUp(w1, g); } else { InvArm(w1, g, jitter); }
    }
  }

  lemma InvTimer(w: World, t: nat)
    requires Inv(w) && t in w.pending
    ensures Inv(OnTimer(w, t))
  {
    var g := w.armed[t].owner;
    assert Bounded(w, g);
    var w1 := w.(pending := w.pending - {t});
    InvDrop(w, w.open, w.pending - {t});
    if StreamOf(w, g) in w.processes { InvSpawn(w1, g); }
  }

  lemma InvStep(w: World, e: Event)
    requires Inv(w)
    ensures Inv(Step(w, e))
  {
    if Enabled(w, e) {
      match e
      case Probe(ok) =>
        var w' := w.(ffmpegAvailable := ok);
        forall x ensures Describes(w', x) { assert Describes(w, x); }
        forall h: nat | h < |w'.gens| ensures Bounded(w', h) { assert Bounded(w, h); }
      case Start(config) => InvStart(w, config);
      case Stop(id) => if id in w.processes { InvStop(w, id); }
      case Restart(id) =>
        if id in w.processes {
          InvStop(w, id);
          InvStart(StopRunning(w, id), w.configs[id]);
        }
      case ProcessError(p) => InvError(w, p);
      case ProcessClose(p, code, jitter) => InvClose(w, p, code, jitter);
      case TimerFires(t) => InvTimer(w, t);
    }
  }

  lemma {:induction false} InvRun(w: World, es: seq<Event>)
    requires Inv(w)
    ensures Inv(Run(w, es))
    decreases |es|
  {
    if es != [] {
      InvStep(w, es[0]);
      InvRun(Step(w, es[0]), es[1..]);
    }
  }

  lemma RunOfOne(w: World, e: Event)
    requires Safe(w)
    ensures Run(w, [e]) == Step(w, e)
  {
    hide Step;
    assert [e][1..] == [];
  }

  lemma {:induction false} RunAppend(w: World, es: seq<Event>, more: seq<Event>)
    requires Safe(w)
    ensures Run(w, es + more) == Run(Run(w, es), more)
    decreases |es|
  {
    hide Step;
    if es == [] {
      assert es + more == more;
    } else {
      RunAppend(Step(w, es[0]), es[1..], more);
      assert (es + more)[1..] == es[1..] + more;
    }
  }

  lemma RestartSteps(w: World, id: string)
    requires Safe(w) && id in w.processes
    ensures Step(w, Restart(id)) == Step(Step(w, Stop(id)), Start(w.configs[id]))
  {
    hide StartIngestion, StopRunning, OnError, OnClose, OnTimer;
  }

  /**
   A restart is its stop and its start, one after the other; where other events come in between,
   the run has the two apart.
   */
  lemma RestartIsStopThenStart(w: World, id: string)
    requires Inv(w) && id in w.processes
    ensures id in w.configs && Step(w, Restart(id)) == Run(w, [Stop(id), Start(w.configs[id])])
  {
    var stop, start := Stop(id), Start(w.configs[id]);
    var w1 := Step(w, stop);
    RestartSteps(w, id);
    hide Step;
    assert [stop, start] == [stop] + [start];
    RunAppend(w, [stop], [start]);
    RunOfOne(w, stop);
    RunOfOne(w1, start);
  }
}
