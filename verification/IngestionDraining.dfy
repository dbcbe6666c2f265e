/** Every accepted start with a positive maximum loses its last token after boundedly many events. */
module IngestionDraining {
  import opened Common
  import opened IngestionModel
  import opened IngestionInvariants

  /** A close of a process or a firing of a timer of the generation. */
  ghost predicate OwnEvent(w: World, e: Event, g: nat)
    requires WellFormed(w)
  {
    || (e.ProcessClose? && e.proc in w.open && w.spawned[e.proc] == g)
    || (e.TimerFires? && e.timer in w.pending && w.armed[e.timer].owner == g)
  }

  ghost function OwnEvents(w: World, es: seq<Event>, g: nat): nat
    requires Safe(w)
    decreases |es|
  {
    if es == [] then 0
    else (if OwnEvent(w, es[0], g) then 1 else 0) + OwnEvents(Step(w, es[0]), es[1..], g)
  }

  /** How many more events of its own the generation can see. */
  ghost function Measure(w: World, g: nat): int
    requires WellFormed(w) && g < |w.gens|
  {
    var left := MaxAttempts(w.gens[g].config) - w.gens[g].attempts;
    if OwnsProcess(w, g) then 2 * left + 1
    else if OwnsTimer(w, g) then 2 * left + 2
    else 0
  }

  lemma MeasureZeroIffIdle(w: World, g: nat)
    requires Inv(w) && g < |w.gens| && MaxAttempts(w.gens[g].config) > 0
    ensures Measure(w, g) >= 0
    ensures Measure(w, g) == 0 <==> Idle(w, g)
  {
    assert Bounded(w, g);
  }

  /** The generation has lost no attempt and no token, and has gained none. */
  ghost predicate Untouched(w: World, w': World, g: nat)
    requires WellFormed(w) && WellFormed(w') && g < |w.gens|
  {
    && g < |w'.gens|
    && w'.gens[g].config == w.gens[g].config && w'.gens[g].attempts == w.gens[g].attempts
    && (OwnsProcess(w', g) <==> OwnsProcess(w, g)) && (OwnsTimer(w', g) <==> OwnsTimer(w, g))
  }

  lemma StartUntouched(w: World, config: Config, g: nat)
    requires WellFormed(w) && g < |w.gens|
    ensures Untouched(w, StartIngestion(w, config), g)
  {
    var w' := StartIngestion(w, config);
    assert OwnsProcess(w, g) ==> OwnsProcess(w', g) by {
      if p :| p in w.open && w.spawned[p] == g { assert p in w'.open && w'.spawned[p] == g; }
    }
    assert w'.armed == w.armed && w'.pending == w.pending;
  }

  lemma SameTokensUntouched(w: World, w': World, g: nat)
    requires WellFormed(w) && WellFormed(w') && g < |w.gens| && |w'.gens| == |w.gens|
    requires w'.spawned == w.spawned && w'.open == w.open && w'.armed == w.armed && w'.pending == w.pending
    requires w'.gens[g].config == w.gens[g].config && w'.gens[g].attempts == w.gens[g].attempts
    ensures Untouched(w, w', g)
  {
  }

  lemma DropUntouched(w: World, open: set<nat>, pending: set<nat>, g: nat)
    requires WellFormed(w) && g < |w.gens| && open <= w.open && pending <= w.pending
    requires forall p :: p in w.open - open ==> w.spawned[p] != g
    requires forall t :: t in w.pending - pending ==> w.armed[t].owner != g
    ensures Untouched(w, w.(open := open, pending := pending), g)
  {
    var w' := w.(open := open, pending := pending);
    assert forall p :: p in w.open && w.spawned[p] == g ==> p in w'.open;
    assert forall t :: t in w.pending && w.armed[t].owner == g ==> t in w'.pending;
  }

  lemma SpawnUntouched(w: World, h: nat, g: nat)
    requires WellFormed(w) && g < |w.gens| && h < |w.gens| && h != g
    ensures Untouched(w, SpawnFFmpeg(w, h), g)
  {
    var w' := SpawnFFmpeg(w, h);
    assert forall p :: p in w.open ==> p in w'.open && w'.spawned[p] == w.spawned[p];
  }

  lemma ArmUntouched(w: World, h: nat, jitter: Jitter, g: nat)
    requires WellFormed(w) && g < |w.gens| && h < |w.gens| && h != g
    ensures Untouched(w, ArmTimer(w, h, jitter), g)
  {
    var w' := ArmTimer(w, h, jitter);
    assert forall t :: t in w.pending ==> t in w'.pending && w'.armed[t] == w.armed[t];
  }

  lemma CloseUntouched(w: World, p: nat, code: Option<int>, jitter: Jitter, g: nat)
    requires Inv(w) && g < |w.gens| && p in w.open && w.spawned[p] != g
    ensures Untouched(w, OnClose(w, p, code, jitter), g)
  {
    var w1, h := w.(open := w.open - {p}), w.spawned[p];
    DropUntouched(w, w1.open, w.pending, g);
    SameTokensUntouched(w1, GiveUp(w1, h), g);
    ArmUntouched(w1, h, jitter, g);
  }

  lemma TimerUntouched(w: World, t: nat, g: nat)
    requires Inv(w) && g < |w.gens| && t in w.pending && w.armed[t].owner != g
    ensures Untouched(w, OnTimer(w, t), g)
  {
    var w1 := w.(pending := w.pending - {t});
    DropUntouched(w, w.open, w1.pending, g);
    SpawnUntouched(w1, w.armed[t].owner, g);
  }

  lemma RestartUntouched(w: World, id: string, g: nat)
    requires Inv(w) && g < |w.gens| && id in w.processes
    ensures Untouched(w, RestartIngestion(w, id), g)
  {
    SameTokensUntouched(w, StopRunning(w, id), g);
    StartUntouched(StopRunning(w, id), w.configs[id], g);
  }

  lemma OtherEventUntouched(w: World, e: Event, g: nat)
    requires Inv(w) && g < |w.gens| && !OwnEvent(w, e, g)
    ensures Untouched(w, Step(w, e), g)
  {
    if Enabled(w, e) {
      match e
      case Probe(_) => SameTokensUntouched(w, Step(w, e), g);
      case Start(config) => StartUntouched(w, config, g);
      case Stop(id) => SameTokensUntouched(w, Step(w, e), g);
      case Restart(id) => if id in w.processes { RestartUntouched(w, id, g); }
      case ProcessError(p) => SameTokensUntouched(w, Step(w, e), g);
      case ProcessClose(p, code, jitter) => CloseUntouched(w, p, code, jitter, g);
      case TimerFires(t) => TimerUntouched(w, t, g);
    }
  }

  lemma OwnCloseDecreases(w: World, p: nat, code: Option<int>, jitter: Jitter)
    requires Inv(w) && p in w.open
    requires MaxAttempts(w.gens[w.spawned[p]].config) > 0
    ensures Measure(OnClose(w, p, code, jitter), w.spawned[p]) < Measure(w, w.spawned[p])
  {
    var g := w.spawned[p];
    var w1 := w.(open := w.open - {p});
    assert OwnsProcess(w, g) && Bounded(w, g);
    InvDrop(w, w1.open, w.pending);
    assert Idle(w1, g);
    assert !OwnsProcess(ArmTimer(w1, g, jitter), g);
    assert Idle(GiveUp(w1, g), g);
  }

  lemma OwnTimerDecreases(w: World, t: nat)
    requires Inv(w) && t in w.pending
    requires MaxAttempts(w.gens[w.armed[t].owner].config) > 0
    ensures Measure(OnTimer(w, t), w.armed[t].owner) < Measure(w, w.armed[t].owner)
  {
    var g := w.armed[t].owner;
    var w1 := w.(pending := w.pending - {t});
    assert OwnsTimer(w, g) && Bounded(w, g);
    InvDrop(w, w.open, w1.pending);
    assert !OwnsProcess(w, g) && Idle(w1, g);
  }

  /** The measure strictly decreases on the generation's own events and on no event grows. */
  lemma MeasureStep(w: World, e: Event, g: nat)
    requires Inv(w) && g < |w.gens| && MaxAttempts(w.gens[g].config) > 0
    ensures g < |Step(w, e).gens| && Step(w, e).gens[g].config == w.gens[g].config
    ensures OwnEvent(w, e, g) ==> Measure(Step(w, e), g) < Measure(w, g)
    ensures !OwnEvent(w, e, g) ==> Measure(Step(w, e), g) == Measure(w, g)
  {
    if !OwnEvent(w, e, g) {
      OtherEventUntouched(w, e, g);
    } else if e.ProcessClose? {
      OwnCloseDecreases(w, e.proc, e.code, e.jitter);
    } else {
      OwnTimerDecreases(w, e.timer);
    }
  }

  lemma {:induction false} MeasureRun(w: World, es: seq<Event>, g: nat)
    requires Inv(w) && g < |w.gens| && MaxAttempts(w.gens[g].config) > 0
    ensures g < |Run(w, es).gens| && Run(w, es).gens[g].config == w.gens[g].config
    ensures OwnEvents(w, es, g) + Measure(Run(w, es), g) <= Measure(w, g)
    decreases |es|
  {
    if es != [] {
      MeasureStep(w, es[0], g);
      InvStep(w, es[0]);
      MeasureRun(Step(w, es[0]), es[1..], g);
    }
  }

  /**
   Whatever other generations do, an accepted start with maximum m > 0 sees at most 2m + 1
   events of its own, and once it has seen that many it owns nothing.
   */
  lemma DrainsAfterBoundedEvents(w: World, config: Config, m: int, es: seq<Event>)
    requires Inv(w) && StartReply(w, config).Accepted? && MaximumIs(config, m) && m > 0
    ensures var w0, g := StartIngestion(w, config), |w.gens|;
            && OwnEvents(w0, es, g) <= 2 * m + 1
            && g < |Run(w0, es).gens|
            && (OwnEvents(w0, es, g) == 2 * m + 1 ==> Idle(Run(w0, es), g))
  {
    var w0, g := StartIngestion(w, config), |w.gens|;
    InvStart(w, config);
    assert |w.spawned| in w0.open && w0.spawned[|w.spawned|] == g;
    assert Measure(w0, g) == 2 * m + 1;
    MeasureRun(w0, es, g);
    InvRun(w0, es);
    MeasureZeroIffIdle(Run(w0, es), g);
  }
}
