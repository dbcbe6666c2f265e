/**
 When starts keep to one process per stream.  The code accepts a start while an earlier
 generation of the stream still owns a process or a timer; exactly the starts made once the
 stream has drained are safe.
 */
module IngestionExclusive {
  import opened Common
  import opened IngestionModel
  import opened IngestionInvariants

  /** At most one process of the stream has not closed. */
  ghost predicate AtMostOneProcess(w: World, id: string)
    requires WellFormed(w)
  {
    forall p, q | p in w.open && q in w.open &&
      StreamOf(w, w.spawned[p]) == id && StreamOf(w, w.spawned[q]) == id :: p == q
  }

  /** A process that has not closed, errored or been stopped is the one in `processes`. */
  ghost predicate LiveIsListed(w: World, id: string)
    requires WellFormed(w)
  {
    forall p :: p in w.open && p !in w.errored && p !in w.killed && StreamOf(w, w.spawned[p]) == id ==>
      id in w.processes && w.processes[id] == p
  }

  ghost predicate RunningIffListed(w: World, id: string)
    requires WellFormed(w)
  {
    IsRunning(w, id) <==> id in w.processes
  }

  /** The stream reports RECONNECTING exactly while its timer is pending. */
  ghost predicate ReconnectingIffTimer(w: World, id: string)
    requires WellFormed(w)
  {
    id in w.states ==> (w.gens[w.states[id]].status == Reconnecting <==> OwnsTimer(w, w.states[id]))
  }

  ghost predicate Good(w: World, id: string)
    requires WellFormed(w)
  {
    AtMostOneProcess(w, id) && LiveIsListed(w, id) && RunningIffListed(w, id) && ReconnectingIffTimer(w, id)
  }

  /** The tokens of the stream all belong to generation g, the current one if there is one. */
  ghost predicate OwnedBy(w: World, id: string, g: nat)
    requires WellFormed(w)
  {
    && (id in w.states ==> w.states[id] == g)
    && (forall p :: p in w.open && StreamOf(w, w.spawned[p]) == id ==> w.spawned[p] == g)
    && (forall t :: t in w.pending && StreamOf(w, w.armed[t].owner) == id ==> w.armed[t].owner == g)
  }

  ghost predicate Held(w: World, id: string, g: nat)
    requires WellFormed(w)
  {
    OwnedBy(w, id, g) && LiveIsListed(w, id) && RunningIffListed(w, id)
  }

  ghost predicate Exclusive(w: World, id: string, g: nat)
    requires WellFormed(w)
  {
    Held(w, id, g) && ReconnectingIffTimer(w, id)
  }

  lemma ExclusiveIsGood(w: World, id: string, g: nat)
    requires Inv(w) && Exclusive(w, id, g)
    ensures Good(w, id)
  {
  }

  lemma StartIsExclusive(w: World, config: Config)
    requires Inv(w) && StartReply(w, config).Accepted? && Drained(w, config.streamId)
    ensures Exclusive(StartIngestion(w, config), config.streamId, |w.gens|)
  {
  }

  lemma OtherStart(w: World, config: Config, id: string, g: nat)
    requires Inv(w) && Exclusive(w, id, g) && config.streamId != id
    ensures Exclusive(StartIngestion(w, config), id, g)
  {
    var w' := StartIngestion(w, config);
    if StartReply(w, config).Accepted? {
      assert w'.gens == w.gens + [Generation(config, Running, 0)] && w'.spawned == w.spawned + [|w.gens|];
      hide StartIngestion, StartReply;
      OtherStreamKept(w, w', id, g);
    }
  }

  /** A step of other streams. */
  lemma OtherStreamKept(w: World, w': World, id: string, g: nat)
    requires Inv(w) && Exclusive(w, id, g) && WellFormed(w')
    requires |w.gens| <= |w'.gens| && w.spawned <= w'.spawned && w.armed <= w'.armed
    requires forall h :: 0 <= h < |w.gens| ==> w'.gens[h].config == w.gens[h].config
    requires w.errored <= w'.errored && w.killed <= w'.killed
    requires id in w'.states <==> id in w.states
    requires id in w.states ==> w'.states[id] == w.states[id] && w'.gens[w.states[id]].status == w.gens[w.states[id]].status
    requires id in w'.processes <==> id in w.processes
    requires id in w.processes ==> w'.processes[id] == w.processes[id]
    requires forall p :: p in w'.open && StreamOf(w', w'.spawned[p]) == id ==> p in w.open
    requires forall t :: t in w'.pending && StreamOf(w', w'.armed[t].owner) == id ==> t in w.pending
    requires forall t :: t in w.pending && StreamOf(w, w.armed[t].owner) == id ==> t in w'.pending
    ensures Exclusive(w', id, g)
  {
    assert forall p :: p in w.open ==> w'.spawned[p] == w.spawned[p];
    assert forall t :: t in w.pending ==> w'.armed[t] == w.armed[t];
    assert Describes(w, id);
    if id in w.states { assert OwnsTimer(w', w.states[id]) <==> OwnsTimer(w, w.states[id]); }
  }

  lemma OwnStop(w: World, id: string, g: nat)
    requires Inv(w) && Exclusive(w, id, g) && id in w.processes
    ensures Exclusive(StopRunning(w, id), id, g)
  {
    assert Describes(w, id);
  }

  lemma OtherStop(w: World, other: string, id: string, g: nat)
    requires Inv(w) && Exclusive(w, id, g) && other in w.processes && other != id
    ensures Exclusive(StopRunning(w, other), id, g)
  {
    assert Describes(w, other) && Describes(w, id);
    OtherStreamKept(w, StopRunning(w, other), id, g);
  }

  lemma ErrorStaysExclusive(w: World, p: nat, id: string, g: nat)
    requires Inv(w) && Exclusive(w, id, g) && p in w.open
    ensures Exclusive(OnError(w, p), id, g)
  {
    assert Describes(w, id);
    if StreamOf(w, w.spawned[p]) != id { OtherStreamKept(w, OnError(w, p), id, g); }
  }

  lemma GiveUpStaysExclusive(w: World, h: nat, id: string, g: nat)
    requires Inv(w) && Exclusive(w, id, g) && h < |w.gens| && Idle(w, h)
    requires StreamOf(w, h) == id ==> h == g && id in w.processes
    ensures Exclusive(GiveUp(w, h), id, g)
  {
    assert Describes(w, id);
  }

  lemma ArmStaysExclusive(w: World, h: nat, jitter: Jitter, id: string, g: nat)
    requires Inv(w) && Exclusive(w, id, g) && h < |w.gens| && Idle(w, h)
    requires StreamOf(w, h) == id ==> h == g && id in w.processes
    ensures Exclusive(ArmTimer(w, h, jitter), id, g)
  {
    assert Describes(w, id);
    if StreamOf(w, h) != id { OtherStreamKept(w, ArmTimer(w, h, jitter), id, g); }
  }

  lemma SpawnStaysExclusive(w: World, h: nat, id: string, g: nat)
    requires Inv(w) && Held(w, id, g) && h < |w.gens| && Idle(w, h)
    requires if StreamOf(w, h) == id then h == g && id in w.processes else ReconnectingIffTimer(w, id)
    ensures Exclusive(SpawnFFmpeg(w, h), id, g)
  {
    assert Describes(w, id);
  }

  lemma CloseStaysExclusive(w: World, p: nat, code: Option<int>, jitter: Jitter, id: string, g: nat)
    requires Inv(w) && Exclusive(w, id, g) && p in w.open
    ensures Exclusive(OnClose(w, p, code, jitter), id, g)
  {
    var w1, h := w.(open := w.open - {p}), w.spawned[p];
    InvDrop(w, w1.open, w.pending);
    assert Exclusive(w1, id, g);
    if StreamOf(w, h) in w.processes {
      if GivesUp(w1.gens[h]) {
        GiveUpStaysExclusive(w1, h, id, g);
      } else {
        ArmStaysExclusive(w1, h, jitter, id, g);
      }
    }
  }

  lemma TimerStaysExclusive(w: World, t: nat, id: string, g: nat)
    requires Inv(w) && Exclusive(w, id, g) && t in w.pending
    ensures Exclusive(OnTimer(w, t), id, g)
  {
    var w1, h := w.(pending := w.pending - {t}), w.armed[t].owner;
    InvDrop(w, w.open, w1.pending);
    assert Describes(w, id);
    assert StreamOf(w, h) != id ==> ReconnectingIffTimer(w1, id);
    if StreamOf(w, h) in w.processes {
      SpawnStaysExclusive(w1, h, id, g);
    }
  }

  lemma RestartStaysExclusive(w: World, other: string, id: string, g: nat)
    requires Inv(w) && Exclusive(w, id, g) && other in w.processes
    requires other == id ==> !RestartReply(w, id).Accepted?
    ensures Exclusive(RestartIngestion(w, other), id, g)
  {
    InvStop(w, other);
    assert Describes(w, other);
    if other == id {
      OwnStop(w, id, g);
    } else {
      OtherStop(w, other, id, g);
      OtherStart(StopRunning(w, other), w.configs[other], id, g);
    }
  }

  lemma QuietStepStaysExclusive(w: World, e: Event, id: string, g: nat)
    requires Inv(w) && Exclusive(w, id, g) && !AcceptsStart(w, e, id)
    ensures Exclusive(Step(w, e), id, g)
  {
    if Enabled(w, e) {
      match e
      case Probe(_) =>
      case Start(config) => if config.streamId != id { OtherStart(w, config, id, g); }
      case Stop(other) =>
        if other in w.processes { if other == id { OwnStop(w, id, g); } else { OtherStop(w, other, id, g); } }
      case Restart(other) => if other in w.processes { RestartStaysExclusive(w, other, id, g); }
      case ProcessError(p) => ErrorStaysExclusive(w, p, id, g);
      case ProcessClose(p, code, jitter) => CloseStaysExclusive(w, p, code, jitter, id, g);
      case TimerFires(t) => TimerStaysExclusive(w, t, id, g);
    }
  }

  // ---- whole runs ----

  /** Every accepted start of the stream comes when the stream has drained. */
  ghost predicate StartsDrained(w: World, es: seq<Event>, id: string)
    requires Safe(w)
    decreases |es|
  {
    es == [] ||
    ((AcceptsStart(w, es[0], id) ==> Drained(w, id)) && StartsDrained(Step(w, es[0]), es[1..], id))
  }

  lemma AcceptedStepIsExclusive(w: World, e: Event, id: string)
    requires Inv(w) && AcceptsStart(w, e, id) && Drained(w, id)
    ensures Exclusive(Step(w, e), id, |w.gens|)
  {
    match e
    case Start(config) => StartIsExclusive(w, config);
    case Restart(_) =>
      InvStop(w, id);
      assert Describes(w, id);
      var w1 := StopRunning(w, id);
      assert |w1.gens| == |w.gens|;
      StartIsExclusive(w1, w.configs[id]);
  }

  /** In such a run the stream is held by one generation at a time. */
  lemma {:induction false} SomeExclusive(w: World, es: seq<Event>, id: string, g: nat) returns (h: nat)
    requires Inv(w) && Exclusive(w, id, g) && StartsDrained(w, es, id)
    ensures Exclusive(Run(w, es), id, h)
    decreases |es|
  {
    h := g;
    if es != [] {
      var w' := Step(w, es[0]);
      InvStep(w, es[0]);
      if AcceptsStart(w, es[0], id) {
        AcceptedStepIsExclusive(w, es[0], id);
        h := SomeExclusive(w', es[1..], id, |w.gens|);
      } else {
        QuietStepStaysExclusive(w, es[0], id, g);
        h := SomeExclusive(w', es[1..], id, g);
      }
    }
  }

  lemma {:induction false} QuietIsDrained(w: World, es: seq<Event>, id: string)
    requires Safe(w) && Quiet(w, es, id)
    ensures StartsDrained(w, es, id)
    decreases |es|
  {
    hide Step, AcceptsStart, Drained;
    if es != [] { QuietIsDrained(Step(w, es[0]), es[1..], id); }
  }

  // ---- the guard is exact ----

  /** Whatever happens until the next accepted start, the stream stays as it should. */
  ghost predicate StaysGood(w: World, id: string)
    requires Safe(w)
  {
    forall es :: Quiet(w, es, id) ==> Good(Run(w, es), id)
  }

  lemma StartBesideProcess(w: World, config: Config, p: nat)
    requires Inv(w) && StartReply(w, config).Accepted?
    requires p in w.open && StreamOf(w, w.spawned[p]) == config.streamId
    ensures !AtMostOneProcess(StartIngestion(w, config), config.streamId)
  {
    var w' := StartIngestion(w, config);
    assert p in w'.open && |w.spawned| in w'.open && p != |w.spawned|;
  }

  lemma RestartBesideProcess(w: World, id: string, p: nat)
    requires Inv(w) && RestartReply(w, id).Accepted?
    requires p in w.open && StreamOf(w, w.spawned[p]) == id
    ensures !AtMostOneProcess(RestartIngestion(w, id), id)
  {
    InvStop(w, id);
    assert Describes(w, id);
    hide AtMostOneProcess, StartIngestion;
    StartBesideProcess(StopRunning(w, id), w.configs[id], p);
  }

  lemma StartBesideTimer(w: World, config: Config, t: nat)
    requires Inv(w) && StartReply(w, config).Accepted?
    requires t in w.pending && StreamOf(w, w.armed[t].owner) == config.streamId
    ensures !AtMostOneProcess(Step(StartIngestion(w, config), TimerFires(t)), config.streamId)
  {
    var w1 := StartIngestion(w, config);
    var w2 := OnTimer(w1, t);
    assert w2.spawned == w.spawned + [|w.gens|] + [w.armed[t].owner];
    assert |w.spawned| in w2.open && |w.spawned| + 1 in w2.open;
  }

  lemma NothingIsQuiet(w: World, id: string)
    requires Safe(w)
    ensures StaysGood(w, id) ==> AtMostOneProcess(w, id)
  {
    assert Quiet(w, [], id) && Run(w, []) == w;
  }

  lemma HandlerIsQuiet(w: World, e: Event, id: string)
    requires Safe(w) && !AcceptsStart(w, e, id)
    ensures StaysGood(w, id) ==> AtMostOneProcess(Step(w, e), id)
  {
    hide Step, AcceptsStart, AtMostOneProcess;
    assert [e][1..] == [] && Quiet(w, [e], id);
    RunOfOne(w, e);
  }

  lemma UndrainedStartIsBad(w: World, config: Config)
    requires Inv(w) && StartReply(w, config).Accepted? && !Drained(w, config.streamId)
    ensures !StaysGood(StartIngestion(w, config), config.streamId)
  {
    hide StaysGood, StartIngestion, StartReply, Step, AtMostOneProcess;
    InvStart(w, config);
    if p :| p in w.open && StreamOf(w, w.spawned[p]) == config.streamId {
      StartBesideProcess(w, config, p);
      NothingIsQuiet(StartIngestion(w, config), config.streamId);
    } else {
      var t :| t in w.pending && StreamOf(w, w.armed[t].owner) == config.streamId;
      StartBesideTimer(w, config, t);
      HandlerIsQuiet(StartIngestion(w, config), TimerFires(t), config.streamId);
    }
  }

  /** An accepted start keeps its stream to one process exactly if the stream had drained. */
  lemma StartIsSafeIffDrained(w: World, config: Config)
    requires Inv(w) && StartReply(w, config).Accepted?
    ensures StaysGood(StartIngestion(w, config), config.streamId) <==> Drained(w, config.streamId)
  {
    var id, w' := config.streamId, StartIngestion(w, config);
    if Drained(w, id) {
      InvStart(w, config);
      StartIsExclusive(w, config);
      forall es | Quiet(w', es, id) ensures Good(Run(w', es), id) {
        QuietIsDrained(w', es, id);
        var h := SomeExclusive(w', es, id, |w.gens|);
        InvRun(w', es);
        ExclusiveIsGood(Run(w', es), id, h);
      }
    } else {
      UndrainedStartIsBad(w, config);
    }
  }

  /** A restart that is accepted is safe on the same terms: its stop drains nothing. */
  lemma RestartIsSafeIffDrained(w: World, id: string)
    requires Inv(w) && RestartReply(w, id).Accepted?
    ensures StaysGood(RestartIngestion(w, id), id) <==> Drained(w, id)
  {
    InvStop(w, id);
    assert Describes(w, id);
    var w1 := StopRunning(w, id);
    assert Drained(w1, id) <==> Drained(w, id);
    hide StaysGood;
    StartIsSafeIffDrained(w1, w.configs[id]);
  }

  lemma OneProcessPerStream(es: seq<Event>, id: string)
    requires StartsDrained(INIT, es, id)
    ensures Good(Run(INIT, es), id)
  {
    var g := SomeExclusive(INIT, es, id, 0);
    InvRun(INIT, es);
    ExclusiveIsGood(Run(INIT, es), id, g);
  }

  /** The hypothesis cannot be dropped: a restart while the process lives leaves two of them. */
  lemma RestartDoublesProcesses(config: Config)
    requires !UnsafeArgs(config.ffmpegExtraArgs)
    ensures !AtMostOneProcess(Run(INIT, [Probe(true), Start(config), Restart(config.streamId)]), config.streamId)
  {
    var id := config.streamId;
    var w := FirstStart(config);
    FirstStartRuns(config);
    FirstStartIsRunning(config);
    RestartStep(w, id);
    hide Step, FirstStart, AtMostOneProcess, RestartIngestion, RestartReply, StartReply, Inv, UnsafeArgs;
    RestartBesideProcess(w, id, 0);
    RunOfThree(INIT, Probe(true), Start(config), Restart(id));
  }

  ghost function FirstStart(config: Config): World {
    SpawnFFmpeg(Register(INIT.(ffmpegAvailable := true), config), 0)
  }

  lemma ProbeStep(ok: bool)
    ensures Step(INIT, Probe(ok)) == INIT.(ffmpegAvailable := ok) && Inv(Step(INIT, Probe(ok)))
  {
    hide StartIngestion, RestartIngestion, StopIngestion, OnError, OnClose, OnTimer;
    InvStep(INIT, Probe(ok));
  }

  lemma FirstStartRuns(config: Config)
    requires !UnsafeArgs(config.ffmpegExtraArgs)
    ensures var w := FirstStart(config);
            Step(Step(INIT, Probe(true)), Start(config)) == w && Inv(w)
  {
    hide UnsafeArgs, Inv, SpawnFFmpeg, Register, RestartIngestion, StopIngestion, OnError, OnClose, OnTimer;
    ProbeStep(true);
    InvAccepted(INIT.(ffmpegAvailable := true), config);
  }

  /** The stream has its one process, and the service would restart it. */
  lemma FirstStartIsRunning(config: Config)
    requires !UnsafeArgs(config.ffmpegExtraArgs)
    ensures var w := FirstStart(config);
            && Safe(w) && RestartReply(w, config.streamId).Accepted?
            && 0 in w.open && StreamOf(w, w.spawned[0]) == config.streamId
  {
    hide UnsafeArgs;
  }

  lemma RestartStep(w: World, id: string)
    requires Safe(w)
    ensures Step(w, Restart(id)) == RestartIngestion(w, id)
  {
    hide RestartIngestion, StartIngestion, StopIngestion, OnError, OnClose, OnTimer;
  }

  lemma RunOfThree(w: World, a: Event, b: Event, c: Event)
    requires Safe(w)
    ensures Run(w, [a, b, c]) == Step(Step(Step(w, a), b), c)
  {
    hide Step;
    assert [a, b, c][1..] == [b, c] && [b, c][1..] == [c] && [c][1..] == [];
    assert Run(Step(Step(w, a), b), [c]) == Step(Step(Step(w, a), b), c);
    assert Run(Step(w, a), [b, c]) == Run(Step(Step(w, a), b), [c]);
  }

  // ---- the clean exit ----

  /** The stream reports RUNNING and stays listed, yet nothing of it is left to run. */
  ghost predicate Stuck(w: World, id: string)
    requires WellFormed(w)
  {
    && Drained(w, id)
    && id in w.processes
    && id in w.states && w.gens[w.states[id]].status == Running
  }

  lemma StuckIffCleanExit(w: World, p: nat, code: Option<int>, jitter: Jitter, id: string, g: nat)
    requires Inv(w) && Exclusive(w, id, g)
    requires p in w.open && id in w.processes && w.processes[id] == p
    ensures Stuck(OnClose(w, p, code, jitter), id) <==> code.None? || code.value == 0
  {
    assert Describes(w, id);
    var w1 := w.(open := w.open - {p});
    InvDrop(w, w1.open, w.pending);
    assert Idle(w1, g);
  }

  lemma StuckStop(w: World, other: string, id: string)
    requires Inv(w) && Stuck(w, id) && other != id && other in w.processes
    ensures Stuck(StopRunning(w, other), id)
  {
    assert Describes(w, id) && Describes(w, other);
  }

  lemma StuckRestart(w: World, other: string, id: string)
    requires Inv(w) && Stuck(w, id) && other != id && other in w.processes
    ensures Stuck(RestartIngestion(w, other), id)
  {
    assert Describes(w, other);
    StuckStop(w, other, id);
  }

  lemma StuckStart(w: World, config: Config, id: string)
    requires Inv(w) && Stuck(w, id)
    ensures Stuck(StartIngestion(w, config), id)
  {
    assert Describes(w, id);
  }

  lemma StuckError(w: World, p: nat, id: string)
    requires Inv(w) && Stuck(w, id) && p in w.open
    ensures Stuck(OnError(w, p), id)
  {
    assert Describes(w, id);
  }

  lemma StuckClose(w: World, p: nat, code: Option<int>, jitter: Jitter, id: string)
    requires Inv(w) && Stuck(w, id) && p in w.open
    ensures Stuck(OnClose(w, p, code, jitter), id)
  {
    assert Describes(w, id);
  }

  lemma StuckTimer(w: World, t: nat, id: string)
    requires Inv(w) && Stuck(w, id) && t in w.pending
    ensures Stuck(OnTimer(w, t), id)
  {
    assert Describes(w, id);
  }

  lemma StuckStep(w: World, e: Event, id: string)
    requires Inv(w) && Stuck(w, id) && e != Stop(id) && e != Restart(id)
    ensures Stuck(Step(w, e), id)
  {
    hide StartIngestion, OnError, OnClose, OnTimer;
    match e
    case Probe(_) =>
    case Start(config) => StuckStart(w, config, id);
    case Stop(other) => if other in w.processes { StuckStop(w, other, id); }
    case Restart(other) => if other in w.processes { StuckRestart(w, other, id); }
    case ProcessError(p) => if p in w.open { StuckError(w, p, id); }
    case ProcessClose(p, code, jitter) => if p in w.open { StuckClose(w, p, code, jitter, id); }
    case TimerFires(t) => if t in w.pending { StuckTimer(w, t, id); }
  }

  /**
   For a stream kept to one process, an accepted restart is safe exactly if nothing of the
   stream is left to restart: restarting a stream that works, or that waits to reconnect, is not.
   */
  lemma RestartIsSafeIffStuck(w: World, id: string, g: nat)
    requires Inv(w) && Exclusive(w, id, g) && RestartReply(w, id).Accepted?
    ensures Drained(w, id) <==> Stuck(w, id)
    ensures StaysGood(RestartIngestion(w, id), id) <==> Stuck(w, id)
  {
    assert RunningIffListed(w, id) && Describes(w, id);
    RestartIsSafeIffDrained(w, id);
  }

  /** Until a stop or a restart asks for it, the stream stays like that; starts are refused. */
  lemma {:induction false} StuckUntilStopped(w: World, es: seq<Event>, id: string)
    requires Inv(w) && Stuck(w, id) && Stop(id) !in es && Restart(id) !in es
    ensures Stuck(Run(w, es), id)
    ensures forall config: Config :: config.streamId == id ==> !StartReply(Run(w, es), config).Accepted?
    decreases |es|
  {
    if es != [] {
      assert es[0] in es;
      StuckStep(w, es[0], id);
      InvStep(w, es[0]);
      StuckUntilStopped(Step(w, es[0]), es[1..], id);
    }
  }
}
