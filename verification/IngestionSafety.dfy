/** Consequences of the invariants for every run: token counts, summary, finality of stop. */
module IngestionSafety {
  import opened Common
  import opened IngestionModel
  import opened IngestionInvariants

  // ---- tokens never outnumber accepted starts ----

  ghost function ProcessesOf(w: World, id: string): set<nat>
    requires WellFormed(w)
  {
    set p | p in w.open && StreamOf(w, w.spawned[p]) == id
  }

  ghost function TimersOf(w: World, id: string): set<nat>
    requires WellFormed(w)
  {
    set t | t in w.pending && StreamOf(w, w.armed[t].owner) == id
  }

  ghost function StartsOf(w: World, id: string): set<nat> {
    set g: nat | g < |w.gens| && w.gens[g].config.streamId == id
  }

  lemma {:induction false} InjectiveImageSize(s: set<nat>, owner: seq<nat>)
    requires forall p :: p in s ==> p < |owner|
    requires forall p, q :: p in s && q in s && owner[p] == owner[q] ==> p == q
    ensures |set p | p in s :: owner[p]| == |s|
    decreases s
  {
    var image := set p | p in s :: owner[p];
    if s == {} {
      assert image == {};
    } else {
      var x :| x in s;
      var rest := s - {x};
      InjectiveImageSize(rest, owner);
      assert image == (set p | p in rest :: owner[p]) + {owner[x]};
    }
  }

  lemma ProcessOwners(w: World, id: string)
    requires Inv(w)
    ensures |set p | p in ProcessesOf(w, id) :: w.spawned[p]| == |ProcessesOf(w, id)|
  {
    InjectiveImageSize(ProcessesOf(w, id), w.spawned);
  }

  lemma TimerOwners(w: World, id: string)
    requires Inv(w)
    ensures |set t | t in TimersOf(w, id) :: w.armed[t].owner| == |TimersOf(w, id)|
  {
    var owner := seq(|w.armed|, t requires 0 <= t < |w.armed| => w.armed[t].owner);
    InjectiveImageSize(TimersOf(w, id), owner);
    assert (set t | t in TimersOf(w, id) :: w.armed[t].owner) == set t | t in TimersOf(w, id) :: owner[t];
  }

  lemma TwoPartsSize<T>(a: set<T>, b: set<T>, whole: set<T>)
    requires a !! b && a + b <= whole
    ensures |a| + |b| <= |whole|
  {
    assert |a + b| == |a| + |b|;
    assert whole == (a + b) + (whole - (a + b));
  }

  lemma TokensWithinStarts(w: World, id: string)
    requires Inv(w)
    ensures |ProcessesOf(w, id)| + |TimersOf(w, id)| <= |StartsOf(w, id)|
  {
    var a := set p | p in ProcessesOf(w, id) :: w.spawned[p];
    var b := set t | t in TimersOf(w, id) :: w.armed[t].owner;
    ProcessOwners(w, id);
    TimerOwners(w, id);
    TwoPartsSize(a, b, StartsOf(w, id));
  }

  lemma TokensAtMostStarts(es: seq<Event>, id: string)
    ensures var w := Run(INIT, es);
            |ProcessesOf(w, id)| + |TimersOf(w, id)| <= |StartsOf(w, id)|
  {
    InvRun(INIT, es);
    TokensWithinStarts(Run(INIT, es), id);
  }

  // ---- getSummary ----

  ghost function WithStatus(w: World, statuses: set<Status>): set<string>
    requires WellFormed(w)
  {
    set id | id in w.states && w.gens[w.states[id]].status in statuses
  }

  lemma ThreePartsSize<T>(a: set<T>, b: set<T>, c: set<T>)
    requires a !! b !! c
    ensures |a + b + c| == |a| + |b| + |c|
  {
    assert |a + b| == |a| + |b|;
  }

  lemma StatusesCover(w: World)
    requires Inv(w)
    ensures w.states.Keys ==
            WithStatus(w, {Running}) + WithStatus(w, {Reconnecting}) + WithStatus(w, {Error, MaxRetries})
  {
    forall id | id in w.states
      ensures w.gens[w.states[id]].status in {Running, Reconnecting, Error, MaxRetries}
    {
      assert Describes(w, id);
    }
  }

  lemma SummaryOf(w: World)
    requires Inv(w)
    ensures |w.states| == |WithStatus(w, {Running})| + |WithStatus(w, {Reconnecting})|
                          + |WithStatus(w, {Error, MaxRetries})|
  {
    StatusesCover(w);
    ThreePartsSize(WithStatus(w, {Running}), WithStatus(w, {Reconnecting}), WithStatus(w, {Error, MaxRetries}));
  }

  /** In every reachable state the three counts of the summary add up to the number of entries. */
  lemma SummaryAddsUp(es: seq<Event>)
    ensures var w := Run(INIT, es);
            |w.states| == |WithStatus(w, {Running})| + |WithStatus(w, {Reconnecting})|
                          + |WithStatus(w, {Error, MaxRetries})|
  {
    InvRun(INIT, es);
    SummaryOf(Run(INIT, es));
  }

  /** The state object that stop looks up without a check is there, and was running. */
  lemma StopFindsState(es: seq<Event>, id: string)
    ensures var w := Run(INIT, es);
            id in w.processes ==> id in w.states && id in w.configs && IsRunning(w, id)
  {
    InvRun(INIT, es);
    assert Describes(Run(INIT, es), id);
  }

  // ---- stop is final ----

  ghost predicate Absent(w: World, id: string) {
    id !in w.processes && id !in w.states && id !in w.configs
  }

  /** From p on, no process belongs to the stream. */
  ghost predicate NoneSpawnedFrom(w: World, p: nat, id: string)
    requires WellFormed(w)
  {
    forall q :: p <= q < |w.spawned| ==> StreamOf(w, w.spawned[q]) != id
  }

  /** The stream is in no map, no process from p on is its own, and its generation g has been stopped. */
  ghost predicate Withdrawn(w: World, id: string, g: nat, p: nat)
    requires WellFormed(w)
  {
    && Absent(w, id) && NoneSpawnedFrom(w, p, id)
    && g < |w.gens| && StreamOf(w, g) == id && w.gens[g].status in {Stopped, Error}
  }

  lemma WithdrawnStart(w: World, config: Config, id: string, g: nat, p: nat)
    requires Inv(w) && Withdrawn(w, id, g, p) && !(config.streamId == id && StartReply(w, config).Accepted?)
    ensures Withdrawn(StartIngestion(w, config), id, g, p)
  {
  }

  lemma WithdrawnStop(w: World, other: string, id: string, g: nat, p: nat)
    requires Inv(w) && Withdrawn(w, id, g, p) && other in w.processes
    ensures Withdrawn(StopRunning(w, other), id, g, p)
  {
    assert Describes(w, other);
  }

  lemma WithdrawnClose(w: World, q: nat, code: Option<int>, jitter: Jitter, id: string, g: nat, p: nat)
    requires Inv(w) && Withdrawn(w, id, g, p) && q in w.open
    ensures Withdrawn(OnClose(w, q, code, jitter), id, g, p)
  {
  }

  lemma WithdrawnTimer(w: World, t: nat, id: string, g: nat, p: nat)
    requires Inv(w) && Withdrawn(w, id, g, p) && t in w.pending
    ensures Withdrawn(OnTimer(w, t), id, g, p)
  {
  }

  lemma WithdrawnStep(w: World, e: Event, id: string, g: nat, p: nat)
    requires Inv(w) && Withdrawn(w, id, g, p) && !AcceptsStart(w, e, id)
    ensures Withdrawn(Step(w, e), id, g, p)
  {
    hide StartIngestion, StopRunning, OnClose, OnTimer;
    if Enabled(w, e) {
      match e
      case Probe(_) =>
      case Start(config) => WithdrawnStart(w, config, id, g, p);
      case Stop(other) => if other in w.processes { WithdrawnStop(w, other, id, g, p); }
      case Restart(other) =>
        if other in w.processes {
          assert Describes(w, other);
          InvStop(w, other);
          WithdrawnStop(w, other, id, g, p);
          WithdrawnStart(StopRunning(w, other), w.configs[other], id, g, p);
        }
      case ProcessError(q) =>
      case ProcessClose(q, code, jitter) => WithdrawnClose(w, q, code, jitter, id, g, p);
      case TimerFires(t) => WithdrawnTimer(w, t, id, g, p);
    }
  }

  lemma {:induction false} WithdrawnRun(w: World, es: seq<Event>, id: string, g: nat, p: nat)
    requires Inv(w) && Withdrawn(w, id, g, p) && Quiet(w, es, id)
    ensures Withdrawn(Run(w, es), id, g, p)
    decreases |es|
  {
    if es != [] {
      WithdrawnStep(w, es[0], id, g, p);
      InvStep(w, es[0]);
      WithdrawnRun(Step(w, es[0]), es[1..], id, g, p);
    }
  }

  /**
   After a stop, and until the next accepted start, nothing brings the stream back; its state
   object reads STOPPED at once, and STOPPED or ERROR later on.
   */
  lemma StopIsFinal(w: World, id: string, es: seq<Event>)
    requires Inv(w) && StopReply(w, id) == Done && Quiet(StopIngestion(w, id), es, id)
    ensures var w' := Run(StopIngestion(w, id), es);
            && Absent(w', id) && NoneSpawnedFrom(w', |w.spawned|, id)
            && w.states[id] < |w'.gens| && w'.gens[w.states[id]].status in {Stopped, Error}
    ensures StopIngestion(w, id).gens[w.states[id]].status == Stopped
  {
    InvStop(w, id);
    assert Describes(w, id);
    WithdrawnRun(StopIngestion(w, id), es, id, w.states[id], |w.spawned|);
  }

  // ---- ERROR and MAX_RETRIES are absorbing ----

  ghost predicate Failed(w: World, id: string, g: nat, status: Status)
    requires WellFormed(w)
  {
    id in w.states && w.states[id] == g && w.gens[g].status == status
  }

  lemma FailedStart(w: World, config: Config, id: string, g: nat, status: Status)
    requires Inv(w) && Failed(w, id, g, status) && config.streamId != id
    ensures Failed(StartIngestion(w, config), id, g, status)
  {
  }

  lemma FailedStop(w: World, other: string, id: string, g: nat, status: Status)
    requires Inv(w) && Failed(w, id, g, status) && other in w.processes && other != id
    ensures Failed(StopRunning(w, other), id, g, status)
  {
    assert Describes(w, id) && Describes(w, other);
  }

  lemma FailedHandler(w: World, p: nat, code: Option<int>, jitter: Jitter, id: string, g: nat, status: Status)
    requires Inv(w) && status in {Error, MaxRetries} && Failed(w, id, g, status) && p in w.open
    ensures Failed(OnClose(w, p, code, jitter), id, g, status)
    ensures Failed(OnError(w, p), id, g, status)
  {
    assert Describes(w, id) && Bounded(w, g);
  }

  lemma FailedTimer(w: World, t: nat, id: string, g: nat, status: Status)
    requires Inv(w) && status in {Error, MaxRetries} && Failed(w, id, g, status) && t in w.pending
    ensures Failed(OnTimer(w, t), id, g, status)
  {
    assert Describes(w, id);
  }

  lemma FailedStep(w: World, e: Event, id: string, g: nat, status: Status)
    requires Inv(w) && status in {Error, MaxRetries} && Failed(w, id, g, status) && !AcceptsStart(w, e, id)
    ensures Failed(Step(w, e), id, g, status)
  {
    hide OnError, OnClose, OnTimer;
    assert Describes(w, id);
    if Enabled(w, e) {
      match e
      case Probe(_) =>
      case Start(config) => if config.streamId != id { FailedStart(w, config, id, g, status); }
      case Stop(other) => if other in w.processes { FailedStop(w, other, id, g, status); }
      case Restart(other) =>
        if other in w.processes {
          assert Describes(w, other);
          InvStop(w, other);
          FailedStop(w, other, id, g, status);
          FailedStart(StopRunning(w, other), w.configs[other], id, g, status);
        }
      case ProcessError(p) => FailedHandler(w, p, None, 0.0, id, g, status);
      case ProcessClose(p, code, jitter) => FailedHandler(w, p, code, jitter, id, g, status);
      case TimerFires(t) => FailedTimer(w, t, id, g, status);
    }
  }

  lemma {:induction false} FailureIsAbsorbing(w: World, es: seq<Event>, id: string, g: nat, status: Status)
    requires Inv(w) && status in {Error, MaxRetries} && Failed(w, id, g, status) && Quiet(w, es, id)
    ensures Failed(Run(w, es), id, g, status)
    decreases |es|
  {
    if es != [] {
      FailedStep(w, es[0], id, g, status);
      InvStep(w, es[0]);
      FailureIsAbsorbing(Step(w, es[0]), es[1..], id, g, status);
    }
  }
}
