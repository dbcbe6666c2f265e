/**
 The FFmpeg ingestion supervisor as a state machine over values.

 A *generation* is one accepted start: it owns the state object and the configuration that
 the event handlers of its processes close over.  Generations, processes and timers are
 numbered in creation order.  A *token* of a generation is a process of it that has not
 emitted `close`, or a reconnect timer of it that has not fired.
 */
module IngestionModel {
  import opened Common

  const DEFAULT_MAX_ATTEMPTS: int := 10
  const DEFAULT_DELAY_MS: int := 3000
  const DELAY_CAP_MS: int := 60000

  datatype Status = Starting | Running | Reconnecting | Stopped | Error | MaxRetries

  datatype Config = Config(
    streamId: string,
    streamName: string,
    rtspUrl: string,
    wowzaAppName: string,
    ffmpegExtraArgs: seq<string>,
    reconnectDelayMs: Option<int>,
    maxReconnectAttempts: Option<int>)

  /** A state object together with the configuration captured by the handlers that hold it. */
  datatype Generation = Generation(config: Config, status: Status, attempts: nat)

  datatype Timer = Timer(owner: nat, delay: real)

  datatype World = World(
    ffmpegAvailable: bool,
    processes: map<string, nat>,
    states: map<string, nat>,
    configs: map<string, Config>,
    gens: seq<Generation>,
    spawned: seq<nat>,   // owner of every process spawned so far
    open: set<nat>,      // processes that have not emitted `close`
    errored: set<nat>,   // processes that emitted `error`
    killed: set<nat>,    // processes that stop sent SIGTERM to
    armed: seq<Timer>,   // every reconnect timer armed so far
    pending: set<nat>)   // timers that have not fired

  /** `Math.random() * 1000`. */
  type Jitter = r: real | 0.0 <= r < 1000.0

  datatype Event =
    | Probe(ok: bool)                                           // the `ffmpeg -version` check ended
    | Start(config: Config)
    | Stop(id: string)
    | Restart(id: string)
    | ProcessError(proc: nat)
    | ProcessClose(proc: nat, code: Option<int>, jitter: Jitter) // None: ended by a signal
    | TimerFires(timer: nat)

  datatype Reply = Accepted | Done | ServiceUnavailable | Conflict | BadRequest | NotFound

  const INIT: World := World(false, map[], map[], map[], [], [], {}, {}, {}, [], {})

  predicate WellFormed(w: World) {
    && (forall p :: 0 <= p < |w.spawned| ==> w.spawned[p] < |w.gens|)
    && (forall t :: 0 <= t < |w.armed| ==> w.armed[t].owner < |w.gens|)
    && (forall p :: p in w.open ==> p < |w.spawned|)
    && (forall t :: t in w.pending ==> t < |w.armed|)
    && (forall id :: id in w.states ==> w.states[id] < |w.gens|)
  }

  function StreamOf(w: World, g: nat): string
    requires g < |w.gens|
  {
    w.gens[g].config.streamId
  }

  function SetStatus(w: World, g: nat, status: Status): World
    requires g < |w.gens|
  {
    w.(gens := w.gens[g := w.gens[g].(status := status)])
  }

  // ---- validateExtraArgs ----

  function LowerChar(c: char): char {
    if 'A' <= c <= 'Z' then c + 32 as char else c
  }

  function Lower(s: string): string {
    seq(|s|, i requires 0 <= i < |s| => LowerChar(s[i]))
  }

  predicate Contains(s: string, word: string) {
    word <= s || (s != [] && Contains(s[1..], word))
  }

  predicate DangerousArg(arg: string) {
    && "-filter_complex" <= arg
    && var low := Lower(arg);
       Contains(low, "shell") || Contains(low, "exec") || Contains(low, "system")
  }

  predicate UnsafeArgs(args: seq<string>) {
    exists i :: 0 <= i < |args| && DangerousArg(args[i])
  }

  // ---- startIngestion, spawnFFmpeg ----

  function StartReply(w: World, config: Config): Reply
    requires WellFormed(w)
  {
    if !w.ffmpegAvailable then ServiceUnavailable
    else if config.streamId in w.states &&
            w.gens[w.states[config.streamId]].status in {Running, Starting} then Conflict
    else if UnsafeArgs(config.ffmpegExtraArgs) then BadRequest
    else Accepted
  }

  function SpawnFFmpeg(w: World, g: nat): (w': World)
    requires WellFormed(w) && g < |w.gens|
    ensures WellFormed(w')
  {
    var p := |w.spawned|;
    SetStatus(w, g, Running).(
      processes := w.processes[StreamOf(w, g) := p],
      spawned := w.spawned + [g],
      open := w.open + {p})
  }

  function Register(w: World, config: Config): (w': World)
    requires WellFormed(w)
    ensures WellFormed(w')
  {
    w.(gens := w.gens + [Generation(config, Starting, 0)],
       states := w.states[config.streamId := |w.gens|],
       configs := w.configs[config.streamId := config])
  }

  function StartIngestion(w: World, config: Config): (w': World)
    requires WellFormed(w)
    ensures WellFormed(w')
  {
    if StartReply(w, config).Accepted?
    then SpawnFFmpeg(Register(w, config), |w.gens|)
    else w
  }

  // ---- scheduleReconnect ----

  function Pow2(n: nat): (r: nat)
    ensures r >= 1
  {
    if n == 0 then 1 else 2 * Pow2(n - 1)
  }

  function MaxAttempts(config: Config): int {
    config.maxReconnectAttempts.GetOr(DEFAULT_MAX_ATTEMPTS)
  }

  /** The delay before the given attempt (counted from 1), without jitter. */
  function Backoff(config: Config, attempt: nat): int
    requires attempt >= 1
  {
    var delay := config.reconnectDelayMs.GetOr(DEFAULT_DELAY_MS) * Pow2(attempt - 1);
    if delay < DELAY_CAP_MS then delay else DELAY_CAP_MS
  }

  predicate GivesUp(gen: Generation) {
    var m := MaxAttempts(gen.config);
    m > 0 && gen.attempts + 1 > m
  }

  function GiveUp(w: World, g: nat): (w': World)
    requires WellFormed(w) && g < |w.gens|
    ensures WellFormed(w')
  {
    var gen := w.gens[g];
    w.(gens := w.gens[g := gen.(attempts := gen.attempts + 1, status := MaxRetries)],
       processes := w.processes - {gen.config.streamId})
  }

  function ArmTimer(w: World, g: nat, jitter: Jitter): (w': World)
    requires WellFormed(w) && g < |w.gens|
    ensures WellFormed(w')
  {
    var gen := w.gens[g];
    var delay := Backoff(gen.config, gen.attempts + 1) as real + jitter;
    w.(gens := w.gens[g := gen.(attempts := gen.attempts + 1, status := Reconnecting)],
       armed := w.armed + [Timer(g, delay)],
       pending := w.pending + {|w.armed|})
  }

  function ScheduleReconnect(w: World, g: nat, jitter: Jitter): (w': World)
    requires WellFormed(w) && g < |w.gens|
    ensures WellFormed(w')
  {
    if GivesUp(w.gens[g]) then GiveUp(w, g) else ArmTimer(w, g, jitter)
  }

  // ---- handlers ----

  function OnError(w: World, p: nat): (w': World)
    requires WellFormed(w) && p in w.open
    ensures WellFormed(w')
  {
    var g := w.spawned[p];
    SetStatus(w, g, Error).(
      processes := w.processes - {StreamOf(w, g)},
      errored := w.errored + {p})
  }

  function OnClose(w: World, p: nat, code: Option<int>, jitter: Jitter): (w': World)
    requires WellFormed(w) && p in w.open
    ensures WellFormed(w')
  {
    var g := w.spawned[p];
    var w1 := w.(open := w.open - {p});
    if StreamOf(w, g) !in w.processes then w1
    else if code.Some? && code.value != 0 then ScheduleReconnect(w1, g, jitter)
    else w1
  }

  function OnTimer(w: World, t: nat): (w': World)
    requires WellFormed(w) && t in w.pending
    ensures WellFormed(w')
  {
    var g := w.armed[t].owner;
    var w1 := w.(pending := w.pending - {t});
    if StreamOf(w, g) !in w.processes then w1 else SpawnFFmpeg(w1, g)
  }

  // ---- stopIngestion, restartIngestion ----

  function StopReply(w: World, id: string): Reply {
    if id in w.processes then Done else NotFound
  }

  /** Defined where `processes` has the id; the state object is then looked up without a check. */
  function StopRunning(w: World, id: string): (w': World)
    requires WellFormed(w) && id in w.processes && id in w.states
    ensures WellFormed(w')
  {
    SetStatus(w, w.states[id], Stopped).(
      processes := w.processes - {id},
      states := w.states - {id},
      configs := w.configs - {id},
      killed := w.killed + {w.processes[id]})
  }

  /** The keys of `processes` are among those of `states`, which are those of `configs`. */
  predicate KeysAgree(w: World) {
    w.processes.Keys <= w.states.Keys && w.states.Keys == w.configs.Keys
  }

  function StopIngestion(w: World, id: string): (w': World)
    requires WellFormed(w) && KeysAgree(w)
    ensures WellFormed(w')
  {
    if id in w.processes then StopRunning(w, id) else w
  }

  function RestartReply(w: World, id: string): Reply
    requires WellFormed(w) && KeysAgree(w)
  {
    if id !in w.configs then NotFound
    else if id !in w.processes then NotFound
    else StartReply(StopRunning(w, id), w.configs[id])
  }

  /** When the second half is refused the stop stays done. */
  function RestartIngestion(w: World, id: string): (w': World)
    requires WellFormed(w) && KeysAgree(w)
    ensures WellFormed(w')
  {
    if id !in w.processes then w
    else StartIngestion(StopRunning(w, id), w.configs[id])
  }

  predicate IsRunning(w: World, id: string)
    requires WellFormed(w)
  {
    id in w.states && w.gens[w.states[id]].status in {Running, Reconnecting}
  }

  // ---- runs ----

  /** An event that cannot happen (a closed process, a fired timer) leaves the world as it is. */
  predicate Enabled(w: World, e: Event) {
    match e
    case ProcessError(p) => p in w.open
    case ProcessClose(p, _, _) => p in w.open
    case TimerFires(t) => t in w.pending
    case _ => true
  }

  predicate Safe(w: World) {
    WellFormed(w) && KeysAgree(w)
  }

  function Step(w: World, e: Event): (w': World)
    requires Safe(w)
    ensures Safe(w')
  {
    if !Enabled(w, e) then w else
    match e
    case Probe(ok) => w.(ffmpegAvailable := ok)
    case Start(config) => StartIngestion(w, config)
    case Stop(id) => StopIngestion(w, id)
    case Restart(id) => RestartIngestion(w, id)
    case ProcessError(p) => OnError(w, p)
    case ProcessClose(p, code, jitter) => OnClose(w, p, code, jitter)
    case TimerFires(t) => OnTimer(w, t)
  }

  function Run(w: World, es: seq<Event>): (w': World)
    requires Safe(w)
    ensures Safe(w')
    decreases |es|
  {
    if es == [] then w else Run(Step(w, es[0]), es[1..])
  }

  /** The event makes the service accept a start of the stream. */
  predicate AcceptsStart(w: World, e: Event, id: string)
    requires Safe(w)
  {
    match e
    case Start(config) => config.streamId == id && StartReply(w, config).Accepted?
    case Restart(rid) => rid == id && RestartReply(w, rid).Accepted?
    case _ => false
  }

  /** No start of the stream is accepted during the run. */
  predicate Quiet(w: World, es: seq<Event>, id: string)
    requires Safe(w)
    decreases |es|
  {
    es == [] || (!AcceptsStart(w, es[0], id) && Quiet(Step(w, es[0]), es[1..], id))
  }

  predicate NoProcessOf(w: World, id: string)
    requires WellFormed(w)
  {
    forall p :: p in w.open ==> StreamOf(w, w.spawned[p]) != id
  }

  predicate NoTimerOf(w: World, id: string)
    requires WellFormed(w)
  {
    forall t :: t in w.pending ==> StreamOf(w, w.armed[t].owner) != id
  }

  /** Every process of the stream has closed and every timer of it has fired. */
  predicate Drained(w: World, id: string)
    requires WellFormed(w)
  {
    NoProcessOf(w, id) && NoTimerOf(w, id)
  }
}
