/**
 The supervisor as the object it is: three maps and shared state objects, changed in place by
 calls, by the handlers of processes and by timers.  Every method is proved to take the step
 of the state machine; the ghost `world` is the value that the maps and objects stand for.
 */
module IngestionServices {
  import opened Common
  import M = IngestionModel
  import opened IngestionInvariants
  import Safety = IngestionSafety

  class IngestionProcessState {
    const streamId: string
    const streamName: string
    var status: M.Status
    var reconnectAttempts: nat
    ghost const gen: nat

    constructor (config: M.Config, ghost gen: nat)
      ensures streamId == config.streamId && streamName == config.streamName
      ensures status == M.Starting && reconnectAttempts == 0 && this.gen == gen
    {
      streamId, streamName := config.streamId, config.streamName;
      status, reconnectAttempts := M.Starting, 0;
      this.gen := gen;
    }
  }

  datatype Summary = Summary(total: nat, running: nat, reconnecting: nat, error: nat)

  class IngestionService {
    var ffmpegAvailable: bool
    var processes: map<string, nat>
    var states: map<string, IngestionProcessState>
    var configs: map<string, M.Config>
    var nextProcess: nat   // numbers the processes of the operating system
    var nextTimer: nat     // numbers the timers of the event loop

    ghost var world: M.World
    ghost var objects: seq<IngestionProcessState>   // the state object of every accepted start

    ghost predicate Mirrors()
      reads this, objects
    {
      && M.WellFormed(world)
      && ffmpegAvailable == world.ffmpegAvailable
      && processes == world.processes && configs == world.configs
      && nextProcess == |world.spawned| && nextTimer == |world.armed|
      && |objects| == |world.gens|
      && (forall g :: 0 <= g < |objects| ==>
            && objects[g].gen == g
            && objects[g].status == world.gens[g].status
            && objects[g].reconnectAttempts == world.gens[g].attempts)
      && states.Keys == world.states.Keys
      && (forall id :: id in states ==> states[id] == objects[world.states[id]])
    }

    ghost predicate Valid()
      reads this, objects
    {
      Mirrors() && M.KeysAgree(world)
    }

    /** The configuration and state object that the handlers of generation g close over. */
    ghost predicate Captured(g: nat, config: M.Config, state: IngestionProcessState)
      reads this
    {
      g < |objects| && g < |world.gens| && objects[g] == state && world.gens[g].config == config
    }

    constructor ()
      ensures Valid() && world == M.INIT && objects == []
    {
      ffmpegAvailable := false;
      processes, states, configs := map[], map[], map[];
      nextProcess, nextTimer := 0, 0;
      world, objects := M.INIT, [];
    }

    method OnProbe(ok: bool)
      requires Valid()
      modifies this
      ensures Valid() && objects == old(objects)
      ensures world == M.Step(old(world), M.Probe(ok))
    {
      ffmpegAvailable := ok;
      world := world.(ffmpegAvailable := ok);
    }

    /** A loop over the arguments that stops at the first unsafe one. */
    static method ValidateExtraArgs(args: seq<string>) returns (safe: bool)
      ensures safe <==> !M.UnsafeArgs(args)
    {
      for i := 0 to |args|
        invariant forall j :: 0 <= j < i ==> !M.DangerousArg(args[j])
      {
        if M.DangerousArg(args[i]) {
          return false;
        }
      }
      return true;
    }

    /** The checks that start makes before it touches anything. */
    method CheckStart(config: M.Config) returns (reply: M.Reply)
      requires Valid()
      ensures reply == M.StartReply(world, config)
    {
      if !ffmpegAvailable {
        return M.ServiceUnavailable;
      }
      if config.streamId in states {
        var existing := states[config.streamId];
        if existing.status == M.Running || existing.status == M.Starting {
          return M.Conflict;
        }
      }
      var safe := ValidateExtraArgs(config.ffmpegExtraArgs);
      reply := if safe then M.Accepted else M.BadRequest;
    }

    method StartIngestion(config: M.Config) returns (reply: M.Reply, state: IngestionProcessState?)
      requires Valid()
      modifies this
      ensures Valid()
      ensures reply == M.StartReply(old(world), config)
      ensures world == M.StartIngestion(old(world), config)
      ensures reply.Accepted? ==> state != null && fresh(state) && objects == old(objects) + [state]
      ensures !reply.Accepted? ==> state == null && objects == old(objects)
    {
      reply := CheckStart(config);
      if !reply.Accepted? {
        return reply, null;
      }
      state := Launch(config);
    }

    method Launch(config: M.Config) returns (state: IngestionProcessState)
      requires Valid()
      modifies this
      ensures Valid() && fresh(state) && objects == old(objects) + [state]
      ensures world == M.SpawnFFmpeg(M.Register(old(world), config), |old(world).gens|)
    {
      LaunchKeepsKeys(world, config);
      ghost var g := |objects|;
      state := Register(config);
      hide M.SpawnFFmpeg;
      SpawnFFmpeg(config, state, g);
    }

    method Register(config: M.Config) returns (state: IngestionProcessState)
      requires Mirrors()
      modifies this
      ensures Mirrors() && fresh(state) && objects == old(objects) + [state]
      ensures world == M.Register(old(world), config)
    {
      state := new IngestionProcessState(config, |objects|);
      states := states[config.streamId := state];
      configs := configs[config.streamId := config];
      objects := objects + [state];
      world := M.Register(world, config);
    }

    method SpawnFFmpeg(config: M.Config, state: IngestionProcessState, ghost g: nat)
      requires Mirrors() && Captured(g, config, state)
      modifies this, state
      ensures Mirrors() && objects == old(objects)
      ensures world == M.SpawnFFmpeg(old(world), g)
    {
      var proc := nextProcess;
      nextProcess := nextProcess + 1;
      processes := processes[config.streamId := proc];
      state.status := M.Running;
      world := M.SpawnFFmpeg(world, g);
    }

    /** A process has closed or a timer has fired; no field of the service changes. */
    ghost method Drop(open: set<nat>, pending: set<nat>)
      requires Valid() && open <= world.open && pending <= world.pending
      modifies this`world
      ensures Valid() && world == old(world).(open := open, pending := pending)
    {
      world := world.(open := open, pending := pending);
    }

    method OnError(config: M.Config, state: IngestionProcessState, proc: nat)
      requires Valid() && proc in world.open && Captured(world.spawned[proc], config, state)
      modifies this, state
      ensures Valid() && objects == old(objects)
      ensures world == M.OnError(old(world), proc)
    {
      SetStatus(state, M.Error, world.spawned[proc]);
      Unlist(config.streamId, proc);
    }

    method Unlist(streamId: string, ghost proc: nat)
      requires Valid()
      modifies this`processes, this`world
      ensures Valid()
      ensures world == old(world).(processes := old(world).processes - {streamId}, errored := old(world).errored + {proc})
    {
      processes := processes - {streamId};
      world := world.(processes := world.processes - {streamId}, errored := world.errored + {proc});
    }

    method OnClose(config: M.Config, state: IngestionProcessState, proc: nat, code: Option<int>, jitter: M.Jitter)
      requires Valid() && proc in world.open && Captured(world.spawned[proc], config, state)
      modifies this, state
      ensures Valid() && objects == old(objects)
      ensures world == M.OnClose(old(world), proc, code, jitter)
    {
      CloseKeepsKeys(world, proc, code, jitter);
      hide M.ScheduleReconnect;
      ghost var g := world.spawned[proc];
      Drop(world.open - {proc}, world.pending);
      if config.streamId !in processes {
        return;
      }
      if code.Some? && code.value != 0 {
        ScheduleReconnect(config, state, jitter, g);
      }
    }

    method ScheduleReconnect(config: M.Config, state: IngestionProcessState, jitter: M.Jitter, ghost g: nat)
      requires Mirrors() && Captured(g, config, state)
      modifies this, state
      ensures Mirrors() && objects == old(objects)
      ensures world == M.ScheduleReconnect(old(world), g, jitter)
    {
      state.reconnectAttempts := state.reconnectAttempts + 1;
      var maxAttempts := M.MaxAttempts(config);
      if maxAttempts > 0 && state.reconnectAttempts > maxAttempts {
        state.status := M.MaxRetries;
        processes := processes - {config.streamId};
      } else {
        state.status := M.Reconnecting;
        nextTimer := nextTimer + 1;
      }
      world := M.ScheduleReconnect(world, g, jitter);
    }

    method OnTimer(config: M.Config, state: IngestionProcessState, timer: nat)
      requires Valid() && timer in world.pending && Captured(world.armed[timer].owner, config, state)
      modifies this, state
      ensures Valid() && objects == old(objects)
      ensures world == M.OnTimer(old(world), timer)
    {
      TimerKeepsKeys(world, timer);
      hide M.SpawnFFmpeg;
      ghost var g := world.armed[timer].owner;
      Drop(world.open, world.pending - {timer});
      if config.streamId !in processes {
        return;
      }
      SpawnFFmpeg(config, state, g);
    }

    method StopIngestion(streamId: string) returns (reply: M.Reply)
      requires Valid()
      modifies this, objects
      ensures Valid() && objects == old(objects)
      ensures reply == M.StopReply(old(world), streamId)
      ensures world == M.StopIngestion(old(world), streamId)
    {
      if streamId !in processes {
        return M.NotFound;
      }
      var state := states[streamId];
      Forget(streamId, state);
      reply := M.Done;
    }

    /** The stream leaves the maps before its process is killed. */
    method Forget(streamId: string, state: IngestionProcessState)
      requires Valid() && streamId in processes && streamId in states && states[streamId] == state
      modifies this, state
      ensures Valid() && objects == old(objects)
      ensures world == M.StopRunning(old(world), streamId)
    {
      ghost var g := world.states[streamId];
      assert objects[g] == state;
      world := world.(
        killed := world.killed + {processes[streamId]},
        processes := world.processes - {streamId},
        states := world.states - {streamId},
        configs := world.configs - {streamId});
      processes := processes - {streamId};
      states := states - {streamId};
      configs := configs - {streamId};
      SetStatus(state, M.Stopped, g);
    }

    method SetStatus(state: IngestionProcessState, status: M.Status, ghost g: nat)
      requires Mirrors() && g < |objects| && objects[g] == state
      modifies this`world, state`status
      ensures Mirrors() && world == M.SetStatus(old(world), g, status)
    {
      state.status := status;
      world := M.SetStatus(world, g, status);
    }

    /** restart up to its await: what follows is a start with the configuration found. */
    method BeginRestart(streamId: string) returns (config: Option<M.Config>)
      requires Valid()
      modifies this, objects
      ensures Valid() && objects == old(objects)
      ensures world == M.StopIngestion(old(world), streamId)
      ensures config == if streamId in old(processes) then Some(old(configs)[streamId]) else None
    {
      if streamId !in configs {
        return None;
      }
      var stored := configs[streamId];
      var reply := StopIngestion(streamId);
      config := if reply == M.NotFound then None else Some(stored);
    }

    /** restart where nothing comes between its stop and its start. */
    method RestartIngestion(streamId: string) returns (reply: M.Reply, state: IngestionProcessState?)
      requires Valid()
      modifies this, objects
      ensures Valid()
      ensures reply == M.RestartReply(old(world), streamId)
      ensures world == M.RestartIngestion(old(world), streamId)
      ensures reply.Accepted? ==> state != null && fresh(state) && objects == old(objects) + [state]
      ensures !reply.Accepted? ==> state == null && objects == old(objects)
    {
      var config := BeginRestart(streamId);
      if config == None {
        return M.NotFound, null;
      }
      reply, state := StartIngestion(config.value);
    }

    /** Stops every listed stream, in some order of the keys. */
    method StopAll() returns (ghost order: seq<string>)
      requires Valid()
      modifies this, objects
      ensures Valid() && objects == old(objects)
      ensures processes == map[]
      ensures forall id :: id in order <==> id in old(processes)
      ensures world == M.Run(old(world), Stops(order))
    {
      order := [];
      var ids := processes.Keys;
      assert Stops(order) == [];
      while ids != {}
        invariant Valid() && objects == old(objects)
        invariant ids == processes.Keys
        invariant forall id :: id in order <==> id in old(processes) && id !in ids
        invariant world == M.Run(old(world), Stops(order))
        decreases ids
      {
        var id :| id in ids;
        ids := ids - {id};
        var _ := StopIngestion(id);
        StopsAppend(old(world), order, id);
        order := order + [id];
      }
    }

    method GetStatus(streamId: string) returns (state: IngestionProcessState?)
      requires Valid()
      ensures state == null <==> streamId !in world.states
      ensures state != null ==>
        && state.status == world.gens[world.states[streamId]].status
        && state.reconnectAttempts == world.gens[world.states[streamId]].attempts
    {
      if streamId !in states {
        return null;
      }
      state := states[streamId];
    }

    method IsRunning(streamId: string) returns (running: bool)
      requires Valid()
      ensures running <==> M.IsRunning(world, streamId)
    {
      if streamId !in states {
        return false;
      }
      var state := states[streamId];
      running := state.status == M.Running || state.status == M.Reconnecting;
    }

    method GetSummary() returns (s: Summary)
      requires Valid()
      ensures s.total == |world.states|
      ensures s.running == |Safety.WithStatus(world, {M.Running})|
      ensures s.reconnecting == |Safety.WithStatus(world, {M.Reconnecting})|
      ensures s.error == |Safety.WithStatus(world, {M.Error, M.MaxRetries})|
    {
      var running := set id | id in states && states[id].status == M.Running;
      var reconnecting := set id | id in states && states[id].status == M.Reconnecting;
      var error := set id | id in states && (states[id].status == M.Error || states[id].status == M.MaxRetries);
      assert running == Safety.WithStatus(world, {M.Running});
      assert reconnecting == Safety.WithStatus(world, {M.Reconnecting});
      assert error == Safety.WithStatus(world, {M.Error, M.MaxRetries});
      s := Summary(|states|, |running|, |reconnecting|, |error|);
    }
  }

  lemma LaunchKeepsKeys(w: M.World, config: M.Config)
    requires M.Safe(w)
    ensures M.KeysAgree(M.SpawnFFmpeg(M.Register(w, config), |w.gens|))
  {
  }

  lemma CloseKeepsKeys(w: M.World, p: nat, code: Option<int>, jitter: M.Jitter)
    requires M.Safe(w) && p in w.open
    ensures M.KeysAgree(M.OnClose(w, p, code, jitter))
  {
  }

  lemma TimerKeepsKeys(w: M.World, t: nat)
    requires M.Safe(w) && t in w.pending
    ensures M.KeysAgree(M.OnTimer(w, t))
  {
  }

  ghost function Stops(order: seq<string>): seq<M.Event> {
    seq(|order|, i requires 0 <= i < |order| => M.Stop(order[i]))
  }

  lemma StepOfStop(w: M.World, id: string)
    requires M.Safe(w)
    ensures M.Step(w, M.Stop(id)) == M.StopIngestion(w, id)
  {
    hide M.StopIngestion, M.StartIngestion, M.RestartIngestion, M.OnError, M.OnClose, M.OnTimer;
  }

  lemma StopsAppend(w: M.World, order: seq<string>, id: string)
    requires M.Safe(w)
    ensures M.Run(w, Stops(order + [id])) == M.StopIngestion(M.Run(w, Stops(order)), id)
  {
    StepOfStop(M.Run(w, Stops(order)), id);
    hide M.Step, M.StopIngestion;
    var stop := M.Stop(id);
    assert Stops(order + [id]) == Stops(order) + [stop];
    RunAppend(w, Stops(order), [stop]);
    RunOfOne(M.Run(w, Stops(order)), stop);
  }
}
