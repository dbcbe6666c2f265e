/** Stream rows beside the supervisor: the row of an ingesting stream is frozen. */
module StreamsModel {
  import opened Common
  import M = IngestionModel

  datatype StreamStatus = Active | Inactive | Failed | Connecting
  datatype Protocol = HLS | DASH | WebRTC | RTMP | RTSP | SRT

  datatype Row = Row(
    appName: string,
    streamName: string,
    sourceUrl: Option<string>,
    protocol: Protocol,
    status: StreamStatus)

  /** The fields an update may carry; the stream name is not among them. */
  datatype Changes = Changes(
    appName: Option<string>,
    sourceUrl: Option<Option<string>>,
    protocol: Option<Protocol>)

  /** The supervisor and the rows that are not soft-deleted. */
  datatype System = System(world: M.World, rows: map<string, Row>)

  datatype Call =
    | Create(id: string, row: Row)
    | Update(id: string, changes: Changes)
    | Remove(id: string)
    | StartIngestion(id: string)
    | StopIngestion(id: string)
    | SyncStatus(id: string, connected: bool)
    | Ingestion(event: M.Event)   // anything the supervisor sees on its own

  const INIT: System := System(M.INIT, map[])

  predicate Safe(s: System) {
    M.Safe(s.world)
  }

  // ---- create, update ----

  predicate NameTaken(s: System, row: Row) {
    exists id :: id in s.rows && s.rows[id].appName == row.appName && s.rows[id].streamName == row.streamName
  }

  function CreateReply(s: System, row: Row): M.Reply {
    if NameTaken(s, row) then M.Conflict else M.Done
  }

  function UpdateReply(s: System, id: string): M.Reply
    requires Safe(s)
  {
    if id !in s.rows then M.NotFound
    else if s.rows[id].status in {Active, Connecting} || M.IsRunning(s.world, id) then M.Conflict
    else M.Done
  }

  function Apply(row: Row, changes: Changes): Row {
    row.(appName := changes.appName.GetOr(row.appName),
         sourceUrl := changes.sourceUrl.GetOr(row.sourceUrl),
         protocol := changes.protocol.GetOr(row.protocol))
  }

  // ---- startIngestion ----

  /** `!stream.sourceUrl` is false. */
  predicate HasSource(row: Row) {
    row.sourceUrl.Some? && row.sourceUrl.value != ""
  }

  predicate Ingestible(s: System, id: string) {
    id in s.rows && s.rows[id].protocol == RTSP && HasSource(s.rows[id])
  }

  function ConfigOf(id: string, row: Row): M.Config
    requires HasSource(row)
  {
    M.Config(id, row.streamName, row.sourceUrl.value, row.appName, [], None, None)
  }

  function StartReply(s: System, id: string): M.Reply
    requires Safe(s)
  {
    if id !in s.rows then M.NotFound
    else if s.rows[id].protocol != RTSP then M.BadRequest
    else if !HasSource(s.rows[id]) then M.BadRequest
    else M.StartReply(s.world, ConfigOf(id, s.rows[id]))
  }

  // ---- remove, syncStatusFromWowza ----

  /** A stream that counts as running is stopped first, and what stop throws is passed on. */
  function RemoveReply(s: System, id: string): M.Reply
    requires Safe(s)
  {
    if id !in s.rows then M.NotFound
    else if M.IsRunning(s.world, id) then M.StopReply(s.world, id)
    else M.Done
  }

  function SyncedStatus(s: System, id: string, connected: bool): StreamStatus
    requires Safe(s)
  {
    if connected then Active
    else if id in s.world.states && s.world.gens[s.world.states[id]].status == M.Reconnecting then Connecting
    else Inactive
  }

  // ---- steps and runs ----

  /** What the call makes the supervisor do. */
  function EventOf(s: System, call: Call): Option<M.Event>
    requires Safe(s)
  {
    match call
    case StartIngestion(id) => if Ingestible(s, id) then Some(M.Start(ConfigOf(id, s.rows[id]))) else None
    case StopIngestion(id) => Some(M.Stop(id))
    case Remove(id) => if id in s.rows && M.IsRunning(s.world, id) then Some(M.Stop(id)) else None
    case Ingestion(e) => Some(e)
    case _ => None
  }

  function RowsAfter(s: System, call: Call): map<string, Row>
    requires Safe(s)
  {
    match call
    case Create(id, row) =>
      if id !in s.rows && CreateReply(s, row) == M.Done then s.rows[id := row.(status := Inactive)] else s.rows
    case Update(id, changes) =>
      if UpdateReply(s, id) == M.Done then s.rows[id := Apply(s.rows[id], changes)] else s.rows
    case Remove(id) => if RemoveReply(s, id) == M.Done then s.rows - {id} else s.rows
    case StartIngestion(id) =>
      if StartReply(s, id).Accepted? then s.rows[id := s.rows[id].(status := Connecting)] else s.rows
    case StopIngestion(id) =>
      if M.StopReply(s.world, id) == M.Done && id in s.rows
      then s.rows[id := s.rows[id].(status := Inactive)] else s.rows
    case SyncStatus(id, connected) =>
      if id in s.rows then s.rows[id := s.rows[id].(status := SyncedStatus(s, id, connected))] else s.rows
    case Ingestion(_) => s.rows
  }

  function Step(s: System, call: Call): (s': System)
    requires Safe(s)
    ensures Safe(s')
  {
    var e := EventOf(s, call);
    System(if e.Some? then M.Step(s.world, e.value) else s.world, RowsAfter(s, call))
  }

  function Run(s: System, calls: seq<Call>): (s': System)
    requires Safe(s)
    ensures Safe(s')
    decreases |calls|
  {
    if calls == [] then s else Run(Step(s, calls[0]), calls[1..])
  }

  /** `StreamsService` is the only starter: no start reaches the supervisor another way. */
  predicate OnlyStarter(calls: seq<Call>) {
    forall i :: 0 <= i < |calls| && calls[i].Ingestion? ==> !calls[i].event.Start?
  }
}

module StreamsSafety {
  import opened Common
  import M = IngestionModel
  import opened IngestionInvariants
  import X = IngestionExclusive
  import opened StreamsModel

  /** The stored configuration of a running stream is that of its row. */
  ghost predicate Agrees(s: System, id: string)
    requires Safe(s)
  {
    M.IsRunning(s.world, id) ==>
      && id in s.rows && id in s.world.configs
      && s.rows[id].sourceUrl == Some(s.world.configs[id].rtspUrl)
      && s.rows[id].appName == s.world.configs[id].wowzaAppName
      && s.rows[id].streamName == s.world.configs[id].streamName
  }

  ghost predicate AllAgree(s: System)
    requires Safe(s)
  {
    forall id :: Agrees(s, id)
  }

  /** Only an accepted start makes a stream run or changes its stored configuration. */
  lemma RunningOnlyByStart(w: M.World, e: M.Event, id: string)
    requires Inv(w) && M.IsRunning(M.Step(w, e), id) && !M.AcceptsStart(w, e, id)
    ensures M.IsRunning(w, id) && M.Step(w, e).configs[id] == w.configs[id]
  {
    hide M.StartIngestion, M.OnClose, M.OnTimer;
    assert Describes(w, id);
    match e
    case Start(config) => StartOfOther(w, config, id);
    case Restart(other) =>
      if other in w.processes {
        assert Describes(w, other);
        InvStop(w, other);
        StartOfOther(M.StopRunning(w, other), w.configs[other], id);
      }
    case ProcessClose(p, code, jitter) => if p in w.open { HandlerStartsNothing(w, p, code, jitter, id); }
    case TimerFires(t) => if t in w.pending { TimerStartsNothing(w, t, id); }
    case _ =>
  }

  lemma StartOfOther(w: M.World, config: M.Config, id: string)
    requires Inv(w) && !(config.streamId == id && M.StartReply(w, config).Accepted?)
    ensures M.IsRunning(M.StartIngestion(w, config), id) ==>
              M.IsRunning(w, id) && M.StartIngestion(w, config).configs[id] == w.configs[id]
  {
  }

  lemma HandlerStartsNothing(w: M.World, p: nat, code: Option<int>, jitter: M.Jitter, id: string)
    requires Inv(w) && p in w.open && M.IsRunning(M.OnClose(w, p, code, jitter), id)
    ensures M.IsRunning(w, id) && M.OnClose(w, p, code, jitter).configs == w.configs
  {
    assert Describes(w, id);
    assert Bounded(w, w.spawned[p]);
  }

  lemma TimerStartsNothing(w: M.World, t: nat, id: string)
    requires Inv(w) && t in w.pending && M.IsRunning(M.OnTimer(w, t), id)
    ensures M.IsRunning(w, id) && M.OnTimer(w, t).configs == w.configs
  {
    assert Describes(w, id);
  }

  /** An accepted restart continues a running stream with the configuration it had. */
  lemma RestartKeepsConfig(w: M.World, id: string)
    requires Inv(w) && M.AcceptsStart(w, M.Restart(id), id)
    ensures M.IsRunning(w, id) && id in M.Step(w, M.Restart(id)).configs
    ensures M.Step(w, M.Restart(id)).configs[id] == w.configs[id]
  {
    assert Describes(w, id);
  }

  lemma EventKeepsAgreement(s: System, e: M.Event, id: string)
    requires Safe(s) && Inv(s.world) && Agrees(s, id) && !e.Start?
    ensures Agrees(System(M.Step(s.world, e), s.rows), id)
  {
    InvStep(s.world, e);
    var w' := M.Step(s.world, e);
    if M.IsRunning(w', id) {
      assert Describes(w', id);
      if M.AcceptsStart(s.world, e, id) {
        RestartKeepsConfig(s.world, id);
      } else {
        RunningOnlyByStart(s.world, e, id);
      }
    }
  }

  lemma StartAgrees(s: System, id: string, x: string)
    requires Safe(s) && Inv(s.world) && Agrees(s, x)
    ensures Agrees(Step(s, StartIngestion(id)), x)
  {
    if Ingestible(s, id) {
      var e := M.Start(ConfigOf(id, s.rows[id]));
      var w' := M.Step(s.world, e);
      if M.IsRunning(w', x) && !M.AcceptsStart(s.world, e, x) {
        RunningOnlyByStart(s.world, e, x);
      }
    }
  }

  lemma AgreesStep(s: System, call: Call, id: string)
    requires Safe(s) && Inv(s.world) && AllAgree(s)
    requires call.Ingestion? ==> !call.event.Start?
    ensures Agrees(Step(s, call), id)
  {
    assert Agrees(s, id);
    if call.StartIngestion? {
      StartAgrees(s, call.id, id);
    } else {
      var e := EventOf(s, call);
      if e.Some? { EventKeepsAgreement(s, e.value, id); }
      if call == Remove(id) && RemoveReply(s, id) == M.Done { RemovedIsNotRunning(s, id); }
    }
  }

  lemma RemovedIsNotRunning(s: System, id: string)
    requires Safe(s) && Inv(s.world) && RemoveReply(s, id) == M.Done
    ensures !M.IsRunning(Step(s, Remove(id)).world, id)
  {
  }

  /** In every run the row of a running stream says what the supervisor is streaming. */
  lemma {:induction false} RowsAgreeRun(s: System, calls: seq<Call>)
    requires Safe(s) && Inv(s.world) && AllAgree(s) && OnlyStarter(calls)
    ensures AllAgree(Run(s, calls))
    decreases |calls|
  {
    if calls != [] {
      var e := EventOf(s, calls[0]);
      if e.Some? { InvStep(s.world, e.value); }
      forall id ensures Agrees(Step(s, calls[0]), id) { AgreesStep(s, calls[0], id); }
      RowsAgreeRun(Step(s, calls[0]), calls[1..]);
    }
  }

  lemma RowsAgree(calls: seq<Call>, id: string)
    requires OnlyStarter(calls)
    ensures Agrees(Run(INIT, calls), id)
  {
    RowsAgreeRun(INIT, calls);
  }

  // ---- calls that overlap ----

  // Between its reading of a row and its last step a call of the service waits: an update, a
  // start, a stop and a status sync then save the whole row as they read and changed it, a start
  // has the supervisor stream what it read, and a removal deletes.  What these late steps find
  // may have changed since.

  /** A whole call or event, or the late step of a call that read the row `copy` some time before. */
  datatype Part =
    | Whole(call: Call)
    | LateSave(id: string, copy: Row)
    | LateStart(id: string, copy: Row)
    | LateDelete(id: string)

  function PartStep(s: System, p: Part): (s': System)
    requires Safe(s)
    ensures Safe(s')
  {
    match p
    case Whole(call) => Step(s, call)
    case LateSave(id, copy) => s.(rows := s.rows[id := copy])
    case LateStart(id, copy) =>
      if HasSource(copy) then s.(world := M.StartIngestion(s.world, ConfigOf(id, copy))) else s
    case LateDelete(id) => s.(rows := s.rows - {id})
  }

  predicate SameSource(a: Row, b: Row) {
    a.sourceUrl == b.sourceUrl && a.appName == b.appName && a.streamName == b.streamName
  }

  /** What the late step must find. */
  predicate Harmless(s: System, p: Part)
    requires Safe(s)
  {
    match p
    case Whole(call) => true
    case LateSave(id, copy) => M.IsRunning(s.world, id) ==> id in s.rows && SameSource(copy, s.rows[id])
    case LateStart(id, copy) =>
      HasSource(copy) && M.StartReply(s.world, ConfigOf(id, copy)).Accepted? ==>
        id in s.rows && SameSource(copy, s.rows[id])
    case LateDelete(id) => !M.IsRunning(s.world, id)
  }

  /** No start reaches the supervisor but those of the service. */
  predicate OnlyStarterPart(p: Part) {
    p.Whole? && p.call.Ingestion? ==> !p.call.event.Start?
  }

  /** Saving a row read earlier is harmless exactly if the stream is not running or streams what was read. */
  lemma LateSaveIsSafeIff(s: System, id: string, copy: Row)
    requires Safe(s) && Inv(s.world) && AllAgree(s)
    ensures AllAgree(PartStep(s, LateSave(id, copy))) <==> Harmless(s, LateSave(id, copy))
  {
    var s' := PartStep(s, LateSave(id, copy));
    assert Agrees(s, id);
    if !M.IsRunning(s.world, id) || SameSource(copy, s.rows[id]) {
      forall x ensures Agrees(s', x) { assert Agrees(s, x); }
    } else {
      assert !Agrees(s', id);
    }
  }

  /** A start made of a row read earlier is harmless exactly if the row is still there and still the same source. */
  lemma LateStartIsSafeIff(s: System, id: string, copy: Row)
    requires Safe(s) && Inv(s.world) && AllAgree(s)
    ensures AllAgree(PartStep(s, LateStart(id, copy))) <==> Harmless(s, LateStart(id, copy))
  {
    var s' := PartStep(s, LateStart(id, copy));
    if HasSource(copy) && M.StartReply(s.world, ConfigOf(id, copy)).Accepted? {
      var config := ConfigOf(id, copy);
      assert M.IsRunning(s'.world, id) && id in s'.world.configs && s'.world.configs[id] == config;
      forall x | x != id ensures Agrees(s', x) {
        assert Agrees(s, x);
        if M.IsRunning(s'.world, x) { StartOfOther(s.world, config, x); }
      }
      assert Agrees(s', id) <==> Harmless(s, LateStart(id, copy));
    }
  }

  /** A removal that has stopped the stream may delete the row exactly if nobody started it again. */
  lemma LateDeleteIsSafeIff(s: System, id: string)
    requires Safe(s) && Inv(s.world) && AllAgree(s)
    ensures AllAgree(PartStep(s, LateDelete(id))) <==> Harmless(s, LateDelete(id))
  {
    var s' := PartStep(s, LateDelete(id));
    if M.IsRunning(s.world, id) {
      assert !Agrees(s', id);
    } else {
      forall x ensures Agrees(s', x) { assert Agrees(s, x); }
    }
  }

  lemma PartIsSafeIff(s: System, p: Part)
    requires Safe(s) && Inv(s.world) && AllAgree(s) && OnlyStarterPart(p)
    ensures AllAgree(PartStep(s, p)) <==> Harmless(s, p)
    ensures Inv(PartStep(s, p).world)
  {
    match p
    case Whole(call) =>
      var e := EventOf(s, call);
      if e.Some? { InvStep(s.world, e.value); }
      forall id ensures Agrees(Step(s, call), id) { AgreesStep(s, call, id); }
    case LateSave(id, copy) => LateSaveIsSafeIff(s, id, copy);
    case LateStart(id, copy) =>
      LateStartIsSafeIff(s, id, copy);
      if HasSource(copy) { InvStart(s.world, ConfigOf(id, copy)); }
    case LateDelete(id) => LateDeleteIsSafeIff(s, id);
  }

  /** The rows agree now and after every part of the run. */
  ghost predicate AlwaysAgree(s: System, parts: seq<Part>)
    requires Safe(s)
    decreases |parts|
  {
    AllAgree(s) && (parts == [] || AlwaysAgree(PartStep(s, parts[0]), parts[1..]))
  }

  ghost predicate AllHarmless(s: System, parts: seq<Part>)
    requires Safe(s)
    decreases |parts|
  {
    parts == [] || (Harmless(s, parts[0]) && AllHarmless(PartStep(s, parts[0]), parts[1..]))
  }

  lemma {:induction false} AgreeIffHarmless(s: System, parts: seq<Part>)
    requires Safe(s) && Inv(s.world) && AllAgree(s)
    requires forall i :: 0 <= i < |parts| ==> OnlyStarterPart(parts[i])
    ensures AlwaysAgree(s, parts) <==> AllHarmless(s, parts)
    decreases |parts|
  {
    hide PartStep, Harmless, AllAgree;
    if parts != [] {
      PartIsSafeIff(s, parts[0]);
      if AllAgree(PartStep(s, parts[0])) { AgreeIffHarmless(PartStep(s, parts[0]), parts[1..]); }
    }
  }

  /** However the calls overlap, the rows agree throughout exactly if every late step is harmless. */
  lemma OverlappingRowsAgreeIff(parts: seq<Part>)
    requires forall i :: 0 <= i < |parts| ==> OnlyStarterPart(parts[i])
    ensures AlwaysAgree(INIT, parts) <==> AllHarmless(INIT, parts)
  {
    AgreeIffHarmless(INIT, parts);
  }

  // ---- the frozen row ----

  /** The row says the stream is up or coming up, or the supervisor runs it. */
  ghost predicate InUse(s: System, id: string)
    requires Safe(s)
  {
    id in s.rows && (s.rows[id].status in {Active, Connecting} || M.IsRunning(s.world, id))
  }

  /** In use whenever a call of the run begins. */
  ghost predicate InUseThroughout(s: System, calls: seq<Call>, id: string)
    requires Safe(s)
    decreases |calls|
  {
    calls == [] || (InUse(s, id) && InUseThroughout(Step(s, calls[0]), calls[1..], id))
  }

  /** A stream in use keeps its definition through every run, or is removed. */
  lemma {:induction false} InUseIsFrozen(s: System, calls: seq<Call>, id: string)
    requires Safe(s) && id in s.rows && InUseThroughout(s, calls, id)
    ensures id in Run(s, calls).rows ==>
              Run(s, calls).rows[id] == s.rows[id].(status := Run(s, calls).rows[id].status)
    decreases |calls|
  {
    if calls != [] {
      var s' := Step(s, calls[0]);
      assert id in s'.rows ==> s'.rows[id] == s.rows[id].(status := s'.rows[id].status);
      if id in s'.rows {
        InUseIsFrozen(s', calls[1..], id);
      } else {
        assert calls[1..] == [];
      }
    }
  }

  // ---- removal ----

  /** What the supervisor sees during a run of calls. */
  ghost function Events(s: System, calls: seq<Call>): seq<M.Event>
    requires Safe(s)
    decreases |calls|
  {
    if calls == [] then []
    else
      var e := EventOf(s, calls[0]);
      (if e.Some? then [e.value] else []) + Events(Step(s, calls[0]), calls[1..])
  }

  lemma {:induction false} RunIsRunOfEvents(s: System, calls: seq<Call>)
    requires Safe(s)
    ensures Run(s, calls).world == M.Run(s.world, Events(s, calls))
    decreases |calls|
  {
    if calls != [] {
      var e := EventOf(s, calls[0]);
      var rest := Events(Step(s, calls[0]), calls[1..]);
      RunIsRunOfEvents(Step(s, calls[0]), calls[1..]);
      if e.Some? {
        assert ([e.value] + rest)[0] == e.value && ([e.value] + rest)[1..] == rest;
      } else {
        assert [] + rest == rest;
      }
    }
  }

  /** Where starts wait for the stream to drain, removing an existing row never fails. */
  lemma RemoveSucceeds(calls: seq<Call>, id: string)
    requires X.StartsDrained(M.INIT, Events(INIT, calls), id)
    ensures var s := Run(INIT, calls); RemoveReply(s, id) == M.Done <==> id in s.rows
  {
    RunIsRunOfEvents(INIT, calls);
    X.OneProcessPerStream(Events(INIT, calls), id);
  }
}

/** The service that owns the rows and calls the supervisor. */
module StreamsServices {
  import opened Common
  import M = IngestionModel
  import opened IngestionServices
  import opened StreamsModel

  class StreamsService {
    const ingestion: IngestionService
    var rows: map<string, Row>

    ghost function View(): System
      reads this, ingestion
    {
      System(ingestion.world, rows)
    }

    ghost predicate Valid()
      reads this, ingestion, ingestion.objects
    {
      ingestion.Valid()
    }

    constructor (ingestion: IngestionService)
      requires ingestion.Valid()
      ensures Valid() && this.ingestion == ingestion && View() == System(ingestion.world, map[])
    {
      this.ingestion := ingestion;
      rows := map[];
    }

    /** The repository gives the new row an id that no row has. */
    method Create(id: string, row: Row) returns (reply: M.Reply)
      requires Valid() && id !in rows
      modifies this
      ensures Valid() && reply == CreateReply(old(View()), row)
      ensures View() == Step(old(View()), StreamsModel.Create(id, row))
    {
      if other :| other in rows && rows[other].appName == row.appName && rows[other].streamName == row.streamName {
        return M.Conflict;
      }
      rows := rows[id := row.(status := Inactive)];
      reply := M.Done;
    }

    method Update(id: string, changes: Changes) returns (reply: M.Reply)
      requires Valid()
      modifies this
      ensures Valid() && reply == UpdateReply(old(View()), id)
      ensures View() == Step(old(View()), StreamsModel.Update(id, changes))
    {
      if id !in rows {
        return M.NotFound;
      }
      var stream := rows[id];
      var running := ingestion.IsRunning(id);
      if stream.status == Active || stream.status == Connecting || running {
        return M.Conflict;
      }
      rows := rows[id := Apply(stream, changes)];
      reply := M.Done;
    }

    method Remove(id: string) returns (reply: M.Reply)
      requires Valid()
      modifies this, ingestion, ingestion.objects
      ensures Valid() && reply == RemoveReply(old(View()), id)
      ensures View() == Step(old(View()), StreamsModel.Remove(id))
    {
      hide IngestionService.Valid, M.StopRunning, M.StartIngestion, M.RestartIngestion;
      if id !in rows {
        return M.NotFound;
      }
      var running := ingestion.IsRunning(id);
      if running {
        reply := ingestion.StopIngestion(id);
        if reply == M.NotFound {
          return;
        }
      }
      rows := rows - {id};
      reply := M.Done;
    }

    method StartIngestion(id: string) returns (reply: M.Reply)
      requires Valid()
      modifies this, ingestion
      ensures Valid() && reply == StartReply(old(View()), id)
      ensures View() == Step(old(View()), StreamsModel.StartIngestion(id))
    {
      hide IngestionService.Valid;
      if id !in rows {
        return M.NotFound;
      }
      var stream := rows[id];
      if stream.protocol != RTSP {
        return M.BadRequest;
      }
      if !HasSource(stream) {
        return M.BadRequest;
      }
      var state;
      reply, state := ingestion.StartIngestion(ConfigOf(id, stream));
      if reply.Accepted? {
        rows := rows[id := stream.(status := Connecting)];
      }
    }

    method StopIngestion(id: string) returns (reply: M.Reply)
      requires Valid()
      modifies this, ingestion, ingestion.objects
      ensures Valid() && reply == M.StopReply(old(View()).world, id)
      ensures View() == Step(old(View()), StreamsModel.StopIngestion(id))
    {
      hide IngestionService.Valid;
      reply := ingestion.StopIngestion(id);
      if reply == M.Done && id in rows {
        rows := rows[id := rows[id].(status := Inactive)];
      }
    }

    /** `connected` is Wowza's answer for the stream. */
    method SyncStatusFromWowza(id: string, connected: bool) returns (status: Option<StreamStatus>)
      requires Valid()
      modifies this
      ensures Valid()
      ensures status == if id in old(rows) then Some(SyncedStatus(old(View()), id, connected)) else None
      ensures View() == Step(old(View()), SyncStatus(id, connected))
    {
      hide IngestionService.Valid;
      if id !in rows {
        return None;
      }
      var synced;
      if connected {
        synced := Active;
      } else {
        var state := ingestion.GetStatus(id);
        synced := if state != null && state.status == M.Reconnecting then Connecting else Inactive;
      }
      rows := rows[id := rows[id].(status := synced)];
      status := Some(synced);
    }
  }
}
