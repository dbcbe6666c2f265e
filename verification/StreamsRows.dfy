/** What the calls of the stream service do to a row, and which streams they start. */
module StreamsRows {
  import opened Common
  import M = IngestionModel
  import opened IngestionInvariants
  import X = IngestionExclusive
  import A = IngestionAcceptance
  import R = IngestionRetries
  import B = IngestionBackoff
  import opened StreamsModel
  import opened StreamsSafety

  /** Rows of other streams and the supervisor are as they were. */
  ghost predicate OnlyRow(s: System, s': System, id: string) {
    && s'.world == s.world && s'.rows.Keys == s.rows.Keys
    && (forall x :: x in s.rows && x != id ==> s'.rows[x] == s.rows[x])
  }

  // ---- update ----

  /**
   An update of a stream that is not in use gives each named column its value and keeps the
   others; of one in use, or of none, it changes nothing.
   */
  lemma UpdateTakesIff(s: System, id: string, changes: Changes)
    requires Safe(s)
    ensures var s' := Step(s, Update(id, changes));
            && UpdateReply(s, id) == (if id !in s.rows then M.NotFound else if InUse(s, id) then M.Conflict else M.Done)
            && (id !in s.rows || InUse(s, id) ==> s' == s)
            && (id in s.rows && !InUse(s, id) ==>
                  var row, row' := s.rows[id], s'.rows[id];
                  && OnlyRow(s, s', id)
                  && (changes.appName.Some? ==> row'.appName == changes.appName.value)
                  && (changes.appName.None? ==> row'.appName == row.appName)
                  && (changes.sourceUrl.Some? ==> row'.sourceUrl == changes.sourceUrl.value)
                  && (changes.sourceUrl.None? ==> row'.sourceUrl == row.sourceUrl)
                  && (changes.protocol.Some? ==> row'.protocol == changes.protocol.value)
                  && (changes.protocol.None? ==> row'.protocol == row.protocol)
                  && row'.streamName == row.streamName && row'.status == row.status)
  {
  }

  // ---- names ----

  /** No two rows have the same application and stream name. */
  ghost predicate UniqueNames(rows: map<string, Row>) {
    forall a, b :: a in rows && b in rows && a != b ==>
      rows[a].appName != rows[b].appName || rows[a].streamName != rows[b].streamName
  }

  /** A new row is accepted exactly if names stay unique; it starts out inactive. */
  lemma CreateKeepsNamesUnique(s: System, id: string, row: Row)
    requires Safe(s) && UniqueNames(s.rows) && id !in s.rows
    ensures var s' := Step(s, Create(id, row));
            && UniqueNames(s'.rows)
            && (id in s'.rows <==> UniqueNames(s.rows[id := row]))
            && CreateReply(s, row) == (if id in s'.rows then M.Done else M.Conflict)
            && (id in s'.rows ==> s'.rows == s.rows[id := row.(status := Inactive)])
  {
    var rows := s.rows[id := row];
    if other :| other in s.rows && s.rows[other].appName == row.appName && s.rows[other].streamName == row.streamName {
      assert rows[other] == s.rows[other] && rows[id] == row && other != id;
    }
  }

  /** A removal takes the row exactly if it is there and its stream, if running, could be stopped. */
  lemma RemoveTakesIff(s: System, id: string)
    requires Safe(s) && Inv(s.world)
    ensures var s' := Step(s, Remove(id));
            && s'.rows == (if id in s.rows && (M.IsRunning(s.world, id) ==> id in s.world.processes) then s.rows - {id} else s.rows)
            && (id in s.rows && id !in s'.rows ==> !M.IsRunning(s'.world, id))
            && (id !in s.rows || !M.IsRunning(s.world, id) ==> s'.world == s.world)
            && RemoveReply(s, id) == (if id in s.rows && id !in s'.rows then M.Done else M.NotFound)
  {
  }

  /** Nothing checks the name on an update: names stay unique exactly if no other row has the new one. */
  lemma UpdateKeepsNamesUniqueIff(s: System, id: string, changes: Changes)
    requires Safe(s) && UniqueNames(s.rows) && id in s.rows && !InUse(s, id)
    ensures var rows := Step(s, Update(id, changes)).rows;
            UniqueNames(rows) <==>
              forall other :: other in s.rows && other != id ==>
                s.rows[other].appName != rows[id].appName || s.rows[other].streamName != rows[id].streamName
  {
    var rows := Step(s, Update(id, changes)).rows;
    forall other | other in s.rows && other != id ensures rows[other] == s.rows[other] {}
  }

  // ---- statuses ----

  ghost predicate Waiting(w: M.World, id: string)
    requires M.WellFormed(w)
  {
    id in w.processes && exists t :: t in w.pending && M.StreamOf(w, w.armed[t].owner) == id
  }

  /**
   Where starts wait for the stream to drain: a sync makes the row active if Wowza has the
   stream, else connecting exactly while it waits to reconnect, else inactive.
   */
  lemma SyncTellsTheTimer(calls: seq<Call>, id: string, connected: bool)
    requires X.StartsDrained(M.INIT, Events(INIT, calls), id)
    ensures var s := Run(INIT, calls);
            var s' := Step(s, SyncStatus(id, connected));
            id in s.rows ==>
              && OnlyRow(s, s', id)
              && s'.rows[id] == s.rows[id].(status :=
                   if connected then Active else if Waiting(s.world, id) then Connecting else Inactive)
  {
    hide Step, Run, Events, Waiting, OnlyRow, X.StartsDrained, M.Run;
    RunIsRunOfEvents(INIT, calls);
    WaitingIffReconnecting(Events(INIT, calls), id);
    SyncSets(Run(INIT, calls), id, connected);
  }

  lemma SyncSets(s: System, id: string, connected: bool)
    requires Safe(s)
    ensures var s' := Step(s, SyncStatus(id, connected));
            var reconnecting := id in s.world.states && s.world.gens[s.world.states[id]].status == M.Reconnecting;
            id in s.rows ==>
              && OnlyRow(s, s', id)
              && s'.rows[id] == s.rows[id].(status :=
                   if connected then Active else if reconnecting then Connecting else Inactive)
  {
  }

  lemma WaitingIffReconnecting(es: seq<M.Event>, id: string)
    requires X.StartsDrained(M.INIT, es, id)
    ensures var w := M.Run(M.INIT, es);
            Waiting(w, id) <==> id in w.states && w.gens[w.states[id]].status == M.Reconnecting
  {
    var g := X.SomeExclusive(M.INIT, es, id, 0);
    InvRun(M.INIT, es);
    var w := M.Run(M.INIT, es);
    assert Describes(w, id);
    assert X.RunningIffListed(w, id) && X.ReconnectingIffTimer(w, id);
  }

  /** A start that is accepted leaves the row connecting, a stop that succeeds leaves it inactive. */
  lemma StartAndStopSetTheStatus(s: System, id: string)
    requires Safe(s) && Inv(s.world)
    ensures var s' := Step(s, StartIngestion(id));
            && (|s'.world.gens| > |s.world.gens| ==> id in s.rows && s'.rows == s.rows[id := s.rows[id].(status := Connecting)])
            && (|s'.world.gens| == |s.world.gens| ==> s'.rows == s.rows)
    ensures var s' := Step(s, StopIngestion(id));
            s'.rows == if id in s.world.processes && id in s.rows then s.rows[id := s.rows[id].(status := Inactive)] else s.rows
  {
    if Ingestible(s, id) { A.AcceptedAddsGeneration(s.world, ConfigOf(id, s.rows[id])); }
  }

  // ---- starts ----

  /** What a stream needs of its row to be ingested. */
  ghost predicate IsCamera(s: System, id: string) {
    && id in s.rows && s.rows[id].protocol == RTSP
    && s.rows[id].sourceUrl.Some? && s.rows[id].sourceUrl.value != ""
  }

  /**
   Where starts wait for the stream to drain: the service starts it exactly if its row is that of
   a camera, FFmpeg is there, and it is not at work already.
   */
  lemma ServiceStartsIff(calls: seq<Call>, id: string)
    requires X.StartsDrained(M.INIT, Events(INIT, calls), id)
    ensures var s := Run(INIT, calls);
            |Step(s, StartIngestion(id)).world.gens| == |s.world.gens| + 1 <==>
              IsCamera(s, id) && A.LastProbe(Events(INIT, calls), false) && !A.AtWork(s.world, id)
  {
    var s := Run(INIT, calls);
    RunIsRunOfEvents(INIT, calls);
    if Ingestible(s, id) { A.StartIsAcceptedIff(Events(INIT, calls), ConfigOf(id, s.rows[id])); }
  }

  /** Not found without a row, bad request for a row that is not a camera's, and else what the supervisor answers. */
  lemma ServiceReplies(s: System, id: string)
    requires Safe(s)
    ensures StartReply(s, id) == M.NotFound <==> id !in s.rows
    ensures StartReply(s, id) == M.BadRequest <==> id in s.rows && !IsCamera(s, id)
    ensures StartReply(s, id).Accepted? <==> |Step(s, StartIngestion(id)).world.gens| == |s.world.gens| + 1
  {
    if Ingestible(s, id) {
      A.AcceptedAddsGeneration(s.world, ConfigOf(id, s.rows[id]));
      A.UnsafeArgsIff([]);
    }
  }

  // ---- what the service configures ----

  /** No extra arguments, and the default delay and maximum. */
  ghost predicate Plain(config: M.Config) {
    config.ffmpegExtraArgs == [] && config.reconnectDelayMs == None && config.maxReconnectAttempts == None
  }

  ghost predicate AllPlain(w: M.World) {
    forall g :: 0 <= g < |w.gens| ==> Plain(w.gens[g].config)
  }

  lemma PlainStart(w: M.World, config: M.Config)
    requires Inv(w) && AllPlain(w) && Plain(config)
    ensures AllPlain(M.StartIngestion(w, config))
  {
  }

  lemma PlainStep(w: M.World, e: M.Event)
    requires Inv(w) && AllPlain(w) && (e.Start? ==> Plain(e.config))
    ensures AllPlain(M.Step(w, e))
  {
    match e
    case Start(config) => PlainStart(w, config);
    case Restart(id) =>
      assert Describes(w, id);
      if id in w.processes {
        InvStop(w, id);
        PlainStart(M.StopRunning(w, id), w.configs[id]);
      }
    case _ =>
      forall g | 0 <= g < |w.gens| ensures g < |M.Step(w, e).gens| && M.Step(w, e).gens[g].config == w.gens[g].config {
        R.ConfigKeptStep(w, e, g);
      }
      NoNewGeneration(w, e);
  }

  lemma NoNewGeneration(w: M.World, e: M.Event)
    requires M.Safe(w) && !e.Start? && !e.Restart?
    ensures |M.Step(w, e).gens| == |w.gens|
  {
  }

  lemma {:induction false} PlainRun(s: System, calls: seq<Call>)
    requires Safe(s) && Inv(s.world) && AllPlain(s.world) && OnlyStarter(calls)
    ensures AllPlain(Run(s, calls).world)
    decreases |calls|
  {
    if calls != [] {
      var e := EventOf(s, calls[0]);
      if e.Some? {
        PlainStep(s.world, e.value);
        InvStep(s.world, e.value);
      }
      PlainRun(Step(s, calls[0]), calls[1..]);
    }
  }

  /**
   Where the service is the only starter, each start spawns at most eleven times and gives up,
   if ever, after ten waits of 393 to 403 seconds together.
   */
  lemma ServiceStreamsGiveUpAfterTen(calls: seq<Call>, g: nat)
    requires OnlyStarter(calls) && g < |Run(INIT, calls).world.gens|
    ensures var w := Run(INIT, calls).world;
            && R.Spawns(w, g) <= 11
            && (w.gens[g].status == M.MaxRetries ==>
                  && |R.Waits(w.armed, g)| == 10
                  && 393000.0 <= B.Sum(R.Waits(w.armed, g)) < 403000.0)
  {
    var es := Events(INIT, calls);
    RunIsRunOfEvents(INIT, calls);
    PlainRun(INIT, calls);
    R.SpawnsBounded(es, g, 10);
    if M.Run(M.INIT, es).gens[g].status == M.MaxRetries { B.WaitsBeforeGivingUp(es, g); }
  }

}
