/** The poll beside a run of the supervisor: what it tells is what the state objects say. */
module GatewayRuns {
  import opened Common
  import M = IngestionModel
  import opened IngestionInvariants
  import X = IngestionExclusive
  import opened StreamsModel
  import opened GatewayModel
  import opened GatewaySafety

  /** A poll of a stream when the supervisor has seen the first `at` events; `status` is the answer of its sync. */
  datatype Poll = Poll(at: nat, id: string, status: StreamStatus)

  ghost function WorldAt(es: seq<M.Event>, at: nat): (w: M.World)
    ensures M.Safe(w)
  {
    M.Run(M.INIT, if at <= |es| then es[..at] else es)
  }

  ghost function Observed(es: seq<M.Event>, polls: seq<Poll>): seq<Observation> {
    if polls == [] then []
    else
      var p := polls[|polls| - 1];
      Observed(es, polls[..|polls| - 1]) + [Observation(p.id, p.status, Sighting(WorldAt(es, p.at), p.id))]
  }

  /** The status of the current generation, where that is RUNNING or RECONNECTING. */
  ghost function LiveStatus(w: M.World, id: string): Option<M.Status>
    requires M.WellFormed(w)
  {
    if id in w.states && w.gens[w.states[id]].status == M.Running then Some(M.Running)
    else if id in w.states && w.gens[w.states[id]].status == M.Reconnecting then Some(M.Reconnecting)
    else None
  }

  /** The live statuses of the stream at its polls. */
  ghost function LiveAtPolls(es: seq<M.Event>, polls: seq<Poll>, id: string): seq<Option<M.Status>> {
    if polls == [] then []
    else
      var p := polls[|polls| - 1];
      LiveAtPolls(es, polls[..|polls| - 1], id) + (if p.id == id then [LiveStatus(WorldAt(es, p.at), id)] else [])
  }

  lemma SightingIsLiveStatus(w: M.World, id: string)
    requires M.WellFormed(w)
    ensures Sighting(w, id) == LiveStatus(w, id)
  {
  }

  lemma {:induction false} SeenIsLive(es: seq<M.Event>, polls: seq<Poll>, id: string)
    ensures IngestionSeen(Observed(es, polls), id) == LiveAtPolls(es, polls, id)
    decreases |polls|
  {
    if polls != [] {
      var front, p := polls[..|polls| - 1], polls[|polls| - 1];
      SightingIsLiveStatus(WorldAt(es, p.at), p.id);
      hide Sighting, LiveStatus, WorldAt, IngestionSeen;
      SeenIsLive(es, front, id);
      SeenAppend(Observed(es, front), Observation(p.id, p.status, Sighting(WorldAt(es, p.at), p.id)), id);
    }
  }

  /**
   Whatever the run and wherever in it the polls fall, the room of a stream is told exactly the
   statuses of its current generation at the polls that find it RUNNING or RECONNECTING and do
   not repeat the poll before.
   */
  lemma PollsTellTheRun(es: seq<M.Event>, polls: seq<Poll>, id: string)
    ensures ToldIngestion(Watch(Observed(es, polls)).notices, OneStream(id), id) == News(LiveAtPolls(es, polls, id))
  {
    PollTellsTheNews(Observed(es, polls), id);
    SeenIsLive(es, polls, id);
  }

  lemma {:induction false} LiveStatusesAreLive(es: seq<M.Event>, polls: seq<Poll>, id: string)
    ensures forall k :: 0 <= k < |LiveAtPolls(es, polls, id)| ==>
              LiveAtPolls(es, polls, id)[k] in {None, Some(M.Running), Some(M.Reconnecting)}
    decreases |polls|
  {
    hide WorldAt;
    if polls != [] { LiveStatusesAreLive(es, polls[..|polls| - 1], id); }
  }

  /** So the poll only ever reports RUNNING or RECONNECTING. */
  lemma PollReportsLiveStatuses(es: seq<M.Event>, polls: seq<Poll>, id: string, i: nat)
    requires i < |ToldIngestion(Watch(Observed(es, polls)).notices, OneStream(id), id)|
    ensures ToldIngestion(Watch(Observed(es, polls)).notices, OneStream(id), id)[i] in {M.Running, M.Reconnecting}
  {
    PollsTellTheRun(es, polls, id);
    LiveStatusesAreLive(es, polls, id);
    NewsAmongSeen(LiveAtPolls(es, polls, id), i);
  }

  lemma WatchLast(es: seq<M.Event>, polls: seq<Poll>, p: Poll)
    ensures var known := Watch(Observed(es, polls + [p])).lastIngestion;
            LiveStatus(WorldAt(es, p.at), p.id) == if p.id in known then Some(known[p.id]) else None
  {
    assert (polls + [p])[..|polls|] == polls;
    var obs, o := Observed(es, polls), Observation(p.id, p.status, Sighting(WorldAt(es, p.at), p.id));
    SeenAppend(obs, o, p.id);
  }

  /**
   After a poll of a stream whose starts wait for it to drain, its last known ingestion status is
   RECONNECTING exactly if a timer of it is pending, RUNNING exactly if its process is listed and
   no timer is, and forgotten otherwise.
   */
  lemma LastKnownIsTrue(es: seq<M.Event>, polls: seq<Poll>, p: Poll)
    requires p.at <= |es| && X.StartsDrained(M.INIT, es[..p.at], p.id)
    ensures var w, known := WorldAt(es, p.at), Watch(Observed(es, polls + [p])).lastIngestion;
            var waiting := exists t :: t in w.pending && M.StreamOf(w, w.armed[t].owner) == p.id;
            && (p.id in known <==> p.id in w.processes)
            && (p.id in known ==> known[p.id] == if waiting then M.Reconnecting else M.Running)
  {
    WatchLast(es, polls, p);
    LiveStatusIs(es[..p.at], p.id);
    hide Watch, Observed, LiveStatus, X.StartsDrained, M.Run;
  }

  lemma LiveStatusIs(es: seq<M.Event>, id: string)
    requires X.StartsDrained(M.INIT, es, id)
    ensures var w := M.Run(M.INIT, es);
            var waiting := exists t :: t in w.pending && M.StreamOf(w, w.armed[t].owner) == id;
            LiveStatus(w, id) ==
              if id !in w.processes then None else if waiting then Some(M.Reconnecting) else Some(M.Running)
  {
    var w := M.Run(M.INIT, es);
    var g := X.SomeExclusive(M.INIT, es, id, 0);
    InvRun(M.INIT, es);
    LiveWhenExclusive(w, id, g);
  }

  lemma LiveWhenExclusive(w: M.World, id: string, g: nat)
    requires Inv(w) && X.Exclusive(w, id, g)
    ensures var waiting := exists t :: t in w.pending && M.StreamOf(w, w.armed[t].owner) == id;
            LiveStatus(w, id) ==
              if id !in w.processes then None else if waiting then Some(M.Reconnecting) else Some(M.Running)
  {
    assert Describes(w, id);
    assert X.RunningIffListed(w, id) && X.ReconnectingIffTimer(w, id);
  }

  // ---- rooms ----

  /** Every notice goes to the room of its stream, and every change to that room and the common one, and nowhere else. */
  lemma {:induction false} RoomsAreTheirOwn(obs: seq<Observation>)
    ensures var b := Watch(obs);
            && (forall c :: c in b.changes ==> c.rooms == {OneStream(c.id), AllStreams})
            && (forall n :: n in b.notices ==> n.room == OneStream(n.id))
    decreases |obs|
  {
    if obs != [] { RoomsAreTheirOwn(obs[..|obs| - 1]); }
  }
}
