/**
 The gateway's poll.  Ticks may overlap: a run is any sequence of observations, each the block
 that follows one answered status sync, in whatever order the answers came.
 */
module GatewayModel {
  import opened Common
  import M = IngestionModel
  import opened StreamsModel

  datatype Room = OneStream(id: string) | AllStreams

  /** A status change as sent to rooms. */
  datatype Change = Change(rooms: set<Room>, id: string, previous: StreamStatus, current: StreamStatus)

  /** An ingestion notice as sent to the room of its stream. */
  datatype Notice = Notice(room: Room, id: string, status: M.Status)

  /** `ingestion` is the status of a running ingestion, None when the stream is not running. */
  datatype Observation = Observation(id: string, status: StreamStatus, ingestion: Option<M.Status>)

  datatype Board = Board(
    lastStatus: map<string, StreamStatus>,
    lastIngestion: map<string, M.Status>,
    changes: seq<Change>,
    notices: seq<Notice>)

  const EMPTY: Board := Board(map[], map[], [], [])

  function ChangesFor(b: Board, o: Observation): seq<Change> {
    if o.id in b.lastStatus && b.lastStatus[o.id] != o.status
    then [Change({OneStream(o.id), AllStreams}, o.id, b.lastStatus[o.id], o.status)]
    else []
  }

  function NoticesFor(b: Board, o: Observation): seq<Notice> {
    if o.ingestion.Some? && (o.id in b.lastIngestion ==> b.lastIngestion[o.id] != o.ingestion.value)
    then [Notice(OneStream(o.id), o.id, o.ingestion.value)]
    else []
  }

  function Observe(b: Board, o: Observation): Board {
    Board(
      b.lastStatus[o.id := o.status],
      if o.ingestion.Some? then b.lastIngestion[o.id := o.ingestion.value] else b.lastIngestion - {o.id},
      b.changes + ChangesFor(b, o),
      b.notices + NoticesFor(b, o))
  }

  /** The boards reached by observing a sequence, from the empty board. */
  function Watch(obs: seq<Observation>): Board {
    if obs == [] then EMPTY else Observe(Watch(obs[..|obs| - 1]), obs[|obs| - 1])
  }

  /** What the poll sees of the supervisor in a given state. */
  function Sighting(w: M.World, id: string): Option<M.Status>
    requires M.WellFormed(w)
  {
    if M.IsRunning(w, id) then Some(w.gens[w.states[id]].status) else None
  }
}

module GatewaySafety {
  import opened Common
  import M = IngestionModel
  import opened StreamsModel
  import opened GatewayModel

  // ---- the reference: what was seen of one stream ----

  ghost function StatusesSeen(obs: seq<Observation>, id: string): seq<StreamStatus> {
    if obs == [] then []
    else
      var o := obs[|obs| - 1];
      StatusesSeen(obs[..|obs| - 1], id) + (if o.id == id then [o.status] else [])
  }

  ghost function IngestionSeen(obs: seq<Observation>, id: string): seq<Option<M.Status>> {
    if obs == [] then []
    else
      var o := obs[|obs| - 1];
      IngestionSeen(obs[..|obs| - 1], id) + (if o.id == id then [o.ingestion] else [])
  }

  /** A change is a pair of neighbours that differ. */
  ghost function Changes<T>(s: seq<T>): seq<(T, T)> {
    if |s| < 2 then []
    else Changes(s[..|s| - 1]) + (if s[|s| - 2] != s[|s| - 1] then [(s[|s| - 2], s[|s| - 1])] else [])
  }

  /** The known values that do not repeat the value right before them. */
  ghost function News<T>(s: seq<Option<T>>): seq<T> {
    if s == [] then []
    else
      var last := s[|s| - 1];
      News(s[..|s| - 1]) +
      (if last.Some? && (|s| < 2 || s[|s| - 2] != last) then [last.value] else [])
  }

  lemma ChangesAppend<T>(s: seq<T>, x: T)
    ensures Changes(s + [x]) == Changes(s) + (if s != [] && s[|s| - 1] != x then [(s[|s| - 1], x)] else [])
  {
    assert (s + [x])[..|s|] == s;
  }

  lemma NewsAppend<T>(s: seq<Option<T>>, x: Option<T>)
    ensures News(s + [x]) ==
              News(s) + (if x.Some? && (s == [] || s[|s| - 1] != x) then [x.value] else [])
  {
    assert (s + [x])[..|s|] == s;
  }

  // ---- what a room was told ----

  ghost function Told(changes: seq<Change>, room: Room, id: string): seq<(StreamStatus, StreamStatus)> {
    if changes == [] then []
    else
      var e := changes[|changes| - 1];
      Told(changes[..|changes| - 1], room, id) +
      (if room in e.rooms && e.id == id then [(e.previous, e.current)] else [])
  }

  ghost function ToldIngestion(notices: seq<Notice>, room: Room, id: string): seq<M.Status> {
    if notices == [] then []
    else
      var e := notices[|notices| - 1];
      ToldIngestion(notices[..|notices| - 1], room, id) + (if e.room == room && e.id == id then [e.status] else [])
  }

  lemma ToldAppend(a: seq<Change>, e: Change, room: Room, id: string)
    ensures Told(a + [e], room, id) ==
              Told(a, room, id) + (if room in e.rooms && e.id == id then [(e.previous, e.current)] else [])
  {
    assert (a + [e])[..|a|] == a;
  }

  lemma ToldIngestionAppend(a: seq<Notice>, e: Notice, room: Room, id: string)
    ensures ToldIngestion(a + [e], room, id) ==
              ToldIngestion(a, room, id) + (if e.room == room && e.id == id then [e.status] else [])
  {
    assert (a + [e])[..|a|] == a;
  }

  lemma ObserveTells(b: Board, o: Observation, room: Room, id: string)
    requires room == OneStream(id) || room == AllStreams
    ensures Told(Observe(b, o).changes, room, id) == Told(b.changes, room, id) +
      (if o.id == id && id in b.lastStatus && b.lastStatus[id] != o.status
       then [(b.lastStatus[id], o.status)] else [])
  {
    var c := ChangesFor(b, o);
    if c == [] {
      assert b.changes + c == b.changes;
    } else {
      ToldAppend(b.changes, c[0], room, id);
      assert b.changes + c == b.changes + [c[0]];
    }
  }

  lemma ObserveTellsIngestion(b: Board, o: Observation, id: string)
    ensures ToldIngestion(Observe(b, o).notices, OneStream(id), id) == ToldIngestion(b.notices, OneStream(id), id) +
      (if o.id == id && o.ingestion.Some? && (id in b.lastIngestion ==> b.lastIngestion[id] != o.ingestion.value)
       then [o.ingestion.value] else [])
  {
    var n := NoticesFor(b, o);
    if n == [] {
      assert b.notices + n == b.notices;
    } else {
      ToldIngestionAppend(b.notices, n[0], OneStream(id), id);
      assert b.notices + n == b.notices + [n[0]];
    }
  }

  // ---- the board agrees with the reference ----

  /** What the board holds and what the rooms were told of the stream fit the statuses seen of it. */
  ghost predicate FitsStatus(b: Board, seen: seq<StreamStatus>, id: string) {
    && (id in b.lastStatus <==> seen != [])
    && (seen != [] ==> b.lastStatus[id] == seen[|seen| - 1])
    && Told(b.changes, OneStream(id), id) == Changes(seen)
    && Told(b.changes, AllStreams, id) == Changes(seen)
  }

  ghost predicate FitsIngestion(b: Board, seen: seq<Option<M.Status>>, id: string) {
    && (id in b.lastIngestion <==> seen != [] && seen[|seen| - 1].Some?)
    && (id in b.lastIngestion ==> seen[|seen| - 1] == Some(b.lastIngestion[id]))
    && ToldIngestion(b.notices, OneStream(id), id) == News(seen)
  }

  ghost predicate TracksStatus(obs: seq<Observation>, id: string) {
    FitsStatus(Watch(obs), StatusesSeen(obs, id), id)
  }

  ghost predicate TracksIngestion(obs: seq<Observation>, id: string) {
    FitsIngestion(Watch(obs), IngestionSeen(obs, id), id)
  }

  lemma SeenAppend(obs: seq<Observation>, o: Observation, id: string)
    ensures Watch(obs + [o]) == Observe(Watch(obs), o)
    ensures o.id == id ==> StatusesSeen(obs + [o], id) == StatusesSeen(obs, id) + [o.status]
    ensures o.id != id ==> StatusesSeen(obs + [o], id) == StatusesSeen(obs, id)
    ensures o.id == id ==> IngestionSeen(obs + [o], id) == IngestionSeen(obs, id) + [o.ingestion]
    ensures o.id != id ==> IngestionSeen(obs + [o], id) == IngestionSeen(obs, id)
  {
    assert (obs + [o])[..|obs|] == obs;
  }

  lemma FitsStatusStep(b: Board, seen: seq<StreamStatus>, o: Observation, id: string)
    requires FitsStatus(b, seen, id)
    ensures FitsStatus(Observe(b, o), if o.id == id then seen + [o.status] else seen, id)
  {
    ObserveTells(b, o, OneStream(id), id);
    ObserveTells(b, o, AllStreams, id);
    if o.id == id { ChangesAppend(seen, o.status); }
  }

  lemma FitsIngestionStep(b: Board, seen: seq<Option<M.Status>>, o: Observation, id: string)
    requires FitsIngestion(b, seen, id)
    ensures FitsIngestion(Observe(b, o), if o.id == id then seen + [o.ingestion] else seen, id)
  {
    ObserveTellsIngestion(b, o, id);
    if o.id == id { NewsAppend(seen, o.ingestion); }
  }

  /**
   Under any interleaving of polls, both rooms are told exactly the changes between
   neighbouring observations of the stream.
   */
  lemma {:induction false} PollTellsTheChanges(obs: seq<Observation>, id: string)
    ensures TracksStatus(obs, id)
    decreases |obs|
  {
    if obs != [] {
      hide FitsStatus, Watch, StatusesSeen;
      var before, o := obs[..|obs| - 1], obs[|obs| - 1];
      assert obs == before + [o];
      PollTellsTheChanges(before, id);
      SeenAppend(before, o, id);
      FitsStatusStep(Watch(before), StatusesSeen(before, id), o, id);
    }
  }

  /** The ingestion notices are exactly the statuses that do not repeat the observation before them. */
  lemma {:induction false} PollTellsTheNews(obs: seq<Observation>, id: string)
    ensures TracksIngestion(obs, id)
    decreases |obs|
  {
    if obs != [] {
      hide FitsIngestion, Watch, IngestionSeen;
      var before, o := obs[..|obs| - 1], obs[|obs| - 1];
      assert obs == before + [o];
      PollTellsTheNews(before, id);
      SeenAppend(before, o, id);
      FitsIngestionStep(Watch(before), IngestionSeen(before, id), o, id);
    }
  }

  /** Each change starts where the one before it ended, and is a change. */
  ghost predicate Chain<T>(c: seq<(T, T)>) {
    && (forall i :: 0 <= i < |c| ==> c[i].0 != c[i].1)
    && (forall i, j :: 0 <= i && j == i + 1 && j < |c| ==> c[i].1 == c[j].0)
  }

  /** The changes form a chain from the first value to the last; there is none if all are the same. */
  lemma {:induction false} ChangesChain<T>(s: seq<T>)
    ensures var c := Changes(s);
            && Chain(c)
            && (c != [] ==> c[0].0 == s[0] && c[|c| - 1].1 == s[|s| - 1])
            && (c == [] ==> forall i :: 0 <= i < |s| ==> s[i] == s[0])
    decreases |s|
  {
    if |s| >= 2 { ChangesChain(s[..|s| - 1]); }
  }

  lemma StatusNoticesChain(obs: seq<Observation>, id: string)
    ensures var b := Watch(obs);
            var told := Told(b.changes, OneStream(id), id);
            && Chain(told)
            && (told != [] ==> id in b.lastStatus && told[|told| - 1].1 == b.lastStatus[id])
  {
    PollTellsTheChanges(obs, id);
    ChangesChain(StatusesSeen(obs, id));
  }

  ghost predicate NeighboursDiffer<T>(d: seq<T>) {
    forall i, j :: 0 <= i && j == i + 1 && j < |d| ==> d[i] != d[j]
  }

  /** While something is known all along, the news of that stretch differ from one to the next. */
  lemma {:induction false} NewsOfStretchDiffer<T>(before: seq<Option<T>>, stretch: seq<Option<T>>) returns (d: seq<T>)
    requires forall k :: 0 <= k < |stretch| ==> stretch[k].Some?
    ensures News(before + stretch) == News(before) + d
    ensures NeighboursDiffer(d)
    ensures d != [] ==> stretch != [] && d[|d| - 1] == stretch[|stretch| - 1].value
    decreases |stretch|
  {
    if stretch == [] {
      d := [];
      assert before + stretch == before;
    } else {
      var shorter, x := stretch[..|stretch| - 1], stretch[|stretch| - 1];
      d := NewsOfStretchDiffer(before, shorter);
      var s := before + shorter;
      NewsAppend(s, x);
      assert s + [x] == before + stretch;
      assert shorter != [] ==> s[|s| - 1] == shorter[|shorter| - 1];
      if s == [] || s[|s| - 1] != x {
        assert News(before) + (d + [x.value]) == News(before) + d + [x.value];
        d := d + [x.value];
      } else {
        assert News(s) + [] == News(s);
      }
    }
  }

  lemma {:induction false} SeenConcat(obs: seq<Observation>, more: seq<Observation>, id: string)
    ensures IngestionSeen(obs + more, id) == IngestionSeen(obs, id) + IngestionSeen(more, id)
    decreases |more|
  {
    if more == [] {
      assert obs + more == obs;
    } else {
      var front, o := more[..|more| - 1], more[|more| - 1];
      assert obs + more == obs + front + [o] && more == front + [o];
      SeenConcat(obs, front, id);
      SeenAppend(obs + front, o, id);
      SeenAppend(front, o, id);
    }
  }

  lemma {:induction false} SeenRunning(obs: seq<Observation>, id: string)
    requires forall i :: 0 <= i < |obs| && obs[i].id == id ==> obs[i].ingestion.Some?
    ensures forall k :: 0 <= k < |IngestionSeen(obs, id)| ==> IngestionSeen(obs, id)[k].Some?
    decreases |obs|
  {
    if obs != [] { SeenRunning(obs[..|obs| - 1], id); }
  }

  /**
   While every poll sees the stream running, each notice to its room differs from the one before,
   and the last one sent in that stretch tells the last known status.
   */
  lemma NoticesOfStretchDiffer(obs: seq<Observation>, stretch: seq<Observation>, id: string) returns (told: seq<M.Status>)
    requires forall i :: 0 <= i < |stretch| && stretch[i].id == id ==> stretch[i].ingestion.Some?
    ensures ToldIngestion(Watch(obs + stretch).notices, OneStream(id), id) ==
              ToldIngestion(Watch(obs).notices, OneStream(id), id) + told
    ensures NeighboursDiffer(told)
    ensures told != [] ==>
      var known := Watch(obs + stretch).lastIngestion;
      id in known && told[|told| - 1] == known[id]
  {
    PollTellsTheNews(obs, id);
    PollTellsTheNews(obs + stretch, id);
    SeenConcat(obs, stretch, id);
    SeenRunning(stretch, id);
    told := NewsOfStretchDiffer(IngestionSeen(obs, id), IngestionSeen(stretch, id));
  }

  lemma {:induction false} NewsAmongSeen<T>(s: seq<Option<T>>, i: nat)
    requires i < |News(s)|
    ensures exists k :: 0 <= k < |s| && s[k] == Some(News(s)[i])
    decreases |s|
  {
    var front := s[..|s| - 1];
    if i < |News(front)| {
      NewsAmongSeen(front, i);
      var k :| 0 <= k < |front| && front[k] == Some(News(front)[i]);
      assert s[k] == Some(News(s)[i]);
    } else {
      assert s[|s| - 1] == Some(News(s)[i]);
    }
  }
}

/** The gateway object: two maps of last known values, updated in place by the poll. */
module Gateways {
  import M = IngestionModel
  import opened IngestionServices
  import opened StreamsModel
  import opened GatewayModel

  class StreamingGateway {
    const ingestion: IngestionService
    var lastKnownStatus: map<string, StreamStatus>
    var lastKnownIngestionStatus: map<string, M.Status>
    var changes: seq<Change>   // everything the poll has sent to the rooms
    var notices: seq<Notice>

    function View(): Board
      reads this
    {
      Board(lastKnownStatus, lastKnownIngestionStatus, changes, notices)
    }

    constructor (ingestion: IngestionService)
      ensures this.ingestion == ingestion && View() == EMPTY
    {
      this.ingestion := ingestion;
      lastKnownStatus, lastKnownIngestionStatus := map[], map[];
      changes, notices := [], [];
    }

    /** The block of a poll after the sync of one stream has answered with `updated`. */
    method AfterSync(id: string, updated: StreamStatus)
      requires ingestion.Valid()
      modifies this
      ensures View() == Observe(old(View()), Observation(id, updated, Sighting(ingestion.world, id)))
    {
      if id in lastKnownStatus && lastKnownStatus[id] != updated {
        changes := changes + [Change({OneStream(id), AllStreams}, id, lastKnownStatus[id], updated)];
      }
      lastKnownStatus := lastKnownStatus[id := updated];
      PollIngestion(id);
    }

    method PollIngestion(id: string)
      requires ingestion.Valid()
      modifies this`lastKnownIngestionStatus, this`notices
      ensures var seen := Sighting(ingestion.world, id);
              && lastKnownIngestionStatus == (
                   if seen.Some? then old(lastKnownIngestionStatus)[id := seen.value]
                   else old(lastKnownIngestionStatus) - {id})
              && notices == old(notices) + NoticesFor(old(View()), Observation(id, Inactive, seen))
    {
      var running := ingestion.IsRunning(id);
      if !running {
        lastKnownIngestionStatus := lastKnownIngestionStatus - {id};
        return;
      }
      var state := ingestion.GetStatus(id);
      if id !in lastKnownIngestionStatus || lastKnownIngestionStatus[id] != state.status {
        notices := notices + [Notice(OneStream(id), id, state.status)];
        lastKnownIngestionStatus := lastKnownIngestionStatus[id := state.status];
      }
    }
  }
}
