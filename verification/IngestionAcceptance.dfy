/** Which starts are accepted, told by the arguments, the last probe, the maps and the tokens. */
module IngestionAcceptance {
  import opened Common
  import opened IngestionModel
  import opened IngestionInvariants
  import opened IngestionExclusive

  // ---- unsafe arguments ----

  /** The lower-case word stands at p, each letter in either case. */
  ghost predicate SpelledAt(s: string, p: nat, word: string) {
    && p + |word| <= |s|
    && forall k :: 0 <= k < |word| ==> s[p + k] == word[k] || s[p + k] as int == word[k] as int - 32
  }

  ghost predicate Mentions(s: string, word: string) {
    exists p: nat :: SpelledAt(s, p, word)
  }

  ghost predicate Unsafe(arg: string) {
    && |arg| >= 15 && arg[..15] == "-filter_complex"
    && (Mentions(arg, "shell") || Mentions(arg, "exec") || Mentions(arg, "system"))
  }

  ghost predicate LowerCase(word: string) {
    forall k :: 0 <= k < |word| ==> 'a' <= word[k] <= 'z'
  }

  ghost predicate StandsAt(s: string, p: nat, word: string) {
    p + |word| <= |s| && s[p..p + |word|] == word
  }

  lemma StandsInTail(s: string, p: nat, word: string)
    requires s != []
    ensures StandsAt(s, p + 1, word) <==> StandsAt(s[1..], p, word)
  {
    if p + 1 + |word| <= |s| { assert s[p + 1..p + 1 + |word|] == s[1..][p..p + |word|]; }
  }

  lemma {:induction false} ContainsIffStands(s: string, word: string)
    ensures Contains(s, word) <==> exists p: nat :: StandsAt(s, p, word)
    decreases |s|
  {
    assert StandsAt(s, 0, word) <==> word <= s;
    if s == [] {
      assert forall p: nat :: StandsAt(s, p, word) ==> word <= s;
    } else {
      hide StandsAt;
      ContainsIffStands(s[1..], word);
      if p: nat :| StandsAt(s[1..], p, word) { StandsInTail(s, p, word); }
      if p: nat :| StandsAt(s, p, word) {
        if p > 0 { StandsInTail(s, p - 1, word); }
      }
    }
  }

  lemma LowerStands(s: string, p: nat, word: string)
    requires LowerCase(word)
    ensures StandsAt(Lower(s), p, word) <==> SpelledAt(s, p, word)
  {
    if p + |word| <= |s| {
      var part := Lower(s)[p..p + |word|];
      assert forall k :: 0 <= k < |word| ==> part[k] == LowerChar(s[p + k]);
      if part == word {
        forall k | 0 <= k < |word| ensures s[p + k] == word[k] || s[p + k] as int == word[k] as int - 32 {
          assert part[k] == word[k];
        }
      }
    }
  }

  lemma ContainsIffMentions(s: string, word: string)
    requires LowerCase(word)
    ensures Contains(Lower(s), word) <==> Mentions(s, word)
  {
    ContainsIffStands(Lower(s), word);
    forall p: nat ensures StandsAt(Lower(s), p, word) <==> SpelledAt(s, p, word) { LowerStands(s, p, word); }
  }

  /** Arguments are refused exactly if a filter argument mentions a shell, exec or system. */
  lemma UnsafeArgsIff(args: seq<string>)
    ensures UnsafeArgs(args) <==> exists i :: 0 <= i < |args| && Unsafe(args[i])
  {
    forall arg: string ensures DangerousArg(arg) <==> Unsafe(arg) {
      ContainsIffMentions(arg, "shell");
      ContainsIffMentions(arg, "exec");
      ContainsIffMentions(arg, "system");
    }
  }

  // ---- the probe ----

  /** What the last probe of a run said. */
  ghost function LastProbe(es: seq<Event>, before: bool): bool {
    if es == [] then before
    else LastProbe(es[1..], if es[0].Probe? then es[0].ok else before)
  }

  lemma ProbeOnly(w: World, e: Event)
    requires Safe(w)
    ensures Step(w, e).ffmpegAvailable == if e.Probe? then e.ok else w.ffmpegAvailable
  {
    match e
    case Restart(id) => if id in w.processes { assert StopRunning(w, id).ffmpegAvailable == w.ffmpegAvailable; }
    case _ =>
  }

  lemma {:induction false} AvailableIffLastProbe(w: World, es: seq<Event>)
    requires Safe(w)
    ensures Run(w, es).ffmpegAvailable == LastProbe(es, w.ffmpegAvailable)
    decreases |es|
  {
    hide Step;
    if es != [] {
      ProbeOnly(w, es[0]);
      AvailableIffLastProbe(Step(w, es[0]), es[1..]);
    }
  }

  // ---- the reply ----

  /** The process of the stream is listed and it is not waiting for a timer. */
  ghost predicate AtWork(w: World, id: string)
    requires WellFormed(w)
  {
    && id in w.processes
    && forall t :: t in w.pending ==> StreamOf(w, w.armed[t].owner) != id
  }

  lemma AtWorkIffRunning(w: World, id: string, g: nat)
    requires Inv(w) && Exclusive(w, id, g)
    ensures AtWork(w, id) <==> id in w.states && w.gens[w.states[id]].status in {Running, Starting}
  {
    assert Describes(w, id);
    assert RunningIffListed(w, id) && ReconnectingIffTimer(w, id);
  }

  /**
   For a stream kept to one process the answer to a start is told by the last probe, the maps,
   the pending timers and the arguments, in this order; a stream that waits to reconnect is
   started again.
   */
  lemma StartRepliesAre(w: World, config: Config, g: nat)
    requires Inv(w) && Exclusive(w, config.streamId, g)
    ensures var unsafe := exists i :: 0 <= i < |config.ffmpegExtraArgs| && Unsafe(config.ffmpegExtraArgs[i]);
            StartReply(w, config) ==
              if !w.ffmpegAvailable then ServiceUnavailable
              else if AtWork(w, config.streamId) then Conflict
              else if unsafe then BadRequest
              else Accepted
  {
    AtWorkIffRunning(w, config.streamId, g);
    UnsafeArgsIff(config.ffmpegExtraArgs);
  }

  lemma AcceptedAddsGeneration(w: World, config: Config)
    requires Safe(w)
    ensures var w' := Step(w, Start(config));
            if StartReply(w, config).Accepted? then w'.gens == w.gens + [Generation(config, Running, 0)] else w' == w
  {
  }

  /** Where starts wait for the stream to drain: a start makes a generation exactly in this case. */
  lemma StartIsAcceptedIff(es: seq<Event>, config: Config)
    requires StartsDrained(INIT, es, config.streamId)
    ensures var w := Run(INIT, es);
            |Step(w, Start(config)).gens| == |w.gens| + 1 <==>
              && LastProbe(es, false)
              && !AtWork(w, config.streamId)
              && forall i :: 0 <= i < |config.ffmpegExtraArgs| ==> !Unsafe(config.ffmpegExtraArgs[i])
  {
    var g := SomeExclusive(INIT, es, config.streamId, 0);
    InvRun(INIT, es);
    AvailableIffLastProbe(INIT, es);
    StartRepliesAre(Run(INIT, es), config, g);
    AcceptedAddsGeneration(Run(INIT, es), config);
  }

  /** Whatever the interleaving, a stream with nothing in the maps is started if FFmpeg is there. */
  lemma UnknownStreamIsStarted(es: seq<Event>, config: Config)
    requires config.streamId !in Run(INIT, es).states
    requires LastProbe(es, false)
    requires forall i :: 0 <= i < |config.ffmpegExtraArgs| ==> !Unsafe(config.ffmpegExtraArgs[i])
    ensures |Step(Run(INIT, es), Start(config)).gens| == |Run(INIT, es).gens| + 1
  {
    AvailableIffLastProbe(INIT, es);
    UnsafeArgsIff(config.ffmpegExtraArgs);
    AcceptedAddsGeneration(Run(INIT, es), config);
  }

  // ---- a restart ----

  /** A restart makes a generation exactly if a start would once its stop is done. */
  lemma RestartIsAcceptedIff(w: World, id: string)
    requires Inv(w)
    ensures |Step(w, Restart(id)).gens| == |w.gens| + 1 <==>
              && id in w.processes && w.ffmpegAvailable
              && forall i :: 0 <= i < |w.configs[id].ffmpegExtraArgs| ==> !Unsafe(w.configs[id].ffmpegExtraArgs[i])
    ensures AcceptsStart(w, Restart(id), id) <==> |Step(w, Restart(id)).gens| == |w.gens| + 1
    ensures RestartReply(w, id) == NotFound <==> id !in w.processes
    ensures RestartReply(w, id) == ServiceUnavailable <==> id in w.processes && !w.ffmpegAvailable
    ensures RestartReply(w, id) != Conflict
  {
    assert Describes(w, id);
    if id in w.processes {
      InvStop(w, id);
      RestartSteps(w, id);
      UnsafeArgsIff(w.configs[id].ffmpegExtraArgs);
      AcceptedAddsGeneration(StopRunning(w, id), w.configs[id]);
    }
  }

  // ---- a start while the stream waits to reconnect ----

  /** The process of the first start has failed and its timer is pending. */
  ghost function Waiting(config: Config): World {
    ArmTimer(FirstStart(config).(open := {}), 0, 0.0)
  }

  lemma WaitingRuns(config: Config)
    requires !UnsafeArgs(config.ffmpegExtraArgs)
    ensures var w := Waiting(config);
            && Step(FirstStart(config), ProcessClose(0, Some(1), 0.0)) == w && Inv(w)
            && 0 in w.pending && StreamOf(w, w.armed[0].owner) == config.streamId
            && StartReply(w, config).Accepted?
  {
    FirstStartRuns(config);
    InvStep(FirstStart(config), ProcessClose(0, Some(1), 0.0));
    hide Inv, UnsafeArgs, StartIngestion, RestartIngestion, StopIngestion, OnError, OnTimer;
    assert FirstStart(config).open == {0};
    assert FirstStart(config).open - {0} == {};
  }

  lemma StartStep(w: World, config: Config)
    requires Safe(w)
    ensures Step(w, Start(config)) == StartIngestion(w, config)
  {
    hide StartIngestion, RestartIngestion, StopIngestion, OnError, OnClose, OnTimer;
  }

  /** For every safe configuration: start, fail, start again, and the timer leaves two processes. */
  lemma SecondStartDoublesProcesses(config: Config)
    requires !UnsafeArgs(config.ffmpegExtraArgs)
    ensures var es := [Probe(true), Start(config), ProcessClose(0, Some(1), 0.0)] + [Start(config)] + [TimerFires(0)];
            !AtMostOneProcess(Run(INIT, es), config.streamId)
  {
    var first := [Probe(true), Start(config), ProcessClose(0, Some(1), 0.0)];
    var w := Waiting(config);
    FirstStartRuns(config);
    WaitingRuns(config);
    StartStep(w, config);
    hide Step, Waiting, FirstStart, AtMostOneProcess, StartIngestion, StartReply, UnsafeArgs;
    RunOfThree(INIT, Probe(true), Start(config), ProcessClose(0, Some(1), 0.0));
    StartBesideTimer(w, config, 0);
    RunAppend(INIT, first, [Start(config)]);
    RunOfOne(w, Start(config));
    RunAppend(INIT, first + [Start(config)], [TimerFires(0)]);
    RunOfOne(Step(w, Start(config)), TimerFires(0));
  }
}
