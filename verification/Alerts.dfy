/** Alert rules with a cooldown: how often one rule can fire. */
module AlertsModel {
  import opened Common

  /** Times are milliseconds of one clock. */
  datatype Rule = Rule(enabled: bool, cooldownSeconds: nat, lastTriggeredAt: Option<int>)

  /** `cooldown` is the one in force, in seconds, when the event was let through. */
  datatype AlertEvent = AlertEvent(ruleId: string, triggeredAt: int, cooldown: nat)

  /** A trigger that passed its checks, with the rule it read; it will write that rule back. */
  datatype Pending = Pending(ruleId: string, rule: Rule, checkedAt: int)

  /** An update that has read and changed its copy of the rule; it will write that copy back. */
  datatype Edit = Edit(ruleId: string, rule: Rule)

  /** Every event ever saved, every id ever given to a rule, and the triggers and updates in flight. */
  datatype State = State(
    now: int,
    rules: map<string, Rule>,
    used: set<string>,
    events: seq<AlertEvent>,
    inFlight: map<nat, Pending>,
    edits: map<nat, Edit>)

  /**
   Triggers and updates are two steps: other calls may run between their reading and their
   saving.  A trigger may fail on saving its event, and then on saving its rule, as when the rule
   has been deleted meanwhile; so may an update.
   */
  datatype Call =
    | CreateRule(id: string, enabled: bool, cooldownSeconds: nat)
    | ReadForUpdate(edit: nat, id: string, newEnabled: Option<bool>, newCooldown: Option<nat>)
    | SaveUpdate(edit: nat)
    | DeleteRule(id: string)
    | Check(trigger: nat, id: string, at: int)
    | Commit(trigger: nat, saved: int, stamped: int)
    | EventFails(trigger: nat)
    | StampFails(trigger: nat, saved: int, failed: int)
    | UpdateFails(edit: nat)

  function Init(now: int): State {
    State(now, map[], {}, [], map[], map[])
  }

  /** The rule exists, is enabled and is not in its cooldown. */
  predicate Fires(s: State, id: string, at: int) {
    && id in s.rules && s.rules[id].enabled
    && (s.rules[id].lastTriggeredAt.Some? ==>
          at >= s.rules[id].lastTriggeredAt.value + s.rules[id].cooldownSeconds * 1000)
  }

  /** The clock does not run backwards, new rules get new ids, and each call ends once. */
  predicate Enabled(s: State, call: Call) {
    match call
    case CreateRule(id, _, _) => id !in s.used
    case ReadForUpdate(n, _, _, _) => n !in s.edits
    case SaveUpdate(n) => n in s.edits
    case DeleteRule(_) => true
    case Check(k, _, at) => k !in s.inFlight && s.now <= at
    case Commit(k, saved, stamped) =>
      k in s.inFlight && s.inFlight[k].checkedAt <= saved <= stamped && s.now <= stamped
    case EventFails(k) => k in s.inFlight
    case StampFails(k, saved, failed) =>
      k in s.inFlight && s.inFlight[k].checkedAt <= saved <= failed && s.now <= failed
    case UpdateFails(n) => n in s.edits
  }

  function Updated(rule: Rule, enabled: Option<bool>, cooldownSeconds: Option<nat>): Rule {
    rule.(enabled := enabled.GetOr(rule.enabled), cooldownSeconds := cooldownSeconds.GetOr(rule.cooldownSeconds))
  }

  function ReadRule(s: State, n: nat, id: string, enabled: Option<bool>, cooldownSeconds: Option<nat>): State {
    if id in s.rules
    then s.(edits := s.edits[n := Edit(id, Updated(s.rules[id], enabled, cooldownSeconds))])
    else s
  }

  function SaveRule(s: State, n: nat): State
    requires n in s.edits
  {
    s.(rules := s.rules[s.edits[n].ruleId := s.edits[n].rule], edits := s.edits - {n})
  }

  function CheckTrigger(s: State, k: nat, id: string, at: int): State {
    if Fires(s, id, at)
    then s.(now := at, inFlight := s.inFlight[k := Pending(id, s.rules[id], at)])
    else s.(now := at)
  }

  function CommitTrigger(s: State, k: nat, saved: int, stamped: int): State
    requires k in s.inFlight
  {
    var p := s.inFlight[k];
    s.(now := stamped,
       rules := s.rules[p.ruleId := p.rule.(lastTriggeredAt := Some(stamped))],
       events := s.events + [AlertEvent(p.ruleId, saved, p.rule.cooldownSeconds)],
       inFlight := s.inFlight - {k})
  }

  /** The event is in the log, and the rule is left as it is. */
  function EventOnly(s: State, k: nat, saved: int, failed: int): State
    requires k in s.inFlight
  {
    var p := s.inFlight[k];
    s.(now := failed,
       events := s.events + [AlertEvent(p.ruleId, saved, p.rule.cooldownSeconds)],
       inFlight := s.inFlight - {k})
  }

  function Step(s: State, call: Call): State {
    if !Enabled(s, call) then s else
    match call
    case CreateRule(id, enabled, cooldown) =>
      s.(rules := s.rules[id := Rule(enabled, cooldown, None)], used := s.used + {id})
    case ReadForUpdate(n, id, enabled, cooldown) => ReadRule(s, n, id, enabled, cooldown)
    case SaveUpdate(n) => SaveRule(s, n)
    case DeleteRule(id) => s.(rules := s.rules - {id})
    case Check(k, id, at) => CheckTrigger(s, k, id, at)
    case Commit(k, saved, stamped) => CommitTrigger(s, k, saved, stamped)
    case EventFails(k) => s.(inFlight := s.inFlight - {k})
    case StampFails(k, saved, failed) => EventOnly(s, k, saved, failed)
    case UpdateFails(n) => s.(edits := s.edits - {n})
  }

  function Run(s: State, calls: seq<Call>): State
    decreases |calls|
  {
    if calls == [] then s else Run(Step(s, calls[0]), calls[1..])
  }

  /** No trigger of the rule is between its check and its commit. */
  ghost predicate NoTrigger(s: State, id: string) {
    forall k :: k in s.inFlight ==> s.inFlight[k].ruleId != id
  }

  /** No update of the rule is between its reading and its saving. */
  ghost predicate NoEdit(s: State, id: string) {
    forall n :: n in s.edits ==> s.edits[n].ruleId != id
  }

  ghost predicate Alone(s: State, id: string) {
    NoTrigger(s, id) && NoEdit(s, id)
  }

  /** The rule does not know of an event at the given time. */
  predicate Stale(rule: Rule, t: int) {
    rule.lastTriggeredAt.Some? ==> rule.lastTriggeredAt.value < t
  }

  /**
   A trigger of the rule goes on only alone; an update reads it only while no trigger is in
   flight; and no trigger fails after saving an event that the rule does not know of.
   */
  ghost predicate Waits(s: State, call: Call, id: string) {
    && (call.Check? && call.id == id && Fires(s, id, call.at) ==> Alone(s, id))
    && (call.ReadForUpdate? && call.id == id && id in s.rules ==> NoTrigger(s, id))
    && (call.StampFails? && Enabled(s, call) && s.inFlight[call.trigger].ruleId == id && id in s.rules ==>
          !Stale(s.rules[id], call.saved))
  }

  /** Triggers of the rule overlap neither each other nor its updates, and do not fail half-way. */
  ghost predicate Serial(s: State, calls: seq<Call>, id: string)
    decreases |calls|
  {
    calls == [] || (Waits(s, calls[0], id) && Serial(Step(s, calls[0]), calls[1..], id))
  }
}

module AlertsSafety {
  import opened Common
  import opened AlertsModel

  /** Events of the rule are as far apart as the cooldown in force at the later one. */
  ghost predicate Spaced(events: seq<AlertEvent>, id: string) {
    forall i, j :: 0 <= i < j < |events| && events[i].ruleId == id && events[j].ruleId == id ==>
      events[i].triggeredAt + 1000 * events[j].cooldown <= events[j].triggeredAt
  }

  /** The rule knows of the last of its events. */
  ghost predicate UpToDate(s: State, id: string, rule: Rule) {
    && (forall i :: 0 <= i < |s.events| && s.events[i].ruleId == id ==>
          rule.lastTriggeredAt.Some? && s.events[i].triggeredAt <= rule.lastTriggeredAt.value)
    && (rule.lastTriggeredAt.Some? ==> rule.lastTriggeredAt.value <= s.now)
  }

  /** The row and every copy that an update will write back. */
  ghost predicate Stamped(s: State, id: string) {
    && (id in s.rules ==> UpToDate(s, id, s.rules[id]))
    && (forall n :: n in s.edits && s.edits[n].ruleId == id ==> UpToDate(s, id, s.edits[n].rule))
  }

  /** A trigger in flight is the only one, no update is, and the cooldown had passed at its check. */
  ghost predicate Cooled(s: State, id: string) {
    && (forall k, l :: k in s.inFlight && l in s.inFlight && s.inFlight[k].ruleId == id == s.inFlight[l].ruleId ==> k == l)
    && (NoTrigger(s, id) || NoEdit(s, id))
    && (forall k, i :: k in s.inFlight && s.inFlight[k].ruleId == id && 0 <= i < |s.events| && s.events[i].ruleId == id ==>
          s.events[i].triggeredAt + 1000 * s.inFlight[k].rule.cooldownSeconds <= s.inFlight[k].checkedAt)
    && (forall k :: k in s.inFlight && s.inFlight[k].ruleId == id ==> s.inFlight[k].checkedAt <= s.now)
  }

  /** Ids that rules, events and calls in flight mention have been given out. */
  ghost predicate Known(s: State, id: string) {
    id !in s.used ==>
      && id !in s.rules && Alone(s, id)
      && (forall i :: 0 <= i < |s.events| ==> s.events[i].ruleId != id)
  }

  ghost predicate Inv(s: State, id: string) {
    Spaced(s.events, id) && Stamped(s, id) && Cooled(s, id) && Known(s, id)
  }

  lemma InvCommit(s: State, k: nat, saved: int, stamped: int, id: string)
    requires Inv(s, id)
    ensures Inv(Step(s, Commit(k, saved, stamped)), id)
  {
    if Enabled(s, Commit(k, saved, stamped)) && s.inFlight[k].ruleId == id {
      var s' := Step(s, Commit(k, saved, stamped));
      assert NoTrigger(s', id) && NoEdit(s', id);
      assert UpToDate(s', id, s'.rules[id]);
    }
  }

  lemma InvStampFails(s: State, k: nat, saved: int, failed: int, id: string)
    requires Inv(s, id) && Waits(s, StampFails(k, saved, failed), id)
    ensures Inv(Step(s, StampFails(k, saved, failed)), id)
  {
    var call := StampFails(k, saved, failed);
    if Enabled(s, call) && s.inFlight[k].ruleId == id {
      var s' := Step(s, call);
      assert NoTrigger(s', id) && NoEdit(s', id);
      if id in s.rules { assert UpToDate(s', id, s'.rules[id]); }
    }
  }

  /** Steps that add no event, trigger or update of the rule, and change its row to nothing stale. */
  lemma InvKept(s: State, s': State, id: string)
    requires Inv(s, id) && s'.events == s.events && s.now <= s'.now && s.used <= s'.used
    requires id in s'.rules ==> id in s'.used && UpToDate(s', id, s'.rules[id])
    requires forall k :: k in s'.inFlight && s'.inFlight[k].ruleId == id ==> k in s.inFlight && s'.inFlight[k] == s.inFlight[k]
    requires forall n :: n in s'.edits && s'.edits[n].ruleId == id ==> n in s.edits && s'.edits[n] == s.edits[n]
    ensures Inv(s', id)
  {
  }

  lemma InvCheck(s: State, k: nat, id: string, at: int, other: string)
    requires Inv(s, id) && Waits(s, Check(k, other, at), id)
    ensures Inv(Step(s, Check(k, other, at)), id)
  {
    var s' := Step(s, Check(k, other, at));
    if other != id || !Fires(s, id, at) || !Enabled(s, Check(k, other, at)) {
      InvKept(s, s', id);
    } else {
      assert s'.inFlight[k] == Pending(id, s.rules[id], at);
      assert NoEdit(s', id) && UpToDate(s', id, s'.rules[id]);
    }
  }

  lemma InvRead(s: State, n: nat, id: string, other: string, enabled: Option<bool>, cooldown: Option<nat>)
    requires Inv(s, id) && Waits(s, ReadForUpdate(n, other, enabled, cooldown), id)
    ensures Inv(Step(s, ReadForUpdate(n, other, enabled, cooldown)), id)
  {
    var s' := Step(s, ReadForUpdate(n, other, enabled, cooldown));
    if other != id || id !in s.rules || n in s.edits {
      InvKept(s, s', id);
    } else {
      assert NoTrigger(s', id) && UpToDate(s', id, s'.edits[n].rule);
    }
  }

  lemma InvStep(s: State, call: Call, id: string)
    requires Inv(s, id) && Waits(s, call, id)
    ensures Inv(Step(s, call), id)
  {
    match call
    case Commit(k, saved, stamped) => InvCommit(s, k, saved, stamped, id);
    case Check(k, other, at) => InvCheck(s, k, id, at, other);
    case ReadForUpdate(n, other, enabled, cooldown) => InvRead(s, n, id, other, enabled, cooldown);
    case StampFails(k, saved, failed) => InvStampFails(s, k, saved, failed, id);
    case _ => InvKept(s, Step(s, call), id);
  }

  lemma {:induction false} InvRun(s: State, calls: seq<Call>, id: string)
    requires Inv(s, id) && Serial(s, calls, id)
    ensures Inv(Run(s, calls), id)
    decreases |calls|
  {
    if calls != [] {
      InvStep(s, calls[0], id);
      InvRun(Step(s, calls[0]), calls[1..], id);
    }
  }

  /** Where triggers of a rule run alone, no two of its events are closer than the cooldown allowed. */
  lemma EventsKeepTheCooldown(now: int, calls: seq<Call>, id: string)
    requires Serial(Init(now), calls, id)
    ensures Spaced(Run(Init(now), calls).events, id)
  {
    InvRun(Init(now), calls, id);
  }

  // ---- overlapping calls ----

  /** Whatever happens from here on, later triggers running alone, the events stay spaced. */
  ghost predicate StaysSpaced(s: State, id: string) {
    forall calls :: Serial(s, calls, id) ==> Spaced(Run(s, calls).events, id)
  }

  lemma InvStaysSpaced(s: State, id: string)
    requires Inv(s, id)
    ensures StaysSpaced(s, id)
  {
    forall calls | Serial(s, calls, id) ensures Spaced(Run(s, calls).events, id) { InvRun(s, calls, id); }
  }

  lemma StaysSpacedNow(s: State, id: string)
    requires StaysSpaced(s, id)
    ensures Spaced(s.events, id)
  {
    assert Serial(s, [], id) && Run(s, []) == s;
  }

  lemma StaysSpacedStep(s: State, call: Call, id: string)
    requires StaysSpaced(s, id) && Waits(s, call, id)
    ensures StaysSpaced(Step(s, call), id)
  {
    forall calls | Serial(Step(s, call), calls, id) ensures Spaced(Run(Step(s, call), calls).events, id) {
      assert ([call] + calls)[1..] == calls;
      assert Serial(s, [call] + calls, id) && Run(s, [call] + calls) == Run(Step(s, call), calls);
    }
  }

  /** Neither the row nor any copy in flight knows of the i-th event. */
  ghost predicate Forgotten(s: State, id: string, i: nat) {
    && id in s.rules && NoTrigger(s, id)
    && i < |s.events| && s.events[i].ruleId == id && s.events[i].triggeredAt <= s.now
    && Stale(s.rules[id], s.events[i].triggeredAt)
    && (forall n :: n in s.edits && s.edits[n].ruleId == id ==> Stale(s.edits[n].rule, s.events[i].triggeredAt))
  }

  /** A forgotten rule fires too early, if enabled with a cooldown that has not passed. */
  lemma ForgottenFires(s: State, id: string, i: nat, k: nat)
    requires Forgotten(s, id, i) && NoEdit(s, id) && k !in s.inFlight && s.rules[id].enabled
    requires s.now < s.events[i].triggeredAt + 1000 * s.rules[id].cooldownSeconds
    ensures !StaysSpaced(s, id)
  {
    var last, wait := s.rules[id].lastTriggeredAt, 1000 * s.rules[id].cooldownSeconds;
    var at := if last.Some? && last.value + wait > s.now then last.value + wait else s.now;
    var check, commit := Check(k, id, at), Commit(k, at, at);
    var s1 := Step(s, check);
    var s2 := Step(s1, commit);
    assert s2.events == s.events + [AlertEvent(id, at, s.rules[id].cooldownSeconds)];
    assert !Spaced(s2.events, id) by {
      assert s2.events[i] == s.events[i] && s2.events[|s.events|].triggeredAt == at;
    }
    if StaysSpaced(s, id) {
      StaysSpacedStep(s, check, id);
      StaysSpacedStep(s1, commit, id);
      StaysSpacedNow(s2, id);
    }
  }

  lemma ForgottenIsEnabled(s: State, id: string, i: nat, n: nat, k: nat)
    requires Forgotten(s, id, i) && NoEdit(s, id) && n !in s.edits && k !in s.inFlight
    ensures !StaysSpaced(s, id)
  {
    var read, save := ReadForUpdate(n, id, Some(true), Some(s.now - s.events[i].triggeredAt + 1)), SaveUpdate(n);
    var s1 := Step(s, read);
    var s2 := Step(s1, save);
    assert s2.edits == s.edits;
    ForgottenFires(s2, id, i, k);
    if StaysSpaced(s, id) {
      StaysSpacedStep(s, read, id);
      StaysSpacedStep(s1, save, id);
    }
  }

  lemma {:induction false} ForgottenBreaks(s: State, id: string, i: nat, n: nat, k: nat)
    requires Forgotten(s, id, i) && n !in s.edits && k !in s.inFlight
    ensures !StaysSpaced(s, id)
    decreases |s.edits|
  {
    if m :| m in s.edits && s.edits[m].ruleId == id {
      var s' := Step(s, SaveUpdate(m));
      ForgottenBreaks(s', id, i, n, k);
      if StaysSpaced(s, id) { StaysSpacedStep(s, SaveUpdate(m), id); }
    } else {
      ForgottenIsEnabled(s, id, i, n, k);
    }
  }

  /** A trigger and an update of the rule in flight together: the update makes the rule forget the event. */
  lemma UpdateForgetsEvent(s: State, k: nat, n: nat, id: string)
    requires k in s.inFlight && s.inFlight[k].ruleId == id && s.inFlight[k].checkedAt <= s.now
    requires forall l :: l in s.inFlight && s.inFlight[l].ruleId == id ==> l == k
    requires n in s.edits && s.edits[n].ruleId == id
    requires forall m :: m in s.edits && s.edits[m].ruleId == id ==> Stale(s.edits[m].rule, s.now + 1)
    ensures !StaysSpaced(s, id)
  {
    var t := s.now + 1;
    var s1 := Step(s, Commit(k, t, t));
    var s2 := Step(s1, SaveUpdate(n));
    assert s2.events[|s.events|] == s1.events[|s.events|];
    assert Forgotten(s2, id, |s.events|);
    ForgottenBreaks(s2, id, |s.events|, n, k);
    if StaysSpaced(s, id) {
      StaysSpacedStep(s, Commit(k, t, t), id);
      StaysSpacedStep(s1, SaveUpdate(n), id);
    }
  }

  lemma TriggersCollide(s: State, k: nat, l: nat, id: string)
    requires k in s.inFlight && l in s.inFlight && k != l
    requires s.inFlight[k].ruleId == id == s.inFlight[l].ruleId
    requires s.inFlight[k].checkedAt <= s.now && s.inFlight[l].checkedAt <= s.now
    requires s.inFlight[k].rule.cooldownSeconds > 0
    ensures !StaysSpaced(s, id)
  {
    var t := s.now;
    var s1 := Step(s, Commit(l, t, t));
    var s2 := Step(s1, Commit(k, t, t));
    var n := |s.events|;
    assert s2.events[n].triggeredAt == t == s2.events[n + 1].triggeredAt;
    if StaysSpaced(s, id) {
      StaysSpacedStep(s, Commit(l, t, t), id);
      StaysSpacedStep(s1, Commit(k, t, t), id);
      StaysSpacedNow(s2, id);
    }
  }

  /** A check that lets an event through is safe exactly if no other call on the rule is in flight. */
  lemma CheckIsSafeIffAlone(s: State, k: nat, id: string, at: int)
    requires Inv(s, id) && Enabled(s, Check(k, id, at)) && Fires(s, id, at) && s.rules[id].cooldownSeconds > 0
    ensures StaysSpaced(Step(s, Check(k, id, at)), id) <==> Alone(s, id)
  {
    var s0 := Step(s, Check(k, id, at));
    if Alone(s, id) {
      InvStep(s, Check(k, id, at), id);
      InvStaysSpaced(s0, id);
    } else if l :| l in s.inFlight && s.inFlight[l].ruleId == id {
      TriggersCollide(s0, k, l, id);
    } else {
      var n :| n in s.edits && s.edits[n].ruleId == id;
      UpdateForgetsEvent(s0, k, n, id);
    }
  }

  /** An update may read its rule exactly if no trigger of it is in flight; other updates do no harm. */
  lemma UpdateIsSafeIffNoTrigger(s: State, n: nat, id: string, enabled: Option<bool>, cooldown: Option<nat>)
    requires Inv(s, id) && id in s.rules && n !in s.edits
    ensures StaysSpaced(Step(s, ReadForUpdate(n, id, enabled, cooldown)), id) <==> NoTrigger(s, id)
  {
    var read := ReadForUpdate(n, id, enabled, cooldown);
    var s0 := Step(s, read);
    if NoTrigger(s, id) {
      InvStep(s, read, id);
      InvStaysSpaced(s0, id);
    } else {
      var k :| k in s.inFlight && s.inFlight[k].ruleId == id;
      UpdateForgetsEvent(s0, k, n, id);
    }
  }

  lemma {:induction false} RunAppend(s: State, calls: seq<Call>, call: Call)
    ensures Run(s, calls + [call]) == Step(Run(s, calls), call)
    decreases |calls|
  {
    if calls == [] {
      assert Run(s, [call]) == Run(Step(s, call), []);
    } else {
      RunAppend(Step(s, calls[0]), calls[1..], call);
      assert (calls + [call])[1..] == calls[1..] + [call];
    }
  }

  lemma {:induction false} AboveAll(numbers: set<nat>) returns (n: nat)
    ensures forall m :: m in numbers ==> m < n
    decreases numbers
  {
    if numbers == {} {
      n := 0;
    } else {
      var x :| x in numbers;
      var rest := AboveAll(numbers - {x});
      n := if x < rest then rest else x + 1;
      assert numbers == (numbers - {x}) + {x};
    }
  }

  /** A trigger that saves its event and fails on the rule is harmless exactly if the rule is gone or knows. */
  lemma StampFailureIsSafeIff(s: State, k: nat, saved: int, failed: int, id: string)
    requires Inv(s, id) && Enabled(s, StampFails(k, saved, failed)) && s.inFlight[k].ruleId == id
    ensures StaysSpaced(Step(s, StampFails(k, saved, failed)), id) <==>
              (id in s.rules ==> !Stale(s.rules[id], saved))
  {
    var call := StampFails(k, saved, failed);
    var s' := Step(s, call);
    if id in s.rules && Stale(s.rules[id], saved) {
      var n := AboveAll(s'.edits.Keys);
      assert NoTrigger(s', id) && NoEdit(s', id) && s'.events[|s.events|].triggeredAt == saved;
      ForgottenBreaks(s', id, |s.events|, n, k);
    } else {
      InvStep(s, call, id);
      InvStaysSpaced(s', id);
    }
  }

  /** The run that shows it: an update around a trigger, and a second event a millisecond later. */
  ghost function StaleUpdate(id: string): seq<Call> {
    UpdateAroundTrigger(id) + [Check(0, id, 1)] + [Commit(0, 1, 1)]
  }

  ghost function UpdateAroundTrigger(id: string): seq<Call> {
    [CreateRule(id, true, 60)] + [ReadForUpdate(0, id, None, None)] + [Check(0, id, 0)] + [Commit(0, 0, 0)] + [SaveUpdate(0)]
  }

  lemma EventIsForgotten(id: string)
    ensures Run(Init(0), UpdateAroundTrigger(id)) ==
              State(0, map[id := Rule(true, 60, None)], {id}, [AlertEvent(id, 0, 60)], map[], map[])
  {
    var rule := Rule(true, 60, None);
    var a, b := CreateRule(id, true, 60), ReadForUpdate(0, id, None, None);
    var c, d := Check(0, id, 0), Commit(0, 0, 0);
    RunAppend(Init(0), [], a);
    assert [] + [a] == [a];
    RunAppend(Init(0), [a], b);
    assert Run(Init(0), [a] + [b]) == State(0, map[id := rule], {id}, [], map[], map[0 := Edit(id, rule)]);
    RunAppend(Init(0), [a] + [b], c);
    RunAppend(Init(0), [a] + [b] + [c], d);
    var s := Run(Init(0), [a] + [b] + [c] + [d]);
    assert s == State(0, map[id := rule.(lastTriggeredAt := Some(0))], {id}, [AlertEvent(id, 0, 60)], map[], map[0 := Edit(id, rule)]);
    RunAppend(Init(0), [a] + [b] + [c] + [d], SaveUpdate(0));
  }

  lemma StaleUpdateBreaksSpacing(id: string)
    ensures !Spaced(Run(Init(0), StaleUpdate(id)).events, id)
  {
    var calls := UpdateAroundTrigger(id);
    EventIsForgotten(id);
    RunAppend(Init(0), calls, Check(0, id, 1));
    RunAppend(Init(0), calls + [Check(0, id, 1)], Commit(0, 1, 1));
    var events := Run(Init(0), StaleUpdate(id)).events;
    assert events[0].triggeredAt == 0 && events[1].triggeredAt == 1;
  }

  // ---- what becomes of a saved update ----

  ghost predicate SameSettings(a: Rule, b: Rule) {
    a.enabled == b.enabled && a.cooldownSeconds == b.cooldownSeconds
  }

  /** Every copy of the rule that a trigger or an update will still write back has these settings. */
  ghost predicate CopiesAgree(s: State, id: string, rule: Rule) {
    && (forall k :: k in s.inFlight && s.inFlight[k].ruleId == id ==> SameSettings(s.inFlight[k].rule, rule))
    && (forall n :: n in s.edits && s.edits[n].ruleId == id ==> SameSettings(s.edits[n].rule, rule))
  }

  /** No later update or deletion of the rule is asked for. */
  ghost predicate LeftAlone(calls: seq<Call>, id: string) {
    forall i :: 0 <= i < |calls| && (calls[i].ReadForUpdate? || calls[i].DeleteRule?) ==> calls[i].id != id
  }

  ghost predicate Survives(s: State, id: string, rule: Rule) {
    forall calls :: LeftAlone(calls, id) ==>
      id in Run(s, calls).rules && SameSettings(Run(s, calls).rules[id], rule)
  }

  lemma CopiesStay(s: State, call: Call, id: string, rule: Rule)
    requires id in s.used && id in s.rules && SameSettings(s.rules[id], rule) && CopiesAgree(s, id, rule)
    requires call.ReadForUpdate? || call.DeleteRule? ==> call.id != id
    ensures var s' := Step(s, call);
            id in s'.used && id in s'.rules && SameSettings(s'.rules[id], rule) && CopiesAgree(s', id, rule)
  {
  }

  lemma {:induction false} SettingsStay(s: State, calls: seq<Call>, id: string, rule: Rule)
    requires id in s.used && id in s.rules && SameSettings(s.rules[id], rule)
    requires CopiesAgree(s, id, rule) && LeftAlone(calls, id)
    ensures id in Run(s, calls).rules && SameSettings(Run(s, calls).rules[id], rule)
    decreases |calls|
  {
    hide Step, CopiesAgree;
    if calls != [] {
      var s' := Step(s, calls[0]);
      assert LeftAlone(calls[1..], id);
      CopiesStay(s, calls[0], id, rule);
      SettingsStay(s', calls[1..], id, rule);
    }
  }

  lemma OneMoreCall(s: State, call: Call)
    ensures Run(s, [call]) == Step(s, call)
  {
    assert [call][1..] == [];
  }

  /**
   The settings that an update has saved last until the next update exactly if every trigger and
   update of the rule still in flight has read the same ones: each writes back what it read.
   */
  lemma UpdateSurvivesIffCopiesAgree(s: State, n: nat)
    requires n in s.edits && s.edits[n].ruleId in s.used
    requires forall k :: k in s.inFlight ==> s.inFlight[k].checkedAt <= s.now
    ensures var s', id, rule := Step(s, SaveUpdate(n)), s.edits[n].ruleId, s.edits[n].rule;
            Survives(s', id, rule) <==> CopiesAgree(s', id, rule)
  {
    var s', id, rule := Step(s, SaveUpdate(n)), s.edits[n].ruleId, s.edits[n].rule;
    if CopiesAgree(s', id, rule) {
      forall calls | LeftAlone(calls, id)
        ensures id in Run(s', calls).rules && SameSettings(Run(s', calls).rules[id], rule)
      {
        SettingsStay(s', calls, id, rule);
      }
    } else if k :| k in s'.inFlight && s'.inFlight[k].ruleId == id && !SameSettings(s'.inFlight[k].rule, rule) {
      var call := Commit(k, s'.now, s'.now);
      OneMoreCall(s', call);
      assert LeftAlone([call], id);
    } else {
      var m :| m in s'.edits && s'.edits[m].ruleId == id && !SameSettings(s'.edits[m].rule, rule);
      OneMoreCall(s', SaveUpdate(m));
      assert LeftAlone([SaveUpdate(m)], id);
    }
  }

  // ---- the rate bound ----

  /** When the rule fired within a closed window. */
  ghost function FiredIn(events: seq<AlertEvent>, id: string, from: int, to: int): seq<int> {
    if events == [] then []
    else
      var e := events[|events| - 1];
      FiredIn(events[..|events| - 1], id, from, to) +
      (if e.ruleId == id && from <= e.triggeredAt <= to then [e.triggeredAt] else [])
  }

  ghost predicate Gaps(times: seq<int>, gap: int) {
    forall i :: 0 < i < |times| ==> times[i - 1] + gap <= times[i]
  }

  lemma {:induction false} FiredAreSpaced(events: seq<AlertEvent>, id: string, from: int, to: int, cooldown: nat)
    requires Spaced(events, id)
    requires CooldownAtLeast(events, id, cooldown)
    ensures var times := FiredIn(events, id, from, to);
            && Gaps(times, 1000 * cooldown)
            && (forall k :: 0 <= k < |times| ==> from <= times[k] <= to)
            && (times != [] ==> exists i :: 0 <= i < |events| && events[i].ruleId == id
                                            && events[i].triggeredAt == times[|times| - 1])
    decreases |events|
  {
    if events != [] {
      FiredAreSpaced(events[..|events| - 1], id, from, to, cooldown);
    }
  }

  lemma {:induction false} SpanOfGaps(times: seq<int>, gap: nat)
    requires times != [] && Gaps(times, gap)
    ensures times[0] + (|times| - 1) * gap <= times[|times| - 1]
    decreases |times|
  {
    if |times| > 1 {
      var front := times[..|times| - 1];
      SpanOfGaps(front, gap);
      assert (|times| - 1) * gap == (|front| - 1) * gap + gap;
    }
  }

  lemma TimesMonotone(a: int, b: int, gap: nat)
    ensures a <= b ==> a * gap <= b * gap
  {
  }

  lemma QuotientBound(n: nat, gap: nat, length: nat)
    requires gap > 0 && n * gap <= length
    ensures n <= length / gap
  {
    TimesMonotone(length / gap + 1, n, gap);
  }

  lemma QuotientExact(n: nat, gap: nat)
    requires gap > 0
    ensures n * gap / gap == n
  {
    QuotientBound(n, gap, n * gap);
    TimesMonotone(n + 1, n * gap / gap, gap);
  }

  ghost predicate CooldownAtLeast(events: seq<AlertEvent>, id: string, cooldown: nat) {
    forall i :: 0 <= i < |events| && events[i].ruleId == id ==> events[i].cooldown >= cooldown
  }

  /**
   While the cooldown in force at the checks of a rule is at least c > 0 seconds, any closed
   window of L milliseconds holds at most floor(L / 1000c) + 1 events of it.
   */
  lemma RateBound(now: int, calls: seq<Call>, id: string, cooldown: nat, from: int, length: nat)
    requires cooldown > 0 && Serial(Init(now), calls, id)
    requires CooldownAtLeast(Run(Init(now), calls).events, id, cooldown)
    ensures |FiredIn(Run(Init(now), calls).events, id, from, from + length)| <= length / (1000 * cooldown) + 1
  {
    hide Run, FiredIn, Spaced, Serial;
    var events := Run(Init(now), calls).events;
    var times := FiredIn(events, id, from, from + length);
    EventsKeepTheCooldown(now, calls, id);
    FiredAreSpaced(events, id, from, from + length, cooldown);
    if times != [] {
      SpanOfGaps(times, 1000 * cooldown);
      QuotientBound(|times| - 1, 1000 * cooldown, length);
    }
  }

  // ---- the bound is met ----

  /** Triggers exactly one cooldown apart. */
  ghost function Regular(id: string, cooldown: nat, n: nat): seq<Call> {
    if n == 0 then [CreateRule(id, true, cooldown)]
    else
      var t := (n - 1) * (1000 * cooldown);
      Regular(id, cooldown, n - 1) + [Check(n, id, t)] + [Commit(n, t, t)]
  }

  lemma {:induction false} SerialAppend(s: State, calls: seq<Call>, call: Call, id: string)
    requires Serial(s, calls, id) && Waits(Run(s, calls), call, id)
    ensures Serial(s, calls + [call], id)
    decreases |calls|
  {
    if calls == [] {
      assert calls + [call] == [call];
    } else {
      SerialAppend(Step(s, calls[0]), calls[1..], call, id);
      assert (calls + [call])[1..] == calls[1..] + [call];
    }
  }

  /** The rule fired n times, last at the given time (0 if not at all). */
  ghost predicate FiredRegularly(s: State, id: string, cooldown: nat, n: nat, last: int) {
    && s.now == last >= 0 && s.inFlight == map[] && s.edits == map[]
    && s.rules == map[id := Rule(true, cooldown, if n == 0 then None else Some(last))]
    && |FiredIn(s.events, id, 0, last)| == n
    && CooldownAtLeast(s.events, id, cooldown)
    && (forall i :: 0 <= i < |s.events| ==> s.events[i].triggeredAt <= last)
  }

  lemma OneMoreFires(s: State, id: string, cooldown: nat, n: nat, t: int)
    requires n >= 1 && FiredRegularly(s, id, cooldown, n - 1, s.now)
    requires t >= s.now && (n >= 2 ==> t == s.now + 1000 * cooldown)
    ensures FiredRegularly(Step(Step(s, Check(n, id, t)), Commit(n, t, t)), id, cooldown, n, t)
  {
    var s1 := Step(s, Check(n, id, t));
    assert s1.inFlight == map[n := Pending(id, s.rules[id], t)];
    var s2 := Step(s1, Commit(n, t, t));
    assert s2.inFlight == map[];
    var e := AlertEvent(id, t, cooldown);
    assert s2.events == s.events + [e];
    assert (s.events + [e])[..|s.events|] == s.events;
    FiredWider(s.events, id, s.now, t);
  }

  lemma {:induction false} FiredWider(events: seq<AlertEvent>, id: string, to: int, wider: int)
    requires forall i :: 0 <= i < |events| ==> events[i].triggeredAt <= to <= wider
    ensures FiredIn(events, id, 0, to) == FiredIn(events, id, 0, wider)
    decreases |events|
  {
    if events != [] {
      var front := events[..|events| - 1];
      assert forall i :: 0 <= i < |front| ==> front[i] == events[i];
      FiredWider(front, id, to, wider);
    }
  }

  lemma {:induction false} RegularFires(id: string, cooldown: nat, n: nat)
    ensures FiredRegularly(Run(Init(0), Regular(id, cooldown, n)), id, cooldown, n,
              if n == 0 then 0 else (n - 1) * (1000 * cooldown))
    ensures Serial(Init(0), Regular(id, cooldown, n), id)
    decreases n
  {
    if n == 0 {
      assert Run(Init(0), Regular(id, cooldown, 0)) == Step(Init(0), CreateRule(id, true, cooldown));
    } else {
      var before, t := Regular(id, cooldown, n - 1), (n - 1) * (1000 * cooldown);
      RegularFires(id, cooldown, n - 1);
      RunAppend(Init(0), before, Check(n, id, t));
      RunAppend(Init(0), before + [Check(n, id, t)], Commit(n, t, t));
      SerialAppend(Init(0), before, Check(n, id, t), id);
      SerialAppend(Init(0), before + [Check(n, id, t)], Commit(n, t, t), id);
      assert n >= 2 ==> (n - 2) * (1000 * cooldown) + 1000 * cooldown == t;
      OneMoreFires(Run(Init(0), before), id, cooldown, n, t);
    }
  }

  /** No smaller bound would do: some serial run has that many events in a window. */
  lemma RateBoundIsMet(id: string, cooldown: nat, n: nat)
    requires cooldown > 0 && n > 0
    ensures exists calls :: Serial(Init(0), calls, id)
              && CooldownAtLeast(Run(Init(0), calls).events, id, cooldown)
              && var length := (n - 1) * (1000 * cooldown);
                 |FiredIn(Run(Init(0), calls).events, id, 0, length)| == length / (1000 * cooldown) + 1
  {
    RegularFires(id, cooldown, n);
    QuotientExact(n - 1, 1000 * cooldown);
  }
}

/** The service over its two tables. */
module AlertsServices {
  import opened Common
  import opened AlertsModel

  class AlertsService {
    var rules: map<string, Rule>
    var events: seq<AlertEvent>
    ghost var now: int
    ghost var used: set<string>
    ghost var inFlight: map<nat, Pending>
    ghost var edits: map<nat, Edit>

    ghost function View(): State
      reads this
    {
      State(now, rules, used, events, inFlight, edits)
    }

    constructor (ghost now: int)
      ensures View() == Init(now)
    {
      rules, events := map[], [];
      this.now, used, inFlight, edits := now, {}, map[], map[];
    }

    method CreateRule(id: string, enabled: Option<bool>, cooldownSeconds: Option<nat>)
      requires id !in used
      modifies this
      ensures View() == Step(old(View()), AlertsModel.CreateRule(id, enabled.GetOr(true), cooldownSeconds.GetOr(60)))
    {
      rules := rules[id := Rule(enabled.GetOr(true), cooldownSeconds.GetOr(60), None)];
      used := used + {id};
    }

    /** The part of an update up to the saving of the rule; Some if the rule was found. */
    method ReadForUpdate(ghost edit: nat, id: string, enabled: Option<bool>, cooldownSeconds: Option<nat>)
      returns (changed: Option<Rule>)
      requires edit !in edits
      modifies this`edits
      ensures View() == Step(old(View()), AlertsModel.ReadForUpdate(edit, id, enabled, cooldownSeconds))
      ensures changed.Some? <==> id in rules
      ensures changed.Some? ==>
        && edit in edits && edits[edit] == Edit(id, changed.value)
        && changed.value.lastTriggeredAt == rules[id].lastTriggeredAt
    {
      if id !in rules {
        return None;
      }
      var rule := rules[id];
      if enabled.Some? { rule := rule.(enabled := enabled.value); }
      if cooldownSeconds.Some? { rule := rule.(cooldownSeconds := cooldownSeconds.value); }
      edits := edits[edit := Edit(id, rule)];
      changed := Some(rule);
    }

    /** The rest of the update: the whole copy is saved, the time it read included, or saving fails. */
    method SaveUpdate(ghost edit: nat, id: string, rule: Rule, saves: bool)
      requires edit in edits && edits[edit] == Edit(id, rule)
      modifies this`rules, this`edits
      ensures View() == Step(old(View()), if saves then AlertsModel.SaveUpdate(edit) else UpdateFails(edit))
    {
      edits := edits - {edit};
      if saves {
        rules := rules[id := rule];
      }
    }

    method DeleteRule(id: string) returns (found: bool)
      modifies this
      ensures found == (id in old(rules))
      ensures View() == Step(old(View()), AlertsModel.DeleteRule(id))
    {
      found := id in rules;
      rules := rules - {id};
    }

    /** The part of a trigger up to the saving of its event; Some if it goes on. */
    method CheckTrigger(ghost trigger: nat, id: string, at: int) returns (rule: Option<Rule>)
      requires trigger !in inFlight && now <= at
      modifies this
      ensures View() == Step(old(View()), Check(trigger, id, at))
      ensures rule == if Fires(old(View()), id, at) then Some(old(rules)[id]) else None
    {
      now := at;
      if id !in rules || !rules[id].enabled {
        return None;
      }
      var found := rules[id];
      if found.lastTriggeredAt.Some? {
        var nextAllowed := found.lastTriggeredAt.value + found.cooldownSeconds * 1000;
        if at < nextAllowed {
          return None;
        }
      }
      inFlight := inFlight[trigger := Pending(id, found, at)];
      rule := Some(found);
    }

    /** The rest of the trigger: its event is saved, then the rule that was read is stamped and saved. */
    method CommitTrigger(ghost trigger: nat, id: string, rule: Rule, saved: int, stamped: int, eventSaves: bool, ruleSaves: bool)
      returns (event: Option<AlertEvent>)
      requires trigger in inFlight && inFlight[trigger].ruleId == id && inFlight[trigger].rule == rule
      requires inFlight[trigger].checkedAt <= saved <= stamped && now <= stamped
      modifies this
      ensures View() == Step(old(View()),
        if !eventSaves then EventFails(trigger)
        else if !ruleSaves then StampFails(trigger, saved, stamped)
        else Commit(trigger, saved, stamped))
      ensures event.Some? <==> eventSaves && ruleSaves
      ensures event.Some? ==> events == old(events) + [event.value]
    {
      inFlight := inFlight - {trigger};
      if !eventSaves {
        return None;
      }
      var alertEvent := AlertEvent(id, saved, rule.cooldownSeconds);
      events := events + [alertEvent];
      now := stamped;
      if !ruleSaves {
        return None;
      }
      rules := rules[id := rule.(lastTriggeredAt := Some(stamped))];
      event := Some(alertEvent);
    }
  }
}
