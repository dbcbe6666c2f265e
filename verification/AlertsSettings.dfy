/** What updates of an alert rule do, and what its events go back to. */
module AlertsSettings {
  import opened Common
  import opened AlertsModel
  import opened AlertsSafety

  // ---- an update sets what it names ----

  /** No call on the rule, and none that ends the update n. */
  ghost predicate Elsewhere(calls: seq<Call>, id: string, n: nat) {
    forall i :: 0 <= i < |calls| ==> CallElsewhere(calls[i], id, n)
  }

  ghost predicate CallElsewhere(call: Call, id: string, n: nat) {
    match call
    case CreateRule(x, _, _) => x != id
    case ReadForUpdate(_, x, _, _) => x != id
    case DeleteRule(x) => x != id
    case Check(_, x, _) => x != id
    case SaveUpdate(m) => m != n
    case UpdateFails(m) => m != n
    case _ => true
  }

  /** The update n is the only call on the rule in flight, and the row is still the given one. */
  ghost predicate OnlyUpdate(s: State, id: string, n: nat, rule: Rule, copy: Rule) {
    && id in s.rules && s.rules[id] == rule
    && NoTrigger(s, id)
    && n in s.edits && s.edits[n] == Edit(id, copy)
    && (forall m :: m in s.edits && s.edits[m].ruleId == id ==> m == n)
  }

  lemma OnlyUpdateStep(s: State, call: Call, id: string, n: nat, rule: Rule, copy: Rule)
    requires OnlyUpdate(s, id, n, rule, copy) && CallElsewhere(call, id, n)
    ensures OnlyUpdate(Step(s, call), id, n, rule, copy)
  {
  }

  lemma {:induction false} OnlyUpdateRun(s: State, calls: seq<Call>, id: string, n: nat, rule: Rule, copy: Rule)
    requires OnlyUpdate(s, id, n, rule, copy) && Elsewhere(calls, id, n)
    ensures OnlyUpdate(Run(s, calls), id, n, rule, copy)
    decreases |calls|
  {
    hide Step, OnlyUpdate;
    if calls != [] {
      OnlyUpdateStep(s, calls[0], id, n, rule, copy);
      OnlyUpdateRun(Step(s, calls[0]), calls[1..], id, n, rule, copy);
    }
  }

  /** With no other call on the rule in between, each named setting has the value given, and nothing else changes. */
  lemma UpdateTakes(s: State, n: nat, id: string, enabled: Option<bool>, cooldown: Option<nat>, between: seq<Call>)
    requires Alone(s, id) && id in s.rules && n !in s.edits && Elsewhere(between, id, n)
    ensures var s1 := Run(Step(s, ReadForUpdate(n, id, enabled, cooldown)), between);
            var s2 := Step(s1, SaveUpdate(n));
            && id in s2.rules
            && (enabled.Some? ==> s2.rules[id].enabled == enabled.value)
            && (enabled.None? ==> s2.rules[id].enabled == s.rules[id].enabled)
            && (cooldown.Some? ==> s2.rules[id].cooldownSeconds == cooldown.value)
            && (cooldown.None? ==> s2.rules[id].cooldownSeconds == s.rules[id].cooldownSeconds)
            && s2.rules[id].lastTriggeredAt == s.rules[id].lastTriggeredAt
            && (forall x :: x != id ==> (x in s2.rules <==> x in s1.rules))
            && (forall x :: x != id && x in s1.rules ==> s2.rules[x] == s1.rules[x])
  {
    var s0 := Step(s, ReadForUpdate(n, id, enabled, cooldown));
    var copy := s0.edits[n].rule;
    assert OnlyUpdate(s0, id, n, s.rules[id], copy);
    OnlyUpdateRun(s0, between, id, n, s.rules[id], copy);
  }

  // ---- what an event goes back to ----

  /** A check of an existing, enabled rule with this cooldown, which had passed since its last trigger. */
  ghost predicate CheckedBy(now: int, calls: seq<Call>, j: nat, id: string, cooldown: nat, until: int) {
    && j < |calls| && calls[j].Check? && calls[j].id == id && calls[j].at <= until
    && var s := Run(Init(now), calls[..j]);
       && id in s.rules && s.rules[id].enabled && s.rules[id].cooldownSeconds == cooldown
       && (s.rules[id].lastTriggeredAt.Some? ==>
             s.rules[id].lastTriggeredAt.value + 1000 * cooldown <= calls[j].at)
  }

  ghost predicate Checked(now: int, calls: seq<Call>, id: string, cooldown: nat, until: int) {
    exists j: nat :: CheckedBy(now, calls, j, id, cooldown, until)
  }

  ghost predicate AllChecked(now: int, calls: seq<Call>) {
    var s := Run(Init(now), calls);
    && (forall e :: e in s.events ==> Checked(now, calls, e.ruleId, e.cooldown, e.triggeredAt))
    && (forall k :: k in s.inFlight ==>
          Checked(now, calls, s.inFlight[k].ruleId, s.inFlight[k].rule.cooldownSeconds, s.inFlight[k].checkedAt))
  }

  lemma CheckedStays(now: int, calls: seq<Call>, call: Call, id: string, cooldown: nat, until: int, later: int)
    requires Checked(now, calls, id, cooldown, until) && until <= later
    ensures Checked(now, calls + [call], id, cooldown, later)
  {
    var j: nat :| CheckedBy(now, calls, j, id, cooldown, until);
    assert (calls + [call])[..j] == calls[..j] && (calls + [call])[j] == calls[j];
    assert CheckedBy(now, calls + [call], j, id, cooldown, later);
  }

  /** What is new in a step: a trigger that its check let through, or an event of one in flight. */
  lemma StepAdds(s: State, call: Call)
    ensures var s' := Step(s, call);
            && (forall k :: k in s'.inFlight ==>
                  || (k in s.inFlight && s'.inFlight[k] == s.inFlight[k])
                  || (call.Check? && call.trigger == k && call.id in s.rules && s.rules[call.id].enabled
                      && s'.inFlight[k] == Pending(call.id, s.rules[call.id], call.at)
                      && (s.rules[call.id].lastTriggeredAt.Some? ==>
                            s.rules[call.id].lastTriggeredAt.value + 1000 * s.rules[call.id].cooldownSeconds <= call.at)))
            && (forall e :: e in s'.events ==>
                  || e in s.events
                  || exists k :: k in s.inFlight && e.ruleId == s.inFlight[k].ruleId
                       && e.cooldown == s.inFlight[k].rule.cooldownSeconds && s.inFlight[k].checkedAt <= e.triggeredAt)
  {
    var s' := Step(s, call);
    forall e | e in s'.events && e !in s.events
      ensures exists k :: k in s.inFlight && e.ruleId == s.inFlight[k].ruleId
                && e.cooldown == s.inFlight[k].rule.cooldownSeconds && s.inFlight[k].checkedAt <= e.triggeredAt
    {
      assert call.Commit? || call.StampFails?;
      assert call.trigger in s.inFlight;
    }
  }

  lemma AllCheckedStep(now: int, calls: seq<Call>, call: Call)
    requires AllChecked(now, calls)
    ensures AllChecked(now, calls + [call])
  {
    var s, more := Run(Init(now), calls), calls + [call];
    var s' := Step(s, call);
    RunAppend(Init(now), calls, call);
    StepAdds(s, call);
    hide Step, Run;
    forall k | k in s'.inFlight
      ensures Checked(now, more, s'.inFlight[k].ruleId, s'.inFlight[k].rule.cooldownSeconds, s'.inFlight[k].checkedAt)
    {
      var p := s'.inFlight[k];
      if k in s.inFlight && p == s.inFlight[k] {
        CheckedStays(now, calls, call, p.ruleId, p.rule.cooldownSeconds, p.checkedAt, p.checkedAt);
      } else {
        assert more[..|calls|] == calls;
        assert CheckedBy(now, more, |calls|, p.ruleId, p.rule.cooldownSeconds, p.checkedAt);
      }
    }
    forall e | e in s'.events ensures Checked(now, more, e.ruleId, e.cooldown, e.triggeredAt) {
      if e in s.events {
        CheckedStays(now, calls, call, e.ruleId, e.cooldown, e.triggeredAt, e.triggeredAt);
      } else {
        var k :| k in s.inFlight && e.ruleId == s.inFlight[k].ruleId
          && e.cooldown == s.inFlight[k].rule.cooldownSeconds && s.inFlight[k].checkedAt <= e.triggeredAt;
        CheckedStays(now, calls, call, e.ruleId, e.cooldown, s.inFlight[k].checkedAt, e.triggeredAt);
      }
    }
  }

  /**
   In every run each event goes back to a check, no later than the event, at which its rule was
   stored, enabled, with the cooldown the event carries, and that cooldown had passed.
   */
  lemma {:induction false} EventsWereChecked(now: int, calls: seq<Call>)
    ensures AllChecked(now, calls)
    decreases |calls|
  {
    if calls != [] {
      var front := calls[..|calls| - 1];
      EventsWereChecked(now, front);
      AllCheckedStep(now, front, calls[|calls| - 1]);
      assert calls == front + [calls[|calls| - 1]];
    }
  }

  /** And a check of such a rule does go on to its event. */
  lemma CheckGoesOn(s: State, k: nat, id: string, at: int)
    requires k !in s.inFlight && s.now <= at && id in s.rules && s.rules[id].enabled
    requires s.rules[id].lastTriggeredAt.Some? ==>
               s.rules[id].lastTriggeredAt.value + 1000 * s.rules[id].cooldownSeconds <= at
    ensures var s' := Step(Step(s, Check(k, id, at)), Commit(k, at, at));
            && s'.events == s.events + [AlertEvent(id, at, s.rules[id].cooldownSeconds)]
            && id in s'.rules && s'.rules[id] == s.rules[id].(lastTriggeredAt := Some(at))
  {
  }

  /** A trigger that fails on its event, or an update that fails, leaves rules and events alone; so for rules one that fails on its rule. */
  lemma FailuresChangeNothing(s: State, k: nat, saved: int, failed: int)
    ensures Step(s, EventFails(k)).rules == s.rules && Step(s, EventFails(k)).events == s.events
    ensures Step(s, UpdateFails(k)).rules == s.rules && Step(s, UpdateFails(k)).events == s.events
    ensures var s' := Step(s, StampFails(k, saved, failed));
            && s'.rules == s.rules
            && (Enabled(s, StampFails(k, saved, failed)) ==>
                  s'.events == s.events + [AlertEvent(s.inFlight[k].ruleId, saved, s.inFlight[k].rule.cooldownSeconds)])
  {
  }

  /** A deleted rule with no call on it in flight never comes back and never fires. */
  lemma {:induction false} DeletedStaysGone(s: State, calls: seq<Call>, id: string)
    requires Alone(s, id) && id !in s.rules && id in s.used
    ensures id !in Run(s, calls).rules
    ensures s.events <= Run(s, calls).events
    ensures forall i :: |s.events| <= i < |Run(s, calls).events| ==> Run(s, calls).events[i].ruleId != id
    decreases |calls|
  {
    if calls != [] {
      DeletedStep(s, calls[0], id);
      hide Step, Alone;
      DeletedStaysGone(Step(s, calls[0]), calls[1..], id);
    }
  }

  lemma DeletedStep(s: State, call: Call, id: string)
    requires Alone(s, id) && id !in s.rules && id in s.used
    ensures var s' := Step(s, call);
            && Alone(s', id) && id !in s'.rules && id in s'.used && s.events <= s'.events
            && (forall i :: |s.events| <= i < |s'.events| ==> s'.events[i].ruleId != id)
  {
  }

  lemma DeletingIsFinal(s: State, calls: seq<Call>, id: string)
    requires Alone(s, id) && id in s.used
    ensures var s' := Step(s, DeleteRule(id));
            && id !in Run(s', calls).rules
            && (forall i :: |s'.events| <= i < |Run(s', calls).events| ==> Run(s', calls).events[i].ruleId != id)
  {
    DeletedStaysGone(Step(s, DeleteRule(id)), calls, id);
  }

  // ---- a disabled rule is silent ----

  /** The row is disabled or gone, no trigger of it is in flight, and no copy would enable it. */
  ghost predicate Silent(s: State, id: string) {
    && id in s.used && NoTrigger(s, id)
    && (id in s.rules ==> !s.rules[id].enabled)
    && (forall n :: n in s.edits && s.edits[n].ruleId == id ==> !s.edits[n].rule.enabled)
  }

  ghost predicate EnablesRule(call: Call, id: string) {
    call.ReadForUpdate? && call.id == id && call.newEnabled == Some(true)
  }

  lemma SilentStep(s: State, call: Call, id: string)
    requires Silent(s, id) && !EnablesRule(call, id)
    ensures Silent(Step(s, call), id)
    ensures s.events <= Step(s, call).events
    ensures forall i :: |s.events| <= i < |Step(s, call).events| ==> Step(s, call).events[i].ruleId != id
  {
  }

  /** Then, until an update enables the rule, no event of it is added, whatever else happens. */
  lemma {:induction false} DisabledIsSilent(s: State, calls: seq<Call>, id: string)
    requires Silent(s, id)
    requires forall i :: 0 <= i < |calls| ==> !EnablesRule(calls[i], id)
    ensures s.events <= Run(s, calls).events
    ensures forall i :: |s.events| <= i < |Run(s, calls).events| ==> Run(s, calls).events[i].ruleId != id
    decreases |calls|
  {
    hide Step, Silent;
    if calls != [] {
      SilentStep(s, calls[0], id);
      DisabledIsSilent(Step(s, calls[0]), calls[1..], id);
    }
  }

  /** An update to disabled, saved with no other call on the rule in flight, silences it. */
  lemma DisablingSilences(s: State, n: nat, id: string, cooldown: Option<nat>, calls: seq<Call>)
    requires Alone(s, id) && id in s.rules && id in s.used && n !in s.edits
    requires forall i :: 0 <= i < |calls| ==> !EnablesRule(calls[i], id)
    ensures var s2 := Step(Step(s, ReadForUpdate(n, id, Some(false), cooldown)), SaveUpdate(n));
            forall i :: |s2.events| <= i < |Run(s2, calls).events| ==> Run(s2, calls).events[i].ruleId != id
  {
    var s2 := Step(Step(s, ReadForUpdate(n, id, Some(false), cooldown)), SaveUpdate(n));
    assert Silent(s2, id);
    DisabledIsSilent(s2, calls, id);
  }
}
