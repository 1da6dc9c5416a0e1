/**
 * The Do-Not-Disturb rule used to emulate silent mode: `getOrCreateZenRuleID`
 * and `toggleZenMode`. The three copies in SoundModesManager,
 * SoundModesService and SoundModesWidget are the same code.
 */
module ZenRules {
  import opened Options
  import opened AndroidOs

  /** The string resource `silent_mode`: the name of the app's rule. */
  const SilentModeRuleName: string := "silent_mode"

  predicate Named(rules: map<RuleId, string>, id: RuleId, name: string)
  {
    id in rules && rules[id] == name
  }

  /**
   * `entries.firstOrNull { it.value.name == ruleName }?.key`, over the ids
   * `k`, ..., `bound - 1` in ascending (that is, creation) order.
   */
  function FirstRuleNamedFrom(rules: map<RuleId, string>, name: string, k: nat, bound: nat): (r: Option<RuleId>)
    ensures r.Some? ==> k <= r.value < bound && Named(rules, r.value, name)
    ensures r.Some? ==> forall j :: k <= j < r.value ==> !Named(rules, j, name)
    ensures r.None? ==> forall j :: k <= j < bound ==> !Named(rules, j, name)
    decreases bound - k
  {
    if k >= bound then None
    else if Named(rules, k, name) then Some(k)
    else FirstRuleNamedFrom(rules, name, k + 1, bound)
  }

  function FirstRuleNamed(s: OsState, name: string): Option<RuleId>
  {
    FirstRuleNamedFrom(s.rules, name, 0, s.nextId)
  }

  /** The search `firstOrNull` performs, as a loop over the rule table. */
  method FindRuleNamed(os: Device, name: string) returns (r: Option<RuleId>)
    ensures r == FirstRuleNamed(os.State(), name)
  {
    var k := 0;
    while k < os.nextId
      invariant k <= os.nextId
      invariant FirstRuleNamedFrom(os.rules, name, k, os.nextId) == FirstRuleNamed(os.State(), name)
    {
      if k in os.rules && os.rules[k] == name {
        return Some(k);
      }
      k := k + 1;
    }
    return None;
  }

  /**
   * `getOrCreateZenRuleID(ruleName)`: the state afterwards and the id
   * returned. An id always names a rule called `name`; no rule is removed,
   * and nothing but the rule table, the allocator and the log changes.
   */
  function ObtainZenRule(s: OsState, name: string): (o: Obtained)
    ensures o.id.Some? ==> Named(o.state.rules, o.id.value, name)
    ensures s.rules.Keys <= o.state.rules.Keys
    ensures o.state == s.(rules := o.state.rules, nextId := o.state.nextId, log := o.state.log)
  {
    match FirstRuleNamed(s, name)
    case Some(id) => Obtained(s, Some(id))
    case None => AfterAddZenRule(s, name)
  }

  method GetOrCreateZenRuleId(os: Device, name: string) returns (id: Option<RuleId>)
    requires os.Valid()
    modifies os
    ensures os.Valid()
    ensures Obtained(os.State(), id) == ObtainZenRule(old(os.State()), name)
  {
    var existingId := FindRuleNamed(os, name);
    if existingId.Some? {
      return existingId;
    }
    id := os.AddAutomaticZenRule(name);
  }

  /** The conditions `toggleZenMode` writes: FALSE then TRUE to turn on, FALSE to turn off. */
  function ZenWrites(turnOn: bool): seq<Condition>
  {
    if turnOn then [Condition(EmptySummary, false), Condition(ActiveSummary, true)]
    else [Condition(InactiveSummary, false)]
  }

  /**
   * `toggleZenMode(ruleName, turnOn)`: it never touches the ringer mode, the
   * vibrations or the permission, and, when it has a rule id, the rule's
   * last state is `turnOn`.
   */
  function AfterToggleZenMode(s: OsState, name: string, turnOn: bool): (t: OsState)
    ensures t == s.(rules := t.rules, nextId := t.nextId, ruleStates := t.ruleStates, log := t.log)
    ensures ObtainZenRule(s, name).id.Some? ==>
      var id := ObtainZenRule(s, name).id.value;
      id in t.ruleStates && t.ruleStates[id] == turnOn
  {
    var o := ObtainZenRule(s, name);
    match o.id
    case None => o.state
    case Some(id) => AfterZenWrites(o.state, id, turnOn)
  }

  /** The state writes of `toggleZenMode` once the rule id is known. */
  function AfterZenWrites(s: OsState, id: RuleId, turnOn: bool): OsState
  {
    var w := ZenWrites(turnOn);
    var reset := if turnOn then AfterSetZenRuleState(s, id, w[0]) else s;
    AfterSetZenRuleState(reset, id, w[|w| - 1])
  }

  method ToggleZenMode(os: Device, name: string, turnOn: bool)
    requires os.Valid()
    modifies os
    ensures os.Valid()
    ensures os.State() == AfterToggleZenMode(old(os.State()), name, turnOn)
  {
    ObtainKeepsConsistent(os.State(), name);
    var ruleId := GetOrCreateZenRuleId(os, name);
    if ruleId.None? {
      return;
    }
    var id := ruleId.value;
    if turnOn {
      os.SetAutomaticZenRuleState(id, Condition(EmptySummary, false));
    }
    os.SetAutomaticZenRuleState(id, Condition(if turnOn then ActiveSummary else InactiveSummary, turnOn));
  }

  // ---- properties ----

  /** The id obtained belongs to a rule of that name, and the state stays consistent. */
  lemma ObtainKeepsConsistent(s: OsState, name: string)
    requires Consistent(s)
    ensures Consistent(ObtainZenRule(s, name).state)
    ensures ObtainZenRule(s, name).id.Some? ==>
      Named(ObtainZenRule(s, name).state.rules, ObtainZenRule(s, name).id.value, name)
  {
    if FirstRuleNamed(s, name).None? {
      AddZenRuleKeepsConsistent(s, name);
    }
  }

  /** When some rule already has the name, its id is returned and nothing changes. */
  lemma ObtainExisting(s: OsState, name: string, existing: RuleId)
    requires Consistent(s) && Named(s.rules, existing, name)
    ensures ObtainZenRule(s, name).state == s
    ensures ObtainZenRule(s, name).id.Some?
    ensures Named(s.rules, ObtainZenRule(s, name).id.value, name)
    ensures ObtainZenRule(s, name).id.value <= existing
  {
    assert existing < s.nextId;
  }

  /**
   * When no rule has the name, exactly one rule is added, under a fresh id,
   * or, if the notification service refuses it, nothing is and no id results.
   */
  lemma ObtainAbsent(s: OsState, name: string)
    requires Consistent(s)
    requires forall id :: !Named(s.rules, id, name)
    ensures var o := ObtainZenRule(s, name);
      if s.acceptsNewRules then
        s.nextId !in s.rules && o.id == Some(s.nextId) &&
        o.state.rules == s.rules[s.nextId := name] && |o.state.rules| == |s.rules| + 1
      else
        o.id == None && o.state.rules == s.rules
  {
    assert s.nextId !in s.rules;
  }

  /** A second lookup returns the same id and changes nothing. */
  lemma ObtainIdempotent(s: OsState, name: string)
    requires Consistent(s)
    ensures var o := ObtainZenRule(s, name);
      o.id.Some? ==> ObtainZenRule(o.state, name) == Obtained(o.state, o.id)
  {
    var o := ObtainZenRule(s, name);
    if o.id.Some? && FirstRuleNamed(s, name).None? {
      var newId := s.nextId;
      assert Named(o.state.rules, newId, name);
      forall j | 0 <= j < newId
        ensures !Named(o.state.rules, j, name)
      {
        assert !Named(s.rules, j, name);
      }
      var again := FirstRuleNamed(o.state, name);
      assert again == Some(newId);
    }
  }

  /** The `setAutomaticZenRuleState` calls `toggleZenMode` makes once it has the rule id. */
  function ZenWriteEvents(id: RuleId, turnOn: bool): seq<Event>
  {
    var w := ZenWrites(turnOn);
    if turnOn then [ZenRuleStateSet(id, w[0]), ZenRuleStateSet(id, w[1])]
    else [ZenRuleStateSet(id, w[0])]
  }

  /** The writes go to rule `id` only and write FALSE then TRUE, or FALSE. */
  lemma ZenWriteEventsViews(id: RuleId, turnOn: bool, other: RuleId)
    ensures RingerModesSet(ZenWriteEvents(id, turnOn)) == []
    ensures VibrationCount(ZenWriteEvents(id, turnOn)) == 0
    ensures ConditionsWritten(ZenWriteEvents(id, turnOn), other) == if other == id then ZenWrites(turnOn) else []
  {
    var events := ZenWriteEvents(id, turnOn);
    if turnOn {
      var last := events[1..];
      assert last == [events[1]] && last[1..] == [];
      assert RingerModesSet(last) == [] && VibrationCount(last) == 0;
      assert ConditionsWritten(last, other) == if other == id then [Condition(ActiveSummary, true)] else [];
    } else {
      assert events[1..] == [];
    }
  }

  /** The lookup only ever adds the one `addAutomaticZenRule` call to the log. */
  lemma ObtainCalls(s: OsState, name: string)
    ensures var o := ObtainZenRule(s, name);
      o.state.log == s.log + (if FirstRuleNamed(s, name).Some? then [] else [ZenRuleAdded(name, o.id)]) &&
      o.state == s.(rules := o.state.rules, nextId := o.state.nextId, log := o.state.log)
  {
  }

  /** The calls `toggleZenMode` makes: the lookup's add, if any, then the state writes. */
  function ZenCalls(s: OsState, name: string, turnOn: bool): seq<Event>
  {
    var o := ObtainZenRule(s, name);
    (if FirstRuleNamed(s, name).Some? then [] else [ZenRuleAdded(name, o.id)]) +
    (if o.id.Some? then ZenWriteEvents(o.id.value, turnOn) else [])
  }

  /** `toggleZenMode` never calls `setRingerMode`. */
  lemma ZenCallsSetNoMode(s: OsState, name: string, turnOn: bool)
    ensures RingerModesSet(ZenCalls(s, name, turnOn)) == []
  {
    var o := ObtainZenRule(s, name);
    var added := if FirstRuleNamed(s, name).Some? then [] else [ZenRuleAdded(name, o.id)];
    var writes := if o.id.Some? then ZenWriteEvents(o.id.value, turnOn) else [];
    assert RingerModesSet(added) == [];
    RingerModesSetAppend(added, writes);
    if o.id.Some? {
      ZenWriteEventsViews(o.id.value, turnOn, 0);
    }
  }

  /** The calls of `toggleZenMode` end with its state writes. */
  lemma ZenCallsEnd(s: OsState, name: string, turnOn: bool)
    requires ObtainZenRule(s, name).id.Some?
    ensures var calls := ZenCalls(s, name, turnOn);
      var writes := ZenWriteEvents(ObtainZenRule(s, name).id.value, turnOn);
      |calls| >= |writes| && calls[|calls| - |writes|..] == writes
  {
  }

  /** The writes append their calls to the log and set the rule's state. */
  lemma ZenWritesShape(s: OsState, id: RuleId, turnOn: bool)
    requires Consistent(s) && id in s.rules
    ensures var t := AfterZenWrites(s, id, turnOn);
      Consistent(t) &&
      t.log == s.log + ZenWriteEvents(id, turnOn) &&
      t == s.(ruleStates := t.ruleStates, log := t.log) &&
      t.ruleStates == s.ruleStates[id := turnOn]
  {
    if turnOn {
      var reset := AfterSetZenRuleState(s, id, Condition(EmptySummary, false));
      SetZenRuleStateKeepsConsistent(s, id, Condition(EmptySummary, false));
      SetZenRuleStateKeepsConsistent(reset, id, Condition(ActiveSummary, true));
    } else {
      SetZenRuleStateKeepsConsistent(s, id, Condition(InactiveSummary, false));
    }
  }

  /** `toggleZenMode` appends its calls to the log and changes the rule table and states only. */
  lemma ToggleZenModeShape(s: OsState, name: string, turnOn: bool)
    requires Consistent(s)
    ensures var t := AfterToggleZenMode(s, name, turnOn);
      var o := ObtainZenRule(s, name);
      Consistent(t) &&
      t.log == s.log + ZenCalls(s, name, turnOn) &&
      t == s.(rules := t.rules, nextId := t.nextId, ruleStates := t.ruleStates, log := t.log) &&
      t.ruleStates == (if o.id.Some? then s.ruleStates[o.id.value := turnOn] else s.ruleStates)
  {
    var o := ObtainZenRule(s, name);
    ObtainKeepsConsistent(s, name);
    ObtainCalls(s, name);
    if o.id.Some? {
      ZenWritesShape(o.state, o.id.value, turnOn);
    }
  }

  /**
   * `toggleZenMode` writes FALSE then TRUE to turn the rule on and FALSE once
   * to turn it off, to the rule of that name and no other; with no rule id
   * it writes nothing. The ringer mode and the vibrations are untouched.
   */
  lemma ToggleZenModeWrites(s: OsState, name: string, turnOn: bool, other: RuleId)
    requires Consistent(s)
    ensures var t := AfterToggleZenMode(s, name, turnOn);
      var o := ObtainZenRule(s, name);
      Consistent(t) && |s.log| <= |t.log| &&
      t.ringerMode == s.ringerMode && t.vibrations == s.vibrations && t.permission == s.permission &&
      RingerModesSet(CallsSince(s, t)) == [] &&
      (o.id.None? ==> t.ruleStates == s.ruleStates && ConditionsWritten(CallsSince(s, t), other) == []) &&
      (o.id.Some? ==> t.ruleStates == s.ruleStates[o.id.value := turnOn] &&
                      ConditionsWritten(CallsSince(s, t), other) ==
                        if other == o.id.value then ZenWrites(turnOn) else [])
  {
    var t := AfterToggleZenMode(s, name, turnOn);
    var o := ObtainZenRule(s, name);
    ToggleZenModeShape(s, name, turnOn);
    var added := if FirstRuleNamed(s, name).Some? then [] else [ZenRuleAdded(name, o.id)];
    var writes := if o.id.Some? then ZenWriteEvents(o.id.value, turnOn) else [];
    assert CallsSince(s, t) == added + writes;
    RingerModesSetAppend(added, writes);
    ConditionsWrittenAppend(added, writes, other);
    if o.id.Some? {
      ZenWriteEventsViews(o.id.value, turnOn, other);
    }
  }
}
