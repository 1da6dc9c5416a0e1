/**
 * The part of Android that the ringer-mode code talks to: the audio
 * service's ringer mode, the notification service's automatic zen rules and
 * notification-policy permission, the vibrator, and the intents handed back
 * to the UI. `OsState` is the abstract value; `Device` is the object the app
 * calls into, whose fields mirror it.
 */
module AndroidOs {
  import opened Options

  /** The opaque id the notification service assigns to an automatic zen rule. */
  type RuleId = nat

  /** The summary text of a `Condition`: "" or one of two string resources. */
  datatype Summary = EmptySummary | ActiveSummary | InactiveSummary

  /**
   * `Condition(conditionUri, summary, state)`. The URI is one fixed string
   * resource and is left out; `active` is STATE_TRUE (true) or STATE_FALSE.
   */
  datatype Condition = Condition(summary: Summary, active: bool)

  datatype IntentFlag = NewTask | ClearTask

  /** An intent that opens MainActivity, with the permission-toast extra. */
  datatype Intent = Intent(flags: set<IntentFlag>, permissionToast: bool)

  /** One call the app made, in the order it made them. */
  datatype Event =
    | RingerModeSet(mode: int)
    | ZenRuleAdded(name: string, result: Option<RuleId>)
    | ZenRuleStateSet(id: RuleId, condition: Condition)
    | Vibrated
    | PermissionRequired(intent: Intent)
    | ActivityStarted(intent: Intent)

  datatype OsState = OsState(
    ringerMode: int,
    rules: map<RuleId, string>,     // automaticZenRules: id -> rule name
    ruleStates: map<RuleId, bool>,  // last state written to each rule
    nextId: RuleId,                 // the id the next added rule receives
    acceptsNewRules: bool,          // false: addAutomaticZenRule yields null
    permission: bool,               // isNotificationPolicyAccessGranted
    vibrations: nat,
    log: seq<Event>)

  /** Rule ids are below the allocator, states belong to rules, the counter matches the log. */
  predicate Consistent(s: OsState)
  {
    (forall id :: id in s.rules ==> id < s.nextId) &&
    (forall id :: id in s.ruleStates ==> id in s.rules) &&
    s.vibrations == VibrationCount(s.log)
  }

  // ---- views of the call log ----

  function VibrationCount(log: seq<Event>): nat
  {
    if log == [] then 0
    else (if log[0].Vibrated? then 1 else 0) + VibrationCount(log[1..])
  }

  /** The arguments of the `setRingerMode` calls, in order. */
  function RingerModesSet(log: seq<Event>): seq<int>
  {
    if log == [] then [] else RingerModeOf(log[0]) + RingerModesSet(log[1..])
  }

  function RingerModeOf(e: Event): seq<int>
  {
    if e.RingerModeSet? then [e.mode] else []
  }

  /** The conditions written to rule `id`, in order. */
  function ConditionsWritten(log: seq<Event>, id: RuleId): seq<Condition>
  {
    if log == [] then [] else ConditionOf(log[0], id) + ConditionsWritten(log[1..], id)
  }

  function ConditionOf(e: Event, id: RuleId): seq<Condition>
  {
    if e.ZenRuleStateSet? && e.id == id then [e.condition] else []
  }

  /** The last two calls of `calls + [e]` are the last of `calls`, then `e`. */
  lemma LastTwo(calls: seq<Event>, e: Event)
    requires calls != []
    ensures var all := calls + [e];
      |all| >= 2 && all[|all| - 2..] == [calls[|calls| - 1], e]
  {
  }

  /** The calls made after `before`, when `after` extends it. */
  function CallsSince(before: OsState, after: OsState): seq<Event>
    requires |before.log| <= |after.log|
  {
    after.log[|before.log|..]
  }

  lemma {:induction false} VibrationCountAppend(a: seq<Event>, b: seq<Event>)
    ensures VibrationCount(a + b) == VibrationCount(a) + VibrationCount(b)
  {
    if a == [] {
      assert a + b == b;
    } else {
      assert (a + b)[1..] == a[1..] + b;
      VibrationCountAppend(a[1..], b);
    }
  }

  lemma {:induction false} RingerModesSetAppend(a: seq<Event>, b: seq<Event>)
    ensures RingerModesSet(a + b) == RingerModesSet(a) + RingerModesSet(b)
  {
    if a == [] {
      assert a + b == b;
    } else {
      assert (a + b)[0] == a[0] && (a + b)[1..] == a[1..] + b;
      RingerModesSetAppend(a[1..], b);
      calc {
        RingerModesSet(a + b);
        RingerModeOf(a[0]) + RingerModesSet(a[1..] + b);
        RingerModeOf(a[0]) + (RingerModesSet(a[1..]) + RingerModesSet(b));
      }
    }
  }

  lemma {:induction false} ConditionsWrittenAppend(a: seq<Event>, b: seq<Event>, id: RuleId)
    ensures ConditionsWritten(a + b, id) == ConditionsWritten(a, id) + ConditionsWritten(b, id)
  {
    if a == [] {
      assert a + b == b;
    } else {
      assert (a + b)[0] == a[0] && (a + b)[1..] == a[1..] + b;
      ConditionsWrittenAppend(a[1..], b, id);
      calc {
        ConditionsWritten(a + b, id);
        ConditionOf(a[0], id) + ConditionsWritten(a[1..] + b, id);
        ConditionOf(a[0], id) + (ConditionsWritten(a[1..], id) + ConditionsWritten(b, id));
      }
    }
  }

  // ---- the OS calls, as functions of the state ----

  /** `audioManager.setRingerMode(mode)`. */
  function AfterSetRingerMode(s: OsState, mode: int): OsState
  {
    s.(ringerMode := mode, log := s.log + [RingerModeSet(mode)])
  }

  /** `vibrator.vibrate(...)`: one 200 ms pulse. */
  function AfterVibrate(s: OsState): OsState
  {
    s.(vibrations := s.vibrations + 1, log := s.log + [Vibrated])
  }

  /** The state after a call and the id it returned. */
  datatype Obtained = Obtained(state: OsState, id: Option<RuleId>)

  /** `notificationManager.addAutomaticZenRule(rule)` for a rule called `name`. */
  function AfterAddZenRule(s: OsState, name: string): Obtained
  {
    if s.acceptsNewRules then
      Obtained(s.(rules := s.rules[s.nextId := name], nextId := s.nextId + 1,
                  log := s.log + [ZenRuleAdded(name, Some(s.nextId))]),
               Some(s.nextId))
    else
      Obtained(s.(log := s.log + [ZenRuleAdded(name, None)]), None)
  }

  /** `notificationManager.setAutomaticZenRuleState(id, condition)`. */
  function AfterSetZenRuleState(s: OsState, id: RuleId, condition: Condition): OsState
  {
    s.(ruleStates := s.ruleStates[id := condition.active],
       log := s.log + [ZenRuleStateSet(id, condition)])
  }

  /** A call that only hands an intent to someone else (a callback, `startActivity`). */
  function AfterUiCall(s: OsState, e: Event): OsState
    requires e.PermissionRequired? || e.ActivityStarted?
  {
    s.(log := s.log + [e])
  }

  /**
   * The OS or the user changes the ringer mode outside this code (volume
   * keys, or the OS's own reaction to an active alarms-only rule).
   */
  function AfterExternalRingerChange(s: OsState, mode: int): OsState
  {
    s.(ringerMode := mode)
  }

  lemma AddZenRuleKeepsConsistent(s: OsState, name: string)
    requires Consistent(s)
    ensures Consistent(AfterAddZenRule(s, name).state)
    ensures AfterAddZenRule(s, name).id.Some? ==> AfterAddZenRule(s, name).id.value in AfterAddZenRule(s, name).state.rules
    ensures !s.acceptsNewRules <==> AfterAddZenRule(s, name).id.None?
  {
    VibrationCountAppend(s.log, [ZenRuleAdded(name, AfterAddZenRule(s, name).id)]);
  }

  lemma SetZenRuleStateKeepsConsistent(s: OsState, id: RuleId, c: Condition)
    requires Consistent(s) && id in s.rules
    ensures Consistent(AfterSetZenRuleState(s, id, c))
    ensures AfterSetZenRuleState(s, id, c).ruleStates[id] == c.active
  {
    VibrationCountAppend(s.log, [ZenRuleStateSet(id, c)]);
  }

  lemma VibrateKeepsConsistent(s: OsState)
    requires Consistent(s)
    ensures Consistent(AfterVibrate(s))
  {
    VibrationCountAppend(s.log, [Vibrated]);
  }

  lemma SetRingerModeKeepsConsistent(s: OsState, mode: int)
    requires Consistent(s)
    ensures Consistent(AfterSetRingerMode(s, mode))
  {
    VibrationCountAppend(s.log, [RingerModeSet(mode)]);
  }

  /** The OS as the app sees it; every call is logged. */
  class Device {
    var ringerMode: int
    var rules: map<RuleId, string>
    var ruleStates: map<RuleId, bool>
    var nextId: RuleId
    var acceptsNewRules: bool
    var permission: bool
    var vibrations: nat
    var log: seq<Event>

    function State(): OsState
      reads this
    {
      OsState(ringerMode, rules, ruleStates, nextId, acceptsNewRules, permission, vibrations, log)
    }

    predicate Valid()
      reads this
    {
      Consistent(State())
    }

    /** A device in some state, before the app has made any call. */
    constructor (ringerMode: int, rules: map<RuleId, string>, ruleStates: map<RuleId, bool>,
                 nextId: RuleId, acceptsNewRules: bool, permission: bool)
      requires forall id :: id in rules ==> id < nextId
      requires forall id :: id in ruleStates ==> id in rules
      ensures Valid()
      ensures State() == OsState(ringerMode, rules, ruleStates, nextId, acceptsNewRules, permission, 0, [])
    {
      this.ringerMode := ringerMode;
      this.rules := rules;
      this.ruleStates := ruleStates;
      this.nextId := nextId;
      this.acceptsNewRules := acceptsNewRules;
      this.permission := permission;
      this.vibrations := 0;
      this.log := [];
    }

    method SetRingerMode(mode: int)
      requires Valid()
      modifies this
      ensures Valid()
      ensures State() == AfterSetRingerMode(old(State()), mode)
    {
      SetRingerModeKeepsConsistent(State(), mode);
      ringerMode := mode;
      log := log + [RingerModeSet(mode)];
    }

    method Vibrate()
      requires Valid()
      modifies this
      ensures Valid()
      ensures State() == AfterVibrate(old(State()))
    {
      VibrateKeepsConsistent(State());
      vibrations := vibrations + 1;
      log := log + [Vibrated];
    }

    method AddAutomaticZenRule(name: string) returns (id: Option<RuleId>)
      requires Valid()
      modifies this
      ensures Valid()
      ensures Obtained(State(), id) == AfterAddZenRule(old(State()), name)
    {
      AddZenRuleKeepsConsistent(State(), name);
      if acceptsNewRules {
        id := Some(nextId);
        rules := rules[nextId := name];
        nextId := nextId + 1;
      } else {
        id := None;
      }
      log := log + [ZenRuleAdded(name, id)];
    }

    method SetAutomaticZenRuleState(id: RuleId, condition: Condition)
      requires Valid() && id in rules
      modifies this
      ensures Valid()
      ensures State() == AfterSetZenRuleState(old(State()), id, condition)
    {
      SetZenRuleStateKeepsConsistent(State(), id, condition);
      ruleStates := ruleStates[id := condition.active];
      log := log + [ZenRuleStateSet(id, condition)];
    }

    /** Hands `intent` to the UI: the manager's callback or the widget's `startActivity`. */
    method UiCall(e: Event)
      requires Valid() && (e.PermissionRequired? || e.ActivityStarted?)
      modifies this
      ensures Valid()
      ensures State() == AfterUiCall(old(State()), e)
    {
      VibrationCountAppend(log, [e]);
      log := log + [e];
    }
  }
}
