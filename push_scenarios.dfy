/**
 * Client code driving a `PushManager` through the typical situations, proved
 * from the class's contracts alone.
 */
module PushScenarios {
  import opened Wrappers
  import opened JavaStrings
  import opened Preferences
  import opened PushState
  import opened Push

  /** A record persisted for `platformApplicationArn` with endpoint `e1`. */
  function RegisteredRecord(platformApplicationArn: string, enabled: bool): (p: Prefs)
    ensures WellTyped(p)
  {
    map[PREVIOUS_PLATFORM_APPLICATION := Str(platformApplicationArn),
        KEY_ENDPOINT_ARN := Str("e1"),
        PUSH_ENABLED := Bool(enabled)]
  }

  /** Fresh install, both SNS calls succeed: registered, enabled, one notification `true`. */
  method FreshInstallRegisters(platformApplicationArn: string) returns (registered: bool, enabled: bool, delivered: seq<bool>)
    requires platformApplicationArn != ""
    ensures registered && enabled && delivered == [true]
  {
    var m := new PushManager(map[], platformApplicationArn, true);
    m.OnGcmTokenUpdate("tok1", true, Created("e1"), Pass);
    registered := m.IsRegistered();
    enabled := m.pushEnabled;
    delivered := m.notified;
  }

  /** Fresh install, endpoint creation fails: unregistered, disabled, the empty ARN persisted, desired flag kept. */
  method CreateFailureResets(platformApplicationArn: string) returns (registered: bool, enabled: bool, persisted: Prefs)
    requires platformApplicationArn != ""
    ensures !registered && !enabled
    ensures KEY_ENDPOINT_ARN in persisted && persisted[KEY_ENDPOINT_ARN] == Str("")
    ensures PUSH_ENABLED in persisted && persisted[PUSH_ENABLED] == Bool(true)
  {
    var m := new PushManager(map[], platformApplicationArn, true);
    m.OnGcmTokenUpdate("tok1", true, CreateFailed, Pass);
    registered := m.IsRegistered();
    enabled := m.pushEnabled;
    persisted := m.prefs;
  }

  /** A registered, enabled device is disabled by the caller: one notification `false`, `false` persisted. */
  method DisableRegistered(platformApplicationArn: string) returns (enabled: bool, delivered: seq<bool>, persisted: Prefs)
    ensures !enabled && delivered == [false]
    ensures PUSH_ENABLED in persisted && persisted[PUSH_ENABLED] == Bool(false)
  {
    EqualsIgnoreCaseReflexive(platformApplicationArn);
    var m := new PushManager(RegisteredRecord(platformApplicationArn, true), platformApplicationArn, true);
    var outcome := m.SetPushEnabled(false, Pass);
    enabled := m.pushEnabled;
    delivered := m.notified;
    persisted := m.prefs;
  }

  /**
   * A registered, disabled device asks to enable and SNS throws: the desired flag
   * is set in memory, but the confirmed flag, the preferences and the listener are untouched.
   */
  method EnableFailureKeepsRecord(platformApplicationArn: string)
    returns (outcome: Outcome, desired: bool, enabled: bool, delivered: seq<bool>, persisted: Prefs)
    ensures outcome == Fail && desired && !enabled && delivered == []
    ensures persisted == RegisteredRecord(platformApplicationArn, false)
  {
    EqualsIgnoreCaseReflexive(platformApplicationArn);
    var m := new PushManager(RegisteredRecord(platformApplicationArn, false), platformApplicationArn, true);
    outcome := m.SetPushEnabled(true, Fail);
    desired := m.shouldEnablePush;
    enabled := m.pushEnabled;
    delivered := m.notified;
    persisted := m.prefs;
  }

  /** A registered device sees an unchanged token: no SNS request, no write, no notification, whatever SNS would answer. */
  method UnchangedTokenIsNoOp(platformApplicationArn: string, create: CreateOutcome, attributes: Outcome)
    returns (sent: seq<RemoteCall>, delivered: seq<bool>, persisted: Prefs)
    ensures sent == [] && delivered == []
    ensures persisted == RegisteredRecord(platformApplicationArn, true)
  {
    EqualsIgnoreCaseReflexive(platformApplicationArn);
    var m := new PushManager(RegisteredRecord(platformApplicationArn, true), platformApplicationArn, true);
    m.OnGcmTokenUpdate("tok1", false, create, attributes);
    sent := m.calls;
    delivered := m.notified;
    persisted := m.prefs;
  }
}
