/**
 * `PushManager` as a class: the Java fields become mutable fields, the
 * `SharedPreferences` file a map field, the listener slot a flag, and each
 * listener notification an append to `notified`. Every method is proved to
 * follow the transition function of module `PushState` on `Abs()`.
 */
module Push {
  import opened Wrappers
  import opened JavaStrings
  import opened Preferences
  import opened PushState

  class PushManager {
    const platformApplicationArn: string
    var endpointArn: string
    var shouldEnablePush: bool
    var pushEnabled: bool
    var previousPushState: Option<bool>
    /** The shared preferences file. */
    var prefs: Prefs
    /** Whether the process-wide `pushStateListener` is set. */
    var listenerRegistered: bool
    /** The values delivered to the listener, oldest first. */
    var notified: seq<bool>
    /** The requests sent to SNS, oldest first. */
    var calls: seq<RemoteCall>

    /** The manager's state as a value. */
    function Abs(): ManagerState
      reads this
    {
      ManagerState(platformApplicationArn, endpointArn, shouldEnablePush, pushEnabled, previousPushState,
                   prefs, listenerRegistered, notified, calls)
    }

    ghost predicate Valid()
      reads this
    {
      Consistent(Abs())
    }

    /** Loads the record from the stored preferences, or clears it as stale. */
    constructor (stored: Prefs, platformApplicationArn: string, listenerRegistered: bool)
      requires WellTyped(stored)
      ensures Valid()
      ensures Abs() == Load(stored, platformApplicationArn, listenerRegistered)
    {
      this.platformApplicationArn := platformApplicationArn;
      this.listenerRegistered := listenerRegistered;
      previousPushState := None;
      notified := [];
      calls := [];
      var previousPlatformApp := GetString(stored, PREVIOUS_PLATFORM_APPLICATION, "");
      if !EqualsIgnoreCase(previousPlatformApp, platformApplicationArn) {
        endpointArn := "";
        prefs := map[];
        pushEnabled := false;
        shouldEnablePush := true;
      } else {
        prefs := stored;
        endpointArn := GetString(stored, KEY_ENDPOINT_ARN, "");
        pushEnabled := GetBoolean(stored, PUSH_ENABLED, false);
        shouldEnablePush := pushEnabled;
      }
    }

    /** `isRegistered()`. */
    method IsRegistered() returns (registered: bool)
      ensures registered == PushState.IsRegistered(Abs())
      ensures registered <==> |endpointArn| > 0
    {
      registered := endpointArn != "";
    }

    /** The private `createPlatformArn()`: asks SNS for an endpoint and keeps its ARN; `false` when SNS throws. */
    method CreatePlatformArn(create: CreateOutcome) returns (ok: bool)
      modifies this`endpointArn, this`calls
      ensures calls == old(calls) + [CreatePlatformEndpoint(platformApplicationArn)]
      ensures ok == create.Created?
      ensures endpointArn == if ok then create.endpointArn else old(endpointArn)
    {
      calls := calls + [CreatePlatformEndpoint(platformApplicationArn)];
      match create
      case Created(arn) =>
        endpointArn := arn;
        ok := true;
      case CreateFailed =>
        ok := false;
    }

    /** The private `setSNSEndpointEnabled(enabled)`: sends the attribute and confirms it; `false` when SNS throws. */
    method SetSnsEndpointEnabled(enabled: bool, attributes: Outcome) returns (ok: bool)
      modifies this`pushEnabled, this`calls
      ensures calls == old(calls) + [SetEndpointEnabled(endpointArn, enabled)]
      ensures ok == attributes.Pass?
      ensures pushEnabled == if ok then enabled else old(pushEnabled)
    {
      calls := calls + [SetEndpointEnabled(endpointArn, enabled)];
      ok := attributes.Pass?;
      if ok {
        pushEnabled := enabled;
      }
    }

    /** The private `informStateListener()`. */
    method InformStateListener()
      modifies this`previousPushState, this`notified
      ensures Abs() == Inform(old(Abs()))
    {
      if previousPushState == None || pushEnabled != previousPushState.value {
        previousPushState := Some(pushEnabled);
        if listenerRegistered {
          notified := notified + [pushEnabled];
        }
      }
    }

    /** `onGCMTokenUpdate(gcmToken, didTokenChange)`, the try/catch/finally written out as branches. */
    method OnGcmTokenUpdate(gcmToken: string, didTokenChange: bool, create: CreateOutcome, attributes: Outcome)
      requires Valid()
      modifies this
      ensures Valid()
      ensures Abs() == TokenUpdate(old(Abs()), didTokenChange, create, attributes)
    {
      var registered := IsRegistered();
      if didTokenChange || !registered {
        var failed := false;
        var created := CreatePlatformArn(create);
        if !created {
          pushEnabled := false;
          failed := true;
        } else {
          var enabledSet := SetSnsEndpointEnabled(shouldEnablePush, attributes);
          failed := !enabledSet;
        }
        if failed {
          endpointArn := "";
        }
        prefs := prefs[PREVIOUS_PLATFORM_APPLICATION := Str(platformApplicationArn)]
                      [KEY_ENDPOINT_ARN := Str(endpointArn)]
                      [PUSH_ENABLED := Bool(shouldEnablePush)];
        InformStateListener();
      }
    }

    /** `onGCMTokenUpdateFailed(ex)`. */
    method OnGcmTokenUpdateFailed()
      requires Valid()
      modifies this
      ensures Valid()
      ensures Abs() == TokenUpdateFailed(old(Abs()))
    {
      pushEnabled := false;
      InformStateListener();
    }

    /** `setPushEnabled(enabled)`; a `Fail` result is the exception that leaves the method. */
    method SetPushEnabled(enabled: bool, attributes: Outcome) returns (outcome: Outcome)
      requires Valid()
      modifies this
      ensures Valid()
      ensures outcome == attributes
      ensures Abs() == SetEnabled(old(Abs()), enabled, attributes)
    {
      shouldEnablePush := enabled;
      var ok := SetSnsEndpointEnabled(enabled, attributes);
      if !ok {
        return Fail;
      }
      InformStateListener();
      prefs := prefs[PUSH_ENABLED := Bool(enabled)][PREVIOUS_PLATFORM_APPLICATION := Str(platformApplicationArn)];
      outcome := Pass;
    }

    /** The static `setPushStateListener(listener)`: `registered` is whether the listener is non-null. */
    method SetPushStateListener(registered: bool)
      modifies this`listenerRegistered
      ensures Abs() == SetListener(old(Abs()), registered)
    {
      listenerRegistered := registered;
    }
  }
}
