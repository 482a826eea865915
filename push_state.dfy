/**
 * The push-registration state machine of `PushManager`, as pure transition
 * functions over the manager's whole observable state. The class in module
 * `Push` is proved to follow these functions step for step; the properties of
 * the state machine are stated here, on the functions.
 *
 * The two SNS calls are replaced by their outcomes, given as inputs: the ARN
 * `createPlatformEndpoint` would return (or its failure), and whether
 * `setEndpointAttributes` would complete. `calls` records which requests the
 * manager sends, in order.
 */
module PushState {
  import opened Wrappers
  import opened JavaStrings
  import opened Preferences

  /** What `sns.createPlatformEndpoint` answers: the new endpoint's ARN, or an `AmazonClientException`. */
  datatype CreateOutcome = Created(endpointArn: string) | CreateFailed

  /** A request sent to SNS. */
  datatype RemoteCall =
    | CreatePlatformEndpoint(platformApplicationArn: string)
    | SetEndpointEnabled(endpointArn: string, enabled: bool)

  /**
   * The fields of a `PushManager`, its preferences file, the process-wide listener
   * slot (registered or not), the values delivered to the listener, and the SNS requests sent.
   */
  datatype ManagerState = ManagerState(
    platformApplicationArn: string,
    endpointArn: string,
    shouldEnablePush: bool,
    pushEnabled: bool,
    previousPushState: Option<bool>,
    prefs: Prefs,
    listenerRegistered: bool,
    notified: seq<bool>,
    calls: seq<RemoteCall>)

  /** `isRegistered()`: the endpoint ARN is set and not empty. */
  predicate IsRegistered(s: ManagerState) {
    s.endpointArn != ""
  }

  /** The guard of `onGCMTokenUpdate`: the token changed or the endpoint is not registered. */
  predicate ShouldRegister(s: ManagerState, didTokenChange: bool) {
    didTokenChange || !IsRegistered(s)
  }

  /**
   * What every reachable state satisfies: the preferences hold the types the
   * manager reads them as, and the persisted endpoint ARN (default "") is the
   * one in the field.
   */
  predicate Consistent(s: ManagerState) {
    WellTyped(s.prefs) && GetString(s.prefs, KEY_ENDPOINT_ARN, "") == s.endpointArn
  }

  /**
   * The constructor: load the record, or discard it when it was written for a
   * different platform application (compared ignoring case).
   */
  function Load(stored: Prefs, platformApplicationArn: string, listenerRegistered: bool): (r: ManagerState)
    requires WellTyped(stored)
    ensures Consistent(r)
    ensures r.platformApplicationArn == platformApplicationArn && r.listenerRegistered == listenerRegistered
    ensures r.previousPushState == None && r.notified == [] && r.calls == []
    ensures !EqualsIgnoreCase(GetString(stored, PREVIOUS_PLATFORM_APPLICATION, ""), platformApplicationArn) ==>
              r.prefs == map[] && r.endpointArn == "" && !r.pushEnabled && r.shouldEnablePush
    ensures EqualsIgnoreCase(GetString(stored, PREVIOUS_PLATFORM_APPLICATION, ""), platformApplicationArn) ==>
              r.prefs == stored && r.endpointArn == GetString(stored, KEY_ENDPOINT_ARN, "") &&
              r.pushEnabled == GetBoolean(stored, PUSH_ENABLED, false) && r.shouldEnablePush == r.pushEnabled
  {
    var previousPlatformApp := GetString(stored, PREVIOUS_PLATFORM_APPLICATION, "");
    if !EqualsIgnoreCase(previousPlatformApp, platformApplicationArn) then
      ManagerState(platformApplicationArn, "", true, false, None, map[], listenerRegistered, [], [])
    else
      var enabled := GetBoolean(stored, PUSH_ENABLED, false);
      ManagerState(platformApplicationArn, GetString(stored, KEY_ENDPOINT_ARN, ""), enabled, enabled,
                   None, stored, listenerRegistered, [], [])
  }

  /**
   * `informStateListener()`: edge-triggered. When the confirmed flag differs from
   * the last reported value (or none was reported), that value is recorded and,
   * if a listener is registered, delivered to it.
   */
  function Inform(s: ManagerState): (r: ManagerState)
    ensures r.previousPushState == Some(s.pushEnabled)
    ensures r.notified == s.notified + (if s.listenerRegistered && s.previousPushState != Some(s.pushEnabled)
                                        then [s.pushEnabled] else [])
    ensures r == s.(previousPushState := r.previousPushState, notified := r.notified)
  {
    if s.previousPushState == None || s.pushEnabled != s.previousPushState.value then
      s.(previousPushState := Some(s.pushEnabled),
         notified := if s.listenerRegistered then s.notified + [s.pushEnabled] else s.notified)
    else
      s
  }

  /** The `finally` block's write: platform application, current endpoint ARN, and the DESIRED flag under `pushEnabled`. */
  function PersistRegistration(s: ManagerState): ManagerState {
    s.(prefs := s.prefs[PREVIOUS_PLATFORM_APPLICATION := Str(s.platformApplicationArn)]
                       [KEY_ENDPOINT_ARN := Str(s.endpointArn)]
                       [PUSH_ENABLED := Bool(s.shouldEnablePush)])
  }

  /**
   * `onGCMTokenUpdate(token, didTokenChange)`: when the guard passes, create the
   * endpoint, then set its `Enabled` attribute to the desired flag; any failure
   * clears the endpoint ARN (a create failure also clears the confirmed flag);
   * on every path the record is persisted and the listener informed once.
   */
  function TokenUpdate(s: ManagerState, didTokenChange: bool, create: CreateOutcome, attributes: Outcome): (r: ManagerState)
    ensures !ShouldRegister(s, didTokenChange) ==> r == s
    ensures ShouldRegister(s, didTokenChange) && (create.CreateFailed? || attributes.Fail?) ==>
              r.endpointArn == "" && !IsRegistered(r)
    ensures ShouldRegister(s, didTokenChange) && create.CreateFailed? ==> !r.pushEnabled
    ensures ShouldRegister(s, didTokenChange) && create.Created? && attributes.Fail? ==> r.pushEnabled == s.pushEnabled
    ensures ShouldRegister(s, didTokenChange) && create.Created? && attributes.Pass? ==>
              r.endpointArn == create.endpointArn && r.pushEnabled == s.shouldEnablePush
    ensures ShouldRegister(s, didTokenChange) ==>
              r.prefs == s.prefs[PREVIOUS_PLATFORM_APPLICATION := Str(s.platformApplicationArn)]
                                [KEY_ENDPOINT_ARN := Str(r.endpointArn)]
                                [PUSH_ENABLED := Bool(s.shouldEnablePush)]
    ensures ShouldRegister(s, didTokenChange) ==>
              r.previousPushState == Some(r.pushEnabled) &&
              r.notified == s.notified + (if s.listenerRegistered && s.previousPushState != Some(r.pushEnabled)
                                          then [r.pushEnabled] else [])
    ensures ShouldRegister(s, didTokenChange) ==>
              r.calls == s.calls + [CreatePlatformEndpoint(s.platformApplicationArn)] +
                         (if create.Created? then [SetEndpointEnabled(create.endpointArn, s.shouldEnablePush)] else [])
    ensures r.shouldEnablePush == s.shouldEnablePush && r.platformApplicationArn == s.platformApplicationArn &&
            r.listenerRegistered == s.listenerRegistered
    ensures Consistent(s) ==> Consistent(r)
  {
    if !ShouldRegister(s, didTokenChange) then s
    else
      var requested := s.(calls := s.calls + [CreatePlatformEndpoint(s.platformApplicationArn)]);
      var settled :=
        match create
        case CreateFailed =>
          requested.(pushEnabled := false, endpointArn := "")
        case Created(arn) =>
          var created := requested.(endpointArn := arn,
                                    calls := requested.calls + [SetEndpointEnabled(arn, requested.shouldEnablePush)]);
          if attributes.Fail? then created.(endpointArn := "")
          else created.(pushEnabled := created.shouldEnablePush);
      Inform(PersistRegistration(settled))
  }

  /**
   * `onGCMTokenUpdateFailed(ex)`: the confirmed flag is cleared and the listener
   * informed; nothing is persisted.
   */
  function TokenUpdateFailed(s: ManagerState): (r: ManagerState)
    ensures !r.pushEnabled && r.previousPushState == Some(false)
    ensures r.notified == s.notified + (if s.listenerRegistered && s.previousPushState != Some(false) then [false] else [])
    ensures r == s.(pushEnabled := false, previousPushState := r.previousPushState, notified := r.notified)
    ensures Consistent(s) ==> Consistent(r)
  {
    Inform(s.(pushEnabled := false))
  }

  /**
   * `setPushEnabled(enabled)`: the desired flag is set first; then the `Enabled`
   * attribute is sent. If that call throws, the exception leaves the method and
   * nothing else happens. Otherwise the confirmed flag takes the value, the
   * listener is informed, and the flag and platform application are persisted.
   */
  function SetEnabled(s: ManagerState, enabled: bool, attributes: Outcome): (r: ManagerState)
    ensures r.shouldEnablePush == enabled
    ensures r.calls == s.calls + [SetEndpointEnabled(s.endpointArn, enabled)]
    ensures r.endpointArn == s.endpointArn && r.platformApplicationArn == s.platformApplicationArn &&
            r.listenerRegistered == s.listenerRegistered
    ensures attributes.Fail? ==>
              r.prefs == s.prefs && r.pushEnabled == s.pushEnabled &&
              r.previousPushState == s.previousPushState && r.notified == s.notified
    ensures attributes.Pass? ==>
              r.pushEnabled == enabled && r.previousPushState == Some(enabled) &&
              r.prefs == s.prefs[PUSH_ENABLED := Bool(enabled)][PREVIOUS_PLATFORM_APPLICATION := Str(s.platformApplicationArn)] &&
              r.notified == s.notified + (if s.listenerRegistered && s.previousPushState != Some(enabled) then [enabled] else [])
    ensures Consistent(s) ==> Consistent(r)
  {
    var requested := s.(shouldEnablePush := enabled, calls := s.calls + [SetEndpointEnabled(s.endpointArn, enabled)]);
    if attributes.Fail? then requested
    else
      var informed := Inform(requested.(pushEnabled := enabled));
      informed.(prefs := informed.prefs[PUSH_ENABLED := Bool(enabled)]
                                       [PREVIOUS_PLATFORM_APPLICATION := Str(informed.platformApplicationArn)])
  }

  /** `setPushStateListener(listener)`: fills or empties the process-wide listener slot. */
  function SetListener(s: ManagerState, registered: bool): (r: ManagerState)
    ensures r.listenerRegistered == registered
    ensures r == s.(listenerRegistered := r.listenerRegistered)
  {
    s.(listenerRegistered := registered)
  }

  /** Edge triggering: informing twice in a row delivers nothing the second time. */
  lemma InformIdempotent(s: ManagerState)
    ensures Inform(Inform(s)) == Inform(s)
  {
  }

  /**
   * After a registration attempt, a restart of the app loads back the ARN the
   * attempt left and takes the desired flag (persisted under `pushEnabled`) as both
   * confirmed and desired; after a failed attempt the next token update registers again.
   */
  lemma RestartAfterRegistration(s: ManagerState, didTokenChange: bool, create: CreateOutcome, attributes: Outcome,
                                 listenerRegistered: bool)
    requires Consistent(s) && ShouldRegister(s, didTokenChange)
    ensures var r := TokenUpdate(s, didTokenChange, create, attributes);
            var restarted := Load(r.prefs, s.platformApplicationArn, listenerRegistered);
            restarted.endpointArn == r.endpointArn &&
            restarted.pushEnabled == s.shouldEnablePush && restarted.shouldEnablePush == s.shouldEnablePush &&
            ((create.CreateFailed? || attributes.Fail?) ==> ShouldRegister(restarted, false))
  {
    EqualsIgnoreCaseReflexive(s.platformApplicationArn);
  }

  /**
   * After a successful `setPushEnabled(enabled)`, a restart loads `enabled` as both
   * confirmed and desired, and the same endpoint ARN.
   */
  lemma RestartAfterSetEnabled(s: ManagerState, enabled: bool, listenerRegistered: bool)
    requires Consistent(s)
    ensures var r := SetEnabled(s, enabled, Pass);
            var restarted := Load(r.prefs, s.platformApplicationArn, listenerRegistered);
            restarted.endpointArn == s.endpointArn &&
            restarted.pushEnabled == enabled && restarted.shouldEnablePush == enabled
  {
    EqualsIgnoreCaseReflexive(s.platformApplicationArn);
  }
}
