# Push registration for an Android push-notification demo, in Dafny

This project models the core of a small Android app that registers the device
for push notifications through Amazon SNS. The core is `PushManager`. It keeps
four fields:

- the device's SNS endpoint ARN (`endpointArn`);
- the confirmed and the desired push state (`pushEnabled`, `shouldEnablePush`);
- the last value reported to the state listener (`previousPushState`).

It also keeps a private `SharedPreferences` record with the keys `pushEnabled`,
`endpointArn` and `previousPlatformApp`. It reacts to construction, to a GCM
token update, to a GCM token failure and to the caller's `setPushEnabled`. It
informs a process-wide listener, edge-triggered against the last reported
value: the first check after construction always reports, later checks report
only a value that differs from the last one reported, and the report is
recorded even when no listener is set (so a listener that is unset and set
again can receive the same value twice in a row).

Two small pure rules are modelled beside it:
- `PushListenerService.getMessage` picks the text of an incoming message;
- `IdentityManager.areCredentialsExpired` decides whether the Cognito
  credentials have expired.

Layout:

- `push_state.dfy` (module `PushState`): the state machine as pure transition
  functions over `ManagerState`. Their contracts state the fail-safe reset, the
  finalization, the guard and the edge-triggered listener. The restart lemmas
  relate persistence to loading.
- `push_manager.dfy` (module `Push`): class `PushManager`. Its fields, method
  bodies and try/catch/finally branches are written out step by step. The
  constructor, `OnGcmTokenUpdate`, `OnGcmTokenUpdateFailed` and `SetPushEnabled`
  are proved to leave `Abs()` equal to `Load`, `TokenUpdate`, `TokenUpdateFailed`
  and `SetEnabled` of the old state, and to keep `Valid()`. `InformStateListener`
  and `SetPushStateListener` are proved equal to `Inform` and `SetListener`.
  The private helpers `CreatePlatformArn` and `SetSnsEndpointEnabled` are steps
  in the middle of a transition (the record is written only afterwards), so
  their contracts state just the fields and requests they change.
- `push_traces.dfy` (module `PushTraces`): event sequences, and inductive lemmas
  that hold across any of them.
- `push_scenarios.dfy` (module `PushScenarios`): client methods that drive the
  class through typical flows. They are proved from its contracts alone.
- `preferences.dfy` (module `Preferences`): the preferences file as
  `map<string, Value>`, with its keys, typed reads and the well-typedness
  invariant.
- `java_strings.dfy` (module `JavaStrings`): `String.equalsIgnoreCase`.
- `push_listener_service.dfy` (module `PushListenerService`): `getMessage`.
- `identity_manager.dfy` (module `IdentityManager`): `areCredentialsExpired`,
  with Java `int`/`long` wrap-around written out.
- `wrappers.dfy` (module `Wrappers`): `Option` (a Java reference that may be
  null) and `Outcome` (a call that completes or throws).

Inputs and abstractions:

- Each SNS call is replaced by its outcome, given as an input. For
  `createPlatformEndpoint` this is `Created(arn)` or `CreateFailed`. For
  `setEndpointAttributes` it is `Pass` or `Fail`.
- The requests the manager would send are recorded in `calls`.
- Listener delivery is a synchronous append to `notified`.
- The clock and the SDK time offset are parameters of `areCredentialsExpired`.

Details of the code the model keeps, some of which a reader might not expect:

- The `finally` block of `onGCMTokenUpdate` persists the DESIRED flag
  (`shouldEnablePush`) under the `pushEnabled` key. There is no separate
  confirmed flag in the record.
- A failure of `setEndpointAttributes` during registration clears the endpoint
  ARN. It leaves the confirmed flag at its previous value.
- If the remote call inside `setPushEnabled` throws, the exception propagates.
  Nothing is persisted and nobody is notified. The desired flag has already been
  overwritten in memory.
- `setPushEnabled` informs the listener BEFORE it persists.
- `previousPushState` is updated even when no listener is set.
- A missing `previousPlatformApp` reads as `""`. When the platform application
  ARN is itself empty, the record is therefore loaded rather than discarded, and
  push then starts out undesired (`shouldEnablePush == false`).
- `PushManager` has no publish operation: `MainActivity` calls
  `getSns().publish(...)` directly.

## Model

| member | source | states |
|---|---|---|
| `JavaStrings.EqualsIgnoreCaseReflexive` | app/src/main/java/com/execom/ljmocic/pushnotifications/aws/push/PushManager.java:81 | a platform ARN always matches itself ignoring case, so a record written for this ARN is never discarded as stale |
| `JavaStrings.EqualsIgnoreCaseSymmetric` | app/src/main/java/com/execom/ljmocic/pushnotifications/aws/push/PushManager.java:81 | the staleness test does not depend on which side is the stored value |
| `JavaStrings.EqualsIgnoreCaseIffUpperAll` | app/src/main/java/com/execom/ljmocic/pushnotifications/aws/push/PushManager.java:81 | the character-by-character comparison equals equality of the upper-case images, an independent reference definition |
| `JavaStrings.CharsEqualIgnoreCaseIffUpper` | app/src/main/java/com/execom/ljmocic/pushnotifications/aws/push/PushManager.java:81 | the three-step per-character test is equality of upper-case characters |
| `Preferences.GetString` | app/src/main/java/com/execom/ljmocic/pushnotifications/aws/push/PushManager.java:78-79 | reading a string key gives the stored string, or the default when the key is absent |
| `Preferences.GetBoolean` | app/src/main/java/com/execom/ljmocic/pushnotifications/aws/push/PushManager.java:90 | reading the boolean key gives the stored flag, or the default when absent |
| `PushState.Load` | app/src/main/java/com/execom/ljmocic/pushnotifications/aws/push/PushManager.java:78-92 | stale record (stored platform ARN, default "", differs ignoring case): preferences cleared, ARN "", confirmed false, desired true; otherwise ARN and flag loaded (defaults "" and false) and desired = confirmed; nothing reported, no SNS request; the result is consistent |
| `PushState.Inform` | app/src/main/java/com/execom/ljmocic/pushnotifications/aws/push/PushManager.java:201-206 | a value is delivered iff the listener is set and the last reported value is absent or differs; afterwards the last reported value is the confirmed flag even with no listener; nothing else changes |
| `PushState.TokenUpdate` | app/src/main/java/com/execom/ljmocic/pushnotifications/aws/push/PushManager.java:97-139 | guard fails: whole state unchanged. Either SNS call fails: ARN "" and unregistered; create failure: confirmed false; attribute failure: confirmed unchanged. Both succeed: ARN is the returned one and confirmed = desired. On every guarded path: the record holds this platform ARN, the current ARN and the DESIRED flag, the listener check runs once, and the requests are create, then set-enabled for the new ARN only if create succeeded. Desired flag never changes. Consistency is kept |
| `PushState.TokenUpdateFailed` | app/src/main/java/com/execom/ljmocic/pushnotifications/aws/push/PushManager.java:145-149 | confirmed flag false; ARN, desired flag, preferences and requests unchanged; `false` delivered iff the listener is set and `false` was not the last report |
| `PushState.SetEnabled` | app/src/main/java/com/execom/ljmocic/pushnotifications/aws/push/PushManager.java:178-186 | desired flag always becomes the value and one set-enabled request goes out for the current ARN; ARN untouched. Remote failure: preferences, confirmed flag, report and deliveries unchanged. Success: confirmed = value, the listener check runs, and `pushEnabled` and `previousPlatformApp` are written |
| `PushState.SetListener` | app/src/main/java/com/execom/ljmocic/pushnotifications/aws/push/PushManager.java:197-199 | only the listener slot changes |
| `PushState.InformIdempotent` | app/src/main/java/com/execom/ljmocic/pushnotifications/aws/push/PushManager.java:202-203 | informing twice in a row delivers nothing the second time |
| `PushState.RestartAfterRegistration` | app/src/main/java/com/execom/ljmocic/pushnotifications/aws/push/PushManager.java:129-137 | after a registration attempt, loading the persisted record gives back the ARN, and the desired flag as both confirmed and desired; after a failed attempt the next token update registers again even with an unchanged token |
| `PushState.RestartAfterSetEnabled` | app/src/main/java/com/execom/ljmocic/pushnotifications/aws/push/PushManager.java:182-185 | after a successful `setPushEnabled(e)`, loading the record gives `e` as confirmed and desired, and the same ARN |
| `Push.PushManager.constructor` | app/src/main/java/com/execom/ljmocic/pushnotifications/aws/push/PushManager.java:57-94 | the new object's state is `Load` of the stored record, and it is valid |
| `Push.PushManager.IsRegistered` | app/src/main/java/com/execom/ljmocic/pushnotifications/aws/push/PushManager.java:188-190 | registered iff the endpoint ARN is non-empty |
| `Push.PushManager.CreatePlatformArn` | app/src/main/java/com/execom/ljmocic/pushnotifications/aws/push/PushManager.java:157-164 | one create request for this platform ARN; on success the field holds the returned ARN, on failure it is unchanged |
| `Push.PushManager.SetSnsEndpointEnabled` | app/src/main/java/com/execom/ljmocic/pushnotifications/aws/push/PushManager.java:166-176 | one set-enabled request for the current ARN; the confirmed flag takes the value only when the call completes |
| `Push.PushManager.InformStateListener` | app/src/main/java/com/execom/ljmocic/pushnotifications/aws/push/PushManager.java:201-222 | the new state is `Inform` of the old |
| `Push.PushManager.OnGcmTokenUpdate` | app/src/main/java/com/execom/ljmocic/pushnotifications/aws/push/PushManager.java:97-142 | the new state is `TokenUpdate` of the old, and validity is kept |
| `Push.PushManager.OnGcmTokenUpdateFailed` | app/src/main/java/com/execom/ljmocic/pushnotifications/aws/push/PushManager.java:145-149 | the new state is `TokenUpdateFailed` of the old |
| `Push.PushManager.SetPushEnabled` | app/src/main/java/com/execom/ljmocic/pushnotifications/aws/push/PushManager.java:178-186 | the new state is `SetEnabled` of the old; the result is `Fail` exactly when the remote call throws |
| `Push.PushManager.SetPushStateListener` | app/src/main/java/com/execom/ljmocic/pushnotifications/aws/push/PushManager.java:197-199 | only the listener slot changes |
| `PushTraces.RunKeepsConsistent` | app/src/main/java/com/execom/ljmocic/pushnotifications/aws/push/PushManager.java:130-137 | over any sequence of events the preferences stay well typed, and the persisted endpoint ARN equals the field |
| `PushTraces.DesiredIsLatestRequest` | app/src/main/java/com/execom/ljmocic/pushnotifications/aws/push/PushManager.java:178-179 | over any sequence of events the desired flag is the latest `setPushEnabled` argument, whatever failed in between |
| `PushTraces.OnlyTokenUpdatesMoveEndpoint` | app/src/main/java/com/execom/ljmocic/pushnotifications/aws/push/PushManager.java:145-149 | events other than token updates never change the endpoint ARN |
| `PushTraces.LastFailedAttemptUnregisters` | app/src/main/java/com/execom/ljmocic/pushnotifications/aws/push/PushManager.java:123-128 | when the most recent token update ran the registration and an SNS call failed, the device is unregistered however many other events follow |
| `PushTraces.NotificationsAlternate` | app/src/main/java/com/execom/ljmocic/pushnotifications/aws/push/PushManager.java:202-203 | while a listener stays set it never receives the same value twice in a row, and its last delivery is the last reported value |
| `PushTraces.NotificationsOnlyGrow` | app/src/main/java/com/execom/ljmocic/pushnotifications/aws/push/PushManager.java:201-222 | deliveries are only appended: earlier deliveries are a prefix of later ones |
| `PushScenarios.FreshInstallRegisters` | app/src/main/java/com/execom/ljmocic/pushnotifications/aws/push/PushManager.java:81-87 | fresh install and both SNS calls succeed: registered, enabled, exactly one delivery, `true` |
| `PushScenarios.CreateFailureResets` | app/src/main/java/com/execom/ljmocic/pushnotifications/aws/push/PushManager.java:102-107 | endpoint creation fails: unregistered, disabled, the empty ARN persisted, and `true` (the desired flag) persisted under `pushEnabled` |
| `PushScenarios.DisableRegistered` | app/src/main/java/com/execom/ljmocic/pushnotifications/aws/push/PushManager.java:178-186 | an enabled, registered device is disabled by the caller: disabled, exactly one delivery, `false`, and `false` persisted |
| `PushScenarios.EnableFailureKeepsRecord` | app/src/main/java/com/execom/ljmocic/pushnotifications/aws/push/PushManager.java:179-180 | enabling fails remotely: `Fail` returned, desired flag true in memory, confirmed still false, no delivery, record unchanged |
| `PushScenarios.UnchangedTokenIsNoOp` | app/src/main/java/com/execom/ljmocic/pushnotifications/aws/push/PushManager.java:98 | a registered device with an unchanged token: no SNS request, no write, no delivery, whatever SNS would answer |
| `PushListenerService.GetStringOr` | app/src/main/java/com/execom/ljmocic/pushnotifications/services/PushListenerService.java:28 | `getString(key, default)` gives the string value, or the default when the key is absent or reads as null |
| `PushListenerService.GetMessage` | app/src/main/java/com/execom/ljmocic/pushnotifications/services/PushListenerService.java:27-29 | `default` present: its value, even when `message` is present too. Otherwise the `message` string, or "" when it is absent or null. The result is null iff `default` is present with a null value |
| `PushListenerService.GetMessageDependsOnlyOnTwoKeys` | app/src/main/java/com/execom/ljmocic/pushnotifications/services/PushListenerService.java:27-29 | bundles that agree on `default` and `message` give the same result |
| `PushListenerService.GetMessageIgnoresOtherKeys` | app/src/main/java/com/execom/ljmocic/pushnotifications/services/PushListenerService.java:27-29 | adding or replacing any other entry never changes the result |
| `IdentityManager.WrapInt32Congruent` | app/src/main/java/com/execom/ljmocic/pushnotifications/aws/user/IdentityManager.java:58 | the modelled `int` product differs from the exact one by whole periods of 2^32 |
| `IdentityManager.WrapInt64Congruent` | app/src/main/java/com/execom/ljmocic/pushnotifications/aws/user/IdentityManager.java:57-61 | the modelled `long` results differ from the exact ones by whole periods of 2^64 |
| `IdentityManager.AreCredentialsExpiredAsWritten` | app/src/main/java/com/execom/ljmocic/pushnotifications/aws/user/IdentityManager.java:47-66 | the code as written, with the `int` product: a missing expiration is expired; otherwise expired iff the expiration is strictly before now minus the WRAPPED `int` value of offset*1000 (timestamps within 2^61 ms of the epoch) |
| `IdentityManager.AreCredentialsExpired` | app/src/main/java/com/execom/ljmocic/pushnotifications/aws/user/IdentityManager.java:47-66 | a missing expiration is expired; otherwise expired iff the expiration is strictly before now minus offset*1000 (timestamps within 2^61 ms of the epoch) |
| `IdentityManager.NotExpiredAtBoundary` | app/src/main/java/com/execom/ljmocic/pushnotifications/aws/user/IdentityManager.java:61 | an expiration equal to the corrected clock is not expired, since the comparison is strict |
| `IdentityManager.ExpiryMonotoneInTime` | app/src/main/java/com/execom/ljmocic/pushnotifications/aws/user/IdentityManager.java:57-61 | expired at `now` means expired at every later `now` with the same offset |
| `IdentityManager.ExpiryMonotoneInOffset` | app/src/main/java/com/execom/ljmocic/pushnotifications/aws/user/IdentityManager.java:57-58 | not expired with offset `o` means not expired with any larger offset |
| `IdentityManager.AsWrittenAgreesWithoutIntOverflow` | app/src/main/java/com/execom/ljmocic/pushnotifications/aws/user/IdentityManager.java:57-58 | while `offset * 1000` fits in an `int`, the code as written gives the intended result |
| `IdentityManager.AsWrittenOffsetOverflow` | app/src/main/java/com/execom/ljmocic/pushnotifications/aws/user/IdentityManager.java:57-58 | the code as written reports valid credentials at offset 2147483 s and expired ones at 2147484 s; the intended result stays valid |

## Left out

- The AWS SDK (`AmazonSNSClient`, its region, request objects) is a foreign network client. Each call is an input outcome. An SDK failure is an `AmazonClientException`; other runtime exceptions, which would skip the catch blocks but still run `finally`, are not modelled.
- The device token is not modelled. `createPlatformArn` takes it from `GCMTokenHelper.getGCMToken()`, and `GCMTokenHelper` is not part of this model. `OnGcmTokenUpdate` takes the callback's token and ignores it, as the source does. The recorded create request carries only the platform application ARN.
- `registerDevice` only asks `GCMTokenHelper` to refresh the token, and that class is not part of this model. The observer registration in the constructor is left out for the same reason.
- `getEndpointArn`, `isPushEnabled` and `getSns` are plain getters. The class fields are readable directly.
- The empty "resubscribing" try block and all logging do nothing observable.
- Push.PushManager.IsRegistered: the endpoint ARN is a `string` that cannot be null. SNS returns an ARN on success, so the source's null test coincides with the empty test.
- The listener slot is a static field shared by all `PushManager` objects. Here it is a field of the one manager, set by the constructor's argument and by `SetPushStateListener`.
- Delivery through `ThreadUtils.runOnUiThread` is modelled as a synchronous append of the confirmed flag to `notified`. The posted task reads `pushEnabled` when it runs, and it catches exceptions from the listener. The code has no locking, so only sequential behaviour is modelled.
- `SharedPreferences.apply()` is modelled as an immediate update of the map; the asynchronous disk write is not.
- A value of the wrong type under a key would make `getString`/`getBoolean` throw `ClassCastException`. The file is private to `PushManager`, and every write keeps `Preferences.WellTyped`. So the constructor requires a well-typed record, and `PushTraces.RunKeepsConsistent` proves that every event keeps it.
- JavaStrings.EqualsIgnoreCase: case mapping covers ASCII letters only; Unicode case mapping is not modelled.
- IdentityManager.AreCredentialsExpired: the iff is stated only for timestamps within 2^61 ms of the epoch. Beyond that the `long` subtraction can wrap, and the function computes the wrapped value.
- The rest of `IdentityManager` is left out: Cognito provider creation, `getUserID` with its thread and handler, and the unused executor. This is concurrency and foreign calls.
- `PushListenerService.onMessageReceived` and `displayNotification`, `MainActivity`, `AWSMobileClient`, `BootCompletedReceiver` and `PushNotificationApplication` are UI, platform notification rendering, lifecycle hooks and SDK wiring.

## Findings

| source | as written | input that shows it | evidently intended | confidence | as-written member | corrected member |
|---|---|---|---|---|---|---|
| app/src/main/java/com/execom/ljmocic/pushnotifications/aws/user/IdentityManager.java:57-58 | `(long)(getGlobalTimeOffset() * 1000)` multiplies two `int`s and widens afterwards, so the product wraps once the offset exceeds 2147483 s (about 24.8 days) | expiration = now = 1700000000000 ms: offset 2147483 s gives "not expired", offset 2147484 s (product wraps to -2147483296) gives "expired", which breaks monotonicity in the offset (`IdentityManager.AsWrittenOffsetOverflow`) | widen first, `(long) getGlobalTimeOffset() * 1000`, so that expired iff expiration < now - offset*1000 | not executed; medium (needs a clock skew beyond 24.8 days) | `IdentityManager.AreCredentialsExpiredAsWritten` | `IdentityManager.AreCredentialsExpired` |
