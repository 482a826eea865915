/**
 * Sequences of events driving one `PushManager`, and the properties that hold
 * across all of them: the desired flag is the caller's latest request, only
 * token updates move the endpoint, a failed registration attempt leaves the
 * device unregistered until the next token update, and a listener that stays
 * registered never receives the same value twice in a row.
 */
module PushTraces {
  import opened Wrappers
  import opened Preferences
  import opened PushState

  /** One call into the manager, with the outcomes SNS would give. */
  datatype Event =
    | TokenRefreshed(didTokenChange: bool, create: CreateOutcome, attributes: Outcome)
    | TokenRefreshFailed
    | EnableRequested(enabled: bool, attributes: Outcome)
    | ListenerChanged(registered: bool)

  function Step(s: ManagerState, e: Event): ManagerState {
    match e
    case TokenRefreshed(d, c, a) => TokenUpdate(s, d, c, a)
    case TokenRefreshFailed => TokenUpdateFailed(s)
    case EnableRequested(enabled, a) => SetEnabled(s, enabled, a)
    case ListenerChanged(registered) => SetListener(s, registered)
  }

  /** The state after the events, applied oldest first. */
  function Run(s: ManagerState, events: seq<Event>): ManagerState
    decreases |events|
  {
    if events == [] then s else Run(Step(s, events[0]), events[1..])
  }

  /** Running two traces one after the other is running their concatenation. */
  lemma {:induction false} RunAppend(s: ManagerState, first: seq<Event>, second: seq<Event>)
    ensures Run(s, first + second) == Run(Run(s, first), second)
    decreases |first|
  {
    if first != [] {
      assert (first + second)[0] == first[0];
      assert (first + second)[1..] == first[1..] + second;
      RunAppend(Step(s, first[0]), first[1..], second);
    } else {
      assert first + second == second;
    }
  }

  /** Every trace keeps the preferences well typed and the persisted ARN equal to the field. */
  lemma {:induction false} RunKeepsConsistent(s: ManagerState, events: seq<Event>)
    requires Consistent(s)
    ensures Consistent(Run(s, events))
    decreases |events|
  {
    if events != [] {
      RunKeepsConsistent(Step(s, events[0]), events[1..]);
    }
  }

  /** The latest `setPushEnabled` request in the events, or `current` if there is none. */
  function LatestRequest(events: seq<Event>, current: bool): bool
    decreases |events|
  {
    if events == [] then current
    else LatestRequest(events[1..], if events[0].EnableRequested? then events[0].enabled else current)
  }

  /** The desired flag always equals the caller's latest request, whatever failed in between. */
  lemma {:induction false} DesiredIsLatestRequest(s: ManagerState, events: seq<Event>)
    ensures Run(s, events).shouldEnablePush == LatestRequest(events, s.shouldEnablePush)
    decreases |events|
  {
    if events != [] {
      DesiredIsLatestRequest(Step(s, events[0]), events[1..]);
    }
  }

  predicate NoTokenRefresh(events: seq<Event>) {
    forall i :: 0 <= i < |events| ==> !events[i].TokenRefreshed?
  }

  /** Only token updates change the endpoint ARN. */
  lemma {:induction false} OnlyTokenUpdatesMoveEndpoint(s: ManagerState, events: seq<Event>)
    requires NoTokenRefresh(events)
    ensures Run(s, events).endpointArn == s.endpointArn
    decreases |events|
  {
    if events != [] {
      assert !events[0].TokenRefreshed?;
      assert NoTokenRefresh(events[1..]) by {
        forall i | 0 <= i < |events[1..]| ensures !events[1..][i].TokenRefreshed? {
          assert events[1..][i] == events[i + 1];
        }
      }
      OnlyTokenUpdatesMoveEndpoint(Step(s, events[0]), events[1..]);
    }
  }

  /**
   * When the most recent token update ran the registration and one of its SNS
   * calls failed, the device is unregistered, however many other events follow.
   */
  lemma LastFailedAttemptUnregisters(s: ManagerState, before: seq<Event>, didTokenChange: bool,
                                     create: CreateOutcome, attributes: Outcome, after: seq<Event>)
    requires ShouldRegister(Run(s, before), didTokenChange)
    requires create.CreateFailed? || attributes.Fail?
    requires NoTokenRefresh(after)
    ensures !IsRegistered(Run(s, before + [TokenRefreshed(didTokenChange, create, attributes)] + after))
  {
    var attempt := [TokenRefreshed(didTokenChange, create, attributes)];
    RunAppend(s, before + attempt, after);
    RunAppend(s, before, attempt);
    OnlyTokenUpdatesMoveEndpoint(Run(s, before + attempt), after);
  }

  /** No two consecutive delivered values are equal. */
  predicate Alternating(log: seq<bool>) {
    forall i :: 0 < i < |log| ==> log[i] != log[i - 1]
  }

  /** The last delivered value is the last reported one. */
  predicate LogTracksReport(s: ManagerState) {
    s.notified != [] ==> s.previousPushState == Some(s.notified[|s.notified| - 1])
  }

  predicate NoListenerChange(events: seq<Event>) {
    forall i :: 0 <= i < |events| ==> !events[i].ListenerChanged?
  }

  /** Appending `v` only when it differs from the last report keeps the log alternating and ending in `v`. */
  lemma AppendKeepsAlternation(log: seq<bool>, previous: Option<bool>, v: bool, next: seq<bool>)
    requires Alternating(log) && (log != [] ==> previous == Some(log[|log| - 1]))
    requires next == log + (if previous != Some(v) then [v] else [])
    ensures Alternating(next) && (next != [] ==> next[|next| - 1] == v)
  {
    if previous != Some(v) {
      forall i | 0 < i < |next| ensures next[i] != next[i - 1] {
        if i < |log| {
          assert next[i] == log[i] && next[i - 1] == log[i - 1];
        }
      }
    }
  }

  lemma StepKeepsAlternation(s: ManagerState, e: Event)
    requires s.listenerRegistered && !e.ListenerChanged?
    requires Alternating(s.notified) && LogTracksReport(s)
    ensures var r := Step(s, e);
            r.listenerRegistered && Alternating(r.notified) && LogTracksReport(r)
  {
    var r := Step(s, e);
    match e
    case TokenRefreshed(d, c, a) =>
      if ShouldRegister(s, d) {
        AppendKeepsAlternation(s.notified, s.previousPushState, r.pushEnabled, r.notified);
      }
    case TokenRefreshFailed =>
      AppendKeepsAlternation(s.notified, s.previousPushState, false, r.notified);
    case EnableRequested(enabled, a) =>
      if a.Pass? {
        AppendKeepsAlternation(s.notified, s.previousPushState, enabled, r.notified);
      }
  }

  /**
   * Edge triggering: while a listener stays registered it never receives the same
   * value twice in a row, and it always last received the last reported value.
   */
  lemma {:induction false} NotificationsAlternate(s: ManagerState, events: seq<Event>)
    requires s.listenerRegistered && NoListenerChange(events)
    requires Alternating(s.notified) && LogTracksReport(s)
    ensures Alternating(Run(s, events).notified) && LogTracksReport(Run(s, events))
    decreases |events|
  {
    if events != [] {
      assert !events[0].ListenerChanged?;
      StepKeepsAlternation(s, events[0]);
      assert NoListenerChange(events[1..]) by {
        forall i | 0 <= i < |events[1..]| ensures !events[1..][i].ListenerChanged? {
          assert events[1..][i] == events[i + 1];
        }
      }
      NotificationsAlternate(Step(s, events[0]), events[1..]);
    }
  }

  /** Deliveries are only ever appended: the earlier log is a prefix of the later one. */
  lemma {:induction false} NotificationsOnlyGrow(s: ManagerState, events: seq<Event>)
    ensures s.notified <= Run(s, events).notified
    decreases |events|
  {
    if events != [] {
      NotificationsOnlyGrow(Step(s, events[0]), events[1..]);
    }
  }
}
