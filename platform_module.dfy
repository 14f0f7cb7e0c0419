/**
 * The two backends over the platform fingerprint API: the Marshmallow module
 * (FingerprintManager, tag 1) and the Pie module (BiometricPrompt, tag 2).
 * Their callbacks are the same: an error code is mapped to a failure reason,
 * CANCELED is never reported, a TIMEOUT restarts when the predicate allows,
 * and a help message consults the predicate, may cancel the signal, and is
 * always reported as non-fatal.
 */
module PlatformModule {
  import opened Reasons
  import opened Listening
  import opened RestartPredicates

  datatype Backend = Marshmallow | Pie

  function Tag(b: Backend): int {
    match b
    case Marshmallow => 1
    case Pie => 2
  }

  // Error codes of the platform API, as the modules copy them.
  const ErrorHwUnavailable := 1
  const ErrorUnableToProcess := 2
  const ErrorTimeout := 3
  const ErrorNoSpace := 4
  const ErrorCanceled := 5
  const ErrorLockout := 7
  /** Reprint's own code for a finger that did not match. */
  const AuthenticationFailedCode := 1001

  /** The reason reported for an error code; `None` for CANCELED, which is
      never reported. */
  function ErrorReason(code: int): (r: Option<FailureReason>)
    ensures r.None? <==> code == ErrorCanceled
    ensures r == Some(HardwareUnavailable) <==> code == ErrorHwUnavailable
    ensures r == Some(SensorFailed) <==> code == ErrorUnableToProcess || code == ErrorNoSpace
    ensures r == Some(Timeout) <==> code == ErrorTimeout
    ensures r == Some(LockedOut) <==> code == ErrorLockout
    ensures r == Some(Unknown) <==> code !in {1, 2, 3, 4, 5, 7}
  {
    if code == ErrorHwUnavailable then Some(HardwareUnavailable)
    else if code == ErrorUnableToProcess || code == ErrorNoSpace then Some(SensorFailed)
    else if code == ErrorTimeout then Some(Timeout)
    else if code == ErrorLockout then Some(LockedOut)
    else if code == ErrorCanceled then None
    else Some(Unknown)
  }

  /** What the platform service does when asked to authenticate: whether the
      system service is there at all, and whether its `authenticate` throws
      a NullPointerException. */
  datatype Sdk = Sdk(serviceAvailable: bool, authenticateThrows: bool)

  /** The failure reported instead of starting the sensor, if any: UNKNOWN,
      fatal, with the module's tag and the CANCELED code. The Pie module says
      "hardware not available" when the service is missing, the Marshmallow
      module "unable to process". */
  function StartFailure(b: Backend, sdk: Sdk): (r: Option<Event>)
    ensures r.None? <==> sdk.serviceAvailable && !sdk.authenticateThrows
    ensures r.Some? ==> r.value.Failure? && r.value.reason == Unknown && r.value.fatal &&
                        r.value.moduleTag == Tag(b) && r.value.errorCode == ErrorCanceled
  {
    if !sdk.serviceAvailable then
      Some(Failure(Unknown, true,
                   Localized(if b == Pie then FingerprintErrorHwNotAvailable else FingerprintErrorUnableToProcess),
                   Tag(b), ErrorCanceled))
    else if sdk.authenticateThrows then
      Some(Failure(Unknown, true, Localized(FingerprintErrorUnableToProcess), Tag(b), ErrorCanceled))
    else None
  }

  /** The report of a help message, as the code writes it: always non-fatal. */
  function HelpReport(b: Backend, helpId: int, helpText: string): Event {
    Failure(SensorFailed, false, SdkText(helpText), Tag(b), helpId)
  }

  /** One call from the platform service on the authentication callback. */
  datatype SensorCallback =
    | Error(code: int, text: string)
    | Help(helpId: int, text: string)
    | Succeeded
    | Failed

  /** What a run of callbacks has done so far: the predicate's consultations,
      the callback's restart count, whether the signal is cancelled, and what
      the listener heard. */
  datatype Run = Run(history: seq<Consult>, restartCount: int, cancelled: bool, events: seq<Event>)

  /** The effect of one callback, when every restart starts the sensor. */
  function Step(b: Backend, kind: PolicyKind, r: Run, c: SensorCallback): Run {
    match c
    case Error(code, text) =>
      if code == ErrorCanceled then r
      else if code == ErrorTimeout then
        var r' := r.(history := r.history + [Consult(Timeout, r.restartCount)]);
        if Answer(kind, r.history, Timeout) then r'
        else r'.(events := r.events + [Failure(Timeout, true, SdkText(text), Tag(b), code)])
      else
        r.(events := r.events + [Failure(ErrorReason(code).value, true, SdkText(text), Tag(b), code)])
    case Help(helpId, text) =>
      Run(r.history + [Consult(SensorFailed, r.restartCount)], r.restartCount + 1,
          r.cancelled || !Answer(kind, r.history, SensorFailed),
          r.events + [HelpReport(b, helpId, text)])
    case Succeeded =>
      r.(events := r.events + [Success(Tag(b))])
    case Failed =>
      r.(events := r.events + [Failure(AuthenticationFailed, false, Localized(FingerprintNotRecognized),
                                       Tag(b), AuthenticationFailedCode)])
  }

  /** The effect of a sequence of callbacks. */
  function Replay(b: Backend, kind: PolicyKind, r: Run, cs: seq<SensorCallback>): Run
    decreases |cs|
  {
    if cs == [] then r else Replay(b, kind, Step(b, kind, r, cs[0]), cs[1..])
  }

  /** A module object: the attempts it has started on the platform service. */
  class Module {
    const backend: Backend
    var attempts: seq<Attempt>

    constructor (backend: Backend)
      ensures this.backend == backend && attempts == []
    {
      this.backend := backend;
      attempts := [];
    }

    /** `authenticate(signal, listener, predicate, restartCount)`: reports the
        start failure, or starts the sensor with a fresh callback. */
    method Authenticate(signal: CancellationSignal, listener: Listener, policy: RestartPredicate,
                        restartCount: int, sdk: Sdk) returns (cb: AuthCallback?)
      modifies this`attempts, listener
      ensures StartFailure(backend, sdk).Some? ==>
        cb == null && attempts == old(attempts) &&
        listener.events == old(listener.events) + [StartFailure(backend, sdk).value]
      ensures StartFailure(backend, sdk).None? ==>
        cb != null && fresh(cb) && cb.owner == this && cb.signal == signal && cb.listener == listener &&
        cb.policy == policy && cb.restartCount == restartCount &&
        attempts == old(attempts) + [Attempt(signal, restartCount)] &&
        listener.events == old(listener.events)
    {
      var failure := StartFailure(backend, sdk);
      if failure.Some? {
        listener.OnFailure(Unknown, true, failure.value.message, Tag(backend), ErrorCanceled);
        return null;
      }
      cb := new AuthCallback(this, policy, signal, listener, restartCount);
      attempts := attempts + [Attempt(signal, restartCount)];
    }
  }

  /** One request handed to the platform service. */
  datatype Attempt = Attempt(signal: CancellationSignal, restartCount: int)

  /** The callback object given to the platform service. */
  class AuthCallback {
    const owner: Module
    const policy: RestartPredicate
    const signal: CancellationSignal
    const listener: Listener
    var restartCount: int

    constructor (owner: Module, policy: RestartPredicate, signal: CancellationSignal,
                 listener: Listener, restartCount: int)
      ensures this.owner == owner && this.policy == policy && this.signal == signal
      ensures this.listener == listener && this.restartCount == restartCount
    {
      this.owner, this.policy, this.signal, this.listener := owner, policy, signal, listener;
      this.restartCount := restartCount;
    }

    /** The part of the world a callback changes, as a `Run`. */
    ghost function State(): Run
      reads this, policy, signal, listener
    {
      Run(policy.history, restartCount, signal.cancelled, listener.events)
    }

    /** `onAuthenticationError`: CANCELED is dropped; only a TIMEOUT consults
        the predicate, and when it allows, the module authenticates again with
        the same restart count and the listener hears nothing; every other
        error is one fatal failure. */
    method OnAuthenticationError(code: int, errText: string, sdk: Sdk) returns (next: AuthCallback?)
      requires policy.Valid()
      modifies policy, listener, owner`attempts
      ensures policy.Valid()
      ensures var restarted := code == ErrorTimeout && Answer(policy.kind, old(policy.history), Timeout);
        && (!restarted || StartFailure(owner.backend, sdk).None? ==>
              State() == Step(owner.backend, policy.kind, old(State()), Error(code, errText)))
        && (restarted && StartFailure(owner.backend, sdk).Some? ==>
              State() == old(State()).(history := old(policy.history) + [Consult(Timeout, restartCount)],
                                       events := old(listener.events) + [StartFailure(owner.backend, sdk).value]) &&
              next == null && owner.attempts == old(owner.attempts))
        && (restarted && StartFailure(owner.backend, sdk).None? ==>
              next != null && fresh(next) && next.State() == State() &&
              owner.attempts == old(owner.attempts) + [Attempt(signal, restartCount)])
        && (!restarted ==> next == null && owner.attempts == old(owner.attempts))
    {
      var reason := ErrorReason(code);
      if reason.None? {
        return null;
      }
      var restart := false;
      if code == ErrorTimeout {
        restart := policy.Invoke(reason.value, restartCount);
      }
      if restart {
        next := owner.Authenticate(signal, listener, policy, restartCount, sdk);
      } else {
        listener.OnFailure(reason.value, true, SdkText(errText), Tag(owner.backend), code);
        next := null;
      }
    }

    /** `onAuthenticationHelp`: the predicate is asked about SENSOR_FAILED with
        the current count, the count goes up by one, a refusal cancels the
        signal, and the help is reported as a non-fatal failure either way. */
    method OnAuthenticationHelp(helpId: int, helpText: string)
      requires policy.Valid()
      modifies this`restartCount, policy, signal, listener
      ensures policy.Valid()
      ensures State() == Step(owner.backend, policy.kind, old(State()), Help(helpId, helpText))
      ensures signal.hookInstalled == old(signal.hookInstalled)
      ensures signal.hookRuns == if !Answer(policy.kind, old(policy.history), SensorFailed) &&
                                    !old(signal.cancelled) && old(signal.hookInstalled)
                                 then old(signal.hookRuns) + 1 else old(signal.hookRuns)
    {
      var restart := policy.Invoke(SensorFailed, restartCount);
      restartCount := restartCount + 1;
      if !restart {
        signal.Cancel();
      }
      listener.OnFailure(SensorFailed, false, SdkText(helpText), Tag(owner.backend), helpId);
    }

    method OnAuthenticationSucceeded()
      modifies listener
      ensures State() == Step(owner.backend, policy.kind, old(State()), Succeeded)
    {
      listener.OnSuccess(Tag(owner.backend));
    }

    method OnAuthenticationFailed()
      modifies listener
      ensures State() == Step(owner.backend, policy.kind, old(State()), Failed)
    {
      listener.OnFailure(AuthenticationFailed, false, Localized(FingerprintNotRecognized),
                         Tag(owner.backend), AuthenticationFailedCode);
    }
  }

  // ---------------------------------------------------------------------
  // Properties of runs

  /** A fresh run: no consultations, count 0, signal live, nothing heard. */
  function Fresh(): Run {
    Run([], 0, false, [])
  }

  /** CANCELED errors change nothing: no listener call, no consultation. */
  lemma CanceledIsSilent(b: Backend, kind: PolicyKind, r: Run, text: string)
    ensures Step(b, kind, r, Error(ErrorCanceled, text)) == r
  {
  }

  /** Errors other than TIMEOUT and CANCELED never consult the predicate and
      are always one fatal failure. */
  lemma OtherErrorsAreFatal(b: Backend, kind: PolicyKind, r: Run, code: int, text: string)
    requires code != ErrorTimeout && code != ErrorCanceled
    ensures var r' := Step(b, kind, r, Error(code, text));
      r'.history == r.history && r'.restartCount == r.restartCount &&
      r'.events == r.events + [Failure(ErrorReason(code).value, true, SdkText(text), Tag(b), code)]
  {
  }

  /** Replaying a concatenation is replaying one part after the other. */
  lemma {:induction false} ReplayAppend(b: Backend, kind: PolicyKind, r: Run, cs: seq<SensorCallback>, ds: seq<SensorCallback>)
    ensures Replay(b, kind, r, cs + ds) == Replay(b, kind, Replay(b, kind, r, cs), ds)
    decreases |cs|
  {
    if cs == [] {
      assert cs + ds == ds;
    } else {
      assert (cs + ds)[1..] == cs[1..] + ds;
      ReplayAppend(b, kind, Step(b, kind, r, cs[0]), cs[1..], ds);
    }
  }

  /** k timeouts in a row on a fresh run of restartTimeouts(n): the first n
      restart silently and every later one is one fatal TIMEOUT; the restart
      count never moves and each timeout is one consultation. */
  lemma {:induction false} ConsecutiveTimeoutErrors(b: Backend, n: nat, k: nat, text: string)
    ensures var r := Replay(b, RestartTimeouts(n), Fresh(), Repeat(Error(ErrorTimeout, text), k));
      && |r.history| == k && TimeoutsSeen(r.history) == k && r.restartCount == 0 && !r.cancelled
      && r.events == Repeat(Failure(Timeout, true, SdkText(text), Tag(b), ErrorTimeout),
                            if k <= n then 0 else k - n)
  {
    if k > 0 {
      ConsecutiveTimeoutErrors(b, n, k - 1, text);
      var e := Error(ErrorTimeout, text);
      ReplayAppend(b, RestartTimeouts(n), Fresh(), Repeat(e, k - 1), [e]);
      var r := Replay(b, RestartTimeouts(n), Fresh(), Repeat(e, k - 1));
      TimeoutsSeenSnoc(r.history, Consult(Timeout, 0));
    }
  }

  /** With the default predicate, six timeouts in a row: the caller hears
      nothing for the first five and one fatal TIMEOUT for the sixth. */
  lemma DefaultSixTimeouts(b: Backend, text: string)
    ensures Replay(b, RestartTimeouts(DefaultTimeoutRestarts), Fresh(), Repeat(Error(ErrorTimeout, text), 6)).events
         == [Failure(Timeout, true, SdkText(text), Tag(b), ErrorTimeout)]
  {
    ConsecutiveTimeoutErrors(b, DefaultTimeoutRestarts, 6, text);
    ConsecutiveTimeoutErrors(b, DefaultTimeoutRestarts, 5, text);
  }

  /** Help messages always reach the listener as non-fatal SENSOR_FAILED,
      whatever the predicate says, so the default predicate's "unlimited
      restarts" of non-fatal failures is not silent here. */
  lemma HelpAlwaysReported(b: Backend, kind: PolicyKind, r: Run, helpId: int, text: string)
    ensures var r' := Step(b, kind, r, Help(helpId, text));
      r'.events == r.events + [Failure(SensorFailed, false, SdkText(text), Tag(b), helpId)] &&
      r'.restartCount == r.restartCount + 1 &&
      r'.history == r.history + [Consult(SensorFailed, r.restartCount)]
  {
  }

  /** Three help messages and then a match, on the default predicate: the
      caller hears all four, three non-fatal SENSOR_FAILED and the success;
      the help messages are not retried silently. */
  lemma HelpsThenSuccessAllHeard(b: Backend, helpId: int, text: string)
    ensures var h := Help(helpId, text);
      Replay(b, RestartTimeouts(DefaultTimeoutRestarts), Fresh(), [h, h, h, Succeeded]).events
        == [HelpReport(b, helpId, text), HelpReport(b, helpId, text), HelpReport(b, helpId, text), Success(Tag(b))]
  {
    var h := Help(helpId, text);
    var kind := RestartTimeouts(DefaultTimeoutRestarts);
    var r1 := Step(b, kind, Fresh(), h);
    var r2 := Step(b, kind, r1, h);
    var r3 := Step(b, kind, r2, h);
    assert [h, h, h, Succeeded][1..] == [h, h, Succeeded];
    assert [h, h, Succeeded][1..] == [h, Succeeded];
    assert [h, Succeeded][1..] == [Succeeded];
    assert Replay(b, kind, Fresh(), [h, h, h, Succeeded]) == Replay(b, kind, r1, [h, h, Succeeded]);
    assert Replay(b, kind, r1, [h, h, Succeeded]) == Replay(b, kind, r2, [h, Succeeded]);
    assert Replay(b, kind, r2, [h, Succeeded]) == Replay(b, kind, r3, [Succeeded]);
    assert Replay(b, kind, r3, [Succeeded]) == Step(b, kind, r3, Succeeded);
    assert r3.events == [HelpReport(b, helpId, text), HelpReport(b, helpId, text), HelpReport(b, helpId, text)];
  }

  // ---------------------------------------------------------------------
  // Finding: a refused help cancels the sensor but is reported as non-fatal.

  /** As written: with neverRestart, a help message cancels the signal and is
      reported as non-fatal, and the CANCELED error that the cancellation
      brings is dropped, so the caller's last event says the sensor is still
      running while it is not. */
  lemma HelpLeavesCallerWaiting(b: Backend, helpId: int, helpText: string, errText: string)
    ensures var r := Replay(b, NeverRestart, Fresh(), [Help(helpId, helpText), Error(ErrorCanceled, errText)]);
      r.cancelled && |r.events| == 1 && !r.events[0].Terminal() && !HonestReport(r.events[0], r.cancelled)
  {
    var r1 := Step(b, NeverRestart, Fresh(), Help(helpId, helpText));
    assert Replay(b, NeverRestart, r1, [Error(ErrorCanceled, errText)]) == r1;
  }

  /** The evidently intended report: fatal exactly when the predicate refused
      and the signal was cancelled. */
  function HelpReportCorrected(b: Backend, helpId: int, helpText: string, restart: bool): Event {
    Failure(SensorFailed, !restart, SdkText(helpText), Tag(b), helpId)
  }

  /** `Step` with the corrected help report. */
  function StepCorrected(b: Backend, kind: PolicyKind, r: Run, c: SensorCallback): (r': Run)
    ensures c.Help? ==> r'.events == r.events + [HelpReportCorrected(b, c.helpId, c.text, Answer(kind, r.history, SensorFailed))]
    ensures !c.Help? ==> r' == Step(b, kind, r, c)
  {
    match c
    case Help(helpId, text) =>
      var restart := Answer(kind, r.history, SensorFailed);
      Run(r.history + [Consult(SensorFailed, r.restartCount)], r.restartCount + 1,
          r.cancelled || !restart, r.events + [HelpReportCorrected(b, helpId, text, restart)])
    case _ => Step(b, kind, r, c)
  }

  /** With the correction, a help report is fatal exactly when it stopped a
      running sensor, and otherwise leaves the sensor running. */
  lemma CorrectedHelpIsHonest(b: Backend, kind: PolicyKind, r: Run, helpId: int, text: string)
    requires !r.cancelled
    ensures var r' := StepCorrected(b, kind, r, Help(helpId, text));
      |r'.events| == |r.events| + 1 && HonestReport(r'.events[|r.events|], r'.cancelled)
  {
  }

  /** The corrected run of the scenario above ends with a terminal event. */
  lemma CorrectedHelpEndsRun(b: Backend, helpId: int, helpText: string, errText: string)
    ensures var r1 := StepCorrected(b, NeverRestart, Fresh(), Help(helpId, helpText));
      var r := StepCorrected(b, NeverRestart, r1, Error(ErrorCanceled, errText));
      r.cancelled && |r.events| == 1 && r.events[0].Terminal()
  {
  }
}
