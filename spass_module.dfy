/**
 * What the two Samsung Pass modules share: the SDK's identify status codes,
 * whose values belong to the SDK and are known only to be distinct, Reprint's
 * own codes for the start-up failures, and the answers of the SDK calls that
 * `authenticate` makes.
 */
module SpassSdk {

  /** The module's tag, in both revisions. */
  const Tag := 2

  const StatusNoRegisteredFingerprints := 1001
  const StatusHwUnavailable := 1002
  const StatusLockedOut := 1003

  /** The SDK's `STATUS_*` values that the `onFinished` switch names. */
  datatype StatusCodes = StatusCodes(
    authSuccess: int,
    passwordSuccess: int,
    qualityFailed: int,
    sensorFailed: int,
    authFailed: int,
    timeoutFailed: int,
    userCancelled: int)
  {
    /** The labels of one switch are distinct. */
    predicate Distinct() {
      && authSuccess != passwordSuccess && authSuccess != qualityFailed && authSuccess != sensorFailed
      && authSuccess != authFailed && authSuccess != timeoutFailed && authSuccess != userCancelled
      && passwordSuccess != qualityFailed && passwordSuccess != sensorFailed && passwordSuccess != authFailed
      && passwordSuccess != timeoutFailed && passwordSuccess != userCancelled
      && qualityFailed != sensorFailed && qualityFailed != authFailed && qualityFailed != timeoutFailed
      && qualityFailed != userCancelled
      && sensorFailed != authFailed && sensorFailed != timeoutFailed && sensorFailed != userCancelled
      && authFailed != timeoutFailed && authFailed != userCancelled
      && timeoutFailed != userCancelled
    }

    /** A status some case of the switch names. */
    predicate Listed(status: int) {
      status in {authSuccess, passwordSuccess, qualityFailed, sensorFailed, authFailed, timeoutFailed, userCancelled}
    }
  }

  /** The answer of `hasRegisteredFinger()`: yes, no, or an exception. */
  datatype Enrolment = Enrolled | NotEnrolled | QueryThrows

  /** What the SDK does when `authenticate` runs: the enrolment answer, and
      whether `startIdentify` accepts the request. */
  datatype Device = Device(enrolment: Enrolment, identifyStarts: bool)
}

/**
 * The current Samsung Pass module: `onFinished` classifies a status, `fail`
 * tells the listener first and then restarts with `restartCount + 1` when the
 * failure is non-fatal or a timeout and the predicate agrees.
 */
module SpassModule {
  import opened Reasons
  import opened Listening
  import opened RestartPredicates
  import opened SpassSdk

  /** What `onFinished` does with a status. */
  datatype Verdict =
    | Succeed
    | Report(reason: FailureReason, fatal: bool, message: StringId)
    | Ignore

  function Classify(k: StatusCodes, status: int): (v: Verdict)
    requires k.Distinct()
    ensures v == Succeed <==> status == k.authSuccess || status == k.passwordSuccess
    ensures v == Ignore <==> status == k.userCancelled
    ensures v == Report(SensorFailed, false, FingerprintAcquiredPartial) <==> status == k.qualityFailed
    ensures v == Report(SensorFailed, false, FingerprintAcquiredInsufficient) <==> status == k.sensorFailed
    ensures v == Report(AuthenticationFailed, false, FingerprintNotRecognized) <==> status == k.authFailed
    ensures v == Report(Timeout, true, FingerprintErrorTimeout) <==> status == k.timeoutFailed
    ensures v == Report(Unknown, true, FingerprintErrorHwNotAvailable) <==> !k.Listed(status)
  {
    if status == k.authSuccess || status == k.passwordSuccess then Succeed
    else if status == k.qualityFailed then Report(SensorFailed, false, FingerprintAcquiredPartial)
    else if status == k.sensorFailed then Report(SensorFailed, false, FingerprintAcquiredInsufficient)
    else if status == k.authFailed then Report(AuthenticationFailed, false, FingerprintNotRecognized)
    else if status == k.timeoutFailed then Report(Timeout, true, FingerprintErrorTimeout)
    else if status == k.userCancelled then Ignore
    else Report(Unknown, true, FingerprintErrorHwNotAvailable)
  }

  /** `fail` asks the predicate only about non-fatal failures and timeouts. */
  predicate Consults(v: Verdict) {
    v.Report? && (!v.fatal || v.reason == Timeout)
  }

  /** The predicate is consulted for exactly the quality, sensor,
      authentication and timeout statuses; in particular never for a success,
      a user cancel or an unlisted status. */
  lemma ConsultedStatuses(k: StatusCodes, status: int)
    requires k.Distinct()
    ensures Consults(Classify(k, status)) <==>
      status in {k.qualityFailed, k.sensorFailed, k.authFailed, k.timeoutFailed}
  {
  }

  /** The failure `authenticate` reports instead of starting identification:
      no finger, the enrolment query throwing, or `startIdentify` throwing.
      All are fatal; only the first two carry a message. */
  function StartFailure(d: Device): (r: Option<Event>)
    ensures r.None? <==> d.enrolment == Enrolled && d.identifyStarts
    ensures r.Some? ==> r.value.Failure? && r.value.fatal && r.value.moduleTag == Tag
    ensures r.Some? ==> (r.value.reason == NoFingerprintsRegistered <==> r.value.errorCode == StatusNoRegisteredFingerprints)
    ensures r.Some? ==> (r.value.errorCode == StatusNoRegisteredFingerprints <==> d.enrolment == NotEnrolled)
    ensures r.Some? ==> (r.value.errorCode == StatusHwUnavailable <==> d.enrolment == QueryThrows)
    ensures r.Some? ==> (r.value.errorCode == StatusLockedOut <==> d.enrolment == Enrolled)
    ensures r.Some? ==> (r.value.reason == HardwareUnavailable <==> d.enrolment == QueryThrows)
    ensures r.Some? ==> (r.value.reason == LockedOut <==> d.enrolment == Enrolled)
  {
    match d.enrolment
    case NotEnrolled =>
      Some(Failure(NoFingerprintsRegistered, true, Localized(FingerprintErrorHwNotAvailable), Tag, StatusNoRegisteredFingerprints))
    case QueryThrows =>
      Some(Failure(HardwareUnavailable, true, Localized(FingerprintErrorHwNotAvailable), Tag, StatusHwUnavailable))
    case Enrolled =>
      if d.identifyStarts then None
      else Some(Failure(LockedOut, true, NoMessage, Tag, StatusLockedOut))
  }

  /** The state a run of identify callbacks carries: the predicate's
      consultations, the restart count of the current request, what the
      listener heard, and whether a new identify request is running. */
  datatype Run = Run(history: seq<Consult>, restartCount: int, events: seq<Event>, running: bool)

  /** `fail` as written: report, then maybe restart with the next count. */
  function Fail(kind: PolicyKind, r: Run, reason: FailureReason, fatal: bool, message: StringId, status: int): Run {
    var e := Failure(reason, fatal, Localized(message), Tag, status);
    if !fatal || reason == Timeout then
      var restart := Answer(kind, r.history, reason);
      Run(r.history + [Consult(reason, r.restartCount)],
          if restart then r.restartCount + 1 else r.restartCount,
          r.events + [e], restart)
    else
      Run(r.history, r.restartCount, r.events + [e], false)
  }

  /** The effect of one `onFinished(status)`, when every restart starts. */
  function Step(k: StatusCodes, kind: PolicyKind, r: Run, status: int): Run
    requires k.Distinct()
  {
    match Classify(k, status)
    case Succeed => r.(events := r.events + [Success(Tag)], running := false)
    case Ignore => r.(running := false)
    case Report(reason, fatal, message) => Fail(kind, r, reason, fatal, message, status)
  }

  function Replay(k: StatusCodes, kind: PolicyKind, r: Run, statuses: seq<int>): Run
    requires k.Distinct()
    decreases |statuses|
  {
    if statuses == [] then r else Replay(k, kind, Step(k, kind, r, statuses[0]), statuses[1..])
  }

  /** One accepted `startIdentify` request. */
  datatype Identification = Identification(signal: CancellationSignal, restartCount: int)

  /** The module object: whether the lazily created `SpassFingerprint` exists,
      how many `cancelIdentify` calls it made, and the requests it started. */
  class Module {
    const codes: StatusCodes
    var fingerprintCreated: bool
    var cancelRequests: nat
    var identifications: seq<Identification>

    constructor (codes: StatusCodes)
      ensures this.codes == codes && !fingerprintCreated && cancelRequests == 0 && identifications == []
    {
      this.codes := codes;
      fingerprintCreated, cancelRequests, identifications := false, 0, [];
    }

    /** `authenticate(signal, listener, predicate, restartCount)`. The
        pre-check failures neither cancel nor start anything; otherwise any
        previous request is cancelled, which never reports anything, and a
        start failure leaves the signal without its cancel hook. */
    method Authenticate(signal: CancellationSignal, listener: Listener, policy: RestartPredicate,
                        restartCount: int, device: Device) returns (il: IdentifyListener?)
      modifies this`fingerprintCreated, this`cancelRequests, this`identifications, signal, listener
      ensures fingerprintCreated
      ensures signal.cancelled == old(signal.cancelled)
      ensures cancelRequests == old(cancelRequests) + (if device.enrolment == Enrolled then 1 else 0)
      ensures StartFailure(device).Some? ==>
        il == null && identifications == old(identifications) &&
        listener.events == old(listener.events) + [StartFailure(device).value] &&
        signal.hookInstalled == old(signal.hookInstalled) && signal.hookRuns == old(signal.hookRuns)
      ensures StartFailure(device).None? ==>
        il != null && fresh(il) && il.owner == this && il.signal == signal && il.listener == listener &&
        il.policy == policy && il.restartCount == restartCount &&
        identifications == old(identifications) + [Identification(signal, restartCount)] &&
        listener.events == old(listener.events) && signal.hookInstalled &&
        signal.hookRuns == old(signal.hookRuns) + (if old(signal.cancelled) then 1 else 0)
    {
      if !fingerprintCreated {
        fingerprintCreated := true;
      }
      match device.enrolment {
        case NotEnrolled =>
          listener.OnFailure(NoFingerprintsRegistered, true, Localized(FingerprintErrorHwNotAvailable),
                             Tag, StatusNoRegisteredFingerprints);
          return null;
        case QueryThrows =>
          listener.OnFailure(HardwareUnavailable, true, Localized(FingerprintErrorHwNotAvailable),
                             Tag, StatusHwUnavailable);
          return null;
        case Enrolled =>
      }
      cancelRequests := cancelRequests + 1;
      if !device.identifyStarts {
        listener.OnFailure(LockedOut, true, NoMessage, Tag, StatusLockedOut);
        return null;
      }
      il := new IdentifyListener(this, policy, signal, listener, restartCount);
      identifications := identifications + [Identification(signal, restartCount)];
      signal.SetOnCancel();
    }
  }

  /** The `IdentifyListener` of one request. */
  class IdentifyListener {
    const owner: Module
    const policy: RestartPredicate
    const signal: CancellationSignal
    const listener: Listener
    const restartCount: int

    constructor (owner: Module, policy: RestartPredicate, signal: CancellationSignal,
                 listener: Listener, restartCount: int)
      ensures this.owner == owner && this.policy == policy && this.signal == signal
      ensures this.listener == listener && this.restartCount == restartCount
    {
      this.owner, this.policy, this.signal, this.listener := owner, policy, signal, listener;
      this.restartCount := restartCount;
    }

    /** `onFinished(status)`: its effect on the predicate and the listener is
        `Step`'s; when `Step` restarts, the new request has its count, or the
        restart's own start failure is reported after the status. */
    method OnFinished(status: int, device: Device) returns (next: IdentifyListener?)
      requires owner.codes.Distinct() && policy.Valid()
      modifies policy, listener, signal, owner`fingerprintCreated, owner`cancelRequests, owner`identifications
      ensures policy.Valid() && signal.cancelled == old(signal.cancelled)
      ensures var r := Step(owner.codes, policy.kind, Run(old(policy.history), restartCount, old(listener.events), true), status);
        && policy.history == r.history
        && (!r.running ==> next == null && listener.events == r.events && owner.identifications == old(owner.identifications))
        && owner.cancelRequests == old(owner.cancelRequests) + (if r.running && device.enrolment == Enrolled then 1 else 0)
        && owner.fingerprintCreated == (old(owner.fingerprintCreated) || r.running)
        && (!(r.running && StartFailure(device).None?) ==>
              signal.hookInstalled == old(signal.hookInstalled) && signal.hookRuns == old(signal.hookRuns))
        && (r.running && StartFailure(device).Some? ==>
              next == null && listener.events == r.events + [StartFailure(device).value] &&
              owner.identifications == old(owner.identifications))
        && (r.running && StartFailure(device).None? ==>
              signal.hookInstalled && signal.hookRuns == old(signal.hookRuns) + (if old(signal.cancelled) then 1 else 0) &&
              next != null && fresh(next) && next.restartCount == r.restartCount && listener.events == r.events &&
              next.owner == owner && next.policy == policy && next.signal == signal && next.listener == listener &&
              owner.identifications == old(owner.identifications) + [Identification(signal, r.restartCount)])
    {
      next := null;
      match Classify(owner.codes, status) {
        case Succeed =>
          listener.OnSuccess(Tag);
        case Ignore =>
        case Report(reason, fatal, message) =>
          listener.OnFailure(reason, fatal, Localized(message), Tag, status);
          if !fatal || reason == Timeout {
            var restart := policy.Invoke(reason, restartCount);
            if restart {
              next := owner.Authenticate(signal, listener, policy, restartCount + 1, device);
            }
          }
      }
    }
  }

  // ---------------------------------------------------------------------
  // Properties of runs

  /** Every reported status reaches the listener exactly once, before any
      restart decision and whatever the predicate answers. */
  lemma ReportsAlwaysReachListener(k: StatusCodes, kind: PolicyKind, r: Run, status: int)
    requires k.Distinct() && Classify(k, status).Report?
    ensures var v := Classify(k, status);
      Step(k, kind, r, status).events == r.events + [Failure(v.reason, v.fatal, Localized(v.message), Tag, status)]
  {
  }

  /** A fatal failure other than a timeout never restarts and leaves the
      predicate untouched. */
  lemma FatalUnknownNeverRestarts(k: StatusCodes, kind: PolicyKind, r: Run, status: int)
    requires k.Distinct() && !k.Listed(status)
    ensures var r' := Step(k, kind, r, status);
      !r'.running && r'.history == r.history && r'.restartCount == r.restartCount
  {
  }

  function Min(a: nat, b: nat): nat {
    if a <= b then a else b
  }

  lemma {:induction false} ReplaySnoc(k: StatusCodes, kind: PolicyKind, r: Run, statuses: seq<int>, status: int)
    requires k.Distinct()
    ensures Replay(k, kind, r, statuses + [status]) == Step(k, kind, Replay(k, kind, r, statuses), status)
    decreases |statuses|
  {
    if statuses == [] {
      assert statuses + [status] == [status];
    } else {
      assert (statuses + [status])[1..] == statuses[1..] + [status];
      ReplaySnoc(k, kind, Step(k, kind, r, statuses[0]), statuses[1..], status);
    }
  }

  /** A fresh request of count 0 under restartTimeouts(n) that meets only
      timeouts: each timeout is reported as fatal, the first n restart with
      the next count, and the (n+1)-th stops. */
  lemma {:induction false} RepeatedTimeouts(k: StatusCodes, n: nat, j: nat)
    requires k.Distinct()
    ensures var r := Replay(k, RestartTimeouts(n), Run([], 0, [], true), Repeat(k.timeoutFailed, j));
      && TimeoutsSeen(r.history) == j && |r.history| == j
      && r.restartCount == Min(j, n)
      && r.running == (j <= n)
      && r.events == Repeat(Failure(Timeout, true, Localized(FingerprintErrorTimeout), Tag, k.timeoutFailed), j)
  {
    if j > 0 {
      RepeatedTimeouts(k, n, j - 1);
      ReplaySnoc(k, RestartTimeouts(n), Run([], 0, [], true), Repeat(k.timeoutFailed, j - 1), k.timeoutFailed);
      var r := Replay(k, RestartTimeouts(n), Run([], 0, [], true), Repeat(k.timeoutFailed, j - 1));
      TimeoutsSeenSnoc(r.history, Consult(Timeout, r.restartCount));
    }
  }

  // ---------------------------------------------------------------------
  // Finding: `fail` reports before it knows whether the sensor restarts.

  /** As written: with the default predicate a first timeout is reported as
      fatal while identification restarts; with neverRestart a quality
      failure is reported as non-fatal while nothing restarts. */
  lemma FailMisreportsRestart(k: StatusCodes)
    requires k.Distinct()
    ensures var r := Step(k, RestartTimeouts(DefaultTimeoutRestarts), Run([], 0, [], true), k.timeoutFailed);
      r.running && |r.events| == 1 && !HonestReport(r.events[0], !r.running)
    ensures var r := Step(k, NeverRestart, Run([], 0, [], true), k.qualityFailed);
      !r.running && |r.events| == 1 && !HonestReport(r.events[0], !r.running)
  {
  }

  /** The evidently intended `fail`: ask the predicate first and report the
      failure as fatal exactly when the sensor is not restarted. */
  function FailCorrected(kind: PolicyKind, r: Run, reason: FailureReason, fatal: bool, message: StringId, status: int): (r': Run)
    ensures r'.history == Fail(kind, r, reason, fatal, message, status).history
    ensures r'.running == Fail(kind, r, reason, fatal, message, status).running
    ensures r'.restartCount == Fail(kind, r, reason, fatal, message, status).restartCount
  {
    var consult := !fatal || reason == Timeout;
    var restart := consult && Answer(kind, r.history, reason);
    Run(if consult then r.history + [Consult(reason, r.restartCount)] else r.history,
        if restart then r.restartCount + 1 else r.restartCount,
        r.events + [Failure(reason, !restart, Localized(message), Tag, status)],
        restart)
  }

  function StepCorrected(k: StatusCodes, kind: PolicyKind, r: Run, status: int): Run
    requires k.Distinct()
  {
    match Classify(k, status)
    case Report(reason, fatal, message) => FailCorrected(kind, r, reason, fatal, message, status)
    case _ => Step(k, kind, r, status)
  }

  /** With the correction every status adds at most one event, and that event
      is fatal exactly when no request is running afterwards. */
  lemma CorrectedReportsAreHonest(k: StatusCodes, kind: PolicyKind, r: Run, status: int)
    requires k.Distinct()
    ensures var r' := StepCorrected(k, kind, r, status);
      r.events <= r'.events && |r'.events| <= |r.events| + 1 &&
      forall i :: |r.events| <= i < |r'.events| ==> HonestReport(r'.events[i], !r'.running)
  {
  }
}
