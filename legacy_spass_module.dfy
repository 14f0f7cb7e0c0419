/**
 * The older Samsung Pass module. Its listener takes
 * `onFailure(tag, reason, fatal, code, message)` and a bare `onSuccess()`,
 * every message is null, and there is no restart predicate: quality, sensor
 * and authentication failures are reported as non-fatal and identification
 * restarts unconditionally.
 */
module LegacySpassModule {
  import opened Reasons
  import opened Listening
  import opened SpassSdk

  /** One call on the older AuthenticationListener. */
  datatype LegacyEvent =
    | LegacySuccess
    | LegacyFailure(moduleTag: int, reason: FailureReason, fatal: bool, errorCode: int)

  class LegacyListener {
    var events: seq<LegacyEvent>

    constructor ()
      ensures events == []
    {
      events := [];
    }

    method OnSuccess()
      modifies this
      ensures events == old(events) + [LegacySuccess]
    {
      events := events + [LegacySuccess];
    }

    method OnFailure(moduleTag: int, reason: FailureReason, fatal: bool, errorCode: int)
      modifies this
      ensures events == old(events) + [LegacyFailure(moduleTag, reason, fatal, errorCode)]
    {
      events := events + [LegacyFailure(moduleTag, reason, fatal, errorCode)];
    }
  }

  datatype Verdict = Succeed | Report(reason: FailureReason, fatal: bool)

  /** The older switch has no case for a user cancel, so it falls to the
      default: a fatal UNKNOWN. */
  function Classify(k: StatusCodes, status: int): (v: Verdict)
    requires k.Distinct()
    ensures v == Succeed <==> status == k.authSuccess || status == k.passwordSuccess
    ensures v == Report(SensorFailed, false) <==> status == k.qualityFailed || status == k.sensorFailed
    ensures v == Report(AuthenticationFailed, false) <==> status == k.authFailed
    ensures v == Report(Timeout, true) <==> status == k.timeoutFailed
    ensures v == Report(Unknown, true) <==> !k.Listed(status) || status == k.userCancelled
  {
    if status == k.authSuccess || status == k.passwordSuccess then Succeed
    else if status == k.qualityFailed || status == k.sensorFailed then Report(SensorFailed, false)
    else if status == k.authFailed then Report(AuthenticationFailed, false)
    else if status == k.timeoutFailed then Report(Timeout, true)
    else Report(Unknown, true)
  }

  /** A status restarts identification exactly when it is reported as a
      non-fatal failure. */
  predicate Restarts(v: Verdict) {
    v.Report? && !v.fatal
  }

  /** The pre-check and start failures, all fatal and without a message. */
  function StartFailure(d: Device): (r: Option<LegacyEvent>)
    ensures r.None? <==> d.enrolment == Enrolled && d.identifyStarts
    ensures r.Some? ==> r.value.LegacyFailure? && r.value.fatal && r.value.moduleTag == Tag
    ensures r.Some? ==> (r.value.errorCode == StatusNoRegisteredFingerprints <==> d.enrolment == NotEnrolled)
    ensures r.Some? ==> (r.value.errorCode == StatusHwUnavailable <==> d.enrolment == QueryThrows)
    ensures r.Some? ==> (r.value.errorCode == StatusLockedOut <==> d.enrolment == Enrolled)
    ensures r.Some? ==> (r.value.reason == NoFingerprintsRegistered <==> d.enrolment == NotEnrolled)
    ensures r.Some? ==> (r.value.reason == HardwareUnavailable <==> d.enrolment == QueryThrows)
    ensures r.Some? ==> (r.value.reason == LockedOut <==> d.enrolment == Enrolled)
  {
    match d.enrolment
    case NotEnrolled => Some(LegacyFailure(Tag, NoFingerprintsRegistered, true, StatusNoRegisteredFingerprints))
    case QueryThrows => Some(LegacyFailure(Tag, HardwareUnavailable, true, StatusHwUnavailable))
    case Enrolled =>
      if d.identifyStarts then None
      else Some(LegacyFailure(Tag, LockedOut, true, StatusLockedOut))
  }

  /** What a run of identify callbacks has done: what the listener heard,
      how many restarts it made, and whether a request is running. */
  datatype Run = Run(events: seq<LegacyEvent>, restarts: nat, running: bool)

  /** The effect of one `onFinished(status)`, when every restart starts. */
  function Step(k: StatusCodes, r: Run, status: int): Run
    requires k.Distinct()
  {
    match Classify(k, status)
    case Succeed => Run(r.events + [LegacySuccess], r.restarts, false)
    case Report(reason, fatal) =>
      Run(r.events + [LegacyFailure(Tag, reason, fatal, status)],
          if fatal then r.restarts else r.restarts + 1, !fatal)
  }

  function Replay(k: StatusCodes, r: Run, statuses: seq<int>): Run
    requires k.Distinct()
    decreases |statuses|
  {
    if statuses == [] then r else Replay(k, Step(k, r, statuses[0]), statuses[1..])
  }

  class Module {
    const codes: StatusCodes
    var fingerprintCreated: bool
    var cancelRequests: nat
    var identifications: seq<CancellationSignal>

    constructor (codes: StatusCodes)
      ensures this.codes == codes && !fingerprintCreated && cancelRequests == 0 && identifications == []
    {
      this.codes := codes;
      fingerprintCreated, cancelRequests, identifications := false, 0, [];
    }

    /** `authenticate(signal, listener)`: the same pre-check, cancel and start
        sequence as the current module, without a predicate or a count. */
    method Authenticate(signal: CancellationSignal, listener: LegacyListener, device: Device)
      returns (il: IdentifyListener?)
      modifies this`fingerprintCreated, this`cancelRequests, this`identifications, signal, listener
      ensures fingerprintCreated
      ensures signal.cancelled == old(signal.cancelled)
      ensures cancelRequests == old(cancelRequests) + (if device.enrolment == Enrolled then 1 else 0)
      ensures StartFailure(device).Some? ==>
        il == null && identifications == old(identifications) &&
        listener.events == old(listener.events) + [StartFailure(device).value] &&
        signal.hookInstalled == old(signal.hookInstalled) && signal.hookRuns == old(signal.hookRuns)
      ensures StartFailure(device).None? ==>
        il != null && fresh(il) && il.owner == this && il.signal == signal && il.listener == listener &&
        identifications == old(identifications) + [signal] &&
        listener.events == old(listener.events) && signal.hookInstalled &&
        signal.hookRuns == old(signal.hookRuns) + (if old(signal.cancelled) then 1 else 0)
    {
      if !fingerprintCreated {
        fingerprintCreated := true;
      }
      match device.enrolment {
        case NotEnrolled =>
          listener.OnFailure(Tag, NoFingerprintsRegistered, true, StatusNoRegisteredFingerprints);
          return null;
        case QueryThrows =>
          listener.OnFailure(Tag, HardwareUnavailable, true, StatusHwUnavailable);
          return null;
        case Enrolled =>
      }
      cancelRequests := cancelRequests + 1;
      if !device.identifyStarts {
        listener.OnFailure(Tag, LockedOut, true, StatusLockedOut);
        return null;
      }
      il := new IdentifyListener(this, signal, listener);
      identifications := identifications + [signal];
      signal.SetOnCancel();
    }
  }

  class IdentifyListener {
    const owner: Module
    const signal: CancellationSignal
    const listener: LegacyListener

    constructor (owner: Module, signal: CancellationSignal, listener: LegacyListener)
      ensures this.owner == owner && this.signal == signal && this.listener == listener
    {
      this.owner, this.signal, this.listener := owner, signal, listener;
    }

    /** `onFinished(status)`: its effect on the listener is `Step`'s; a
        non-fatal failure authenticates again, whose own start failure is
        then reported after the status. */
    method OnFinished(status: int, device: Device) returns (next: IdentifyListener?)
      requires owner.codes.Distinct()
      modifies listener, signal, owner`fingerprintCreated, owner`cancelRequests, owner`identifications
      ensures signal.cancelled == old(signal.cancelled)
      ensures var r := Step(owner.codes, Run(old(listener.events), 0, true), status);
        && (!r.running ==> next == null && listener.events == r.events && owner.identifications == old(owner.identifications))
        && owner.cancelRequests == old(owner.cancelRequests) + (if r.running && device.enrolment == Enrolled then 1 else 0)
        && owner.fingerprintCreated == (old(owner.fingerprintCreated) || r.running)
        && (!(r.running && StartFailure(device).None?) ==>
              signal.hookInstalled == old(signal.hookInstalled) && signal.hookRuns == old(signal.hookRuns))
        && (r.running && StartFailure(device).Some? ==>
              next == null && listener.events == r.events + [StartFailure(device).value] &&
              owner.identifications == old(owner.identifications))
        && (r.running && StartFailure(device).None? ==>
              signal.hookInstalled && signal.hookRuns == old(signal.hookRuns) + (if old(signal.cancelled) then 1 else 0) &&
              next != null && fresh(next) && listener.events == r.events &&
              next.owner == owner && next.signal == signal && next.listener == listener &&
              owner.identifications == old(owner.identifications) + [signal])
    {
      next := null;
      match Classify(owner.codes, status) {
        case Succeed =>
          listener.OnSuccess();
        case Report(reason, fatal) =>
          listener.OnFailure(Tag, reason, fatal, status);
          if !fatal {
            next := owner.Authenticate(signal, listener, device);
          }
      }
    }
  }

  // ---------------------------------------------------------------------
  // Properties of runs

  /** Exactly the quality, sensor and authentication failures restart, and a
      request is running after a status exactly when it restarted. Success,
      timeout, user cancel and unlisted statuses all end identification. */
  lemma RestartedStatuses(k: StatusCodes, r: Run, status: int)
    requires k.Distinct()
    ensures Restarts(Classify(k, status)) <==> status in {k.qualityFailed, k.sensorFailed, k.authFailed}
    ensures Step(k, r, status).running <==> Restarts(Classify(k, status))
  {
  }

  /** Unlike the current module, every report keeps the listener contract:
      fatal exactly when no request is running afterwards. */
  lemma ReportsAreHonest(k: StatusCodes, r: Run, status: int)
    requires k.Distinct()
    ensures var r' := Step(k, r, status);
      |r'.events| == |r.events| + 1 && r.events <= r'.events &&
      (r'.events[|r.events|].LegacyFailure? ==> (r'.events[|r.events|].fatal <==> !r'.running))
  {
  }

  /** A user cancel is reported as a fatal UNKNOWN with the cancel status. */
  lemma UserCancelIsFatalUnknown(k: StatusCodes, r: Run)
    requires k.Distinct()
    ensures Step(k, r, k.userCancelled).events == r.events + [LegacyFailure(Tag, Unknown, true, k.userCancelled)]
  {
  }

  lemma {:induction false} ReplaySnoc(k: StatusCodes, r: Run, statuses: seq<int>, status: int)
    requires k.Distinct()
    ensures Replay(k, r, statuses + [status]) == Step(k, Replay(k, r, statuses), status)
    decreases |statuses|
  {
    if statuses == [] {
      assert statuses + [status] == [status];
    } else {
      assert (statuses + [status])[1..] == statuses[1..] + [status];
      ReplaySnoc(k, Step(k, r, statuses[0]), statuses[1..], status);
    }
  }

  /** Restarts are unbounded: any number of non-fatal statuses in a row keeps
      identification running, one restart and one non-fatal report each. */
  lemma {:induction false} NonFatalRestartsForever(k: StatusCodes, status: int, j: nat)
    requires k.Distinct() && status in {k.qualityFailed, k.sensorFailed, k.authFailed}
    ensures var r := Replay(k, Run([], 0, true), Repeat(status, j));
      r.running && r.restarts == j && |r.events| == j &&
      forall i :: 0 <= i < j ==> r.events[i].LegacyFailure? && !r.events[i].fatal && r.events[i].errorCode == status
  {
    if j > 0 {
      NonFatalRestartsForever(k, status, j - 1);
      ReplaySnoc(k, Run([], 0, true), Repeat(status, j - 1), status);
    }
  }
}
