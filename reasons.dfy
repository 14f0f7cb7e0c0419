/**
 * The vocabulary shared by every part of Reprint: failure categories, the
 * messages that accompany a failure, the events a listener receives, and the
 * record that stands for a registered backend module.
 */
module Reasons {

  datatype Option<+T> = None | Some(value: T)

  /** General categories for authentication failures.
      The enum file spells two of them NO_SENSOR and LOCKOUT while every call
      site uses NO_HARDWARE and LOCKED_OUT; one constructor covers each pair. */
  datatype FailureReason =
    | NoHardware                 // NO_SENSOR / NO_HARDWARE
    | HardwareUnavailable
    | NoFingerprintsRegistered
    | SensorFailed
    | LockedOut                  // LOCKOUT / LOCKED_OUT
    | Timeout
    | AuthenticationFailed
    | Unknown

  /** The localized string resources the core and the modules report. */
  datatype StringId =
    | FingerprintErrorHwNotAvailable
    | FingerprintNotRecognized
    | FingerprintErrorUnableToProcess
    | FingerprintErrorTimeout
    | FingerprintAcquiredPartial
    | FingerprintAcquiredInsufficient

  /** The error message handed to a listener: a localized resource, text
      supplied by the fingerprint SDK, or null. */
  datatype Message = Localized(id: StringId) | SdkText(text: string) | NoMessage

  /** One call on an AuthenticationListener. */
  datatype Event =
    | Success(moduleTag: int)
    | Failure(reason: FailureReason, fatal: bool, message: Message, moduleTag: int, errorCode: int)
  {
    /** A fatal failure or a success: the sensor is no longer running. */
    predicate Terminal() {
      Success? || fatal
    }
  }

  /** The listener contract: a failure is fatal exactly when the sensor is no
      longer running; a non-fatal one promises more callbacks. */
  predicate HonestReport(e: Event, sensorStopped: bool) {
    e.Failure? ==> (e.fatal <==> sensorStopped)
  }

  /** `n` copies of `x`. */
  function Repeat<T>(x: T, n: nat): (s: seq<T>)
    ensures |s| == n && forall i :: 0 <= i < n ==> s[i] == x
  {
    if n == 0 then [] else Repeat(x, n - 1) + [x]
  }

  /** A registered module as the orchestration layer sees it: its class tag
      and the answers of its hardware and enrolment queries. */
  datatype ModuleInfo = ModuleInfo(tag: int, hwPresent: bool, enrolled: bool)
}

/** An AuthenticationListener modelled as the log of calls it received, and
    the cancellation signal shared between the core and a module. */
module Listening {
  import opened Reasons

  class Listener {
    var events: seq<Event>

    constructor ()
      ensures events == []
    {
      events := [];
    }

    method OnSuccess(moduleTag: int)
      modifies this
      ensures events == old(events) + [Success(moduleTag)]
    {
      events := events + [Success(moduleTag)];
    }

    method OnFailure(reason: FailureReason, fatal: bool, message: Message, moduleTag: int, errorCode: int)
      modifies this
      ensures events == old(events) + [Failure(reason, fatal, message, moduleTag, errorCode)]
    {
      events := events + [Failure(reason, fatal, message, moduleTag, errorCode)];
    }
  }

  /** A CancellationSignal: a flag that goes from uncancelled to cancelled
      once, plus an optional on-cancel hook that runs when it does. */
  class CancellationSignal {
    var cancelled: bool
    var hookInstalled: bool
    var hookRuns: nat

    constructor ()
      ensures !cancelled && !hookInstalled && hookRuns == 0
    {
      cancelled, hookInstalled, hookRuns := false, false, 0;
    }

    /** Cancelling is idempotent: the hook runs only on the first call. */
    method Cancel()
      modifies this
      ensures cancelled && hookInstalled == old(hookInstalled)
      ensures hookRuns == if !old(cancelled) && hookInstalled then old(hookRuns) + 1 else old(hookRuns)
    {
      if !cancelled {
        cancelled := true;
        if hookInstalled {
          hookRuns := hookRuns + 1;
        }
      }
    }

    /** Installing a hook on a signal that is already cancelled runs it at once. */
    method SetOnCancel()
      modifies this
      ensures hookInstalled && cancelled == old(cancelled)
      ensures hookRuns == if old(cancelled) then old(hookRuns) + 1 else old(hookRuns)
    {
      hookInstalled := true;
      if cancelled {
        hookRuns := hookRuns + 1;
      }
    }
  }
}
