# Reprint authentication orchestration, modelled in Dafny

Reprint lets an Android application ask for fingerprint authentication without
depending on one vendor's SDK. This project models the logic that decides what
happens during a request:

- **Restart predicates** (`restart_predicates.dfy`, module `RestartPredicates`).
  `restartTimeouts(n)` answers "restart" for every reason except TIMEOUT. It
  restarts a TIMEOUT only while its private counter of timeouts seen is below
  `n`. `neverRestart` always answers no. `defaultPredicate` is
  `restartTimeouts(5)`. The predicate is a class. Its real counter
  `timeoutRestarts` is tied by `Valid()` to a ghost history of consultations.
  The pure functions `Answer` and `Answers` specify its answers.
- **The single-slot core** (`reprint_internal.dfy`, modules `Core` and
  `Reprint`).
  - `ReprintInternal` holds at most one module and the cancellation-signal
    slot.
  - `authenticate` first runs its pre-flight checks: NO_HARDWARE, then
    NO_FINGERPRINTS_REGISTERED.
  - The restarting wrapper listener re-authenticates on a TIMEOUT while its
    budget lasts.
  - The static `Reprint` facade chooses the restart predicate.
  - A module is the record `(tag, hwPresent, enrolled)`. Handing the request
    to a module is recorded in a `starts` log.
- **The older list registry** (`library_reprint.dfy`, module `LibraryReprint`).
  - It keeps an ordered list whose tags are pairwise distinct.
  - It answers "does any module ...?" queries.
  - It authenticates with the first module, in registration order, that has
    both hardware and fingerprints.
- **The platform backends** (`platform_module.dfy`, module `PlatformModule`):
  Marshmallow (tag 1) and Pie (tag 2).
  - Their `AuthCallback` classes are identical apart from the tag. Compare
    `MarshmallowReprintModule.java:226-272` with `PieReprintModule.java:219-265`.
    They are modelled once, parametrised by `Backend`.
  - Their missing-service and NullPointerException paths differ only in one
    message.
  - `Step` and `Replay` give the effect of a sequence of callbacks on a pure
    `Run` state. Each callback method is proved to change the predicate, the
    signal and the listener exactly as `Step` says.
- **The Samsung Pass backends**: the current revision (`spass_module.dfy`,
  modules `SpassSdk` and `SpassModule`) and the older one
  (`legacy_spass_module.dfy`, module `LegacySpassModule`).
  - The SDK's status values are not visible, so they are a record of
    integers, `StatusCodes`. The only thing assumed of them is that the
    switch's labels are distinct.
  - `onFinished` is a pure classification followed by the `fail` restart
    rule. The older revision has its own listener signature and restarts
    unconditionally.

The listener is modelled as the log of the calls it received. The cancellation
signal is an object with a `cancelled` flag and an optional on-cancel hook.
Messages are resource identifiers or SDK text, not strings.

Where the code disagrees with its own documentation, the model follows the code:

- **Non-fatal failures are not retried silently.** The doc of
  `Reprint.authenticate(listener, restartPredicate)` (`Reprint.java:103-106`)
  says that when the predicate answers true the sensor stays on and the
  listener is not called.
  - The platform modules report every help message as a non-fatal
    SENSOR_FAILED, whatever the predicate answers. See `HelpAlwaysReported`
    and `HelpsThenSuccessAllHeard`: three help messages and then a match reach
    the caller as four events.
  - The current Samsung Pass module also notifies the listener before it
    decides whether to restart (`ReportsAlwaysReachListener`).
- **The platform modules consult the predicate for the wrong failures.** The
  `RestartPredicate` doc (`Reprint.java:18-26`) says it is asked "after the
  given non-fatal failure". The platform modules ask it about TIMEOUT errors,
  which are otherwise reported as fatal, and about help messages.
- **The platform modules keep the restart count on a timeout restart.** The
  same doc says `restartCount` is the number of times the call has already
  been restarted. The platform modules restart a timeout with the same
  `restartCount`; only help messages advance it.
- **A fatal report does not always mean the sensor stopped.** The listener
  contract (`AuthenticationListener.java:18-20`) says a failure is fatal
  exactly when the sensor is no longer running. The two breaches are under
  "## Findings".
- **The core has two entry points.** `ReprintInternal.authenticate` takes
  `(listener, boolean, int)`, while the facade passes a predicate
  (`Reprint.java:108-110`).
  - Both are modelled: `Core.ReprintInternal.Authenticate` models the code as
    written, and `Core.ReprintInternal.AuthenticateWithPredicate` models the
    facade's entry point.
  - They share the pre-flight checks.
  - The doc of the boolean entry point (`ReprintInternal.java:78-83`) says
    `restartCount` is used when `restartOnNonFatal` is false and ignored when
    it is true. The code (`ReprintInternal.java:99-103`) does the reverse: it
    wraps the listener with `restartCount` exactly when `restartOnNonFatal`
    is true. `Core.ReprintInternal.Authenticate` states the code's choice.
    Which of the two was meant cannot be told from the code, so this is not
    listed as a finding.
- **`initialize` does not register "the spass module, if included, followed
  by the marshmallow module"** (`Reprint.java:30-33`). It registers one of
  the two, and as written never the Samsung Pass one (see "## Findings").
- **Reason names differ between files.** The reason enum's file spells two
  reasons NO_SENSOR and LOCKOUT, while every call site uses NO_HARDWARE and
  LOCKED_OUT. One constructor stands for each pair.

## Model

| member | source | states |
|---|---|---|
| RestartPredicates.RestartPredicate.Invoke | core/src/main/java/com/github/ajalt/reprint/core/RestartPredicates.java:16-18 | The answer is `Answer` on the calls seen so far. Every call is recorded. The private counter advances exactly on a TIMEOUT call of a `restartTimeouts` predicate, and the counter invariant is kept. |
| RestartPredicates.RestartTimeoutsPredicate | core/src/main/java/com/github/ajalt/reprint/core/RestartPredicates.java:12-20 | Returns a new instance whose own counter starts at 0 and which has seen no call. |
| RestartPredicates.DefaultPredicate | core/src/main/java/com/github/ajalt/reprint/core/RestartPredicates.java:23-25 | Returns a fresh `restartTimeouts(5)`. |
| RestartPredicates.NeverRestartPredicate | core/src/main/java/com/github/ajalt/reprint/core/RestartPredicates.java:28-34 | Returns a fresh `neverRestart` predicate. |
| RestartPredicates.AnswersAt | core/src/main/java/com/github/ajalt/reprint/core/RestartPredicates.java:17 | In a series of calls, the i-th answer depends only on the calls before it. |
| RestartPredicates.NonTimeoutsAlwaysRestart | tests/src/test/java/com/github/ajalt/reprint/core/RestartPredicateTest.java:14-22 | `restartTimeouts(n)` says yes to every non-timeout reason, whatever came before and whatever the count. |
| RestartPredicates.TimeoutBudget | core/src/main/java/com/github/ajalt/reprint/core/RestartPredicates.java:17 | A TIMEOUT call is answered yes iff fewer than n earlier calls were timeouts. |
| RestartPredicates.ConsecutiveTimeouts | tests/src/test/java/com/github/ajalt/reprint/core/RestartPredicateTest.java:37-43 | In a series of timeouts only, exactly the first n are answered yes. |
| RestartPredicates.CountIgnored | core/src/main/java/com/github/ajalt/reprint/core/RestartPredicates.java:16-17 | Answers do not depend on the `restartCount` argument, nor on which non-timeout reasons came before. Only the number of earlier timeouts matters. |
| RestartPredicates.NeverRestartNeverRestarts | tests/src/test/java/com/github/ajalt/reprint/core/RestartPredicateTest.java:60-65 | `neverRestart` answers no to every call. |
| RestartPredicates.DefaultPassesFiveTimeouts | tests/src/test/java/com/github/ajalt/reprint/core/RestartPredicateTest.java:25-34 | Default predicate: five timeouts pass and the sixth fails. |
| RestartPredicates.DefaultMixedFailuresAndTimeouts | tests/src/test/java/com/github/ajalt/reprint/core/RestartPredicateTest.java:46-57 | Default predicate, AUTHENTICATION_FAILED, TIMEOUT, AUTHENTICATION_FAILED, then five timeouts: seven yeses, then a no. Non-timeouts spend no budget. |
| Core.Registered | core/src/main/java/com/github/ajalt/reprint/core/ReprintInternal.java:55-65 | The slot after registration is the old one or the candidate. It changes to the candidate exactly when the candidate has hardware and its tag differs from the stored module's (or none is stored), so the last such module registered wins. |
| Core.Preflight | core/src/main/java/com/github/ajalt/reprint/core/ReprintInternal.java:86-96 | No failure iff hardware and fingerprints are present. A failure is fatal, with tag 0 and code 0. It is NO_HARDWARE exactly when hardware is missing and NO_FINGERPRINTS_REGISTERED exactly when hardware is present. |
| Core.TimeoutCountdown | core/src/main/java/com/github/ajalt/reprint/core/ReprintInternal.java:117-134 | With a module and a signal stored, k timeouts in a row through the chain of wrappers restart silently min(k, budget) times (none for a budget of 0 or less). Each restart spends one unit of budget, and every timeout past the budget is forwarded to the caller. |
| Core.NonTimeoutForwarded | core/src/main/java/com/github/ajalt/reprint/core/ReprintInternal.java:125-131 | A failure other than TIMEOUT is forwarded at once, whatever the budget and the failures before it, and spends no budget. |
| Core.NoSignalForwardsAll | core/src/main/java/com/github/ajalt/reprint/core/ReprintInternal.java:126-130 | Once `cancelAuthentication` has cleared the signal, the wrapper restarts nothing and every failure reaches the caller in order. |
| Core.ReprintInternal.Initialize | core/src/main/java/com/github/ajalt/reprint/core/ReprintInternal.java:31-53 | Keeps the context. Loads nothing when a module is stored or the SDK level is below 17. Otherwise it registers the Samsung Pass module if it loads, and the Marshmallow module if not. Loading uses the corrected constructor lookup (see "## Findings"). |
| Core.SpassNeverLoads | core/src/main/java/com/github/ajalt/reprint/core/ReprintInternal.java:41-50 | As written, loading Samsung Pass fails for every class found, so an empty slot always gets the Marshmallow module and never the Samsung Pass one. |
| Core.SpassLoadsCorrected | core/src/main/java/com/github/ajalt/reprint/core/ReprintInternal.java:41-50 | With the `(Context, Logger)` lookup, exactly a class with that constructor loads, as its own module. One with hardware is then registered; otherwise Marshmallow is tried. |
| Core.ReprintInternal.RegisterModule | core/src/main/java/com/github/ajalt/reprint/core/ReprintInternal.java:55-65 | The slot becomes `Registered(old slot, candidate)`, and a stored module still has hardware. |
| Core.ReprintInternal.IsHardwarePresent | core/src/main/java/com/github/ajalt/reprint/core/ReprintInternal.java:67-69 | False with no module stored, otherwise the module's hardware answer. |
| Core.ReprintInternal.HasFingerprintRegistered | core/src/main/java/com/github/ajalt/reprint/core/ReprintInternal.java:71-73 | False with no module stored, otherwise the module's enrolment answer. |
| Core.ReprintInternal.Authenticate | core/src/main/java/com/github/ajalt/reprint/core/ReprintInternal.java:85-104 | If a pre-flight check fails, the listener gets exactly that failure and neither signal nor module is touched. Otherwise a fresh, uncancelled signal replaces the stored one without cancelling it. It is handed to the module with the wrapper when `restartOnNonFatal` holds, and with the caller's listener otherwise. |
| Core.ReprintInternal.AuthenticateWithPredicate | core/src/main/java/com/github/ajalt/reprint/core/Reprint.java:93-110 | The same pre-flight behaviour. On success, a fresh signal and the caller's predicate are handed to the module with the caller's listener. |
| Core.ReprintInternal.CancelAuthentication | core/src/main/java/com/github/ajalt/reprint/core/ReprintInternal.java:106-111 | A stored signal is cancelled (its hook runs once) and the slot is cleared. With none stored, nothing happens, so a second call is harmless. |
| Core.Deliver | core/src/main/java/com/github/ajalt/reprint/core/ReprintInternal.java:119-131 | The original listener receives exactly the event passed on, success or failure, unchanged. |
| Core.ReprintInternal.Notify | core/src/main/java/com/github/ajalt/reprint/core/ReprintInternal.java:117-134 | A direct listener gets the event. The wrapper re-authenticates with the stored signal and one less budget on a restartable TIMEOUT, telling the caller nothing. It forwards every other event unchanged. |
| Core.RegisteredHasHardware | core/src/main/java/com/github/ajalt/reprint/core/ReprintInternal.java:60-62 | Registration keeps the stored module one with hardware. |
| Core.RegisterTwice | core/src/main/java/com/github/ajalt/reprint/core/Reprint.java:58-59 | Registering the same module twice is registering it once. |
| Core.FirstOfATagWins | core/src/main/java/com/github/ajalt/reprint/core/ReprintInternal.java:56-58 | Once a module with hardware is registered, a later module of the same tag is a no-op, so the original instance stays. |
| Core.HardwareAfterRegister | core/src/main/java/com/github/ajalt/reprint/core/ReprintInternal.java:60-69 | After registering, hardware is present iff a module was already stored or the new one has hardware. |
| Reprint.RegisterModule | core/src/main/java/com/github/ajalt/reprint/core/Reprint.java:63-65 | Forwards to the core's registration. |
| Reprint.Authenticate | core/src/main/java/com/github/ajalt/reprint/core/Reprint.java:89-91 | Behaves as authenticate with a fresh default predicate, `restartTimeouts(5)` with no calls seen: after a passing pre-flight, the registered module is started with a fresh, uncancelled signal and the caller's listener. |
| Reprint.AuthenticateWithRestartPredicate | core/src/main/java/com/github/ajalt/reprint/core/Reprint.java:96-110 | Pre-flight failures are reported at once, fatal, and nothing starts. Otherwise the module gets a fresh signal and the caller's predicate. |
| Reprint.AuthenticateWithoutRestart | core/src/main/java/com/github/ajalt/reprint/core/Reprint.java:120-122 | Behaves as authenticate with a fresh `neverRestart` predicate: after a passing pre-flight, the registered module is started with a fresh, uncancelled signal and the caller's listener. |
| Reprint.CancelAuthentication | core/src/main/java/com/github/ajalt/reprint/core/Reprint.java:124-131 | With no active authentication it changes nothing. Otherwise the signal is cancelled and cleared. |
| LibraryReprint.FirstQualifying | library/src/main/java/com/github/ajalt/library/Reprint.java:44-50 | Returns the least index whose module has hardware and fingerprints, or none when no module qualifies. |
| LibraryReprint.FirstQualifyingAppend | library/src/main/java/com/github/ajalt/library/Reprint.java:21 | Appending a module never changes an earlier choice. It is chosen only when nothing before it qualifies. |
| LibraryReprint.ListRegistry.RegisterModule | library/src/main/java/com/github/ajalt/library/Reprint.java:15-23 | Fails with the duplicate-tag error iff a registered module has the same tag, changing nothing. Otherwise it appends at the end. Tags stay pairwise distinct. |
| LibraryReprint.ListRegistry.IsHardwarePresent | library/src/main/java/com/github/ajalt/library/Reprint.java:25-30 | True iff some registered module reports hardware. |
| LibraryReprint.ListRegistry.HasFingerprintRegistered | library/src/main/java/com/github/ajalt/library/Reprint.java:32-37 | True iff some registered module reports fingerprints. |
| LibraryReprint.ListRegistry.Authenticate | library/src/main/java/com/github/ajalt/library/Reprint.java:39-53 | Fails iff no module qualifies: "no modules" on an empty list, "none available" otherwise, creating no signal. Otherwise it stores a fresh signal and starts `FirstQualifying` with it. |
| LibraryReprint.ListRegistry.CancelAuthentication | library/src/main/java/com/github/ajalt/library/Reprint.java:55-60 | A stored signal is cancelled and cleared. With none stored, nothing happens. |
| PlatformModule.ErrorReason | core/src/main/java/com/github/ajalt/reprint/module/marshmallow/MarshmallowReprintModule.java:228-246 | Maps 1 to HARDWARE_UNAVAILABLE, 2 and 4 to SENSOR_FAILED, 3 to TIMEOUT and 7 to LOCKED_OUT. Code 5 is suppressed, and every other code maps to UNKNOWN. Each is stated both ways. |
| PlatformModule.StartFailure | core/src/main/java/com/github/ajalt/reprint/module/marshmallow/MarshmallowReprintModule.java:187-209 | No failure iff the service exists and its `authenticate` does not throw. Otherwise the failure is UNKNOWN, fatal, with the module's tag and code 5. |
| PlatformModule.Module.Authenticate | core/src/main/java/com/github/ajalt/reprint/module/pie/PieReprintModule.java:176-203 | Reports the start failure and starts nothing. Otherwise it starts one request with a fresh callback carrying the signal, listener, predicate and count. |
| PlatformModule.AuthCallback.OnAuthenticationError | core/src/main/java/com/github/ajalt/reprint/module/marshmallow/MarshmallowReprintModule.java:226-253 | Its effect is `Step` on an error. CANCELED is dropped, and only TIMEOUT consults the predicate. A permitted timeout re-authenticates with the same count and tells the listener nothing, and a failed restart reports its start failure. Otherwise there is one fatal failure. |
| PlatformModule.AuthCallback.OnAuthenticationHelp | core/src/main/java/com/github/ajalt/reprint/module/marshmallow/MarshmallowReprintModule.java:255-261 | Its effect is `Step` on a help: SENSOR_FAILED is consulted with the current count, and the count then rises by 1. A refusal cancels the signal, and a non-fatal SENSOR_FAILED is reported. |
| PlatformModule.AuthCallback.OnAuthenticationSucceeded | core/src/main/java/com/github/ajalt/reprint/module/pie/PieReprintModule.java:256-259 | Its effect is `Step` on a match: `onSuccess` with the module's tag. |
| PlatformModule.AuthCallback.OnAuthenticationFailed | core/src/main/java/com/github/ajalt/reprint/module/pie/PieReprintModule.java:261-265 | Its effect is `Step` on a non-match: a non-fatal AUTHENTICATION_FAILED with code 1001. |
| PlatformModule.CanceledIsSilent | core/src/main/java/com/github/ajalt/reprint/module/pie/PieReprintModule.java:236-238 | A CANCELED error changes nothing at all. |
| PlatformModule.OtherErrorsAreFatal | core/src/main/java/com/github/ajalt/reprint/module/pie/PieReprintModule.java:241-245 | An error other than TIMEOUT and CANCELED leaves the predicate and count alone. It is exactly one fatal failure. |
| PlatformModule.ConsecutiveTimeoutErrors | core/src/main/java/com/github/ajalt/reprint/module/marshmallow/MarshmallowReprintModule.java:248-252 | Take k timeouts on a fresh `restartTimeouts(n)` request. The first n restart silently, and each later one is a fatal TIMEOUT. The count stays 0 and the signal is not cancelled. |
| PlatformModule.DefaultSixTimeouts | core/src/main/java/com/github/ajalt/reprint/module/pie/PieReprintModule.java:241-245 | With the default predicate, six timeouts in a row reach the caller as one fatal TIMEOUT. |
| PlatformModule.HelpAlwaysReported | core/src/main/java/com/github/ajalt/reprint/module/pie/PieReprintModule.java:249-254 | A help is always one non-fatal SENSOR_FAILED report. It adds one consultation and raises the count by one. |
| PlatformModule.HelpsThenSuccessAllHeard | core/src/main/java/com/github/ajalt/reprint/module/marshmallow/MarshmallowReprintModule.java:256-265 | Default predicate, three help messages then a match: the caller hears four events. |
| PlatformModule.HelpLeavesCallerWaiting | core/src/main/java/com/github/ajalt/reprint/module/marshmallow/MarshmallowReprintModule.java:257-260 | With `neverRestart`, a help followed by the resulting CANCELED leaves the signal cancelled. The caller's only event is non-fatal, contrary to the listener contract. |
| PlatformModule.StepCorrected | core/src/main/java/com/github/ajalt/reprint/core/AuthenticationListener.java:18-20 | A help is reported with `fatal` equal to the predicate's refusal. Every other callback is as in `Step`. |
| PlatformModule.CorrectedHelpIsHonest | core/src/main/java/com/github/ajalt/reprint/core/AuthenticationListener.java:18-20 | With the correction, a help report on a running sensor is fatal exactly when the sensor was stopped. |
| PlatformModule.CorrectedHelpEndsRun | core/src/main/java/com/github/ajalt/reprint/core/AuthenticationListener.java:18-20 | With the correction, the scenario of `HelpLeavesCallerWaiting` ends with a terminal event. |
| SpassModule.Classify | reprint_spass/src/main/java/com/github/ajalt/reprint/module/spass/SpassReprintModule.java:159-184 | Maps each status both ways. Both successes give `onSuccess`. QUALITY and SENSOR give a non-fatal SENSOR_FAILED with their own messages, and AUTHENTIFICATION_FAILED a non-fatal AUTHENTICATION_FAILED. TIMEOUT gives a fatal TIMEOUT, USER_CANCELLED nothing, and any unlisted status a fatal UNKNOWN. |
| SpassModule.ConsultedStatuses | reprint_spass/src/main/java/com/github/ajalt/reprint/module/spass/SpassReprintModule.java:190-195 | The predicate is consulted exactly for the quality, sensor, authentication and timeout statuses. It is never consulted for a fatal non-timeout failure. |
| SpassModule.StartFailure | reprint_spass/src/main/java/com/github/ajalt/reprint/module/spass/SpassReprintModule.java:130-215 | No failure iff a finger is enrolled and identification starts. Otherwise the failure is fatal with tag 2: code 1001 iff no finger, 1002 iff the query throws, 1003 iff identification would not start. |
| SpassModule.Module.Authenticate | reprint_spass/src/main/java/com/github/ajalt/reprint/module/spass/SpassReprintModule.java:130-215 | The fingerprint object is created lazily. A pre-check failure neither cancels nor starts anything. Otherwise the old request is cancelled with no report. A start failure reports LOCKED_OUT and installs no hook. Otherwise a request with the count is started and the cancel hook installed; it runs at once on a cancelled signal. |
| SpassModule.IdentifyListener.OnFinished | reprint_spass/src/main/java/com/github/ajalt/reprint/module/spass/SpassReprintModule.java:159-195 | Its effect on predicate and listener is `Step`: report first, then restart with count + 1 iff the failure is non-fatal or a timeout and the predicate agrees. A failed restart reports its start failure after the status and records no identification. A restart cancels the previous request only when a finger is enrolled and leaves the fingerprint object created. The cancel hook changes only when the restart starts. |
| SpassModule.ReportsAlwaysReachListener | reprint_spass/src/main/java/com/github/ajalt/reprint/module/spass/SpassReprintModule.java:190-191 | Every reported status reaches the listener exactly once, whatever the predicate answers. |
| SpassModule.FatalUnknownNeverRestarts | reprint_spass/src/main/java/com/github/ajalt/reprint/module/spass/SpassReprintModule.java:177-179 | An unlisted status never restarts and leaves the predicate and count alone. |
| SpassModule.RepeatedTimeouts | reprint_spass/src/main/java/com/github/ajalt/reprint/module/spass/SpassReprintModule.java:174-195 | Take j timeouts from a fresh `restartTimeouts(n)` request. All j are reported fatal, the count ends at min(j, n), and a request is still running iff j <= n. |
| SpassModule.FailMisreportsRestart | reprint_spass/src/main/java/com/github/ajalt/reprint/module/spass/SpassReprintModule.java:190-195 | A first timeout under the default predicate is reported fatal yet restarts. A quality failure under `neverRestart` is reported non-fatal yet nothing restarts. |
| SpassModule.FailCorrected | core/src/main/java/com/github/ajalt/reprint/core/AuthenticationListener.java:18-20 | Same consultations, restarts and counts as `fail`, but the report is fatal exactly when nothing restarts. |
| SpassModule.CorrectedReportsAreHonest | core/src/main/java/com/github/ajalt/reprint/core/AuthenticationListener.java:18-20 | With the correction, each status adds at most one event, and it is fatal exactly when no request runs afterwards. |
| LegacySpassModule.Classify | module_spass/src/main/java/com/github/ajalt/reprint/module/spass/SpassReprintModule.java:132-152 | Both ways: successes give `onSuccess()`, QUALITY and SENSOR a non-fatal SENSOR_FAILED, AUTHENTIFICATION_FAILED a non-fatal AUTHENTICATION_FAILED and TIMEOUT a fatal TIMEOUT. Any other status, user cancel included, gives a fatal UNKNOWN. |
| LegacySpassModule.StartFailure | module_spass/src/main/java/com/github/ajalt/reprint/module/spass/SpassReprintModule.java:110-166 | No failure iff a finger is enrolled and identification starts. Otherwise the failure is fatal with tag 2 and no message, with code 1001, 1002 or 1003 exactly as for the current module. |
| LegacySpassModule.Module.Authenticate | module_spass/src/main/java/com/github/ajalt/reprint/module/spass/SpassReprintModule.java:110-174 | The same pre-check, cancel, start and hook sequence, without a predicate or a count. |
| LegacySpassModule.IdentifyListener.OnFinished | module_spass/src/main/java/com/github/ajalt/reprint/module/spass/SpassReprintModule.java:129-153 | Its effect on the listener is `Step`: report, then re-authenticate exactly after a non-fatal failure. A failed restart reports its start failure and records no identification. Success and fatal failures leave the module's cancel count, fingerprint object and the signal's hook unchanged. |
| LegacySpassModule.RestartedStatuses | module_spass/src/main/java/com/github/ajalt/reprint/module/spass/SpassReprintModule.java:137-151 | Exactly the quality, sensor and authentication statuses restart, and a request runs afterwards iff the status restarted. |
| LegacySpassModule.ReportsAreHonest | module_spass/src/main/java/com/github/ajalt/reprint/module/spass/SpassReprintModule.java:137-151 | Every status adds one event, and a failure is fatal exactly when no request runs afterwards. |
| LegacySpassModule.UserCancelIsFatalUnknown | module_spass/src/main/java/com/github/ajalt/reprint/module/spass/SpassReprintModule.java:149-151 | A user cancel is reported as a fatal UNKNOWN. |
| LegacySpassModule.NonFatalRestartsForever | module_spass/src/main/java/com/github/ajalt/reprint/module/spass/SpassReprintModule.java:137-145 | Any number of quality, sensor or authentication failures in a row keep identification running. Each costs one restart and one non-fatal report. |

## Left out

- Android and vendor SDK calls become inputs:
  - `getSystemService` and the `FingerprintManager` and `BiometricPrompt` calls;
  - the Samsung Pass SDK;
  - the KeyStore probing in `PieReprintModule.hasFingerprintRegistered`.

  The `Sdk` and `Device` records give their answers on each call.
- Reflection in `initialize` is reduced to matching the looked-up parameter types and the argument count against the one public constructor of the Samsung Pass class found; the class path itself is a parameter.
- The older Samsung Pass module is an earlier revision of the core's Samsung Pass class, with only a `(Context)` constructor. `getConstructor(Context.class)` finds it, but `newInstance(context, logger)` then throws, so `initialize` loads it with neither lookup; the model's `LoadSpass` yields no module for it either way.
- Localisation: messages are resource identifiers, SDK text or null; `getString` yields null without a context. The logger is not modelled.
- The RxJava wrappers, the sample app, the library's `MarshmallowReprintModule` stub and the `module_spass` stub module are not part of this model.
- Concurrency between cancellation and callbacks: callbacks are a sequential stream, and nothing claims silence after a cancel.
- The on-cancel hook: its run is counted on the signal (`hookRuns`), not linked to the module's `cancelRequests`.
- RestartPredicates.RestartPredicate.Invoke: `timeoutRestarts` is an unbounded integer. Java's 32-bit `int` would wrap after 2^31 timeouts.
- PlatformModule.AuthCallback.OnAuthenticationHelp: the restart count is unbounded and does not model 32-bit wrap-around.
- Predicates other than those the library provides are not modelled: `PolicyKind` is closed.
- A null cancellation signal passed to a module is not modelled: every module method takes a real signal.
- Null modules in the list registry are not modelled; the Java loop would throw on them.
- The library registry's listener is not recorded: `LibraryStart` keeps the module and the signal only.
- The facade's `isHardwarePresent` and `hasFingerprintRegistered` forward to the core queries unchanged and have no members of their own.
- Core.ReprintInternal.Authenticate: a module's hardware and enrolment answers are taken as fixed from registration on (the `ModuleInfo` stored in the slot). Java asks the module again on every call (`ReprintInternal.java:68`, `:72`, `:86`, `:92`), so a finger enrolled after registration, or hardware lost after it, is not seen by the model. The same holds for `Core.ReprintInternal.AuthenticateWithPredicate`, `Core.Preflight` and the facade's authenticate methods.
- Core.ReprintInternal.IsHardwarePresent and Core.ReprintInternal.HasFingerprintRegistered: they answer from the registration-time `ModuleInfo`, for the same reason. `Valid()` and `Core.HardwareAfterRegister` hold only under that assumption: in Java a stored module can later report no hardware and then get NO_HARDWARE.
- LibraryReprint.ListRegistry.IsHardwarePresent, LibraryReprint.ListRegistry.HasFingerprintRegistered and LibraryReprint.ListRegistry.Authenticate: each listed module's answers are likewise those it had when it was appended (`library/src/main/java/com/github/ajalt/library/Reprint.java:25-50` asks again on each call).
- The restarting wrapper's chain (`Core.WrapperChain`) is over failure reasons only; successes are always forwarded unchanged (`Core.ReprintInternal.Notify`).
- `Step`, `Replay` and the run lemmas assume every restart starts. The callback methods state what happens when a restart's own start fails.

## Findings

| source | as written | input that shows it | evidently intended | confidence | as-written member | corrected member |
|---|---|---|---|---|---|---|
| core/src/main/java/com/github/ajalt/reprint/module/marshmallow/MarshmallowReprintModule.java:257-260 | A help message whose predicate answer is "no" cancels the signal, yet is reported with `fatal` false. The CANCELED error that follows is suppressed, so the caller never receives a terminal event. | `neverRestart`, then `onAuthenticationHelp(id, s)`, then `onAuthenticationError(5, t)` | Report the help with `fatal` true when the predicate refused, so the report says the sensor has stopped (listener contract, AuthenticationListener.java:18-20) | medium; not executed | PlatformModule.HelpLeavesCallerWaiting | PlatformModule.StepCorrected, PlatformModule.CorrectedHelpIsHonest |
| reprint_spass/src/main/java/com/github/ajalt/reprint/module/spass/SpassReprintModule.java:190-195 | `fail` notifies the listener before asking the predicate. A restarted timeout is reported fatal while identification goes on, and a refused non-fatal failure is reported non-fatal while nothing restarts. | default predicate and `onFinished(STATUS_TIMEOUT_FAILED)`; or `neverRestart` and `onFinished(STATUS_QUALITY_FAILED)` | Ask the predicate first, then report the failure as fatal exactly when identification does not restart | medium; not executed | SpassModule.FailMisreportsRestart | SpassModule.FailCorrected, SpassModule.CorrectedReportsAreHonest |
| core/src/main/java/com/github/ajalt/reprint/core/ReprintInternal.java:43-44 | `initialize` looks up the Samsung Pass constructor with `getConstructor(Context.class)` and then calls `newInstance(context, logger)`. The current module has only a `(Context, Logger)` constructor, so the lookup throws; the exception is swallowed and the Marshmallow module is registered. | any SDK level of at least 17, with the current Samsung Pass module on the class path and its hardware present | Look the constructor up with `getConstructor(Context.class, Reprint.Logger.class)`, so the Samsung Pass module is registered when it loads | high; not executed | Core.SpassNeverLoads | Core.SpassLoadsCorrected, Core.ReprintInternal.Initialize |
