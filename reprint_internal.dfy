/**
 * The orchestration layer of Reprint: a single module slot, the pre-flight
 * checks of `authenticate`, the cancellation-signal slot, and the listener
 * wrapper that silently restarts after a timeout.
 */
module Core {
  import opened Reasons
  import opened Listening
  import opened RestartPredicates

  /** The listener the core hands to the module: the caller's own listener,
      or the restarting wrapper around it with its remaining timeout budget. */
  datatype Handler = Direct(listener: Listener) | Restarting(original: Listener, budget: int)

  /** What the module is told about restarts: the boolean flag of
      ReprintInternal's `(listener, boolean, int)` entry point, or the
      predicate that the facade passes. */
  datatype RestartMode = RestartOnNonFatal(restart: bool) | WithPredicate(policy: RestartPredicate)

  /** One call of `module.authenticate(signal, listener, ...)`, a call into the
      backend that this model records rather than performs. */
  datatype Start = Start(moduleTag: int, signal: CancellationSignal, handler: Handler, mode: RestartMode)

  /** Below this SDK level `initialize` loads no module. */
  const MinimumSdk := 17

  function HardwarePresent(slot: Option<ModuleInfo>): bool {
    slot.Some? && slot.value.hwPresent
  }

  function FingerprintRegistered(slot: Option<ModuleInfo>): bool {
    slot.Some? && slot.value.enrolled
  }

  /** `getString`: null when no context has been set. */
  function GetString(hasContext: bool, id: StringId): Message {
    if hasContext then Localized(id) else NoMessage
  }

  /** The module slot after `registerModule(candidate)`, where `None` is a
      null module: null and a module whose tag equals the stored one's are
      dropped, and any other module replaces the stored one only if it has
      hardware. */
  function Registered(current: Option<ModuleInfo>, candidate: Option<ModuleInfo>): (r: Option<ModuleInfo>)
    ensures r == current || r == candidate
    ensures r != current ==> candidate.Some? && candidate.value.hwPresent &&
                             (current.None? || current.value.tag != candidate.value.tag)
    ensures (candidate.Some? && candidate.value.hwPresent &&
             (current.None? || current.value.tag != candidate.value.tag)) ==> r == candidate
  {
    if candidate.None? || (current.Some? && candidate.value.tag == current.value.tag) then current
    else if candidate.value.hwPresent then candidate
    else current
  }

  /** The failure that the pre-flight checks of `authenticate` report, if any:
      NO_HARDWARE first, then NO_FINGERPRINTS_REGISTERED, both fatal with
      module tag 0 and error code 0. */
  function Preflight(slot: Option<ModuleInfo>, hasContext: bool): (r: Option<Event>)
    ensures r.None? <==> HardwarePresent(slot) && FingerprintRegistered(slot)
    ensures r.Some? ==> r.value.Failure? && r.value.fatal && r.value.moduleTag == 0 && r.value.errorCode == 0
    ensures r.Some? ==> (r.value.reason == NoHardware <==> !HardwarePresent(slot))
    ensures r.Some? ==> (r.value.reason == NoFingerprintsRegistered <==> HardwarePresent(slot))
  {
    if !HardwarePresent(slot) then
      Some(Failure(NoHardware, true, GetString(hasContext, FingerprintErrorHwNotAvailable), 0, 0))
    else if !FingerprintRegistered(slot) then
      Some(Failure(NoFingerprintsRegistered, true, GetString(hasContext, FingerprintNotRecognized), 0, 0))
    else
      None
  }

  /** The parameter types of a constructor, as reflection matches them. */
  datatype ParamType = ContextParam | LoggerParam

  /** The Samsung Pass module class found on the class path: the parameter
      types of its one public constructor, and the module an instance is. */
  datatype SpassClass = SpassClass(constructorParams: seq<ParamType>, instance: ModuleInfo)

  /** The parameter types `initialize` looks the constructor up with, as
      written, and the ones that match the arguments it then passes. */
  const LookupAsWritten: seq<ParamType> := [ContextParam]
  const LookupCorrected: seq<ParamType> := [ContextParam, LoggerParam]

  /** `Class.forName(..).getConstructor(lookup).newInstance(context, logger)`,
      with every exception caught: no module when the class is missing, when
      it has no constructor with the looked-up parameters, or when the two
      arguments do not fit the constructor found. */
  function LoadSpass(found: Option<SpassClass>, lookup: seq<ParamType>): Option<ModuleInfo> {
    if found.Some? && found.value.constructorParams == lookup && |lookup| == 2
    then Some(found.value.instance) else None
  }

  /** The module slot after `initialize`, given what loading Samsung Pass gave. */
  function Initialized(current: Option<ModuleInfo>, sdkInt: int, loaded: Option<ModuleInfo>,
                       marshmallow: ModuleInfo): Option<ModuleInfo> {
    if current.Some? || sdkInt < MinimumSdk then current
    else if loaded.Some? then Registered(None, loaded)
    else Registered(None, Some(marshmallow))
  }

  /** Whether the restarting wrapper re-authenticates on a failure instead of
      forwarding it: only a TIMEOUT, with budget left, while a module and a
      signal are stored. */
  predicate WrapperRestarts(modulePresent: bool, signalPresent: bool, reason: FailureReason, budget: int) {
    modulePresent && signalPresent && reason == Timeout && budget > 0
  }

  /** What a chain of restarting wrappers has done with the failures it was
      given: the budget of the wrapper now listening, the restarts made, and
      the reasons forwarded to the caller's listener. */
  datatype WrapperRun = WrapperRun(budget: int, restarts: nat, forwarded: seq<FailureReason>)

  /** One failure reaching the current wrapper: a restart hands the module a
      new wrapper with one less budget; anything else is forwarded and the
      same wrapper stays. */
  function WrapperStep(modulePresent: bool, signalPresent: bool, w: WrapperRun, reason: FailureReason): WrapperRun {
    if WrapperRestarts(modulePresent, signalPresent, reason, w.budget)
    then WrapperRun(w.budget - 1, w.restarts + 1, w.forwarded)
    else w.(forwarded := w.forwarded + [reason])
  }

  /** The failures `reasons`, in order, reaching a chain that starts from a
      wrapper with `budget`. */
  function WrapperChain(modulePresent: bool, signalPresent: bool, budget: int, reasons: seq<FailureReason>): WrapperRun
    decreases |reasons|
  {
    if reasons == [] then WrapperRun(budget, 0, [])
    else WrapperStep(modulePresent, signalPresent,
                     WrapperChain(modulePresent, signalPresent, budget, reasons[..|reasons| - 1]),
                     reasons[|reasons| - 1])
  }

  /** The `ReprintInternal` singleton. */
  class ReprintInternal {
    var registered: Option<ModuleInfo>
    var signal: CancellationSignal?
    var hasContext: bool
    var starts: seq<Start>

    /** The stored module always has hardware: registration drops the others. */
    ghost predicate Valid()
      reads this
    {
      registered.None? || registered.value.hwPresent
    }

    constructor ()
      ensures Valid() && registered.None? && signal == null && !hasContext && starts == []
    {
      registered, signal, hasContext, starts := None, null, false, [];
    }

    /** `initialize`: keeps the context, and loads a module only while the slot
        is empty and the SDK level is at least 17. `found` is the Samsung Pass
        class on the class path, if any, loaded with the corrected constructor
        lookup; once it loads, the Marshmallow module is not tried even if the
        Spass module is then dropped for lack of hardware. */
    method Initialize(hasAppContext: bool, sdkInt: int, found: Option<SpassClass>, marshmallow: ModuleInfo)
      requires Valid()
      modifies this`registered, this`hasContext
      ensures Valid() && hasContext == hasAppContext
      ensures registered == Initialized(old(registered), sdkInt, LoadSpass(found, LookupCorrected), marshmallow)
    {
      hasContext := hasAppContext;
      if registered.Some? || sdkInt < MinimumSdk {
        return;
      }
      var spass := LoadSpass(found, LookupCorrected);
      if spass.Some? {
        RegisterModule(spass);
        return;
      }
      RegisterModule(Some(marshmallow));
    }

    method RegisterModule(candidate: Option<ModuleInfo>)
      requires Valid()
      modifies this`registered
      ensures Valid()
      ensures registered == Registered(old(registered), candidate)
    {
      if candidate.None? || (registered.Some? && candidate.value.tag == registered.value.tag) {
        return;
      }
      if candidate.value.hwPresent {
        registered := candidate;
      }
    }

    /** False with no module stored, otherwise the module's own answer. */
    function IsHardwarePresent(): (b: bool)
      reads this
      ensures registered.None? ==> !b
      ensures registered.Some? ==> b == registered.value.hwPresent
    {
      HardwarePresent(registered)
    }

    /** False with no module stored, otherwise the module's own answer. */
    function HasFingerprintRegistered(): (b: bool)
      reads this
      ensures registered.None? ==> !b
      ensures registered.Some? ==> b == registered.value.enrolled
    {
      FingerprintRegistered(registered)
    }

    /** `authenticate(listener, restartOnNonFatal, restartCount)`. When the
        pre-flight checks fail, the listener gets exactly their failure and
        nothing else happens; otherwise a fresh signal replaces the stored one
        (which is not cancelled) and is handed to the module, with the
        restarting wrapper when `restartOnNonFatal` holds. */
    method Authenticate(listener: Listener, restartOnNonFatal: bool, restartCount: int)
      requires Valid()
      modifies this`signal, this`starts, listener
      ensures Valid()
      ensures Preflight(registered, hasContext).Some? ==>
        listener.events == old(listener.events) + [Preflight(registered, hasContext).value] &&
        signal == old(signal) && starts == old(starts)
      ensures Preflight(registered, hasContext).None? ==>
        fresh(signal) && !signal.cancelled && !signal.hookInstalled &&
        listener.events == old(listener.events) &&
        starts == old(starts) + [Start(registered.value.tag, signal,
                                       if restartOnNonFatal then Restarting(listener, restartCount) else Direct(listener),
                                       RestartOnNonFatal(restartOnNonFatal))]
      ensures old(signal) != null ==> old(signal).cancelled == old(signal.cancelled)
    {
      var failure := Preflight(registered, hasContext);
      if failure.Some? {
        var e := failure.value;
        listener.OnFailure(e.reason, e.fatal, e.message, e.moduleTag, e.errorCode);
        return;
      }
      signal := new CancellationSignal();
      var handler := if restartOnNonFatal then Restarting(listener, restartCount) else Direct(listener);
      starts := starts + [Start(registered.value.tag, signal, handler, RestartOnNonFatal(restartOnNonFatal))];
    }

    /** The facade's `authenticate(listener, restartPredicate)`: the same
        pre-flight checks, then the predicate is handed to the module along
        with the caller's listener. */
    method AuthenticateWithPredicate(listener: Listener, policy: RestartPredicate)
      requires Valid()
      modifies this`signal, this`starts, listener
      ensures Valid()
      ensures Preflight(registered, hasContext).Some? ==>
        listener.events == old(listener.events) + [Preflight(registered, hasContext).value] &&
        signal == old(signal) && starts == old(starts)
      ensures Preflight(registered, hasContext).None? ==>
        fresh(signal) && !signal.cancelled && !signal.hookInstalled &&
        listener.events == old(listener.events) &&
        starts == old(starts) + [Start(registered.value.tag, signal, Direct(listener), WithPredicate(policy))]
      ensures old(signal) != null ==> old(signal).cancelled == old(signal.cancelled)
    {
      var failure := Preflight(registered, hasContext);
      if failure.Some? {
        var e := failure.value;
        listener.OnFailure(e.reason, e.fatal, e.message, e.moduleTag, e.errorCode);
        return;
      }
      signal := new CancellationSignal();
      starts := starts + [Start(registered.value.tag, signal, Direct(listener), WithPredicate(policy))];
    }

    /** Cancels and clears the stored signal; a no-op when there is none, so a
        second call does nothing. */
    method CancelAuthentication()
      modifies this`signal, signal
      ensures signal == null
      ensures old(signal) != null ==> old(signal).cancelled && old(signal).hookInstalled == old(signal.hookInstalled)
      ensures old(signal) != null ==>
                old(signal).hookRuns == if !old(signal.cancelled) && old(signal.hookInstalled)
                                        then old(signal.hookRuns) + 1 else old(signal.hookRuns)
    {
      if signal != null {
        signal.Cancel();
        signal := null;
      }
    }

    /** A module calling `onSuccess` or `onFailure` on the listener it was
        given. The restarting wrapper forwards a success and every failure it
        does not restart on; on a TIMEOUT with budget left, while a module and
        a signal are stored, it authenticates again with the stored signal and
        one less budget, and the caller hears nothing. */
    method Notify(handler: Handler, e: Event)
      requires Valid()
      modifies this`starts, if handler.Direct? then handler.listener else handler.original
      ensures Valid()
      ensures handler.Direct? ==> handler.listener.events == old(handler.listener.events) + [e] && starts == old(starts)
      ensures handler.Restarting? && e.Failure? &&
              WrapperRestarts(registered.Some?, signal != null, e.reason, handler.budget) ==>
        handler.original.events == old(handler.original.events) &&
        starts == old(starts) + [Start(registered.value.tag, signal, Restarting(handler.original, handler.budget - 1),
                                       RestartOnNonFatal(true))]
      ensures handler.Restarting? && !(e.Failure? &&
              WrapperRestarts(registered.Some?, signal != null, e.reason, handler.budget)) ==>
        handler.original.events == old(handler.original.events) + [e] && starts == old(starts)
    {
      match handler {
        case Direct(listener) =>
          Deliver(listener, e);
        case Restarting(original, budget) =>
          if e.Failure? && registered.Some? && signal != null && e.reason == Timeout && budget > 0 {
            starts := starts + [Start(registered.value.tag, signal, Restarting(original, budget - 1), RestartOnNonFatal(true))];
          } else {
            Deliver(original, e);
          }
      }
    }
  }

  /** Calls the listener method that matches `e`: the dispatch that the
      restarting wrapper's `onSuccess` and forwarding `onFailure` perform
      on the original listener. */
  method Deliver(listener: Listener, e: Event)
    modifies listener
    ensures listener.events == old(listener.events) + [e]
  {
    match e {
      case Success(tag) =>
        listener.OnSuccess(tag);
      case Failure(reason, fatal, message, tag, code) =>
        listener.OnFailure(reason, fatal, message, tag, code);
    }
  }

  // ---------------------------------------------------------------------
  // Properties of registration

  /** A stored module always has hardware, and registration keeps it so. */
  lemma RegisteredHasHardware(current: Option<ModuleInfo>, candidate: Option<ModuleInfo>)
    requires current.None? || current.value.hwPresent
    ensures Registered(current, candidate).None? || Registered(current, candidate).value.hwPresent
  {
  }

  /** Registering the same module twice has the effect of registering it once. */
  lemma RegisterTwice(current: Option<ModuleInfo>, candidate: Option<ModuleInfo>)
    ensures Registered(Registered(current, candidate), candidate) == Registered(current, candidate)
  {
  }

  /** Of two modules with the same tag, the first one with hardware stays
      registered: the later one is a no-op. */
  lemma FirstOfATagWins(current: Option<ModuleInfo>, first: ModuleInfo, second: ModuleInfo)
    requires first.tag == second.tag && first.hwPresent
    ensures Registered(Registered(current, Some(first)), Some(second)) == Registered(current, Some(first))
    ensures current.None? ==> Registered(Registered(current, Some(first)), Some(second)) == Some(first)
  {
  }

  /** As written, `initialize` looks up a one-parameter constructor and calls
      it with two arguments, so loading Samsung Pass fails for every class
      found, and an empty slot always gets the Marshmallow module, never the
      Samsung Pass one. */
  lemma SpassNeverLoads(found: Option<SpassClass>, sdkInt: int, marshmallow: ModuleInfo)
    requires sdkInt >= MinimumSdk
    ensures LoadSpass(found, LookupAsWritten).None?
    ensures Initialized(None, sdkInt, LoadSpass(found, LookupAsWritten), marshmallow) ==
            Registered(None, Some(marshmallow))
    ensures found.Some? && found.value.instance != marshmallow ==>
            Initialized(None, sdkInt, LoadSpass(found, LookupAsWritten), marshmallow) != Some(found.value.instance)
  {
  }

  /** With the lookup matching the `(Context, Logger)` constructor, a current
      Samsung Pass class is loaded, and it is registered when it has
      hardware; a class without one still falls back to Marshmallow. */
  lemma SpassLoadsCorrected(found: Option<SpassClass>, sdkInt: int, marshmallow: ModuleInfo)
    requires sdkInt >= MinimumSdk
    ensures LoadSpass(found, LookupCorrected).Some? <==>
            found.Some? && found.value.constructorParams == [ContextParam, LoggerParam]
    ensures LoadSpass(found, LookupCorrected).Some? ==> LoadSpass(found, LookupCorrected).value == found.value.instance
    ensures LoadSpass(found, LookupCorrected).None? ==>
            Initialized(None, sdkInt, LoadSpass(found, LookupCorrected), marshmallow) == Registered(None, Some(marshmallow))
    ensures found.Some? && found.value.constructorParams == LookupCorrected && found.value.instance.hwPresent ==>
            Initialized(None, sdkInt, LoadSpass(found, LookupCorrected), marshmallow) == Some(found.value.instance)
  {
  }

  // ---------------------------------------------------------------------
  // Properties of the restarting wrapper

  /** With a module and a signal stored, k timeouts in a row restart silently
      min(k, budget) times (none for a budget of 0 or less), each restart
      spending one unit; every timeout past the budget is forwarded. */
  lemma {:induction false} TimeoutCountdown(budget: int, k: nat)
    ensures var n := if budget > 0 then budget else 0;
      var w := WrapperChain(true, true, budget, Repeat(Timeout, k));
      && w.restarts == (if k <= n then k else n)
      && w.budget == budget - w.restarts
      && w.forwarded == Repeat(Timeout, k - w.restarts)
  {
    if k > 0 {
      TimeoutCountdown(budget, k - 1);
      assert Repeat(Timeout, k)[..k - 1] == Repeat(Timeout, k - 1);
    }
  }

  /** A failure other than TIMEOUT is forwarded at once, whatever the budget
      and whatever came before, and spends nothing. */
  lemma NonTimeoutForwarded(modulePresent: bool, signalPresent: bool, budget: int,
                            before: seq<FailureReason>, reason: FailureReason)
    requires reason != Timeout
    ensures var w := WrapperChain(modulePresent, signalPresent, budget, before);
      WrapperChain(modulePresent, signalPresent, budget, before + [reason]) == w.(forwarded := w.forwarded + [reason])
  {
    assert (before + [reason])[..|before|] == before;
  }

  /** Once `cancelAuthentication` has cleared the signal, the wrapper restarts
      nothing: every failure reaches the caller, in order. */
  lemma {:induction false} NoSignalForwardsAll(modulePresent: bool, budget: int, reasons: seq<FailureReason>)
    ensures WrapperChain(modulePresent, false, budget, reasons) == WrapperRun(budget, 0, reasons)
    decreases |reasons|
  {
    if reasons != [] {
      NoSignalForwardsAll(modulePresent, budget, reasons[..|reasons| - 1]);
      assert reasons[..|reasons| - 1] + [reasons[|reasons| - 1]] == reasons;
    }
  }

  /** After registering a module, hardware is reported present exactly when a
      module with hardware is stored, the new one or the previous one. */
  lemma HardwareAfterRegister(current: Option<ModuleInfo>, candidate: ModuleInfo)
    requires current.None? || current.value.hwPresent
    ensures HardwarePresent(Registered(current, Some(candidate))) <==> current.Some? || candidate.hwPresent
  {
  }
}

/**
 * The static `Reprint` facade: every operation forwards to the singleton;
 * its only logic is which restart predicate it passes.
 */
module Reprint {
  import opened Reasons
  import opened Listening
  import opened RestartPredicates
  import opened Core

  method RegisterModule(r: ReprintInternal, candidate: Option<ModuleInfo>)
    requires r.Valid()
    modifies r`registered
    ensures r.Valid() && r.registered == Registered(old(r.registered), candidate)
  {
    r.RegisterModule(candidate);
  }

  /** `authenticate(listener)` is `authenticate(listener, defaultPredicate())`. */
  method Authenticate(r: ReprintInternal, listener: Listener)
    requires r.Valid()
    modifies r`signal, r`starts, listener
    ensures r.Valid()
    ensures Preflight(r.registered, r.hasContext).Some? ==>
      listener.events == old(listener.events) + [Preflight(r.registered, r.hasContext).value] &&
      r.signal == old(r.signal) && r.starts == old(r.starts)
    ensures Preflight(r.registered, r.hasContext).None? ==>
      |r.starts| == |old(r.starts)| + 1 && r.starts[..|old(r.starts)|] == old(r.starts) &&
      var s := r.starts[|r.starts| - 1];
      fresh(r.signal) && !r.signal.cancelled && s.moduleTag == r.registered.value.tag &&
      s.signal == r.signal && s.handler == Direct(listener) && listener.events == old(listener.events) &&
      s.mode.WithPredicate? && fresh(s.mode.policy) &&
      s.mode.policy.kind == RestartTimeouts(DefaultTimeoutRestarts) && s.mode.policy.history == []
  {
    var p := DefaultPredicate();
    AuthenticateWithRestartPredicate(r, listener, p);
  }

  /** `authenticate(listener, restartPredicate)`. */
  method AuthenticateWithRestartPredicate(r: ReprintInternal, listener: Listener, policy: RestartPredicate)
    requires r.Valid()
    modifies r`signal, r`starts, listener
    ensures r.Valid()
    ensures Preflight(r.registered, r.hasContext).Some? ==>
      listener.events == old(listener.events) + [Preflight(r.registered, r.hasContext).value] &&
      r.signal == old(r.signal) && r.starts == old(r.starts)
    ensures Preflight(r.registered, r.hasContext).None? ==>
      fresh(r.signal) && !r.signal.cancelled && listener.events == old(listener.events) &&
      r.starts == old(r.starts) + [Start(r.registered.value.tag, r.signal, Direct(listener), WithPredicate(policy))]
  {
    r.AuthenticateWithPredicate(listener, policy);
  }

  /** `authenticateWithoutRestart(listener)` passes `neverRestart()`. */
  method AuthenticateWithoutRestart(r: ReprintInternal, listener: Listener)
    requires r.Valid()
    modifies r`signal, r`starts, listener
    ensures r.Valid()
    ensures Preflight(r.registered, r.hasContext).Some? ==>
      listener.events == old(listener.events) + [Preflight(r.registered, r.hasContext).value] &&
      r.signal == old(r.signal) && r.starts == old(r.starts)
    ensures Preflight(r.registered, r.hasContext).None? ==>
      |r.starts| == |old(r.starts)| + 1 && r.starts[..|old(r.starts)|] == old(r.starts) &&
      var s := r.starts[|r.starts| - 1];
      fresh(r.signal) && !r.signal.cancelled && s.moduleTag == r.registered.value.tag &&
      s.signal == r.signal && s.handler == Direct(listener) && listener.events == old(listener.events) &&
      s.mode.WithPredicate? && fresh(s.mode.policy) && s.mode.policy.kind == NeverRestart
  {
    var p := NeverRestartPredicate();
    r.AuthenticateWithPredicate(listener, p);
  }

  /** Cancels any active authentication; with none active it has no effect. */
  method CancelAuthentication(r: ReprintInternal)
    modifies r`signal, r.signal
    ensures r.signal == null
    ensures old(r.signal) != null ==> old(r.signal).cancelled
    ensures old(r.signal) == null ==> unchanged(r)
  {
    r.CancelAuthentication();
  }
}
