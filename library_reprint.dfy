/**
 * The older, list-based registry: modules are kept in registration order with
 * pairwise distinct tags, the hardware and enrolment queries ask whether any
 * module answers yes, and `authenticate` uses the first module that has both.
 */
module LibraryReprint {
  import opened Reasons
  import opened Listening

  /** The exceptions the registry throws. */
  datatype Error =
    | DuplicateTag        // IllegalArgumentException("Cannot register the same module type twice")
    | NoModules           // RuntimeException("Must register a reprint module before calling authenticate")
    | NoModuleAvailable   // RuntimeException("No registered modules have fingerprints available.")

  datatype Outcome = Pass | Fail(error: Error)

  /** One call of `module.authenticate(listener, cancellationSignal)`. */
  datatype LibraryStart = LibraryStart(started: ModuleInfo, signal: CancellationSignal)

  ghost predicate TagsDistinct(ms: seq<ModuleInfo>) {
    forall i, j :: 0 <= i < j < |ms| ==> ms[i].tag != ms[j].tag
  }

  predicate Qualifies(m: ModuleInfo) {
    m.hwPresent && m.enrolled
  }

  /** The position of the first module, in registration order, that has both
      hardware and registered fingerprints. */
  function FirstQualifying(ms: seq<ModuleInfo>): (r: Option<nat>)
    ensures r.Some? ==> r.value < |ms| && Qualifies(ms[r.value]) &&
                        forall j :: 0 <= j < r.value ==> !Qualifies(ms[j])
    ensures r.None? ==> forall j :: 0 <= j < |ms| ==> !Qualifies(ms[j])
  {
    if ms == [] then None
    else if Qualifies(ms[0]) then Some(0)
    else match FirstQualifying(ms[1..])
         case None => None
         case Some(k) => Some(k + 1)
  }

  /** Appending a module never changes which earlier module qualifies first. */
  lemma {:induction false} FirstQualifyingAppend(ms: seq<ModuleInfo>, m: ModuleInfo)
    ensures FirstQualifying(ms).Some? ==> FirstQualifying(ms + [m]) == FirstQualifying(ms)
    ensures FirstQualifying(ms).None? ==>
      FirstQualifying(ms + [m]) == if Qualifies(m) then Some(|ms|) else None
  {
    if ms == [] {
      assert ms + [m] == [m] && [m][1..] == [];
    } else {
      assert (ms + [m])[1..] == ms[1..] + [m];
      FirstQualifyingAppend(ms[1..], m);
    }
  }

  /** The `Reprint` singleton of the library. */
  class ListRegistry {
    var modules: seq<ModuleInfo>
    var signal: CancellationSignal?
    var starts: seq<LibraryStart>

    ghost predicate Valid()
      reads this
    {
      TagsDistinct(modules)
    }

    constructor ()
      ensures Valid() && modules == [] && signal == null && starts == []
    {
      modules, signal, starts := [], null, [];
    }

    /** Throws when a module with the same tag is registered; otherwise
        appends, so tags stay distinct and registration order is kept. */
    method RegisterModule(m: ModuleInfo) returns (r: Outcome)
      requires Valid()
      modifies this`modules
      ensures Valid()
      ensures r.Fail? <==> exists i :: 0 <= i < |old(modules)| && old(modules)[i].tag == m.tag
      ensures r.Fail? ==> r.error == DuplicateTag && modules == old(modules)
      ensures r.Pass? ==> modules == old(modules) + [m]
    {
      var i := 0;
      while i < |modules|
        invariant 0 <= i <= |modules|
        invariant forall j :: 0 <= j < i ==> modules[j].tag != m.tag
      {
        if m.tag == modules[i].tag {
          return Fail(DuplicateTag);
        }
        i := i + 1;
      }
      modules := modules + [m];
      r := Pass;
    }

    method IsHardwarePresent() returns (b: bool)
      ensures b <==> exists i :: 0 <= i < |modules| && modules[i].hwPresent
    {
      var i := 0;
      while i < |modules|
        invariant 0 <= i <= |modules|
        invariant forall j :: 0 <= j < i ==> !modules[j].hwPresent
      {
        if modules[i].hwPresent {
          return true;
        }
        i := i + 1;
      }
      return false;
    }

    method HasFingerprintRegistered() returns (b: bool)
      ensures b <==> exists i :: 0 <= i < |modules| && modules[i].enrolled
    {
      var i := 0;
      while i < |modules|
        invariant 0 <= i <= |modules|
        invariant forall j :: 0 <= j < i ==> !modules[j].enrolled
      {
        if modules[i].enrolled {
          return true;
        }
        i := i + 1;
      }
      return false;
    }

    /** Throws on an empty registry and when no module qualifies, creating no
        signal; otherwise stores a fresh signal and starts the first
        qualifying module with it. */
    method Authenticate() returns (r: Outcome)
      requires Valid()
      modifies this`signal, this`starts
      ensures Valid()
      ensures r.Fail? <==> FirstQualifying(modules).None?
      ensures r.Fail? ==> r.error == (if modules == [] then NoModules else NoModuleAvailable) &&
                          signal == old(signal) && starts == old(starts)
      ensures r.Pass? ==> fresh(signal) && !signal.cancelled &&
                          starts == old(starts) + [LibraryStart(modules[FirstQualifying(modules).value], signal)]
    {
      if modules == [] {
        return Fail(NoModules);
      }
      var i := 0;
      while i < |modules|
        invariant 0 <= i <= |modules|
        invariant forall j :: 0 <= j < i ==> !Qualifies(modules[j])
        invariant signal == old(signal) && starts == old(starts)
      {
        if modules[i].hwPresent && modules[i].enrolled {
          signal := new CancellationSignal();
          starts := starts + [LibraryStart(modules[i], signal)];
          return Pass;
        }
        i := i + 1;
      }
      return Fail(NoModuleAvailable);
    }

    /** Cancels and clears the signal; does nothing when there is none. */
    method CancelAuthentication()
      modifies this`signal, signal
      ensures signal == null
      ensures old(signal) != null ==> old(signal).cancelled && old(signal).hookInstalled == old(signal.hookInstalled)
      ensures old(signal) != null ==>
                old(signal).hookRuns == if !old(signal.cancelled) && old(signal.hookInstalled)
                                        then old(signal.hookRuns) + 1 else old(signal.hookRuns)
    {
      if signal != null {
        signal.Cancel();
        signal := null;
      }
    }
  }
}
