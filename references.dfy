/** The references handler: the abstract handler whose public `Handle` wraps the inner
    call in the progress manager's resources, its capability slot, and the `OnReferences`
    registration facade with the delegating handler it registers. `P`, `C` and `Cap`
    stand for `ReferenceParams`, `LocationContainer` and `ReferenceCapability`. */
module References {
  import opened Common
  import opened Lifecycle

  /** `ReferenceRegistrationOptions`: a mutable options object. */
  class ReferenceRegistrationOptions {
    var documentSelector: Option<DocumentSelector>

    constructor ()
      ensures documentSelector == None
    {
      documentSelector := None;
    }
  }

  /** The resources the public `Handle` opens, in order of acquisition. */
  const Resources: seq<Resource> := [PartialResults, WorkDoneProgress]

  /** The abstract `ReferencesHandler`. Its abstract `Handle` is the function `inner`,
      fixed by the subclass at construction; it is given the protected `Capability`
      slot, which is all of the handler's own state a subclass can read. */
  class ReferencesHandler<P, C, Cap> {
    const options: ReferenceRegistrationOptions
    const inner: (Option<Cap>, P, Disposable, Disposable, CancellationToken) -> Outcome<C>
    var capability: Option<Cap>

    constructor (registrationOptions: ReferenceRegistrationOptions,
                 inner: (Option<Cap>, P, Disposable, Disposable, CancellationToken) -> Outcome<C>)
      ensures GetRegistrationOptions() == registrationOptions
      ensures this.inner == inner
      ensures capability == None
    {
      this.options := registrationOptions;
      this.inner := inner;
      this.capability := None;
    }

    function GetRegistrationOptions(): ReferenceRegistrationOptions
    {
      options
    }

    /** The public `Handle`: opens the partial-result observer, then the work-done reporter,
        awaits the inner `Handle` with both, and disposes them in reverse order whatever the
        inner call's outcome. Returns the outcome and the resource events of the call. */
    method Handle(request: P, token: CancellationToken) returns (r: Outcome<C>, trace: seq<Event>)
      ensures r == inner(capability, request, Disposable(PartialResults), Disposable(WorkDoneProgress), token)
      ensures trace == Using(Resources, [InnerHandled])
      ensures trace == Acquisitions(Resources) + [InnerHandled] + DisposalsReversed(Resources)
      ensures WellBracketed(trace)
      ensures trace[2] == InnerHandled && Replay([], trace[..2]) == Some(Resources)
      ensures multiset(trace)[Acquired(PartialResults)] == multiset(trace)[Disposed(PartialResults)] == 1
      ensures multiset(trace)[Acquired(WorkDoneProgress)] == multiset(trace)[Disposed(WorkDoneProgress)] == 1
    {
      // first scoped resource: the partial-result observer
      var partialResults := Disposable(PartialResults);
      trace := [Acquired(PartialResults)];
      // second scoped resource: the work-done reporter
      var progressReporter := Disposable(WorkDoneProgress);
      trace := trace + [Acquired(WorkDoneProgress)];
      r := inner(capability, request, partialResults, progressReporter, token);
      trace := trace + [InnerHandled];
      // leaving the scope, on success, failure and cancellation alike
      trace := trace + [Disposed(WorkDoneProgress)];
      trace := trace + [Disposed(PartialResults)];

      ObserverReporterCall(trace);
    }

    /** The base `SetCapability`: stores the value in the `Capability` slot. */
    method SetCapability(capability: Option<Cap>)
      modifies this
      ensures this.capability == capability
    {
      this.capability := capability;
    }
  }

  /** The handler `OnReferences` registers: the supplied function stands in for the
      abstract `Handle`, and `SetCapability` is routed to the optional callback. */
  class DelegatingHandler<P, C, Cap> {
    const base: ReferencesHandler<P, C, Cap>
    const handler: (P, Disposable, Disposable, CancellationToken) -> Outcome<C>
    const setCapability: CapabilityCallback?<Cap>

    /** What the inherited wrapper calls as its inner `Handle`: the override, which
        forwards to `handler` and does not look at the capability slot. */
    static function Override(handler: (P, Disposable, Disposable, CancellationToken) -> Outcome<C>):
      (Option<Cap>, P, Disposable, Disposable, CancellationToken) -> Outcome<C>
    {
      (capability: Option<Cap>, request: P, partialResults: Disposable, progressReporter: Disposable, token: CancellationToken) =>
        handler(request, partialResults, progressReporter, token)
    }

    /** The base part dispatches to this class's `Handle` override. */
    ghost predicate Valid()
    {
      base.inner == Override(handler)
    }

    constructor (handler: (P, Disposable, Disposable, CancellationToken) -> Outcome<C>,
                 setCapability: CapabilityCallback?<Cap>,
                 registrationOptions: ReferenceRegistrationOptions)
      ensures Valid() && fresh(base)
      ensures base.GetRegistrationOptions() == registrationOptions && base.capability == None
      ensures this.handler == handler && this.setCapability == setCapability
    {
      this.base := new ReferencesHandler(registrationOptions, Override(handler));
      this.handler := handler;
      this.setCapability := setCapability;
    }

    /** The inherited public `Handle` of the registered handler: the supplied function runs,
        with the request, both scoped resources and the token, inside the observer and
        reporter scopes, and its outcome is returned unchanged. */
    method Handle(request: P, token: CancellationToken) returns (r: Outcome<C>, trace: seq<Event>)
      requires Valid()
      ensures r == handler(request, Disposable(PartialResults), Disposable(WorkDoneProgress), token)
      ensures trace == Using(Resources, [InnerHandled]) && WellBracketed(trace)
      ensures trace[2] == InnerHandled && Replay([], trace[..2]) == Some(Resources)
    {
      r, trace := base.Handle(request, token);
    }

    /** The `SetCapability` override: invokes the callback when there is one, and never
        writes the base `Capability` slot. */
    method SetCapability(capability: Option<Cap>)
      modifies if setCapability == null then {} else {setCapability}
      ensures base.capability == old(base.capability)
      ensures setCapability != null ==> setCapability.received == old(setCapability.received) + [capability]
    {
      if setCapability != null {
        setCapability.Invoke(capability);
      }
    }
  }

  /** `OnReferences`: registers the caller's options object itself, or a fresh default
      one when the caller passed none, and returns the delegating handler handed to the
      registry. */
  method OnReferences<P, C, Cap>(
    handler: (P, Disposable, Disposable, CancellationToken) -> Outcome<C>,
    registrationOptions: ReferenceRegistrationOptions?,
    setCapability: CapabilityCallback?<Cap>)
    returns (registered: DelegatingHandler<P, C, Cap>)
    ensures fresh(registered) && fresh(registered.base)
    ensures registrationOptions != null ==>
              registered.base.options == registrationOptions && unchanged(registrationOptions)
    ensures registrationOptions == null ==>
              fresh(registered.base.options) && registered.base.options.documentSelector == None
    ensures registered.Valid() && registered.handler == handler
    ensures registered.setCapability == setCapability && registered.base.capability == None
  {
    var options := registrationOptions;
    if options == null {
      options := new ReferenceRegistrationOptions();
    }
    registered := new DelegatingHandler(handler, setCapability, options);
  }
}
