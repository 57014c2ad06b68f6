/** The code-lens handler: its registration options, the abstract handler whose public
    `Handle` wraps the inner call in the progress manager's resources, its capability slot,
    and the `OnCodeLens` registration facade with the delegating handler it registers.
    `P`, `C`, `L`, `Cap` stand for `CodeLensParams`, `CodeLensContainer`, `CodeLens`
    and `CodeLensCapability`, which this layer only passes along. */
module CodeLens {
  import opened Common
  import opened Lifecycle

  /** `CodeLensRegistrationOptions`: a mutable options object. */
  class CodeLensRegistrationOptions {
    var documentSelector: Option<DocumentSelector>
    var resolveProvider: bool

    constructor ()
      ensures documentSelector == None && !resolveProvider
    {
      documentSelector := None;
      resolveProvider := false;
    }
  }

  /** The resources the list `Handle` opens, in order of acquisition. */
  const Resources: seq<Resource> := [PartialResults, WorkDoneProgress]

  /** The abstract `CodeLensHandler`. Its abstract list `Handle` is the function `inner`,
      fixed by the subclass at construction; it is given the protected `Capability`
      slot, which is all of the handler's own state a subclass can read. */
  class CodeLensHandler<P, C, Cap> {
    const options: CodeLensRegistrationOptions
    const inner: (Option<Cap>, P, Disposable, Disposable, CancellationToken) -> Outcome<C>
    var capability: Option<Cap>

    constructor (registrationOptions: CodeLensRegistrationOptions,
                 inner: (Option<Cap>, P, Disposable, Disposable, CancellationToken) -> Outcome<C>)
      ensures GetRegistrationOptions() == registrationOptions
      ensures this.inner == inner
      ensures capability == None
    {
      this.options := registrationOptions;
      this.inner := inner;
      this.capability := None;
    }

    function GetRegistrationOptions(): CodeLensRegistrationOptions
    {
      options
    }

    /** The public `Handle`: opens the partial-result observer, then the work-done reporter,
        awaits the inner `Handle` with both, and disposes them in reverse order whatever the
        inner call's outcome. Returns the outcome and the resource events of the call. */
    method Handle(request: P, token: CancellationToken) returns (r: Outcome<C>, trace: seq<Event>)
      ensures r == inner(capability, request, Disposable(PartialResults), Disposable(WorkDoneProgress), token)
      ensures trace == Using(Resources, [InnerHandled])
      ensures trace == Acquisitions(Resources) + [InnerHandled] + DisposalsReversed(Resources)
      ensures WellBracketed(trace)
      ensures trace[2] == InnerHandled && Replay([], trace[..2]) == Some(Resources)
      ensures multiset(trace)[Acquired(PartialResults)] == multiset(trace)[Disposed(PartialResults)] == 1
      ensures multiset(trace)[Acquired(WorkDoneProgress)] == multiset(trace)[Disposed(WorkDoneProgress)] == 1
    {
      // first scoped resource: the partial-result observer
      var partialResults := Disposable(PartialResults);
      trace := [Acquired(PartialResults)];
      // second scoped resource: the work-done reporter
      var progressReporter := Disposable(WorkDoneProgress);
      trace := trace + [Acquired(WorkDoneProgress)];
      r := inner(capability, request, partialResults, progressReporter, token);
      trace := trace + [InnerHandled];
      // leaving the scope, on success, failure and cancellation alike
      trace := trace + [Disposed(WorkDoneProgress)];
      trace := trace + [Disposed(PartialResults)];

      ObserverReporterCall(trace);
    }

    /** The base `SetCapability`: stores the value in the `Capability` slot. */
    method SetCapability(capability: Option<Cap>)
      modifies this
      ensures this.capability == capability
    {
      this.capability := capability;
    }
  }

  /** The handler `OnCodeLens` registers: the supplied functions stand in for the
      abstract members, and `SetCapability` is routed to the optional callback. */
  class DelegatingHandler<P, C, L, Cap> {
    const base: CodeLensHandler<P, C, Cap>
    const handler: (P, Disposable, Disposable, CancellationToken) -> Outcome<C>
    const resolveHandler: Option<(L, CancellationToken) -> Outcome<L>>
    const canResolve: Option<L -> bool>
    const setCapability: CapabilityCallback?<Cap>

    /** What the inherited wrapper calls as its inner `Handle`: the list override, which
        forwards to `handler` and does not look at the capability slot. */
    static function ListOverride(handler: (P, Disposable, Disposable, CancellationToken) -> Outcome<C>):
      (Option<Cap>, P, Disposable, Disposable, CancellationToken) -> Outcome<C>
    {
      (capability: Option<Cap>, request: P, partialResults: Disposable, progressReporter: Disposable, token: CancellationToken) =>
        handler(request, partialResults, progressReporter, token)
    }

    /** The base part dispatches to this class's list `Handle` override. */
    ghost predicate Valid()
    {
      base.inner == ListOverride(handler)
    }

    constructor (handler: (P, Disposable, Disposable, CancellationToken) -> Outcome<C>,
                 resolveHandler: Option<(L, CancellationToken) -> Outcome<L>>,
                 canResolve: Option<L -> bool>,
                 setCapability: CapabilityCallback?<Cap>,
                 registrationOptions: CodeLensRegistrationOptions)
      ensures Valid() && fresh(base)
      ensures base.GetRegistrationOptions() == registrationOptions && base.capability == None
      ensures this.handler == handler && this.resolveHandler == resolveHandler
      ensures this.canResolve == canResolve && this.setCapability == setCapability
    {
      this.base := new CodeLensHandler(registrationOptions, ListOverride(handler));
      this.handler := handler;
      this.resolveHandler := resolveHandler;
      this.canResolve := canResolve;
      this.setCapability := setCapability;
    }

    /** The inherited public `Handle` of the registered handler: the supplied list function
        runs, with the request, both scoped resources and the token, inside the observer and
        reporter scopes, and its outcome is returned unchanged. */
    method Handle(request: P, token: CancellationToken) returns (r: Outcome<C>, trace: seq<Event>)
      requires Valid()
      ensures r == handler(request, Disposable(PartialResults), Disposable(WorkDoneProgress), token)
      ensures trace == Using(Resources, [InnerHandled]) && WellBracketed(trace)
      ensures trace[2] == InnerHandled && Replay([], trace[..2]) == Some(Resources)
    {
      r, trace := base.Handle(request, token);
    }

    /** The resolve `Handle` override: forwards to `resolveHandler`, which must be present. */
    function HandleResolve(request: L, token: CancellationToken): (r: Outcome<L>)
      requires resolveHandler.Some?
      ensures r == resolveHandler.value(request, token)
    {
      resolveHandler.value(request, token)
    }

    /** `CanResolve`: forwards to `canResolve`, which must be present. */
    function CanResolve(value: L): (r: bool)
      requires canResolve.Some?
      ensures r == canResolve.value(value)
    {
      canResolve.value(value)
    }

    /** The `SetCapability` override: invokes the callback when there is one, and never
        writes the base `Capability` slot. */
    method SetCapability(capability: Option<Cap>)
      modifies if setCapability == null then {} else {setCapability}
      ensures base.capability == old(base.capability)
      ensures setCapability != null ==> setCapability.received == old(setCapability.received) + [capability]
    {
      if setCapability != null {
        setCapability.Invoke(capability);
      }
    }
  }

  /** `OnCodeLens`: builds fresh registration options whose `ResolveProvider` says whether
      both resolve functions were supplied and whose `DocumentSelector` is the caller's,
      and returns the delegating handler handed to the registry. */
  method OnCodeLens<P, C, L, Cap>(
    handler: (P, Disposable, Disposable, CancellationToken) -> Outcome<C>,
    resolveHandler: Option<(L, CancellationToken) -> Outcome<L>>,
    canResolve: Option<L -> bool>,
    registrationOptions: CodeLensRegistrationOptions?,
    setCapability: CapabilityCallback?<Cap>)
    returns (registered: DelegatingHandler<P, C, L, Cap>)
    ensures fresh(registered) && fresh(registered.base) && fresh(registered.base.options)
    ensures registered.base.options.resolveProvider <==> canResolve.Some? && resolveHandler.Some?
    ensures registered.base.options.documentSelector ==
            if registrationOptions == null then None else registrationOptions.documentSelector
    ensures registered.Valid() && registered.handler == handler
    ensures registered.resolveHandler == resolveHandler && registered.canResolve == canResolve
    ensures registered.base.options.resolveProvider ==>
              registered.resolveHandler.Some? && registered.canResolve.Some?
    ensures registered.setCapability == setCapability && registered.base.capability == None
    ensures registrationOptions != null ==> unchanged(registrationOptions)
  {
    var codeLensRegistrationOptions := new CodeLensRegistrationOptions();
    codeLensRegistrationOptions.resolveProvider := canResolve.Some? && resolveHandler.Some?;
    if registrationOptions != null {
      codeLensRegistrationOptions.documentSelector := registrationOptions.documentSelector;
    }
    registered := new DelegatingHandler(handler, resolveHandler, canResolve, setCapability, codeLensRegistrationOptions);
  }
}
