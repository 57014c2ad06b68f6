/** The execute-command handler: the abstract handler whose public `Handle` wraps the
    inner call in a work-done reporter only, its capability slot, and the
    `OnExecuteCommand` registration facade with the delegating handler it registers.
    `P` and `Cap` stand for `ExecuteCommandParams` and `ExecuteCommandCapability`;
    the result is `Unit`. */
module ExecuteCommand {
  import opened Common
  import opened Lifecycle

  /** `ExecuteCommandRegistrationOptions`: a mutable options object. */
  class ExecuteCommandRegistrationOptions {
    var commands: Option<seq<string>>

    constructor ()
      ensures commands == None
    {
      commands := None;
    }
  }

  /** The one resource the public `Handle` opens: there is no partial-result observer. */
  const Resources: seq<Resource> := [WorkDoneProgress]

  /** The abstract `ExecuteCommandHandler`. Its abstract `Handle` is the function
      `inner`, fixed by the subclass at construction; it is given the protected
      `Capability` slot, which is all of the handler's own state a subclass can read. */
  class ExecuteCommandHandler<P, Cap> {
    const options: ExecuteCommandRegistrationOptions
    const inner: (Option<Cap>, P, Disposable, CancellationToken) -> Outcome<Unit>
    var capability: Option<Cap>

    constructor (registrationOptions: ExecuteCommandRegistrationOptions,
                 inner: (Option<Cap>, P, Disposable, CancellationToken) -> Outcome<Unit>)
      ensures GetRegistrationOptions() == registrationOptions
      ensures this.inner == inner
      ensures capability == None
    {
      this.options := registrationOptions;
      this.inner := inner;
      this.capability := None;
    }

    function GetRegistrationOptions(): ExecuteCommandRegistrationOptions
    {
      options
    }

    /** The public `Handle`: opens the work-done reporter, awaits the inner `Handle`
        with it, and disposes it whatever the inner call's outcome. Returns the outcome
        and the resource events of the call. */
    method Handle(request: P, token: CancellationToken) returns (r: Outcome<Unit>, trace: seq<Event>)
      ensures r == inner(capability, request, Disposable(WorkDoneProgress), token)
      ensures trace == Using(Resources, [InnerHandled])
      ensures trace == Acquisitions(Resources) + [InnerHandled] + DisposalsReversed(Resources)
      ensures WellBracketed(trace)
      ensures trace[1] == InnerHandled && Replay([], trace[..1]) == Some(Resources)
      ensures multiset(trace)[Acquired(WorkDoneProgress)] == multiset(trace)[Disposed(WorkDoneProgress)] == 1
      ensures multiset(trace)[Acquired(PartialResults)] == multiset(trace)[Disposed(PartialResults)] == 0
    {
      // the only scoped resource: the work-done reporter
      var progressReporter := Disposable(WorkDoneProgress);
      trace := [Acquired(WorkDoneProgress)];
      r := inner(capability, request, progressReporter, token);
      trace := trace + [InnerHandled];
      // leaving the scope, on success, failure and cancellation alike
      trace := trace + [Disposed(WorkDoneProgress)];

      ReporterCall(trace);
    }

    /** The base `SetCapability`: stores the value in the `Capability` slot. */
    method SetCapability(capability: Option<Cap>)
      modifies this
      ensures this.capability == capability
    {
      this.capability := capability;
    }
  }

  /** The handler `OnExecuteCommand` registers: the supplied function stands in for the
      abstract `Handle`, and `SetCapability` is routed to the optional callback. */
  class DelegatingHandler<P, Cap> {
    const base: ExecuteCommandHandler<P, Cap>
    const handler: (P, Disposable, CancellationToken) -> Outcome<Unit>
    const setCapability: CapabilityCallback?<Cap>

    /** What the inherited wrapper calls as its inner `Handle`: the override, which
        forwards to `handler` and does not look at the capability slot. */
    static function Override(handler: (P, Disposable, CancellationToken) -> Outcome<Unit>):
      (Option<Cap>, P, Disposable, CancellationToken) -> Outcome<Unit>
    {
      (capability: Option<Cap>, request: P, progressReporter: Disposable, token: CancellationToken) =>
        handler(request, progressReporter, token)
    }

    /** The base part dispatches to this class's `Handle` override. */
    ghost predicate Valid()
    {
      base.inner == Override(handler)
    }

    constructor (handler: (P, Disposable, CancellationToken) -> Outcome<Unit>,
                 setCapability: CapabilityCallback?<Cap>,
                 registrationOptions: ExecuteCommandRegistrationOptions)
      ensures Valid() && fresh(base)
      ensures base.GetRegistrationOptions() == registrationOptions && base.capability == None
      ensures this.handler == handler && this.setCapability == setCapability
    {
      this.base := new ExecuteCommandHandler(registrationOptions, Override(handler));
      this.handler := handler;
      this.setCapability := setCapability;
    }

    /** The inherited public `Handle` of the registered handler: the supplied function runs,
        with the request, the reporter and the token, inside the reporter's scope, and its
        outcome is returned unchanged. */
    method Handle(request: P, token: CancellationToken) returns (r: Outcome<Unit>, trace: seq<Event>)
      requires Valid()
      ensures r == handler(request, Disposable(WorkDoneProgress), token)
      ensures trace == Using(Resources, [InnerHandled]) && WellBracketed(trace)
      ensures trace[1] == InnerHandled && Replay([], trace[..1]) == Some(Resources)
    {
      r, trace := base.Handle(request, token);
    }

    /** The `SetCapability` override: invokes the callback when there is one, and never
        writes the base `Capability` slot. */
    method SetCapability(capability: Option<Cap>)
      modifies if setCapability == null then {} else {setCapability}
      ensures base.capability == old(base.capability)
      ensures setCapability != null ==> setCapability.received == old(setCapability.received) + [capability]
    {
      if setCapability != null {
        setCapability.Invoke(capability);
      }
    }
  }

  /** `OnExecuteCommand`: registers the caller's options object itself, or a fresh
      default one when the caller passed none, and returns the delegating handler handed
      to the registry. */
  method OnExecuteCommand<P, Cap>(
    handler: (P, Disposable, CancellationToken) -> Outcome<Unit>,
    registrationOptions: ExecuteCommandRegistrationOptions?,
    setCapability: CapabilityCallback?<Cap>)
    returns (registered: DelegatingHandler<P, Cap>)
    ensures fresh(registered) && fresh(registered.base)
    ensures registrationOptions != null ==>
              registered.base.options == registrationOptions && unchanged(registrationOptions)
    ensures registrationOptions == null ==>
              fresh(registered.base.options) && registered.base.options.commands == None
    ensures registered.Valid() && registered.handler == handler
    ensures registered.setCapability == setCapability && registered.base.capability == None
  {
    var options := registrationOptions;
    if options == null {
      options := new ExecuteCommandRegistrationOptions();
    }
    registered := new DelegatingHandler(handler, setCapability, options);
  }
}
