# Handler lifecycle, capability slots and registration options of an LSP server library

This project models, in Dafny, the cross-cutting core of three request handlers of a
C# Language Server Protocol library, and the `Location` value type they pass around:

- **Code lens** (`textDocument/codeLens`, with its `codeLens/resolve` companion),
  **references** (`textDocument/references`) and **execute command**
  (`workspace/executeCommand`). Each has an abstract handler class whose public
  `Handle(request, token)` opens per-request resources from the progress manager with
  `using var`, awaits the abstract inner `Handle`, and returns its result; a
  `Capability` slot written by `SetCapability`; a getter for the registration options
  given to the constructor; and a registration facade (`OnCodeLens`, `OnReferences`,
  `OnExecuteCommand`) that derives the registration options and builds a
  `DelegatingHandler` from plain function values.
- **`Location`**: a URI and a range, compared structurally with null-aware equality,
  with `==`/`!=` operators and a hash code computed in unchecked 32-bit arithmetic.

How the model is laid out:

- `common.dfy` holds `Common` (nullable references as `Option`, the outcome of an awaited
  task as `Outcome` = `Success | Failure | Cancelled`, the capability callback object)
  and `Catalogue` (method names and their `[Parallel]`/`[Serial]` tags as static data).
- `lifecycle.dfy` (`Lifecycle`) gives the meaning of nested `using` scopes as a trace of
  `Acquired`/`InnerHandled`/`Disposed` events, an independent stack-replay check of
  that trace (`Replay`, `WellBracketed`), and lemmas connecting the two.
- `codelens.dfy`, `references.dfy` and `execute_command.dfy` hold one module per handler
  file. Each abstract base handler is a class whose abstract inner `Handle` is a
  function-valued constant fixed at construction; the wrapper passes it the current
  `Capability` slot along with the request, the resources and the token. `SetCapability` writes the `capability`
  field. The delegating subclass is a class holding its base handler (`base`), the
  supplied functions and the optional callback. Its `SetCapability` invokes the callback
  when there is one and leaves `base.capability` alone. The public wrapper `Handle`
  returns the inner outcome together with the event trace of its resources.
- `location.dfy` (`Models`) holds `Location` over opaque component types. The default
  equality comparer of a component is a `Comparer` (equality and hash on non-null
  values). The null handling of .NET's `EqualityComparer<T>.Default` is written out:
  null equals only null, and null hashes to 0.

Three behaviours of the library are easy to miss:

- `OnCodeLens` does not merge the caller's options. It builds fresh options, copies
  only `DocumentSelector`, and discards a caller-set `ResolveProvider`.
- `ExecuteCommandHandler.Handle` opens only the work-done reporter, with no
  partial-result observer.
- The base `SetCapability` stores every value it is given, null included, each time
  it is called.

## Model

| member | source | states |
|---|---|---|
| `Catalogue.Policy` | src/Protocol/Workspace/Server/IExecuteCommandHandler.cs:13 | execute command is the only `Serial` method; code lens, code lens resolve and references are `Parallel` |
| `Lifecycle.Using` | src/Protocol/Document/Server/ICodeLensHandler.cs:32-34 | the trace of nested `using` scopes has exactly two events per resource (its acquisition and its disposal) besides the body's |
| `Lifecycle.UsingShape` | src/Protocol/Document/Server/ICodeLensHandler.cs:32-34 | a `using` trace is the acquisitions in declaration order, then the body, then the disposals in reverse order |
| `Lifecycle.UsingBalanced` | src/Protocol/Document/Server/ICodeLensHandler.cs:32-34 | if the body leaves the open resources as it found them, then the whole scope replays to the stack it started from, with every disposal releasing the innermost open resource |
| `Lifecycle.UsingAcquireCount` | src/Protocol/Document/Server/ICodeLensHandler.cs:32-33 | a scope acquires each resource exactly as often as it is declared, plus whatever the body acquires |
| `Lifecycle.UsingDisposeCount` | src/Protocol/Document/Server/ICodeLensHandler.cs:32-33 | a scope disposes each resource exactly as often as it is declared, plus whatever the body disposes |
| `Lifecycle.ScopedCallBalanced` | src/Protocol/Document/Server/IReferencesHandler.cs:29-31 | the trace of one inner call inside the scopes is well bracketed: nothing is released out of order or left open |
| `Lifecycle.ScopedCallInScope` | src/Protocol/Document/Server/IReferencesHandler.cs:29-31 | the inner call comes right after the acquisitions, while every resource is open |
| `Lifecycle.ScopedCallCounts` | src/Protocol/Document/Server/IReferencesHandler.cs:29-31 | in that trace each resource is acquired and disposed exactly as often as it is declared |
| `Lifecycle.ObserverReporterCall` | src/Protocol/Document/Server/ICodeLensHandler.cs:32-34 | observer acquired, reporter acquired, inner call, reporter disposed, observer disposed: that order is the nested `using` trace, well bracketed, with both open at the call and each acquired and disposed once |
| `Lifecycle.ReporterCall` | src/Protocol/Workspace/Server/IExecuteCommandHandler.cs:33-34 | reporter acquired, inner call, reporter disposed: that order is the `using` trace, well bracketed, with the reporter open at the call and no observer event |
| `CodeLens.CodeLensRegistrationOptions.constructor` | src/Protocol/Document/Server/ICodeLensHandler.cs:60 | fresh options have no document selector and `ResolveProvider` false |
| `CodeLens.CodeLensHandler.constructor` | src/Protocol/Document/Server/ICodeLensHandler.cs:22-28 | `GetRegistrationOptions` returns exactly the options object passed in; the `Capability` slot starts null |
| `CodeLens.CodeLensHandler.Handle` | src/Protocol/Document/Server/ICodeLensHandler.cs:30-35 | returns the inner outcome unchanged (success, failure or cancellation), the inner call seeing the current `Capability`; acquires the observer then the reporter, calls the inner `Handle` with both open, disposes the reporter then the observer, once each, on every outcome |
| `CodeLens.CodeLensHandler.SetCapability` | src/Protocol/Document/Server/ICodeLensHandler.cs:46-47 | the slot afterwards holds exactly the value given, so a read sees the latest value set |
| `CodeLens.DelegatingHandler.constructor` | src/Protocol/Document/Server/ICodeLensHandler.cs:76-88 | the base handler gets the options, and as its inner `Handle` the list override, which forwards to the supplied function; base slot starts null |
| `CodeLens.DelegatingHandler.Handle` | src/Protocol/Document/Server/ICodeLensHandler.cs:90-95 | the registered handler's public `Handle` dispatches to the list override: the outcome is the supplied function applied to the request, the observer, the reporter and the token, returned unchanged, and the call sits inside the well-bracketed observer/reporter scopes |
| `CodeLens.DelegatingHandler.HandleResolve` | src/Protocol/Document/Server/ICodeLensHandler.cs:96 | with a resolve function present, forwards the lens and token to it and returns its outcome; `OnCodeLens` guarantees it is present whenever resolve is offered |
| `CodeLens.DelegatingHandler.CanResolve` | src/Protocol/Document/Server/ICodeLensHandler.cs:97 | with a predicate present, returns the predicate's verdict on the lens; `OnCodeLens` guarantees it is present whenever resolve is offered |
| `CodeLens.DelegatingHandler.SetCapability` | src/Protocol/Document/Server/ICodeLensHandler.cs:98 | a null callback changes nothing; otherwise the callback receives the value; the base slot is never written |
| `CodeLens.OnCodeLens` | src/Protocol/Document/Server/ICodeLensHandler.cs:52-67 | registers fresh options whose `ResolveProvider` is true iff both `canResolve` and `resolveHandler` are non-null, whose `DocumentSelector` is the caller's (default when the caller passed null), and nothing else from the caller; resolve is offered only when both resolve members can be served; the registered handler dispatches to its overrides; the caller's object is untouched |
| `References.ReferenceRegistrationOptions.constructor` | src/Protocol/Document/Server/IReferencesHandler.cs:53 | default options have no document selector |
| `References.ReferencesHandler.constructor` | src/Protocol/Document/Server/IReferencesHandler.cs:19-25 | `GetRegistrationOptions` returns exactly the options object passed in; the slot starts null |
| `References.ReferencesHandler.Handle` | src/Protocol/Document/Server/IReferencesHandler.cs:27-32 | returns the inner outcome unchanged, the inner call seeing the current `Capability`; observer and reporter acquired in that order, both open for the inner call, disposed once each in reverse order on every outcome |
| `References.ReferencesHandler.SetCapability` | src/Protocol/Document/Server/IReferencesHandler.cs:41-42 | the slot afterwards holds exactly the value given |
| `References.DelegatingHandler.constructor` | src/Protocol/Document/Server/IReferencesHandler.cs:62-70 | the base handler gets the options, and as its inner `Handle` the override, which forwards to the supplied function; base slot starts null |
| `References.DelegatingHandler.Handle` | src/Protocol/Document/Server/IReferencesHandler.cs:72-77 | the registered handler's public `Handle` dispatches to the override: the outcome is the supplied function applied to all four arguments, returned unchanged, inside the well-bracketed observer/reporter scopes |
| `References.DelegatingHandler.SetCapability` | src/Protocol/Document/Server/IReferencesHandler.cs:79 | a null callback changes nothing; otherwise the callback receives the value; the base slot is never written |
| `References.OnReferences` | src/Protocol/Document/Server/IReferencesHandler.cs:47-55 | null options are replaced by a fresh default object; otherwise the caller's object itself is registered, unmodified |
| `ExecuteCommand.ExecuteCommandRegistrationOptions.constructor` | src/Protocol/Workspace/Server/IExecuteCommandHandler.cs:51 | default options list no commands |
| `ExecuteCommand.ExecuteCommandHandler.constructor` | src/Protocol/Workspace/Server/IExecuteCommandHandler.cs:21-27 | `GetRegistrationOptions` returns exactly the options object passed in; the slot starts null |
| `ExecuteCommand.ExecuteCommandHandler.Handle` | src/Protocol/Workspace/Server/IExecuteCommandHandler.cs:29-35 | returns the inner `Unit` outcome unchanged, the inner call seeing the current `Capability`; only the reporter is acquired, it is open for the inner call and disposed once on every outcome; no partial-result observer is ever acquired |
| `ExecuteCommand.ExecuteCommandHandler.SetCapability` | src/Protocol/Workspace/Server/IExecuteCommandHandler.cs:39-40 | the slot afterwards holds exactly the value given |
| `ExecuteCommand.DelegatingHandler.constructor` | src/Protocol/Workspace/Server/IExecuteCommandHandler.cs:60-67 | the base handler gets the options, and as its inner `Handle` the override, which forwards to the supplied function; base slot starts null |
| `ExecuteCommand.DelegatingHandler.Handle` | src/Protocol/Workspace/Server/IExecuteCommandHandler.cs:69 | the registered handler's public `Handle` dispatches to the override: the outcome is the supplied function applied to request, reporter and token, returned unchanged, inside the reporter's scope |
| `ExecuteCommand.DelegatingHandler.SetCapability` | src/Protocol/Workspace/Server/IExecuteCommandHandler.cs:70 | a null callback changes nothing; otherwise the callback receives the value; the base slot is never written |
| `ExecuteCommand.OnExecuteCommand` | src/Protocol/Workspace/Server/IExecuteCommandHandler.cs:45-53 | null options are replaced by a fresh default object; otherwise the caller's object itself is registered, unmodified |
| `Common.CapabilityCallback.Invoke` | src/Protocol/Document/Server/ICodeLensHandler.cs:98 | invoking the caller's capability callback hands it exactly the value given |
| `Models.Wrap32` | src/Protocol/Models/Location.cs:36-39 | unchecked `int` arithmetic: the result is in 32-bit range and differs from the exact value by a multiple of 2^32 |
| `Models.DefaultEquals` | src/Protocol/Models/Location.cs:30-31 | the default comparer treats two nulls as equal, null and non-null as unequal, and otherwise defers to the type's equality |
| `Models.DefaultHash` | src/Protocol/Models/Location.cs:37-38 | the default comparer hashes null to 0 and otherwise uses the type's hash |
| `Models.AsLocation` | src/Protocol/Models/Location.cs:24 | `as Location` yields a location exactly for a `Location` argument, and null otherwise |
| `Models.Equals` | src/Protocol/Models/Location.cs:27-32 | true iff the other location is non-null, the `Uri`s are both null or both non-null and equal, and likewise the `Range`s |
| `Models.EqualsObject` | src/Protocol/Models/Location.cs:22-25 | false for null and for any non-`Location` argument; for a `Location` it agrees with the typed `Equals` |
| `Models.OpEquals` | src/Protocol/Models/Location.cs:42-45 | `==` is true for two nulls, false when exactly one side is null, and the typed `Equals` otherwise |
| `Models.OpNotEquals` | src/Protocol/Models/Location.cs:47-50 | `!=` holds exactly when one side is null, or neither is and `Equals` fails: the negation of `==` |
| `Models.EqualsReflexive` | src/Protocol/Models/Location.cs:27-32 | with reflexive component equalities, every location equals itself through typed `Equals`, `Equals(object)` and `==` |
| `Models.EqualsSymmetric` | src/Protocol/Models/Location.cs:27-32 | with symmetric component equalities, `==` and `Equals` are symmetric, null sides included |
| `Models.EqualsTransitive` | src/Protocol/Models/Location.cs:27-32 | with transitive component equalities, `Equals` is transitive |
| `Models.GetHashCode` | src/Protocol/Models/Location.cs:34-40 | the step-by-step wrapped hash equals `(1486144663 * -1521134295 + h(Uri)) * -1521134295 + h(Range)` reduced to 32 bits once |
| `Models.NullLocationHash` | src/Protocol/Models/Location.cs:34-40 | a location whose fields are both null hashes to -1372907129 |
| `Models.EqualLocationsHashAlike` | src/Protocol/Models/Location.cs:27-40 | equal locations have equal hash codes when the component hashes respect the component equalities |

## Left out

- `CodeLens.CodeLensHandler.Handle`, `References.ReferencesHandler.Handle` and `ExecuteCommand.ExecuteCommandHandler.Handle` assume that `For`, `Delegate` and `Dispose` never throw. In C#, if `Delegate` throws after `For` returned, the observer is disposed and the exception propagates without the inner `Handle` being called; if the reporter's `Dispose` throws, the observer is still disposed. The model has no such path: every call acquires all its resources and produces the full trace.
- The progress manager (`ProgressManager.For` and `Delegate`) is not modelled. Its resources are abstract disposables known only by kind, so its no-op stubs, dropping of emissions after close and idempotent double dispose are outside the model. The handler constructors therefore take no progress manager.
- `async`/`Task`/`ConfigureAwait`: the inner call is a synchronous function returning an `Outcome`. An exception is the `Failure` variant and cancellation is the `Cancelled` variant. The `CancellationToken` is only carried along.
- The scheduling implied by `[Parallel]`/`[Serial]` belongs to the dispatcher; the tags are recorded as static data only.
- `ILanguageServerRegistry.AddHandlers` and the unregistration handle it returns are a foreign registry. The facades return the delegating handler they would register.
- `IObserver<T>` semantics and the partial results or progress reports an inner handler emits are not modelled. The trace records only acquisitions, the inner call and disposals.
- The JSON converter on `Uri`, and the real equality and hash of `Uri` and `Range`, are left out. Both types are opaque, and their comparers are parameters.
- The fields of the registration options classes beyond the fields this model keeps (`DocumentSelector`, `ResolveProvider`, `Commands`) are left out, since those classes are not part of this model.
- `CodeLens.DelegatingHandler.HandleResolve` and `CodeLens.DelegatingHandler.CanResolve` require their function to be present. The code would dereference null otherwise, and that failure is not modelled.
- The inner `Handle` of a base handler receives the `Capability` slot's value and nothing else of the handler. A C# subclass could also read its other members or write the slot from inside `Handle`, and that is not modelled.
- `OnCodeLens` copies the caller's `DocumentSelector` as a value. In C# the fresh options share the caller's selector object, and that aliasing is not modelled.
- C# inheritance is modelled by composition, since the delegating handler holds its base handler. The model therefore does not capture a subclass overriding other virtual members. In particular `registered.base.SetCapability` stays callable on a registered handler and writes the base slot, whereas C#'s virtual dispatch always routes `SetCapability` on a delegating handler to the callback override.
