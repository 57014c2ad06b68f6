/** Values shared by the handler modules: nullable references, the outcome of an
    asynchronous call, and the callback object handed to the registration facade. */
module Common {

  /** A reference that may be null. */
  datatype Option<+T> = None | Some(value: T)

  /** How an awaited `Task<T>` ends: with a value, with an exception, or cancelled. */
  datatype Outcome<+T> = Success(value: T) | Failure(message: string) | Cancelled

  /** MediatR's `Unit`, the result type of commands. */
  datatype Unit = Unit

  /** The cancellation signal threaded through every call; only carried, never inspected here. */
  datatype CancellationToken = CancellationToken(cancellationRequested: bool)

  /** One entry of an LSP document selector. */
  datatype DocumentFilter = DocumentFilter(language: Option<string>, scheme: Option<string>, pattern: Option<string>)

  type DocumentSelector = seq<DocumentFilter>

  /** An `Action<C>` supplied by the caller of the registration facade. What it does is
      outside this model; the object records the arguments it was invoked with. */
  class CapabilityCallback<C> {
    var received: seq<Option<C>>

    constructor ()
      ensures received == []
    {
      received := [];
    }

    method Invoke(capability: Option<C>)
      modifies this
      ensures received == old(received) + [capability]
    {
      received := received + [capability];
    }
  }
}

/** The methods of the handlers modelled here and the `[Parallel]`/`[Serial]` attribute
    on each, which selects the dispatch policy. */
module Catalogue {

  datatype DispatchPolicy = Parallel | Serial

  datatype Method = CodeLensMethod | CodeLensResolveMethod | ReferencesMethod | ExecuteCommandMethod

  /** Only command execution is serialised; the document queries may overlap. */
  function Policy(m: Method): (p: DispatchPolicy)
    ensures p == Serial <==> m == ExecuteCommandMethod
    ensures p == Parallel <==> m in {CodeLensMethod, CodeLensResolveMethod, ReferencesMethod}
  {
    match m
    case ExecuteCommandMethod => Serial
    case _ => Parallel
  }
}
