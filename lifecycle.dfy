/** The per-request resources a handler wrapper opens with `using var`, and the
    trace of acquire/dispose events such a scope produces. The resources come from
    the progress manager; here they are abstract disposables known only by kind. */
module Lifecycle {
  import opened Common

  /** The partial-result observer (`ProgressManager.For`) and the work-done
      reporter (`ProgressManager.Delegate`). */
  datatype Resource = PartialResults | WorkDoneProgress

  /** An object returned by the progress manager and released by `Dispose`. */
  datatype Disposable = Disposable(resource: Resource)

  datatype Event = Acquired(resource: Resource) | InnerHandled | Disposed(resource: Resource)

  /** The trace of `using var r0 = ..; .. using var rn = ..; body`: each resource is
      acquired on entry and disposed when the enclosing scope is left, innermost first. */
  function Using(resources: seq<Resource>, body: seq<Event>): (events: seq<Event>)
    ensures |events| == 2 * |resources| + |body|
  {
    if resources == [] then body
    else [Acquired(resources[0])] + Using(resources[1..], body) + [Disposed(resources[0])]
  }

  /** The acquisitions of `resources`, in order. */
  function Acquisitions(resources: seq<Resource>): (events: seq<Event>)
    ensures |events| == |resources|
    ensures forall i :: 0 <= i < |resources| ==> events[i] == Acquired(resources[i])
  {
    if resources == [] then [] else [Acquired(resources[0])] + Acquisitions(resources[1..])
  }

  /** The disposals of `resources`, last acquired first. */
  function DisposalsReversed(resources: seq<Resource>): (events: seq<Event>)
    ensures |events| == |resources|
    ensures forall i :: 0 <= i < |resources| ==> events[i] == Disposed(resources[|resources| - 1 - i])
  {
    if resources == [] then [] else DisposalsReversed(resources[1..]) + [Disposed(resources[0])]
  }

  /** Replays `events` starting with the stack `open` of resources still open (the last
      element is the most recent). None when a disposal does not release the most
      recently acquired open resource. */
  function Replay(open: seq<Resource>, events: seq<Event>): Option<seq<Resource>>
    decreases |events|
  {
    if events == [] then Some(open)
    else match events[0]
      case Acquired(r) => Replay(open + [r], events[1..])
      case InnerHandled => Replay(open, events[1..])
      case Disposed(r) =>
        if open != [] && open[|open| - 1] == r then Replay(open[..|open| - 1], events[1..]) else None
  }

  function ReplayFrom(open: Option<seq<Resource>>, events: seq<Event>): Option<seq<Resource>>
  {
    match open
    case None => None
    case Some(s) => Replay(s, events)
  }

  /** Every disposal releases the innermost open resource and nothing is left open. */
  predicate WellBracketed(events: seq<Event>)
  {
    Replay([], events) == Some([])
  }

  lemma {:induction false} ReplayAppend(open: seq<Resource>, a: seq<Event>, b: seq<Event>)
    ensures Replay(open, a + b) == ReplayFrom(Replay(open, a), b)
    decreases |a|
  {
    if a == [] {
      assert a + b == b;
    } else {
      assert (a + b)[0] == a[0];
      assert (a + b)[1..] == a[1..] + b;
      match a[0]
      case Acquired(r) => ReplayAppend(open + [r], a[1..], b);
      case InnerHandled => ReplayAppend(open, a[1..], b);
      case Disposed(r) =>
        if open != [] && open[|open| - 1] == r {
          ReplayAppend(open[..|open| - 1], a[1..], b);
        }
    }
  }

  /** A `using` scope around a body that leaves the open resources as it found them
      releases everything it acquired: the whole scope is balanced. */
  lemma {:induction false} UsingBalanced(open: seq<Resource>, resources: seq<Resource>, body: seq<Event>)
    requires Replay(open + resources, body) == Some(open + resources)
    ensures Replay(open, Using(resources, body)) == Some(open)
    decreases |resources|
  {
    if resources != [] {
      var r := resources[0];
      assert (open + [r]) + resources[1..] == open + resources;
      UsingBalanced(open + [r], resources[1..], body);
      var inner := Using(resources[1..], body);
      assert Using(resources, body) == ([Acquired(r)] + inner) + [Disposed(r)];
      assert Replay(open, [Acquired(r)]) == Some(open + [r]);
      ReplayAppend(open, [Acquired(r)], inner);
      assert Replay(open, [Acquired(r)] + inner) == Some(open + [r]);
      assert (open + [r])[..|open + [r]| - 1] == open;
      assert Replay(open + [r], [Disposed(r)]) == Some(open);
      ReplayAppend(open, [Acquired(r)] + inner, [Disposed(r)]);
    } else {
      assert open + resources == open;
    }
  }

  /** The body of a `using` scope runs with every resource of the scope open, and the
      scope is exactly: acquisitions in order, the body, disposals in reverse order. */
  lemma {:induction false} UsingShape(resources: seq<Resource>, body: seq<Event>)
    ensures Using(resources, body) == Acquisitions(resources) + body + DisposalsReversed(resources)
    decreases |resources|
  {
    if resources != [] {
      UsingShape(resources[1..], body);
    }
  }

  lemma {:induction false} AcquisitionsReplay(open: seq<Resource>, resources: seq<Resource>)
    ensures Replay(open, Acquisitions(resources)) == Some(open + resources)
    decreases |resources|
  {
    if resources != [] {
      var r := resources[0];
      assert Acquisitions(resources) == [Acquired(r)] + Acquisitions(resources[1..]);
      AcquisitionsReplay(open + [r], resources[1..]);
      assert (open + [r]) + resources[1..] == open + resources;
      assert Replay(open, Acquisitions(resources)) == Replay(open + [r], Acquisitions(resources[1..]));
    } else {
      assert open + resources == open;
    }
  }

  /** A `using` scope acquires each of its resources once, besides what its body acquires. */
  lemma {:induction false} UsingAcquireCount(resources: seq<Resource>, body: seq<Event>, r: Resource)
    ensures multiset(Using(resources, body))[Acquired(r)] == multiset(resources)[r] + multiset(body)[Acquired(r)]
    decreases |resources|
  {
    if resources != [] {
      var r0, inner := resources[0], Using(resources[1..], body);
      UsingAcquireCount(resources[1..], body, r);
      assert resources == [r0] + resources[1..];
      assert Using(resources, body) == [Acquired(r0)] + (inner + [Disposed(r0)]);
      assert multiset(Using(resources, body)) == multiset([Acquired(r0)]) + multiset(inner) + multiset([Disposed(r0)]);
      assert multiset(resources) == multiset([r0]) + multiset(resources[1..]);
      assert multiset([Acquired(r0)])[Acquired(r)] == multiset([r0])[r];
      assert multiset([Disposed(r0)])[Acquired(r)] == 0;
    }
  }

  /** A `using` scope disposes each of its resources once, besides what its body disposes. */
  lemma {:induction false} UsingDisposeCount(resources: seq<Resource>, body: seq<Event>, r: Resource)
    ensures multiset(Using(resources, body))[Disposed(r)] == multiset(resources)[r] + multiset(body)[Disposed(r)]
    decreases |resources|
  {
    if resources != [] {
      var r0, inner := resources[0], Using(resources[1..], body);
      UsingDisposeCount(resources[1..], body, r);
      assert resources == [r0] + resources[1..];
      assert Using(resources, body) == ([Acquired(r0)] + inner) + [Disposed(r0)];
      assert multiset(Using(resources, body)) == multiset([Acquired(r0)]) + multiset(inner) + multiset([Disposed(r0)]);
      assert multiset(resources) == multiset([r0]) + multiset(resources[1..]);
      assert multiset([Disposed(r0)])[Disposed(r)] == multiset([r0])[r];
      assert multiset([Acquired(r0)])[Disposed(r)] == 0;
    }
  }

  /** The trace of a call wrapped in `using` scopes for `resources` releases each
      resource in the reverse order of acquisition and leaves nothing open. */
  lemma ScopedCallBalanced(resources: seq<Resource>)
    ensures WellBracketed(Using(resources, [InnerHandled]))
  {
    assert [] + resources == resources;
    UsingBalanced([], resources, [InnerHandled]);
  }

  /** In that trace the inner call comes after every acquisition, with all of them open. */
  lemma ScopedCallInScope(resources: seq<Resource>)
    ensures Using(resources, [InnerHandled])[|resources|] == InnerHandled
    ensures Replay([], Using(resources, [InnerHandled])[..|resources|]) == Some(resources)
  {
    var trace := Using(resources, [InnerHandled]);
    UsingShape(resources, [InnerHandled]);
    assert trace[..|resources|] == Acquisitions(resources);
    AcquisitionsReplay([], resources);
    assert [] + resources == resources;
  }

  /** In that trace each resource is acquired and disposed as often as it occurs in `resources`. */
  lemma ScopedCallCounts(resources: seq<Resource>, r: Resource)
    ensures multiset(Using(resources, [InnerHandled]))[Acquired(r)] == multiset(resources)[r]
    ensures multiset(Using(resources, [InnerHandled]))[Disposed(r)] == multiset(resources)[r]
  {
    UsingAcquireCount(resources, [InnerHandled], r);
    UsingDisposeCount(resources, [InnerHandled], r);
  }
  /** One inner call inside a partial-result observer scope with a work-done reporter scope
      nested in it: the five events in this order are the nested `using` trace, well
      bracketed, with both resources open at the call and each acquired and disposed once. */
  lemma ObserverReporterCall(trace: seq<Event>)
    requires trace == [Acquired(PartialResults), Acquired(WorkDoneProgress), InnerHandled,
                       Disposed(WorkDoneProgress), Disposed(PartialResults)]
    ensures trace == Using([PartialResults, WorkDoneProgress], [InnerHandled])
    ensures trace == Acquisitions([PartialResults, WorkDoneProgress]) + [InnerHandled]
                     + DisposalsReversed([PartialResults, WorkDoneProgress])
    ensures WellBracketed(trace)
    ensures trace[2] == InnerHandled && Replay([], trace[..2]) == Some([PartialResults, WorkDoneProgress])
    ensures multiset(trace)[Acquired(PartialResults)] == multiset(trace)[Disposed(PartialResults)] == 1
    ensures multiset(trace)[Acquired(WorkDoneProgress)] == multiset(trace)[Disposed(WorkDoneProgress)] == 1
  {
    var resources := [PartialResults, WorkDoneProgress];
    assert Using([WorkDoneProgress], [InnerHandled]) == [Acquired(WorkDoneProgress), InnerHandled, Disposed(WorkDoneProgress)];
    assert trace == Using(resources, [InnerHandled]);
    UsingShape(resources, [InnerHandled]);
    ScopedCallBalanced(resources);
    ScopedCallInScope(resources);
    assert multiset(resources)[PartialResults] == 1 && multiset(resources)[WorkDoneProgress] == 1;
    ScopedCallCounts(resources, PartialResults);
    ScopedCallCounts(resources, WorkDoneProgress);
  }

  /** One inner call inside a work-done reporter scope alone: the three events in this
      order are the `using` trace, well bracketed, with the reporter open at the call,
      acquired and disposed once, and no partial-result observer event. */
  lemma ReporterCall(trace: seq<Event>)
    requires trace == [Acquired(WorkDoneProgress), InnerHandled, Disposed(WorkDoneProgress)]
    ensures trace == Using([WorkDoneProgress], [InnerHandled])
    ensures trace == Acquisitions([WorkDoneProgress]) + [InnerHandled] + DisposalsReversed([WorkDoneProgress])
    ensures WellBracketed(trace)
    ensures trace[1] == InnerHandled && Replay([], trace[..1]) == Some([WorkDoneProgress])
    ensures multiset(trace)[Acquired(WorkDoneProgress)] == multiset(trace)[Disposed(WorkDoneProgress)] == 1
    ensures multiset(trace)[Acquired(PartialResults)] == multiset(trace)[Disposed(PartialResults)] == 0
  {
    var resources := [WorkDoneProgress];
    assert Using([], [InnerHandled]) == [InnerHandled];
    assert trace == Using(resources, [InnerHandled]);
    UsingShape(resources, [InnerHandled]);
    ScopedCallBalanced(resources);
    ScopedCallInScope(resources);
    assert multiset(resources)[PartialResults] == 0 && multiset(resources)[WorkDoneProgress] == 1;
    ScopedCallCounts(resources, PartialResults);
    ScopedCallCounts(resources, WorkDoneProgress);
  }
}
