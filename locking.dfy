/** The abstract contract of the cache-locking manager: one exclusive lock over the
    shared caches, a held flag, and a trace of what happened. `useCache` acquires the
    lock if it is not held and restores the prior state on exit; `longRunningOperation`
    releases the lock for the duration of its body and restores the prior state on exit.

    The pure part gives two readings of a scoped operation: `Run`, a state machine that
    steps through enter/body/exit, and `Trace`, the event sequence each construct emits.
    `RunTrace` proves them equal; `TraceDisciplined` proves that the events never acquire
    a held lock nor release a free one. The class `CacheLockingManager` is the same
    machine with mutable fields, driven by enter/exit guards. */
module Locking {
  import opened Types

  /** Which entry point of which collaborator a call went to. */
  datatype Facet =
    | LocalAccess                // a repository's cache-only access
    | RemoteAccess               // a repository's network-capable access
    | RepositoryEntry            // a repository's own resolveArtifact
    | DependencyResolverEntry    // a resolver chain's dependency resolver
    | ArtifactResolverEntry      // a resolver chain's artifact resolver

  datatype Endpoint = Endpoint(owner: string, facet: Facet)

  datatype Event =
    | Acquired
    | Released
    | Invoked(endpoint: Endpoint, request: Request, lockHeld: bool)

  datatype LockState = LockState(held: bool, events: seq<Event>)

  /** A runnable, as far as locking is concerned: a delegate call, one of the two
      lock scopes around a body, or two runnables one after the other. */
  datatype Operation =
    | CallOp(endpoint: Endpoint, request: Request)
    | UseCacheOp(body: Operation)
    | LongRunningOp(body: Operation)
    | SeqOp(first: Operation, second: Operation)

  function Acquire(s: LockState): LockState {
    LockState(true, s.events + [Acquired])
  }

  function Release(s: LockState): LockState {
    LockState(false, s.events + [Released])
  }

  function Log(s: LockState, endpoint: Endpoint, request: Request): LockState {
    s.(events := s.events + [Invoked(endpoint, request, s.held)])
  }

  function EnterUseCache(s: LockState): LockState {
    if s.held then s else Acquire(s)
  }

  function ExitUseCache(s: LockState, prior: bool): LockState {
    if prior then s else Release(s)
  }

  function EnterLongRunning(s: LockState): LockState {
    if s.held then Release(s) else s
  }

  function ExitLongRunning(s: LockState, prior: bool): LockState {
    if prior then Acquire(s) else s
  }

  /** The state machine: each scope enters, runs its body, and exits according to
      the lock state it found on entry. Every operation leaves the lock as it found
      it and only appends to the trace. */
  function Run(s: LockState, op: Operation): (t: LockState)
    ensures t.held == s.held
    ensures s.events <= t.events
    decreases op
  {
    match op
    case CallOp(e, r) => Log(s, e, r)
    case UseCacheOp(body) => ExitUseCache(Run(EnterUseCache(s), body), s.held)
    case LongRunningOp(body) => ExitLongRunning(Run(EnterLongRunning(s), body), s.held)
    case SeqOp(a, b) => Run(Run(s, a), b)
  }

  /** The events an operation emits when started with the lock `held` or not. */
  function Trace(op: Operation, held: bool): seq<Event>
    decreases op
  {
    match op
    case CallOp(e, r) => [Invoked(e, r, held)]
    case UseCacheOp(body) =>
      if held then Trace(body, true) else [Acquired] + Trace(body, true) + [Released]
    case LongRunningOp(body) =>
      if held then [Released] + Trace(body, false) + [Acquired] else Trace(body, false)
    case SeqOp(a, b) => Trace(a, held) + Trace(b, held)
  }

  /** The state machine appends exactly the events `Trace` describes. */
  lemma {:induction false} RunTrace(s: LockState, op: Operation)
    ensures Run(s, op) == LockState(s.held, s.events + Trace(op, s.held))
    decreases op
  {
    match op
    case CallOp(e, r) =>
    case UseCacheOp(body) =>
      RunTrace(EnterUseCache(s), body);
      if !s.held {
        assert s.events + [Acquired] + Trace(body, true) + [Released]
            == s.events + ([Acquired] + Trace(body, true) + [Released]);
      }
    case LongRunningOp(body) =>
      RunTrace(EnterLongRunning(s), body);
      if s.held {
        assert s.events + [Released] + Trace(body, false) + [Acquired]
            == s.events + ([Released] + Trace(body, false) + [Acquired]);
      }
    case SeqOp(a, b) =>
      RunTrace(s, a);
      RunTrace(Run(s, a), b);
      assert s.events + Trace(a, s.held) + Trace(b, s.held) == s.events + (Trace(a, s.held) + Trace(b, s.held));
  }

  /** The lock state after an event. */
  function Step(held: bool, e: Event): bool {
    match e
    case Acquired => true
    case Released => false
    case Invoked(_, _, _) => held
  }

  /** An event is allowed when it neither acquires a held lock nor releases a free
      one, and a call records the lock state it really ran under. */
  predicate Allowed(held: bool, e: Event) {
    match e
    case Acquired => !held
    case Released => held
    case Invoked(_, _, lockHeld) => lockHeld == held
  }

  predicate Disciplined(held: bool, events: seq<Event>)
    decreases |events|
  {
    events == [] || (Allowed(held, events[0]) && Disciplined(Step(held, events[0]), events[1..]))
  }

  function HeldAfter(held: bool, events: seq<Event>): bool
    decreases |events|
  {
    if events == [] then held else HeldAfter(Step(held, events[0]), events[1..])
  }

  lemma {:induction false} DisciplinedAppend(held: bool, a: seq<Event>, b: seq<Event>)
    ensures Disciplined(held, a + b) <==> Disciplined(held, a) && Disciplined(HeldAfter(held, a), b)
    ensures HeldAfter(held, a + b) == HeldAfter(HeldAfter(held, a), b)
    decreases |a|
  {
    if a != [] {
      assert (a + b)[0] == a[0];
      assert (a + b)[1..] == a[1..] + b;
      DisciplinedAppend(Step(held, a[0]), a[1..], b);
    } else {
      assert a + b == b;
    }
  }

  /** Scoped locking is well-bracketed: nested `useCache` never acquires twice,
      `longRunningOperation` never releases a free lock, every call records the
      lock state it ran under, and the lock ends as it started. */
  lemma {:induction false} TraceDisciplined(op: Operation, held: bool)
    ensures Disciplined(held, Trace(op, held))
    ensures HeldAfter(held, Trace(op, held)) == held
    decreases op
  {
    match op
    case CallOp(e, r) =>
      assert Trace(op, held)[1..] == [];
    case UseCacheOp(body) =>
      TraceDisciplined(body, true);
      if !held {
        DisciplinedAppend(held, [Acquired], Trace(body, true));
        assert [Acquired][1..] == [];
        DisciplinedAppend(held, [Acquired] + Trace(body, true), [Released]);
        assert [Released][1..] == [];
      }
    case LongRunningOp(body) =>
      TraceDisciplined(body, false);
      if held {
        DisciplinedAppend(held, [Released], Trace(body, false));
        assert [Released][1..] == [];
        DisciplinedAppend(held, [Released] + Trace(body, false), [Acquired]);
        assert [Acquired][1..] == [];
      }
    case SeqOp(a, b) =>
      TraceDisciplined(a, held);
      TraceDisciplined(b, held);
      DisciplinedAppend(held, Trace(a, held), Trace(b, held));
  }

  /** The delegate calls among some events, in order. */
  function Invocations(events: seq<Event>): (calls: seq<Event>)
    decreases |events|
  {
    if events == [] then []
    else (if events[0].Invoked? then [events[0]] else []) + Invocations(events[1..])
  }

  lemma {:induction false} InvocationsAppend(a: seq<Event>, b: seq<Event>)
    ensures Invocations(a + b) == Invocations(a) + Invocations(b)
    decreases |a|
  {
    if a != [] {
      assert (a + b)[0] == a[0];
      assert (a + b)[1..] == a[1..] + b;
      InvocationsAppend(a[1..], b);
    } else {
      assert a + b == b;
    }
  }

  /** The delegate calls an operation makes, each with the lock state of its
      innermost enclosing scope (or the starting state when there is none). */
  function ScopedCalls(op: Operation, held: bool): seq<Event>
    decreases op
  {
    match op
    case CallOp(e, r) => [Invoked(e, r, held)]
    case UseCacheOp(body) => ScopedCalls(body, true)
    case LongRunningOp(body) => ScopedCalls(body, false)
    case SeqOp(a, b) => ScopedCalls(a, held) + ScopedCalls(b, held)
  }

  /** Inside `longRunningOperation` every call runs without the lock, inside
      `useCache` every call runs with it, whatever the state on entry. */
  lemma {:induction false} TraceInvocations(op: Operation, held: bool)
    ensures Invocations(Trace(op, held)) == ScopedCalls(op, held)
    decreases op
  {
    match op
    case CallOp(e, r) =>
      assert Trace(op, held)[1..] == [];
    case UseCacheOp(body) =>
      TraceInvocations(body, true);
      if !held {
        InvocationsAppend([Acquired], Trace(body, true));
        InvocationsAppend([Acquired] + Trace(body, true), [Released]);
        assert [Acquired][1..] == [];
        assert [Released][1..] == [];
      }
    case LongRunningOp(body) =>
      TraceInvocations(body, false);
      if held {
        InvocationsAppend([Released], Trace(body, false));
        InvocationsAppend([Released] + Trace(body, false), [Acquired]);
        assert [Acquired][1..] == [];
        assert [Released][1..] == [];
      }
    case SeqOp(a, b) =>
      TraceInvocations(a, held);
      TraceInvocations(b, held);
      InvocationsAppend(Trace(a, held), Trace(b, held));
  }

  /** A delegate call run through `longRunningOperation` is made exactly once, without
      the lock, and the lock ends as it was on entry. */
  lemma LongRunningCallIsUnlocked(s: LockState, endpoint: Endpoint, request: Request)
    ensures Run(s, LongRunningOp(CallOp(endpoint, request))).held == s.held
    ensures Invocations(Run(s, LongRunningOp(CallOp(endpoint, request))).events[|s.events|..])
         == [Invoked(endpoint, request, false)]
  {
    var op := LongRunningOp(CallOp(endpoint, request));
    RunTrace(s, op);
    TraceInvocations(op, s.held);
    assert Run(s, op).events[|s.events|..] == Trace(op, s.held);
  }

  /** A delegate call run through `useCache` is made exactly once, with the lock
      held, and the lock ends as it was on entry. */
  lemma UseCacheCallIsLocked(s: LockState, endpoint: Endpoint, request: Request)
    ensures Run(s, UseCacheOp(CallOp(endpoint, request))).held == s.held
    ensures Invocations(Run(s, UseCacheOp(CallOp(endpoint, request))).events[|s.events|..])
         == [Invoked(endpoint, request, true)]
  {
    var op := UseCacheOp(CallOp(endpoint, request));
    RunTrace(s, op);
    TraceInvocations(op, s.held);
    assert Run(s, op).events[|s.events|..] == Trace(op, s.held);
  }

  /** A parent lookup (under `useCache`) that reaches a lock-releasing remote call
      (under `longRunningOperation`): the remote call still runs without the lock,
      and the lock is held again, or still free, as on entry. */
  lemma LockedLookupOfRemoteCall(s: LockState, endpoint: Endpoint, request: Request)
    ensures Run(s, UseCacheOp(LongRunningOp(CallOp(endpoint, request)))).held == s.held
    ensures Invocations(Run(s, UseCacheOp(LongRunningOp(CallOp(endpoint, request)))).events[|s.events|..])
         == [Invoked(endpoint, request, false)]
    ensures Disciplined(s.held, Run(s, UseCacheOp(LongRunningOp(CallOp(endpoint, request)))).events[|s.events|..])
  {
    var op := UseCacheOp(LongRunningOp(CallOp(endpoint, request)));
    var added := Run(s, op).events[|s.events|..];
    assert added == Trace(op, s.held) by {
      RunTrace(s, op);
    }
    assert ScopedCalls(op, s.held) == ScopedCalls(CallOp(endpoint, request), false);
    TraceInvocations(op, s.held);
    TraceDisciplined(op, s.held);
  }

  /** `useCache` is reentrant: a nested scope adds no acquire and no release. */
  lemma NestedUseCacheIsInline(body: Operation, held: bool)
    ensures Trace(UseCacheOp(UseCacheOp(body)), held) == Trace(UseCacheOp(body), held)
  {
  }

  /** The mutable lock manager. It holds the same state as `LockState`; the enter
      methods return the prior state, which the matching exit method restores. */
  class CacheLockingManager {
    var held: bool
    var events: seq<Event>

    function State(): LockState
      reads this
    {
      LockState(held, events)
    }

    constructor ()
      ensures State() == LockState(false, [])
    {
      held := false;
      events := [];
    }

    method BeginUseCache() returns (prior: bool)
      modifies this
      ensures prior == old(held)
      ensures State() == EnterUseCache(old(State()))
    {
      prior := held;
      if !held {
        held := true;
        events := events + [Acquired];
      }
    }

    method EndUseCache(prior: bool)
      modifies this
      ensures State() == ExitUseCache(old(State()), prior)
    {
      if !prior {
        held := false;
        events := events + [Released];
      }
    }

    method BeginLongRunning() returns (prior: bool)
      modifies this
      ensures prior == old(held)
      ensures State() == EnterLongRunning(old(State()))
    {
      prior := held;
      if held {
        held := false;
        events := events + [Released];
      }
    }

    method EndLongRunning(prior: bool)
      modifies this
      ensures State() == ExitLongRunning(old(State()), prior)
    {
      if prior {
        held := true;
        events := events + [Acquired];
      }
    }

    /** Records a delegate call together with the lock state it runs under. */
    method LogInvocation(endpoint: Endpoint, request: Request)
      modifies this
      ensures State() == Log(old(State()), endpoint, request)
    {
      events := events + [Invoked(endpoint, request, held)];
    }
  }
}
