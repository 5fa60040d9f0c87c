/**
 * The three hooks as objects whose fields the hook code updates in place:
 * `reqId` (the ref incremented by `++`), the mounted ref of `useIsMounted`,
 * the per-effect `canceled` flags of `useQuery`, and the state record that
 * `setState` overwrites. Each method is one event of Lifecycle.Step; what the
 * guard guarantees is proved there, about Step.
 */
module Hooks {
  import opened Values
  import opened Errors
  import opened Lifecycle

  /** `useIsMounted`: a ref that is true while the host is mounted. */
  class MountedRef {
    var current: bool

    /** `useRef(true)` */
    constructor ()
      ensures current
    {
      current := true;
    }

    /** The effect body: the host (re)mounted. */
    method Mount()
      modifies this
      ensures current
    {
      current := true;
    }

    /** The effect cleanup: the host unmounted. */
    method Unmount()
      modifies this
      ensures !current
    {
      current := false;
    }
  }

  /** `useQuery`: runs the fetcher from an effect whenever its dependencies change. */
  class Query<T> {
    var state: AsyncState<T>
    const isMounted: MountedRef
    var reqId: nat
    /** The effect runs whose cleanup has set their `canceled` flag, by request id. */
    var canceled: set<nat>
    /** The effect run whose cleanup is still pending. */
    var effect: Option<nat>

    ghost function Model(): Hook<T>
      reads this, isMounted
    {
      Hook(QueryKind, state, reqId, isMounted.current, canceled, effect)
    }

    ghost predicate Valid()
      reads this, isMounted
    {
      Lifecycle.Valid(Model())
    }

    constructor ()
      ensures fresh(isMounted) && Model() == Fresh(QueryKind) && Valid()
    {
      state := IdleState();
      isMounted := new MountedRef();
      reqId := 0;
      canceled := {};
      effect := None;
    }

    /** The cleanup returned by the previous effect run: sets that run's `canceled` flag. */
    method RunCleanup()
      modifies this
      ensures Model() == Lifecycle.Cleanup(old(Model()))
    {
      if effect.Some? {
        canceled := canceled + {effect.value};
        effect := None;
      }
    }

    /**
     * The effect, run after its dependencies changed: React first runs the
     * previous run's cleanup; a disabled query stops there, an enabled one
     * takes the next request id and enters loading, keeping its data.
     */
    method RunEffect(opts: Option<QueryOptions>) returns (myReq: Option<nat>)
      requires Valid()
      modifies this
      ensures Valid()
      ensures Model() == Step(old(Model()), EffectRun(opts))
      ensures myReq.Some? <==> Enabled(opts)
      ensures myReq.Some? ==> myReq.value == reqId == old(reqId) + 1
      ensures !Enabled(opts) ==> reqId == old(reqId) && state == old(state)
    {
      RunCleanup();
      if !Enabled(opts) {
        myReq := None;
        StepKeepsValid(old(Model()), Skipped);
        return;
      }
      reqId := reqId + 1;
      state := state.(status := Loading, loading := true, error := None);
      effect := Some(reqId);
      myReq := Some(reqId);
      StepKeepsValid(old(Model()), Invoked);
    }

    /** The fetcher of effect run `myReq` settled: written only if the guard lets it through. */
    method Settle(myReq: nat, outcome: Result<T, Thrown>)
      requires Valid()
      modifies this
      ensures Valid()
      ensures Model() == Step(old(Model()), Resolved(myReq, outcome))
    {
      StepKeepsValid(Model(), Resolved(myReq, outcome));
      if !isMounted.current || myReq in canceled || myReq != reqId {
        return;
      }
      match outcome
      case Ok(data) =>
        state := AsyncState(Success, false, Some(data), None);
      case Err(err) =>
        state := AsyncState(Error, false, None, Some(Normalize(err)));
    }

    /** The host mounted again: `useIsMounted`'s effect sets the ref. */
    method Mount()
      requires Valid()
      modifies isMounted
      ensures Valid()
      ensures Model() == Step(old(Model()), Mounted)
    {
      StepKeepsValid(Model(), Mounted);
      isMounted.Mount();
    }

    /** The host unmounted: `useIsMounted`'s cleanup clears the ref and the pending effect is cleaned up. */
    method Unmount()
      requires Valid()
      modifies this, isMounted
      ensures Valid()
      ensures Model() == Step(old(Model()), Unmounted)
    {
      StepKeepsValid(Model(), Unmounted);
      isMounted.Unmount();
      RunCleanup();
    }
  }

  /** `useLazyQuery`: runs the fetcher when `run` is called. */
  class LazyQuery<T> {
    var state: AsyncState<T>
    const isMounted: MountedRef
    var reqId: nat

    ghost function Model(): Hook<T>
      reads this, isMounted
    {
      Hook(LazyQueryKind, state, reqId, isMounted.current, {}, None)
    }

    ghost predicate Valid()
      reads this, isMounted
    {
      Lifecycle.Valid(Model())
    }

    constructor ()
      ensures fresh(isMounted) && Model() == Fresh(LazyQueryKind) && Valid()
    {
      state := IdleState();
      isMounted := new MountedRef();
      reqId := 0;
    }

    /** `run()` up to its `await`: takes the next request id and enters loading with data and error cleared. */
    method Run() returns (myReq: nat)
      requires Valid()
      modifies this
      ensures Valid()
      ensures Model() == Step(old(Model()), Invoked)
      ensures myReq == reqId == old(reqId) + 1
    {
      StepKeepsValid(Model(), Invoked);
      reqId := reqId + 1;
      myReq := reqId;
      state := AsyncState(Loading, true, None, None);
    }

    /** `run()` after its `await`: the state write the guard allows, and what the caller's promise settles with. */
    method Settle(myReq: nat, outcome: Result<T, Thrown>) returns (answer: Result<T, Thrown>)
      requires Valid()
      modifies this
      ensures Valid()
      ensures answer == Answer(old(Model()), myReq, outcome)
      ensures Model() == Step(old(Model()), Resolved(myReq, outcome))
    {
      StepKeepsValid(Model(), Resolved(myReq, outcome));
      match outcome
      case Ok(data) =>
        if !isMounted.current || myReq != reqId {
          return Err(Canceled);
        }
        state := AsyncState(Success, false, Some(data), None);
        return Ok(data);
      case Err(err) =>
        var apiErr := Normalize(err);
        if isMounted.current && myReq == reqId {
          state := AsyncState(Error, false, None, Some(apiErr));
        }
        return Err(ThrownError(apiErr));
    }

    method Mount()
      requires Valid()
      modifies isMounted
      ensures Valid()
      ensures Model() == Step(old(Model()), Mounted)
    {
      StepKeepsValid(Model(), Mounted);
      isMounted.Mount();
    }

    method Unmount()
      requires Valid()
      modifies isMounted
      ensures Valid()
      ensures Model() == Step(old(Model()), Unmounted)
    {
      StepKeepsValid(Model(), Unmounted);
      isMounted.Unmount();
    }
  }

  /** `useMutation`: runs the mutator when `mutate` is called; `reset` returns to idle. */
  class Mutation<T> {
    var state: AsyncState<T>
    const isMounted: MountedRef
    var reqId: nat

    ghost function Model(): Hook<T>
      reads this, isMounted
    {
      Hook(MutationKind, state, reqId, isMounted.current, {}, None)
    }

    ghost predicate Valid()
      reads this, isMounted
    {
      Lifecycle.Valid(Model())
    }

    constructor ()
      ensures fresh(isMounted) && Model() == Fresh(MutationKind) && Valid()
    {
      state := IdleState();
      isMounted := new MountedRef();
      reqId := 0;
    }

    /**
     * `mutate(input)` up to its `await`: takes the next request id and enters
     * loading with data and error cleared. The input goes only to the mutator.
     */
    method Mutate() returns (myReq: nat)
      requires Valid()
      modifies this
      ensures Valid()
      ensures Model() == Step(old(Model()), Invoked)
      ensures myReq == reqId == old(reqId) + 1
    {
      StepKeepsValid(Model(), Invoked);
      reqId := reqId + 1;
      myReq := reqId;
      state := AsyncState(Loading, true, None, None);
    }

    /** `mutate(input)` after its `await`: the state write the guard allows, and what the caller's promise settles with. */
    method Settle(myReq: nat, outcome: Result<T, Thrown>) returns (answer: Result<T, Thrown>)
      requires Valid()
      modifies this
      ensures Valid()
      ensures answer == Answer(old(Model()), myReq, outcome)
      ensures Model() == Step(old(Model()), Resolved(myReq, outcome))
    {
      StepKeepsValid(Model(), Resolved(myReq, outcome));
      match outcome
      case Ok(data) =>
        if !isMounted.current || myReq != reqId {
          return Err(Canceled);
        }
        state := AsyncState(Success, false, Some(data), None);
        return Ok(data);
      case Err(err) =>
        var apiErr := Normalize(err);
        if isMounted.current && myReq == reqId {
          state := AsyncState(Error, false, None, Some(apiErr));
        }
        return Err(ThrownError(apiErr));
    }

    /** `reset()`: back to idle; the request counter is left as it is. */
    method Reset()
      requires Valid()
      modifies this
      ensures Valid()
      ensures Model() == Step(old(Model()), Cleared)
      ensures state == IdleState() && reqId == old(reqId)
    {
      StepKeepsValid(Model(), Cleared);
      state := IdleState();
    }

    method Mount()
      requires Valid()
      modifies isMounted
      ensures Valid()
      ensures Model() == Step(old(Model()), Mounted)
    {
      StepKeepsValid(Model(), Mounted);
      isMounted.Mount();
    }

    method Unmount()
      requires Valid()
      modifies isMounted
      ensures Valid()
      ensures Model() == Step(old(Model()), Unmounted)
    {
      StepKeepsValid(Model(), Unmounted);
      isMounted.Unmount();
    }
  }
}
