/**
 * The request-lifecycle guard shared by `useQuery`, `useLazyQuery` and
 * `useMutation`, as a state machine over explicit events. A hook holds the
 * four-field state record, the request counter, the mounted flag and, for
 * `useQuery`, the ids of effect runs whose cleanup has run. The classes in
 * module Hooks are proved to move exactly as `Step` says; the lemmas here are
 * the guarantees the guard gives.
 */
module Lifecycle {
  import opened Values
  import opened Errors

  datatype Status = Idle | Loading | Success | Error

  /** `QueryState` / `MutationState`: the two records have the same fields. */
  datatype AsyncState<T> = AsyncState(status: Status, loading: bool, data: Option<T>, error: Option<JsError>)

  /** `{status: 'idle', loading: false, data: null, error: null}` */
  function IdleState<T>(): AsyncState<T> {
    AsyncState(Idle, false, None, None)
  }

  /**
   * The record's own invariant: `loading` mirrors the status, an idle record
   * holds nothing, a loading record holds no error, success holds data and no
   * error, failure holds an error and no data.
   */
  predicate Consistent<T>(s: AsyncState<T>) {
    && s.loading == (s.status == Loading)
    && (s.status == Idle ==> s.data.None? && s.error.None?)
    && (s.status == Loading ==> s.error.None?)
    && (s.status == Success ==> s.data.Some? && s.error.None?)
    && (s.status == Error ==> s.data.None? && s.error.Some?)
  }

  datatype Kind = QueryKind | LazyQueryKind | MutationKind

  /**
   * The write made when a call starts: `useQuery` keeps the previous data and
   * clears the error; `run` and `mutate` clear both.
   */
  function EnterLoading<T>(kind: Kind, s: AsyncState<T>): (r: AsyncState<T>)
    ensures Consistent(r)
    ensures r.status == Loading && r.error == None
    ensures r.data == if kind == QueryKind then s.data else None
  {
    if kind == QueryKind then s.(status := Loading, loading := true, error := None)
    else AsyncState(Loading, true, None, None)
  }

  /**
   * `err instanceof Error ? err : new Error(String(err))`: an `Error` is kept as
   * it is; any other value becomes an `Error` whose message is `String(value)`,
   * so a thrown string becomes an `Error` with that string as its message.
   */
  function Normalize(t: Thrown): (r: JsError)
    ensures t.ThrownError? ==> r == t.error
    ensures t.ThrownValue? ==> r == Plain("Error", ToJsString(t.value))
    ensures t.ThrownValue? && t.value.JString? ==> r.message == Literal(t.value.s)
  {
    match t
    case ThrownError(e) => e
    case ThrownValue(v) => Plain("Error", ToJsString(v))
  }

  /** The rejection reason a stale success hands the caller: the string 'canceled'. */
  const Canceled: Thrown := ThrownValue(JString("canceled"))

  /** An error that was normalised, thrown and normalised again is unchanged. */
  lemma NormalizeIsIdempotent(t: Thrown)
    ensures Normalize(ThrownError(Normalize(t))) == Normalize(t)
  {
  }

  /**
   * The write made when a call settles and the guard lets it through: exactly
   * one payload, the data on success, the normalised error on failure.
   */
  function Settlement<T>(o: Result<T, Thrown>): (s: AsyncState<T>)
    ensures Consistent(s)
    ensures s.status == Success <==> o.Ok?
    ensures s.status == Error <==> o.Err?
    ensures o.Ok? ==> s.data == Some(o.value)
    ensures o.Err? ==> s.error == Some(Normalize(o.error))
  {
    match o
    case Ok(data) => AsyncState(Success, false, Some(data), None)
    case Err(err) => AsyncState(Error, false, None, Some(Normalize(err)))
  }

  /** `{skip?, enabled?}`, the options of `useQuery`. */
  datatype QueryOptions = QueryOptions(skip: Option<bool>, enabled: Option<bool>)

  /** `opts?.enabled ?? !opts?.skip ?? true` */
  function Enabled(opts: Option<QueryOptions>): (r: bool)
    ensures opts.Some? && opts.value.enabled.Some? ==> r == opts.value.enabled.value
    ensures !(opts.Some? && opts.value.enabled.Some?) ==> (r <==> !(opts.Some? && opts.value.skip == Some(true)))
  {
    if opts.Some? && opts.value.enabled.Some? then opts.value.enabled.value
    else !(opts.Some? && opts.value.skip.Some? && opts.value.skip.value)
  }

  /**
   * Everything the guard consults. `effect` is the id of the `useQuery` effect
   * run whose cleanup has not run yet; `canceled` holds the ids of effect runs
   * that were cleaned up.
   */
  datatype Hook<T> = Hook(
    kind: Kind,
    state: AsyncState<T>,
    reqId: nat,
    mounted: bool,
    canceled: set<nat>,
    effect: Option<nat>)

  /** A hook as it is created: idle, counter at 0, mounted, nothing in flight. */
  function Fresh<T>(kind: Kind): Hook<T> {
    Hook(kind, IdleState(), 0, true, {}, None)
  }

  /**
   * The events that drive a hook: a call starts (the `useQuery` effect runs
   * enabled, or `run` / `mutate` is called); the `useQuery` effect runs
   * disabled; call `myReq` settles; the host mounts or unmounts; `reset`.
   */
  datatype Event<T> =
    | Invoked
    | Skipped
    | Resolved(myReq: nat, outcome: Result<T, Thrown>)
    | Mounted
    | Unmounted
    | Cleared

  /** React runs the previous `useQuery` effect's cleanup: its `canceled` flag is set. */
  function Cleanup<T>(h: Hook<T>): (r: Hook<T>)
    ensures r.effect == None && r.state == h.state && r.reqId == h.reqId && r.mounted == h.mounted
    ensures r.kind == h.kind
    ensures r.canceled == h.canceled + (if h.effect.Some? then {h.effect.value} else {})
  {
    match h.effect
    case None => h
    case Some(id) => h.(canceled := h.canceled + {id}, effect := None)
  }

  /**
   * The guard: a settlement may write only while the host is mounted and only
   * if no call was started after it; for `useQuery` its effect must also not
   * have been cleaned up.
   */
  predicate MayWrite<T>(h: Hook<T>, myReq: nat)
    ensures MayWrite(h, myReq) ==> h.mounted && myReq == h.reqId
    ensures h.kind == QueryKind && myReq in h.canceled ==> !MayWrite(h, myReq)
  {
    h.mounted && myReq == h.reqId && (h.kind == QueryKind ==> myReq !in h.canceled)
  }

  /**
   * How one event changes a hook: only a start moves the counter, by one; a
   * settlement writes its outcome exactly when the guard admits it and is
   * otherwise a no-op; mounting, unmounting and a disabled effect run leave
   * the state record alone.
   */
  function Step<T>(h: Hook<T>, e: Event<T>): (r: Hook<T>)
    ensures r.kind == h.kind
    ensures r.reqId == if e.Invoked? then h.reqId + 1 else h.reqId
    ensures e.Resolved? && MayWrite(h, e.myReq) ==> r == h.(state := Settlement(e.outcome))
    ensures e.Resolved? && !MayWrite(h, e.myReq) ==> r == h
    ensures e.Mounted? || e.Unmounted? || e.Skipped? ==> r.state == h.state
    ensures e.Mounted? ==> r.mounted
    ensures e.Unmounted? ==> !r.mounted
  {
    match e
    case Invoked =>
      var id := h.reqId + 1;
      if h.kind == QueryKind then
        Cleanup(h).(reqId := id, state := EnterLoading(h.kind, h.state), effect := Some(id))
      else
        h.(reqId := id, state := EnterLoading(h.kind, h.state))
    case Skipped =>
      if h.kind == QueryKind then Cleanup(h) else h
    case Resolved(myReq, o) =>
      if MayWrite(h, myReq) then h.(state := Settlement(o)) else h
    case Mounted =>
      h.(mounted := true)
    case Unmounted =>
      (if h.kind == QueryKind then Cleanup(h) else h).(mounted := false)
    case Cleared =>
      if h.kind == MutationKind then h.(state := IdleState()) else h
  }

  /** The `useQuery` effect run for the given options: a call when enabled, nothing but cleanup otherwise. */
  function EffectRun<T>(opts: Option<QueryOptions>): (e: Event<T>)
    ensures e == Invoked || e == Skipped
    ensures e == Invoked <==> Enabled(opts)
  {
    if Enabled(opts) then Invoked else Skipped
  }

  /** The hook after a sequence of events. */
  function Replay<T>(h: Hook<T>, es: seq<Event<T>>): Hook<T>
    decreases |es|
  {
    if es == [] then h else Replay(Step(h, es[0]), es[1..])
  }

  /** Replaying a non-empty sequence is stepping through its first event, then replaying the rest. */
  lemma ReplayCons<T>(h: Hook<T>, e: Event<T>, es: seq<Event<T>>)
    ensures Replay(h, [e] + es) == Replay(Step(h, e), es)
  {
    assert ([e] + es)[1..] == es;
  }

  /** Replaying one, two or three events. */
  lemma ReplayShort<T>(h: Hook<T>, e1: Event<T>, e2: Event<T>, e3: Event<T>)
    ensures Replay(h, [e1]) == Step(h, e1)
    ensures Replay(h, [e1, e2]) == Step(Step(h, e1), e2)
    ensures Replay(h, [e1, e2, e3]) == Step(Step(Step(h, e1), e2), e3)
  {
    ReplayCons(h, e1, []);
    ReplayCons(Step(h, e1), e2, []);
    ReplayCons(h, e1, [e2]);
    assert [e1, e2] == [e1] + [e2];
    ReplayCons(Step(Step(h, e1), e2), e3, []);
    ReplayCons(Step(h, e1), e2, [e3]);
    ReplayCons(h, e1, [e2, e3]);
    assert [e2, e3] == [e2] + [e3];
    assert [e1, e2, e3] == [e1] + [e2, e3];
  }

  /**
   * What the caller of `run` / `mutate` sees when call `myReq` settles with `o`:
   * the data when the guard lets the success through, the rejection 'canceled'
   * for a stale or post-unmount success, and the normalised error for every
   * failure, whether or not it was stored.
   */
  function Answer<T>(h: Hook<T>, myReq: nat, o: Result<T, Thrown>): (r: Result<T, Thrown>)
    ensures o.Err? ==> r == Err(ThrownError(Normalize(o.error)))
    ensures o.Ok? ==> (r == o <==> MayWrite(h, myReq))
    ensures o.Ok? && !MayWrite(h, myReq) ==> r == Err(Canceled)
  {
    match o
    case Ok(data) => if MayWrite(h, myReq) then Ok(data) else Err(Canceled)
    case Err(err) => Err(ThrownError(Normalize(err)))
  }

  /** What the caller of `run` / `mutate` is told agrees with the state the hook shows. */
  lemma AnswerMatchesState<T>(h: Hook<T>, myReq: nat, o: Result<T, Thrown>)
    ensures var r, h' := Answer(h, myReq, o), Step(h, Resolved(myReq, o));
      && (r.Ok? ==> h'.state.status == Success && h'.state.data == Some(r.value))
      && (r == Err(Canceled) ==> h' == h)
      && (o.Err? && MayWrite(h, myReq) ==> r.Err? && r.error.ThrownError? && h'.state.error == Some(r.error.error))
  {
  }

  // ---------------------------------------------------------------------
  // Invariants

  /**
   * What every reachable hook satisfies: a consistent record; ids handed out
   * are 1..reqId; the live `useQuery` effect is the latest call and not
   * cleaned up; `run` and `mutate` never hold data while loading and use no
   * effect bookkeeping.
   */
  ghost predicate Valid<T>(h: Hook<T>) {
    && Consistent(h.state)
    && (forall id :: id in h.canceled ==> 1 <= id <= h.reqId)
    && (h.effect.Some? ==> h.kind == QueryKind && h.effect.value == h.reqId >= 1 && h.reqId !in h.canceled)
    && (h.kind != QueryKind ==> h.canceled == {} && (h.state.status == Loading ==> h.state.data.None?))
  }

  lemma FreshIsValid<T>(kind: Kind)
    ensures Valid(Fresh<T>(kind))
  {
  }

  lemma StepKeepsValid<T>(h: Hook<T>, e: Event<T>)
    requires Valid(h)
    ensures Valid(Step(h, e))
  {
  }

  /** Every sequence of events keeps a hook valid. */
  lemma {:induction false} ReplayKeepsValid<T>(h: Hook<T>, es: seq<Event<T>>)
    requires Valid(h)
    ensures Valid(Replay(h, es))
    decreases |es|
  {
    if es != [] {
      StepKeepsValid(h, es[0]);
      ReplayKeepsValid(Step(h, es[0]), es[1..]);
    }
  }

  // ---------------------------------------------------------------------
  // The request counter

  /** The number of calls started in a sequence of events. */
  function Starts<T>(es: seq<Event<T>>): nat
    decreases |es|
  {
    if es == [] then 0 else (if es[0] == Invoked then 1 else 0) + Starts(es[1..])
  }

  /** Each started call takes the next id: the counter only moves by one per start, and nothing else moves it. */
  lemma {:induction false} CounterCountsStarts<T>(h: Hook<T>, es: seq<Event<T>>)
    ensures Replay(h, es).reqId == h.reqId + Starts(es)
    decreases |es|
  {
    if es != [] {
      CounterCountsStarts(Step(h, es[0]), es[1..]);
    }
  }

  /** A call takes the id one past the latest, which becomes the latest; a disabled effect run takes none. */
  lemma StartTakesNextId<T>(h: Hook<T>)
    ensures Step(h, Invoked).reqId == h.reqId + 1
    ensures Step(h, Skipped).reqId == h.reqId && Step(h, Skipped).state == h.state
    ensures Step(h, Cleared).reqId == h.reqId
  {
  }

  // ---------------------------------------------------------------------
  // Stale-response suppression

  /** A settlement the guard refuses changes nothing at all. */
  lemma RefusedSettlementIsNoOp<T>(h: Hook<T>, myReq: nat, o: Result<T, Thrown>)
    requires !MayWrite(h, myReq)
    ensures Step(h, Resolved(myReq, o)) == h
  {
  }

  /** The events of `es` with every settlement of a call other than `latest` taken out. */
  function WithoutStale<T>(es: seq<Event<T>>, latest: nat): (r: seq<Event<T>>)
    ensures |r| <= |es|
    decreases |es|
  {
    if es == [] then []
    else if es[0].Resolved? && es[0].myReq != latest then WithoutStale(es[1..], latest)
    else [es[0]] + WithoutStale(es[1..], latest)
  }

  /**
   * While no new call starts, settlements of superseded calls are invisible:
   * wherever they fall among the other events, in whatever order, the hook
   * ends exactly as if they had never happened.
   */
  lemma {:induction false} StaleSettlementsAreInvisible<T>(h: Hook<T>, es: seq<Event<T>>)
    requires forall i :: 0 <= i < |es| ==> es[i] != Invoked
    ensures Replay(h, es) == Replay(h, WithoutStale(es, h.reqId))
    decreases |es|
  {
    if es != [] {
      var h' := Step(h, es[0]);
      assert h'.reqId == h.reqId;
      StaleSettlementsAreInvisible(h', es[1..]);
      if es[0].Resolved? && es[0].myReq != h.reqId {
        assert h' == h;
      } else {
        var w := WithoutStale(es[1..], h.reqId);
        assert ([es[0]] + w)[1..] == w;
      }
    }
  }

  /**
   * Two calls A then B, started back to back on a mounted hook: whichever
   * settles first, the state ends as B's outcome made it.
   */
  lemma LatestCallWins<T>(h: Hook<T>, oa: Result<T, Thrown>, ob: Result<T, Thrown>)
    requires Valid(h) && h.mounted
    ensures var a, b := h.reqId + 1, h.reqId + 2;
      && Replay(h, [Invoked, Invoked, Resolved(a, oa), Resolved(b, ob)]).state == Settlement(ob)
      && Replay(h, [Invoked, Invoked, Resolved(b, ob), Resolved(a, oa)]).state == Settlement(ob)
  {
    var a, b := h.reqId + 1, h.reqId + 2;
    var h1 := Step(h, Invoked);
    var h2 := Step(h1, Invoked);
    assert h2.reqId == b && h2.mounted && b !in h2.canceled;
    var ra, rb := Resolved(a, oa), Resolved(b, ob);
    assert Step(h2, ra) == h2;
    var won := Step(h2, rb);
    assert won.state == Settlement(ob) && won.reqId == b;
    assert Step(won, ra) == won;
    ReplayFour(h, Invoked, Invoked, ra, rb);
    ReplayFour(h, Invoked, Invoked, rb, ra);
  }

  /** Replaying four events. */
  lemma ReplayFour<T>(h: Hook<T>, e1: Event<T>, e2: Event<T>, e3: Event<T>, e4: Event<T>)
    ensures Replay(h, [e1, e2, e3, e4]) == Step(Step(Step(Step(h, e1), e2), e3), e4)
  {
    ReplayShort(Step(h, e1), e2, e3, e4);
    ReplayCons(h, e1, [e2, e3, e4]);
    assert [e1, e2, e3, e4] == [e1] + [e2, e3, e4];
  }

  // ---------------------------------------------------------------------
  // Liveness: nothing settles into an unmounted hook

  /** The events of `es` are all settlements. */
  predicate OnlySettlements<T>(es: seq<Event<T>>) {
    forall i :: 0 <= i < |es| ==> es[i].Resolved?
  }

  /** Once the host is unmounted, no settlement, of any call, in any order, changes the hook. */
  lemma {:induction false} UnmountedHookIgnoresSettlements<T>(h: Hook<T>, es: seq<Event<T>>)
    requires !h.mounted
    requires OnlySettlements(es)
    ensures Replay(h, es) == h
    decreases |es|
  {
    if es != [] {
      assert Step(h, es[0]) == h;
      OnlySettlementsTail(es);
      UnmountedHookIgnoresSettlements(h, es[1..]);
    }
  }

  lemma OnlySettlementsTail<T>(es: seq<Event<T>>)
    requires es != [] && OnlySettlements(es)
    ensures OnlySettlements(es[1..])
  {
    assert forall i :: 0 <= i < |es| - 1 ==> es[1..][i] == es[i + 1];
  }

  /** Unmounting stops every call in flight from writing, including the latest. */
  lemma UnmountStopsLatest<T>(h: Hook<T>, o: Result<T, Thrown>)
    ensures var u := Step(h, Unmounted); Step(u, Resolved(u.reqId, o)) == u
  {
  }

  // ---------------------------------------------------------------------
  // Differences between the three hooks

  /** `useQuery` keeps showing the previous data while the next call loads; `run` and `mutate` clear it. */
  lemma QueryKeepsDataWhileLoading<T>(h: Hook<T>)
    ensures var s := Step(h, Invoked).state;
      s.status == Loading && s.loading && s.error == None &&
      s.data == (if h.kind == QueryKind then h.state.data else None)
  {
  }

  /**
   * When `useQuery`'s dependencies change while it is disabled, the cleanup
   * cancels the call in flight, and its settlement no longer writes: the state
   * stays as the call's start left it.
   */
  lemma DisabledRerunCancelsQuery<T>(h: Hook<T>, o: Result<T, Thrown>)
    requires h.kind == QueryKind && Valid(h) && h.mounted
    ensures var started := Step(h, Invoked);
      && Step(started, Resolved(started.reqId, o)).state == Settlement(o)
      && Replay(h, [Invoked, Skipped, Resolved(started.reqId, o)]).state == EnterLoading(QueryKind, h.state)
  {
    var started := Step(h, Invoked);
    assert started.reqId !in started.canceled;
    ReplayShort(h, Invoked, Skipped, Resolved(started.reqId, o));
  }

  /**
   * `reset` returns a mutation to idle without touching the counter, so the
   * call still in flight is still the latest: when it settles it overwrites
   * the reset state, while an older call's settlement leaves it idle.
   */
  lemma ResetDoesNotCancelLatest<T>(h: Hook<T>, o: Result<T, Thrown>, stale: nat)
    requires h.kind == MutationKind && h.mounted && stale != h.reqId
    ensures Step(h, Cleared).reqId == h.reqId
    ensures Step(h, Cleared).state == IdleState()
    ensures Replay(h, [Cleared, Resolved(h.reqId, o)]).state == Settlement(o)
    ensures Replay(h, [Cleared, Resolved(stale, o)]).state == IdleState()
  {
    ReplayShort(h, Cleared, Resolved(h.reqId, o), Cleared);
    ReplayShort(h, Cleared, Resolved(stale, o), Cleared);
  }

  /** After an unmount and a remount, the latest `run` or `mutate` call writes again. */
  lemma RemountRestoresLatest<T>(h: Hook<T>, o: Result<T, Thrown>)
    requires h.kind != QueryKind
    ensures Replay(h, [Unmounted, Mounted, Resolved(h.reqId, o)]).state == Settlement(o)
  {
    ReplayShort(h, Unmounted, Mounted, Resolved(h.reqId, o));
  }
}
