/**
 * The watch session behind `watch`, `watchImmediate` and `watchRendered`
 * (src/watch.ts, `baseWatch`), and the one-shot `watchOnce`.
 *
 * The host runtime's effect is replaced by explicit calls: each run of the
 * effect, including the run made when the watcher is registered, is one call
 * of `Trigger` with the value the source reads at that moment. The three
 * public variants differ only in when the runtime schedules that run, so one
 * `Trigger` covers all of them.
 */
module Watch {
  import opened Wrappers

  /** One invocation of the user callback: `fn(value, oldValue, callTimes)`. */
  datatype Call<T> = Call(value: T, oldValue: Option<T>, times: nat)

  /** The options `baseWatch` reads; an absent field takes its default. */
  datatype WatchOptions = WatchOptions(defer: Option<bool>, count: Option<int>)

  /** `defer = true` unless given. */
  function DeferOption(o: WatchOptions): (d: bool)
    ensures o.defer.None? ==> d
    ensures o.defer.Some? ==> d == o.defer.value
  {
    o.defer.GetOr(true)
  }

  /** `count = -1` (unlimited) unless given. */
  function CountOption(o: WatchOptions): (c: int)
    ensures o.count.None? ==> c == -1
    ensures o.count.Some? ==> c == o.count.value
  {
    o.count.GetOr(-1)
  }

  /**
   * The gate of the effect: a run calls back only when watching and, for a
   * count above -1, while fewer than `count` calls have been made.
   */
  predicate Admits(watching: bool, count: int, callTimes: nat)
    ensures Admits(watching, count, callTimes) <==> watching && (count <= -1 || callTimes < count)
  {
    watching && !(count > -1 && callTimes >= count)
  }

  /** A count of -1 or below never blocks; a count of 0 always blocks. */
  lemma AdmitsByCount(watching: bool, count: int, callTimes: nat)
    ensures count <= -1 ==> (Admits(watching, count, callTimes) <==> watching)
    ensures count == 0 ==> !Admits(watching, count, callTimes)
    ensures count >= 0 ==> (Admits(watching, count, callTimes) <==> watching && callTimes < count)
  {
  }

  /** Each value in a log reports the previous logged value as its old value. */
  ghost predicate Chained<T>(calls: seq<Call<T>>)
  {
    && (forall i :: 0 <= i < |calls| ==> calls[i].times == i + 1)
    && (|calls| > 0 ==> calls[0].oldValue == None)
    && (forall i :: 0 < i < |calls| ==> calls[i].oldValue == Some(calls[i - 1].value))
  }

  /**
   * An array source is read as the sequence of its accessors' current values,
   * in order (`deps.map(dep => dep())`); `world` is the state the accessors read.
   */
  function Snapshot<S, T>(deps: seq<S -> T>, world: S): (values: seq<T>)
    ensures |values| == |deps|
    ensures forall i :: 0 <= i < |deps| ==> values[i] == deps[i](world)
  {
    if deps == [] then [] else [deps[0](world)] + Snapshot(deps[1..], world)
  }

  class Watcher<T> {
    /** The `isWatching` signal. */
    var watching: bool
    /** The `callTimes` signal. */
    var callTimes: nat
    /** The closure variable `oldValue`; `None` while it is still `undefined`. */
    var oldValue: Option<T>
    /** The closure variable `defer`, cleared by the first run. */
    var defer: bool
    /** The `count` option; -1 or below means unlimited. */
    const count: int
    /** Every callback invocation so far, in order. */
    ghost var calls: seq<Call<T>>

    ghost predicate Valid()
      reads this
    {
      && callTimes == |calls|
      && Chained(calls)
      && (count > -1 ==> callTimes <= count)
      && (oldValue == if calls == [] then None else Some(calls[|calls| - 1].value))
      && (defer ==> calls == [])
    }

    /** The signals and closure variables as `baseWatch` creates them, before the effect first runs. */
    constructor (options: WatchOptions)
      ensures Valid()
      ensures watching && callTimes == 0 && oldValue == None
      ensures defer == DeferOption(options) && count == CountOption(options)
      ensures calls == []
    {
      watching := true;
      callTimes := 0;
      oldValue := None;
      defer := DeferOption(options);
      count := CountOption(options);
      calls := [];
    }

    /**
     * One run of the effect with the source currently reading `v`. The first
     * run of a deferred watcher only clears `defer`; otherwise, when the gate
     * admits it, `callTimes` goes up by one and the callback receives the
     * value, the old value and the new count, after which `v` becomes the
     * old value. A run the gate refuses changes nothing.
     */
    method Trigger(v: T) returns (call: Option<Call<T>>)
      requires Valid()
      modifies this
      ensures Valid()
      ensures watching == old(watching)
      ensures old(defer) ==> !defer && call == None && callTimes == old(callTimes) && oldValue == old(oldValue)
      ensures !old(defer) ==> !defer && (call.Some? <==> Admits(old(watching), count, old(callTimes)))
      ensures call.Some? ==>
                && call.value == Call(v, old(oldValue), old(callTimes) + 1)
                && callTimes == old(callTimes) + 1
                && oldValue == Some(v)
                && calls == old(calls) + [call.value]
      ensures call.None? ==> callTimes == old(callTimes) && oldValue == old(oldValue) && calls == old(calls)
    {
      if defer {
        defer := false;
        return None;
      }
      if !watching || (count > -1 && callTimes >= count) {
        return None;
      }
      callTimes := callTimes + 1;
      call := Some(Call(v, oldValue, callTimes));
      oldValue := Some(v);
      calls := calls + [call.value];
    }

    /** `pause`: sets `isWatching` to false and nothing else. */
    method Pause()
      requires Valid()
      modifies this
      ensures Valid() && !watching
      ensures callTimes == old(callTimes) && oldValue == old(oldValue) && defer == old(defer) && calls == old(calls)
    {
      watching := false;
    }

    /** `resume`: sets `isWatching` to true; missed changes are not replayed. */
    method Resume()
      requires Valid()
      modifies this
      ensures Valid() && watching
      ensures callTimes == old(callTimes) && oldValue == old(oldValue) && defer == old(defer) && calls == old(calls)
    {
      watching := true;
    }

    /**
     * `ignoreUpdate(updater)`: the updater's changes arrive, batched into at
     * most one run (`change`, `None` when the updater changed nothing), while
     * `isWatching` is false; afterwards `isWatching` is true whatever it was
     * before the call.
     */
    method IgnoreUpdate(change: Option<T>) returns (call: Option<Call<T>>)
      requires Valid()
      modifies this
      ensures Valid() && watching && call == None
      ensures callTimes == old(callTimes) && oldValue == old(oldValue) && calls == old(calls)
      ensures defer == (old(defer) && change.None?)
    {
      watching := false;
      call := None;
      if change.Some? {
        call := Trigger(change.value);
      }
      watching := true;
    }
  }

  /**
   * `baseWatch(deps, fn, options)`: creates the session and registers the
   * effect, whose first run reads `initial`.
   */
  method Create<T>(initial: T, options: WatchOptions) returns (w: Watcher<T>, first: Option<Call<T>>)
    ensures fresh(w) && w.Valid()
    ensures w.watching && !w.defer && w.count == CountOption(options)
    ensures DeferOption(options) ==> first == None && w.callTimes == 0 && w.oldValue == None
    ensures !DeferOption(options) && CountOption(options) != 0 ==>
              first == Some(Call(initial, None, 1)) && w.callTimes == 1 && w.oldValue == Some(initial)
    ensures !DeferOption(options) && CountOption(options) == 0 ==> first == None && w.callTimes == 0
  {
    w := new Watcher(options);
    first := w.Trigger(initial);
  }

  /**
   * One run of the effect for an array source: the accessors are read
   * before the defer and gate checks, and a callback that runs receives
   * their values, in order.
   */
  method RunOnDeps<S, E>(w: Watcher<seq<E>>, deps: seq<S -> E>, world: S) returns (call: Option<Call<seq<E>>>)
    requires w.Valid()
    modifies w
    ensures w.Valid()
    ensures call.Some? <==> !old(w.defer) && Admits(old(w.watching), w.count, old(w.callTimes))
    ensures call.Some? ==> call.value.value == Snapshot(deps, world) && call.value.oldValue == old(w.oldValue)
    ensures call.Some? ==> forall i :: 0 <= i < |deps| ==> call.value.value[i] == deps[i](world)
  {
    var value := Snapshot(deps, world);
    call := w.Trigger(value);
  }

  /** No sequence of runs, pauses and resumes takes `callTimes` past a count of 0 or more. */
  lemma CallTimesBounded<T>(w: Watcher<T>)
    requires w.Valid()
    ensures w.count >= 0 ==> w.callTimes <= w.count
    ensures w.count == 0 ==> w.calls == []
  {
  }

  /**
   * The old value reported by any call is the value of the call before it,
   * so a value set while paused is never reported as an old value.
   */
  lemma OldValueIsPreviousCall<T>(w: Watcher<T>, i: nat)
    requires w.Valid()
    requires 0 < i < |w.calls|
    ensures w.calls[i].oldValue == Some(w.calls[i - 1].value)
    ensures w.calls[i].times == w.calls[i - 1].times + 1
  {
  }

  /**
   * `watchOnce(deps, fn)`: the value read at registration is kept, and the
   * first change after it calls `fn(value, old)` exactly once.
   */
  class OnceWatcher<T> {
    /** The value read at registration. */
    const registered: T
    var fired: bool

    constructor (initial: T)
      ensures registered == initial && !fired
    {
      registered := initial;
      fired := false;
    }

    method Change(v: T) returns (call: Option<(T, T)>)
      modifies this
      ensures fired
      ensures call == if old(fired) then None else Some((v, registered))
    {
      if fired {
        return None;
      }
      fired := true;
      call := Some((v, registered));
    }
  }
}
