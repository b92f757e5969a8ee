/**
 * `useWebWorkerFn(fn, options)` and `depsParser` (src/web/worker.ts). The
 * worker itself, its blob URL and the promise values are not modelled: a
 * worker is a number, a result is an abstract value, and a settled promise
 * is reported by the handler that settles it.
 */
module Worker {
  import opened Wrappers

  datatype Status = Pending | Success | Running | Error | TimeoutExpired

  /** How a handler settles the promise `workerFn` returned. */
  datatype Settlement<R> = Unsettled | Resolved(result: R) | Rejected

  /** `'${dep}'`: no escaping. */
  function Quote(dep: string): string
  {
    "'" + dep + "'"
  }

  /** `deps.map(quote).toString()`: the quoted deps joined by commas. */
  function JoinQuoted(deps: seq<string>): string
  {
    if deps == [] then ""
    else if |deps| == 1 then Quote(deps[0])
    else Quote(deps[0]) + "," + JoinQuoted(deps[1..])
  }

  /** `depsParser(deps)`: '' for no deps, else one `importScripts(...)` call. */
  function DepsParser(deps: seq<string>): (code: string)
    ensures deps == [] ==> code == ""
    ensures deps != [] ==> code == "importScripts(" + JoinQuoted(deps) + ")"
  {
    if |deps| == 0 then "" else "importScripts(" + JoinQuoted(deps) + ")"
  }

  predicate NoQuote(s: string)
  {
    forall k :: 0 <= k < |s| ==> s[k] != '\''
  }

  /** Reads a comma-separated list of single-quoted names; the inverse of `JoinQuoted`. */
  function ParseQuoted(s: string): Option<seq<string>>
    decreases |s|
  {
    if |s| < 2 || s[0] != '\'' then None
    else
      var close := NextQuote(s, 1);
      if close >= |s| then None
      else if close == |s| - 1 then Some([s[1..close]])
      else if s[close + 1] != ',' then None
      else match ParseQuoted(s[close + 2..])
        case None => None
        case Some(rest) => Some([s[1..close]] + rest)
  }

  /** The index of the first quote at or after `i`, or `|s|`. */
  function NextQuote(s: string, i: nat): (k: nat)
    requires i <= |s|
    ensures i <= k <= |s|
    ensures k < |s| ==> s[k] == '\''
    ensures forall j :: i <= j < k ==> s[j] != '\''
    decreases |s| - i
  {
    if i == |s| then i else if s[i] == '\'' then i else NextQuote(s, i + 1)
  }

  /**
   * When no dependency contains a quote, the list inside `importScripts(...)`
   * can be read back: the generated call names exactly the given
   * dependencies, in order.
   */
  lemma {:induction false} ParseJoinQuoted(deps: seq<string>)
    requires deps != []
    requires forall i :: 0 <= i < |deps| ==> NoQuote(deps[i])
    ensures ParseQuoted(JoinQuoted(deps)) == Some(deps)
  {
    var s := JoinQuoted(deps);
    var d := deps[0];
    var q := Quote(d);
    assert s[..|q|] == q;
    assert forall j :: 1 <= j < |d| + 1 ==> s[j] == d[j - 1];
    assert s[|d| + 1] == '\'';
    assert NextQuote(s, 1) == |d| + 1;
    assert s[1..|d| + 1] == d;
    if |deps| > 1 {
      var tail := deps[1..];
      assert s == q + "," + JoinQuoted(tail);
      assert s[|d| + 3..] == JoinQuoted(tail);
      assert s[|d| + 2] == ',';
      ParseJoinQuoted(tail);
      assert ParseQuoted(s) == Some([d] + tail);
      assert [d] + tail == deps;
    } else {
      assert s == q && deps == [d];
    }
  }

  /** Reads a dependency list back from generated code: '' or one `importScripts(...)` call. */
  function ParseDeps(code: string): Option<seq<string>>
  {
    if code == "" then Some([])
    else if |code| >= 15 && code[..14] == "importScripts(" && code[|code| - 1] == ')' then ParseQuoted(code[14..|code| - 1])
    else None
  }

  /**
   * The code `depsParser` generates names exactly the given dependencies, in
   * order, when none of them contains a quote; no dependencies give ''.
   */
  lemma DepsParserReadsBack(deps: seq<string>)
    requires forall i :: 0 <= i < |deps| ==> NoQuote(deps[i])
    ensures ParseDeps(DepsParser(deps)) == Some(deps)
  {
    if deps != [] {
      var s := JoinQuoted(deps);
      var code := DepsParser(deps);
      assert s[0] == '\'' && |s| >= 2;
      assert code == "importScripts(" + s + ")";
      assert code[..14] == "importScripts(";
      assert code[14..|code| - 1] == s;
      ParseJoinQuoted(deps);
    }
  }

  /** The worker state of one `useWebWorkerFn` call. */
  class WebWorkerFn<R> {
    /** The `workerStatus` signal. */
    var status: Status
    /** The `worker` variable: the live worker, if any. */
    var worker: Option<nat>
    /** Whether `promise` holds the resolve and reject functions of a pending call. */
    var hasPromise: bool
    /** Whether a timeout is scheduled. */
    var timerPending: bool
    /** The `timeout` option; `None` is `undefined`. */
    const timeout: Option<int>
    /** The number of workers created so far. */
    var created: nat

    ghost predicate Valid()
      reads this
    {
      && (worker.Some? ==> status == Running && hasPromise && worker.value < created)
      && (hasPromise ==> worker.Some?)
      && (timerPending ==> worker.Some?)
    }

    /**
     * Setup: status 'PENDING' and no worker, so the `workerTerminate()` call
     * made during setup finds nothing to terminate.
     */
    constructor (timeout: Option<int>)
      ensures Valid()
      ensures status == Pending && worker == None && !hasPromise && !timerPending
      ensures this.timeout == timeout && created == 0
    {
      status := Pending;
      worker := None;
      hasPromise := false;
      timerPending := false;
      this.timeout := timeout;
      created := 0;
      new;
      Terminate(Pending);
    }

    /** `if (timeout)`: a timeout of 0 or `undefined` schedules nothing. */
    predicate SchedulesTimeout()
    {
      timeout.Some? && timeout.value != 0
    }

    /**
     * `workerTerminate(status = 'PENDING')`: with no worker it does nothing;
     * otherwise it drops the worker, the promise and the timer and sets the
     * given status.
     */
    method Terminate(newStatus: Status)
      modifies this
      ensures old(worker).None? ==>
                status == old(status) && worker == None && hasPromise == old(hasPromise) && timerPending == old(timerPending)
      ensures old(worker).Some? ==> status == newStatus && worker == None && !hasPromise && !timerPending
      ensures created == old(created)
    {
      if worker.Some? {
        hasPromise := false;
        worker := None;
        timerPending := false;
        status := newStatus;
      }
    }

    /**
     * `workerFn(...args)`: refused while 'RUNNING', leaving everything as it
     * was. Otherwise a new worker is created (scheduling the timeout when
     * one is set), the promise is stored and the status becomes 'RUNNING'.
     * Returns whether the call was refused.
     */
    method Run() returns (refused: bool)
      requires Valid()
      modifies this
      ensures Valid()
      ensures refused <==> old(status) == Running
      ensures refused ==>
                status == old(status) && worker == old(worker) && hasPromise == old(hasPromise)
                && timerPending == old(timerPending) && created == old(created)
      ensures !refused ==>
                && status == Running && worker == Some(old(created)) && hasPromise
                && timerPending == SchedulesTimeout() && created == old(created) + 1
    {
      if status == Running {
        return true;
      }
      refused := false;
      worker := Some(created);
      created := created + 1;
      timerPending := SchedulesTimeout();
      hasPromise := true;
      status := Running;
    }

    /**
     * The worker's `onmessage`: a 'SUCCESS' message resolves with its result
     * and ends in 'SUCCESS'; any other tag rejects and ends in 'ERROR'. The
     * worker is terminated either way.
     */
    method OnMessage(tag: string, result: R) returns (settled: Settlement<R>)
      requires Valid()
      modifies this
      ensures Valid() && worker == None && !hasPromise && !timerPending
      ensures created == old(created)
      ensures old(worker).Some? ==> status == (if tag == "SUCCESS" then Success else Error)
      ensures old(worker).None? ==> status == old(status)
      ensures settled == if !old(hasPromise) then Unsettled else if tag == "SUCCESS" then Resolved(result) else Rejected
    {
      if tag == "SUCCESS" {
        settled := if hasPromise then Resolved(result) else Unsettled;
        Terminate(Success);
      } else {
        settled := if hasPromise then Rejected else Unsettled;
        Terminate(Error);
      }
    }

    /** The worker's `onerror`: rejects and ends in 'ERROR'. */
    method OnError() returns (settled: Settlement<R>)
      requires Valid()
      modifies this
      ensures Valid() && worker == None && !hasPromise && !timerPending
      ensures created == old(created)
      ensures old(worker).Some? ==> status == Error
      ensures old(worker).None? ==> status == old(status)
      ensures settled == if old(hasPromise) then Rejected else Unsettled
    {
      settled := if hasPromise then Rejected else Unsettled;
      Terminate(Error);
    }

    /** The scheduled timeout fires: the worker is terminated with 'TIMEOUT_EXPIRED'; the promise stays unsettled. */
    method OnTimeout()
      requires Valid() && timerPending
      modifies this
      ensures Valid() && status == TimeoutExpired && worker == None && !hasPromise && !timerPending
      ensures created == old(created)
    {
      Terminate(TimeoutExpired);
    }
  }

  /** A run that times out can be followed by a new run, which gets a new worker. */
  method TimeoutThenRerun() returns (first: bool, statusAfterTimeout: Status, second: bool, w: Option<nat>)
    ensures !first && statusAfterTimeout == TimeoutExpired && !second && w == Some(1)
  {
    var f := new WebWorkerFn<int>(Some(100));
    first := f.Run();
    f.OnTimeout();
    statusAfterTimeout := f.status;
    second := f.Run();
    w := f.worker;
  }

  /** A second `workerFn` while the first is running is refused. */
  method RunWhileRunning() returns (first: bool, second: bool, s: Status)
    ensures !first && second && s == Running
  {
    var f := new WebWorkerFn<int>(None);
    first := f.Run();
    second := f.Run();
    s := f.status;
  }
}
