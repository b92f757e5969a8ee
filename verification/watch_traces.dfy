/**
 * The scenarios of tests/watch.test.ts, replayed against the watch model:
 * each method builds a session over a number source and returns the calls
 * its runs make.
 */
module WatchTraces {
  import opened Wrappers
  import opened Watch

  /** Default options: the registration run calls nothing, then 1 and 2 are reported. */
  method BasicTrace() returns (first: Option<Call<int>>, second: Option<Call<int>>, third: Option<Call<int>>)
    ensures first == None
    ensures second == Some(Call(1, None, 1))
    ensures third == Some(Call(2, Some(1), 2))
  {
    var w;
    w, first := Create(0, WatchOptions(None, None));
    second := w.Trigger(1);
    third := w.Trigger(2);
  }

  /** A change made while paused is neither reported nor remembered as the old value. */
  method PauseResumeTrace() returns (a: Option<Call<int>>, b: Option<Call<int>>, c: Option<Call<int>>, pausedFlag: bool)
    ensures a == Some(Call(100, None, 1))
    ensures b == None && !pausedFlag
    ensures c == Some(Call(300, Some(100), 2))
  {
    var w, first := Create(0, WatchOptions(None, None));
    a := w.Trigger(100);
    w.Pause();
    pausedFlag := w.watching;
    b := w.Trigger(200);
    w.Resume();
    c := w.Trigger(300);
  }

  /** With `count: 2` the third change is dropped and `callTimes` stays at 2. */
  method CountTrace() returns (a: Option<Call<int>>, b: Option<Call<int>>, c: Option<Call<int>>, times: nat)
    ensures a == Some(Call(10, None, 1))
    ensures b == Some(Call(20, Some(10), 2))
    ensures c == None && times == 2
  {
    var w, first := Create(0, WatchOptions(None, Some(2)));
    a := w.Trigger(10);
    b := w.Trigger(20);
    c := w.Trigger(30);
    times := w.callTimes;
  }

  /** With `defer: false` the registration run reports the initial value. */
  method ImmediateTrace() returns (a: Option<Call<int>>, b: Option<Call<int>>, c: Option<Call<int>>)
    ensures a == Some(Call(0, None, 1))
    ensures b == Some(Call(10, Some(0), 2))
    ensures c == Some(Call(20, Some(10), 3))
  {
    var w;
    w, a := Create(0, WatchOptions(Some(false), None));
    b := w.Trigger(10);
    c := w.Trigger(20);
  }

  /** `ignoreUpdate` on a paused session drops the change and leaves it watching. */
  method IgnoreUpdateTrace() returns (a: Option<Call<int>>, b: Option<Call<int>>, watchingAfter: bool)
    ensures a == None && watchingAfter
    ensures b == Some(Call(7, Some(5), 2))
  {
    var w, first := Create(5, WatchOptions(Some(false), None));
    w.Pause();
    a := w.IgnoreUpdate(Some(6));
    watchingAfter := w.watching;
    b := w.Trigger(7);
  }

  /** `watchOnce` reports the first change against the registered value, and nothing after. */
  method OnceTrace() returns (a: Option<(int, int)>, b: Option<(int, int)>)
    ensures a == Some((1, 0)) && b == None
  {
    var w := new OnceWatcher(0);
    a := w.Change(1);
    b := w.Change(2);
  }
}
