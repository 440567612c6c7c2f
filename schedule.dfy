// schedule.py: a Job is configured by a small builder (`after(t)` or
// `withInterval(t)`, then a time-unit property) and fires its callback on
// each due `update`, counting down `_repeat`; `schedule` keeps a list of
// jobs and drops the finished ones while it walks that list. Time is the
// integer number of microseconds (timedelta's resolution) since datetime's
// earliest value, `now` is passed in, and a callback is observed only as
// the fact that it was called.

module Schedule {
  import opened Exceptions

  /** The units the properties `days` ... `milliseconds` select. */
  datatype Unit = Days | Hours | Minutes | Seconds | Milliseconds

  /** One unit in microseconds. */
  function Micros(u: Unit): (m: nat)
    ensures m >= 1000
  {
    match u
    case Days => 86_400_000_000
    case Hours => 3_600_000_000
    case Minutes => 60_000_000
    case Seconds => 1_000_000
    case Milliseconds => 1000
  }

  /** `timedelta(<unit>=t)` for a whole number t: t units in microseconds,
      or OverflowError when the days part leaves timedelta's range
      of ±999999999 days. */
  function Delta(t: int, u: Unit): (r: Result<int>)
    ensures r.Ok? ==> r.value == t * Micros(u) && -999_999_999 <= r.value / Micros(Days) <= 999_999_999
    ensures r.Err? ==> r.error == OverflowError
  {
    var d := t * Micros(u);
    if -999_999_999 <= d / Micros(Days) <= 999_999_999 then Ok(d) else Err(OverflowError)
  }

  /** What a unit property does with the pending value: `_settingTime` is
      never assigned by the constructor (so reading it raises
      AttributeError), then names `after` or `withInterval`, and is None once
      a unit has been applied. */
  datatype Selector = NotSet | After | WithInterval | Cleared

  /** The attributes of a Job. */
  datatype JobAttrs = JobAttrs(
    timeval: int,       // _timeval, waiting for its unit
    repeat: int,        // _repeat
    waittime: int,      // _waittime
    calltime: int,      // _calltime
    interval: int,      // _interval
    finished: bool,     // _finished
    selector: Selector) // _settingTime

  /** `Job(callback, *args)` created at time `now`. */
  function NewJob(now: int): JobAttrs
  {
    JobAttrs(0, 0, 0, now, 0, false, NotSet)
  }

  const UnitFirstMessage: string := "Please call 'after()' or 'withInterval()' before select the unit of time."

  /** The latest datetime, 9999-12-31 23:59:59.999999, in microseconds
      since the earliest, 0001-01-01 00:00:00. */
  const MaxTime: int := 315_537_897_599_999_999

  /** `datetime + timedelta`: OverflowError when the sum leaves datetime's
      range. */
  function AddTime(t: int, d: int): (r: Result<int>)
    ensures r.Ok? <==> 0 <= t + d <= MaxTime
    ensures r.Ok? ==> r.value == t + d
    ensures r.Err? ==> r.error == OverflowError
  {
    if 0 <= t + d <= MaxTime then Ok(t + d) else Err(OverflowError)
  }

  /** `__setTime(delta)` at time `now`: the outcome and the attributes it
      leaves. After `after`, the wait time is assigned first and then the
      call time, whose datetime addition may overflow; after `withInterval`,
      the interval. Only a set-up that completes clears the selector. */
  function SetTime(a: JobAttrs, delta: int, now: int): (r: (Result<()>, JobAttrs))
    ensures r.0.Err? <==> a.selector.NotSet? || a.selector.Cleared? || (a.selector.After? && AddTime(now, delta).Err?)
    ensures a.selector.NotSet? ==> r == (Err(AttributeError), a)
    ensures a.selector.Cleared? ==> r == (Err(RuntimeError(UnitFirstMessage)), a)
    ensures a.selector.After? && r.0.Ok? ==> r.1 == a.(waittime := delta, calltime := now + delta, selector := Cleared)
    ensures a.selector.After? && r.0.Err? ==> r == (Err(OverflowError), a.(waittime := delta))
    ensures a.selector.WithInterval? ==> r == (Ok(()), a.(interval := delta, selector := Cleared))
  {
    match a.selector
    case NotSet => (Err(AttributeError), a)
    case After =>
      var a1 := a.(waittime := delta);
      (match AddTime(now, a1.waittime)
       case Err(e) => (Err(e), a1)
       case Ok(c) => (Ok(()), a1.(calltime := c, selector := Cleared)))
    case WithInterval => (Ok(()), a.(interval := delta, selector := Cleared))
    case Cleared => (Err(RuntimeError(UnitFirstMessage)), a)
  }

  /** A unit property (`days`, `hours`, ...) at time `now`: the pending value
      in that unit, then `__setTime`. The timedelta is built first, so an
      overflow there comes before a missing selector and changes nothing. */
  function UnitStep(a: JobAttrs, u: Unit, now: int): (r: (Result<()>, JobAttrs))
  {
    match Delta(a.timeval, u)
    case Err(e) => (Err(e), a)
    case Ok(d) => SetTime(a, d, now)
  }

  /** `update()` at time `now`: nothing before the call time; when due, one
      repetition is used up and the next call time set if any is left (the
      datetime addition may overflow, after the count went down and before
      the callback), the callback is called, and the job is finished once no
      repetition is left. The outcome says whether the callback was called. */
  function UpdateStep(a: JobAttrs, now: int): (r: (JobAttrs, Result<bool>))
  {
    if now < a.calltime then (a, Ok(false))
    else if a.repeat > 0 then
      var a1 := a.(repeat := a.repeat - 1);
      match AddTime(now, a1.interval)
      case Err(e) => (a1, Err(e))
      case Ok(c) => (a1.(calltime := c, finished := a1.finished || a1.repeat == 0), Ok(true))
    else (a.(finished := a.finished || a.repeat == 0), Ok(true))
  }

  /** The update at `now` raises. */
  predicate Raises(a: JobAttrs, now: int)
  {
    UpdateStep(a, now).1.Err?
  }

  /** Before its call time an update changes nothing and calls nothing. */
  lemma NotDue(a: JobAttrs, now: int)
    requires now < a.calltime
    ensures UpdateStep(a, now) == (a, Ok(false))
  {
  }

  /** A due update raises OverflowError exactly when a repetition is left
      and the next call time is past the last datetime, having used the
      repetition up; otherwise it calls the callback exactly once, with
      repetitions left uses one up and schedules the next call `_interval`
      later, and the job is finished exactly when no repetition is left. */
  lemma Due(a: JobAttrs, now: int)
    requires now >= a.calltime
    ensures
      var (a1, r) := UpdateStep(a, now);
      && (r.Err? <==> a.repeat > 0 && !(0 <= now + a.interval <= MaxTime))
      && (r.Err? ==> r.error == OverflowError && a1 == a.(repeat := a.repeat - 1))
      && (r.Ok? ==> r.value)
      && (r.Ok? && a.repeat > 0 ==> a1.repeat == a.repeat - 1 && a1.calltime == now + a.interval)
      && (a.repeat <= 0 ==> a1.repeat == a.repeat && a1.calltime == a.calltime)
      && (r.Ok? ==> (a1.finished <==> a.finished || a1.repeat == 0))
      && a1 == a.(repeat := a1.repeat, calltime := a1.calltime, finished := a1.finished)
  {
  }

  /** Updates at the times `nows`, in order, up to the first that raises:
      the final attributes, how many called the callback, and the
      exception that ended them, if any. */
  function Updates(a: JobAttrs, nows: seq<int>): (r: (JobAttrs, nat, Result<()>))
    ensures r.1 <= |nows|
    ensures r.2.Err? ==> r.2.error == OverflowError
    decreases |nows|
  {
    if nows == [] then (a, 0, Ok(()))
    else
      var (a1, out) := UpdateStep(a, nows[0]);
      if out.Err? then (a1, 0, Err(out.error))
      else
        var (a2, n, e) := Updates(a1, nows[1..]);
        (a2, n + (if out.value then 1 else 0), e)
  }

  /** Whatever the times, `repeat(n)` with n >= 0 counts down once per due
      call, including one that raises, and the job is finished exactly after
      max(n, 1) callback calls: n >= 1 calls the callback n times before
      finishing, and 0 once. A negative count is never used up, so such a
      job never raises or finishes. */
  lemma {:induction false} RepeatCountdown(a: JobAttrs, nows: seq<int>)
    ensures
      var (a1, calls, e) := Updates(a, nows);
      var uses := calls + (if e.Err? then 1 else 0);
      && (a.repeat >= 0 ==> a1.repeat == (if uses >= a.repeat then 0 else a.repeat - uses))
      && (a.repeat >= 0 ==> (a1.finished <==> a.finished || (calls >= 1 && calls >= a.repeat)))
      && (a.repeat < 0 ==> a1.repeat == a.repeat && a1.finished == a.finished && e.Ok?)
    decreases |nows|
  {
    if nows != [] {
      var (b, out) := UpdateStep(a, nows[0]);
      if out.Ok? {
        RepeatCountdown(b, nows[1..]);
      }
    }
  }

  /** `after(t)` then a unit at time `now`: the wait time is t units; the
      first call comes t units after `now` and the selector is cleared,
      unless that time is past the last datetime, which raises OverflowError
      with the wait time already set and the selector still on `after`. */
  lemma AfterThenUnit(a: JobAttrs, t: int, u: Unit, now: int)
    requires -999_999_999 <= t * Micros(u) / Micros(Days) <= 999_999_999
    ensures
      var r := UnitStep(a.(timeval := t, selector := After), u, now);
      && r.1.waittime == t * Micros(u)
      && r.1.interval == a.interval && r.1.repeat == a.repeat
      && (r.0.Ok? <==> 0 <= now + t * Micros(u) <= MaxTime)
      && (r.0.Ok? ==> r.1.calltime == now + t * Micros(u) && r.1.selector == Cleared)
      && (r.0.Err? ==> r.0.error == OverflowError && r.1.calltime == a.calltime && r.1.selector == After)
  {
  }

  /** `withInterval(t)` then a unit: later calls come t units apart, and the
      selector is cleared. */
  lemma IntervalThenUnit(a: JobAttrs, t: int, u: Unit, now: int)
    requires -999_999_999 <= t * Micros(u) / Micros(Days) <= 999_999_999
    ensures
      var r := UnitStep(a.(timeval := t, selector := WithInterval), u, now);
      && r.0.Ok?
      && r.1.interval == t * Micros(u)
      && r.1.selector == Cleared
      && r.1.calltime == a.calltime && r.1.waittime == a.waittime
  {
  }

  /** A second unit after one that completed, without a new
      `after`/`withInterval`, raises RuntimeError and changes nothing; a
      unit on a fresh job raises AttributeError. */
  lemma UnitNeedsSelector(a: JobAttrs, t: int, u: Unit, u2: Unit, now: int, now2: int)
    requires -999_999_999 <= t * Micros(u) / Micros(Days) <= 999_999_999
    requires -999_999_999 <= t * Micros(u2) / Micros(Days) <= 999_999_999
    requires a.selector == After || a.selector == WithInterval
    ensures
      var r := UnitStep(a.(timeval := t), u, now);
      r.0.Ok? ==> UnitStep(r.1, u2, now2) == (Err(RuntimeError(UnitFirstMessage)), r.1)
    ensures
      var j0 := NewJob(now).(timeval := t);
      UnitStep(j0, u, now2) == (Err(AttributeError), j0)
  {
  }

  class Job {
    var timeval: int
    var repeat: int
    var waittime: int
    var calltime: int
    var interval: int
    var finished: bool
    var selector: Selector

    function State(): JobAttrs
      reads this
    {
      JobAttrs(timeval, repeat, waittime, calltime, interval, finished, selector)
    }

    /** `Job(callback, *args)` at time `now`. */
    constructor (now: int)
      ensures State() == NewJob(now)
    {
      timeval, repeat, waittime, calltime, interval := 0, 0, 0, now, 0;
      finished, selector := false, NotSet;
    }

    /** `after(timeval)`: returns the job itself. */
    method SetAfter(t: int) returns (j: Job)
      modifies this
      ensures j == this && State() == old(State()).(timeval := t, selector := After)
    {
      timeval, selector := t, After;
      j := this;
    }

    /** `repeat(times)`: returns the job itself. */
    method SetRepeat(times: int) returns (j: Job)
      modifies this
      ensures j == this && State() == old(State()).(repeat := times)
    {
      repeat := times;
      j := this;
    }

    /** `withInterval(interval)`: returns the job itself. */
    method SetWithInterval(t: int) returns (j: Job)
      modifies this
      ensures j == this && State() == old(State()).(timeval := t, selector := WithInterval)
    {
      timeval, selector := t, WithInterval;
      j := this;
    }

    /** The unit properties `days`, `hours`, `minutes`, `seconds` and
        `milliseconds`, read at time `now`: the job itself, or the exception,
        with the attributes UnitStep leaves. */
    method SelectUnit(u: Unit, now: int) returns (r: Result<Job>)
      modifies this
      ensures State() == UnitStep(old(State()), u, now).1
      ensures match UnitStep(old(State()), u, now).0
              case Ok(_) => r == Ok(this)
              case Err(e) => r == Err(e)
    {
      var d := timeval * Micros(u);
      if !(-999_999_999 <= d / Micros(Days) <= 999_999_999) {
        return Err(OverflowError);
      }
      match selector {
        case NotSet =>
          return Err(AttributeError);
        case After =>
          waittime := d;
          if !(0 <= now + waittime <= MaxTime) {
            return Err(OverflowError);
          }
          calltime := now + waittime;
        case WithInterval =>
          interval := d;
        case Cleared =>
          return Err(RuntimeError(UnitFirstMessage));
      }
      selector := Cleared;
      r := Ok(this);
    }

    /** `update()` at time `now`: whether the callback was called, or the
        exception. */
    method Update(now: int) returns (r: Result<bool>)
      modifies this
      ensures (State(), r) == UpdateStep(old(State()), now)
    {
      r := Ok(false);
      if now >= calltime {
        if repeat > 0 {
          repeat := repeat - 1;
          if !(0 <= now + interval <= MaxTime) {
            return Err(OverflowError);
          }
          calltime := now + interval;
        }
        r := Ok(true);
        if repeat == 0 {
          finished := true;
        }
      }
    }

    /** `isFinished`. */
    function IsFinished(): (b: bool)
      reads this
      ensures b == State().finished
    {
      finished
    }
  }

  // ----- The pass of `schedule.update` over its job list

  /** An update at `now` completes and leaves the job finished, so the pass
      removes it. */
  predicate Removes(a: JobAttrs, now: int)
  {
    UpdateStep(a, now).1.Ok? && UpdateStep(a, now).0.finished
  }

  /** Which jobs of the list a pass updates. `for job in self._jobs` walks
      the list by position while `remove` shifts the rest of it left, so the
      job right after a removed one moves into the slot just visited and is
      passed over; `skip` says that the first job here is passed over. */
  function Visits(a: seq<JobAttrs>, now: int, skip: bool): (v: seq<bool>)
    ensures |v| == |a|
    decreases |a|
  {
    if a == [] then []
    else [!skip] + Visits(a[1..], now, !skip && Removes(a[0], now))
  }

  /** Which jobs the pass removes: those it updates into finished ones. */
  function Removed(a: seq<JobAttrs>, now: int): (d: seq<bool>)
    ensures |d| == |a|
  {
    RemovedFrom(a, now, false)
  }

  function RemovedFrom(a: seq<JobAttrs>, now: int, skip: bool): (d: seq<bool>)
    ensures |d| == |a|
    decreases |a|
  {
    if a == [] then []
    else
      var gone := !skip && Removes(a[0], now);
      [gone] + RemovedFrom(a[1..], now, gone)
  }

  /** The first k elements of xs whose flag in d is not set, in order. */
  function KeepUpTo<T>(xs: seq<T>, d: seq<bool>, k: nat): (r: seq<T>)
    requires k <= |xs| == |d|
    ensures |r| <= k
  {
    if k == 0 then [] else KeepUpTo(xs, d, k - 1) + (if d[k - 1] then [] else [xs[k - 1]])
  }

  /** The attributes of each job after the pass: updated if visited. */
  function AfterPass(a: seq<JobAttrs>, now: int): (b: seq<JobAttrs>)
    ensures |b| == |a|
  {
    AfterPassFrom(a, now, false)
  }

  function AfterPassFrom(a: seq<JobAttrs>, now: int, skip: bool): (b: seq<JobAttrs>)
    ensures |b| == |a|
    decreases |a|
  {
    if a == [] then []
    else
      [if skip then a[0] else UpdateStep(a[0], now).0]
        + AfterPassFrom(a[1..], now, !skip && Removes(a[0], now))
  }

  /** The first job is always updated; a job right after one the pass
      removed is not; a job right after one it kept, or after one it passed
      over, is. */
  lemma {:induction false} VisitRule(a: seq<JobAttrs>, now: int, skip: bool, k: nat)
    requires k < |a|
    ensures k == 0 ==> Visits(a, now, skip)[0] == !skip
    ensures k + 1 < |a| ==>
      Visits(a, now, skip)[k + 1] == !(Visits(a, now, skip)[k] && Removes(a[k], now))
    decreases k
  {
    if k > 0 {
      VisitRule(a[1..], now, !skip && Removes(a[0], now), k - 1);
      assert a[1..][k - 1] == a[k];
    }
  }

  /** The pass removes a job exactly when it visits it and the update
      finishes it, and leaves each job updated exactly when it visits it. */
  lemma {:induction false} PassAt(a: seq<JobAttrs>, now: int, skip: bool, k: nat)
    requires k < |a|
    ensures RemovedFrom(a, now, skip)[k] == (Visits(a, now, skip)[k] && Removes(a[k], now))
    ensures AfterPassFrom(a, now, skip)[k] ==
      (if Visits(a, now, skip)[k] then UpdateStep(a[k], now).0 else a[k])
    decreases k
  {
    if k > 0 {
      PassAt(a[1..], now, !skip && Removes(a[0], now), k - 1);
      assert a[1..][k - 1] == a[k];
    }
  }

  /** The job right after a removed one is passed over in that pass, and
      no two jobs in a row are passed over. */
  lemma SkipAfterRemoval(a: seq<JobAttrs>, now: int, k: nat)
    requires k + 1 < |a|
    ensures Removed(a, now)[k] ==> !Visits(a, now, false)[k + 1] && AfterPass(a, now)[k + 1] == a[k + 1]
    ensures !Visits(a, now, false)[k + 1] ==> Visits(a, now, false)[k]
  {
    VisitRule(a, now, false, k);
    PassAt(a, now, false, k);
    PassAt(a, now, false, k + 1);
  }

  /** When no update finishes a job, every job is updated and none removed. */
  lemma {:induction false} NoneFinish(a: seq<JobAttrs>, now: int, skip: bool)
    requires forall k :: 0 <= k < |a| ==> !Removes(a[k], now)
    ensures forall k :: 0 <= k < |a| ==> Visits(a, now, skip)[k] == (k > 0 || !skip)
    decreases |a|
  {
    if a != [] {
      forall k | 0 <= k < |a[1..]|
        ensures !Removes(a[1..][k], now)
      {
        assert a[1..][k] == a[k + 1];
      }
      NoneFinish(a[1..], now, false);
    }
  }

  /** KeepUpTo keeps elements of the prefix, without repeating any of a
      list with no repetitions. */
  /** Distinct jobs kept from before s, then the jobs from s on, are
      distinct. */
  lemma StopDistinct<T>(xs: seq<T>, p: seq<T>, s: nat)
    requires s <= |xs| && Distinct(xs) && Distinct(p)
    requires forall x :: x in p ==> x in xs[..s]
    ensures Distinct(p + xs[s..])
  {
    var q := p + xs[s..];
    forall i, j | 0 <= i < j < |q|
      ensures q[i] != q[j]
    {
      if j >= |p| && i < |p| {
        assert q[i] in xs[..s];
        assert q[j] == xs[s + j - |p|];
      }
    }
  }

  lemma {:induction false} KeepDistinct<T>(xs: seq<T>, d: seq<bool>, k: nat)
    requires k <= |xs| == |d|
    requires Distinct(xs)
    ensures Distinct(KeepUpTo(xs, d, k))
    ensures forall x :: x in KeepUpTo(xs, d, k) ==> x in xs[..k]
  {
    if k > 0 {
      KeepDistinct(xs, d, k - 1);
      var p := KeepUpTo(xs, d, k - 1);
      forall x | x in p
        ensures x in xs[..k]
      {
        assert x in xs[..k - 1];
        var i :| 0 <= i < k - 1 && xs[..k - 1][i] == x;
        assert xs[..k][i] == x;
      }
      assert xs[..k][k - 1] == xs[k - 1];
      if !d[k - 1] {
        forall i | 0 <= i < |p|
          ensures p[i] != xs[k - 1]
        {
          assert p[i] in p;
          var j :| 0 <= j < k - 1 && xs[..k - 1][j] == p[i];
          assert xs[j] == p[i];
        }
      }
    }
  }

  /** One position of the pass, on the list: a kept job stays where it is. */
  lemma KeepStep<T>(orig: seq<T>, d: seq<bool>, k: nat)
    requires k < |orig| == |d| && !d[k]
    ensures KeepUpTo(orig, d, k) + orig[k..] == KeepUpTo(orig, d, k + 1) + orig[k + 1..]
    ensures |KeepUpTo(orig, d, k + 1)| == |KeepUpTo(orig, d, k)| + 1
  {
    assert orig[k..] == [orig[k]] + orig[k + 1..];
  }

  /** A removed job leaves the list, and the job after it, passed over, is
      kept. */
  lemma DropStep<T>(orig: seq<T>, d: seq<bool>, k: nat)
    requires k < |orig| == |d| && d[k]
    requires k + 1 < |orig| ==> !d[k + 1]
    ensures
      var js := KeepUpTo(orig, d, k) + orig[k..];
      var i := |KeepUpTo(orig, d, k)|;
      var k2 := if k + 1 < |orig| then k + 2 else k + 1;
      && i < |js|
      && js[..i] + js[i + 1..] == KeepUpTo(orig, d, k2) + orig[k2..]
      && |KeepUpTo(orig, d, k2)| == i + (k2 - k - 1)
  {
    var p := KeepUpTo(orig, d, k);
    var js := p + orig[k..];
    var i := |p|;
    assert js[..i] == p;
    assert js[i + 1..] == orig[k + 1..];
    if k + 1 < |orig| {
      assert orig[k + 1..] == [orig[k + 1]] + orig[k + 2..];
    }
  }

  /** The position s where the pass stops: the first visited job whose
      update raises, or the length of the list when none does. */
  ghost predicate StopsAt(a: seq<JobAttrs>, now: int, v: seq<bool>, s: nat)
  {
    && |v| == |a| && s <= |a|
    && (forall j :: 0 <= j < s ==> !(v[j] && Raises(a[j], now)))
    && (s < |a| ==> v[s] && Raises(a[s], now))
  }

  /** The first position from j on of a visited job whose update raises,
      or the length of the list. */
  function FirstRaise(a: seq<JobAttrs>, v: seq<bool>, now: int, j: nat): (s: nat)
    requires |v| == |a| && j <= |a|
    ensures j <= s <= |a|
    ensures forall i :: j <= i < s ==> !(v[i] && Raises(a[i], now))
    ensures s < |a| ==> v[s] && Raises(a[s], now)
    decreases |a| - j
  {
    if j == |a| then |a|
    else if v[j] && Raises(a[j], now) then j
    else FirstRaise(a, v, now, j + 1)
  }

  /** A visited job at or before the stopping position raises exactly at
      it, and the next visited job is not past it. */
  lemma StopHere(a: seq<JobAttrs>, now: int, v: seq<bool>, s: nat, k: nat, k2: nat)
    requires StopsAt(a, now, v, s) && k <= s && k < |a| && v[k] && k2 <= |a|
    requires k2 == k + 1 || (k2 == k + 2 && !v[k + 1])
    ensures Raises(a[k], now) <==> k == s
    ensures k != s ==> k2 <= s
  {
  }

  /** The attributes when the pass stops at s: updated up to s, as before
      after it. */
  lemma StoppedAttrs(b: seq<JobAttrs>, a: seq<JobAttrs>, s: nat, st: seq<JobAttrs>)
    requires s < |a| == |b| && st == b[..s + 1] + a[s + 1..]
    ensures |st| == |a|
    ensures forall j :: 0 <= j < |a| ==> st[j] == if j <= s then b[j] else a[j]
  {
  }

  /** Where the pass of `update()` over jobs with attributes a stops. */
  function StopIndex(a: seq<JobAttrs>, now: int): (s: nat)
    ensures StopsAt(a, now, Visits(a, now, false), s)
  {
    FirstRaise(a, Visits(a, now, false), now, 0)
  }

  /** The local rules of the pass: the first job is visited; a visited job
      is removed when its update finishes it, and updated; a job not visited
      keeps its attributes; the job after a removed one is not visited, the
      job after any other is. */
  ghost predicate PassRules(a: seq<JobAttrs>, now: int, v: seq<bool>, d: seq<bool>, b: seq<JobAttrs>)
  {
    && |v| == |a| && |d| == |a| && |b| == |a|
    && (|a| > 0 ==> v[0])
    && (forall j {:trigger d[j]} :: 0 <= j < |a| ==> d[j] == (v[j] && Removes(a[j], now)))
    && (forall j {:trigger b[j]} :: 0 <= j < |a| ==> b[j] == (if v[j] then UpdateStep(a[j], now).0 else a[j]))
    && (forall j {:trigger d[j]} :: 0 <= j < |a| - 1 ==> v[j + 1] == !d[j])
  }

  /** Visits, Removed and AfterPass follow the local rules. */
  lemma PassFollowsRules(a: seq<JobAttrs>, now: int)
    ensures PassRules(a, now, Visits(a, now, false), Removed(a, now), AfterPass(a, now))
  {
    forall j | 0 <= j < |a|
      ensures Removed(a, now)[j] == (Visits(a, now, false)[j] && Removes(a[j], now))
      ensures AfterPass(a, now)[j] == (if Visits(a, now, false)[j] then UpdateStep(a[j], now).0 else a[j])
      ensures j < |a| - 1 ==> Visits(a, now, false)[j + 1] == !Removed(a, now)[j]
    {
      VisitRule(a, now, false, j);
      PassAt(a, now, false, j);
    }
    if |a| > 0 {
      VisitRule(a, now, false, 0);
    }
  }

  /** The local rules determine the pass: any flags and attributes that
      follow them are those of Visits, Removed and AfterPass. */
  lemma PassRulesUnique(a: seq<JobAttrs>, now: int, v: seq<bool>, d: seq<bool>, b: seq<JobAttrs>)
    requires PassRules(a, now, v, d, b)
    ensures v == Visits(a, now, false) && d == Removed(a, now) && b == AfterPass(a, now)
  {
    PassFollowsRules(a, now);
    var v0, d0, b0 := Visits(a, now, false), Removed(a, now), AfterPass(a, now);
    forall j | 0 <= j < |a|
      ensures v[j] == v0[j] && d[j] == d0[j] && b[j] == b0[j]
    {
      SameUpTo(a, now, v, d, b, v0, d0, b0, j);
    }
  }

  lemma {:induction false} SameUpTo(a: seq<JobAttrs>, now: int, v: seq<bool>, d: seq<bool>, b: seq<JobAttrs>,
                                    v0: seq<bool>, d0: seq<bool>, b0: seq<JobAttrs>, j: nat)
    requires PassRules(a, now, v, d, b) && PassRules(a, now, v0, d0, b0) && j < |a|
    ensures v[j] == v0[j] && d[j] == d0[j] && b[j] == b0[j]
    decreases j
  {
    if j > 0 {
      SameUpTo(a, now, v, d, b, v0, d0, b0, j - 1);
      assert d[j - 1] == d0[j - 1];
    }
    assert d[j] == (v[j] && Removes(a[j], now));
    assert d0[j] == (v0[j] && Removes(a[j], now));
    assert b[j] == (if v[j] then UpdateStep(a[j], now).0 else a[j]);
    assert b0[j] == (if v0[j] then UpdateStep(a[j], now).0 else a[j]);
  }

  /** Lemma-returned flags and attributes of the pass, known only by its
      local rules. */
  lemma Plan(a: seq<JobAttrs>, now: int) returns (v: seq<bool>, d: seq<bool>, b: seq<JobAttrs>)
    ensures PassRules(a, now, v, d, b)
  {
    PassFollowsRules(a, now);
    v, d, b := Visits(a, now, false), Removed(a, now), AfterPass(a, now);
  }

  /** Replacing the element at k of a spliced sequence moves the splice on
      by one; an element equal in both moves it on for free. */
  lemma Splice<T>(b: seq<T>, a: seq<T>, k: nat)
    requires k < |a| == |b|
    ensures (b[..k] + a[k..])[k] == a[k]
    ensures (b[..k] + a[k..])[k := b[k]] == b[..k + 1] + a[k + 1..]
    ensures k + 1 < |a| && b[k + 1] == a[k + 1] ==> b[..k + 1] + a[k + 1..] == b[..k + 2] + a[k + 2..]
  {
    assert (b[..k] + a[k..])[k := b[k]] == b[..k + 1] + a[k + 1..];
    if k + 1 < |a| && b[k + 1] == a[k + 1] {
      assert b[..k + 1] + a[k + 1..] == b[..k + 2] + a[k + 2..];
    }
  }

  /** One turn of the pass, on the list and the attributes: the job at
      position i of the list is the k-th of the original list, its update
      finishes it exactly when the pass removes it, and after it the pass
      goes on at k + 1, or at k + 2 when the removal made it pass over the
      next job. */
  lemma PassAdvance<T>(orig: seq<T>, a: seq<JobAttrs>, now: int, v: seq<bool>, d: seq<bool>, b: seq<JobAttrs>,
                       k: nat, js: seq<T>, i: nat, st: seq<JobAttrs>) returns (k2: nat)
    requires PassRules(a, now, v, d, b) && |orig| == |a| && k < |a|
    requires js == KeepUpTo(orig, d, k) + orig[k..] && i == |KeepUpTo(orig, d, k)| && v[k]
    requires st == b[..k] + a[k..]
    ensures i < |js| && js[i] == orig[k] && st[k] == a[k]
    ensures !Raises(a[k], now) ==> UpdateStep(a[k], now).0.finished == d[k]
    ensures k < k2 <= |a|
    ensures k2 == k + 1 || (k2 == k + 2 && !v[k + 1])
    ensures (if d[k] then js[..i] + js[i + 1..] else js) == KeepUpTo(orig, d, k2) + orig[k2..]
    ensures k2 < |a| ==> i + 1 == |KeepUpTo(orig, d, k2)| && v[k2]
    ensures k2 == |a| ==> i + 1 >= |if d[k] then js[..i] + js[i + 1..] else js|
    ensures st[k := UpdateStep(a[k], now).0] == b[..k2] + a[k2..]
  {
    var n := |a|;
    Splice(b, a, k);
    if !d[k] {
      KeepStep(orig, d, k);
      k2 := k + 1;
    } else if k + 1 < n {
      assert !v[k + 1] && !d[k + 1] && b[k + 1] == a[k + 1];
      DropStep(orig, d, k);
      k2 := k + 2;
    } else {
      DropStep(orig, d, k);
      k2 := k + 1;
    }
  }

  /** One turn of the pass that may stop: as PassAdvance, and the update
      there raises exactly at the stopping position s, after which the
      attributes are updated up to s and as before after it. */
  lemma StopAdvance<T>(orig: seq<T>, a: seq<JobAttrs>, now: int, v: seq<bool>, d: seq<bool>, b: seq<JobAttrs>,
                       s: nat, k: nat, js: seq<T>, i: nat, st: seq<JobAttrs>) returns (k2: nat)
    requires PassRules(a, now, v, d, b) && |orig| == |a| && k < |a|
    requires StopsAt(a, now, v, s) && k <= s
    requires js == KeepUpTo(orig, d, k) + orig[k..] && i == |KeepUpTo(orig, d, k)| && v[k]
    requires st == b[..k] + a[k..]
    ensures i < |js| && js[i] == orig[k] && st[k] == a[k]
    ensures Raises(a[k], now) <==> k == s
    ensures k != s ==> UpdateStep(a[k], now).0.finished == d[k]
    ensures k != s ==> k < k2 <= s
    ensures k != s ==> (if d[k] then js[..i] + js[i + 1..] else js) == KeepUpTo(orig, d, k2) + orig[k2..]
    ensures k != s && k2 < |a| ==> i + 1 == |KeepUpTo(orig, d, k2)| && v[k2]
    ensures k != s && k2 == |a| ==> i + 1 >= |if d[k] then js[..i] + js[i + 1..] else js|
    ensures k != s ==> st[k := UpdateStep(a[k], now).0] == b[..k2] + a[k2..]
    ensures k == s ==> forall j :: 0 <= j < |a| ==> st[k := UpdateStep(a[k], now).0][j] == if j <= s then b[j] else a[j]
  {
    k2 := PassAdvance(orig, a, now, v, d, b, k, js, i, st);
    StopHere(a, now, v, s, k, k2);
    if k == s {
      assert !d[k] && k2 == k + 1;
      StoppedAttrs(b, a, s, st[k := UpdateStep(a[k], now).0]);
    }
  }

  /** When the loop of the pass stops, it has gone through the whole list. */
  lemma PassDone<T>(orig: seq<T>, a: seq<JobAttrs>, d: seq<bool>, b: seq<JobAttrs>,
                    k: nat, js: seq<T>, i: nat, st: seq<JobAttrs>)
    requires k <= |orig| == |a| == |d| == |b| && i >= |js|
    requires js == KeepUpTo(orig, d, k) + orig[k..]
    requires k < |orig| ==> i == |KeepUpTo(orig, d, k)|
    requires st == b[..k] + a[k..]
    ensures js == KeepUpTo(orig, d, |orig|) && st == b
  {
    assert k == |orig|;
    assert b[..k] == b;
  }

  predicate Distinct<T(==)>(xs: seq<T>)
  {
    forall i, j :: 0 <= i < j < |xs| ==> xs[i] != xs[j]
  }

  class Scheduler {
    var jobs: seq<Job>
    var asyncJobs: seq<Job>

    ghost predicate Valid()
      reads this
    {
      Distinct(jobs)
    }

    /** The attributes of the listed jobs, in list order. */
    ghost function Snapshot(js: seq<Job>): (a: seq<JobAttrs>)
      reads js
      ensures |a| == |js|
    {
      seq(|js|, k requires 0 <= k < |js| reads js => js[k].State())
    }

    /** The attributes of the listed jobs, known element by element. */
    lemma Attrs(js: seq<Job>) returns (a: seq<JobAttrs>)
      ensures |a| == |js|
      ensures forall j {:trigger a[j]} :: 0 <= j < |js| ==> a[j] == js[j].State()
    {
      a := Snapshot(js);
    }

    /** `job.update()` on the job at position k of a list of distinct jobs
        whose attributes are st: only that job's attributes change. */
    method UpdateListed(job: Job, ghost js: seq<Job>, ghost st: seq<JobAttrs>, ghost k: nat, now: int)
      returns (out: Result<bool>, ghost st': seq<JobAttrs>)
      requires Distinct(js) && k < |js| == |st| && js[k] == job
      requires forall j {:trigger js[j].State()} :: 0 <= j < |js| ==> js[j].State() == st[j]
      modifies job
      ensures out == UpdateStep(st[k], now).1
      ensures st' == st[k := UpdateStep(st[k], now).0]
      ensures job.finished == UpdateStep(st[k], now).0.finished
      ensures forall j {:trigger js[j].State()} :: 0 <= j < |js| ==> js[j].State() == st'[j]
    {
      out := job.Update(now);
      st' := st[k := job.State()];
    }

    /** `schedule()`. */
    constructor ()
      ensures Valid() && jobs == [] && asyncJobs == []
    {
      jobs, asyncJobs := [], [];
    }

    /** `I_Will_Do(callback, *args)` at time `now`: a new job, appended. */
    method IWillDo(now: int) returns (job: Job)
      requires Valid()
      modifies this
      ensures Valid()
      ensures fresh(job) && job.State() == NewJob(now)
      ensures jobs == old(jobs) + [job] && asyncJobs == old(asyncJobs)
    {
      job := new Job(now);
      jobs := jobs + [job];
    }

    /** `Call_Me_to_Do`: always raises NotImplementedError, before creating
        or appending anything. */
    method CallMeToDo(now: int) returns (r: Result<Job>)
      ensures r == Err(NotImplementedError)
    {
      r := Err(NotImplementedError);
    }

    /** `remainJobNum`. */
    function RemainJobNum(): (n: nat)
      reads this
      ensures n == |jobs|
    {
      |jobs|
    }

    /** `isFinishedAll`. */
    function IsFinishedAll(): (b: bool)
      reads this
      ensures b <==> jobs == []
    {
      |jobs| == 0
    }

    /** `update()` at time `now`: walk the list by position, update the job
        there, and remove it when it is finished. A job whose update raises
        OverflowError ends the pass there, with the removals made so far. */
    method Update(now: int) returns (r: Result<()>)
      requires Valid()
      modifies this, jobs
      ensures Valid() && asyncJobs == old(asyncJobs)
      ensures r.Ok? <==> StopIndex(old(Snapshot(jobs)), now) == |old(jobs)|
      ensures r.Err? ==> r.error == OverflowError
      ensures jobs == KeepUpTo(old(jobs), Removed(old(Snapshot(jobs)), now), StopIndex(old(Snapshot(jobs)), now))
                      + old(jobs)[StopIndex(old(Snapshot(jobs)), now)..]
      ensures forall j :: 0 <= j < |old(jobs)| ==>
                Snapshot(old(jobs))[j] == if j <= StopIndex(old(Snapshot(jobs)), now)
                                          then AfterPass(old(Snapshot(jobs)), now)[j]
                                          else old(Snapshot(jobs))[j]
    {
      ghost var orig := jobs;
      ghost var a := Attrs(jobs);
      ghost var v, d, b := Plan(a, now);
      assert a == old(Snapshot(jobs));
      PassRulesUnique(a, now, v, d, b);
      ghost var s := StopIndex(a, now);
      r := Sweep(now, orig, a, v, d, b, s);
      forall j | 0 <= j < |orig|
        ensures Snapshot(orig)[j] == if j <= s then b[j] else a[j]
      {
        assert orig[j].State() == if j <= s then b[j] else a[j];
      }
      KeepDistinct(orig, d, s);
      StopDistinct(orig, KeepUpTo(orig, d, s), s);
    }

    /** One turn of the loop of `update()`: update the job at position i
        of the list, which is the k-th of the original list, and drop it
        from the list when that finished it; the update raises exactly at
        the position s where the pass stops, and the list then stays. */
    method Turn(now: int, ghost orig: seq<Job>, ghost a: seq<JobAttrs>, ghost v: seq<bool>, ghost d: seq<bool>, ghost b: seq<JobAttrs>,
                ghost s: nat, ghost k: nat, js: seq<Job>, i: nat, ghost st: seq<JobAttrs>)
      returns (raised: bool, js': seq<Job>, ghost k': nat, ghost st': seq<JobAttrs>)
      requires Distinct(orig) && PassRules(a, now, v, d, b) && |a| == |orig| && k < |a|
      requires StopsAt(a, now, v, s) && k <= s
      requires js == KeepUpTo(orig, d, k) + orig[k..] && i == |KeepUpTo(orig, d, k)| && v[k]
      requires st == b[..k] + a[k..]
      requires forall j {:trigger orig[j].State()} :: 0 <= j < |orig| ==> orig[j].State() == st[j]
      modifies orig[k]
      ensures raised <==> k == s
      ensures raised ==> js' == js
      ensures |st'| == |a|
      ensures raised ==> forall j {:trigger orig[j].State()} :: 0 <= j < |orig| ==> orig[j].State() == if j <= s then b[j] else a[j]
      ensures !raised ==> k < k' <= s
      ensures !raised ==> js' == KeepUpTo(orig, d, k') + orig[k'..]
      ensures !raised && k' < |a| ==> i + 1 == |KeepUpTo(orig, d, k')| && v[k']
      ensures !raised && k' == |a| ==> i + 1 >= |js'|
      ensures !raised ==> st' == b[..k'] + a[k'..]
      ensures forall j {:trigger orig[j].State()} :: 0 <= j < |orig| ==> orig[j].State() == st'[j]
    {
      var job := js[i];
      k' := StopAdvance(orig, a, now, v, d, b, s, k, js, i, st);
      var out;
      out, st' := UpdateListed(job, orig, st, k, now);
      raised := out.Err?;
      js' := if raised then js else if job.finished then js[..i] + js[i + 1..] else js;
    }

    /** The loop of `update()`, against flags and attributes that follow the
        local rules of the pass and the position s where it stops: the jobs
        it keeps, in order, and the attributes it leaves each job of the
        list with. */
    method Sweep(now: int, ghost orig: seq<Job>, ghost a: seq<JobAttrs>, ghost v: seq<bool>, ghost d: seq<bool>, ghost b: seq<JobAttrs>,
                 ghost s: nat)
      returns (r: Result<()>)
      requires jobs == orig && Distinct(orig) && PassRules(a, now, v, d, b) && |a| == |orig|
      requires StopsAt(a, now, v, s)
      requires forall j {:trigger orig[j].State()} :: 0 <= j < |orig| ==> orig[j].State() == a[j]
      modifies this, jobs
      ensures asyncJobs == old(asyncJobs)
      ensures r.Ok? <==> s == |orig|
      ensures r.Err? ==> r.error == OverflowError
      ensures jobs == KeepUpTo(orig, d, s) + orig[s..]
      ensures forall j {:trigger orig[j].State()} :: 0 <= j < |orig| ==> orig[j].State() == if j <= s then b[j] else a[j]
    {
      ghost var n := |orig|;
      ghost var st := a;
      ghost var k := 0;
      var js := jobs;
      var i := 0;
      while i < |js|
        modifies this, orig
        invariant asyncJobs == old(asyncJobs)
        invariant 0 <= k <= s <= n
        invariant js == KeepUpTo(orig, d, k) + orig[k..]
        invariant k < n ==> i == |KeepUpTo(orig, d, k)| && v[k]
        invariant k == n ==> i >= |js|
        invariant st == b[..k] + a[k..]
        invariant forall j {:trigger orig[j].State()} :: 0 <= j < n ==> orig[j].State() == st[j]
        decreases n - k
      {
        var raised;
        raised, js, k, st := Turn(now, orig, a, v, d, b, s, k, js, i, st);
        if raised {
          jobs := js;
          return Err(OverflowError);
        }
        i := i + 1;
      }
      PassDone(orig, a, d, b, k, js, i, st);
      assert orig[n..] == [];
      jobs := js;
      r := Ok(());
    }
  }
}
