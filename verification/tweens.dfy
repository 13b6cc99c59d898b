/**
 * The small tween engine of js/utils.js: a `Tween` interpolates numeric
 * properties of a target object from their values at `start` to the values
 * given to `to`, through an easing curve; the static registry updates every
 * active tween once per frame and drops the finished ones.
 *
 * Numbers are `Base.Num`, so that the NaN an interpolation from an undefined
 * start value produces can be observed. `Date.now()` is the parameter `now`.
 */
module Tweens {
  import opened Base

  /** The easing curves of `Tween.Easing`. */
  datatype Easing = Linear | QuadraticIn | QuadraticOut | QuadraticInOut | CubicIn | CubicOut | CubicInOut

  function Ease(e: Easing, k: real): real {
    match e
    case Linear => k
    case QuadraticIn => k * k
    case QuadraticOut => k * (2.0 - k)
    case QuadraticInOut =>
      var k2 := k * 2.0;
      if k2 < 1.0 then 0.5 * k2 * k2
      else var k3 := k2 - 1.0; -0.5 * (k3 * (k3 - 2.0) - 1.0)
    case CubicIn => k * k * k
    case CubicOut => var k1 := k - 1.0; k1 * k1 * k1 + 1.0
    case CubicInOut =>
      var k2 := k * 2.0;
      if k2 < 1.0 then 0.5 * k2 * k2 * k2
      else var k3 := k2 - 2.0; 0.5 * (k3 * k3 * k3 + 2.0)
  }

  /** An easing curve applied to a number; NaN stays NaN. */
  function EaseNum(e: Easing, k: Num): Num {
    match k
    case Val(v) => Val(Ease(e, v))
    case NaN => NaN
  }

  /** `startTime` as the comparison `time < this.startTime` sees it: `null` is 0. */
  function StartAt(startTime: Option<real>): real {
    if startTime.Some? then startTime.value else 0.0
  }

  /** The sign facts of a quotient by a positive real. */
  lemma QuotientByPositive(a: real, d: real)
    requires d > 0.0
    ensures a / d > 1.0 <==> a > d
    ensures a / d == 1.0 <==> a == d
    ensures a >= 0.0 ==> a / d >= 0.0
  {
    assert a / d * d == a;
    if a / d > 1.0 {
      assert a / d * d > 1.0 * d;
    }
    if a > d {
      assert a / d > 1.0;
    }
  }

  /**
   * `elapsed` of `update`: the fraction of `duration` since the start,
   * clamped to 1. A zero duration divides to +Infinity, which clamps to 1,
   * except at the start instant itself, where 0/0 is NaN.
   */
  function Progress(startTime: Option<real>, duration: real, time: real): (p: Num)
    requires time >= StartAt(startTime)
    ensures p.Val? ==> p.v <= 1.0
    ensures p.NaN? <==> duration == 0.0 && time == StartAt(startTime)
  {
    var elapsed := time - StartAt(startTime);
    if duration == 0.0 then (if elapsed == 0.0 then NaN else Val(1.0))
    else if elapsed / duration > 1.0 then Val(1.0)
    else Val(elapsed / duration)
  }

  /** With a positive duration, progress runs from 0 and reaches 1 exactly when the duration has passed. */
  lemma ProgressOfPositiveDuration(startTime: Option<real>, duration: real, time: real)
    requires duration > 0.0 && time >= StartAt(startTime)
    ensures var p := Progress(startTime, duration, time);
      p.Val? && 0.0 <= p.v && (p.v == 1.0 <==> time >= StartAt(startTime) + duration)
  {
    QuotientByPositive(time - StartAt(startTime), duration);
  }

  /** Whether `update(time)` returns false: the start has passed and progress has reached exactly 1. */
  predicate Finished(startTime: Option<real>, duration: real, time: real) {
    time >= StartAt(startTime) && Progress(startTime, duration, time) == Val(1.0)
  }

  /** `start + (end - start) * value`, where an undefined start gives NaN. */
  function Interpolate(start: Option<Num>, end: real, value: Num): Num {
    match (start, value)
    case (Some(Val(s)), Val(v)) => Val(s + (end - s) * v)
    case _ => NaN
  }

  /** The values one update at eased `value` writes: one for every key of `valuesEnd`. */
  function Written(valuesStart: map<string, Num>, valuesEnd: map<string, real>, value: Num): map<string, Num> {
    map k | k in valuesEnd :: Interpolate(if k in valuesStart then Some(valuesStart[k]) else None, valuesEnd[k], value)
  }

  /** The target's properties after one update at eased `value`. */
  function Applied(props: map<string, Num>, valuesStart: map<string, Num>, valuesEnd: map<string, real>, value: Num): (r: map<string, Num>)
    ensures r.Keys == props.Keys + valuesEnd.Keys
    ensures forall k | k in props && k !in valuesEnd :: r[k] == props[k]
    ensures forall k | k in valuesEnd :: r[k] == Interpolate(if k in valuesStart then Some(valuesStart[k]) else None, valuesEnd[k], value)
  {
    props + Written(valuesStart, valuesEnd, value)
  }

  /** `valuesStart` after `start`: each key of `valuesEnd` that the target defines takes the target's value. */
  function Captured(valuesStart: map<string, Num>, valuesEnd: map<string, real>, props: map<string, Num>): (r: map<string, Num>)
    ensures r.Keys == valuesStart.Keys + (valuesEnd.Keys * props.Keys)
    ensures forall k | k in valuesEnd && k in props :: r[k] == props[k]
    ensures forall k | k in valuesStart && !(k in valuesEnd && k in props) :: r[k] == valuesStart[k]
  {
    map k | k in valuesStart.Keys + (valuesEnd.Keys * props.Keys) ::
      if k in valuesEnd && k in props then props[k] else valuesStart[k]
  }

  /** A JavaScript object whose numeric properties a tween animates. */
  class Target {
    var props: map<string, Num>

    constructor (props: map<string, Num>)
      ensures this.props == props
    {
      this.props := props;
    }
  }

  /** A call of an `onUpdate` or `onComplete` callback, with `this` bound to the tween's target. */
  datatype Call = UpdateCall(target: Target, value: Num) | CompleteCall(target: Target)

  /** What the callbacks observe: the calls, in order. */
  class CallbackLog {
    var calls: seq<Call>

    constructor ()
      ensures calls == []
    {
      calls := [];
    }
  }

  /** The calls one update at eased `value` makes. */
  function Calls(target: Target, hasOnUpdate: bool, hasOnComplete: bool, value: Num, finished: bool): seq<Call> {
    (if hasOnUpdate then [UpdateCall(target, value)] else []) + (if finished && hasOnComplete then [CompleteCall(target)] else [])
  }

  class Tween {
    const target: Target
    /** Where the callbacks' effects are recorded. */
    const log: CallbackLog
    var valuesStart: map<string, Num>
    var valuesEnd: map<string, real>
    var duration: real
    var delayTime: real
    var startTime: Option<real>
    var easingFunction: Easing
    var hasOnUpdate: bool
    var hasOnComplete: bool

    constructor (target: Target, log: CallbackLog)
      ensures this.target == target && this.log == log
      ensures valuesStart == map[] && valuesEnd == map[] && duration == 1000.0 && delayTime == 0.0
      ensures startTime == None && easingFunction == Linear && !hasOnUpdate && !hasOnComplete
    {
      this.target := target;
      this.log := log;
      valuesStart := map[];
      valuesEnd := map[];
      duration := 1000.0;
      delayTime := 0.0;
      startTime := None;
      easingFunction := Linear;
      hasOnUpdate := false;
      hasOnComplete := false;
    }

    /** Whether `update(time)` would return false. */
    predicate Finishes(time: real)
      reads this
    {
      Finished(startTime, duration, time)
    }

    /** `to`: the end values are replaced; the duration only when one is given. */
    method To(properties: map<string, real>, newDuration: Option<real>)
      modifies this
      ensures valuesEnd == properties
      ensures duration == if newDuration.Some? then newDuration.value else old(duration)
      ensures valuesStart == old(valuesStart) && delayTime == old(delayTime) && startTime == old(startTime)
      ensures easingFunction == old(easingFunction) && hasOnUpdate == old(hasOnUpdate) && hasOnComplete == old(hasOnComplete)
    {
      valuesEnd := properties;
      if newDuration.Some? {
        duration := newDuration.value;
      }
    }

    method Delay(amount: real)
      modifies this
      ensures delayTime == amount
      ensures valuesStart == old(valuesStart) && valuesEnd == old(valuesEnd) && duration == old(duration)
      ensures startTime == old(startTime) && easingFunction == old(easingFunction)
      ensures hasOnUpdate == old(hasOnUpdate) && hasOnComplete == old(hasOnComplete)
    {
      delayTime := amount;
    }

    method SetEasing(e: Easing)
      modifies this
      ensures easingFunction == e
      ensures valuesStart == old(valuesStart) && valuesEnd == old(valuesEnd) && duration == old(duration)
      ensures delayTime == old(delayTime) && startTime == old(startTime)
      ensures hasOnUpdate == old(hasOnUpdate) && hasOnComplete == old(hasOnComplete)
    {
      easingFunction := e;
    }

    /** `onUpdate` and `onComplete`: whether a callback is set (a falsy callback is none). */
    method SetCallbacks(onUpdate: bool, onComplete: bool)
      modifies this
      ensures hasOnUpdate == onUpdate && hasOnComplete == onComplete
      ensures valuesStart == old(valuesStart) && valuesEnd == old(valuesEnd) && duration == old(duration)
      ensures delayTime == old(delayTime) && startTime == old(startTime) && easingFunction == old(easingFunction)
    {
      hasOnUpdate := onUpdate;
      hasOnComplete := onComplete;
    }

    /** The eased progress `update(time)` applies, once the start has passed. */
    function Value(time: real): Num
      requires time >= StartAt(startTime)
      reads this
    {
      EaseNum(easingFunction, Progress(startTime, duration, time))
    }

    /** The target's properties after `update(time)`, from `props`. */
    function After(time: real, props: map<string, Num>): map<string, Num>
      reads this
    {
      if time < StartAt(startTime) then props else Applied(props, valuesStart, valuesEnd, Value(time))
    }

    /** The callback calls `update(time)` makes: none before the start. */
    function UpdateCalls(time: real): seq<Call>
      reads this
    {
      if time < StartAt(startTime) then [] else Calls(target, hasOnUpdate, hasOnComplete, Value(time), Finishes(time))
    }

    /**
     * `update(time)`: before the start nothing happens and the tween stays
     * active; otherwise every end key of the target is interpolated at the
     * eased progress, the callbacks run, and the tween reports whether it
     * is still running.
     */
    method Update(time: real) returns (alive: bool)
      modifies target, log
      ensures alive == !Finishes(time)
      ensures target.props == After(time, old(target.props))
      ensures time < StartAt(startTime) ==> log.calls == old(log.calls)
      ensures time >= StartAt(startTime) ==>
        log.calls == old(log.calls) + Calls(target, hasOnUpdate, hasOnComplete, Value(time), Finishes(time))
      ensures log.calls == old(log.calls) + UpdateCalls(time)
    {
      if time < StartAt(startTime) {
        return true;
      }
      var elapsed := Progress(startTime, duration, time);
      var value := EaseNum(easingFunction, elapsed);
      var written := Interpolated(valuesStart, valuesEnd, value);
      target.props := target.props + written;
      if hasOnUpdate {
        log.calls := log.calls + [UpdateCall(target, value)];
      }
      if elapsed == Val(1.0) {
        if hasOnComplete {
          log.calls := log.calls + [CompleteCall(target)];
        }
        return false;
      }
      return true;
    }

    /** The `for (let property in this.valuesEnd)` loop of `update`, collecting what it writes. */
    static method Interpolated(valuesStart: map<string, Num>, valuesEnd: map<string, real>, value: Num)
      returns (written: map<string, Num>)
      ensures written == Written(valuesStart, valuesEnd, value)
    {
      var keys := valuesEnd.Keys;
      written := map[];
      while keys != {}
        invariant keys <= valuesEnd.Keys
        invariant written.Keys == valuesEnd.Keys - keys
        invariant forall k | k in written ::
          written[k] == Interpolate(if k in valuesStart then Some(valuesStart[k]) else None, valuesEnd[k], value)
        decreases keys
      {
        var property :| property in keys;
        var start := if property in valuesStart then Some(valuesStart[property]) else None;
        written := written[property := Interpolate(start, valuesEnd[property], value)];
        keys := keys - {property};
      }
    }

    /**
     * `start`, as written: the tween is added to the registry first, which
     * updates it at once if it is the only active tween, and only then are
     * `startTime` and the start values recorded.
     */
    method Start(registry: Registry, now: real)
      modifies this, registry, target, log
      ensures startTime == Some(now + delayTime)
      ensures valuesStart == Captured(old(valuesStart), valuesEnd, target.props)
      ensures valuesEnd == old(valuesEnd) && duration == old(duration) && delayTime == old(delayTime)
      ensures easingFunction == old(easingFunction)
      ensures hasOnUpdate == old(hasOnUpdate) && hasOnComplete == old(hasOnComplete)
      ensures |old(registry.active)| > 0 ==>
        registry.active == old(registry.active) + [this] && target.props == old(target.props) && log.calls == old(log.calls)
      ensures |old(registry.active)| == 0 ==>
        && registry.active == (if Finished(old(startTime), duration, now) then [] else [this])
        && (now >= StartAt(old(startTime)) ==>
             && target.props == Applied(old(target.props), old(valuesStart), valuesEnd,
                                        EaseNum(easingFunction, Progress(old(startTime), duration, now)))
             && log.calls == old(log.calls) + Calls(target, hasOnUpdate, hasOnComplete,
                                                    EaseNum(easingFunction, Progress(old(startTime), duration, now)),
                                                    Finished(old(startTime), duration, now)))
        && (now < StartAt(old(startTime)) ==> target.props == old(target.props) && log.calls == old(log.calls))
    {
      registry.Add(this, now);
      startTime := Some(now + delayTime);
      valuesStart := Captured(valuesStart, valuesEnd, target.props);
    }

    /** `start` with `startTime` and the start values recorded before the tween joins the registry. */
    method StartFixed(registry: Registry, now: real)
      modifies this, registry, target, log
      ensures startTime == Some(now + delayTime)
      ensures valuesStart == Captured(old(valuesStart), valuesEnd, old(target.props))
      ensures valuesEnd == old(valuesEnd) && duration == old(duration) && delayTime == old(delayTime)
      ensures easingFunction == old(easingFunction)
      ensures hasOnUpdate == old(hasOnUpdate) && hasOnComplete == old(hasOnComplete)
      ensures |old(registry.active)| > 0 ==>
        registry.active == old(registry.active) + [this] && target.props == old(target.props) && log.calls == old(log.calls)
      ensures |old(registry.active)| == 0 ==>
        && registry.active == (if Finished(startTime, duration, now) then [] else [this])
        && target.props == After(now, old(target.props))
        && log.calls == old(log.calls) + UpdateCalls(now)
    {
      startTime := Some(now + delayTime);
      valuesStart := Captured(valuesStart, valuesEnd, target.props);
      registry.Add(this, now);
    }
  }

  /** The tweens of `active` whose update at `time` returns true, in their order. */
  function Pending(active: seq<Tween>, time: real): seq<Tween>
    reads set t | t in active
    decreases |active|
  {
    if active == [] then []
    else (if active[0].Finishes(time) then [] else [active[0]]) + Pending(active[1..], time)
  }

  /** Whether the `j`th of `active` is the only one animating its target. */
  predicate SoleTarget(active: seq<Tween>, j: int) {
    0 <= j < |active| && forall m | 0 <= m < |active| && m != j :: active[m].target != active[j].target
  }

  /** Whether the `j`th of `active` is the only one recording into its callback log. */
  predicate SoleLog(active: seq<Tween>, j: int) {
    0 <= j < |active| && forall m | 0 <= m < |active| && m != j :: active[m].log != active[j].log
  }

  /** The static `Tween.activeTweens` list and the static `update`/`add`. */
  class Registry {
    var active: seq<Tween>

    constructor ()
      ensures active == []
    {
      active := [];
    }

    /** The targets and callback logs of the active tweens. */
    function Touched(): set<object>
      reads this
    {
      (set t | t in active :: t.target) + (set t | t in active :: t.log)
    }

    /**
     * The static `update`: every active tween is updated at `now`, from the
     * last to the first, and those whose update returns false are spliced
     * out. A tween whose target no other active tween animates has its
     * update applied to that target exactly once.
     */
    method UpdateAll(now: real)
      modifies this, Touched()
      ensures active == Pending(old(active), now)
      ensures forall j | 0 <= j < |old(active)| && SoleTarget(old(active), j) ::
        var t := old(active)[j]; t.target.props == t.After(now, old(t.target.props))
      ensures forall j | 0 <= j < |old(active)| && SoleLog(old(active), j) ::
        var t := old(active)[j]; t.log.calls == old(t.log.calls) + t.UpdateCalls(now)
    {
      var i := |active|;
      ghost var original := active;
      ghost var before := seq(|original|, j requires 0 <= j < |original| reads set t | t in original :: t.target => original[j].target.props);
      ghost var finishes := seq(|original|, j requires 0 <= j < |original| reads set t | t in original => original[j].Finishes(now));
      ghost var after := seq(|original|, j requires 0 <= j < |original| reads set t | t in original => original[j].After(now, before[j]));
      ghost var logged := seq(|original|, j requires 0 <= j < |original| reads set t | t in original :: t.log => original[j].log.calls);
      ghost var done := seq(|original|, j requires 0 <= j < |original| reads set t | t in original => logged[j] + original[j].UpdateCalls(now));
      while i > 0
        invariant 0 <= i <= |original|
        invariant Visited(original, before, finishes, after, i)
        invariant Logged(original, logged, done, i)
        invariant Recorded(original, now, before, finishes, after, logged, done)
        decreases i
      {
        i := i - 1;
        Visit(i, now, original, before, finishes, after, logged, done);
      }
      KeptIsPending(original, finishes, now);
      assert original[0..] == original && finishes[0..] == finishes;
    }

    /** What each tween's update at `now` returns, writes and logs, from the recorded start state. */
    ghost predicate Recorded(original: seq<Tween>, now: real, before: seq<map<string, Num>>, finishes: seq<bool>,
                             after: seq<map<string, Num>>, logged: seq<seq<Call>>, done: seq<seq<Call>>)
      reads set t | t in original
    {
      && |original| == |before| == |finishes| == |after| == |logged| == |done|
      && forall j | 0 <= j < |original| ::
           && finishes[j] == original[j].Finishes(now)
           && after[j] == original[j].After(now, before[j])
           && done[j] == logged[j] + original[j].UpdateCalls(now)
    }

    /**
     * The loop invariant of the static `update` once the tweens from `i` on
     * have been visited: `finishes` and `after` hold what each tween's update
     * returns and writes, `before` what each target held at the start.
     */
    ghost predicate Visited(original: seq<Tween>, before: seq<map<string, Num>>, finishes: seq<bool>,
                            after: seq<map<string, Num>>, i: nat)
      reads this, set t | t in original :: t.target
    {
      && i <= |original| == |before| == |finishes| == |after|
      && active == original[..i] + Kept(original[i..], finishes[i..])
      && (forall j | i <= j < |original| && SoleTarget(original, j) :: original[j].target.props == after[j])
      && (forall j | 0 <= j < i && SoleTarget(original, j) :: original[j].target.props == before[j])
    }

    /**
     * The callback part of the same invariant: `logged` holds what each log
     * held at the start and `done` what it holds once that tween is updated.
     */
    ghost predicate Logged(original: seq<Tween>, logged: seq<seq<Call>>, done: seq<seq<Call>>, i: nat)
      reads set t | t in original :: t.log
    {
      && i <= |original| == |logged| == |done|
      && (forall j | i <= j < |original| && SoleLog(original, j) :: original[j].log.calls == done[j])
      && (forall j | 0 <= j < i && SoleLog(original, j) :: original[j].log.calls == logged[j])
    }

    /** One turn of the backward loop of the static `update`. */
    method Visit(i: nat, now: real, ghost original: seq<Tween>, ghost before: seq<map<string, Num>>,
                 ghost finishes: seq<bool>, ghost after: seq<map<string, Num>>,
                 ghost logged: seq<seq<Call>>, ghost done: seq<seq<Call>>)
      requires i < |original| && Visited(original, before, finishes, after, i + 1)
      requires Logged(original, logged, done, i + 1)
      requires finishes[i] == original[i].Finishes(now) && after[i] == original[i].After(now, before[i])
      requires done[i] == logged[i] + original[i].UpdateCalls(now)
      modifies this, original[i].target, original[i].log
      ensures Visited(original, before, finishes, after, i)
      ensures Logged(original, logged, done, i)
    {
      ghost var t := original[i];
      ghost var rest := Kept(original[i + 1..], finishes[i + 1..]);
      SliceStep(original, i);
      SliceStep(finishes, i);
      assert active == original[..i] + [t] + rest;
      ghost var kept := Kept(original[i..], finishes[i..]);
      assert kept == (if finishes[i] then [] else [t]) + rest;
      assert SoleTarget(original, i) ==> t.target.props == before[i];
      assert SoleLog(original, i) ==> t.log.calls == logged[i];
      assert active[i] == t;
      var alive := active[i].Update(now);
      assert finishes[i] == !alive;
      if !alive {
        assert active[..i] == original[..i] && active[i + 1..] == rest;
        active := active[..i] + active[i + 1..];
        assert kept == rest;
      } else {
        assert kept == [t] + rest;
        AppendAssoc(original[..i], [t], rest);
      }
      assert active == original[..i] + kept;
      forall j | i < j < |original| && SoleTarget(original, j)
        ensures original[j].target.props == after[j]
      {
        assert original[j].target != t.target;
      }
      forall j | 0 <= j < i && SoleTarget(original, j)
        ensures original[j].target.props == before[j]
      {
        assert original[j].target != t.target;
      }
      forall j | i < j < |original| && SoleLog(original, j)
        ensures original[j].log.calls == done[j]
      {
        assert original[j].log != t.log;
      }
      forall j | 0 <= j < i && SoleLog(original, j)
        ensures original[j].log.calls == logged[j]
      {
        assert original[j].log != t.log;
      }
    }

    /** The static `add`: append, and update at once when the list has just become non-empty. */
    method Add(tween: Tween, now: real)
      modifies this, tween.target, tween.log
      ensures |old(active)| > 0 ==>
        active == old(active) + [tween] && tween.target.props == old(tween.target.props) && tween.log.calls == old(tween.log.calls)
      ensures |old(active)| == 0 ==>
        && active == (if tween.Finishes(now) then [] else [tween])
        && tween.target.props == tween.After(now, old(tween.target.props))
        && tween.log.calls == old(tween.log.calls) + tween.UpdateCalls(now)
    {
      active := active + [tween];
      if |active| == 1 {
        assert active == [tween];
        assert SoleTarget(active, 0) && SoleLog(active, 0);
        UpdateAll(now);
        assert [tween][1..] == [];
      }
    }
  }

  /** Taking one more element of a sequence, and dropping one. */
  lemma SliceStep<T>(s: seq<T>, i: nat)
    requires i < |s|
    ensures s[..i + 1] == s[..i] + [s[i]]
    ensures s[i..][1..] == s[i + 1..]
  {
  }

  lemma AppendAssoc<T>(a: seq<T>, b: seq<T>, c: seq<T>)
    ensures a + b + c == a + (b + c)
  {
  }

  /** The tweens of `active` whose entry in `finishes` is false, in their order. */
  function Kept(active: seq<Tween>, finishes: seq<bool>): seq<Tween>
    requires |active| == |finishes|
    decreases |active|
  {
    if active == [] then [] else (if finishes[0] then [] else [active[0]]) + Kept(active[1..], finishes[1..])
  }

  /** Filtering by the recorded outcomes of the updates is `Pending`. */
  lemma {:induction false} KeptIsPending(active: seq<Tween>, finishes: seq<bool>, time: real)
    requires |active| == |finishes|
    requires forall j | 0 <= j < |active| :: finishes[j] == active[j].Finishes(time)
    ensures Kept(active, finishes) == Pending(active, time)
    decreases |active|
  {
    if active != [] {
      KeptIsPending(active[1..], finishes[1..], time);
    }
  }

  // Properties of the tween engine.

  /** Every easing curve starts at 0 and ends at 1. */
  lemma EaseEnds(e: Easing)
    ensures Ease(e, 0.0) == 0.0 && Ease(e, 1.0) == 1.0
  {
  }

  /** Every easing curve maps [0, 1] into [0, 1]. */
  lemma EaseInUnitRange(e: Easing, k: real)
    requires 0.0 <= k <= 1.0
    ensures 0.0 <= Ease(e, k) <= 1.0
  {
    match e
    case Linear =>
    case QuadraticIn => UnitPowers(k);
    case QuadraticOut => QuadraticOutRange(k);
    case QuadraticInOut =>
      if k * 2.0 < 1.0 { UnitPowers(k * 2.0); } else { QuadraticInOutUpperRange(k * 2.0 - 1.0); }
    case CubicIn => UnitPowers(k);
    case CubicOut => CubicOutRange(k);
    case CubicInOut =>
      if k * 2.0 < 1.0 { UnitPowers(k * 2.0); } else { CubicInOutUpperRange(k * 2.0 - 2.0); }
  }

  /** Powers of a number in [0, 1] decrease and stay in [0, 1]. */
  lemma UnitPowers(m: real)
    requires 0.0 <= m <= 1.0
    ensures 0.0 <= m * m * m <= m * m <= m <= 1.0
  {
    assert m * m <= m * 1.0;
    assert m * m * m <= m * m * 1.0;
  }

  lemma QuadraticOutRange(k: real)
    requires 0.0 <= k <= 1.0
    ensures 0.0 <= k * (2.0 - k) <= 1.0
  {
    var m := 1.0 - k;
    UnitPowers(m);
    assert k * (2.0 - k) == 1.0 - m * m;
  }

  lemma QuadraticInOutUpperRange(k3: real)
    requires 0.0 <= k3 <= 1.0
    ensures 0.0 <= -0.5 * (k3 * (k3 - 2.0) - 1.0) <= 1.0
  {
    var m := 1.0 - k3;
    UnitPowers(m);
    assert -0.5 * (k3 * (k3 - 2.0) - 1.0) == 1.0 - 0.5 * (m * m);
  }

  lemma CubicOutRange(k: real)
    requires 0.0 <= k <= 1.0
    ensures 0.0 <= (k - 1.0) * (k - 1.0) * (k - 1.0) + 1.0 <= 1.0
  {
    var m := 1.0 - k;
    UnitPowers(m);
    assert (k - 1.0) * (k - 1.0) * (k - 1.0) == -(m * m * m);
  }

  lemma CubicInOutUpperRange(k3: real)
    requires -1.0 <= k3 <= 0.0
    ensures 0.0 <= 0.5 * (k3 * k3 * k3 + 2.0) <= 1.0
  {
    var m := -k3;
    UnitPowers(m);
    assert k3 * k3 * k3 == -(m * m * m);
  }

  /** A tween finishes exactly when at least `duration` has passed since its start (for a positive duration). */
  lemma FinishedExactlyAtEnd(startTime: Option<real>, duration: real, time: real)
    requires duration > 0.0
    ensures Finished(startTime, duration, time) <==> time >= StartAt(startTime) + duration
  {
    if time >= StartAt(startTime) {
      ProgressOfPositiveDuration(startTime, duration, time);
    }
  }

  /**
   * An update that finishes the tween sets every end key whose start value
   * was a number to exactly its end value.
   */
  lemma FinishingUpdateReachesEnd(props: map<string, Num>, valuesStart: map<string, Num>, valuesEnd: map<string, real>,
                                  e: Easing, startTime: Option<real>, duration: real, time: real)
    requires Finished(startTime, duration, time)
    ensures var r := Applied(props, valuesStart, valuesEnd, EaseNum(e, Progress(startTime, duration, time)));
      forall k | k in valuesEnd && k in valuesStart && valuesStart[k].Val? :: r[k] == Val(valuesEnd[k])
  {
    EaseEnds(e);
  }

  /** `start` records start values only for end keys the target defines, and keeps earlier ones. */
  lemma CapturedOnlyDefined(valuesStart: map<string, Num>, valuesEnd: map<string, real>, props: map<string, Num>)
    ensures forall k | k in Captured(valuesStart, valuesEnd, props) && k !in valuesStart :: k in props && k in valuesEnd
    ensures valuesStart.Keys <= Captured(valuesStart, valuesEnd, props).Keys
  {
  }

  /** The registry update keeps exactly the tweens that do not finish, in their original relative order. */
  lemma {:induction false} PendingIsFilter(active: seq<Tween>, time: real)
    ensures forall t | t in Pending(active, time) :: t in active && !t.Finishes(time)
    ensures forall t | t in active && !t.Finishes(time) :: t in Pending(active, time)
    decreases |active|
  {
    if active != [] {
      PendingIsFilter(active[1..], time);
      assert active == [active[0]] + active[1..];
    }
  }

  lemma {:induction false} PendingConcat(a: seq<Tween>, b: seq<Tween>, time: real)
    ensures Pending(a + b, time) == Pending(a, time) + Pending(b, time)
    decreases |a|
  {
    if a != [] {
      assert (a + b)[0] == a[0];
      assert (a + b)[1..] == a[1..] + b;
      PendingConcat(a[1..], b, time);
      calc {
        Pending(a + b, time);
        (if a[0].Finishes(time) then [] else [a[0]]) + Pending(a[1..] + b, time);
        (if a[0].Finishes(time) then [] else [a[0]]) + (Pending(a[1..], time) + Pending(b, time));
      }
    } else {
      assert a + b == b;
    }
  }

  /**
   * As written, a fresh tween started while no other tween is active is
   * updated with a null `startTime` (read as 0) and empty start values:
   * once `Date.now()` exceeds the duration it counts as finished at once, is
   * dropped from the registry, and every end key of the target becomes NaN.
   */
  lemma StartBeforeStartTimeCorrupts(props: map<string, Num>, valuesEnd: map<string, real>, e: Easing, duration: real, now: real)
    requires 0.0 <= duration < now
    ensures Finished(None, duration, now)
    ensures var r := Applied(props, map[], valuesEnd, EaseNum(e, Progress(None, duration, now)));
      forall k | k in valuesEnd :: r[k] == NaN
  {
    if duration > 0.0 {
      FinishedExactlyAtEnd(None, duration, now);
    }
  }

  /**
   * Started the corrected way on an empty registry, a tween with a positive
   * duration stays active and leaves a target that defines every end key
   * as a number unchanged; a later update at or after the end sets each
   * such key to its end value.
   */
  lemma StartFixedThenFinish(props: map<string, Num>, valuesEnd: map<string, real>, e: Easing,
                             duration: real, delayTime: real, now: real, later: real)
    requires duration > 0.0 && delayTime >= 0.0
    requires forall k | k in valuesEnd :: k in props && props[k].Val?
    requires later >= now + delayTime + duration
    ensures var start := Some(now + delayTime);
      var captured := Captured(map[], valuesEnd, props);
      && !Finished(start, duration, now)
      && (now >= StartAt(start) ==> Applied(props, captured, valuesEnd, EaseNum(e, Progress(start, duration, now))) == props)
      && Finished(start, duration, later)
      && forall k | k in valuesEnd :: Applied(props, captured, valuesEnd, EaseNum(e, Progress(start, duration, later)))[k] == Val(valuesEnd[k])
  {
    var start := Some(now + delayTime);
    var captured := Captured(map[], valuesEnd, props);
    FinishedExactlyAtEnd(start, duration, now);
    FinishedExactlyAtEnd(start, duration, later);
    if now >= StartAt(start) {
      assert Progress(start, duration, now) == Val(0.0 / duration);
      ZeroStepKeeps(props, valuesEnd, e);
    }
    FinishingUpdateReachesEnd(props, captured, valuesEnd, e, start, duration, later);
  }

  /** An update at progress 0 from start values captured from the target writes back what the target holds. */
  lemma ZeroStepKeeps(props: map<string, Num>, valuesEnd: map<string, real>, e: Easing)
    requires forall k | k in valuesEnd :: k in props && props[k].Val?
    ensures Applied(props, Captured(map[], valuesEnd, props), valuesEnd, EaseNum(e, Val(0.0))) == props
  {
    EaseEnds(e);
    var captured := Captured(map[], valuesEnd, props);
    var r := Applied(props, captured, valuesEnd, EaseNum(e, Val(0.0)));
    forall k | k in r
      ensures r[k] == props[k]
    {
      if k in valuesEnd {
        assert captured[k] == props[k];
      }
    }
  }
}
