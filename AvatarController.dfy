/** The browser-side avatar controller (server/front/src/avatar/AvatarController.ts):
    it applies a directive to a Live2D model by setting the expression, starting
    the gesture and scheduling one timer per micro-timeline frame; each frame
    animates model parameters toward their targets over their fade times.

    The model driver (the `ILive2DDriver` interface) is a `Driver` that records
    every call made on it. The browser's timer queue (`setTimeout`,
    `requestAnimationFrame` and their cancellations) is a `Scheduler` that maps
    each pending handle to its callback; the browser running a callback is the
    controller's `RunTimeout` or `RunAnimationFrame`, given the current time
    `now` in milliseconds (`performance.now()`). */
module Avatar {
  import opened Wrappers
  import opened DirectiveSchema

  // ---------------------------------------------------------------------------
  // The model driver

  /** A call on the driver, as `ILive2DDriver` declares them. */
  datatype DriverCall =
    | Load(modelUrl: string)
    | Unload
    | SetExpression(expression: Option<string>)
    | TriggerMotion(motion: Option<string>, priority: MotionPriority)
    | SetParameter(id: string, value: real)
    | DisposeModel

  /** A Live2D driver, observed through the calls it receives. */
  class Driver {
    var calls: seq<DriverCall>

    constructor()
      ensures calls == []
    {
      calls := [];
    }

    method Load(modelUrl: string)
      modifies this
      ensures calls == old(calls) + [DriverCall.Load(modelUrl)]
    {
      calls := calls + [DriverCall.Load(modelUrl)];
    }

    method Unload()
      modifies this
      ensures calls == old(calls) + [DriverCall.Unload]
    {
      calls := calls + [DriverCall.Unload];
    }

    method SetExpression(expression: Option<string>)
      modifies this
      ensures calls == old(calls) + [DriverCall.SetExpression(expression)]
    {
      calls := calls + [DriverCall.SetExpression(expression)];
    }

    method TriggerMotion(motion: Option<string>, priority: MotionPriority)
      modifies this
      ensures calls == old(calls) + [DriverCall.TriggerMotion(motion, priority)]
    {
      calls := calls + [DriverCall.TriggerMotion(motion, priority)];
    }

    method SetParameter(id: string, value: real)
      modifies this
      ensures calls == old(calls) + [DriverCall.SetParameter(id, value)]
    {
      calls := calls + [DriverCall.SetParameter(id, value)];
    }

    method Dispose()
      modifies this
      ensures calls == old(calls) + [DisposeModel]
    {
      calls := calls + [DisposeModel];
    }
  }

  // ---------------------------------------------------------------------------
  // The browser's timer queue

  /** The one-shot callback `applyDirective` schedules for a frame, due `delay`
      milliseconds after it was scheduled. */
  datatype Timeout = Timeout(frame: Frame, delay: real)

  /** An animation of one parameter from `from` to `to` over `duration`
      seconds, started at `start` milliseconds. */
  datatype Anim = Anim(from: real, to: real, duration: real, start: real)

  /** The animation-frame callback (`step`) of the animation of parameter `id`. */
  datatype StepTask = StepTask(id: string, anim: Anim)

  /** Pending timeouts and animation frames by handle. Handles are never reused. */
  class Scheduler {
    var timeouts: map<nat, Timeout>
    var frames: map<nat, StepTask>
    var nextHandle: nat

    ghost predicate Valid()
      reads this
    {
      && (forall h :: h in timeouts ==> h < nextHandle)
      && (forall h :: h in frames ==> h < nextHandle)
    }

    constructor()
      ensures timeouts == map[] && frames == map[] && Valid()
    {
      timeouts := map[];
      frames := map[];
      nextHandle := 1;
    }

    /** `window.setTimeout(callback, delay)`: a fresh handle. */
    method SetTimeout(task: Timeout) returns (h: nat)
      requires Valid()
      modifies this
      ensures Valid()
      ensures h == old(nextHandle) && nextHandle == h + 1
      ensures timeouts == old(timeouts)[h := task] && frames == old(frames)
    {
      h := nextHandle;
      timeouts := timeouts[h := task];
      nextHandle := nextHandle + 1;
    }

    /** `window.clearTimeout(h)`: no effect when `h` is not pending. */
    method ClearTimeout(h: nat)
      modifies this
      ensures timeouts == old(timeouts) - {h}
      ensures frames == old(frames) && nextHandle == old(nextHandle)
    {
      timeouts := timeouts - {h};
    }

    /** The browser takes a due timeout off the queue to run it. */
    method TakeTimeout(h: nat) returns (task: Timeout)
      requires h in timeouts
      modifies this
      ensures task == old(timeouts[h])
      ensures timeouts == old(timeouts) - {h}
      ensures frames == old(frames) && nextHandle == old(nextHandle)
    {
      task := timeouts[h];
      timeouts := timeouts - {h};
    }

    /** `requestAnimationFrame(callback)`: a fresh handle. */
    method RequestAnimationFrame(task: StepTask) returns (h: nat)
      requires Valid()
      modifies this
      ensures Valid()
      ensures h == old(nextHandle) && nextHandle == h + 1
      ensures frames == old(frames)[h := task] && timeouts == old(timeouts)
    {
      h := nextHandle;
      frames := frames[h := task];
      nextHandle := nextHandle + 1;
    }

    /** `cancelAnimationFrame(h)`: no effect when `h` is not pending. */
    method CancelAnimationFrame(h: nat)
      modifies this
      ensures frames == old(frames) - {h}
      ensures timeouts == old(timeouts) && nextHandle == old(nextHandle)
    {
      frames := frames - {h};
    }

    /** The browser takes an animation frame callback off the queue to run it. */
    method TakeFrame(h: nat) returns (task: StepTask)
      requires h in frames
      modifies this
      ensures task == old(frames[h])
      ensures frames == old(frames) - {h}
      ensures timeouts == old(timeouts) && nextHandle == old(nextHandle)
    {
      task := frames[h];
      frames := frames - {h};
    }
  }

  // ---------------------------------------------------------------------------
  // What the controller's parameter state means

  /** The parameter whose value lip sync drives. */
  const MouthParam: string := "ParamMouthOpenY"

  /** The parameter state: the last value written per parameter, and the
      animation in flight per parameter. */
  datatype AnimState = AnimState(cache: map<string, real>, anims: map<string, Anim>)

  /** `paramCache.get(id) ?? 0`: the cached value, 0 for a parameter never
      written. */
  function Cached(cache: map<string, real>, id: string): (r: real)
    ensures id in cache ==> r == cache[id]
    ensures id !in cache ==> r == 0.0
  {
    if id in cache then cache[id] else 0.0
  }

  /** `Math.max(0, Math.min(1, value))` */
  function Clamp01(value: real): (r: real)
    ensures 0.0 <= r <= 1.0
    ensures 0.0 <= value <= 1.0 ==> r == value
    ensures value < 0.0 ==> r == 0.0
    ensures value > 1.0 ==> r == 1.0
  {
    var upper := if value < 1.0 then value else 1.0;
    if upper > 0.0 then upper else 0.0
  }

  /** `animateParameter(id, from, to, fade)` at time `now`: any animation of
      `id` is dropped; a fade that is not positive writes the target at once,
      a positive one starts an animation toward it. */
  function Animate(s: AnimState, id: string, from: real, to: real, fade: real, now: real): (r: AnimState)
    ensures fade <= 0.0 ==> id in r.cache && r.cache[id] == to && id !in r.anims
    ensures fade > 0.0 ==> r.cache == s.cache && id in r.anims && r.anims[id] == Anim(from, to, fade, now)
  {
    var duration := if fade > 0.0 then fade else 0.0;
    var anims := s.anims - {id};
    if duration == 0.0 then AnimState(s.cache[id := to], anims)
    else AnimState(s.cache, anims[id := Anim(from, to, duration, now)])
  }

  /** The driver writes `animateParameter` makes at once. */
  function AnimateWrites(id: string, to: real, fade: real): seq<DriverCall> {
    if fade <= 0.0 then [DriverCall.SetParameter(id, to)] else []
  }

  /** One parameter of a firing frame animates from its cached value (0 when
      it has none) to its target; no other parameter changes. */
  function ApplyParam(s: AnimState, p: ParamTarget, now: real): (r: AnimState)
    ensures p.fade <= 0.0 ==> p.id in r.cache && r.cache[p.id] == p.value && p.id !in r.anims
    ensures p.fade > 0.0 ==>
      && r.cache == s.cache && p.id in r.anims
      && r.anims[p.id] == Anim(if p.id in s.cache then s.cache[p.id] else 0.0, p.value, p.fade, now)
  {
    Animate(s, p.id, Cached(s.cache, p.id), p.value, p.fade, now)
  }

  /** The first `n` parameters of a firing frame animate, in order, each from
      its cached value to its target. */
  function ApplyFirst(s: AnimState, ps: seq<ParamTarget>, n: nat, now: real): AnimState
    requires n <= |ps|
  {
    if n == 0 then s else ApplyParam(ApplyFirst(s, ps, n - 1, now), ps[n - 1], now)
  }

  /** The driver writes the first `n` parameters of a firing frame make. */
  function WritesOfFirst(ps: seq<ParamTarget>, n: nat): seq<DriverCall>
    requires n <= |ps|
  {
    if n == 0 then [] else WritesOfFirst(ps, n - 1) + AnimateWrites(ps[n - 1].id, ps[n - 1].value, ps[n - 1].fade)
  }

  /** A frame's timer firing: all its parameters animate, in order. */
  function ApplyParams(s: AnimState, ps: seq<ParamTarget>, now: real): AnimState {
    ApplyFirst(s, ps, |ps|, now)
  }

  function FrameWrites(ps: seq<ParamTarget>): seq<DriverCall> {
    WritesOfFirst(ps, |ps|)
  }

  /** The position of the last of the first `n` parameters that targets `id`,
      or -1. */
  function LastTarget(ps: seq<ParamTarget>, n: nat, id: string): (k: int)
    requires n <= |ps|
    ensures -1 <= k < n
    ensures k >= 0 ==> ps[k].id == id && forall j :: k < j < n ==> ps[j].id != id
    ensures k == -1 ==> forall j :: 0 <= j < n ==> ps[j].id != id
  {
    if n == 0 then -1
    else if ps[n - 1].id == id then n - 1
    else LastTarget(ps, n - 1, id)
  }

  /** After the first `n` parameters of a frame fire, a parameter none of them
      lists is untouched, and a listed one ends as its last listing says:
      written at once when that fade is not positive, otherwise animating
      toward that target over that fade from now. */
  lemma {:induction false} FirstOutcome(s: AnimState, ps: seq<ParamTarget>, n: nat, now: real, id: string)
    requires n <= |ps|
    ensures var r, k := ApplyFirst(s, ps, n, now), LastTarget(ps, n, id);
      && (k == -1 ==>
            && (id in r.cache <==> id in s.cache) && (id in r.cache ==> r.cache[id] == s.cache[id])
            && (id in r.anims <==> id in s.anims) && (id in r.anims ==> r.anims[id] == s.anims[id]))
      && (k >= 0 && ps[k].fade <= 0.0 ==> id in r.cache && r.cache[id] == ps[k].value && id !in r.anims)
      && (k >= 0 && ps[k].fade > 0.0 ==>
            id in r.anims && r.anims[id].to == ps[k].value && r.anims[id].duration == ps[k].fade
            && r.anims[id].start == now)
  {
    if n > 0 {
      FirstOutcome(s, ps, n - 1, now, id);
    }
  }

  /** `FirstOutcome` for the whole frame. */
  lemma FrameOutcome(s: AnimState, ps: seq<ParamTarget>, now: real, id: string)
    ensures var r, k := ApplyParams(s, ps, now), LastTarget(ps, |ps|, id);
      && (k == -1 ==>
            && (id in r.cache <==> id in s.cache) && (id in r.cache ==> r.cache[id] == s.cache[id])
            && (id in r.anims <==> id in s.anims) && (id in r.anims ==> r.anims[id] == s.anims[id]))
      && (k >= 0 && ps[k].fade <= 0.0 ==> id in r.cache && r.cache[id] == ps[k].value && id !in r.anims)
      && (k >= 0 && ps[k].fade > 0.0 ==>
            id in r.anims && r.anims[id].to == ps[k].value && r.anims[id].duration == ps[k].fade
            && r.anims[id].start == now)
  {
    FirstOutcome(s, ps, |ps|, now, id);
  }

  /** `Math.min(1, elapsed / duration)` with `elapsed` in seconds. */
  function Progress(a: Anim, now: real): (t: real)
    requires a.duration > 0.0 && now >= a.start
    ensures 0.0 <= t <= 1.0
    ensures t == 1.0 <==> now - a.start >= a.duration * 1000.0
  {
    var elapsed := (now - a.start) / 1000.0;
    var ratio := elapsed / a.duration;
    assert ratio >= 1.0 <==> elapsed >= a.duration;
    if ratio < 1.0 then ratio else 1.0
  }

  /** `from + (to - from) * t` */
  function Lerp(from: real, to: real, t: real): (v: real)
    requires 0.0 <= t <= 1.0
    ensures from <= to ==> from <= v <= to
    ensures to <= from ==> to <= v <= from
    ensures t == 0.0 ==> v == from
    ensures t == 1.0 ==> v == to
  {
    ScaledBetween(to - from, t);
    from + (to - from) * t
  }

  /** Scaling a difference by a fraction keeps it between 0 and the difference. */
  lemma ScaledBetween(d: real, t: real)
    requires 0.0 <= t <= 1.0
    ensures d >= 0.0 ==> 0.0 <= d * t <= d
    ensures d <= 0.0 ==> d <= d * t <= 0.0
  {
    assert d - d * t == d * (1.0 - t);
  }

  /** Progress never goes backwards as time advances. */
  lemma ProgressMonotone(a: Anim, now1: real, now2: real)
    requires a.duration > 0.0 && a.start <= now1 <= now2
    ensures Progress(a, now1) <= Progress(a, now2)
  {
    var e1, e2 := (now1 - a.start) / 1000.0, (now2 - a.start) / 1000.0;
    assert e1 <= e2;
    assert e1 / a.duration <= e2 / a.duration;
  }

  function Abs(x: real): real {
    if x < 0.0 then -x else x
  }

  /** Each later step writes a value no farther from the target than an
      earlier one. */
  lemma LerpApproaches(from: real, to: real, t1: real, t2: real)
    requires 0.0 <= t1 <= t2 <= 1.0
    ensures Abs(to - Lerp(from, to, t2)) <= Abs(to - Lerp(from, to, t1))
  {
    assert to - Lerp(from, to, t1) == (to - from) * (1.0 - t1);
    assert to - Lerp(from, to, t2) == (to - from) * (1.0 - t2);
    if to >= from {
      assert (to - from) * (1.0 - t2) <= (to - from) * (1.0 - t1);
    } else {
      assert (from - to) * (1.0 - t2) <= (from - to) * (1.0 - t1);
    }
  }

  /** One animation step of parameter `id` at time `now`: write the
      interpolated value; keep the animation while it is short of its end,
      drop it once it has written the target. */
  function Step(s: AnimState, id: string, now: real): (r: AnimState)
    requires id in s.anims && s.anims[id].duration > 0.0 && now >= s.anims[id].start
    ensures id in r.cache
    ensures var a := s.anims[id];
      a.from <= a.to ==> a.from <= r.cache[id] <= a.to
    ensures var a := s.anims[id];
      a.to <= a.from ==> a.to <= r.cache[id] <= a.from
    ensures id in r.anims ==> r.anims[id] == s.anims[id]
    ensures id !in r.anims <==> now - s.anims[id].start >= s.anims[id].duration * 1000.0
    ensures id !in r.anims ==> r.cache[id] == s.anims[id].to
    ensures var a := s.anims[id];
      r.cache == s.cache[id := Lerp(a.from, a.to, Progress(a, now))]
    ensures forall other :: other != id ==>
      (other in r.anims <==> other in s.anims) && (other in r.anims ==> r.anims[other] == s.anims[other])
  {
    var a := s.anims[id];
    var t := Progress(a, now);
    var value := Lerp(a.from, a.to, t);
    AnimState(s.cache[id := value], if t < 1.0 then s.anims else s.anims - {id})
  }

  /** The controller's `animations` map and the pending animation frames
      stand for the animations in flight `anims`: each parameter in flight has
      exactly one pending frame, which carries its animation, every pending
      frame belongs to the animation registered for its parameter, and every
      animation has a positive duration. */
  ghost predicate Tracks(animations: map<string, nat>, frames: map<nat, StepTask>, anims: map<string, Anim>) {
    && (forall id :: id in animations <==> id in anims)
    && (forall id :: id in animations ==> animations[id] in frames && frames[animations[id]] == StepTask(id, anims[id]))
    && (forall h :: h in frames ==> frames[h].id in animations && animations[frames[h].id] == h)
    && (forall id :: id in anims ==> anims[id].duration > 0.0)
  }

  /** Cancelling the frame of one parameter's animation and forgetting its
      handle removes exactly that animation. */
  lemma CancelAnim(animations: map<string, nat>, frames: map<nat, StepTask>, anims: map<string, Anim>, id: string)
    requires Tracks(animations, frames, anims) && id in animations
    ensures Tracks(animations - {id}, frames - {animations[id]}, anims - {id})
  {
    var h := animations[id];
    var a', f' := animations - {id}, frames - {h};
    forall other | other in a'
      ensures a'[other] in f'
    {
      assert frames[animations[other]].id == other;
    }
  }

  /** Registering a fresh frame for a parameter with no animation in flight
      adds exactly that animation. */
  lemma RegisterAnim(animations: map<string, nat>, frames: map<nat, StepTask>, anims: map<string, Anim>,
                     id: string, h: nat, a: Anim)
    requires Tracks(animations, frames, anims) && id !in animations && h !in frames && a.duration > 0.0
    ensures Tracks(animations[id := h], frames[h := StepTask(id, a)], anims[id := a])
  {
  }

  /** Taking an animation's pending frame off the queue: the frame carries the
      animation in flight for its parameter, and dropping that animation
      keeps the rest tracked. */
  lemma StepAnim(animations: map<string, nat>, frames: map<nat, StepTask>, anims: map<string, Anim>, h: nat)
    requires Tracks(animations, frames, anims) && h in frames
    ensures var id := frames[h].id;
      && id in anims && anims[id] == frames[h].anim && anims[id].duration > 0.0
      && Tracks(animations - {id}, frames - {h}, anims - {id})
  {
    CancelAnim(animations, frames, anims, frames[h].id);
  }

  /** Asking for the next frame of the same animation keeps the animations in
      flight as they were. */
  lemma RescheduleAnim(animations: map<string, nat>, frames: map<nat, StepTask>, anims: map<string, Anim>,
                       h: nat, next: nat)
    requires Tracks(animations, frames, anims) && h in frames && next !in frames
    ensures Tracks(animations[frames[h].id := next], (frames - {h})[next := frames[h]], anims)
  {
    var id := frames[h].id;
    StepAnim(animations, frames, anims, h);
    RegisterAnim(animations - {id}, frames - {h}, anims - {id}, id, next, frames[h].anim);
    assert (animations - {id})[id := next] == animations[id := next];
    assert (anims - {id})[id := frames[h].anim] == anims;
  }

  // ---------------------------------------------------------------------------
  // The controller

  class AvatarController {
    const driver: Driver
    const sched: Scheduler
    var timelineTimers: seq<nat>
    var animations: map<string, nat>
    var paramCache: map<string, real>

    /** The animations in flight, by parameter. */
    ghost var anims: map<string, Anim>

    /** Every pending timeout is a timeline timer, and the animations and the
        pending animation frames track `anims`. */
    ghost predicate Valid()
      reads this, sched
    {
      && sched.Valid()
      && (forall h :: h in sched.timeouts ==> h in timelineTimers)
      && Tracks(animations, sched.frames, anims)
    }

    /** The parameter state the controller stands for. */
    ghost function State(): AnimState
      reads this
    {
      AnimState(paramCache, anims)
    }

    constructor(driver: Driver)
      ensures this.driver == driver && fresh(sched)
      ensures State() == AnimState(map[], map[])
      ensures timelineTimers == [] && animations == map[] && paramCache == map[]
      ensures sched.timeouts == map[] && sched.frames == map[]
      ensures Valid()
    {
      this.driver := driver;
      sched := new Scheduler();
      timelineTimers := [];
      animations := map[];
      paramCache := map[];
      anims := map[];
    }

    /** `loadModel(modelUrl)` */
    method LoadModel(modelUrl: string)
      modifies driver
      ensures driver.calls == old(driver.calls) + [DriverCall.Load(modelUrl)]
    {
      driver.Load(modelUrl);
    }

    /** `unloadModel()`: every timer and animation is cancelled first. */
    method UnloadModel()
      requires Valid()
      modifies this, sched, driver
      ensures Valid()
      ensures timelineTimers == [] && animations == map[] && anims == map[]
      ensures sched.timeouts == map[] && sched.frames == map[]
      ensures paramCache == old(paramCache)
      ensures driver.calls == old(driver.calls) + [DriverCall.Unload]
    {
      ClearTimeline();
      driver.Unload();
    }

    /** `applyDirective(directive)`: cancels every pending timer and animation,
        sets the expression (null included), triggers the gesture, then
        schedules one timer per micro-timeline frame, in order, due `t * 1000`
        milliseconds later. */
    method ApplyDirective(directive: Directive)
      requires Valid()
      modifies this, sched, driver
      ensures Valid()
      ensures |timelineTimers| == |directive.microTimeline|
      ensures forall j, k :: 0 <= j < k < |timelineTimers| ==> timelineTimers[j] != timelineTimers[k]
      ensures forall k :: 0 <= k < |timelineTimers| ==>
        var frame := directive.microTimeline[k];
        timelineTimers[k] in sched.timeouts && sched.timeouts[timelineTimers[k]] == Timeout(frame, frame.t * 1000.0)
      ensures animations == map[] && anims == map[] && sched.frames == map[]
      ensures paramCache == old(paramCache)
      ensures driver.calls == old(driver.calls) + [
        DriverCall.SetExpression(directive.expression),
        DriverCall.TriggerMotion(directive.gesture.motion, directive.gesture.priority)]
    {
      ClearTimeline();
      driver.SetExpression(directive.expression);
      driver.TriggerMotion(directive.gesture.motion, directive.gesture.priority);
      ScheduleTimeline(directive.microTimeline);
    }

    /** The `forEach` of `applyDirective`: one timer per frame, in order, on an
        otherwise idle scheduler. */
    method ScheduleTimeline(timeline: seq<Frame>)
      requires Valid() && timelineTimers == [] && sched.timeouts == map[]
      modifies this, sched
      ensures Valid()
      ensures |timelineTimers| == |timeline|
      ensures forall j, k :: 0 <= j < k < |timelineTimers| ==> timelineTimers[j] != timelineTimers[k]
      ensures forall k :: 0 <= k < |timelineTimers| ==>
        timelineTimers[k] in sched.timeouts && sched.timeouts[timelineTimers[k]] == Timeout(timeline[k], timeline[k].t * 1000.0)
      ensures animations == old(animations) && sched.frames == old(sched.frames)
      ensures paramCache == old(paramCache) && anims == old(anims)
    {
      var i := 0;
      while i < |timeline|
        invariant 0 <= i <= |timeline| && |timelineTimers| == i
        invariant Valid()
        invariant animations == old(animations) && sched.frames == old(sched.frames) && anims == old(anims)
        invariant forall j, k :: 0 <= j < k < i ==> timelineTimers[j] < timelineTimers[k]
        invariant forall k :: 0 <= k < i ==> timelineTimers[k] < sched.nextHandle
        invariant forall k :: 0 <= k < i ==>
          timelineTimers[k] in sched.timeouts
          && sched.timeouts[timelineTimers[k]] == Timeout(timeline[k], timeline[k].t * 1000.0)
        invariant paramCache == old(paramCache)
      {
        var frame := timeline[i];
        var h := sched.SetTimeout(Timeout(frame, frame.t * 1000.0));
        timelineTimers := timelineTimers + [h];
        i := i + 1;
      }
    }

    /** A frame's timer fires: the browser takes it off the queue and runs
        its callback. */
    method RunTimeout(h: nat, now: real)
      requires Valid() && h in sched.timeouts
      modifies this, sched, driver
      ensures Valid()
      ensures var frame := old(sched.timeouts[h]).frame;
        && State() == ApplyParams(old(State()), frame.params, now)
        && driver.calls == old(driver.calls) + FrameWrites(frame.params)
      ensures timelineTimers == old(timelineTimers)
      ensures sched.timeouts == old(sched.timeouts) - {h}
    {
      var task := sched.TakeTimeout(h);
      FireFrame(task.frame, now);
    }

    /** The callback `applyDirective` schedules for `frame`: each of its
        parameters animates, in order, from its cached value (0 when none) to
        its target over its fade. */
    method FireFrame(frame: Frame, now: real)
      requires Valid()
      modifies this, sched, driver
      ensures Valid()
      ensures State() == ApplyParams(old(State()), frame.params, now)
      ensures driver.calls == old(driver.calls) + FrameWrites(frame.params)
      ensures timelineTimers == old(timelineTimers) && sched.timeouts == old(sched.timeouts)
    {
      var params := frame.params;
      ghost var s0 := State();
      var i := 0;
      while i < |params|
        invariant 0 <= i <= |params|
        invariant Valid()
        invariant State() == ApplyFirst(s0, params, i, now)
        invariant driver.calls == old(driver.calls) + WritesOfFirst(params, i)
        invariant timelineTimers == old(timelineTimers) && sched.timeouts == old(sched.timeouts)
      {
        ghost var w := WritesOfFirst(params, i);
        ApplyParamTarget(params[i], now);
        assert driver.calls == old(driver.calls) + (w + AnimateWrites(params[i].id, params[i].value, params[i].fade));
        i := i + 1;
      }
    }

    /** One parameter of a firing frame: it animates from its cached value, 0
        when it has none. */
    method ApplyParamTarget(p: ParamTarget, now: real)
      requires Valid()
      modifies this, sched, driver
      ensures Valid()
      ensures State() == ApplyParam(old(State()), p, now)
      ensures driver.calls == old(driver.calls) + AnimateWrites(p.id, p.value, p.fade)
      ensures timelineTimers == old(timelineTimers) && sched.timeouts == old(sched.timeouts)
    {
      var from := if p.id in paramCache then paramCache[p.id] else 0.0;
      AnimateParameter(p.id, from, p.value, p.fade, now);
    }

    /** `animateParameter(id, from, to, fade)` started at time `now`. */
    method AnimateParameter(id: string, from: real, to: real, fade: real, now: real)
      requires Valid()
      modifies this, sched, driver
      ensures Valid()
      ensures State() == Animate(old(State()), id, from, to, fade, now)
      ensures driver.calls == old(driver.calls) + AnimateWrites(id, to, fade)
      ensures timelineTimers == old(timelineTimers) && sched.timeouts == old(sched.timeouts)
    {
      ghost var s0 := State();
      var duration := if fade > 0.0 then fade else 0.0;
      CancelAnimation(id);
      assert driver.calls == old(driver.calls);
      if duration == 0.0 {
        driver.SetParameter(id, to);
        paramCache := paramCache[id := to];
        return;
      }
      assert AnimateWrites(id, to, fade) == [];
      var start := now;
      ghost var framesBefore := sched.frames;
      var rafId := sched.RequestAnimationFrame(StepTask(id, Anim(from, to, duration, start)));
      RegisterAnim(animations, framesBefore, anims, id, rafId, Anim(from, to, duration, start));
      animations := animations[id := rafId];
      anims := anims[id := Anim(from, to, duration, start)];
    }

    /** The first half of `animateParameter`: the animation of `id` in flight,
        if any, is cancelled and forgotten. */
    method CancelAnimation(id: string)
      requires Valid()
      modifies this, sched
      ensures Valid()
      ensures id !in animations
      ensures anims == old(anims) - {id}
      ensures paramCache == old(paramCache) && timelineTimers == old(timelineTimers)
      ensures sched.timeouts == old(sched.timeouts) && sched.nextHandle == old(sched.nextHandle)
    {
      if id in animations {
        var rafId := animations[id];
        CancelAnim(animations, sched.frames, anims, id);
        sched.CancelAnimationFrame(rafId);
        animations := animations - {id};
        anims := anims - {id};
      } else {
        assert anims == anims - {id};
      }
    }

    /** An animation frame fires (`step`): writes the interpolated value to the
        driver and the cache, then asks for another frame while short of the
        end, and otherwise drops the animation. */
    method RunAnimationFrame(h: nat, now: real)
      requires Valid() && h in sched.frames && now >= sched.frames[h].anim.start
      modifies this, sched, driver
      ensures Valid()
      ensures var task := old(sched.frames[h]);
        && State() == Step(old(State()), task.id, now)
        && task.id in paramCache
        && driver.calls == old(driver.calls) + [DriverCall.SetParameter(task.id, paramCache[task.id])]
      ensures timelineTimers == old(timelineTimers) && sched.timeouts == old(sched.timeouts)
    {
      ghost var s0 := State();
      ghost var animations0, frames0, anims0 := animations, sched.frames, anims;
      var task := sched.TakeFrame(h);
      var a := task.anim;
      var t := Progress(a, now);
      var value := Lerp(a.from, a.to, t);
      StepAnim(animations0, frames0, anims0, h);
      driver.SetParameter(task.id, value);
      paramCache := paramCache[task.id := value];
      if t < 1.0 {
        var next := sched.RequestAnimationFrame(task);
        RescheduleAnim(animations0, frames0, anims0, h, next);
        animations := animations[task.id := next];
      } else {
        animations := animations - {task.id};
        anims := anims - {task.id};
      }
    }

    /** `setLipSync(value)`: the mouth opening, clamped to [0, 1], goes to both
        the driver and the cache. */
    method SetLipSync(value: real)
      requires Valid()
      modifies this, driver
      ensures Valid()
      ensures paramCache == old(paramCache)[MouthParam := Clamp01(value)]
      ensures driver.calls == old(driver.calls) + [DriverCall.SetParameter(MouthParam, Clamp01(value))]
      ensures timelineTimers == old(timelineTimers) && animations == old(animations)
    {
      var clamped := Clamp01(value);
      driver.SetParameter(MouthParam, clamped);
      paramCache := paramCache[MouthParam := clamped];
    }

    /** `dispose()`: every timer and animation is cancelled first. */
    method Dispose()
      requires Valid()
      modifies this, sched, driver
      ensures Valid()
      ensures timelineTimers == [] && animations == map[] && anims == map[]
      ensures sched.timeouts == map[] && sched.frames == map[]
      ensures paramCache == old(paramCache)
      ensures driver.calls == old(driver.calls) + [DisposeModel]
    {
      ClearTimeline();
      driver.Dispose();
    }

    /** `clearTimeline()`: cancels every timeline timer, forgets them, and
        cancels every animation. The parameter cache is kept. */
    method ClearTimeline()
      requires Valid()
      modifies this, sched
      ensures Valid()
      ensures timelineTimers == [] && animations == map[] && anims == map[]
      ensures sched.timeouts == map[] && sched.frames == map[]
      ensures sched.nextHandle == old(sched.nextHandle)
      ensures paramCache == old(paramCache)
    {
      var i := 0;
      while i < |timelineTimers|
        invariant 0 <= i <= |timelineTimers|
        invariant forall h :: h in sched.timeouts <==> h in old(sched.timeouts) && h !in timelineTimers[..i]
        invariant sched.frames == old(sched.frames) && sched.nextHandle == old(sched.nextHandle)
        invariant timelineTimers == old(timelineTimers) && animations == old(animations)
        invariant paramCache == old(paramCache) && State() == old(State())
      {
        sched.ClearTimeout(timelineTimers[i]);
        assert timelineTimers[..i + 1] == timelineTimers[..i] + [timelineTimers[i]];
        i := i + 1;
      }
      assert timelineTimers[..i] == timelineTimers;
      timelineTimers := [];
      ClearAnimations();
    }

    /** `clearAnimations()`: cancels every animation in flight. */
    method ClearAnimations()
      requires Valid()
      modifies this, sched
      ensures Valid()
      ensures animations == map[] && anims == map[] && sched.frames == map[]
      ensures sched.timeouts == old(sched.timeouts) && sched.nextHandle == old(sched.nextHandle)
      ensures timelineTimers == old(timelineTimers) && paramCache == old(paramCache)
    {
      var ids := animations.Keys;
      while ids != {}
        invariant ids <= animations.Keys
        invariant forall h :: h in sched.frames ==> h in old(sched.frames) && sched.frames[h] == old(sched.frames)[h]
        invariant forall h :: h in sched.frames ==> sched.frames[h].id in ids
        invariant sched.timeouts == old(sched.timeouts) && sched.nextHandle == old(sched.nextHandle)
        invariant animations == old(animations) && timelineTimers == old(timelineTimers)
        invariant paramCache == old(paramCache)
        decreases |ids|
      {
        var id :| id in ids;
        sched.CancelAnimationFrame(animations[id]);
        ids := ids - {id};
      }
      animations := map[];
      anims := map[];
    }
  }
}
