/**
 * An abstract model of the tween library (anime.js) as the core uses it.
 *
 * A tween is an opaque handle: an object whose only observable state is its
 * play status, its direction (forwards or backwards), its seek position and how many times it
 * was released with `utils.remove`. Interpolation, easing curves and timing
 * are not modelled. Parameter bags are maps from parameter name to value, so
 * that JavaScript's object spread `{...a, ...b}` is the right-biased map union
 * `a + b`.
 */
module Anime {

  /** The values a parameter bag can hold. Numbers are exact reals. */
  datatype Value =
    | Num(n: real)
    | Text(s: string)
    | Flag(b: bool)
    | Keyframes(frames: seq<Value>)
    | StaggerFrom(step: real, start: real)  // stagger(step, {start})
    | Callback(id: nat)                      // a caller-supplied function
    | Target(t: Targets)                     // the `targets` entry of a config

  /** What a tween animates: the elements are identified by number. */
  datatype Targets =
    | NoTargets
    | Selector(query: string)
    | Nodes(ids: seq<nat>)
    | Descendants(root: nat, query: string)  // root.querySelectorAll(query)

  type Params = map<string, Value>

  /** JavaScript truthiness of a parameter value (0 and "" are falsy). */
  predicate Truthy(v: Value) {
    match v
    case Num(n) => n != 0.0
    case Text(s) => s != ""
    case Flag(b) => b
    case _ => true
  }

  /** The delay that `stagger(step, {start})` gives to the k-th target. */
  function StaggerDelay(step: int, start: int, k: nat): (d: int)
    ensures k == 0 ==> d == start
    ensures k > 0 ==> d == StaggerDelay(step, start, k - 1) + step
  {
    start + k * step
  }

  datatype Status = Idle | Playing | Paused | Removed

  /** The abstract state of one tween. */
  datatype TweenState = TweenState(status: Status, reversed: bool, position: real, removals: nat)

  /** A tween starts playing unless its parameters say `autoplay: false`. */
  predicate Autoplays(p: Params) {
    !("autoplay" in p && p["autoplay"] == Flag(false))
  }

  /** A tween starts backwards when its parameters say `reversed: true`. */
  predicate StartsReversed(p: Params) {
    "reversed" in p && p["reversed"] == Flag(true)
  }

  function Initial(p: Params): (t: TweenState)
    ensures t.status == Playing <==> Autoplays(p)
    ensures t.status == Idle <==> !Autoplays(p)
    ensures t.reversed <==> StartsReversed(p)
    ensures t.position == 0.0 && t.removals == 0
  {
    TweenState(if Autoplays(p) then Playing else Idle, StartsReversed(p), 0.0, 0)
  }

  // A released tween ignores every control call; only a further release is counted.

  /** `play()` resumes playback forwards, whatever the direction was. */
  function AfterPlay(t: TweenState): TweenState {
    if t.status == Removed then t else t.(status := Playing, reversed := false)
  }

  function AfterPause(t: TweenState): TweenState {
    if t.status == Removed then t else t.(status := Paused)
  }

  function AfterRestart(t: TweenState): TweenState {
    if t.status == Removed then t else t.(status := Playing, position := 0.0)
  }

  /** `reverse()` resumes playback backwards, whatever the direction was. */
  function AfterReverse(t: TweenState): TweenState {
    if t.status == Removed then t else t.(status := Playing, reversed := true)
  }

  /**
   * `play` and `reverse` set the direction rather than toggle it: each undoes
   * the direction of the other, and a repeated call changes nothing.
   */
  lemma PlayReverseLaws(t: TweenState)
    ensures AfterPlay(AfterReverse(t)) == AfterPlay(t)
    ensures AfterReverse(AfterPlay(t)) == AfterReverse(t)
    ensures AfterPlay(AfterPlay(t)) == AfterPlay(t)
    ensures AfterReverse(AfterReverse(t)) == AfterReverse(t)
    ensures t.status != Removed ==>
      AfterPlay(t).status == Playing && !AfterPlay(t).reversed &&
      AfterReverse(t).status == Playing && AfterReverse(t).reversed
  {
  }

  function AfterSeek(t: TweenState, time: real): TweenState {
    if t.status == Removed then t else t.(position := time)
  }

  function AfterRemove(t: TweenState): (r: TweenState)
    ensures r.status == Removed && r.removals == t.removals + 1
  {
    t.(status := Removed, removals := t.removals + 1)
  }

  /** A tween handle, as returned by `animate(targets, params)`. */
  class Handle {
    const targets: Targets
    const params: Params
    var state: TweenState

    constructor (targets: Targets, params: Params)
      ensures this.targets == targets && this.params == params
      ensures state == Initial(params)
    {
      this.targets := targets;
      this.params := params;
      state := Initial(params);
    }

    method Play()
      modifies this
      ensures state == AfterPlay(old(state))
    {
      state := AfterPlay(state);
    }

    method Pause()
      modifies this
      ensures state == AfterPause(old(state))
    {
      state := AfterPause(state);
    }

    method Restart()
      modifies this
      ensures state == AfterRestart(old(state))
    {
      state := AfterRestart(state);
    }

    method Reverse()
      modifies this
      ensures state == AfterReverse(old(state))
    {
      state := AfterReverse(state);
    }

    method Seek(time: real)
      modifies this
      ensures state == AfterSeek(old(state), time)
    {
      state := AfterSeek(state, time);
    }

    /** `utils.remove(handle)`. */
    method Remove()
      modifies this
      ensures state == AfterRemove(old(state))
    {
      state := AfterRemove(state);
    }
  }
}
