/**
 * `hooks/useAnimations.ts`: the `useAnimation` trigger (reduced-motion gate
 * and the `hasPlayedRef` latch), `useStaggeredAnimation` and the teardown of
 * `useAnimationController`. Visibility arrives as an input event; the
 * reduced-motion preference is fixed for one hook instance.
 */
module UseAnimations {
  import opened Wrappers
  import opened Anime
  import Animations
  import Intersection

  /** The options of `useAnimation`; `None` is an absent key. */
  datatype AnimationOptions = AnimationOptions(
    autoPlay: Option<bool>,
    loop: Option<Value>,
    direction: Option<string>,
    onComplete: Option<nat>,
    onBegin: Option<nat>,
    triggerOnScroll: Option<bool>,
    threshold: Option<real>,
    freezeOnceVisible: Option<bool>,
    respectReducedMotion: Option<bool>)

  /** `useAnimation`'s gate: `respectReducedMotion` defaults to true. */
  predicate ShouldAnimate(o: AnimationOptions, prefersReducedMotion: bool) {
    !o.respectReducedMotion.GetOr(true) || !prefersReducedMotion
  }

  /** `useStaggeredAnimation`'s gate: an absent `respectReducedMotion` is falsy. */
  predicate StaggeredShouldAnimate(o: AnimationOptions, prefersReducedMotion: bool) {
    o.respectReducedMotion != Some(true) || !prefersReducedMotion
  }

  /**
   * The two hooks disagree when the option is absent: under reduced motion
   * `useAnimation` does not animate while `useStaggeredAnimation` does.
   */
  lemma ReducedMotionDefaultsDiffer(o: AnimationOptions)
    requires o.respectReducedMotion.None?
    ensures !ShouldAnimate(o, true)
    ensures StaggeredShouldAnimate(o, true)
    ensures forall rm :: StaggeredShouldAnimate(o, rm)
  {
  }

  /** The options `useAnimation` passes to the visibility hook: freezing by default. */
  function ObserverOptionsOf(o: AnimationOptions): (r: Intersection.ObserverOptions)
    ensures Intersection.Resolve(r).freeze <==> o.freezeOnceVisible != Some(false)
    ensures Intersection.Resolve(r).threshold == o.threshold.GetOr(0.1)
    ensures !Intersection.Resolve(r).initial
  {
    Intersection.ObserverOptions(Some(o.threshold.GetOr(0.1)), None, Some(o.freezeOnceVisible.GetOr(true)), None)
  }

  /**
   * The parameters `createAnimation` builds:
   * `{...config, loop, direction, autoplay: false, complete?, begin?}`.
   */
  function HookParams(config: Animations.AnimationConfig, o: AnimationOptions): (p: Params)
    ensures "autoplay" in p && p["autoplay"] == Flag(false) && !Autoplays(p)
    ensures "loop" in p && p["loop"] == o.loop.GetOr(Flag(false))
    ensures "direction" in p && p["direction"] == Text(o.direction.GetOr("normal"))
    ensures o.onComplete.Some? ==> "complete" in p && p["complete"] == Callback(o.onComplete.value)
    ensures o.onBegin.Some? ==> "begin" in p && p["begin"] == Callback(o.onBegin.value)
    ensures forall k :: (k in config && k != "loop" && k != "direction" && k != "autoplay"
      && k != "complete" && k != "begin") ==> k in p && p[k] == config[k]
    ensures forall k :: k in p ==> k in config || k in {"loop", "direction", "autoplay", "complete", "begin"}
  {
    config["loop" := o.loop.GetOr(Flag(false))]["direction" := Text(o.direction.GetOr("normal"))]["autoplay" := Flag(false)]
      + (if o.onComplete.Some? then map["complete" := Callback(o.onComplete.value)] else map[])
      + (if o.onBegin.Some? then map["begin" := Callback(o.onBegin.value)] else map[])
  }

  /** The options of one hook instance once defaults and the preference are applied. */
  datatype Mode = Mode(autoPlay: bool, triggerOnScroll: bool, shouldAnimate: bool, params: Params)

  function ModeOf(config: Animations.AnimationConfig, o: AnimationOptions, prefersReducedMotion: bool): (m: Mode)
    ensures m.autoPlay <==> o.autoPlay == Some(true)
    ensures m.triggerOnScroll <==> o.triggerOnScroll == Some(true)
    ensures m.shouldAnimate == ShouldAnimate(o, prefersReducedMotion)
    ensures m.params == HookParams(config, o)
  {
    Mode(o.autoPlay.GetOr(false), o.triggerOnScroll.GetOr(false), ShouldAnimate(o, prefersReducedMotion), HookParams(config, o))
  }

  /**
   * The hook's state: the tween in `animationRef` (if any), `hasPlayedRef`,
   * how many times a trigger (mount autoplay or first visibility) started the
   * tween, and how many tweens teardown released.
   */
  datatype HookState = HookState(tween: Option<TweenState>, hasPlayed: bool, starts: nat, releases: nat)

  const InitialHook := HookState(None, false, 0, 0)

  datatype HookEvent =
    | Mount(elementAttached: bool)  // the creating effect runs
    | Visibility(visible: bool)     // the scroll-trigger effect runs with `isVisible`
    | UserPlay
    | UserPause
    | UserRestart
    | UserReverse
    | UserSeek(time: real)
    | Teardown                      // the creating effect's cleanup

  function HookStep(m: Mode, s: HookState, e: HookEvent): HookState {
    match e
    case Mount(attached) =>
      if !attached then s
      else if !m.shouldAnimate then s.(tween := None)
      else if m.autoPlay && !m.triggerOnScroll then
        s.(tween := Some(AfterPlay(Initial(m.params))), hasPlayed := true, starts := s.starts + 1)
      else s.(tween := Some(Initial(m.params)))
    case Visibility(visible) =>
      if m.triggerOnScroll && visible && !s.hasPlayed && s.tween.Some? && m.shouldAnimate then
        s.(tween := Some(AfterPlay(s.tween.value)), hasPlayed := true, starts := s.starts + 1)
      else s
    case UserPlay =>
      if s.tween.Some? && m.shouldAnimate then s.(tween := Some(AfterPlay(s.tween.value))) else s
    case UserPause =>
      if s.tween.Some? then s.(tween := Some(AfterPause(s.tween.value))) else s
    case UserRestart =>
      if s.tween.Some? && m.shouldAnimate then s.(tween := Some(AfterRestart(s.tween.value)), hasPlayed := true) else s
    case UserReverse =>
      if s.tween.Some? && m.shouldAnimate then s.(tween := Some(AfterPlay(AfterReverse(s.tween.value)))) else s
    case UserSeek(time) =>
      if s.tween.Some? then s.(tween := Some(AfterSeek(s.tween.value, time))) else s
    case Teardown =>
      if s.tween.Some? then s.(tween := None, releases := s.releases + 1) else s
  }

  function HookRun(m: Mode, s: HookState, evs: seq<HookEvent>): HookState
    decreases |evs|
  {
    if evs == [] then s else HookRun(m, HookStep(m, s, evs[0]), evs[1..])
  }

  /** The tween is built paused: `createAnimation` forces `autoplay: false`. */
  lemma HookTweenCreatedPaused(config: Animations.AnimationConfig, o: AnimationOptions, rm: bool, s: HookState)
    requires ShouldAnimate(o, rm)
    requires o.autoPlay != Some(true) || o.triggerOnScroll == Some(true)
    ensures HookStep(ModeOf(config, o, rm), s, Mount(true)).tween == Some(Initial(HookParams(config, o)))
    ensures Initial(HookParams(config, o)).status == Idle
  {
  }

  /** Mounting starts the tween only for `autoPlay && !triggerOnScroll`. */
  lemma MountStartsOnlyForAutoplay(m: Mode, s: HookState, attached: bool)
    ensures HookStep(m, s, Mount(attached)).starts > s.starts <==>
      attached && m.shouldAnimate && m.autoPlay && !m.triggerOnScroll
  {
  }

  /** Under reduced motion (with the gate on) no tween ever exists, so nothing plays. */
  lemma {:induction false} ReducedMotionIsInert(m: Mode, s: HookState, evs: seq<HookEvent>)
    requires !m.shouldAnimate && s.tween.None?
    ensures var r := HookRun(m, s, evs);
      r.tween.None? && r.starts == s.starts && r.hasPlayed == s.hasPlayed && r.releases == s.releases
    decreases |evs|
  {
    if evs != [] {
      ReducedMotionIsInert(m, HookStep(m, s, evs[0]), evs[1..]);
    }
  }

  /** In scroll mode a start needs `hasPlayed` unset, and every start sets it. */
  ghost predicate ScrollInv(s: HookState) {
    s.starts <= (if s.hasPlayed then 1 else 0)
  }

  /** In scroll-trigger mode the tween is started by a trigger at most once per hook lifetime. */
  lemma {:induction false} ScrollStartsAtMostOnce(m: Mode, s: HookState, evs: seq<HookEvent>)
    requires m.triggerOnScroll && ScrollInv(s)
    ensures ScrollInv(HookRun(m, s, evs))
    ensures HookRun(m, s, evs).starts <= 1
    decreases |evs|
  {
    if evs != [] {
      ScrollStartsAtMostOnce(m, HookStep(m, s, evs[0]), evs[1..]);
    }
  }

  /** From the initial state, whatever happens, a scroll-triggered hook starts at most once. */
  lemma ScrollHookStartsAtMostOnce(m: Mode, evs: seq<HookEvent>)
    requires m.triggerOnScroll
    ensures HookRun(m, InitialHook, evs).starts <= 1
  {
    ScrollStartsAtMostOnce(m, InitialHook, evs);
  }

  /** In scroll mode a start happens only on a visible event, before anything has played. */
  lemma ScrollStartNeedsFirstVisibility(m: Mode, s: HookState, e: HookEvent)
    requires m.triggerOnScroll
    requires HookStep(m, s, e).starts > s.starts
    ensures e == Visibility(true) && !s.hasPlayed && s.tween.Some? && m.shouldAnimate
  {
  }

  /**
   * The hook's `reverse` calls the tween's `reverse()` and then `play()`;
   * since `play()` plays forwards, the tween ends up playing forwards, just
   * as after `play` alone.
   */
  lemma HookReversePlaysForward(m: Mode, s: HookState)
    requires s.tween.Some? && s.tween.value.status != Removed && m.shouldAnimate
    ensures var r := HookStep(m, s, UserReverse);
      && r == HookStep(m, s, UserPlay)
      && r.tween.Some? && r.tween.value.status == Playing && !r.tween.value.reversed
  {
  }

  /** The evidently intended `reverse`: the tween's `reverse()` alone, which also resumes it. */
  function IntendedReverseStep(m: Mode, s: HookState): (r: HookState)
    ensures s.tween.Some? && m.shouldAnimate ==> r == s.(tween := Some(AfterReverse(s.tween.value)))
    ensures s.tween.None? || !m.shouldAnimate ==> r == s
  {
    if s.tween.Some? && m.shouldAnimate then s.(tween := Some(AfterReverse(s.tween.value))) else s
  }

  /** With the intended step the tween plays backwards, and `play` afterwards turns it forwards again. */
  lemma IntendedReversePlaysBackward(m: Mode, s: HookState)
    requires s.tween.Some? && s.tween.value.status != Removed && m.shouldAnimate
    ensures var r := IntendedReverseStep(m, s);
      && r.tween.Some? && r.tween.value.status == Playing && r.tween.value.reversed
      && r.hasPlayed == s.hasPlayed && r.starts == s.starts && r.releases == s.releases
      && HookStep(m, r, UserPlay) == HookStep(m, s, UserPlay)
  {
  }

  /** `restart` sets `hasPlayedRef`, so a later first visibility does not start the tween. */
  lemma RestartSuppressesScrollStart(m: Mode, s: HookState)
    requires s.tween.Some? && m.shouldAnimate
    ensures var r := HookStep(m, s, UserRestart);
      r.hasPlayed && HookStep(m, r, Visibility(true)) == r
  {
  }

  /** `pause` and `seek` need only a handle; the reduced-motion gate does not apply. */
  lemma PauseAndSeekIgnoreGate(m: Mode, s: HookState, time: real)
    requires s.tween.Some?
    ensures HookStep(m, s, UserPause).tween == Some(AfterPause(s.tween.value))
    ensures HookStep(m, s, UserSeek(time)).tween == Some(AfterSeek(s.tween.value, time))
  {
  }

  /** Teardown releases the handle and clears the ref. */
  lemma TeardownReleases(m: Mode, s: HookState)
    ensures HookStep(m, s, Teardown).tween.None?
    ensures HookStep(m, s, Teardown).releases == s.releases + (if s.tween.Some? then 1 else 0)
  {
  }

  /** `useAnimation`'s refs, with the tween as a handle object. */
  class AnimationHook {
    const mode: Mode
    var animation: Option<Handle>
    var hasPlayed: bool
    ghost var starts: nat
    ghost var releases: nat

    function HandleSet(): set<Handle>
      reads this
    {
      if animation.Some? then {animation.value} else {}
    }

    ghost function Model(): HookState
      reads this, HandleSet()
    {
      HookState(if animation.Some? then Some(animation.value.state) else None, hasPlayed, starts, releases)
    }

    constructor (config: Animations.AnimationConfig, o: AnimationOptions, prefersReducedMotion: bool)
      ensures mode == ModeOf(config, o, prefersReducedMotion) && Model() == InitialHook
    {
      mode := ModeOf(config, o, prefersReducedMotion);
      animation := None;
      hasPlayed := false;
      starts := 0;
      releases := 0;
    }

    /** The creating effect. React has run the previous cleanup, so no tween is held. */
    method RunMount(elementAttached: bool, element: nat)
      requires animation.None?
      modifies this
      ensures Model() == HookStep(mode, old(Model()), Mount(elementAttached))
      ensures animation.Some? ==>
        fresh(animation.value) && animation.value.targets == Nodes([element]) && animation.value.params == mode.params
    {
      if !elementAttached {
        return;
      }
      if !mode.shouldAnimate {
        animation := None;
        return;
      }
      var h := new Handle(Nodes([element]), mode.params);
      animation := Some(h);
      if mode.autoPlay && !mode.triggerOnScroll {
        h.Play();
        hasPlayed := true;
        starts := starts + 1;
      }
    }

    /** The scroll-trigger effect, run with the current `isVisible`. */
    method RunVisibility(isVisible: bool)
      modifies this, HandleSet()
      ensures animation == old(animation)
      ensures Model() == HookStep(mode, old(Model()), Visibility(isVisible))
    {
      if mode.triggerOnScroll && isVisible && !hasPlayed && animation.Some? && mode.shouldAnimate {
        animation.value.Play();
        hasPlayed := true;
        starts := starts + 1;
      }
    }

    method Play()
      modifies HandleSet()
      ensures Model() == HookStep(mode, old(Model()), UserPlay)
    {
      if animation.Some? && mode.shouldAnimate {
        animation.value.Play();
      }
    }

    method Pause()
      modifies HandleSet()
      ensures Model() == HookStep(mode, old(Model()), UserPause)
    {
      if animation.Some? {
        animation.value.Pause();
      }
    }

    method Restart()
      modifies this, HandleSet()
      ensures animation == old(animation)
      ensures Model() == HookStep(mode, old(Model()), UserRestart)
    {
      if animation.Some? && mode.shouldAnimate {
        animation.value.Restart();
        hasPlayed := true;
      }
    }

    method Reverse()
      modifies HandleSet()
      ensures Model() == HookStep(mode, old(Model()), UserReverse)
    {
      if animation.Some? && mode.shouldAnimate {
        animation.value.Reverse();
        animation.value.Play();
      }
    }

    method Seek(time: real)
      modifies HandleSet()
      ensures Model() == HookStep(mode, old(Model()), UserSeek(time))
    {
      if animation.Some? {
        animation.value.Seek(time);
      }
    }

    /** The cleanup: `utils.remove` on the handle, then the ref is nulled. */
    method RunTeardown()
      modifies this, HandleSet()
      ensures Model() == HookStep(mode, old(Model()), Teardown)
      ensures old(animation).Some? ==> old(animation).value.state == AfterRemove(old(animation.value.state))
    {
      if animation.Some? {
        animation.value.Remove();
        animation := None;
        releases := releases + 1;
      }
    }
  }

  // ---------------------------------------------------------------------
  // useStaggeredAnimation

  /** A React ref: the element it is attached to, if any. */
  class Ref {
    var current: Option<nat>

    constructor ()
      ensures current.None?
    {
      current := None;
    }
  }

  /** `.filter(el => el !== null)` over the refs' current elements. */
  function NonNull(cs: seq<Option<nat>>): seq<nat> {
    if cs == [] then [] else (if cs[0].Some? then [cs[0].value] else []) + NonNull(cs[1..])
  }

  /** The filter keeps the order: it distributes over concatenation. */
  lemma {:induction false} NonNullAppend(a: seq<Option<nat>>, b: seq<Option<nat>>)
    ensures NonNull(a + b) == NonNull(a) + NonNull(b)
    decreases |a|
  {
    if a == [] {
      assert a + b == b;
    } else {
      assert (a + b)[0] == a[0];
      assert (a + b)[1..] == a[1..] + b;
      NonNullAppend(a[1..], b);
    }
  }

  /** The targets are exactly the attached elements, and there are none only when no ref is attached. */
  lemma {:induction false} NonNullElements(cs: seq<Option<nat>>)
    ensures |NonNull(cs)| <= |cs|
    ensures forall x :: x in NonNull(cs) <==> Some(x) in cs
    ensures NonNull(cs) == [] <==> forall i :: 0 <= i < |cs| ==> cs[i].None?
    decreases |cs|
  {
    if cs != [] {
      NonNullElements(cs[1..]);
      assert cs == [cs[0]] + cs[1..];
      forall x ensures Some(x) in cs <==> Some(x) == cs[0] || Some(x) in cs[1..] {
      }
      if NonNull(cs) == [] {
        forall i | 0 <= i < |cs| ensures cs[i].None? {
          if i > 0 {
            assert cs[i] == cs[1..][i - 1];
          }
        }
      }
    }
  }

  /** JavaScript `v || d` over an optional parameter value. */
  function OrValue(o: Option<Value>, d: Value): Value {
    if o.Some? && Truthy(o.value) then o.value else d
  }

  /** The config part of the staggered parameters: the remaining keys, then `duration` and `easing`. */
  function StaggeredBase(config: Animations.AnimationConfig): (b: Params)
    ensures "targets" !in b && "ease" !in b && "reversed" !in b && "alternate" !in b
    ensures "loop" !in b && "autoplay" !in b
    ensures "duration" in b <==> "duration" in config && Truthy(config["duration"])
    ensures "duration" in b ==> b["duration"] == config["duration"]
    ensures ("ease" in config && Truthy(config["ease"])) ==> "easing" in b && b["easing"] == config["ease"]
    ensures forall k :: (k in config && k !in {"targets", "duration", "ease", "loop", "autoplay", "reversed",
      "alternate", "easing"}) ==> k in b && b[k] == config[k]
  {
    var rest := config - {"targets", "duration", "ease", "loop", "autoplay", "reversed", "alternate"};
    var withDuration := if "duration" in config && Truthy(config["duration"]) then map["duration" := config["duration"]] else map[];
    var withEasing := if "ease" in config && Truthy(config["ease"]) then map["easing" := config["ease"]] else map[];
    rest + withDuration + withEasing
  }

  /** The option part of the staggered parameters, spread after the config part. */
  function StaggeredOptions(staggerDelay: Option<real>, o: AnimationOptions): (t: Params)
    ensures t.Keys <= {"delay", "autoplay", "loop", "direction", "complete", "begin"}
    ensures "delay" in t && t["delay"] == StaggerFrom(staggerDelay.GetOr(100.0), 0.0)
    ensures "autoplay" in t && (t["autoplay"] == Flag(true) <==> o.autoPlay == Some(true))
    ensures "loop" in t && t["loop"] == OrValue(o.loop, Flag(false))
    ensures "direction" in t && t["direction"] == Text(Animations.OrText(o.direction, "normal"))
    ensures o.onComplete.Some? ==> "complete" in t && t["complete"] == Callback(o.onComplete.value)
    ensures o.onBegin.Some? ==> "begin" in t && t["begin"] == Callback(o.onBegin.value)
  {
    map["delay" := StaggerFrom(staggerDelay.GetOr(100.0), 0.0),
        "autoplay" := Flag(o.autoPlay.GetOr(false)),
        "loop" := OrValue(o.loop, Flag(false)),
        "direction" := Text(Animations.OrText(o.direction, "normal"))]
      + (if o.onComplete.Some? then map["complete" := Callback(o.onComplete.value)] else map[])
      + (if o.onBegin.Some? then map["begin" := Callback(o.onBegin.value)] else map[])
  }

  /**
   * The parameters of the staggered tween: the config without `targets`,
   * `duration`, `ease`, `loop`, `autoplay`, `reversed` and `alternate`;
   * then `duration` and `easing: ease` only when truthy; then the stagger
   * delay, `autoplay`, `loop`, `direction` and the callbacks.
   */
  function StaggeredParams(config: Animations.AnimationConfig, staggerDelay: Option<real>, o: AnimationOptions): Params {
    StaggeredBase(config) + StaggeredOptions(staggerDelay, o)
  }

  /** The staggered tween never gets the keys the config part drops, and gets `duration` and `easing` as that part sets them. */
  lemma StaggeredParamsConfigKeys(config: Animations.AnimationConfig, staggerDelay: Option<real>, o: AnimationOptions)
    ensures var p := StaggeredParams(config, staggerDelay, o);
      "targets" !in p && "ease" !in p && "reversed" !in p && "alternate" !in p
      && ("duration" in p <==> "duration" in config && Truthy(config["duration"]))
      && ("duration" in p ==> p["duration"] == config["duration"])
      && (("ease" in config && Truthy(config["ease"])) ==> "easing" in p && p["easing"] == config["ease"])
  {
    var t := StaggeredOptions(staggerDelay, o);
    assert "targets" !in t && "ease" !in t && "reversed" !in t && "alternate" !in t;
    assert "duration" !in t && "easing" !in t;
  }

  /** The option part wins: the stagger delay, `autoplay`, `loop` and `direction` as the options give them. */
  lemma StaggeredParamsOptionKeys(config: Animations.AnimationConfig, staggerDelay: Option<real>, o: AnimationOptions)
    ensures var p := StaggeredParams(config, staggerDelay, o);
      "delay" in p && p["delay"] == StaggerFrom(staggerDelay.GetOr(100.0), 0.0)
      && "autoplay" in p && (p["autoplay"] == Flag(true) <==> o.autoPlay == Some(true))
      && "loop" in p && p["loop"] == OrValue(o.loop, Flag(false))
      && "direction" in p && p["direction"] == Text(Animations.OrText(o.direction, "normal"))
  {
  }

  /** Every other config key reaches the staggered tween unchanged. */
  lemma StaggeredParamsKeepsConfig(config: Animations.AnimationConfig, staggerDelay: Option<real>,
                                   o: AnimationOptions, k: string)
    requires k in config
    requires k !in {"targets", "duration", "ease", "loop", "autoplay", "reversed", "alternate", "easing",
                    "delay", "direction", "complete", "begin"}
    ensures k in StaggeredParams(config, staggerDelay, o)
    ensures StaggeredParams(config, staggerDelay, o)[k] == config[k]
  {
    assert k !in StaggeredOptions(staggerDelay, o);
  }

  class StaggeredHook {
    const config: Animations.AnimationConfig
    const staggerDelay: Option<real>
    const options: AnimationOptions
    const shouldAnimate: bool
    var refs: seq<Ref>
    var animation: Option<Handle>

    function HandleSet(): set<Handle>
      reads this
    {
      if animation.Some? then {animation.value} else {}
    }

    /** `refs.map(ref => ref.current)`. */
    function Currents(): seq<Option<nat>>
      reads this, refs
    {
      seq(|refs|, i reads this, refs requires 0 <= i < |refs| => refs[i].current)
    }

    constructor (config: Animations.AnimationConfig, staggerDelay: Option<real>, o: AnimationOptions, prefersReducedMotion: bool)
      ensures this.config == config && this.staggerDelay == staggerDelay && options == o
      ensures shouldAnimate == StaggeredShouldAnimate(o, prefersReducedMotion)
      ensures refs == [] && animation.None?
    {
      this.config := config;
      this.staggerDelay := staggerDelay;
      options := o;
      shouldAnimate := StaggeredShouldAnimate(o, prefersReducedMotion);
      refs := [];
      animation := None;
    }

    /** `addRef()`: appends exactly one fresh, unattached ref. */
    method AddRef() returns (r: Ref)
      modifies this
      ensures fresh(r) && r.current.None?
      ensures refs == old(refs) + [r] && animation == old(animation)
    {
      r := new Ref();
      refs := refs + [r];
    }

    /**
     * The effect: the attached elements in order are the targets; with none,
     * or when the gate is closed, no tween is built. React has run the
     * previous cleanup, so no tween is held.
     */
    method RunEffect()
      requires animation.None?
      modifies this
      ensures refs == old(refs)
      ensures var targets := NonNull(old(Currents()));
        if targets == [] || !shouldAnimate then animation.None?
        else (animation.Some? && fresh(animation.value) && animation.value.targets == Nodes(targets)
          && animation.value.params == StaggeredParams(config, staggerDelay, options))
    {
      var targets := NonNull(Currents());
      if |targets| == 0 || !shouldAnimate {
        return;
      }
      var h := new Handle(Nodes(targets), StaggeredParams(config, staggerDelay, options));
      animation := Some(h);
    }

    method Play()
      modifies HandleSet()
      ensures animation.Some? && shouldAnimate ==> animation.value.state == AfterPlay(old(animation.value.state))
      ensures animation.Some? && !shouldAnimate ==> animation.value.state == old(animation.value.state)
    {
      if animation.Some? && shouldAnimate {
        animation.value.Play();
      }
    }

    method Pause()
      modifies HandleSet()
      ensures animation.Some? ==> animation.value.state == AfterPause(old(animation.value.state))
    {
      if animation.Some? {
        animation.value.Pause();
      }
    }

    method Restart()
      modifies HandleSet()
      ensures animation.Some? && shouldAnimate ==> animation.value.state == AfterRestart(old(animation.value.state))
      ensures animation.Some? && !shouldAnimate ==> animation.value.state == old(animation.value.state)
    {
      if animation.Some? && shouldAnimate {
        animation.value.Restart();
      }
    }

    method RunCleanup()
      modifies this, HandleSet()
      ensures animation.None? && refs == old(refs)
      ensures old(animation).Some? ==> old(animation).value.state == AfterRemove(old(animation.value.state))
    {
      if animation.Some? {
        animation.value.Remove();
        animation := None;
      }
    }
  }

  // ---------------------------------------------------------------------
  // useAnimationController

  /** The hook's ref to its controller; the effect creates one, the cleanup destroys all. */
  class ControllerHook {
    var controller: Option<Animations.AnimationController>

    constructor ()
      ensures controller.None?
    {
      controller := None;
    }

    method RunMount()
      modifies this
      ensures controller.Some? && fresh(controller.value)
      ensures controller.value.Valid() && controller.value.animations == map[]
    {
      var c := new Animations.AnimationController();
      controller := Some(c);
    }

    method RunTeardown()
      requires controller.Some? ==> controller.value.Valid()
      modifies if controller.Some? then {controller.value} else {}
      modifies if controller.Some? then controller.value.animations.Values else {}
      ensures controller == old(controller)
      ensures controller.Some? ==> controller.value.animations == map[]
      ensures controller.Some? ==> forall n :: n in old(controller.value.animations) ==>
        var h := old(controller.value.animations[n]); h.state == AfterRemove(old(h.state))
    {
      if controller.Some? {
        controller.value.DestroyAll();
      }
    }
  }
}
