/**
 * `lib/animations.ts`: the named animation registry (`AnimationController`),
 * the typewriter character split, and the parameter defaults of the
 * stagger and pulse presets.
 */
module Animations {
  import opened Wrappers
  import opened Anime
  import Easings

  /** An animation config: a bag of parameters, `targets` among them. */
  type AnimationConfig = map<string, Value>

  /**
   * `config.targets`: a target as it is, a string as a selector, and no
   * targets when the config has none. The declared type of `targets` admits
   * nothing else; any other value is read as no targets.
   */
  function TargetsOf(config: AnimationConfig): (t: Targets)
    ensures "targets" in config && config["targets"].Target? ==> t == config["targets"].t
    ensures "targets" in config && config["targets"].Text? ==> t == Selector(config["targets"].s)
    ensures "targets" in config && !config["targets"].Target? && !config["targets"].Text? ==> t == NoTargets
    ensures "targets" !in config ==> t == NoTargets
  {
    if "targets" !in config then NoTargets
    else match config["targets"]
      case Target(x) => x
      case Text(q) => Selector(q)
      case _ => NoTargets
  }

  /**
   * The parameters `create` hands to the library: the defaults
   * `duration: durations.normal` and `easing: animeEasings.smooth`,
   * then every entry of the config except `targets`, which wins.
   */
  function CreateParams(config: AnimationConfig): (p: Params)
    ensures "targets" !in p
    ensures forall k :: k in p <==> k == "duration" || k == "easing" || (k in config && k != "targets")
    ensures forall k :: k in config && k != "targets" ==> p[k] == config[k]
    ensures "duration" !in config ==> p["duration"] == Num(Easings.Normal as real)
    ensures "easing" !in config ==> p["easing"] == Text(Easings.Smooth)
  {
    map["duration" := Num(Easings.Normal as real), "easing" := Text(Easings.Smooth)] + (config - {"targets"})
  }

  /** Distinct names never share a handle. */
  ghost predicate Injective(m: map<string, Handle>) {
    forall a, b :: a in m && b in m && a != b ==> m[a] != m[b]
  }

  class AnimationController {
    var animations: map<string, Handle>

    ghost predicate Valid()
      reads this
    {
      Injective(animations)
    }

    constructor ()
      ensures Valid() && animations == map[]
    {
      animations := map[];
    }

    /** `get(name)`: the handle registered under `name`, if any. */
    function Get(name: string): (r: Option<Handle>)
      reads this
      ensures r.Some? <==> name in animations
      ensures r.Some? ==> r.value == animations[name]
    {
      if name in animations then Some(animations[name]) else None
    }

    /**
     * `create(name, config)`: builds a tween and registers it under `name`.
     * A handle already registered under `name` is only dropped from the map:
     * it is not released and keeps its state.
     */
    method Create(name: string, config: AnimationConfig) returns (h: Handle)
      requires Valid()
      modifies this
      ensures Valid() && fresh(h)
      ensures animations == old(animations)[name := h]
      ensures Get(name) == Some(h)
      ensures h.targets == TargetsOf(config) && h.params == CreateParams(config)
      ensures h.state == Initial(CreateParams(config))
      ensures forall g :: g in old(animations.Values) ==> g.state == old(g.state)
    {
      h := new Handle(TargetsOf(config), CreateParams(config));
      animations := animations[name := h];
    }

    /** `play(name)`: plays the named handle; a no-op when the name is absent. */
    method Play(name: string)
      requires Valid()
      modifies animations.Values
      ensures name in animations ==> animations[name].state == AfterPlay(old(animations[name].state))
      ensures forall n :: n in animations && n != name ==> animations[n].state == old(animations[n].state)
    {
      if name in animations {
        animations[name].Play();
      }
    }

    /** `pause(name)`: pauses the named handle; a no-op when the name is absent. */
    method Pause(name: string)
      requires Valid()
      modifies animations.Values
      ensures name in animations ==> animations[name].state == AfterPause(old(animations[name].state))
      ensures forall n :: n in animations && n != name ==> animations[n].state == old(animations[n].state)
    {
      if name in animations {
        animations[name].Pause();
      }
    }

    /** `restart(name)`: restarts the named handle; a no-op when the name is absent. */
    method Restart(name: string)
      requires Valid()
      modifies animations.Values
      ensures name in animations ==> animations[name].state == AfterRestart(old(animations[name].state))
      ensures forall n :: n in animations && n != name ==> animations[n].state == old(animations[n].state)
    {
      if name in animations {
        animations[name].Restart();
      }
    }

    /**
     * `destroy(name)`: releases the named handle and removes its entry;
     * every other entry and handle is left as it was.
     */
    method Destroy(name: string)
      requires Valid()
      modifies this, animations.Values
      ensures Valid()
      ensures animations == old(animations) - {name}
      ensures name in old(animations) ==>
        var h := old(animations[name]); h.state == AfterRemove(old(h.state))
      ensures forall n :: n in old(animations) && n != name ==>
        var g := old(animations[n]); g.state == old(g.state)
    {
      if name in animations {
        var h := animations[name];
        h.Remove();
        animations := animations - {name};
      }
    }

    /** `destroyAll()`: releases every registered handle exactly once and empties the registry. */
    method DestroyAll()
      requires Valid()
      modifies this, animations.Values
      ensures Valid() && animations == map[]
      ensures forall n :: n in old(animations) ==>
        var h := old(animations[n]); h.state == AfterRemove(old(h.state))
    {
      ghost var initial := animations;
      while animations != map[]
        invariant Valid()
        invariant forall n :: n in animations ==> n in initial && animations[n] == initial[n]
        invariant forall n :: n in initial && n !in animations ==>
          initial[n].state == AfterRemove(old(initial[n].state))
        invariant forall n :: n in animations ==> initial[n].state == old(initial[n].state)
        decreases |animations|
      {
        var name :| name in animations;
        Destroy(name);
      }
    }
  }

  // ---------------------------------------------------------------------
  // typewriterAnimation

  /** A child node of an element: plain text, or a span holding text at an opacity. */
  datatype Node = TextNode(text: string) | Span(text: string, opacity: real)

  /** The concatenated text of a list of nodes (the DOM's `textContent`). */
  function TextOf(nodes: seq<Node>): string {
    if nodes == [] then "" else nodes[0].text + TextOf(nodes[1..])
  }

  /** One hidden span per character of `text`, in order. */
  function CharSpans(text: string): (r: seq<Node>)
    ensures |r| == |text|
    ensures forall i :: 0 <= i < |text| ==> r[i] == Span([text[i]], 0.0)
  {
    seq(|text|, i requires 0 <= i < |text| => Span([text[i]], 0.0))
  }

  /** The spans keep the characters in order, so their texts spell the original text. */
  lemma {:induction false} CharSpansSpellText(text: string)
    ensures TextOf(CharSpans(text)) == text
  {
    if text != [] {
      assert CharSpans(text)[1..] == CharSpans(text[1..]);
      CharSpansSpellText(text[1..]);
      assert text == [text[0]] + text[1..];
    }
  }

  /** An element whose text the typewriter effect replaces. */
  class TextElement {
    const id: nat
    var children: seq<Node>
    var opacity: Option<string>  // element.style.opacity

    constructor (id: nat, children: seq<Node>)
      ensures this.id == id && this.children == children && opacity == None
    {
      this.id := id;
      this.children := children;
      opacity := None;
    }

    function TextContent(): string
      reads this
    {
      TextOf(children)
    }
  }

  /** The options of `typewriterAnimation`; `None` is an absent key. */
  datatype TypewriterOptions = TypewriterOptions(duration: Option<real>, delay: Option<real>, ease: Option<string>)

  /** JavaScript `o || d` for an optional number: 0 falls back to the default too. */
  function OrNum(o: Option<real>, d: real): (r: real)
    ensures o.Some? && o.value != 0.0 ==> r == o.value
    ensures o.None? || o.value == 0.0 ==> r == d
  {
    if o.Some? && o.value != 0.0 then o.value else d
  }

  /** JavaScript `o || d` for an optional string: "" falls back to the default too. */
  function OrText(o: Option<string>, d: string): (r: string)
    ensures o.Some? && o.value != "" ==> r == o.value
    ensures o.None? || o.value == "" ==> r == d
  {
    if o.Some? && o.value != "" then o.value else d
  }

  function TypewriterParams(opts: TypewriterOptions): (p: Params)
    ensures p.Keys == {"opacity", "duration", "delay", "easing"}
    ensures p["opacity"] == Keyframes([Num(0.0), Num(1.0)])
    ensures p["duration"] == Num(OrNum(opts.duration, 50.0))
    ensures p["delay"] == StaggerFrom(OrNum(opts.delay, 30.0), 0.0)
    ensures p["easing"] == Text(OrText(opts.ease, Easings.SmoothOut))
  {
    map["opacity" := Keyframes([Num(0.0), Num(1.0)]),
        "duration" := Num(OrNum(opts.duration, 50.0)),
        "delay" := StaggerFrom(OrNum(opts.delay, 30.0), 0.0),
        "easing" := Text(OrText(opts.ease, Easings.SmoothOut))]
  }

  /**
   * `typewriterAnimation(target, options)`: replaces the element's children
   * by one hidden span per character of its text and animates those spans.
   * A missing element gives an empty animation and changes nothing.
   */
  method Typewriter(target: Option<TextElement>, opts: TypewriterOptions) returns (h: Handle)
    modifies if target.Some? then {target.value} else {}
    ensures fresh(h)
    ensures h.state == Initial(h.params) && h.state.status == Playing
    ensures target.None? ==> h.targets == NoTargets && h.params == map[]
    ensures target.Some? ==>
      && target.value.children == CharSpans(old(target.value.TextContent()))
      && target.value.TextContent() == old(target.value.TextContent())
      && target.value.opacity == Some("1")
      && h.targets == Descendants(target.value.id, "span")
      && h.params == TypewriterParams(opts)
  {
    if target.None? {
      h := new Handle(NoTargets, map[]);
      return;
    }
    var element := target.value;
    var text := element.TextContent();
    element.children := [];
    element.opacity := Some("1");
    var i := 0;
    while i < |text|
      invariant 0 <= i <= |text|
      invariant element.children == CharSpans(text[..i])
      invariant element.opacity == Some("1")
    {
      element.children := element.children + [Span([text[i]], 0.0)];
      i := i + 1;
    }
    assert text[..i] == text;
    CharSpansSpellText(text);
    h := new Handle(Descendants(element.id, "span"), TypewriterParams(opts));
  }

  // ---------------------------------------------------------------------
  // staggerAnimation and pulseAnimation

  /**
   * The parameters of `staggerAnimation(targets, animation, staggerDelay)`:
   * the animation's entries without `targets`, with `delay` replaced by a
   * stagger of `staggerDelay` from 0. The default delay applies only when
   * the argument is absent, so an explicit 0 is kept.
   */
  function StaggerParams(animation: AnimationConfig, staggerDelay: Option<real>): (p: Params)
    ensures "targets" !in p && "delay" in p
    ensures p["delay"] == StaggerFrom(staggerDelay.GetOr(Easings.Stagger as real), 0.0)
    ensures forall k :: k in p <==> k == "delay" || (k in animation && k != "targets")
    ensures forall k :: k in animation && k != "targets" && k != "delay" ==> p[k] == animation[k]
  {
    (animation - {"targets"})["delay" := StaggerFrom(staggerDelay.GetOr(Easings.Stagger as real), 0.0)]
  }

  /** `targets || animation.targets`: only the empty selector string is falsy. */
  function StaggerTargets(targets: Targets, animation: AnimationConfig): (t: Targets)
    ensures targets != Selector("") ==> t == targets
    ensures targets == Selector("") ==> t == TargetsOf(animation)
  {
    if targets == Selector("") then TargetsOf(animation) else targets
  }

  method StaggerAnimation(targets: Targets, animation: AnimationConfig, staggerDelay: Option<real>)
    returns (h: Handle)
    ensures fresh(h)
    ensures h.targets == StaggerTargets(targets, animation)
    ensures h.params == StaggerParams(animation, staggerDelay)
    ensures h.state == Initial(StaggerParams(animation, staggerDelay))
  {
    h := new Handle(StaggerTargets(targets, animation), StaggerParams(animation, staggerDelay));
  }

  /** The options of `pulseAnimation`; `loop` is a boolean or a repeat count. */
  datatype PulseOptions = PulseOptions(scale: Option<real>, duration: Option<real>, loop: Option<Value>)

  /**
   * The parameters of `pulseAnimation`. `scale` and `duration` use `||`, so
   * 0 falls back to 1.05 and `durations.slow`; `loop` defaults to true only
   * when it is absent.
   */
  function PulseParams(opts: PulseOptions): (p: Params)
    ensures p.Keys == {"scale", "duration", "easing", "loop"}
    ensures p["scale"] == Keyframes([Num(1.0), Num(OrNum(opts.scale, 1.05)), Num(1.0)])
    ensures p["duration"] == Num(OrNum(opts.duration, Easings.Slow as real))
    ensures p["easing"] == Text(Easings.SmoothInOut)
    ensures p["loop"] == opts.loop.GetOr(Flag(true))
  {
    map["scale" := Keyframes([Num(1.0), Num(OrNum(opts.scale, 1.05)), Num(1.0)]),
        "duration" := Num(OrNum(opts.duration, Easings.Slow as real)),
        "easing" := Text(Easings.SmoothInOut),
        "loop" := if opts.loop.Some? then opts.loop.value else Flag(true)]
  }

  /** The three defaulting rules of `pulseAnimation`, on the inputs where they differ. */
  lemma PulseDefaults(opts: PulseOptions)
    ensures opts.loop == Some(Flag(false)) ==> PulseParams(opts)["loop"] == Flag(false)
    ensures opts.loop.None? ==> PulseParams(opts)["loop"] == Flag(true)
    ensures opts.scale == Some(0.0) ==> PulseParams(opts)["scale"].frames[1] == Num(1.05)
    ensures opts.duration == Some(0.0) ==> PulseParams(opts)["duration"] == Num(600.0)
  {
  }

  method PulseAnimation(target: Targets, opts: PulseOptions) returns (h: Handle)
    ensures fresh(h) && h.targets == target && h.params == PulseParams(opts)
    ensures h.state == Initial(PulseParams(opts))
  {
    h := new Handle(target, PulseParams(opts));
  }
}
