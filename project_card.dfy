/**
 * `components/animations/AnimatedProjectCard.tsx`: the status lookups, the
 * delays of the entrance tweens, the once-only `hasAnimated` latch, hover
 * state gated by reduced motion, and the conditional progress and ETA
 * sections. Visibility and the reduced-motion preference arrive with each
 * event.
 */
module ProjectCard {
  import opened Wrappers
  import Anime
  import Easings

  datatype ProjectStatus = Completed | InProgress | Upcoming

  function StatusText(s: ProjectStatus): string {
    match s
    case Completed => "Completed"
    case InProgress => "In Progress"
    case Upcoming => "Upcoming"
  }

  function StatusColor(s: ProjectStatus): string {
    match s
    case Completed => "border-green-500 bg-green-500/10"
    case InProgress => "border-cyan-500 bg-cyan-500/10"
    case Upcoming => "border-gray-500 bg-gray-500/10"
  }

  function StatusGlowColor(s: ProjectStatus): string {
    match s
    case Completed => "rgba(0, 255, 0, 0.5)"
    case InProgress => "rgba(0, 255, 255, 0.5)"
    case Upcoming => "rgba(128, 128, 128, 0.3)"
  }

  /** The lookups are total, and each one tells the three statuses apart. */
  lemma StatusLookupsDistinguish(a: ProjectStatus, b: ProjectStatus)
    ensures StatusText(a) != "" && StatusColor(a) != "" && StatusGlowColor(a) != ""
    ensures StatusText(a) == StatusText(b) <==> a == b
    ensures StatusColor(a) == StatusColor(b) <==> a == b
    ensures StatusGlowColor(a) == StatusGlowColor(b) <==> a == b
  {
  }

  // ---------------------------------------------------------------------
  // Entrance delays

  /** `index * durations.stagger`. */
  function CardDelay(index: nat): int {
    index * Easings.Stagger
  }

  /** `stagger(50, {start: index * durations.stagger + 200})` for content child k. */
  function ContentDelay(index: nat, k: nat): int {
    Anime.StaggerDelay(50, CardDelay(index) + 200, k)
  }

  /** `stagger(30, {start: index * durations.stagger + 400})` for tech chip k. */
  function ChipDelay(index: nat, k: nat): int {
    Anime.StaggerDelay(30, CardDelay(index) + 400, k)
  }

  /** The delays in closed form, and the order they impose. */
  lemma DelayArithmetic(index: nat, k: nat)
    ensures CardDelay(index) == 50 * index
    ensures ContentDelay(index, k) == 50 * index + 200 + 50 * k
    ensures ChipDelay(index, k) == 50 * index + 400 + 30 * k
    ensures CardDelay(index) < ContentDelay(index, k) < ContentDelay(index, k + 1)
    ensures CardDelay(index) < ChipDelay(index, k) < ChipDelay(index, k + 1)
    ensures CardDelay(index) < CardDelay(index + 1)
  {
  }

  /** The card, content and chip delays `animateCardEntrance` schedules, by child. */
  datatype Entrance = Entrance(cardDelay: int, contentDelays: Option<seq<int>>, chipDelays: Option<seq<int>>)

  /** `contentChildren`/`chips` are the child counts, `None` when the ref is unattached. */
  function EntranceSchedule(index: nat, contentChildren: Option<nat>, chips: Option<nat>): (e: Entrance)
    ensures e.cardDelay == CardDelay(index)
    ensures e.contentDelays.Some? <==> contentChildren.Some?
    ensures e.chipDelays.Some? <==> chips.Some?
    ensures contentChildren.Some? ==>
      |e.contentDelays.value| == contentChildren.value
      && forall k :: 0 <= k < contentChildren.value ==> e.contentDelays.value[k] == 50 * index + 200 + 50 * k
    ensures chips.Some? ==>
      |e.chipDelays.value| == chips.value
      && forall k :: 0 <= k < chips.value ==> e.chipDelays.value[k] == 50 * index + 400 + 30 * k
  {
    Entrance(
      CardDelay(index),
      if contentChildren.Some? then Some(seq(contentChildren.value, k requires 0 <= k => ContentDelay(index, k))) else None,
      if chips.Some? then Some(seq(chips.value, k requires 0 <= k => ChipDelay(index, k))) else None)
  }

  // ---------------------------------------------------------------------
  // Entrance latch and hover state

  /** `hasAnimated`, `isHovered`, and how many times `animateCardEntrance` ran. */
  datatype CardState = CardState(hasAnimated: bool, isHovered: bool, entrances: nat)

  const InitialCard := CardState(false, false, 0)

  datatype CardEvent =
    | Visibility(visible: bool, reducedMotion: bool)  // the entrance effect runs
    | MouseEnter(reducedMotion: bool)
    | MouseLeave(reducedMotion: bool)
    | MouseMove(reducedMotion: bool)

  function CardStep(s: CardState, e: CardEvent): CardState {
    match e
    case Visibility(v, rm) =>
      if v && !s.hasAnimated && !rm then s.(hasAnimated := true, entrances := s.entrances + 1) else s
    case MouseEnter(rm) => if rm then s else s.(isHovered := true)
    case MouseLeave(rm) => if rm then s else s.(isHovered := false)
    case MouseMove(_) => s
  }

  function CardRun(s: CardState, evs: seq<CardEvent>): CardState
    decreases |evs|
  {
    if evs == [] then s else CardRun(CardStep(s, evs[0]), evs[1..])
  }

  /** `handleMouseMove` tilts the card only while hovered and without reduced motion. */
  predicate Tilts(s: CardState, reducedMotion: bool) {
    !reducedMotion && s.isHovered
  }

  ghost predicate LatchInv(s: CardState) {
    s.entrances <= (if s.hasAnimated then 1 else 0)
  }

  /** The entrance fires only on a visible event without reduced motion, before any other entrance. */
  lemma EntranceNeedsVisibility(s: CardState, e: CardEvent)
    requires CardStep(s, e).entrances > s.entrances
    ensures e == Visibility(true, false) && !s.hasAnimated
  {
  }

  /** Whatever happens, a card runs its entrance at most once. */
  lemma {:induction false} EntranceAtMostOnce(s: CardState, evs: seq<CardEvent>)
    requires LatchInv(s)
    ensures LatchInv(CardRun(s, evs)) && CardRun(s, evs).entrances <= 1
    ensures s.hasAnimated ==> CardRun(s, evs).entrances == s.entrances
    decreases |evs|
  {
    if evs != [] {
      EntranceAtMostOnce(CardStep(s, evs[0]), evs[1..]);
    }
  }

  predicate ReducedMotionEvent(e: CardEvent) {
    e.reducedMotion
  }

  /** Under reduced motion nothing changes: no entrance and no hover state. */
  lemma {:induction false} ReducedMotionFreezesCard(s: CardState, evs: seq<CardEvent>)
    requires forall k :: 0 <= k < |evs| ==> ReducedMotionEvent(evs[k])
    ensures CardRun(s, evs) == s
    decreases |evs|
  {
    if evs != [] {
      assert ReducedMotionEvent(evs[0]);
      ReducedMotionFreezesCard(CardStep(s, evs[0]), evs[1..]);
    }
  }

  /**
   * The hover flag as the latest enter or leave made without reduced motion
   * sets it, read from the end of the trace; `h` when there is none.
   */
  function LastHover(h: bool, evs: seq<CardEvent>): bool
    decreases |evs|
  {
    if evs == [] then h
    else
      var e := evs[|evs| - 1];
      if e.MouseEnter? && !e.reducedMotion then true
      else if e.MouseLeave? && !e.reducedMotion then false
      else LastHover(h, evs[..|evs| - 1])
  }

  /** Running a trace and then one more event is one step after the run. */
  lemma {:induction false} CardRunSnoc(s: CardState, evs: seq<CardEvent>, e: CardEvent)
    ensures CardRun(s, evs + [e]) == CardStep(CardRun(s, evs), e)
    decreases |evs|
  {
    if evs != [] {
      assert (evs + [e])[1..] == evs[1..] + [e];
      CardRunSnoc(CardStep(s, evs[0]), evs[1..], e);
    }
  }

  /**
   * Hover follows the latest enter/leave made without reduced motion, and
   * a mouse move tilts the card exactly when that was an enter.
   */
  lemma {:induction false} HoverTracksMouse(s: CardState, evs: seq<CardEvent>, rm: bool)
    ensures CardStep(s, MouseEnter(false)).isHovered && Tilts(CardStep(s, MouseEnter(false)), false)
    ensures !CardStep(s, MouseLeave(false)).isHovered && !Tilts(CardStep(s, MouseLeave(false)), false)
    ensures CardRun(s, evs).isHovered == LastHover(s.isHovered, evs)
    ensures Tilts(CardRun(s, evs), rm) <==> !rm && LastHover(s.isHovered, evs)
    decreases |evs|
  {
    if evs != [] {
      var init, e := evs[..|evs| - 1], evs[|evs| - 1];
      assert evs == init + [e];
      CardRunSnoc(s, init, e);
      HoverTracksMouse(s, init, rm);
    }
  }

  // ---------------------------------------------------------------------
  // Conditional sections

  /** What a `{cond && value && <section/>}` slot puts on the page. */
  datatype Slot = Empty | StrayText(text: string) | Section

  /**
   * The progress slot as written. With an in-progress status and
   * `progress` 0 the expression evaluates to the number 0, which is
   * rendered as the text "0".
   */
  function ProgressSlotAsWritten(status: ProjectStatus, progress: Option<int>): Slot {
    if status != InProgress then Empty
    else if progress.None? then Empty
    else if progress.value == 0 then StrayText("0")
    else Section
  }

  lemma ZeroProgressRendersStrayZero()
    ensures ProgressSlotAsWritten(InProgress, Some(0)) == StrayText("0")
  {
  }

  /** The progress slot as intended: the bar for in-progress cards with a non-zero progress, else nothing. */
  function ProgressSlot(status: ProjectStatus, progress: Option<int>): Slot {
    if status == InProgress && progress.Some? && progress.value != 0 then Section else Empty
  }

  lemma ProgressSlotShownIff(status: ProjectStatus, progress: Option<int>)
    ensures ProgressSlot(status, progress) != Section ==> ProgressSlot(status, progress) == Empty
    ensures ProgressSlot(status, progress) == Section <==> status == InProgress && progress.Some? && progress.value != 0
    ensures progress != Some(0) ==> ProgressSlot(status, progress) == ProgressSlotAsWritten(status, progress)
  {
  }

  /** The ETA slot: an empty string is rendered as nothing, so only present, non-empty ETAs show. */
  function EtaSlot(status: ProjectStatus, eta: Option<string>): Slot {
    if status == InProgress && eta.Some? && eta.value != "" then Section else Empty
  }

  lemma EtaSlotShownIff(status: ProjectStatus, eta: Option<string>)
    ensures EtaSlot(status, eta) != Section ==> EtaSlot(status, eta) == Empty
    ensures EtaSlot(status, eta) == Section <==> status == InProgress && eta.Some? && eta.value != ""
  {
  }

  /** A card's refs and state. */
  class Card {
    const index: nat
    var hasAnimated: bool
    var isHovered: bool
    ghost var entrances: nat

    ghost function Model(): CardState
      reads this
    {
      CardState(hasAnimated, isHovered, entrances)
    }

    constructor (index: nat)
      ensures this.index == index && Model() == InitialCard
    {
      this.index := index;
      hasAnimated := false;
      isHovered := false;
      entrances := 0;
    }

    /** The entrance effect; returns the tweens' delays when the card element is attached. */
    method RunEntranceEffect(isVisible: bool, reducedMotion: bool, cardAttached: bool,
                             contentChildren: Option<nat>, chips: Option<nat>) returns (scheduled: Option<Entrance>)
      modifies this
      ensures Model() == CardStep(old(Model()), Visibility(isVisible, reducedMotion))
      ensures scheduled.Some? <==> entrances > old(entrances) && cardAttached
      ensures scheduled.Some? ==> scheduled.value == EntranceSchedule(index, contentChildren, chips)
    {
      scheduled := None;
      if isVisible && !hasAnimated && !reducedMotion {
        hasAnimated := true;
        entrances := entrances + 1;
        if cardAttached {
          scheduled := Some(EntranceSchedule(index, contentChildren, chips));
        }
      }
    }

    method HandleMouseEnter(reducedMotion: bool)
      modifies this
      ensures Model() == CardStep(old(Model()), MouseEnter(reducedMotion))
    {
      if reducedMotion {
        return;
      }
      isHovered := true;
    }

    method HandleMouseLeave(reducedMotion: bool)
      modifies this
      ensures Model() == CardStep(old(Model()), MouseLeave(reducedMotion))
    {
      if reducedMotion {
        return;
      }
      isHovered := false;
    }

    /** Returns whether a tilt tween is created. */
    method HandleMouseMove(reducedMotion: bool, cardAttached: bool) returns (tilted: bool)
      ensures tilted <==> Tilts(Model(), reducedMotion) && cardAttached
    {
      if reducedMotion || !isHovered {
        return false;
      }
      tilted := cardAttached;
    }
  }
}
