/**
 * `components/animations/AnimatedHero.tsx`: the title split into word and
 * character spans, the floating particles, the timeline's segments, and the
 * reduced-motion gate on the effect and the button handlers. Tween
 * parameters are not modelled; the `Math.random()` results for a particle
 * are an input record.
 */
module Hero {
  import Easings

  // ---------------------------------------------------------------------
  // Splitting on " "

  /** JavaScript `s.split(" ")`: every space separates, so empty pieces are kept. */
  function Split(s: string): (ws: seq<string>)
    ensures |ws| >= 1
    ensures forall k :: 0 <= k < |ws| ==> ' ' !in ws[k]
    decreases |s|
  {
    if s == [] then [""]
    else if s[0] == ' ' then [""] + Split(s[1..])
    else
      var r := Split(s[1..]);
      [[s[0]] + r[0]] + r[1..]
  }

  /** `ws.join(" ")`. */
  function Join(ws: seq<string>): string
    requires |ws| >= 1
    decreases |ws|
  {
    if |ws| == 1 then ws[0] else ws[0] + " " + Join(ws[1..])
  }

  lemma JoinPrepend(c: char, r: seq<string>)
    requires |r| >= 1
    ensures Join([[c] + r[0]] + r[1..]) == [c] + Join(r)
  {
    var ws := [[c] + r[0]] + r[1..];
    assert |ws| == |r| && ws[0] == [c] + r[0] && ws[1..] == r[1..];
    if |r| > 1 {
      var t := Join(r[1..]);
      assert Join(ws) == ws[0] + " " + t;
      assert Join(r) == r[0] + " " + t;
      PrependAssoc(c, r[0], t);
    }
  }

  lemma PrependAssoc(c: char, a: string, t: string)
    ensures ([c] + a) + " " + t == [c] + (a + " " + t)
  {
  }

  /** Joining the pieces with " " gives back the original text. */
  lemma {:induction false} JoinSplit(s: string)
    ensures Join(Split(s)) == s
    decreases |s|
  {
    if s != [] {
      JoinSplit(s[1..]);
      if s[0] == ' ' {
        assert ([""] + Split(s[1..]))[1..] == Split(s[1..]);
      } else {
        JoinPrepend(s[0], Split(s[1..]));
      }
    }
  }

  lemma {:induction false} SplitPrefix(w: string, t: string)
    requires ' ' !in w
    ensures Split(w + t) == [w + Split(t)[0]] + Split(t)[1..]
    decreases |w|
  {
    if w == [] {
      assert w + t == t && w + Split(t)[0] == Split(t)[0];
      assert Split(t) == [Split(t)[0]] + Split(t)[1..];
    } else {
      assert (w + t)[0] == w[0] && (w + t)[1..] == w[1..] + t;
      assert w[0] != ' ' && ' ' !in w[1..];
      SplitPrefix(w[1..], t);
      var r := Split(w[1..] + t);
      assert r[0] == w[1..] + Split(t)[0] && r[1..] == Split(t)[1..];
      assert [w[0]] + (w[1..] + Split(t)[0]) == w + Split(t)[0];
    }
  }

  /** Splitting a " "-join of space-free pieces gives back the pieces. */
  lemma {:induction false} SplitJoin(ws: seq<string>)
    requires |ws| >= 1 && forall k :: 0 <= k < |ws| ==> ' ' !in ws[k]
    ensures Split(Join(ws)) == ws
    decreases |ws|
  {
    if |ws| == 1 {
      SplitPrefix(ws[0], "");
      assert ws[0] + "" == ws[0];
    } else {
      SplitJoin(ws[1..]);
      var t := Join(ws[1..]);
      assert ws[0] + " " + t == ws[0] + (" " + t);
      SplitPrefix(ws[0], " " + t);
      assert (" " + t)[1..] == t;
      assert Split(" " + t) == [""] + ws[1..];
      assert ws[0] + "" == ws[0];
    }
  }

  function RemoveSpaces(s: string): string
    decreases |s|
  {
    if s == [] then [] else (if s[0] == ' ' then [] else [s[0]]) + RemoveSpaces(s[1..])
  }

  function Concat(ws: seq<string>): string
    decreases |ws|
  {
    if ws == [] then [] else ws[0] + Concat(ws[1..])
  }

  /** The pieces hold every character but the spaces. */
  lemma {:induction false} ConcatSplit(s: string)
    ensures Concat(Split(s)) == RemoveSpaces(s)
    decreases |s|
  {
    if s != [] {
      ConcatSplit(s[1..]);
      var r := Split(s[1..]);
      if s[0] == ' ' {
        assert ([""] + r)[1..] == r;
      } else {
        var ws := [[s[0]] + r[0]] + r[1..];
        assert ws[1..] == r[1..];
        assert Concat(r) == r[0] + Concat(r[1..]);
      }
    }
  }

  lemma {:induction false} NoSpacesLeft(s: string)
    ensures ' ' !in RemoveSpaces(s)
    decreases |s|
  {
    if s != [] {
      NoSpacesLeft(s[1..]);
    }
  }

  /** A space-free text is a single piece. */
  lemma SplitSpaceFree(w: string)
    requires ' ' !in w
    ensures Split(w) == [w]
  {
    SplitPrefix(w, "");
    assert w + "" == w;
  }

  // ---------------------------------------------------------------------
  // The title's spans

  /** A character span (built hidden, at opacity 0). */
  datatype CharSpan = CharSpan(ch: char)

  /** A word span: an inline block holding one span per character. */
  datatype WordSpan = WordSpan(chars: seq<CharSpan>)

  function CharSpans(w: string): (cs: seq<CharSpan>)
    ensures |cs| == |w| && forall k :: 0 <= k < |w| ==> cs[k].ch == w[k]
  {
    seq(|w|, k requires 0 <= k < |w| => CharSpan(w[k]))
  }

  function WordSpans(ws: seq<string>): (spans: seq<WordSpan>)
    ensures |spans| == |ws| && forall k :: 0 <= k < |ws| ==> spans[k].chars == CharSpans(ws[k])
  {
    seq(|ws|, k requires 0 <= k < |ws| => WordSpan(CharSpans(ws[k])))
  }

  function CharsText(cs: seq<CharSpan>): string {
    seq(|cs|, k requires 0 <= k < |cs| => cs[k].ch)
  }

  /** The `textContent` of a list of word spans. */
  function SpansText(spans: seq<WordSpan>): string
    decreases |spans|
  {
    if spans == [] then [] else CharsText(spans[0].chars) + SpansText(spans[1..])
  }

  lemma {:induction false} SpansTextOfWords(ws: seq<string>)
    ensures SpansText(WordSpans(ws)) == Concat(ws)
    decreases |ws|
  {
    if ws != [] {
      SpansTextOfWords(ws[1..]);
      assert WordSpans(ws)[1..] == WordSpans(ws[1..]);
      assert CharsText(CharSpans(ws[0])) == ws[0];
    }
  }

  /**
   * The rebuilt title has one word span per piece and one character span per
   * character in order; its text is the original without its spaces, so
   * splitting it again yields a single word.
   */
  lemma TitleRebuild(s: string)
    ensures |WordSpans(Split(s))| == |Split(s)|
    ensures SpansText(WordSpans(Split(s))) == RemoveSpaces(s)
    ensures Split(SpansText(WordSpans(Split(s)))) == [RemoveSpaces(s)]
  {
    SpansTextOfWords(Split(s));
    ConcatSplit(s);
    NoSpacesLeft(s);
    SplitSpaceFree(RemoveSpaces(s));
  }

  /** The text of each word span. */
  function WordTexts(spans: seq<WordSpan>): (ws: seq<string>)
    ensures |ws| == |spans| && forall k :: 0 <= k < |spans| ==> ws[k] == CharsText(spans[k].chars)
  {
    seq(|spans|, k requires 0 <= k < |spans| => CharsText(spans[k].chars))
  }

  /**
   * The title text a re-run evidently intends to read from the rebuilt
   * spans: the words joined by the spaces that the spans only show as a
   * margin.
   */
  function IntendedTitleText(spans: seq<WordSpan>): string
    requires |spans| >= 1
  {
    Join(WordTexts(spans))
  }

  /** Reading the rebuilt title as intended gives back the original, so a re-run rebuilds the same spans. */
  lemma IntendedRerunIsStable(s: string)
    ensures IntendedTitleText(WordSpans(Split(s))) == s
    ensures WordSpans(Split(IntendedTitleText(WordSpans(Split(s))))) == WordSpans(Split(s))
  {
    var ws := Split(s);
    forall k | 0 <= k < |ws| ensures WordTexts(WordSpans(ws))[k] == ws[k] {
      assert CharsText(CharSpans(ws[k])) == ws[k];
    }
    assert WordTexts(WordSpans(ws)) == ws;
    JoinSplit(s);
  }

  /** The title's text once it holds only the rebuilt spans. */
  lemma RebuiltText(s: string)
    ensures "" + SpansText(WordSpans(Split(s))) == RemoveSpaces(s)
  {
    TitleRebuild(s);
    assert "" + SpansText(WordSpans(Split(s))) == SpansText(WordSpans(Split(s)));
  }

  /** The `<h1>`: its own text node and the spans appended to it. */
  class TitleElement {
    var text: string
    var children: seq<WordSpan>
    var opacity: string

    function TextContent(): string
      reads this
    {
      text + SpansText(children)
    }

    constructor (text: string)
      ensures this.text == text && children == [] && opacity == "0"
    {
      this.text := text;
      children := [];
      opacity := "0";
    }

    /** Clear the title, show it, and append a word span of character spans per piece. */
    method SplitIntoSpans()
      modifies this
      ensures text == "" && opacity == "1"
      ensures children == WordSpans(Split(old(TextContent())))
      ensures TextContent() == RemoveSpaces(old(TextContent()))
    {
      var titleText := TextContent();
      text := "";
      children := [];
      opacity := "1";
      var words := Split(titleText);
      var i := 0;
      while i < |words|
        invariant 0 <= i <= |words|
        invariant text == "" && opacity == "1"
        invariant children == WordSpans(words[..i])
      {
        var chars := BuildCharSpans(words[i]);
        assert WordSpans(words[..i + 1]) == WordSpans(words[..i]) + [WordSpan(chars)];
        children := children + [WordSpan(chars)];
        i := i + 1;
      }
      assert words[..i] == words;
      RebuiltText(titleText);
    }
  }

  /** The inner `forEach`: one character span per character of a piece, appended in order. */
  method BuildCharSpans(word: string) returns (chars: seq<CharSpan>)
    ensures chars == CharSpans(word)
  {
    chars := [];
    var j := 0;
    while j < |word|
      invariant 0 <= j <= |word|
      invariant chars == CharSpans(word[..j])
    {
      chars := chars + [CharSpan(word[j])];
      j := j + 1;
    }
    assert word[..j] == word;
  }

  // ---------------------------------------------------------------------
  // Floating particles

  const ParticleColors: seq<string> := ["#00ff00", "#00ffff", "#00ff88"]
  const ParticleCount: nat := 15

  /** The three `Math.random()` results a particle consumes: colour, left, top. */
  datatype ParticleDraw = ParticleDraw(color: real, left: real, top: real)

  predicate ValidDraw(d: ParticleDraw) {
    0.0 <= d.color < 1.0 && 0.0 <= d.left < 1.0 && 0.0 <= d.top < 1.0
  }

  /** `Math.floor(Math.random() * colors.length)`. */
  function ColorIndex(r: real): (k: int)
    requires 0.0 <= r < 1.0
    ensures 0 <= k < |ParticleColors|
  {
    (r * |ParticleColors| as real).Floor
  }

  /** A particle: its colour and its position in percent. */
  datatype Particle = Particle(color: string, left: real, top: real)

  function MakeParticle(d: ParticleDraw): (p: Particle)
    requires ValidDraw(d)
    ensures p.color in ParticleColors && 0.0 <= p.left < 100.0 && 0.0 <= p.top < 100.0
  {
    Particle(ParticleColors[ColorIndex(d.color)], d.left * 100.0, d.top * 100.0)
  }

  /** The container the particles are appended to. */
  class ParticleLayer {
    var particles: seq<Particle>

    constructor ()
      ensures particles == []
    {
      particles := [];
    }

    /** Append one particle per draw, in order. */
    method AppendParticles(draws: seq<ParticleDraw>)
      requires forall k :: 0 <= k < |draws| ==> ValidDraw(draws[k])
      modifies this
      ensures |particles| == |old(particles)| + |draws|
      ensures particles[..|old(particles)|] == old(particles)
      ensures forall k :: 0 <= k < |draws| ==> particles[|old(particles)| + k] == MakeParticle(draws[k])
    {
      var i := 0;
      while i < |draws|
        invariant 0 <= i <= |draws|
        invariant |particles| == |old(particles)| + i
        invariant particles[..|old(particles)|] == old(particles)
        invariant forall k :: 0 <= k < i ==> particles[|old(particles)| + k] == MakeParticle(draws[k])
      {
        particles := particles + [MakeParticle(draws[i])];
        i := i + 1;
      }
    }
  }

  // ---------------------------------------------------------------------
  // The timeline and the handlers

  /** The parts the timeline animates, in the order they are added. */
  datatype Segment = TitleChars | Subtitle | Buttons

  function TimelineSegments(title: bool, subtitle: bool, buttons: bool): (segs: seq<Segment>)
    ensures TitleChars in segs <==> title
    ensures Subtitle in segs <==> subtitle
    ensures Buttons in segs <==> buttons
    ensures |segs| <= 3
    ensures forall j, k :: 0 <= j < k < |segs| ==> SegmentRank(segs[j]) < SegmentRank(segs[k])
  {
    (if title then [TitleChars] else []) + (if subtitle then [Subtitle] else []) + (if buttons then [Buttons] else [])
  }

  function SegmentRank(s: Segment): nat {
    match s
    case TitleChars => 0
    case Subtitle => 1
    case Buttons => 2
  }

  /**
   * The elements the effect and its cleanup address: the three containers,
   * the `i`-th character span inside the heading (`span span`) and the
   * `i`-th button inside the container.
   */
  datatype Element = TitleHeading | TitleCharSpan(i: nat) | SubtitleParagraph | ButtonsContainer | Button(i: nat)

  predicate IsContainer(e: Element) {
    e == TitleHeading || e == SubtitleParagraph || e == ButtonsContainer
  }

  function ContainerRank(e: Element): nat {
    match e
    case TitleHeading => 0
    case SubtitleParagraph => 1
    case ButtonsContainer => 2
    case _ => 3
  }

  /** The targets of each segment, for a title of `chars` characters and `buttons` buttons. */
  function SegmentTargets(s: Segment, chars: nat, buttons: nat): (t: seq<Element>)
    ensures s == TitleChars ==> |t| == chars && forall i :: 0 <= i < chars ==> t[i] == TitleCharSpan(i)
    ensures s == Subtitle ==> t == [SubtitleParagraph]
    ensures s == Buttons ==> |t| == buttons && forall i :: 0 <= i < buttons ==> t[i] == Button(i)
  {
    match s
    case TitleChars => seq(chars, i requires 0 <= i < chars => TitleCharSpan(i))
    case Subtitle => [SubtitleParagraph]
    case Buttons => seq(buttons, i requires 0 <= i < buttons => Button(i))
  }

  /**
   * Tweens are removed by target. Removing only containers reaches no
   * character span and no button, so of the timeline's segments only the
   * subtitle's can be stopped.
   */
  lemma CleanupStopsOnlySubtitle(removed: seq<Element>, chars: nat, buttons: nat, s: Segment, e: Element)
    requires forall j :: 0 <= j < |removed| ==> IsContainer(removed[j])
    requires e in SegmentTargets(s, chars, buttons) && e in removed
    ensures s == Subtitle && e == SubtitleParagraph
  {
    var j :| 0 <= j < |removed| && removed[j] == e;
    assert IsContainer(removed[j]);
  }

  /** The cleanup the effect evidently intends: every target the timeline was given. */
  function IntendedCleanupTargets(segs: seq<Segment>, chars: nat, buttons: nat): seq<Element>
    decreases |segs|
  {
    if segs == [] then [] else SegmentTargets(segs[0], chars, buttons) + IntendedCleanupTargets(segs[1..], chars, buttons)
  }

  /** The intended cleanup removes every target of every segment, and nothing the timeline did not animate. */
  lemma {:induction false} IntendedCleanupStopsAll(segs: seq<Segment>, chars: nat, buttons: nat)
    ensures forall s, e :: s in segs && e in SegmentTargets(s, chars, buttons) ==>
      e in IntendedCleanupTargets(segs, chars, buttons)
    ensures forall e :: e in IntendedCleanupTargets(segs, chars, buttons) ==>
      exists s :: s in segs && e in SegmentTargets(s, chars, buttons)
    decreases |segs|
  {
    if segs != [] {
      IntendedCleanupStopsAll(segs[1..], chars, buttons);
      var rest := IntendedCleanupTargets(segs[1..], chars, buttons);
      assert IntendedCleanupTargets(segs, chars, buttons) == SegmentTargets(segs[0], chars, buttons) + rest;
      forall s, e | s in segs && e in SegmentTargets(s, chars, buttons)
        ensures e in IntendedCleanupTargets(segs, chars, buttons)
      {
        if s != segs[0] {
          assert s in segs[1..];
        }
      }
      forall e | e in IntendedCleanupTargets(segs, chars, buttons)
        ensures exists s :: s in segs && e in SegmentTargets(s, chars, buttons)
      {
        if e !in SegmentTargets(segs[0], chars, buttons) {
          var s :| s in segs[1..] && e in SegmentTargets(s, chars, buttons);
          assert s in segs;
        }
      }
    }
  }

  /** What a button handler does: a scale tween (to a value, over a duration), a bounce, a ripple. */
  datatype ButtonAction = ScaleTo(scale: real, duration: nat) | Bounce | Ripple

  function OnButtonHover(reducedMotion: bool): (r: seq<ButtonAction>)
    ensures r == [] <==> reducedMotion
    ensures !reducedMotion ==> r == [ScaleTo(1.05, Easings.Fast)]
  {
    if reducedMotion then [] else [ScaleTo(1.05, Easings.Fast)]
  }

  function OnButtonLeave(reducedMotion: bool): (r: seq<ButtonAction>)
    ensures r == [] <==> reducedMotion
    ensures !reducedMotion ==> r == [ScaleTo(1.0, Easings.Normal)]
  {
    if reducedMotion then [] else [ScaleTo(1.0, Easings.Normal)]
  }

  function OnButtonClick(reducedMotion: bool): (r: seq<ButtonAction>)
    ensures r == [] <==> reducedMotion
    ensures !reducedMotion ==> Bounce in r && Ripple in r
  {
    if reducedMotion then [] else [Bounce, Ripple]
  }

  /**
   * The button's scale once the tweens of `actions` have run, starting
   * from `scale`: a scale tween ends at its value, the bounce's keyframes
   * end at 1, and the ripple animates its own element.
   */
  function ScaleAfter(scale: real, actions: seq<ButtonAction>): real
    decreases |actions|
  {
    if actions == [] then scale else ScaleAfter(ScaleStep(scale, actions[0]), actions[1..])
  }

  function ScaleStep(scale: real, a: ButtonAction): real {
    match a
    case ScaleTo(x, _) => x
    case Bounce => 1.0
    case Ripple => scale
  }

  /** Running two batches of tweens one after the other. */
  lemma {:induction false} ScaleAfterAppend(scale: real, a: seq<ButtonAction>, b: seq<ButtonAction>)
    ensures ScaleAfter(scale, a + b) == ScaleAfter(ScaleAfter(scale, a), b)
    decreases |a|
  {
    if a != [] {
      assert (a + b)[0] == a[0] && (a + b)[1..] == a[1..] + b;
      ScaleAfterAppend(ScaleStep(scale, a[0]), a[1..], b);
    } else {
      assert a + b == b;
    }
  }

  /**
   * Hovering enlarges the button to 1.05 and leaving (or clicking) brings
   * it back to 1, whatever the scale before; under reduced motion the
   * handlers leave the scale alone.
   */
  lemma HandlersRestoreScale(reducedMotion: bool, scale: real)
    ensures ScaleAfter(scale, OnButtonHover(reducedMotion)) == (if reducedMotion then scale else 1.05)
    ensures ScaleAfter(scale, OnButtonHover(reducedMotion) + OnButtonLeave(reducedMotion))
      == (if reducedMotion then scale else 1.0)
    ensures ScaleAfter(scale, OnButtonClick(reducedMotion)) == (if reducedMotion then scale else 1.0)
  {
    ScaleAfterAppend(scale, OnButtonHover(reducedMotion), OnButtonLeave(reducedMotion));
    if !reducedMotion {
      assert OnButtonClick(reducedMotion)[1..] == [Ripple];
      assert OnButtonClick(reducedMotion)[1..][1..] == [];
      assert OnButtonHover(reducedMotion)[1..] == [];
    }
  }

  /** The hero section's refs. */
  class HeroSection {
    const title: TitleElement?
    const subtitleAttached: bool
    const buttonsAttached: bool
    const layer: ParticleLayer?

    constructor (title: TitleElement?, subtitleAttached: bool, buttonsAttached: bool, layer: ParticleLayer?)
      ensures this.title == title && this.subtitleAttached == subtitleAttached
      ensures this.buttonsAttached == buttonsAttached && this.layer == layer
    {
      this.title := title;
      this.subtitleAttached := subtitleAttached;
      this.buttonsAttached := buttonsAttached;
      this.layer := layer;
    }

    /**
     * The effect: under reduced motion it returns before touching anything.
     * Otherwise the title is split, the timeline gets its segments, and 15
     * particles are appended.
     */
    method RunEffect(reducedMotion: bool, draws: seq<ParticleDraw>) returns (timeline: seq<Segment>)
      requires |draws| == ParticleCount && forall k :: 0 <= k < |draws| ==> ValidDraw(draws[k])
      modifies if title != null then {title} else {}
      modifies if layer != null then {layer} else {}
      ensures reducedMotion ==> timeline == []
      ensures reducedMotion && title != null ==>
        title.text == old(title.text) && title.children == old(title.children) && title.opacity == old(title.opacity)
      ensures reducedMotion && layer != null ==> layer.particles == old(layer.particles)
      ensures !reducedMotion ==> timeline == TimelineSegments(title != null, subtitleAttached, buttonsAttached)
      ensures !reducedMotion && title != null ==>
        title.children == WordSpans(Split(old(title.TextContent()))) && title.opacity == "1"
        && title.TextContent() == RemoveSpaces(old(title.TextContent()))
      ensures !reducedMotion && layer != null ==>
        |layer.particles| == |old(layer.particles)| + ParticleCount
        && layer.particles[..|old(layer.particles)|] == old(layer.particles)
        && forall k :: 0 <= k < ParticleCount ==> layer.particles[|old(layer.particles)| + k] == MakeParticle(draws[k])
    {
      if reducedMotion {
        return [];
      }
      if title != null {
        title.SplitIntoSpans();
      }
      timeline := TimelineSegments(title != null, subtitleAttached, buttonsAttached);
      if layer != null {
        layer.AppendParticles(draws);
      }
    }

    /**
     * The cleanup passes the attached containers to `utils.remove`: the
     * heading, the subtitle paragraph and the buttons' container, in that
     * order. The particles stay.
     */
    method RunCleanup() returns (removed: seq<Element>)
      ensures TitleHeading in removed <==> title != null
      ensures SubtitleParagraph in removed <==> subtitleAttached
      ensures ButtonsContainer in removed <==> buttonsAttached
      ensures forall j :: 0 <= j < |removed| ==> IsContainer(removed[j])
      ensures forall j, k :: 0 <= j < k < |removed| ==> ContainerRank(removed[j]) < ContainerRank(removed[k])
    {
      removed := [];
      if title != null {
        removed := removed + [TitleHeading];
      }
      if subtitleAttached {
        removed := removed + [SubtitleParagraph];
      }
      if buttonsAttached {
        removed := removed + [ButtonsContainer];
      }
    }
  }
}
