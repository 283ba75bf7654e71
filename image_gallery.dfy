/**
 * `components/ui/ImageGallery.tsx`: the image items built from the
 * screenshot list, and the lightbox state (a nullable selected index plus
 * an open flag) moved by thumbnails, prev/next buttons, dots, key presses
 * and the dialog. The 200 ms clearing timer is a pending event that fires
 * later.
 */
module ImageGallery {
  import opened Wrappers

  // ---------------------------------------------------------------------
  // Decimal rendering of numbers in template strings

  function DigitChar(d: nat): char
    requires d < 10
  {
    "0123456789"[d]
  }

  /** JavaScript's decimal rendering of a non-negative integer. */
  function NatToString(n: nat): (s: string)
    ensures |s| >= 1
    ensures n < 10 <==> |s| == 1
    decreases n
  {
    if n < 10 then [DigitChar(n)] else NatToString(n / 10) + [DigitChar(n % 10)]
  }

  /** Distinct numbers render differently. */
  lemma {:induction false} NatToStringInjective(a: nat, b: nat)
    requires NatToString(a) == NatToString(b)
    ensures a == b
    decreases a
  {
    if a >= 10 && b >= 10 {
      var sa, sb := NatToString(a), NatToString(b);
      assert sa[|sa| - 1] == DigitChar(a % 10) && sb[|sb| - 1] == DigitChar(b % 10);
      assert sa[..|sa| - 1] == NatToString(a / 10);
      assert sb[..|sb| - 1] == NatToString(b / 10);
      NatToStringInjective(a / 10, b / 10);
    }
  }

  // ---------------------------------------------------------------------
  // Image items

  datatype ImageItem = ImageItem(src: string, alt: string, title: string)

  /** `images.map((src, index) => ...)`: one item per screenshot, numbered from 1. */
  function ImageItems(title: string, images: seq<string>): (items: seq<ImageItem>)
    ensures |items| == |images|
    ensures forall i :: 0 <= i < |images| ==> items[i].src == images[i]
    ensures forall i :: 0 <= i < |images| ==>
      items[i].alt == title + " screenshot " + NatToString(i + 1)
    ensures forall i :: 0 <= i < |images| ==>
      items[i].title == title + " - Screenshot " + NatToString(i + 1)
  {
    seq(|images|, i requires 0 <= i < |images| =>
      ImageItem(images[i], title + " screenshot " + NatToString(i + 1), title + " - Screenshot " + NatToString(i + 1)))
  }

  /** A common prefix can be cancelled. */
  lemma CancelPrefix(p: string, x: string, y: string)
    requires p + x == p + y
    ensures x == y
  {
    assert x == (p + x)[|p|..];
    assert y == (p + y)[|p|..];
  }

  /** Every screenshot gets its own title, even when the sources repeat. */
  lemma ItemTitlesDistinct(title: string, images: seq<string>, i: nat, j: nat)
    requires i < |images| && j < |images| && i != j
    ensures ImageItems(title, images)[i].title != ImageItems(title, images)[j].title
  {
    var items := ImageItems(title, images);
    var p, x, y := title + " - Screenshot ", NatToString(i + 1), NatToString(j + 1);
    assert items[i].title == p + x && items[j].title == p + y;
    if p + x == p + y {
      CancelPrefix(p, x, y);
      NatToStringInjective(i + 1, j + 1);
    }
  }

  // ---------------------------------------------------------------------
  // Lightbox state

  /**
   * `selectedImage`, `isOpen`, and the number of clearing timers that
   * `closeLightbox` scheduled and that have not fired yet.
   */
  datatype Lightbox = Lightbox(selected: Option<nat>, isOpen: bool, pendingClears: nat)

  const InitialLightbox := Lightbox(None, false, 0)

  /** The invariant the handlers keep: a selected index names an image. */
  predicate InRange(s: Lightbox, n: nat) {
    s.selected.Some? ==> s.selected.value < n
  }

  function OpenLightbox(s: Lightbox, index: nat): (r: Lightbox)
    ensures r.selected == Some(index) && r.isOpen && r.pendingClears == s.pendingClears
  {
    s.(selected := Some(index), isOpen := true)
  }

  /** Closes at once; the selection is cleared only when the timer fires. */
  function CloseLightbox(s: Lightbox): (r: Lightbox)
    ensures !r.isOpen && r.selected == s.selected && r.pendingClears == s.pendingClears + 1
  {
    s.(isOpen := false, pendingClears := s.pendingClears + 1)
  }

  /** One pending `setSelectedImage(null)` runs. */
  function ClearTimerFires(s: Lightbox): (r: Lightbox)
    ensures s.pendingClears == 0 ==> r == s
    ensures s.pendingClears > 0 ==> r.selected.None? && r.isOpen == s.isOpen && r.pendingClears == s.pendingClears - 1
  {
    if s.pendingClears == 0 then s else s.(selected := None, pendingClears := s.pendingClears - 1)
  }

  function GoToPrevious(s: Lightbox): Lightbox {
    if s.selected.Some? && s.selected.value > 0 then s.(selected := Some(s.selected.value - 1)) else s
  }

  function GoToNext(s: Lightbox, n: nat): Lightbox {
    if s.selected.Some? && s.selected.value < n - 1 then s.(selected := Some(s.selected.value + 1)) else s
  }

  /** A counter dot selects its image directly. */
  function SelectDot(s: Lightbox, index: nat): (r: Lightbox)
    ensures r == s.(selected := Some(index))
  {
    s.(selected := Some(index))
  }

  /** The dialog's `onOpenChange` (close button, overlay, its own Escape) only sets the flag. */
  function DialogOpenChange(s: Lightbox, open: bool): (r: Lightbox)
    ensures r == s.(isOpen := open)
  {
    s.(isOpen := open)
  }

  /** The keydown listener exists only while the lightbox is open. */
  function KeyDown(s: Lightbox, n: nat, key: string): Lightbox {
    if !s.isOpen then s
    else if key == "ArrowLeft" then GoToPrevious(s)
    else if key == "ArrowRight" then GoToNext(s, n)
    else if key == "Escape" then CloseLightbox(s)
    else s
  }

  lemma PreviousStaysInRange(s: Lightbox, n: nat)
    requires InRange(s, n)
    ensures InRange(GoToPrevious(s), n)
    ensures GoToPrevious(s).isOpen == s.isOpen && GoToPrevious(s).selected.Some? == s.selected.Some?
  {
  }

  lemma NextStaysInRange(s: Lightbox, n: nat)
    requires InRange(s, n)
    ensures InRange(GoToNext(s, n), n)
    ensures GoToNext(s, n).isOpen == s.isOpen && GoToNext(s, n).selected.Some? == s.selected.Some?
  {
  }

  /** At the ends, and with nothing selected, the moves change nothing. */
  lemma MovesAtBoundaries(s: Lightbox, n: nat)
    requires n >= 1
    ensures s.selected.None? ==> GoToPrevious(s) == s && GoToNext(s, n) == s
    ensures s.selected == Some(0) ==> GoToPrevious(s) == s
    ensures s.selected == Some(n - 1) ==> GoToNext(s, n) == s
  {
  }

  /** Previous then next returns to the same image, and next then previous too. */
  lemma PreviousNextRoundTrip(s: Lightbox, n: nat, i: nat)
    requires s.selected == Some(i) && i < n
    ensures i > 0 ==> GoToNext(GoToPrevious(s), n) == s
    ensures i < n - 1 ==> GoToPrevious(GoToNext(s, n)) == s
  {
  }

  /** Keys do nothing while closed; while open each key maps to exactly one handler. */
  lemma KeyDispatch(s: Lightbox, n: nat, key: string)
    ensures !s.isOpen ==> KeyDown(s, n, key) == s
    ensures s.isOpen && key == "ArrowLeft" ==> KeyDown(s, n, key) == GoToPrevious(s)
    ensures s.isOpen && key == "ArrowRight" ==> KeyDown(s, n, key) == GoToNext(s, n)
    ensures s.isOpen && key == "Escape" ==> KeyDown(s, n, key) == CloseLightbox(s)
    ensures key !in {"ArrowLeft", "ArrowRight", "Escape"} ==> KeyDown(s, n, key) == s
  {
  }

  /**
   * Closing and reopening within the 200 ms window: the old timer still
   * clears the selection, leaving an open lightbox with no image.
   */
  lemma ReopenBeforeTimerLosesSelection(s: Lightbox, i: nat)
    ensures var r := ClearTimerFires(OpenLightbox(CloseLightbox(s), i));
      r.isOpen && r.selected.None?
  {
  }

  /**
   * The evidently intended `openLightbox`: opening also cancels the clearing
   * timers that an earlier close left pending.
   */
  function IntendedOpenLightbox(s: Lightbox, index: nat): (r: Lightbox)
    ensures r.selected == Some(index) && r.isOpen && r.pendingClears == 0
  {
    s.(selected := Some(index), isOpen := true, pendingClears := 0)
  }

  /** Timer callbacks that fire one after another. */
  function TimersFire(s: Lightbox, k: nat): Lightbox
    decreases k
  {
    if k == 0 then s else TimersFire(ClearTimerFires(s), k - 1)
  }

  /**
   * With the intended open, however many timers fire afterwards, the
   * reopened lightbox keeps the image it was opened on.
   */
  lemma {:induction false} IntendedReopenKeepsSelection(s: Lightbox, i: nat, k: nat)
    ensures var r := TimersFire(IntendedOpenLightbox(CloseLightbox(s), i), k);
      r.isOpen && r.selected == Some(i)
    decreases k
  {
    var o := IntendedOpenLightbox(CloseLightbox(s), i);
    if k > 0 {
      assert ClearTimerFires(o) == o;
      IntendedReopenKeepsSelection(s, i, k - 1);
    }
  }

  datatype GalleryEvent =
    | Thumbnail(index: nat)
    | Close
    | TimerFires
    | Previous
    | Next
    | Dot(index: nat)
    | Key(key: string)
    | OpenChange(open: bool)

  /** Thumbnails and dots exist only for indices below the number of images. */
  predicate WellFormed(e: GalleryEvent, n: nat) {
    (e.Thumbnail? ==> e.index < n) && (e.Dot? ==> e.index < n)
  }

  function GalleryStep(s: Lightbox, n: nat, e: GalleryEvent): Lightbox {
    match e
    case Thumbnail(i) => OpenLightbox(s, i)
    case Close => CloseLightbox(s)
    case TimerFires => ClearTimerFires(s)
    case Previous => GoToPrevious(s)
    case Next => GoToNext(s, n)
    case Dot(i) => SelectDot(s, i)
    case Key(k) => KeyDown(s, n, k)
    case OpenChange(b) => DialogOpenChange(s, b)
  }

  function GalleryRun(s: Lightbox, n: nat, evs: seq<GalleryEvent>): Lightbox
    decreases |evs|
  {
    if evs == [] then s else GalleryRun(GalleryStep(s, n, evs[0]), n, evs[1..])
  }

  /** Whatever the user does, a selected index always names an image. */
  lemma {:induction false} RunStaysInRange(s: Lightbox, n: nat, evs: seq<GalleryEvent>)
    requires InRange(s, n)
    requires forall k :: 0 <= k < |evs| ==> WellFormed(evs[k], n)
    ensures InRange(GalleryRun(s, n, evs), n)
    decreases |evs|
  {
    if evs != [] {
      assert WellFormed(evs[0], n);
      PreviousStaysInRange(s, n);
      NextStaysInRange(s, n);
      RunStaysInRange(GalleryStep(s, n, evs[0]), n, evs[1..]);
    }
  }

  // ---------------------------------------------------------------------
  // What the lightbox shows

  predicate ShowsNavButtons(n: nat) {
    n > 1
  }

  predicate PrevDisabled(selected: nat) {
    selected == 0
  }

  predicate NextDisabled(selected: nat, n: nat) {
    selected == n - 1
  }

  /** A button is disabled exactly when pressing it would change nothing. */
  lemma DisabledIffNoOp(s: Lightbox, n: nat)
    requires s.selected.Some? && s.selected.value < n
    ensures PrevDisabled(s.selected.value) <==> GoToPrevious(s) == s
    ensures NextDisabled(s.selected.value, n) <==> GoToNext(s, n) == s
  {
  }

  /** "Image i+1 of n". */
  function CounterText(selected: nat, n: nat): string {
    "Image " + NatToString(selected + 1) + " of " + NatToString(n)
  }

  /** A common suffix can be cancelled. */
  lemma CancelSuffix(x: string, y: string, q: string)
    requires x + q == y + q
    ensures x == y
  {
    assert x == (x + q)[..|x|];
    assert y == (y + q)[..|y|];
  }

  /** Different selections in the same gallery show different counters. */
  lemma CountersDistinct(i: nat, j: nat, n: nat)
    requires i != j
    ensures CounterText(i, n) != CounterText(j, n)
  {
    var x, y, q := NatToString(i + 1), NatToString(j + 1), " of " + NatToString(n);
    assert CounterText(i, n) == "Image " + (x + q) && CounterText(j, n) == "Image " + (y + q);
    if "Image " + (x + q) == "Image " + (y + q) {
      CancelPrefix("Image ", x + q, y + q);
      CancelSuffix(x, y, q);
      NatToStringInjective(i + 1, j + 1);
    }
  }

  datatype MainView = MainView(heading: string, counter: string, navButtons: bool, prevDisabled: bool, nextDisabled: bool)

  /** The dialog's content, mounted only while the dialog is open: its title and, with a selection, the main view. */
  datatype DialogView = DialogView(title: string, main: Option<MainView>)

  datatype View =
    | Placeholder
    | Grid(thumbnailLabels: seq<string>, dialog: Option<DialogView>)

  /** The rendered output for a gallery in state `s`. */
  function Render(title: string, images: seq<string>, s: Lightbox): (v: View)
    requires InRange(s, |images|)
    ensures |images| == 0 <==> v.Placeholder?
    ensures v.Grid? ==>
      |v.thumbnailLabels| == |images|
      && (forall i :: 0 <= i < |images| ==> v.thumbnailLabels[i] == "Screenshot " + NatToString(i + 1))
    ensures v.Grid? ==> (v.dialog.Some? <==> s.isOpen)
    ensures v.Grid? && v.dialog.Some? ==> (v.dialog.value.main.Some? <==> s.selected.Some?)
    ensures v.Grid? && v.dialog.Some? && s.selected.None? ==> v.dialog.value.title == "Image Gallery"
    ensures v.Grid? && v.dialog.Some? && s.selected.Some? ==>
      var k := s.selected.value;
      var d := v.dialog.value;
      d.title == ImageItems(title, images)[k].title
      && d.main.value.heading == title + " - Screenshot " + NatToString(k + 1)
      && d.main.value.counter == "Image " + NatToString(k + 1) + " of " + NatToString(|images|)
      && (d.main.value.navButtons <==> |images| > 1)
      && (d.main.value.prevDisabled <==> k == 0)
      && (d.main.value.nextDisabled <==> k == |images| - 1)
  {
    var n := |images|;
    if n == 0 then Placeholder
    else
      var items := ImageItems(title, images);
      var labels := seq(n, i requires 0 <= i < n => "Screenshot " + NatToString(i + 1));
      if !s.isOpen then Grid(labels, None)
      else if s.selected.None? then Grid(labels, Some(DialogView("Image Gallery", None)))
      else
        var k := s.selected.value;
        Grid(labels, Some(DialogView(items[k].title,
          Some(MainView(items[k].title, CounterText(k, n), ShowsNavButtons(n), PrevDisabled(k), NextDisabled(k, n))))))
  }

  /**
   * A main view is on screen exactly while the dialog is open with a
   * selection; closing through the dialog itself hides it although the
   * selection stays.
   */
  lemma MainViewShownIff(title: string, images: seq<string>, s: Lightbox)
    requires InRange(s, |images|) && |images| > 0
    ensures var v := Render(title, images, s);
      (v.dialog.Some? && v.dialog.value.main.Some?) <==> s.isOpen && s.selected.Some?
    ensures Render(title, images, DialogOpenChange(s, false)).dialog.None?
    ensures DialogOpenChange(s, false).selected == s.selected
  {
  }

  // ---------------------------------------------------------------------
  // The component's state, updated by its handlers

  class Gallery {
    const title: string
    const images: seq<string>
    var selectedImage: Option<nat>
    var isOpen: bool
    var pendingClears: nat

    function Model(): Lightbox
      reads this
    {
      Lightbox(selectedImage, isOpen, pendingClears)
    }

    ghost predicate Valid()
      reads this
    {
      InRange(Model(), |images|)
    }

    constructor (title: string, images: seq<string>)
      ensures this.title == title && this.images == images
      ensures Model() == InitialLightbox && Valid()
    {
      this.title := title;
      this.images := images;
      selectedImage := None;
      isOpen := false;
      pendingClears := 0;
    }

    method Open(index: nat)
      requires index < |images|
      modifies this
      ensures Model() == OpenLightbox(old(Model()), index) && Valid()
    {
      selectedImage := Some(index);
      isOpen := true;
    }

    method Close()
      requires Valid()
      modifies this
      ensures Model() == CloseLightbox(old(Model())) && Valid()
    {
      isOpen := false;
      pendingClears := pendingClears + 1;
    }

    method TimerFires()
      requires Valid()
      modifies this
      ensures Model() == ClearTimerFires(old(Model())) && Valid()
    {
      if pendingClears > 0 {
        selectedImage := None;
        pendingClears := pendingClears - 1;
      }
    }

    method Previous()
      requires Valid()
      modifies this
      ensures Model() == GoToPrevious(old(Model())) && Valid()
    {
      if selectedImage.Some? && selectedImage.value > 0 {
        selectedImage := Some(selectedImage.value - 1);
      }
    }

    method Next()
      requires Valid()
      modifies this
      ensures Model() == GoToNext(old(Model()), |images|) && Valid()
    {
      if selectedImage.Some? && selectedImage.value < |images| - 1 {
        selectedImage := Some(selectedImage.value + 1);
      }
    }

    method ClickDot(index: nat)
      requires index < |images|
      modifies this
      ensures Model() == SelectDot(old(Model()), index) && Valid()
    {
      selectedImage := Some(index);
    }

    method OnKeyDown(key: string)
      requires Valid()
      modifies this
      ensures Model() == KeyDown(old(Model()), |images|, key) && Valid()
    {
      if !isOpen {
        return;
      }
      if key == "ArrowLeft" {
        Previous();
      } else if key == "ArrowRight" {
        Next();
      } else if key == "Escape" {
        Close();
      }
    }

    method OnOpenChange(open: bool)
      requires Valid()
      modifies this
      ensures Model() == DialogOpenChange(old(Model()), open) && Valid()
    {
      isOpen := open;
    }

    function Rendered(): (v: View)
      requires Valid()
      reads this
      ensures v == Render(title, images, Model())
    {
      Render(title, images, Model())
    }
  }
}
