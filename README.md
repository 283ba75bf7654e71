# Portfolio dashboard animation and navigation core, in Dafny

This project models the stateful logic under the animation calls of the
portfolio dashboard (a Next.js site). Each item below is modelled and its
properties proved.

- The named animation registry `AnimationController`.
- The typewriter, stagger and pulse helpers.
- The visibility hooks: `useIntersectionObserver`, and
  `useMultipleIntersectionObserver`.
- The animation hooks: `useAnimation`, `useStaggeredAnimation` and
  `useAnimationController`.
- The image gallery lightbox.
- The matrix-rain column update.
- The navigation bar's active-section scan and menu.
- The project card's entrance latch and hover state.
- The hero title split.
- The hero's floating particles.
- The technology icon lookup.

Every tween of the animation library (anime.js) is an opaque handle: an
`Anime.Handle` object. Its abstract state has four parts:

- a status: idle, playing, paused or removed;
- a direction, forwards or backwards: `play()` always plays forwards, and `reverse()` plays backwards and resumes;
- a seek position;
- a count of how often it was released.

Parameter bags are maps from name to value. JavaScript's object spread
is the right-biased map union. JavaScript's `||` defaulting is kept
apart from destructuring defaults, because `||` also falls back on 0 and
on `""`.

The platform signals are inputs to the model:

- visibility reports;
- the reduced-motion preference;
- scroll offsets and element boxes;
- window sizes;
- `Math.random()` results.

Each component that keeps state is a class with the source's fields.
Its methods are proved against a pure step function over a state record,
and the step functions carry the lemmas: latches, bounds, "nothing else
changes", and round trips.

Modules live one per file:

- `wrappers.dfy`: `Option`.
- `easings.dfy`: the duration constants and easing strings of `lib/easings.ts`.
- `anime.dfy`: the tween abstraction.
- `animations.dfy`: `lib/animations.ts`.
- `intersection.dfy`: `hooks/useIntersectionObserver.ts`.
- `use_animations.dfy`: `hooks/useAnimations.ts`.
- `image_gallery.dfy`: `components/ui/ImageGallery.tsx`.
- `matrix_rain.dfy`: `components/animations/MatrixRain.tsx`.
- `navigation.dfy`: `components/layout/Navigation.tsx`.
- `project_card.dfy`: `components/animations/AnimatedProjectCard.tsx`.
- `hero.dfy`: `components/animations/AnimatedHero.tsx`.
- `tech_icon.dfy`: `components/ui/TechStackIcon.tsx`.

`create` over an existing name only overwrites the entry; the previous
handle is not released and keeps its state
(`Animations.AnimationController.Create`).

## Model

| member | source | states |
|---|---|---|
| Anime.StaggerDelay | apps/dashboard/src/components/animations/AnimatedProjectCard.tsx:79-80 | `stagger(step, {start})` gives target 0 the start delay, and each later target one step more than the previous one |
| Anime.Initial | apps/dashboard/src/hooks/useAnimations.ts:62 | A new tween plays at once unless its parameters say `autoplay: false`, in which case it is idle. It starts at position 0, backwards exactly when its parameters say `reversed: true` |
| Anime.PlayReverseLaws | apps/dashboard/src/hooks/useAnimations.ts:101-125 | `play()` and `reverse()` set the direction rather than toggle it: a live tween plays forwards after `play()` and backwards after `reverse()`, each undoes the other's direction, and repeating either changes nothing |
| Animations.TargetsOf | apps/dashboard/src/lib/animations.ts:4-20 | The tween's targets are the config's `targets` entry: a target as it is, a selector string as a selector, and none when the config has none. A value outside the declared type gives no targets |
| Animations.CreateParams | apps/dashboard/src/lib/animations.ts:20-25 | `targets` is excluded; every other config key is passed through and overrides the defaults; `duration` and `easing` default to `durations.normal` and `animeEasings.smooth` only when absent |
| Animations.AnimationController.constructor | apps/dashboard/src/lib/animations.ts:17 | The registry starts empty, with distinct names holding distinct handles |
| Animations.AnimationController.Get | apps/dashboard/src/lib/animations.ts:30-32 | `get` yields a handle exactly when the name is registered, and then the registered one |
| Animations.AnimationController.Create | apps/dashboard/src/lib/animations.ts:19-28 | After `create(name, cfg)` returns h, `get(name)` is h. h has the config's targets and the merged parameters. Only the entry for `name` changes. No existing handle changes state, so a replaced handle is not released |
| Animations.AnimationController.Play | apps/dashboard/src/lib/animations.ts:34-36 | Plays only the named handle; every other handle is unchanged, and an absent name is a no-op |
| Animations.AnimationController.Pause | apps/dashboard/src/lib/animations.ts:38-40 | Pauses only the named handle; every other handle is unchanged, and an absent name is a no-op |
| Animations.AnimationController.Restart | apps/dashboard/src/lib/animations.ts:42-44 | Restarts only the named handle; every other handle is unchanged, and an absent name is a no-op |
| Animations.AnimationController.Destroy | apps/dashboard/src/lib/animations.ts:46-52 | Releases the named handle once and removes only its entry. Every other entry and handle is unchanged. An absent name changes nothing |
| Animations.AnimationController.DestroyAll | apps/dashboard/src/lib/animations.ts:54-56 | The registry ends empty, so `get` finds no name, and every handle that was registered is released exactly once |
| Animations.CharSpans | apps/dashboard/src/lib/animations.ts:161-167 | One hidden span per character, in order |
| Animations.CharSpansSpellText | apps/dashboard/src/lib/animations.ts:157-167 | The spans' texts concatenate to the original text |
| Animations.OrNum | apps/dashboard/src/lib/animations.ts:171-172 | `o \|\| d` on a number: an absent value or 0 gives the default, any other value is kept |
| Animations.OrText | apps/dashboard/src/lib/animations.ts:173 | `o \|\| d` on a string: an absent value or `""` gives the default, any other value is kept |
| Animations.TypewriterParams | apps/dashboard/src/lib/animations.ts:169-174 | Opacity 0 to 1; duration `\|\| 50`; a stagger of `delay \|\| 30` from 0; easing `ease \|\| smoothOut`, and no other key |
| Animations.Typewriter | apps/dashboard/src/lib/animations.ts:146-175 | With an element, its children become one span per character of its text. The text content is preserved. The element is made visible. The tween targets its spans and starts playing. A missing element gives an empty tween and changes nothing |
| Animations.StaggerParams | apps/dashboard/src/lib/animations.ts:110-114 | The animation's keys without `targets`, with `delay` replaced by a stagger of `staggerDelay` from 0. The delay default applies only when the argument is absent |
| Animations.StaggerTargets | apps/dashboard/src/lib/animations.ts:111 | `targets \|\| animation.targets`: only the empty selector falls back to the animation's targets |
| Animations.StaggerAnimation | apps/dashboard/src/lib/animations.ts:105-115 | The tween is built on the chosen targets with the stagger parameters |
| Animations.PulseParams | apps/dashboard/src/lib/animations.ts:217-222 | The scale keyframes are 1, `scale \|\| 1.05`, 1. Duration is `duration \|\| durations.slow`. Easing is smoothInOut. `loop` defaults to true only when absent |
| Animations.PulseDefaults | apps/dashboard/src/lib/animations.ts:218-221 | An explicit `loop: false` is kept and an absent loop is true; scale 0 falls back to 1.05 and duration 0 to 600 |
| Animations.PulseAnimation | apps/dashboard/src/lib/animations.ts:209-223 | The tween is built on the target with the pulse parameters and plays at once |
| Intersection.Resolve | apps/dashboard/src/hooks/useIntersectionObserver.ts:11-17 | The threshold defaults to 0.1 and the root margin to "0px"; a given threshold or root margin is kept. Freezing and the initial value hold only when given as true |
| Intersection.InitialLatch | apps/dashboard/src/hooks/useIntersectionObserver.ts:20-21 | The initial value is `initialIsIntersecting`, false by default. The latch starts unfrozen and no observer exists |
| Intersection.LatchInvHolds | apps/dashboard/src/hooks/useIntersectionObserver.ts:23-47 | Under any events, a frozen hook is a freezing one, shows visible and has no live observer |
| Intersection.FrozenLatchIsFinal | apps/dashboard/src/hooks/useIntersectionObserver.ts:27 | Once frozen with `freezeOnceVisible`, no event changes anything: re-running the effect creates no observer and the value stays |
| Intersection.FrozenStaysVisible | apps/dashboard/src/hooks/useIntersectionObserver.ts:31-37 | From the hook's initial state, once the latch is frozen, `isIntersecting` is true after any later events |
| Intersection.FirstIntersectionFreezes | apps/dashboard/src/hooks/useIntersectionObserver.ts:31-37 | With freeze, an intersecting entry sets the value and the latch and disconnects the observer |
| Intersection.UnfrozenTracksLatestEntry | apps/dashboard/src/hooks/useIntersectionObserver.ts:31-32 | Without freeze the value is the latest entry's, false included, and the observer stays connected |
| Intersection.NoElementNoObserver | apps/dashboard/src/hooks/useIntersectionObserver.ts:24-25 | With no element attached the effect creates no observer and changes nothing |
| Intersection.VisibilityLatch.constructor | apps/dashboard/src/hooks/useIntersectionObserver.ts:11-21 | The hook's refs and state start as the initial latch |
| Intersection.VisibilityLatch.RunEffect | apps/dashboard/src/hooks/useIntersectionObserver.ts:23-42 | The effect's new state is the latch step for an effect run |
| Intersection.VisibilityLatch.OnEntry | apps/dashboard/src/hooks/useIntersectionObserver.ts:30-38 | The callback's new state is the latch step for an entry |
| Intersection.VisibilityLatch.RunCleanup | apps/dashboard/src/hooks/useIntersectionObserver.ts:44-46 | The cleanup disconnects the observer and changes nothing else |
| Intersection.MultiMount | apps/dashboard/src/hooks/useIntersectionObserver.ts:70-92 | The effect sets a new observer that watches nothing. Entries and the frozen set are kept |
| Intersection.MultiCleanup | apps/dashboard/src/hooks/useIntersectionObserver.ts:94-96 | The cleanup disconnects the observer, but the ref still holds it. Entries and the frozen set are kept |
| Intersection.Observe | apps/dashboard/src/hooks/useIntersectionObserver.ts:99-104 | `observe(el)` inserts `el ↦ false`, watches `el` and changes nothing else; without an observer it does nothing |
| Intersection.Unobserve | apps/dashboard/src/hooks/useIntersectionObserver.ts:106-115 | `unobserve(el)` deletes only `el`'s entry and stops watching it; without an observer it does nothing |
| Intersection.UnreportedUnchanged | apps/dashboard/src/hooks/useIntersectionObserver.ts:73-89 | A callback copies the entry of every element it does not report unchanged, including its absence |
| Intersection.LastReportWins | apps/dashboard/src/hooks/useIntersectionObserver.ts:76-80 | A reported element holds the value of its last report in the batch |
| Intersection.FreezeAtMostOnce | apps/dashboard/src/hooks/useIntersectionObserver.ts:82-85 | The freeze log lists exactly the frozen set with no repeats, so each element is unobserved for freezing at most once. The frozen set only grows, and without freeze it never changes |
| Intersection.FreezeUnobserves | apps/dashboard/src/hooks/useIntersectionObserver.ts:82-85 | A callback only shrinks the watched set. Every newly frozen element is no longer watched |
| Intersection.IntersectingReportsFreeze | apps/dashboard/src/hooks/useIntersectionObserver.ts:82-85 | With freeze, every intersecting report leaves its element frozen. If it was not frozen before, it is no longer watched |
| Intersection.MultiObserver.constructor | apps/dashboard/src/hooks/useIntersectionObserver.ts:59-68 | Empty entries, empty frozen set, no observer |
| Intersection.MultiObserver.Mount | apps/dashboard/src/hooks/useIntersectionObserver.ts:70-92 | The new state is the mount step |
| Intersection.MultiObserver.RunCleanup | apps/dashboard/src/hooks/useIntersectionObserver.ts:94-96 | The new state is the cleanup step |
| Intersection.MultiObserver.ObserveElement | apps/dashboard/src/hooks/useIntersectionObserver.ts:99-104 | The new state is `Observe` of the old one |
| Intersection.MultiObserver.UnobserveElement | apps/dashboard/src/hooks/useIntersectionObserver.ts:106-115 | The new state is `Unobserve` of the old one |
| Intersection.MultiObserver.OnReports | apps/dashboard/src/hooks/useIntersectionObserver.ts:72-89 | The loop over a batch leaves the state the reports applied in order |
| UseAnimations.ReducedMotionDefaultsDiffer | apps/dashboard/src/hooks/useAnimations.ts:215 | With `respectReducedMotion` absent, `useAnimation` does not animate under reduced motion, while `useStaggeredAnimation` animates whatever the preference |
| UseAnimations.ObserverOptionsOf | apps/dashboard/src/hooks/useAnimations.ts:39-51 | The visibility hook gets threshold 0.1 by default and freezes unless `freezeOnceVisible` is false |
| UseAnimations.HookParams | apps/dashboard/src/hooks/useAnimations.ts:58-65 | The config's keys are passed through. `loop` defaults to false and `direction` to "normal", and `autoplay` is forced false. The callbacks are added when given. The tween does not autoplay |
| UseAnimations.ModeOf | apps/dashboard/src/hooks/useAnimations.ts:32-53 | `autoPlay` and `triggerOnScroll` default to false. `shouldAnimate` is `!respectReducedMotion \|\| !prefersReducedMotion` with the option defaulting to true |
| UseAnimations.HookTweenCreatedPaused | apps/dashboard/src/hooks/useAnimations.ts:55-73 | When the gate is open and no autoplay applies, mounting builds the tween idle |
| UseAnimations.MountStartsOnlyForAutoplay | apps/dashboard/src/hooks/useAnimations.ts:70-78 | Mounting starts the tween exactly when an element is attached, the gate is open, and `autoPlay && !triggerOnScroll` |
| UseAnimations.ReducedMotionIsInert | apps/dashboard/src/hooks/useAnimations.ts:53-125 | With the gate closed, no tween ever exists under any events, so play, restart, reverse and visibility start nothing |
| UseAnimations.ScrollStartsAtMostOnce | apps/dashboard/src/hooks/useAnimations.ts:88-99 | In scroll-trigger mode a trigger starts the tween at most once, and only before `hasPlayedRef` is set |
| UseAnimations.ScrollHookStartsAtMostOnce | apps/dashboard/src/hooks/useAnimations.ts:88-99 | From the hook's initial state, under any events, a scroll-triggered tween is started at most once |
| UseAnimations.ScrollStartNeedsFirstVisibility | apps/dashboard/src/hooks/useAnimations.ts:89-95 | In scroll mode a start happens only on a visible event, with a tween present, the gate open and nothing played yet |
| UseAnimations.RestartSuppressesScrollStart | apps/dashboard/src/hooks/useAnimations.ts:113-118 | `restart` sets `hasPlayedRef`, so a later first visibility changes nothing |
| UseAnimations.HookReversePlaysForward | apps/dashboard/src/hooks/useAnimations.ts:120-125 | The hook's `reverse` leaves the tween playing forwards, exactly as `play` does |
| UseAnimations.IntendedReverseStep | apps/dashboard/src/hooks/useAnimations.ts:120-125 | The intended `reverse` calls the tween's `reverse()` alone under the gate, and changes nothing without a tween or with the gate closed |
| UseAnimations.IntendedReversePlaysBackward | apps/dashboard/src/hooks/useAnimations.ts:120-125 | With the intended step the tween plays backwards, the hook's flags and counters are kept, and a later `play` gives the same state as `play` alone |
| UseAnimations.PauseAndSeekIgnoreGate | apps/dashboard/src/hooks/useAnimations.ts:107-131 | `pause` and `seek` act whenever a tween exists, whatever the gate |
| UseAnimations.TeardownReleases | apps/dashboard/src/hooks/useAnimations.ts:80-85 | Teardown releases a held tween once and clears the ref |
| UseAnimations.AnimationHook.constructor | apps/dashboard/src/hooks/useAnimations.ts:32-53 | The mode is the defaulted options and the refs start empty |
| UseAnimations.AnimationHook.RunMount | apps/dashboard/src/hooks/useAnimations.ts:70-79 | The effect's new state is the hook step for mounting. A created tween is new, on the element, with the hook's parameters |
| UseAnimations.AnimationHook.RunVisibility | apps/dashboard/src/hooks/useAnimations.ts:88-99 | The scroll effect's new state is the hook step for a visibility event |
| UseAnimations.AnimationHook.Play | apps/dashboard/src/hooks/useAnimations.ts:101-105 | The new state is the hook step for `play` |
| UseAnimations.AnimationHook.Pause | apps/dashboard/src/hooks/useAnimations.ts:107-111 | The new state is the hook step for `pause` |
| UseAnimations.AnimationHook.Restart | apps/dashboard/src/hooks/useAnimations.ts:113-118 | The new state is the hook step for `restart` |
| UseAnimations.AnimationHook.Reverse | apps/dashboard/src/hooks/useAnimations.ts:120-125 | The new state is the hook step for `reverse`: under the gate, the tween's `reverse()` and then its `play()` |
| UseAnimations.AnimationHook.Seek | apps/dashboard/src/hooks/useAnimations.ts:127-131 | The new state is the hook step for `seek` |
| UseAnimations.AnimationHook.RunTeardown | apps/dashboard/src/hooks/useAnimations.ts:80-85 | The cleanup's new state is the teardown step; the held handle is released |
| UseAnimations.NonNullAppend | apps/dashboard/src/hooks/useAnimations.ts:224-226 | The null filter distributes over concatenation, so it keeps the refs' order |
| UseAnimations.NonNullElements | apps/dashboard/src/hooks/useAnimations.ts:224-228 | The targets are exactly the attached elements. There are none exactly when no ref is attached |
| UseAnimations.StaggeredBase | apps/dashboard/src/hooks/useAnimations.ts:231-235 | `targets`, `ease`, `loop`, `autoplay`, `reversed` and `alternate` are dropped. `duration` and `easing: ease` are included only when truthy. The remaining config keys are kept |
| UseAnimations.StaggeredOptions | apps/dashboard/src/hooks/useAnimations.ts:236-241 | There is a stagger delay of `staggerDelay`, 100 by default, from 0. `autoplay` is true only when given true. `loop` and `direction` default with `\|\|`. The callbacks are added when given |
| UseAnimations.StaggeredParamsConfigKeys | apps/dashboard/src/hooks/useAnimations.ts:231-235 | The staggered tween never gets `targets`, `ease`, `reversed` or `alternate`. It gets `duration` exactly when that is truthy, and `easing` from a truthy `ease` |
| UseAnimations.StaggeredParamsOptionKeys | apps/dashboard/src/hooks/useAnimations.ts:236-241 | The option part wins: the stagger delay, 100 by default, `autoplay` true only when given true, and `loop` and `direction` defaulted with `\|\|` |
| UseAnimations.StaggeredParamsKeepsConfig | apps/dashboard/src/hooks/useAnimations.ts:231-233 | A config key that neither part sets or drops reaches the staggered tween with its value unchanged |
| UseAnimations.StaggeredHook.constructor | apps/dashboard/src/hooks/useAnimations.ts:212-215 | No refs, no tween, and the gate without a default for `respectReducedMotion` |
| UseAnimations.StaggeredHook.AddRef | apps/dashboard/src/hooks/useAnimations.ts:217-221 | Appends exactly one new, unattached ref and returns it |
| UseAnimations.StaggeredHook.RunEffect | apps/dashboard/src/hooks/useAnimations.ts:223-242 | The targets are the attached refs in order. With none, or with the gate closed, no tween is built. Otherwise a new tween gets exactly those targets and the staggered parameters |
| UseAnimations.StaggeredHook.Play | apps/dashboard/src/hooks/useAnimations.ts:252-256 | Plays a held tween only when the gate is open |
| UseAnimations.StaggeredHook.Pause | apps/dashboard/src/hooks/useAnimations.ts:258-262 | Pauses a held tween whatever the gate |
| UseAnimations.StaggeredHook.Restart | apps/dashboard/src/hooks/useAnimations.ts:264-268 | Restarts a held tween only when the gate is open |
| UseAnimations.StaggeredHook.RunCleanup | apps/dashboard/src/hooks/useAnimations.ts:244-249 | Releases a held tween once and clears the ref; the refs are kept |
| UseAnimations.ControllerHook.constructor | apps/dashboard/src/hooks/useAnimations.ts:146 | The controller ref starts empty |
| UseAnimations.ControllerHook.RunMount | apps/dashboard/src/hooks/useAnimations.ts:148-149 | The effect stores a new, empty controller |
| UseAnimations.ControllerHook.RunTeardown | apps/dashboard/src/hooks/useAnimations.ts:151-153 | The cleanup empties the controller and releases every handle it held exactly once |
| ImageGallery.ImageItems | apps/dashboard/src/components/ui/ImageGallery.tsx:29-33 | One item per image, in order. Item i has the image's source, alt "`title` screenshot i+1" and title "`title` - Screenshot i+1" |
| ImageGallery.ItemTitlesDistinct | apps/dashboard/src/components/ui/ImageGallery.tsx:29-33 | Distinct items have distinct titles, even when their sources repeat |
| ImageGallery.OpenLightbox | apps/dashboard/src/components/ui/ImageGallery.tsx:51-54 | Selects the index and opens the lightbox |
| ImageGallery.CloseLightbox | apps/dashboard/src/components/ui/ImageGallery.tsx:56-59 | Closes at once and keeps the selection. One clearing timer is left pending |
| ImageGallery.ClearTimerFires | apps/dashboard/src/components/ui/ImageGallery.tsx:58 | A pending timer clears the selection and touches nothing else. With no timer pending, nothing happens |
| ImageGallery.SelectDot | apps/dashboard/src/components/ui/ImageGallery.tsx:197 | A dot selects its image directly and changes nothing else |
| ImageGallery.DialogOpenChange | apps/dashboard/src/components/ui/ImageGallery.tsx:133 | The dialog's own close only sets the open flag; the selection stays |
| ImageGallery.PreviousStaysInRange | apps/dashboard/src/components/ui/ImageGallery.tsx:61-65 | `goToPrevious` keeps a selected index in [0, n). It neither opens, closes nor clears the selection |
| ImageGallery.NextStaysInRange | apps/dashboard/src/components/ui/ImageGallery.tsx:67-71 | `goToNext` keeps a selected index in [0, n). It neither opens, closes nor clears the selection |
| ImageGallery.MovesAtBoundaries | apps/dashboard/src/components/ui/ImageGallery.tsx:62-68 | Previous at 0, next at n-1, and both with nothing selected, change nothing |
| ImageGallery.PreviousNextRoundTrip | apps/dashboard/src/components/ui/ImageGallery.tsx:61-71 | From i > 0, previous then next returns to i. From i < n-1, next then previous returns to i |
| ImageGallery.KeyDispatch | apps/dashboard/src/components/ui/ImageGallery.tsx:73-84 | Keys act only while open. ArrowLeft is previous, ArrowRight is next and Escape closes. Other keys do nothing |
| ImageGallery.ReopenBeforeTimerLosesSelection | apps/dashboard/src/components/ui/ImageGallery.tsx:51-59 | A close followed by a reopen within the timer's window ends with an open lightbox and no image selected |
| ImageGallery.IntendedReopenKeepsSelection | apps/dashboard/src/components/ui/ImageGallery.tsx:51-59 | With an open that cancels the pending clearing timers, a close and reopen keeps the reopened image selected however many timers fire afterwards |
| ImageGallery.RunStaysInRange | apps/dashboard/src/components/ui/ImageGallery.tsx:51-84 | Under any sequence of user events and timers, a selected index always names an image |
| ImageGallery.DisabledIffNoOp | apps/dashboard/src/components/ui/ImageGallery.tsx:155-171 | Prev is disabled exactly when pressing it changes nothing, and the same holds for next |
| ImageGallery.CountersDistinct | apps/dashboard/src/components/ui/ImageGallery.tsx:185 | Different selections in the same gallery show different "Image i+1 of n" counters |
| ImageGallery.Render | apps/dashboard/src/components/ui/ImageGallery.tsx:86-206 | An empty list renders the placeholder and nothing else does. Thumbnail i reads "Screenshot i+1". The dialog content is mounted exactly while the dialog is open. Inside it the main view exists exactly when an image is selected, and the dialog title defaults to "Image Gallery". The main view shows the item's title and the counter "Image i+1 of n". The nav buttons show only when n > 1. Prev is disabled exactly at 0 and next exactly at n-1 |
| ImageGallery.MainViewShownIff | apps/dashboard/src/components/ui/ImageGallery.tsx:133-154 | The main view is on screen exactly while the dialog is open with a selection. Closing through the dialog's own `onOpenChange(false)` hides it although the selection stays |
| ImageGallery.Gallery.constructor | apps/dashboard/src/components/ui/ImageGallery.tsx:23-24 | Nothing selected, closed, no timer pending |
| ImageGallery.Gallery.Open | apps/dashboard/src/components/ui/ImageGallery.tsx:51-54 | The new state is `OpenLightbox` of the old one, and stays in range |
| ImageGallery.Gallery.Close | apps/dashboard/src/components/ui/ImageGallery.tsx:56-59 | The new state is `CloseLightbox` of the old one |
| ImageGallery.Gallery.TimerFires | apps/dashboard/src/components/ui/ImageGallery.tsx:58 | The new state is `ClearTimerFires` of the old one |
| ImageGallery.Gallery.Previous | apps/dashboard/src/components/ui/ImageGallery.tsx:61-65 | The new state is `GoToPrevious` of the old one, and stays in range |
| ImageGallery.Gallery.Next | apps/dashboard/src/components/ui/ImageGallery.tsx:67-71 | The new state is `GoToNext` of the old one, and stays in range |
| ImageGallery.Gallery.ClickDot | apps/dashboard/src/components/ui/ImageGallery.tsx:197 | The new state is `SelectDot` of the old one |
| ImageGallery.Gallery.OnKeyDown | apps/dashboard/src/components/ui/ImageGallery.tsx:73-84 | The listener's new state is `KeyDown` of the old one |
| ImageGallery.Gallery.OnOpenChange | apps/dashboard/src/components/ui/ImageGallery.tsx:133 | The new state is `DialogOpenChange` of the old one |
| ImageGallery.Gallery.Rendered | apps/dashboard/src/components/ui/ImageGallery.tsx:86-206 | The component renders `Render` of its props and state |
| MatrixRain.Columns | apps/dashboard/src/components/animations/MatrixRain.tsx:25 | `Math.floor(width / 14)`: the largest c with 14c ≤ width |
| MatrixRain.GlyphIndex | apps/dashboard/src/components/animations/MatrixRain.tsx:52 | The glyph index is always in [0, 58) |
| MatrixRain.NextDropCases | apps/dashboard/src/components/animations/MatrixRain.tsx:50-70 | An unselected column keeps its row. A selected one advances by 1 or becomes 1, and it becomes 1 only when its y is below the canvas and the reset draw succeeds. Rows stay ≥ 1 |
| MatrixRain.StepDropsKeepsRows | apps/dashboard/src/components/animations/MatrixRain.tsx:49-71 | After a frame every row is ≥ 1, unselected columns are unchanged, and selected ones are in {row+1, 1} |
| MatrixRain.DrawnGlyphsSound | apps/dashboard/src/components/animations/MatrixRain.tsx:49-64 | Every drawn glyph belongs to a selected column, sits at y = row·14 and uses a character from the glyph list |
| MatrixRain.DrawnGlyphsOrdered | apps/dashboard/src/components/animations/MatrixRain.tsx:49-64 | Glyphs are drawn strictly left to right by column |
| MatrixRain.DrawnGlyphsComplete | apps/dashboard/src/components/animations/MatrixRain.tsx:49-64 | Every selected column draws a glyph |
| MatrixRain.DrawnGlyphs | apps/dashboard/src/components/animations/MatrixRain.tsx:49-64 | Exactly the selected columns draw, once each and left to right, at y = row·14, with a character from the glyph list |
| MatrixRain.Rain.constructor | apps/dashboard/src/components/animations/MatrixRain.tsx:16-26 | The canvas takes the window size, and `drops` has `floor(width/14)` entries, all 1 |
| MatrixRain.Rain.Resize | apps/dashboard/src/components/animations/MatrixRain.tsx:16-19 | The canvas size changes, while `drops` and the frame counter do not |
| MatrixRain.Rain.Frame | apps/dashboard/src/components/animations/MatrixRain.tsx:32-75 | The counter always increments. Only when it becomes a multiple of 3 are `drops` updated in place, to the frame step, with the glyphs drawn. Otherwise nothing is drawn and `drops` is unchanged. Rows stay ≥ 1 and the size never changes |
| Navigation.FirstMatchInSpec | apps/dashboard/src/components/layout/Navigation.tsx:19-28 | The scan's result exists and contains the position, and no earlier id matches. No result means no id matches |
| Navigation.FirstMatchSpec | apps/dashboard/src/components/layout/Navigation.tsx:16-28 | The active section is hero, else projects, else contest: the first that exists and whose [offsetTop, offsetTop+offsetHeight) contains the position |
| Navigation.MissingSectionSkipped | apps/dashboard/src/components/layout/Navigation.tsx:20-21 | A section missing from the document never becomes active |
| Navigation.FindActiveSection | apps/dashboard/src/components/layout/Navigation.tsx:16-28 | The loop with its early `break` finds the first match for scrollY + 100 |
| Navigation.AfterScroll | apps/dashboard/src/components/layout/Navigation.tsx:13-29 | `isScrolled` holds iff scrollY > 50. The active section becomes the match when there is one and is unchanged otherwise. The menu is untouched |
| Navigation.ScrollKeepsSectionKnown | apps/dashboard/src/components/layout/Navigation.tsx:9-28 | The active section is always one of hero, projects and contest |
| Navigation.AfterScrollTo | apps/dashboard/src/components/layout/Navigation.tsx:35-41 | Closes the menu only when the target exists; otherwise nothing changes |
| Navigation.AfterToggle | apps/dashboard/src/components/layout/Navigation.tsx:103 | The menu button flips the open flag only |
| Navigation.AfterBackdrop | apps/dashboard/src/components/layout/Navigation.tsx:115 | The backdrop closes the menu only |
| Navigation.MenuLaws | apps/dashboard/src/components/layout/Navigation.tsx:103-115 | Two presses of the menu button restore the state. The backdrop is idempotent and, on an open menu, equals a press |
| Navigation.NavigationBar.constructor | apps/dashboard/src/components/layout/Navigation.tsx:8-10 | Initially active is "hero", not scrolled, menu closed |
| Navigation.NavigationBar.HandleScroll | apps/dashboard/src/components/layout/Navigation.tsx:13-29 | The new state is `AfterScroll` of the old one |
| Navigation.NavigationBar.ScrollToSection | apps/dashboard/src/components/layout/Navigation.tsx:35-41 | Scrolls exactly when the target exists; the new state is `AfterScrollTo` |
| Navigation.NavigationBar.ToggleMenu | apps/dashboard/src/components/layout/Navigation.tsx:103 | The new state is `AfterToggle` of the old one |
| Navigation.NavigationBar.CloseMenu | apps/dashboard/src/components/layout/Navigation.tsx:115 | The new state is `AfterBackdrop` of the old one |
| ProjectCard.StatusLookupsDistinguish | apps/dashboard/src/components/animations/AnimatedProjectCard.tsx:44-60 | The text, colour and glow lookups are total and non-empty. Each one tells the three statuses apart |
| ProjectCard.DelayArithmetic | apps/dashboard/src/components/animations/AnimatedProjectCard.tsx:70-90 | The card delay is 50·index. Content child k starts at 50·index+200+50k and chip k at 50·index+400+30k. Each follows the card and its predecessors |
| ProjectCard.EntranceSchedule | apps/dashboard/src/components/animations/AnimatedProjectCard.tsx:62-95 | The card tween has the card delay. The content and chip tweens exist exactly when their refs are attached, with one delay per child as above |
| ProjectCard.EntranceNeedsVisibility | apps/dashboard/src/components/animations/AnimatedProjectCard.tsx:97-102 | An entrance runs only on a visible event without reduced motion, before any other entrance |
| ProjectCard.EntranceAtMostOnce | apps/dashboard/src/components/animations/AnimatedProjectCard.tsx:42-102 | Under any events a card runs its entrance at most once, and never again once `hasAnimated` is set |
| ProjectCard.ReducedMotionFreezesCard | apps/dashboard/src/components/animations/AnimatedProjectCard.tsx:97-156 | Under reduced motion no event changes the card: no entrance, no hover state |
| ProjectCard.HoverTracksMouse | apps/dashboard/src/components/animations/AnimatedProjectCard.tsx:104-202 | Enter sets hover and enables the tilt, and leave clears both. After any trace the hover flag is the one the latest enter or leave without reduced motion set, and a mouse move tilts exactly when that was an enter and motion is not reduced |
| ProjectCard.ZeroProgressRendersStrayZero | apps/dashboard/src/components/animations/AnimatedProjectCard.tsx:318 | The slot as written renders the text "0" for an in-progress card with progress 0 |
| ProjectCard.ProgressSlotShownIff | apps/dashboard/src/components/animations/AnimatedProjectCard.tsx:318 | The progress bar shows exactly for in-progress cards with a present, non-zero progress, and otherwise nothing is rendered. It agrees with the code except at progress 0 |
| ProjectCard.EtaSlotShownIff | apps/dashboard/src/components/animations/AnimatedProjectCard.tsx:355 | The ETA box shows exactly for in-progress cards with a present, non-empty ETA, and otherwise nothing is rendered |
| ProjectCard.Card.constructor | apps/dashboard/src/components/animations/AnimatedProjectCard.tsx:36-42 | Not animated, not hovered |
| ProjectCard.Card.RunEntranceEffect | apps/dashboard/src/components/animations/AnimatedProjectCard.tsx:62-102 | The new state is the card step for the visibility event. Tweens are scheduled exactly when an entrance runs and the card element is attached, with the entrance schedule |
| ProjectCard.Card.HandleMouseEnter | apps/dashboard/src/components/animations/AnimatedProjectCard.tsx:104-106 | The new state is the card step for a mouse enter |
| ProjectCard.Card.HandleMouseLeave | apps/dashboard/src/components/animations/AnimatedProjectCard.tsx:154-156 | The new state is the card step for a mouse leave |
| ProjectCard.Card.HandleMouseMove | apps/dashboard/src/components/animations/AnimatedProjectCard.tsx:201-205 | Tilts exactly when hovered, without reduced motion, with the card attached |
| Hero.Split | apps/dashboard/src/components/animations/AnimatedHero.tsx:72 | `split(" ")` yields at least one piece and no piece holds a space |
| Hero.JoinSplit | apps/dashboard/src/components/animations/AnimatedHero.tsx:72 | Joining the pieces with " " gives back the original text, so empty pieces are kept |
| Hero.SplitJoin | apps/dashboard/src/components/animations/AnimatedHero.tsx:72 | Splitting a " "-join of space-free pieces gives back the pieces |
| Hero.ConcatSplit | apps/dashboard/src/components/animations/AnimatedHero.tsx:72-89 | The pieces together hold the text's characters without its spaces |
| Hero.CharSpans | apps/dashboard/src/components/animations/AnimatedHero.tsx:78-86 | One character span per character, in order |
| Hero.WordSpans | apps/dashboard/src/components/animations/AnimatedHero.tsx:73-89 | One word span per piece, each holding that piece's character spans |
| Hero.TitleRebuild | apps/dashboard/src/components/animations/AnimatedHero.tsx:66-89 | The rebuilt title's text is the original without spaces, so a second split yields one word |
| Hero.BuildCharSpans | apps/dashboard/src/components/animations/AnimatedHero.tsx:78-86 | The inner loop builds exactly the character spans of the word, in order |
| Hero.IntendedRerunIsStable | apps/dashboard/src/components/animations/AnimatedHero.tsx:67-89 | Reading the rebuilt title with its words joined by spaces gives back the original text, so a second run rebuilds the same spans |
| Hero.TitleElement.SplitIntoSpans | apps/dashboard/src/components/animations/AnimatedHero.tsx:67-89 | The nested loops clear and show the title, then append exactly the word spans of the split text. The new text content is the old one without spaces |
| Hero.ColorIndex | apps/dashboard/src/components/animations/AnimatedHero.tsx:31 | The colour index is always in [0, 3) |
| Hero.MakeParticle | apps/dashboard/src/components/animations/AnimatedHero.tsx:31-35 | A particle's colour is one of the three and its position lies in [0, 100) percent |
| Hero.ParticleLayer.AppendParticles | apps/dashboard/src/components/animations/AnimatedHero.tsx:24-37 | Appends one particle per draw, in order, keeping the existing ones |
| Hero.TimelineSegments | apps/dashboard/src/components/animations/AnimatedHero.tsx:91-130 | The timeline animates exactly the attached parts, in the order title, subtitle, buttons |
| Hero.OnButtonHover | apps/dashboard/src/components/animations/AnimatedHero.tsx:145-154 | Without reduced motion hover scales to 1.05 over `durations.fast`; under reduced motion it does nothing |
| Hero.OnButtonLeave | apps/dashboard/src/components/animations/AnimatedHero.tsx:156-165 | Without reduced motion leave scales back to 1 over `durations.normal`; under reduced motion it does nothing |
| Hero.OnButtonClick | apps/dashboard/src/components/animations/AnimatedHero.tsx:167-198 | Without reduced motion click bounces and adds a ripple; under reduced motion it does nothing |
| Hero.HandlersRestoreScale | apps/dashboard/src/components/animations/AnimatedHero.tsx:145-178 | For either preference: hovering leaves the button at scale 1.05, hovering then leaving brings it back to 1, and a click's bounce ends at 1. Under reduced motion no handler changes the scale |
| Hero.HeroSection.RunEffect | apps/dashboard/src/components/animations/AnimatedHero.tsx:60-132 | Under reduced motion nothing is touched and no timeline is built. Otherwise the title is split into spans, the timeline gets the attached parts, and exactly 15 particles are appended after the existing ones |
| Hero.HeroSection.RunCleanup | apps/dashboard/src/components/animations/AnimatedHero.tsx:134-142 | The cleanup hands `utils.remove` exactly the attached containers, in order: the heading, the subtitle paragraph and the buttons' container, and nothing else. The particles are not removed |
| Hero.SegmentTargets | apps/dashboard/src/components/animations/AnimatedHero.tsx:91-128 | The title segment targets one character span per character, the subtitle segment the paragraph, and the buttons segment each button |
| Hero.CleanupStopsOnlySubtitle | apps/dashboard/src/components/animations/AnimatedHero.tsx:91-142 | Removing only containers reaches a segment's target only for the subtitle segment, so the title-character and button tweens are not stopped |
| Hero.IntendedCleanupStopsAll | apps/dashboard/src/components/animations/AnimatedHero.tsx:91-142 | The intended cleanup removes every target of every timeline segment and nothing the timeline did not animate |
| TechIcon.Render | apps/dashboard/src/components/ui/TechStackIcon.tsx:101-125 | The badge text is the key and the size defaults to 20. A known key gets its icon and colour, and its label as tooltip. An unknown key gets the generic gray icon, and the key as tooltip. A tooltip is absent exactly when `showTooltip` is false |
| TechIcon.TooltipDefaultsOn | apps/dashboard/src/components/ui/TechStackIcon.tsx:101 | `showTooltip` defaults to true |
| TechIcon.AliasHasOwnEntry | apps/dashboard/src/components/ui/TechStackIcon.tsx:51-52 | The lookup is by exact key: "Next.js 15" has its own entry, with the same icon as "Next.js", and its own label as tooltip |
| TechIcon.OtherSpellingFallsBack | apps/dashboard/src/components/ui/TechStackIcon.tsx:100-112 | A different spelling such as "react" is not in the table and gets the generic code icon, with the name itself as tooltip |
| TechIcon.LabelIsTooltipOnly | apps/dashboard/src/components/ui/TechStackIcon.tsx:114-122 | The tooltip shows the label, while the badge shows the key ("Gen AI" with tooltip "Generative AI") |

## Left out

- Tween internals: interpolation, easing curves, springs, timeline offsets and the firing of `complete`/`begin` callbacks belong to anime.js. A tween is only its abstract state.
- Anime.PlayReverseLaws: the direction semantics of `play()` and `reverse()` follow the documented API of anime.js v4, the version whose `animate`, `createTimeline` and `JSAnimation` the source imports. The library's own code is not part of this model.
- Anime.AfterRestart: keeps the tween's direction. Whether the library's restart also resets it is not modelled.
- UseAnimations.HookParams: the `direction` key it passes is not an anime.js v4 parameter, and the model gives it no effect on the tween's direction.
- The tween parameters of the card hover, hero timeline, particle and gallery thumbnail tweens are not modelled. These are their keyframes, durations and easings. Only whether and on what a tween is created is modelled.
- `morphAnimation`, `parallaxAnimation`, `magneticAnimation`, `resetMagneticAnimation`, `shimmerAnimation` and `glowAnimation` are not modelled: they are single library calls, or floating-point geometry.
- The preset configs (`fadeIn` … `elasticScale`) are plain constant parameter bags and are not modelled.
- `useScrollProgress` and `useMousePosition` are not modelled: they compute a floating-point ratio or copy mouse coordinates.
- The card tilt angles and glow position are floating-point geometry; only whether a tilt is applied is modelled (`ProjectCard.Card.HandleMouseMove`).
- The MatrixRain opacity pulse is not modelled; it accumulates floating-point steps on an interval.
- The MatrixRain animation loop is not modelled. It is never cancelled by the effect's cleanup; the model covers one frame at a time.
- The fade overlay and font set-up of the MatrixRain canvas are not modelled, because they draw nothing a column's state depends on.
- Platform APIs are not modelled, because their results are inputs. They are IntersectionObserver, matchMedia, requestAnimationFrame, timers, canvas drawing, document listeners and `scrollIntoView`. The gallery's 200 ms timer is an event that fires later.
- React scheduling is not modelled: re-renders, dependency arrays, state-updater batching. Effects and handlers are steps that the caller orders. Each effect's cleanup runs before it re-runs, which `UseAnimations.AnimationHook.RunMount` and `UseAnimations.StaggeredHook.RunEffect` state as a precondition.
- The reduced-motion preference is fixed for one hook instance; its own hook's media-query logic is not part of this model.
- `useAnimationController` hands out a throwaway controller before its effect has run; that render-time value is not modelled.
- `useAnimation` returns `animation: animationRef.current` as read during render. That snapshot is not modelled.
- `useIntersectionObserver`'s callback reads only the first entry of a batch (`Entry` carries that value). Its `root` option is always null and is not modelled.
- The multiple observer does not re-observe its elements after its effect re-runs. The model keeps this: a mount leaves the watched set empty.
- The number of thresholds, and how the platform decides that an element intersects, are not modelled.
- TechStackIcon looks keys up in a plain object, so inherited names such as "constructor" also resolve. The model's table is a map of the own keys only.
- TechIcon: the table's size (39 entries) is not stated as a lemma.
- `className` props and other styling are not modelled.
- The gallery's thumbnail entrance tween is not modelled.
- `customCaptions`, which the pages pass but the gallery never declares, is not modelled.
- The static pages, footer, layout, divider and project data tables are not part of this model.
- Navigation: scroll offsets and element boxes are whole pixels. The progress bar width is not modelled.
- ProjectCard: `progress` is a whole number.
- ProjectCard: the status strings are modelled as the three constructors of a datatype.
- Hero: the title's text comes from `textContent || ""`. The model takes the element's text, and an absent element as `null`.
- Numbers in the tween parameters are exact reals. No 64-bit floating-point rounding is modelled.
- Animations.CharSpans: a character is a Unicode scalar value, while JavaScript's `split("")` yields UTF-16 code units, so a character outside the Basic Multilingual Plane gives one span here and two in the source.
- Animations.Typewriter: its spans follow `Animations.CharSpans`, so they are per scalar value, not per UTF-16 code unit.
- Hero.CharSpans: per scalar value, not per UTF-16 code unit, for the same reason.
- Hero.BuildCharSpans: per scalar value, not per UTF-16 code unit, for the same reason.
- Hero.TitleElement.SplitIntoSpans: its character spans are per scalar value, not per UTF-16 code unit.
- Animations.AnimationController.Destroy: `utils.remove(animation)` (apps/dashboard/src/lib/animations.ts:49) is taken to release the tween. anime.js `utils.remove` takes the targets to strip from running tweens, and whether an animation object passed to it stops anything is not settled here.
- UseAnimations.AnimationHook.RunTeardown: takes the same release semantics for `utils.remove(animation)` (apps/dashboard/src/hooks/useAnimations.ts:82).
- UseAnimations.StaggeredHook.RunCleanup: takes the same release semantics for `utils.remove(animation)` (apps/dashboard/src/hooks/useAnimations.ts:246).
- DestroyAll: the model releases the entries in an unspecified order, while `Map.forEach` uses insertion order. The final state is the same.

## Findings

| source | as written | input that shows it | evidently intended | confidence | as-written member | corrected member |
|---|---|---|---|---|---|---|
| apps/dashboard/src/components/animations/AnimatedProjectCard.tsx:318 | `status === "in-progress" && progress && (<bar/>)` renders the value of `progress` when it is falsy, and React prints the number 0 | an in-progress project with `progress: 0` shows a stray "0" instead of nothing | render the bar for a non-zero progress and nothing otherwise | not executed | ProjectCard.ZeroProgressRendersStrayZero | ProjectCard.ProgressSlotShownIff |
| apps/dashboard/src/components/animations/AnimatedHero.tsx:134-142 | the cleanup passes the `<h1>` and the buttons' `<div>` to `utils.remove`, but the timeline's tweens target the character spans inside the heading and the buttons inside the `<div>` | unmount the hero, or toggle reduced motion, while the entrance timeline runs: the title and button tweens keep running | remove the tweens on the elements the timeline animates | not executed | Hero.CleanupStopsOnlySubtitle | Hero.IntendedCleanupStopsAll |
| apps/dashboard/src/components/animations/AnimatedHero.tsx:67-89 | the effect reads the title with `textContent`, and the rebuilt spans separate words only by a margin, so a second run reads the text without its spaces | run the effect twice (the reduced-motion preference toggled off again, or a development double run) on "AI Course Portfolio": the second run builds one word span "AICoursePortfolio" | rebuild the same words on every run | not executed | Hero.TitleRebuild | Hero.IntendedRerunIsStable |
| apps/dashboard/src/components/ui/ImageGallery.tsx:51-59 | `closeLightbox` schedules `setSelectedImage(null)` after 200 ms and `openLightbox` does not cancel it | close the lightbox and open another image within 200 ms: when the timer fires the dialog is open with nothing selected, so it shows no image | opening cancels the pending clear | not executed | ImageGallery.ReopenBeforeTimerLosesSelection | ImageGallery.IntendedReopenKeepsSelection |
| apps/dashboard/src/hooks/useAnimations.ts:120-125 | the hook's `reverse` calls the tween's `reverse()` and then `play()`, and in anime.js v4 `play()` forces forward playback | call `reverse` on a hook whose tween is playing forwards: it keeps playing forwards, the same as `play` | play the tween backwards by calling `reverse()` alone, which also resumes it | not executed; rests on the documented anime.js v4 API | UseAnimations.HookReversePlaysForward | UseAnimations.IntendedReversePlaysBackward |
