/** The state of a pageable.js instance as one value, and every operation
    of the instance as a function from the state before to the state after.
    The `Pager` class carries the same state in fields; its methods are
    proved to perform exactly these transitions.

    Timers are replaced by explicit steps: the `setTimeout` that starts a
    transition after `config.delay` is `BeginStep`, each animation frame
    is `FrameStep` with the milliseconds elapsed since the start, and each
    firing of the slideshow interval is `TickStep`. */
module Paging {
  import opened Wrappers
  import opened Layout
  import opened Lifecycle
  import JsArray
  import Easing
  import Anchors
  import EventEmitter

  datatype Orientation = Vertical | Horizontal

  /** `config.events`: which input devices may move the pages. */
  datatype Events = Events(wheel: bool, mouse: bool, touch: bool)

  /** The merged options. `orientation` and `infinite` are the initial
      values; the instance keeps the current ones in its state, because
      `orientate` and `destroy` change them. `touchDevice` is the browser's
      `"ontouchstart" in window`, which decides whether touch or mouse events
      are listened to. */
  datatype Config = Config(
    animation: int,
    delay: int,
    swipeThreshold: int,
    freeScroll: bool,
    slideshow: bool,
    pips: bool,
    events: Events,
    orientation: Orientation,
    infinite: bool,
    touchDevice: bool)

  /** `window.innerWidth` and `window.innerHeight`, as `update` reads them. */
  datatype Viewport = Viewport(width: int, height: int)

  /** `this.down`: `false`, or where the pointer was pressed. */
  datatype Press = Released | Pressed(x: real, y: real)

  /** `this.dragging`: `false`; `true` once a press in free-scroll mode has
      been taken; or the drag offset recorded on release, which is falsy
      when it is `0`. */
  datatype Drag = NotDragging | Armed | DragOffset(px: real)

  /** Where a transition is: none; waiting for the start timer of `wait`
      milliseconds; or animating from the wrapper scroll offset read when
      the timer fired. */
  datatype Phase = Idle | Pending(wait: int) | Animating(offset: real)

  /** `this.slider`: absent, or a slideshow that is running or not. */
  datatype Slider = NoSlider | Slider(running: bool)

  /** A press: its client coordinates, the mouse button and whether its
      target lies inside a page (`closest("[data-anchor]")`). */
  datatype Pointer = Pointer(x: real, y: real, button: int, onPage: bool)

  /** The identification a keydown event carries: `e.key`, failing that
      `e.keyCode`, failing that nothing. */
  datatype Key = KeyName(name: string) | KeyCode(code: int) | NoKey

  datatype Command = GoPrev | GoNext | NoCommand

  datatype State = State(
    cfg: Config,
    ids: seq<string>,           // the page ids (slugs of the data-anchor texts)
    orientation: Orientation,
    infinite: bool,
    viewport: Viewport,
    index: int,
    oldIndex: int,
    startIndex: int,            // undefined until the first press, and only read after one
    slideIndex: int,
    scrolling: bool,
    dragging: Drag,
    down: Press,
    scrollPosition: real,
    scrollSize: int,
    phase: Phase,
    amount: real,               // the distance the current transition covers
    target: Option<int>,        // the clone a transition in infinite mode heads for
    initialised: bool,
    slider: Slider,
    listeners: map<string, seq<Callback>>,
    trace: seq<Notice>)

  function Count(s: State): int
  {
    |s.ids|
  }

  /** The extent of one page along the axis of scrolling. */
  function Size(s: State): int
  {
    if s.orientation == Horizontal then s.viewport.width else s.viewport.height
  }

  /** The coordinate of a pointer along the axis of scrolling. */
  function Along(o: Orientation, x: real, y: real): real
  {
    if o == Horizontal then x else y
  }

  /** `this.down[this.axis]`; a release without a press is never measured
      against it (see `Coherent`). */
  function PressAt(s: State): real
  {
    match s.down
    case Pressed(x, y) => Along(s.orientation, x, y)
    case Released => 0.0
  }

  predicate Truthy(d: Drag)
  {
    d.Armed? || (d.DragOffset? && d.px != 0.0)
  }

  /** `that.dragging ? that.dragging : 0`, the start value of the easing:
      `true` counts as 1. */
  function StartValue(d: Drag): (r: real)
    ensures r != 0.0 <==> Truthy(d)
    ensures d.Armed? ==> r == 1.0
  {
    match d
    case NotDragging => 0.0
    case Armed => 1.0
    case DragOffset(px) => px
  }

  function AnchorsOf(s: State): seq<string>
  {
    Anchors.AnchorList(s.ids)
  }

  /** `_getData()`. The clones of infinite mode are hidden from what is
      reported: at rest on page `i` the snapshot is `size * i` over
      `(count - 1) * size` in either mode. */
  function GetData(s: State): (d: Snapshot)
    ensures d.index == s.index
    ensures s.scrollPosition == RestPosition(Size(s), s.index, s.infinite) as real &&
            s.scrollSize == ScrollSize(Count(s), Size(s), s.infinite) ==>
              d == Snapshot(s.index, (Size(s) * s.index) as real, (Count(s) - 1) * Size(s))
  {
    RestReportIsModeIndependent(Count(s), Size(s), s.index, s.infinite);
    Snapshot(s.index,
             if s.infinite then s.scrollPosition - Size(s) as real else s.scrollPosition,
             if s.infinite then s.scrollSize - Size(s) * 2 else s.scrollSize)
  }

  function Note(s: State, n: Notice): State
  {
    s.(trace := s.trace + [n])
  }

  /** `emit(name, payload)`: the listeners registered for `name` are called
      in order. */
  function Emission(s: State, name: string, p: Payload): Notice
  {
    Emitted(name, p, EventEmitter.Listeners(s.listeners, name))
  }

  function Emit(s: State, name: string, p: Payload): State
  {
    Note(s, Emission(s, name, p))
  }

  /** What holds of every instance: at least one page, a positive animation
      time, and indices that name pages. A transition heads for a clone only
      in the two places infinite mode puts them. */
  predicate WellFormed(s: State)
  {
    |s.ids| > 0 && s.cfg.animation > 0 &&
    0 <= s.index < |s.ids| && 0 <= s.oldIndex < |s.ids| && 0 <= s.startIndex < |s.ids| &&
    (s.target.Some? ==> s.target.value == -1 || s.target.value == |s.ids|)
  }

  /** How the busy flags hang together between two events: `scrolling`
      exactly while a transition is pending or animating; a recorded drag
      offset and a clone target only during a transition; a free-scroll
      press that has not turned into a transition still held down. */
  predicate Coherent(s: State)
  {
    (s.scrolling <==> !s.phase.Idle?) &&
    (s.dragging.DragOffset? ==> s.scrolling) &&
    (s.dragging.Armed? && !s.scrolling ==> s.down.Pressed?) &&
    (s.target.Some? ==> s.scrolling)
  }

  predicate Valid(s: State)
  {
    WellFormed(s) && Coherent(s)
  }

  /** The parts of the state that only construction, `update`, `orientate`
      and `destroy` change. */
  predicate SameSetup(s: State, r: State)
  {
    r.cfg == s.cfg && r.ids == s.ids && r.orientation == s.orientation && r.infinite == s.infinite &&
    r.viewport == s.viewport && r.initialised == s.initialised && r.listeners == s.listeners
  }

  /** The parts of the state a transition request leaves alone. */
  predicate SamePlace(s: State, r: State)
  {
    SameSetup(s, r) && r.index == s.index && r.oldIndex == s.oldIndex &&
    r.startIndex == s.startIndex && r.slideIndex == s.slideIndex && r.dragging == s.dragging &&
    r.down == s.down && r.scrollPosition == s.scrollPosition && r.scrollSize == s.scrollSize
  }

  // ---------------------------------------------------------------- slideshow

  /** `SlideShow.start`: a stopped slideshow starts and re-synchronises
      `slideIndex` with the current page; otherwise nothing happens. */
  function SliderStart(s: State): (r: State)
    ensures r == s.(slider := r.slider, slideIndex := r.slideIndex)
    ensures s.slider.Slider? ==> r.slider == Slider(true)
    ensures s.slider.NoSlider? ==> r.slider == NoSlider
    ensures r.slideIndex == s.index || r.slideIndex == s.slideIndex
    ensures r.slideIndex != s.slideIndex ==> s.slider == Slider(false)
    ensures s.slider == Slider(false) ==> r.slideIndex == s.index
  {
    if s.slider == Slider(false) then s.(slider := Slider(true), slideIndex := s.index) else s
  }

  /** `SlideShow.stop`: only a running slideshow stops. */
  function SliderStop(s: State): (r: State)
    ensures r == s.(slider := r.slider)
    ensures s.slider.Slider? ==> r.slider == Slider(false)
    ensures s.slider.NoSlider? ==> r.slider == NoSlider
  {
    if s.slider == Slider(true) then s.(slider := Slider(false)) else s
  }

  /** Starting twice is starting once; stopping twice is stopping once. */
  lemma SliderStartStopIdempotent(s: State)
    ensures SliderStart(SliderStart(s)) == SliderStart(s)
    ensures SliderStop(SliderStop(s)) == SliderStop(s)
    ensures s.slider.Slider? ==> SliderStart(s).slider == Slider(true) && SliderStop(s).slider == Slider(false)
  {
  }

  /** Stopping and restarting a slideshow re-synchronises it with the page
      that shows by then, whatever it counted before. */
  lemma RestartResyncs(s: State, moved: int)
    requires s.slider.Slider?
    ensures SliderStart(SliderStop(s).(index := moved)).slideIndex == moved
    ensures SliderStart(SliderStop(s).(index := moved)).slider == Slider(true)
  {
  }

  /** `this.slider.stop()` and `this.slider.start()` where a slideshow is
      configured. */
  function Paused(s: State): (r: State)
    ensures r == s.(slider := r.slider)
    ensures s.cfg.slideshow && s.slider.Slider? ==> r.slider == Slider(false)
  {
    if s.cfg.slideshow then SliderStop(s) else s
  }

  function Resumed(s: State): (r: State)
    ensures r == s.(slider := r.slider, slideIndex := r.slideIndex)
    ensures s.cfg.slideshow && s.slider.Slider? ==> r.slider == Slider(true)
  {
    if s.cfg.slideshow then SliderStart(s) else s
  }

  // ---------------------------------------------------------------- transitions

  /** The distance `_scrollBy` waits before starting: none after a drag. */
  function StartDelay(s: State): int
  {
    if Truthy(s.dragging) then 0 else s.cfg.delay
  }

  /** `_scrollBy(amount, index)`: refused while a transition is under way;
      otherwise the instance turns busy at once, `onBeforeStart` gets the
      old index, `scroll.before` is emitted, the slideshow is suspended and
      the start timer is set. */
  function ScrollByStep(s: State, amount: real, target: Option<int>): (r: State)
    requires WellFormed(s)
    requires target.Some? ==> target.value == -1 || target.value == Count(s)
    ensures WellFormed(r) && SamePlace(s, r)
    ensures s.scrolling ==> r == s
    ensures !s.scrolling ==>
              r.scrolling && Coherent(r) &&
              r.phase == Pending(StartDelay(s)) && r.amount == amount && r.target == target
    ensures !s.scrolling ==>
              r.trace == s.trace + [BeforeStart(s.oldIndex), Emission(s, "scroll.before", Data(GetData(s)))]
    ensures !s.scrolling ==> r.slider == (if s.cfg.slideshow && s.slider.Slider? then Slider(false) else s.slider)
  {
    if s.scrolling then s
    else Paused(Busy(s)).(phase := Pending(StartDelay(s)), amount := amount, target := target)
  }

  /** The instance turns busy: `onBeforeStart` gets the old index and
      `scroll.before` is emitted. */
  function Busy(s: State): State
  {
    var s1 := Note(s.(scrolling := true), BeforeStart(s.oldIndex));
    Emit(s1, "scroll.before", Data(GetData(s1)))
  }

  /** `scrollToIndex(i)`: acts only when idle and `i` names a page; then the
      old index is remembered and a transition covering the distance
      between the two pages is requested. */
  function ScrollToIndexStep(s: State, i: int): (r: State)
    requires WellFormed(s)
    ensures WellFormed(r) && SameSetup(s, r)
    ensures Valid(s) ==> Valid(r)
    ensures (s.scrolling || i < 0 || i >= Count(s)) ==> r == s
    ensures !s.scrolling && 0 <= i < Count(s) ==>
              r.index == i && r.oldIndex == s.index && r.scrolling && Coherent(r) && r.target.None? &&
              r.amount == ScrollAmount(Size(s), s.index, i) as real &&
              r.slideIndex == s.slideIndex && r.down == s.down && r.dragging == s.dragging
  {
    if !s.scrolling && 0 <= i <= Count(s) - 1 then
      ScrollByStep(MovedTo(s, i), ScrollAmount(Size(s), s.index, i) as real, None)
    else s
  }

  function MovedTo(s: State, i: int): State
  {
    s.(index := i, oldIndex := s.index)
  }

  /** `scrollToPage(page)`: pages are numbered from 1. */
  function ScrollToPageStep(s: State, page: int): (r: State)
    requires WellFormed(s)
    ensures WellFormed(r) && SameSetup(s, r)
    ensures Valid(s) ==> Valid(r)
    ensures (s.scrolling || page < 1 || page > Count(s)) ==> r == s
    ensures !s.scrolling && 1 <= page <= Count(s) ==> r.index == page - 1 && r.scrolling
  {
    ScrollToIndexStep(s, page - 1)
  }

  /** `scrollToAnchor(hash)`: the index is looked up among the anchors, so
      an unknown anchor changes nothing and a known one leads to the first
      page carrying it. */
  function ScrollToAnchorStep(s: State, hash: string): (r: State)
    requires WellFormed(s)
    ensures WellFormed(r) && SameSetup(s, r)
    ensures Valid(s) ==> Valid(r)
    ensures (s.scrolling || hash !in AnchorsOf(s)) ==> r == s
    ensures !s.scrolling && hash in AnchorsOf(s) ==>
              r.scrolling && AnchorsOf(s)[r.index] == hash && hash !in AnchorsOf(s)[..r.index]
  {
    ScrollToIndexStep(s, JsArray.IndexOf(AnchorsOf(s), hash))
  }

  /** `next()`: in infinite mode the last page moves on to the clone of the
      first; otherwise it is `scrollToIndex(index + 1)`, which does nothing
      on the last page. */
  function NextStep(s: State): (r: State)
    requires WellFormed(s)
    ensures WellFormed(r) && SameSetup(s, r)
    ensures Valid(s) ==> Valid(r)
    ensures s.scrolling ==> r == s
    ensures !s.infinite && s.index == Count(s) - 1 ==> r == s
    ensures !s.scrolling && s.index < Count(s) - 1 ==>
              r.index == s.index + 1 && r.oldIndex == s.index && r.scrolling && r.target.None?
    ensures !s.scrolling && s.infinite && s.index == Count(s) - 1 ==>
              r.index == s.index && r.scrolling && r.target == Some(Count(s)) && r.amount == -(Size(s) as real)
  {
    if s.infinite && s.index == Count(s) - 1 then ScrollByStep(s, -(Size(s) as real), Some(Count(s)))
    else ScrollToIndexStep(s, s.index + 1)
  }

  /** `prev()`: the mirror image of `next()`. */
  function PrevStep(s: State): (r: State)
    requires WellFormed(s)
    ensures WellFormed(r) && SameSetup(s, r)
    ensures Valid(s) ==> Valid(r)
    ensures s.scrolling ==> r == s
    ensures !s.infinite && s.index == 0 ==> r == s
    ensures !s.scrolling && s.index > 0 ==>
              r.index == s.index - 1 && r.oldIndex == s.index && r.scrolling && r.target.None?
    ensures !s.scrolling && s.infinite && s.index == 0 ==>
              r.index == 0 && r.scrolling && r.target == Some(-1) && r.amount == Size(s) as real
  {
    if s.infinite && s.index == 0 then ScrollByStep(s, Size(s) as real, Some(-1))
    else ScrollToIndexStep(s, s.index - 1)
  }

  /** `_overScroll(inc, scrolled)`: from the last page forwards, or from
      the first page backwards, a transition to the adjoining clone is
      requested; the drag already covered is subtracted from its distance. */
  function OverScrollStep(s: State, inc: bool, scrolled: real): (r: State)
    requires WellFormed(s)
    ensures WellFormed(r) && SamePlace(s, r)
    ensures r == s || (!s.scrolling && r.scrolling && Coherent(r))
    ensures s.index == Count(s) - 1 && inc && !s.scrolling ==>
              r.target == Some(Count(s)) && r.amount == -(Size(s) as real) - scrolled
    ensures s.index == 0 && !inc && !s.scrolling ==>
              r.target == Some(-1) && r.amount == Size(s) as real - scrolled
    ensures !(s.index == Count(s) - 1 && inc) && !(s.index == 0 && !inc) ==> r == s
  {
    if s.index == Count(s) - 1 && inc then ScrollByStep(s, -(Size(s) as real) - scrolled, Some(Count(s)))
    else if s.index == 0 && !inc then ScrollByStep(s, Size(s) as real - scrolled, Some(-1))
    else s
  }

  /** `_wheel(e)`: ignored while busy or with the wheel switched off. A
      positive `deltaY` moves forward and anything else backward, by one
      page and never past either end; a transition is requested only when
      that candidate differs from the current page. In infinite mode a
      wheel turn past either end goes to the adjoining clone instead. */
  function WheelStep(s: State, deltaY: real): (r: State)
    requires WellFormed(s)
    ensures WellFormed(r) && SameSetup(s, r)
    ensures Valid(s) ==> Valid(r)
    ensures (!s.cfg.events.wheel || s.scrolling) ==> r == s
    ensures r.index == s.index ||
            (r.index == Step(s.index, Count(s), 0.0 < deltaY) && r.oldIndex == s.index && r.scrolling)
    ensures s.cfg.events.wheel && !s.scrolling && !s.infinite ==>
              (r == s <==> Step(s.index, Count(s), 0.0 < deltaY) == s.index)
    ensures s.cfg.events.wheel && !s.scrolling && Step(s.index, Count(s), 0.0 < deltaY) != s.index ==>
              r.index == Step(s.index, Count(s), 0.0 < deltaY)
    ensures s.cfg.events.wheel && !s.scrolling && s.infinite ==> r.scrolling
    ensures s.cfg.events.wheel && !s.scrolling && s.infinite && s.index == Count(s) - 1 && 0.0 < deltaY ==>
              r.index == s.index && r.target == Some(Count(s)) && r.amount == -(Size(s) as real)
    ensures s.cfg.events.wheel && !s.scrolling && s.infinite && s.index == 0 && !(0.0 < deltaY) ==>
              r.index == s.index && r.target == Some(-1) && r.amount == Size(s) as real
  {
    if s.cfg.events.wheel && !s.scrolling then
      var inc := 0.0 < deltaY;
      var s1 := if s.infinite then OverScrollStep(s, inc, 0.0) else s;
      var candidate := Step(s1.index, Count(s1), inc);
      if candidate != s.index then ScrollToIndexStep(s1.(oldIndex := s.index), candidate) else s1
    else s
  }

  // ---------------------------------------------------------------- pointer input

  /** Whether `_start` takes a press: not while busy, only from an enabled
      device (the primary button for a mouse), and only on a page. */
  predicate StartAccepted(s: State, p: Pointer)
  {
    !s.scrolling && !Truthy(s.dragging) &&
    (if s.cfg.touchDevice then s.cfg.events.touch else s.cfg.events.mouse && p.button == 0) &&
    p.onPage
  }

  /** `_start(e)`: a press that is taken arms free scrolling (when it is on),
      suspends the slideshow, records where it happened and which page
      showed, and calls `onBeforeStart` with the current index. */
  function StartStep(s: State, p: Pointer): (r: State)
    requires WellFormed(s)
    ensures WellFormed(r) && SameSetup(s, r)
    ensures Valid(s) ==> Valid(r)
    ensures !StartAccepted(s, p) ==> r == s
    ensures StartAccepted(s, p) ==>
              r.down == Pressed(p.x, p.y) && r.startIndex == s.index && r.index == s.index &&
              !r.scrolling && r.phase == s.phase &&
              r.dragging == (if s.cfg.freeScroll then Armed else NotDragging) &&
              r.trace == s.trace + [BeforeStart(s.index)] &&
              r.slider == (if s.cfg.slideshow then SliderStop(s).slider else s.slider)
  {
    if !StartAccepted(s, p) then s
    else
      var s1 := s.(dragging := if s.cfg.freeScroll then Armed else NotDragging);
      PressedAt(Paused(s1), p, s.index)
  }

  /** The press is recorded with the page it started on, and
      `onBeforeStart` gets that page. */
  function PressedAt(s: State, p: Pointer, was: int): State
  {
    Note(s.(down := Pressed(p.x, p.y), startIndex := was), BeforeStart(was))
  }

  /** `_limitDrag` applied to the pointer's current position. */
  function Limited(s: State, x: real, y: real): real
  {
    LimitDrag(Along(s.orientation, x, y) - PressAt(s), s.index, Count(s), s.infinite)
  }

  /** `_drag(e)`: while a free-scroll press is held, `onScroll` (with
      `"drag"`) and the `scroll` event report the offset moved by the
      dragged distance; nothing else changes. */
  function DragStep(s: State, x: real, y: real): (r: State)
    requires WellFormed(s)
    ensures r == s.(trace := r.trace)
    ensures !(s.cfg.freeScroll && Truthy(s.dragging) && !s.scrolling) ==> r == s
    ensures s.cfg.freeScroll && Truthy(s.dragging) && !s.scrolling ==>
              var d := GetData(s).(scrolled := GetData(s).scrolled - Limited(s, x, y));
              r.trace == s.trace + [Scrolled(d, true), Emission(s, "scroll", Data(d))]
  {
    if s.cfg.freeScroll && Truthy(s.dragging) && !s.scrolling then
      var d := GetData(s).(scrolled := GetData(s).scrolled - Limited(s, x, y));
      Emit(Note(s, Scrolled(d, true)), "scroll", Data(d))
    else s
  }

  /** Whether the release at (x, y) travelled far enough from a press. */
  predicate CanChange(s: State, x: real, y: real)
  {
    s.down.Pressed? && SwipeQualifies(Along(s.orientation, x, y), PressAt(s), s.cfg.swipeThreshold)
  }

  /** The free-scroll branch of `_stop`: the drag offset is kept, a swipe
      moves the index one page against the drag (or, in infinite mode past
      either end, heads for a clone), and a transition covers what the drag
      left of the distance. */
  function ReleaseDrag(s: State, x: real, y: real): (r: State)
    requires WellFormed(s)
    requires Truthy(s.dragging) && !s.scrolling && s.oldIndex == s.index
    ensures WellFormed(r) && SameSetup(s, r)
    ensures r.scrolling && Coherent(r) && r.down == Released && r.oldIndex == s.index
    ensures r.dragging == DragOffset(Limited(s, x, y))
    ensures !CanChange(s, x, y) ==> r.index == s.index
    ensures CanChange(s, x, y) ==> r.index == Step(s.index, Count(s), !(Limited(s, x, y) > 0.0))
    ensures r.index == s.index || (CanChange(s, x, y) && (r.index == s.index + 1 || r.index == s.index - 1))
  {
    var scrolled := Limited(s, x, y);
    var s1 := s.(dragging := DragOffset(scrolled));
    var s3 := if CanChange(s, x, y) then TurnStep(s1, scrolled) else s1;
    LaunchStep(s3, scrolled)
  }

  /** A free-scroll swipe: one page against the drag, after heading for a
      clone past either end in infinite mode. */
  function TurnStep(s: State, scrolled: real): (r: State)
    requires WellFormed(s)
    ensures WellFormed(r) && SameSetup(s, r)
    ensures r.oldIndex == s.oldIndex && r.dragging == s.dragging && r.down == s.down
    ensures r.index == Step(s.index, Count(s), !(scrolled > 0.0))
    ensures r == s.(index := r.index) || (!s.scrolling && r.scrolling && Coherent(r))
  {
    var s2 := if s.infinite then OverScrollStep(s, scrolled < 0.0, scrolled) else s;
    s2.(index := Step(s2.index, Count(s2), !(scrolled > 0.0)))
  }

  /** The transition that covers what the drag left of the distance; the
      press is over. */
  function LaunchStep(s: State, scrolled: real): (r: State)
    requires WellFormed(s)
    ensures WellFormed(r) && SameSetup(s, r)
    ensures r.index == s.index && r.oldIndex == s.oldIndex && r.dragging == s.dragging && r.down == Released
    ensures !s.scrolling ==> r.scrolling && Coherent(r.(down := s.down))
    ensures s.scrolling ==> r == s.(down := Released)
  {
    ScrollByStep(s, ScrollAmount(Size(s), s.oldIndex, s.index) as real - scrolled, None).(down := Released)
  }

  /** The swipe of the plain branch of `_stop`: the index moves one page
      against the pointer's travel, after heading for a clone past either
      end in infinite mode. */
  function PressSwipe(s: State, x: real, y: real): (r: State)
    requires WellFormed(s)
    ensures WellFormed(r) && SameSetup(s, r)
    ensures r.oldIndex == s.oldIndex && r.startIndex == s.startIndex && r.dragging == s.dragging
    ensures !s.infinite || !CanChange(s, x, y) ==> r == s.(index := r.index)
    ensures s.infinite && CanChange(s, x, y) ==>
              r.(index := s.index) == OverScrollStep(s, Along(s.orientation, x, y) < PressAt(s), 0.0)
    ensures !CanChange(s, x, y) ==> r.index == s.index
    ensures CanChange(s, x, y) && Along(s.orientation, x, y) < PressAt(s) ==> r.index == Step(s.index, Count(s), true)
    ensures CanChange(s, x, y) && Along(s.orientation, x, y) > PressAt(s) ==> r.index == Step(s.index, Count(s), false)
    ensures CanChange(s, x, y) && Along(s.orientation, x, y) == PressAt(s) ==> r.index == s.index
  {
    var at := Along(s.orientation, x, y);
    var forward := at < PressAt(s);
    var canChange := CanChange(s, x, y);
    var s1 := if canChange && s.infinite then OverScrollStep(s, forward, 0.0) else s;
    if canChange && forward then s1.(index := Step(s1.index, Count(s1), true))
    else if canChange && at > PressAt(s) then s1.(index := Step(s1.index, Count(s1), false))
    else s1
  }

  /** The end of the plain branch of `_stop`: if the index is the one the
      press started on, `onFinish` is called instead of a transition. */
  function SettleRelease(s: State): (r: State)
    requires WellFormed(s)
    ensures WellFormed(r) && SameSetup(s, r)
    ensures r.index == s.index && r.oldIndex == s.oldIndex && r.dragging == s.dragging && r.down == Released
    ensures s.startIndex == s.index ==> r == s.(down := Released, trace := s.trace + [Finished(GetData(s))])
    ensures s.startIndex != s.index && !s.scrolling ==> r.scrolling && Coherent(r.(down := s.down))
    ensures s.startIndex != s.index && s.scrolling ==> r == s.(down := Released)
  {
    var s1 := if s.startIndex == s.index then Note(s, Finished(GetData(s)))
              else ScrollByStep(s, ScrollAmount(Size(s), s.oldIndex, s.index) as real, None);
    s1.(down := Released)
  }

  /** The plain branch of `_stop`. */
  function ReleasePress(s: State, x: real, y: real): (r: State)
    requires WellFormed(s)
    requires s.down.Pressed? && !s.scrolling && !Truthy(s.dragging) && s.oldIndex == s.index
    ensures WellFormed(r) && SameSetup(s, r)
    ensures Valid(s) ==> Valid(r)
    ensures r.down == Released && r.oldIndex == s.index && r.dragging == s.dragging
    ensures r.index == PressSwipe(s, x, y).index
    ensures r.index == s.index || (CanChange(s, x, y) && (r.index == s.index + 1 || r.index == s.index - 1))
    ensures !s.infinite && r.index == s.startIndex ==>
              !r.scrolling && r.phase == s.phase && r.trace == s.trace + [Finished(GetData(r))]
    ensures r.index != s.startIndex ==> r.scrolling
  {
    SettleRelease(PressSwipe(s, x, y))
  }

  /** `_stop(e)`: the old index is always reset to the current one and a
      slideshow restarted; then the free-scroll branch runs if a drag is
      armed, else the plain branch if a press is held, and only while idle. */
  function StopStep(s: State, x: real, y: real): (r: State)
    requires WellFormed(s)
    ensures WellFormed(r) && SameSetup(s, r)
    ensures Valid(s) ==> Valid(r)
    ensures r.oldIndex == s.index
    ensures r.index == s.index || (CanChange(s, x, y) && !s.scrolling && (r.index == s.index + 1 || r.index == s.index - 1))
    ensures s.scrolling ==> r.index == s.index && r.down == s.down && r.phase == s.phase && r.trace == s.trace
    ensures !s.scrolling && Truthy(s.dragging) ==> r.scrolling && r.dragging.DragOffset? && r.down == Released
  {
    var s1 := Resumed(s.(oldIndex := s.index));
    assert CanChange(s1, x, y) == CanChange(s, x, y) && (Valid(s) ==> Valid(s1));
    if Truthy(s.dragging) && !s.scrolling then ReleaseDrag(s1, x, y)
    else if s.down.Pressed? && !s.scrolling then ReleasePress(s1, x, y)
    else s1
  }

  // ---------------------------------------------------------------- animation

  /** The start timer of `_scrollBy` fires: the animation begins from the
      wrapper's scroll offset `offset`, `onStart` gets the id of the current
      page and `scroll.start` is emitted. Without a pending start nothing
      fires. */
  function BeginStep(s: State, offset: real): (r: State)
    requires WellFormed(s)
    ensures WellFormed(r) && SamePlace(s, r)
    ensures Valid(s) ==> Valid(r)
    ensures !s.phase.Pending? ==> r == s
    ensures s.phase.Pending? ==>
              r == s.(phase := Animating(offset),
                      trace := s.trace + [Started(s.ids[s.index]), Emission(s, "scroll.start", Data(GetData(s)))])
  {
    if s.phase.Pending? then
      var s1 := Note(s.(phase := Animating(offset)), Started(s.ids[s.index]));
      Emit(s1, "scroll.start", Data(GetData(s1)))
    else s
  }

  /** What a frame reports: a transition heading for the clone after the
      last page reports offset 0, one heading for the clone before the first
      reports the maximum, as if the wrap had already happened. */
  function FrameData(s: State): (d: Snapshot)
    requires WellFormed(s)
    ensures d.index == s.index && d.max == GetData(s).max
    ensures s.infinite && s.target == Some(Count(s)) ==> d.scrolled == 0.0
    ensures s.infinite && s.target == Some(-1) ==> d.scrolled == d.max as real
    ensures !s.infinite || s.target.None? ==> d == GetData(s)
  {
    var d := GetData(s);
    if s.infinite && s.target == Some(Count(s)) then d.(scrolled := 0.0)
    else if s.infinite && s.target == Some(-1) then d.(scrolled := d.max as real)
    else d
  }

  /** The end of a transition: the instance is idle again, a slideshow
      resumes, in infinite mode a clone target is replaced by the page it
      shows, the location hash becomes the page id, `slideIndex` follows the
      index, and `onFinish` and `scroll.end` report the final snapshot. */
  function CompleteStep(s: State): (r: State)
    requires WellFormed(s)
    ensures Valid(r) && SameSetup(s, r)
    ensures !r.scrolling && r.phase.Idle? && r.dragging == NotDragging && r.target.None?
    ensures r.index == Renormalise(s.index, s.target, Count(s), s.infinite) && r.slideIndex == r.index
    ensures r.oldIndex == s.oldIndex && r.down == s.down && r.scrollPosition == s.scrollPosition
    ensures r.slider == (if s.cfg.slideshow then SliderStart(s).slider else s.slider)
    ensures r.trace == s.trace + [HashWritten(s.ids[r.index]), Finished(GetData(r)),
                                  Emission(s, "scroll.end", Data(GetData(r)))]
  {
    Reported(LeftClone(Resumed(Halted(s))))
  }

  /** The animation stops and the instance is idle. */
  function Halted(s: State): State
  {
    s.(scrolling := false, dragging := NotDragging, phase := Idle)
  }

  /** In infinite mode a transition that ended on a clone jumps to the page
      the clone shows. */
  function LeftClone(s: State): State
    requires WellFormed(s)
  {
    s.(index := Renormalise(s.index, s.target, Count(s), s.infinite), target := None)
  }

  /** The location hash, `slideIndex`, `onFinish` and `scroll.end` follow the
      page the transition ended on. */
  function Reported(s: State): State
    requires 0 <= s.index < Count(s)
  {
    var data := GetData(s);
    var s4 := Note(s, HashWritten(s.ids[s.index])).(slideIndex := s.index);
    Emit(Note(s4, Finished(data)), "scroll.end", Data(data))
  }

  /** An animation frame `elapsed` milliseconds after the start: past the
      animation time the transition completes; before it, the position
      follows the easing from the start value to the full distance and
      `onScroll` and `scroll` report it. Without a running animation there
      is no frame. */
  function FrameStep(s: State, elapsed: nat): (r: State)
    requires WellFormed(s)
    ensures WellFormed(r) && SameSetup(s, r)
    ensures Valid(s) ==> Valid(r)
    ensures !s.phase.Animating? ==> r == s
    ensures s.phase.Animating? && elapsed > s.cfg.animation ==> r == CompleteStep(s)
    ensures s.phase.Animating? && elapsed <= s.cfg.animation ==>
              var eased := Easing.Ease(elapsed as real, StartValue(s.dragging), s.amount, s.cfg.animation as real);
              var moved := s.(scrollPosition := s.phase.offset - eased);
              r == moved.(trace := s.trace + [Scrolled(FrameData(moved), false), Emission(s, "scroll", Data(FrameData(moved)))])
  {
    if !s.phase.Animating? then s
    else if elapsed > s.cfg.animation then CompleteStep(s)
    else
      var eased := Easing.Ease(elapsed as real, StartValue(s.dragging), s.amount, s.cfg.animation as real);
      FrameReported(s.(scrollPosition := s.phase.offset - eased))
  }

  /** `onScroll` and `scroll` report a frame. */
  function FrameReported(s: State): State
    requires WellFormed(s)
  {
    var data := FrameData(s);
    Emit(Note(s, Scrolled(data, false)), "scroll", Data(data))
  }

  /** Within the animation time an eased frame stays between the start
      value (0, 1 for an armed press, or the offset a drag left) and the
      start value plus the distance; on the last millisecond it has covered
      exactly the distance. */
  lemma FramePositionBounded(s: State, elapsed: nat)
    requires WellFormed(s) && s.phase.Animating? && elapsed <= s.cfg.animation
    ensures var st := StartValue(s.dragging);
            var moved := s.phase.offset - FrameStep(s, elapsed).scrollPosition;
            (s.amount >= 0.0 ==> st <= moved <= st + s.amount) &&
            (s.amount <= 0.0 ==> st + s.amount <= moved <= st)
    ensures elapsed == s.cfg.animation ==>
              FrameStep(s, elapsed).scrollPosition == s.phase.offset - StartValue(s.dragging) - s.amount
  {
    var d := s.cfg.animation as real;
    Easing.EaseStaysBetween(elapsed as real, StartValue(s.dragging), s.amount, d);
  }

  // ---------------------------------------------------------------- measuring

  /** `update()` with the `clearTimeout(this.timer)` it begins with left out
      (see `UpdateAsWritten`): the viewport is measured again, the scroll
      size and position are reset for the current page, and `onUpdate` and
      `update` report the snapshot. A pending or running transition is left
      as it is. */
  function UpdateStep(s: State, vp: Viewport): (r: State)
    requires WellFormed(s)
    ensures WellFormed(r)
    ensures Valid(s) ==> Valid(r)
    ensures r == s.(viewport := vp, scrollSize := r.scrollSize, scrollPosition := r.scrollPosition, trace := r.trace)
    ensures r.ids == s.ids && r.index == s.index && r.slideIndex == s.slideIndex && r.scrolling == s.scrolling
    ensures r.scrollSize == ScrollSize(Count(s), Size(r), s.infinite)
    ensures r.scrollPosition == RestPosition(Size(r), s.index, s.infinite) as real
    ensures GetData(r) == Snapshot(s.index, (Size(r) * s.index) as real, (Count(s) - 1) * Size(r))
    ensures r.trace == s.trace + [Updated(GetData(r)), Emission(s, "update", Data(GetData(r)))]
  {
    var s1 := s.(viewport := vp);
    var size := Size(s1);
    var s2 := s1.(scrollSize := ScrollSize(Count(s), size, s.infinite),
                  scrollPosition := RestPosition(size, s.index, s.infinite) as real);
    RestReportIsModeIndependent(Count(s), size, s.index, s.infinite);
    Emit(Note(s2, Updated(GetData(s2))), "update", Data(GetData(s2)))
  }

  /** `update()` as written: it also cancels the start timer of a pending
      transition, which leaves `scrolling` set with nothing left to clear
      it. */
  function UpdateAsWritten(s: State, vp: Viewport): (r: State)
    requires WellFormed(s)
    ensures WellFormed(r)
    ensures Valid(s) && s.phase.Pending? ==> r.scrolling && r.phase.Idle? && !Coherent(r)
    ensures !s.phase.Pending? ==> r == UpdateStep(s, vp)
    ensures r.(phase := s.phase) == UpdateStep(s, vp)
  {
    var r := UpdateStep(s, vp);
    if s.phase.Pending? then r.(phase := Idle) else r
  }

  /** `orientate(type)`: `"vertical"` and `"horizontal"` switch the axis and
      measure again; any other type is refused. */
  function OrientateStep(s: State, t: string, vp: Viewport): (r: State)
    requires WellFormed(s)
    ensures WellFormed(r)
    ensures Valid(s) ==> Valid(r)
    ensures t != "vertical" && t != "horizontal" ==> r == s
    ensures t == "vertical" ==> r.orientation == Vertical && Size(r) == vp.height
    ensures t == "horizontal" ==> r.orientation == Horizontal && Size(r) == vp.width
    ensures t == "vertical" || t == "horizontal" ==>
              r.index == s.index && r.phase == s.phase &&
              GetData(r) == Snapshot(s.index, (Size(r) * s.index) as real, (Count(s) - 1) * Size(r))
  {
    if t == "vertical" then UpdateStep(s.(orientation := Vertical), vp)
    else if t == "horizontal" then UpdateStep(s.(orientation := Horizontal), vp)
    else s
  }

  // ---------------------------------------------------------------- lifecycle

  /** `destroy()`: only an initialised instance is taken down. It emits
      `destroy`, leaves infinite mode (removing the clones measures again),
      drops the slideshow and is no longer initialised. */
  function DestroyStep(s: State, vp: Viewport): (r: State)
    requires WellFormed(s)
    ensures WellFormed(r)
    ensures Valid(s) ==> Valid(r)
    ensures !s.initialised ==> r == s
    ensures !r.initialised && r.index == s.index && r.phase == s.phase && r.listeners == s.listeners
    ensures s.initialised ==>
              !r.infinite && (s.cfg.slideshow ==> r.slider == NoSlider) &&
              |r.trace| > |s.trace| && r.trace[|s.trace|] == Emission(s, "destroy", NoData)
  {
    if !s.initialised then s
    else
      var s1 := Emit(s, "destroy", NoData);
      var s2 := if s.infinite then ToggleInfiniteStep(s1, true, false, vp) else s1;
      var s3 := if s.cfg.slideshow then Dropped(s2) else s2;
      s3.(initialised := false)
  }

  /** `_toggleInfinite(destroy, force)`: removing the clones leaves infinite
      mode, adding them enters it; either way the instance measures again. */
  function ToggleInfiniteStep(s: State, destroy: bool, force: bool, vp: Viewport): (r: State)
    requires WellFormed(s)
    ensures destroy && s.infinite ==> !r.infinite
    ensures !(destroy && s.infinite) && (!s.infinite || force) ==> r.infinite
    ensures r == UpdateStep(s.(infinite := r.infinite), vp)
  {
    var on := if destroy && s.infinite then false else if !s.infinite || force then true else s.infinite;
    UpdateStep(s.(infinite := on), vp)
  }

  /** The slideshow is stopped and dropped. */
  function Dropped(s: State): State
  {
    SliderStop(s).(slider := NoSlider)
  }

  /** Destroying twice is destroying once. */
  lemma DestroyIdempotent(s: State, vp: Viewport, vp2: Viewport)
    requires WellFormed(s)
    ensures DestroyStep(DestroyStep(s, vp), vp2) == DestroyStep(s, vp)
  {
  }

  /** The part of `_load()` before it measures again: a location hash
      naming a page makes that page current without a transition, the
      scroll position is set for it, `slideIndex` follows, and `onScroll`,
      `onFinish` and `scroll` report a snapshot. The snapshot is taken
      before the index is assigned, so it carries the index from before. */
  function LoadHash(s: State, hash: string): (r: State)
    requires WellFormed(s)
    ensures WellFormed(r) && SameSetup(s, r)
    ensures Valid(s) ==> Valid(r)
    ensures hash !in AnchorsOf(s) ==> r == s
    ensures hash in AnchorsOf(s) ==>
              AnchorsOf(s)[r.index] == hash && hash !in AnchorsOf(s)[..r.index] && r.slideIndex == r.index &&
              var d := Snapshot(s.index, (Size(s) * r.index) as real, GetData(s).max);
              r == s.(index := r.index, slideIndex := r.index,
                      scrollPosition := RestPosition(Size(s), r.index, s.infinite) as real,
                      trace := s.trace + [Scrolled(d, false), Finished(d), Emission(s, "scroll", Data(d))])
  {
    var k := JsArray.IndexOf(AnchorsOf(s), hash);
    if hash != "" && k > -1 then
      JumpedTo(s, k)
    else s
  }

  /** The wrapper's scroll offset is set for page `k`. */
  function Placed(s: State, k: int): State
  {
    var offset := if s.infinite then 1 else 0;
    s.(scrollPosition := (Size(s) * (k + offset)) as real)
  }

  /** Page `k` becomes current, reported with the snapshot taken before. */
  function JumpedTo(s: State, k: int): (r: State)
    requires WellFormed(s)
    ensures var d := Snapshot(s.index, (Size(s) * k) as real, GetData(s).max);
            r == s.(index := k, slideIndex := k, scrollPosition := RestPosition(Size(s), k, s.infinite) as real,
                    trace := s.trace + [Scrolled(d, false), Finished(d), Emission(s, "scroll", Data(d))])
  {
    var sp := Placed(s, k);
    Arrival(sp.(index := k, slideIndex := k), GetData(sp))
  }

  /** `onScroll`, `onFinish` and `scroll` report `data`. */
  function Arrival(s: State, data: Snapshot): State
  {
    Emit(Note(Note(s, Scrolled(data, false)), Finished(data)), "scroll", Data(data))
  }

  /** `_load()`: the hash is applied, then the instance measures again. */
  function LoadStep(s: State, hash: string, vp: Viewport): (r: State)
    requires WellFormed(s)
    ensures WellFormed(r) && r.ids == s.ids
    ensures Valid(s) ==> Valid(r)
    ensures hash !in AnchorsOf(s) ==> r == UpdateStep(s, vp)
    ensures hash in AnchorsOf(s) ==>
              AnchorsOf(s)[r.index] == hash && r.slideIndex == r.index && !r.scrolling == !s.scrolling &&
              GetData(r) == Snapshot(r.index, (Size(r) * r.index) as real, (Count(s) - 1) * Size(r))
  {
    UpdateStep(LoadHash(s, hash), vp)
  }

  // ---------------------------------------------------------------- keyboard and links

  function PrevArrow(o: Orientation): string
  {
    if o == Horizontal then "ArrowLeft" else "ArrowUp"
  }

  function NextArrow(o: Orientation): string
  {
    if o == Horizontal then "ArrowRight" else "ArrowDown"
  }

  /** The `switch` of `_keydown`, compared strictly: key codes 33 and 37,
      the backward arrow of the axis and `PageUp` go back; key codes 34 and
      39, the forward arrow and `PageDown` go forward. */
  function KeyCommand(key: Key, o: Orientation): (c: Command)
    ensures c == GoPrev <==>
              key == KeyCode(33) || key == KeyCode(37) || key == KeyName(PrevArrow(o)) || key == KeyName("PageUp")
    ensures c == GoNext <==>
              key == KeyCode(34) || key == KeyCode(39) || key == KeyName(NextArrow(o)) || key == KeyName("PageDown")
  {
    match key
    case KeyCode(code) =>
      if code == 33 || code == 37 then GoPrev
      else if code == 34 || code == 39 then GoNext
      else NoCommand
    case KeyName(name) =>
      if name == PrevArrow(o) || name == "PageUp" then GoPrev
      else if name == NextArrow(o) || name == "PageDown" then GoNext
      else NoCommand
    case NoKey => NoCommand
  }

  /** `_keydown(e)`: ignored while a transition or a drag is under way;
      otherwise the key decides between `prev()`, `next()` and nothing. */
  function KeydownStep(s: State, key: Key): (r: State)
    requires WellFormed(s)
    ensures WellFormed(r) && SameSetup(s, r)
    ensures Valid(s) ==> Valid(r)
    ensures s.scrolling || Truthy(s.dragging) ==> r == s
    ensures !s.scrolling && !Truthy(s.dragging) && KeyCommand(key, s.orientation) == GoPrev ==> r == PrevStep(s)
    ensures !s.scrolling && !Truthy(s.dragging) && KeyCommand(key, s.orientation) == GoNext ==> r == NextStep(s)
    ensures KeyCommand(key, s.orientation) == NoCommand ==> r == s
  {
    if s.scrolling || Truthy(s.dragging) then s
    else
      match KeyCommand(key, s.orientation)
      case GoPrev => PrevStep(s)
      case GoNext => NextStep(s)
      case NoCommand => s
  }

  /** The arrow keys follow the axis, while the numeric codes of the left
      and right arrows work on both axes. */
  lemma ArrowKeysFollowAxis(s: State)
    requires WellFormed(s) && !s.scrolling && !Truthy(s.dragging)
    ensures s.orientation == Vertical ==>
              KeydownStep(s, KeyName("ArrowUp")) == PrevStep(s) && KeydownStep(s, KeyName("ArrowLeft")) == s
    ensures s.orientation == Horizontal ==>
              KeydownStep(s, KeyName("ArrowLeft")) == PrevStep(s) && KeydownStep(s, KeyName("ArrowUp")) == s
    ensures KeydownStep(s, KeyCode(37)) == PrevStep(s) && KeydownStep(s, KeyCode(39)) == NextStep(s)
  {
    assert KeyCommand(KeyName("ArrowLeft"), Vertical) == NoCommand;
    assert KeyCommand(KeyName("ArrowUp"), Horizontal) == NoCommand;
  }

  /** `_click(e)`: a click on a link whose hash is one of the anchors
      scrolls to it; `link` is that hash, `None` when no link was hit. */
  function ClickStep(s: State, link: Option<string>): (r: State)
    requires WellFormed(s)
    ensures WellFormed(r) && SameSetup(s, r)
    ensures Valid(s) ==> Valid(r)
    ensures link.None? || link.value !in AnchorsOf(s) || s.scrolling ==> r == s
    ensures link.Some? && link.value in AnchorsOf(s) && !s.scrolling ==>
              r.scrolling && AnchorsOf(s)[r.index] == link.value
  {
    if link.Some? && link.value in AnchorsOf(s) then ScrollToAnchorStep(s, link.value) else s
  }

  /** The membership test of `_click` is redundant: `scrollToAnchor` already
      ignores an unknown hash. */
  lemma ClickIsScrollToAnchor(s: State, hash: string)
    requires WellFormed(s)
    ensures ClickStep(s, Some(hash)) == ScrollToAnchorStep(s, hash)
  {
  }

  /** With distinct page ids, following the anchor of page `k` goes to page
      `k`. */
  lemma AnchorReachesItsPage(s: State, k: int)
    requires WellFormed(s) && !s.scrolling && 0 <= k < Count(s)
    requires forall i, j :: 0 <= i < j < |s.ids| ==> s.ids[i] != s.ids[j]
    ensures ScrollToAnchorStep(s, "#" + s.ids[k]).index == k
    ensures ClickStep(s, Some("#" + s.ids[k])).index == k
  {
    Anchors.AnchorLookupFindsPage(s.ids, k);
  }

  // ---------------------------------------------------------------- slideshow tick

  /** One firing of the slideshow interval: `onBeforeStart` gets
      `slideIndex`; in infinite mode the last page heads for the clone of
      the first; `slideIndex` advances, or returns to 0 when the current
      page is the last, and the instance scrolls to it. */
  function TickStep(s: State): (r: State)
    requires WellFormed(s)
    ensures WellFormed(r) && SameSetup(s, r)
    ensures Valid(s) ==> Valid(r)
    ensures |r.trace| > |s.trace| && r.trace[|s.trace|] == BeforeStart(s.slideIndex)
    ensures r.slideIndex == (if s.index < Count(s) - 1 then s.slideIndex + 1 else 0)
    ensures s.scrolling ==> r == Note(s, BeforeStart(s.slideIndex)).(slideIndex := r.slideIndex)
    ensures !s.scrolling && s.slideIndex == s.index && (s.index < Count(s) - 1 || !s.infinite) ==>
              r.scrolling && r.index == (if s.index < Count(s) - 1 then s.index + 1 else 0)
    ensures !s.scrolling && s.infinite && s.index == Count(s) - 1 ==>
              r.scrolling && r.index == s.index && r.target == Some(Count(s))
  {
    var s1 := Note(s, BeforeStart(s.slideIndex));
    var s2 := if s.infinite then OverScrollStep(s1, true, 0.0) else s1;
    var s3 := Advanced(s2);
    ScrollToIndexStep(s3, s3.slideIndex)
  }

  /** The slideshow's position moves on, back to 0 after the last page. */
  function Advanced(s: State): State
  {
    s.(slideIndex := if s.index < Count(s) - 1 then s.slideIndex + 1 else 0)
  }

  // ---------------------------------------------------------------- construction

  /** The element handed to the constructor: none, a selector that matches
      nothing, or a container whose `[data-anchor]` children carry these
      anchor texts. */
  datatype Container = NoContainer | ContainerMissing | Container(pages: seq<string>)

  /** The instance fields as the constructor sets them before `init()`. */
  function Fresh(cfg: Config, ids: seq<string>, vp: Viewport): State
  {
    State(cfg, ids, cfg.orientation, cfg.infinite, vp, 0, 0, 0, 0, false, NotDragging, Released,
          0.0, 0, Idle, 0.0, None, false, NoSlider, map[], [])
  }

  /** The measuring part of `init()`: infinite mode measures once for its
      clones, then the instance measures and applies the location hash. */
  function Measured(cfg: Config, ids: seq<string>, vp: Viewport, hash: string): (r: State)
    requires |ids| > 0 && cfg.animation > 0
    ensures Valid(r) && !r.initialised && r.ids == ids && r.cfg == cfg && r.listeners == map[]
    ensures !r.scrolling && r.dragging == NotDragging && r.down == Released && r.slideIndex == r.index
    ensures r.slider == NoSlider
    ensures hash in Anchors.AnchorList(ids) ==> Anchors.AnchorList(ids)[r.index] == hash
    ensures hash !in Anchors.AnchorList(ids) ==> r.index == 0
    ensures GetData(r) == Snapshot(r.index, (Size(r) * r.index) as real, (|ids| - 1) * Size(r))
  {
    var s0 := Fresh(cfg, ids, vp);
    assert Valid(s0);
    var s1 := if cfg.infinite then ToggleInfiniteStep(s0, false, true, vp) else s0;
    var s2 := UpdateStep(s1, vp);
    assert s2.slider == NoSlider && s2.index == 0 && s2.slideIndex == 0 && !s2.initialised;
    LoadStep(s2, hash, vp)
  }

  /** `this.slider = new SlideShow(this); this.slider.start()`. */
  function Attached(s: State): State
  {
    SliderStart(s.(slider := Slider(false)))
  }

  /** `init()`: after measuring, `onInit` and `init` report the snapshot and
      a slideshow starts when one is configured. */
  function InitStep(cfg: Config, ids: seq<string>, vp: Viewport, hash: string): (r: State)
    requires |ids| > 0 && cfg.animation > 0
    ensures Valid(r) && r.initialised && r.ids == ids && r.cfg == cfg && r.listeners == map[]
    ensures !r.scrolling && r.dragging == NotDragging && r.down == Released && r.slideIndex == r.index
    ensures hash in Anchors.AnchorList(ids) ==> Anchors.AnchorList(ids)[r.index] == hash
    ensures hash !in Anchors.AnchorList(ids) ==> r.index == 0
    ensures r.slider == (if cfg.slideshow then Slider(true) else NoSlider)
    ensures GetData(r) == Snapshot(r.index, (Size(r) * r.index) as real, (|ids| - 1) * Size(r))
    ensures |r.trace| > 0 && r.trace[|r.trace| - 1] == Emitted("init", Data(GetData(r)), [])
  {
    var s2 := Measured(cfg, ids, vp, hash);
    var data := GetData(s2);
    var s3 := Emit(Note(s2, Initialised(data)), "init", Data(data)).(initialised := true);
    if cfg.slideshow then Attached(s3) else s3
  }

  /** `new Pageable(container, options)`: the three refusals with the
      messages the constructor logs, or an initialised instance whose page
      ids are the lower-cased slugs of the anchor texts (those of the
      `anchors` option appended). */
  function Create(container: Container, extra: seq<string>, cfg: Config, vp: Viewport, hash: string): (r: Result<State, string>)
    requires cfg.animation > 0
    ensures container.NoContainer? ==> r == Failure("No container defined.")
    ensures container.ContainerMissing? ==> r == Failure("The container could not be found.")
    ensures container.Container? && |container.pages + extra| == 0 ==>
              r == Failure("No child nodes with the [data-anchor] attribute could be found.")
    ensures container.Container? && |container.pages + extra| > 0 ==>
              r.Success? && Valid(r.value) && r.value.initialised &&
              r.value.ids == Anchors.Ids(container.pages + extra, true)
  {
    match container
    case NoContainer => Failure("No container defined.")
    case ContainerMissing => Failure("The container could not be found.")
    case Container(pages) =>
      if |pages + extra| == 0 then Failure("No child nodes with the [data-anchor] attribute could be found.")
      else Success(InitStep(cfg, Anchors.Ids(pages + extra, true), vp, hash))
  }
}
