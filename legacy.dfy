/** The earlier `Pageable` class of index.js, as one state value and one
    function per operation, with the rules that set it apart from the
    current version: `scrollToIndex` checks only the bounds, a release
    moves the page on any displacement at all, the middle mouse button
    turns the direction round, `next` and `prev` never wrap, and the page
    ids keep their case. There is no infinite mode, free scrolling or
    slideshow. The class in `LegacyPageable` carries the same state in
    fields and is proved to perform exactly these transitions.

    Timers are steps, as in `Paging`: `BeginStep` is the start timer of
    `scrollBy`, `FrameStep` an animation frame with the milliseconds
    elapsed since the start. */
module Legacy {
  import opened Wrappers
  import opened Layout
  import opened Lifecycle
  import Paging
  import JsArray
  import Easing
  import Anchors
  import EventEmitter

  /** The options the instance reads: the transition time `interval`, the
      start `delay`, whether pips are drawn, the input devices, the initial
      orientation, and the browser's `"ontouchstart" in window`. */
  datatype Config = Config(
    interval: int,
    delay: int,
    pips: bool,
    events: Paging.Events,
    orientation: Paging.Orientation,
    touchDevice: bool)

  datatype State = State(
    cfg: Config,
    ids: seq<string>,            // the page ids (slugs of the data-anchor texts)
    orientation: Paging.Orientation,
    viewport: Paging.Viewport,   // `this.data.window`
    index: int,
    oldIndex: int,
    scrolling: bool,
    down: Paging.Press,
    scrollPosition: real,
    scrollSize: int,
    phase: Paging.Phase,
    amount: real,                // the distance the current transition covers
    measured: bool,              // `update()` has run, so `data`, `scrollPosition` and `scrollSize` exist
    listeners: map<string, seq<Callback>>,
    trace: seq<Notice>)

  function Count(s: State): int
  {
    |s.ids|
  }

  /** The length of a page along the axis: the viewport's width when
      horizontal, its height when vertical. */
  function Extent(o: Paging.Orientation, vp: Paging.Viewport): int
  {
    if o == Paging.Horizontal then vp.width else vp.height
  }

  function Size(s: State): int
  {
    Extent(s.orientation, s.viewport)
  }

  function AnchorsOf(s: State): seq<string>
  {
    Anchors.AnchorList(s.ids)
  }

  /** `getData()`: the index, the scroll position and the scroll size as
      they stand; nothing is corrected for clones, there are none. */
  function GetData(s: State): Snapshot
  {
    Snapshot(s.index, s.scrollPosition, s.scrollSize)
  }

  function Note(s: State, n: Notice): State
  {
    s.(trace := s.trace + [n])
  }

  function Emission(s: State, name: string, p: Payload): Notice
  {
    Emitted(name, p, EventEmitter.Listeners(s.listeners, name))
  }

  function Emit(s: State, name: string, p: Payload): State
  {
    Note(s, Emission(s, name, p))
  }

  /** At least one page, a positive transition time and indices that name
      pages. */
  predicate WellFormed(s: State)
  {
    |s.ids| > 0 && s.cfg.interval > 0 && 0 <= s.index < |s.ids| && 0 <= s.oldIndex < |s.ids|
  }

  /** `scrolling` is set exactly while a transition is pending or running. */
  predicate Coherent(s: State)
  {
    s.scrolling <==> !s.phase.Idle?
  }

  predicate Valid(s: State)
  {
    WellFormed(s) && Coherent(s)
  }

  /** The parts of the state only the constructor, `update` and `orientate`
      set. */
  predicate SameSetup(s: State, r: State)
  {
    r.cfg == s.cfg && r.ids == s.ids && r.orientation == s.orientation && r.viewport == s.viewport &&
    r.measured == s.measured && r.listeners == s.listeners
  }

  // ---------------------------------------------------------------- transitions

  /** The instance turns busy: `onBeforeStart` gets the old index and
      `scroll.before` is emitted. */
  function Busy(s: State): State
  {
    var s1 := Note(s.(scrolling := true), BeforeStart(s.oldIndex));
    Emit(s1, "scroll.before", Data(GetData(s1)))
  }

  /** `scrollBy(amount)`: refused while a transition is in flight; otherwise
      the instance is busy at once and the start timer is set. */
  function ScrollByStep(s: State, amount: real): (r: State)
    requires WellFormed(s)
    ensures WellFormed(r) && SameSetup(s, r)
    ensures Valid(s) ==> Valid(r)
    ensures s.scrolling ==> r == s
    ensures !s.scrolling ==>
              r.scrolling && r.phase == Paging.Pending(s.cfg.delay) && r.amount == amount &&
              r.index == s.index && r.oldIndex == s.oldIndex && r.down == s.down &&
              r.scrollPosition == s.scrollPosition &&
              r.trace == s.trace + [BeforeStart(s.oldIndex), Emission(s, "scroll.before", Data(GetData(s)))]
  {
    if s.scrolling then s
    else Busy(s).(phase := Paging.Pending(s.cfg.delay), amount := amount)
  }

  function MovedTo(s: State, i: int): State
  {
    s.(index := i, oldIndex := s.index)
  }

  /** `scrollToIndex(i)`: only the bounds are checked, so a request made
      while a transition is in flight still moves `index` and `oldIndex`;
      only the transition itself is refused by `scrollBy`. */
  function ScrollToIndexStep(s: State, i: int): (r: State)
    requires WellFormed(s)
    ensures WellFormed(r) && SameSetup(s, r)
    ensures Valid(s) ==> Valid(r)
    ensures (i < 0 || i >= Count(s)) ==> r == s
    ensures 0 <= i < Count(s) ==> r.index == i && r.oldIndex == s.index
    ensures 0 <= i < Count(s) && s.scrolling ==> r == s.(index := i, oldIndex := s.index)
    ensures 0 <= i < Count(s) && !s.scrolling ==>
              r.scrolling && r.phase == Paging.Pending(s.cfg.delay) &&
              r.amount == ScrollAmount(Size(s), s.index, i) as real
  {
    if 0 <= i <= Count(s) - 1 then ScrollByStep(MovedTo(s, i), ScrollAmount(Size(s), s.index, i) as real)
    else s
  }

  /** `scrollToPage(page)`: pages are numbered from 1. */
  function ScrollToPageStep(s: State, page: int): (r: State)
    requires WellFormed(s)
    ensures WellFormed(r) && SameSetup(s, r)
    ensures (page < 1 || page > Count(s)) ==> r == s
    ensures 1 <= page <= Count(s) ==> r.index == page - 1 && r.oldIndex == s.index
  {
    ScrollToIndexStep(s, page - 1)
  }

  /** `scrollToAnchor(id)`: an unknown anchor gives index -1, which is
      out of bounds. */
  function ScrollToAnchorStep(s: State, hash: string): (r: State)
    requires WellFormed(s)
    ensures WellFormed(r) && SameSetup(s, r)
    ensures hash !in AnchorsOf(s) ==> r == s
    ensures hash in AnchorsOf(s) ==>
              AnchorsOf(s)[r.index] == hash && hash !in AnchorsOf(s)[..r.index] && r.oldIndex == s.index
  {
    ScrollToIndexStep(s, JsArray.IndexOf(AnchorsOf(s), hash))
  }

  /** `next()`: no wrap, so the last page stays put. */
  function NextStep(s: State): (r: State)
    requires WellFormed(s)
    ensures WellFormed(r) && SameSetup(s, r)
    ensures s.index == Count(s) - 1 ==> r == s
    ensures s.index < Count(s) - 1 ==> r.index == s.index + 1 && r.oldIndex == s.index
  {
    ScrollToIndexStep(s, s.index + 1)
  }

  /** `prev()`: no wrap, so the first page stays put. */
  function PrevStep(s: State): (r: State)
    requires WellFormed(s)
    ensures WellFormed(r) && SameSetup(s, r)
    ensures s.index == 0 ==> r == s
    ensures 0 < s.index ==> r.index == s.index - 1 && r.oldIndex == s.index
  {
    ScrollToIndexStep(s, s.index - 1)
  }

  /** `wheel(e)`: refused when wheel input is off or a transition is in
      flight; otherwise one page forward for a positive `deltaY` and one
      back for any other, never past either end, and a transition only if
      the page changed. */
  function WheelStep(s: State, deltaY: real): (r: State)
    requires WellFormed(s)
    ensures WellFormed(r) && SameSetup(s, r)
    ensures Valid(s) ==> Valid(r)
    ensures (!s.cfg.events.wheel || s.scrolling) ==> r == s
    ensures s.cfg.events.wheel && !s.scrolling ==>
              (r == s <==> Step(s.index, Count(s), 0.0 < deltaY) == s.index)
    ensures s.cfg.events.wheel && !s.scrolling && Step(s.index, Count(s), 0.0 < deltaY) != s.index ==>
              r == ScrollToIndexStep(s, Step(s.index, Count(s), 0.0 < deltaY)) && r.scrolling
  {
    if s.cfg.events.wheel && !s.scrolling then
      var i := Step(s.index, Count(s), 0.0 < deltaY);
      if i != s.index then ScrollByStep(MovedTo(s, i), ScrollAmount(Size(s), s.index, i) as real) else s
    else s
  }

  /** `start(e)`: a press is taken when the device it comes from is enabled
      and it lands on a page. Neither a transition in flight nor the mouse
      button matters. */
  predicate StartAccepted(s: State, p: Paging.Pointer)
  {
    (if s.cfg.touchDevice then s.cfg.events.touch else s.cfg.events.mouse) && p.onPage
  }

  /** The press is recorded and `onBeforeStart` gets the current index. */
  function StartStep(s: State, p: Paging.Pointer): (r: State)
    ensures !StartAccepted(s, p) ==> r == s
    ensures StartAccepted(s, p) ==>
              r == s.(down := Paging.Pressed(p.x, p.y), trace := s.trace + [BeforeStart(s.index)])
  {
    if StartAccepted(s, p) then Note(s.(down := Paging.Pressed(p.x, p.y)), BeforeStart(s.index)) else s
  }

  /** Whether a release reads as a move forward: ending before the press
      point goes forward, ending after it goes back, and the middle mouse
      button (never a touch) turns both round. `None` when the release is
      exactly at the press point. */
  function Direction(s: State, x: real, y: real, button: int): (d: Option<bool>)
    ensures d.None? <==> Paging.Along(s.orientation, x, y) == PressAt(s)
  {
    var at := Paging.Along(s.orientation, x, y);
    var inverted := !s.cfg.touchDevice && button == 1;
    if at < PressAt(s) then Some(!inverted)
    else if at > PressAt(s) then Some(inverted)
    else None
  }

  /** `this.down[this.axis]`. */
  function PressAt(s: State): real
  {
    match s.down
    case Pressed(x, y) => Paging.Along(s.orientation, x, y)
    case Released => 0.0
  }

  /** The index after `inc()` or `dec()`, as `stop` chooses. */
  function Swiped(s: State, x: real, y: real, button: int): (r: State)
    requires WellFormed(s)
    ensures WellFormed(r) && r == s.(index := r.index)
    ensures Direction(s, x, y, button).None? ==> r.index == s.index
    ensures Direction(s, x, y, button).Some? ==> r.index == Step(s.index, Count(s), Direction(s, x, y, button).value)
  {
    match Direction(s, x, y, button)
    case None => s
    case Some(forward) => s.(index := Step(s.index, Count(s), forward))
  }

  /** The end of `stop`: an unchanged index calls `onFinish` in place,
      a changed one starts the transition from page `was`. */
  function Concluded(s: State, was: int): (r: State)
    requires WellFormed(s) && 0 <= was < Count(s)
    ensures WellFormed(r) && SameSetup(s, r)
    ensures s.index == was ==> r == Note(s, Finished(GetData(s)))
    ensures s.index != was ==> r == ScrollByStep(s.(oldIndex := was), ScrollAmount(Size(s), was, s.index) as real)
  {
    if s.index == was then Note(s, Finished(GetData(s)))
    else ScrollByStep(s.(oldIndex := was), ScrollAmount(Size(s), was, s.index) as real)
  }

  /** `stop(e)`: only a held press, and only while idle, is looked at; then
      the press is let go. A release during a transition leaves the press
      held. */
  function StopStep(s: State, x: real, y: real, button: int): (r: State)
    requires WellFormed(s)
    ensures WellFormed(r) && SameSetup(s, r)
    ensures Valid(s) ==> Valid(r)
    ensures !s.down.Pressed? || s.scrolling ==> r == s
    ensures s.down.Pressed? && !s.scrolling ==>
              r.down == Paging.Released &&
              (r.index == s.index <==> Swiped(s, x, y, button).index == s.index)
    ensures s.down.Pressed? && !s.scrolling && Swiped(s, x, y, button).index == s.index ==>
              r == s.(down := Paging.Released, trace := s.trace + [Finished(GetData(s))])
    ensures s.down.Pressed? && !s.scrolling && Swiped(s, x, y, button).index != s.index ==>
              r.index == Swiped(s, x, y, button).index && r.oldIndex == s.index && r.scrolling
  {
    if s.down.Pressed? && !s.scrolling then
      Concluded(Swiped(s, x, y, button), s.index).(down := Paging.Released)
    else s
  }

  /** The start timer fires: the animation begins from the wrapper's scroll
      offset `offset`, `onStart` gets the id of the current page and
      `scroll.start` is emitted. */
  function BeginStep(s: State, offset: real): (r: State)
    requires WellFormed(s)
    ensures WellFormed(r) && SameSetup(s, r)
    ensures Valid(s) ==> Valid(r)
    ensures !s.phase.Pending? ==> r == s
    ensures s.phase.Pending? ==>
              r == s.(phase := Paging.Animating(offset),
                      trace := s.trace + [Started(s.ids[s.index]), Emission(s, "scroll.start", Data(GetData(s)))])
  {
    if s.phase.Pending? then
      var s1 := Note(s.(phase := Paging.Animating(offset)), Started(s.ids[s.index]));
      Emit(s1, "scroll.start", Data(GetData(s1)))
    else s
  }

  /** The animation stops and the instance is idle. */
  function Halted(s: State): State
  {
    s.(scrolling := false, phase := Paging.Idle)
  }

  /** The location hash, `onFinish` and `scroll.end` follow the page the
      transition ended on. The scroll position is left as the last frame
      set it. */
  function Reported(s: State): State
    requires 0 <= s.index < Count(s)
  {
    var data := GetData(s);
    Emit(Note(Note(s, HashWritten(s.ids[s.index])), Finished(data)), "scroll.end", Data(data))
  }

  /** `onScroll` and `scroll` report a frame. */
  function FrameReported(s: State): State
  {
    var data := GetData(s);
    Emit(Note(s, Scrolled(data, false)), "scroll", Data(data))
  }

  /** An animation frame, `elapsed` milliseconds after the start: past
      `interval` the transition completes, otherwise the container is moved
      along the easing from 0 to `amount`. */
  function FrameStep(s: State, elapsed: nat): (r: State)
    requires WellFormed(s)
    ensures WellFormed(r) && SameSetup(s, r)
    ensures Valid(s) ==> Valid(r)
    ensures r.index == s.index && r.oldIndex == s.oldIndex && r.down == s.down
    ensures !s.phase.Animating? ==> r == s
    ensures s.phase.Animating? && elapsed > s.cfg.interval ==>
              !r.scrolling && r.phase.Idle? && r.scrollPosition == s.scrollPosition &&
              r.trace == s.trace + [HashWritten(s.ids[s.index]), Finished(GetData(s)),
                                    Emission(s, "scroll.end", Data(GetData(s)))]
    ensures s.phase.Animating? && elapsed <= s.cfg.interval ==>
              r.scrolling == s.scrolling && r.phase == s.phase &&
              r.trace == s.trace + [Scrolled(GetData(r), false), Emission(s, "scroll", Data(GetData(r)))]
    ensures s.phase.Animating? && elapsed <= s.cfg.interval && 0.0 <= s.amount ==>
              s.phase.offset - s.amount <= r.scrollPosition <= s.phase.offset
    ensures s.phase.Animating? && elapsed <= s.cfg.interval && s.amount <= 0.0 ==>
              s.phase.offset <= r.scrollPosition <= s.phase.offset - s.amount
  {
    if !s.phase.Animating? then s
    else if elapsed > s.cfg.interval then Reported(Halted(s))
    else
      Easing.EaseStaysBetween(elapsed as real, 0.0, s.amount, s.cfg.interval as real);
      var eased := Easing.Ease(elapsed as real, 0.0, s.amount, s.cfg.interval as real);
      FrameReported(s.(scrollPosition := s.phase.offset - eased))
  }

  /** `update()` as the class should behave: the viewport is read again and
      the scroll size and position are set for the current page, then
      `onUpdate` and `update` report. A pending start is kept (see
      `UpdateAsWritten`). */
  function UpdateStep(s: State, vp: Paging.Viewport): (r: State)
    requires WellFormed(s)
    ensures WellFormed(r)
    ensures r == s.(viewport := vp, measured := true, trace := r.trace,
                    scrollSize := (Count(s) - 1) * Extent(s.orientation, vp),
                    scrollPosition := (Extent(s.orientation, vp) * s.index) as real)
    ensures GetData(r) == Snapshot(s.index, (Extent(s.orientation, vp) * s.index) as real,
                                   (Count(s) - 1) * Extent(s.orientation, vp))
    ensures r.trace == s.trace + [Updated(GetData(r)), Emission(s, "update", Data(GetData(r)))]
  {
    var s1 := s.(viewport := vp);
    var size := Size(s1);
    var s2 := s1.(scrollSize := Count(s) * size - size, scrollPosition := (size * s.index) as real, measured := true);
    var data := GetData(s2);
    Emit(Note(s2, Updated(data)), "update", Data(data))
  }

  /** `update()` as written: `clearTimeout(this.timer)` also cancels the
      start timer of a transition that has not begun, while `scrolling`
      stays set. */
  function UpdateAsWritten(s: State, vp: Paging.Viewport): (r: State)
    requires WellFormed(s)
    ensures WellFormed(r)
    ensures Valid(s) && s.phase.Pending? ==> r.scrolling && r.phase.Idle? && !Coherent(r)
    ensures !s.phase.Pending? ==> r == UpdateStep(s, vp)
    ensures r.(phase := s.phase) == UpdateStep(s, vp)
  {
    var r := UpdateStep(s, vp);
    if s.phase.Pending? then r.(phase := Paging.Idle) else r
  }

  /** The orientation changes, and the option records it too. */
  function Turned(s: State, o: Paging.Orientation): State
  {
    s.(orientation := o, cfg := s.cfg.(orientation := o))
  }

  /** `orientate(type)`: only `"vertical"` and `"horizontal"` are taken;
      either way the option is rewritten and the instance measures again
      along the new axis. */
  function OrientateStep(s: State, t: string, vp: Paging.Viewport): (r: State)
    requires WellFormed(s)
    ensures WellFormed(r)
    ensures Valid(s) ==> Valid(r)
    ensures t != "vertical" && t != "horizontal" ==> r == s
    ensures t == "vertical" ==> r.orientation == Paging.Vertical && r.cfg.orientation == Paging.Vertical &&
                                r.scrollSize == (Count(s) - 1) * vp.height
    ensures t == "horizontal" ==> r.orientation == Paging.Horizontal && r.cfg.orientation == Paging.Horizontal &&
                                  r.scrollSize == (Count(s) - 1) * vp.width
    ensures t == "vertical" || t == "horizontal" ==> r.index == s.index && r.scrolling == s.scrolling
  {
    if t == "vertical" then UpdateStep(Turned(s, Paging.Vertical), vp)
    else if t == "horizontal" then UpdateStep(Turned(s, Paging.Horizontal), vp)
    else s
  }

  /** `setPips(index)`: with pips drawn, exactly the pip of `index`, or of
      the current page when no index is given, is marked active; without
      pips there is nothing to mark. */
  function PipClasses(s: State, at: Option<int>): (r: Option<seq<bool>>)
    ensures r.Some? <==> s.cfg.pips
    ensures r.Some? ==> |r.value| == Count(s)
    ensures r.Some? && at.None? ==> forall i :: 0 <= i < Count(s) ==> (r.value[i] <==> i == s.index)
    ensures r.Some? && at.Some? ==> forall i :: 0 <= i < Count(s) ==> (r.value[i] <==> i == at.value)
  {
    var target := if at.Some? then at.value else s.index;
    if s.cfg.pips then Some(seq(Count(s), i => PipActive(i, target))) else None
  }

  /** The page the location hash names, when it names one, becomes current
      without a transition, and `onFinish` reports it; nothing has been
      measured yet the first time, so the snapshot then carries only the
      index. */
  function HashApplied(s: State, hash: string): (r: State)
    requires WellFormed(s)
    ensures WellFormed(r) && SameSetup(s, r)
    ensures Valid(s) ==> Valid(r)
    ensures hash !in AnchorsOf(s) ==> r == s
    ensures hash in AnchorsOf(s) ==>
              AnchorsOf(s)[r.index] == hash && hash !in AnchorsOf(s)[..r.index] &&
              r == Note(s.(index := r.index),
                        if s.measured then Finished(GetData(s.(index := r.index))) else FinishedUnmeasured(r.index))
  {
    var k := JsArray.IndexOf(AnchorsOf(s), hash);
    if hash != "" && k > -1 then
      var s1 := s.(index := k);
      Note(s1, if s.measured then Finished(GetData(s1)) else FinishedUnmeasured(k))
    else s
  }

  /** `onInit` and `init` report the measured instance. */
  function Announced(s: State): (r: State)
    ensures r == s.(trace := r.trace)
    ensures r.trace == s.trace + [Initialised(GetData(s)), Emission(s, "init", Data(GetData(s)))]
  {
    var data := GetData(s);
    Emit(Note(s, Initialised(data)), "init", Data(data))
  }

  /** `load()`, the `DOMContentLoaded` handler: the hash is applied, the
      instance measures, and `onInit` and `init` report. */
  function LoadStep(s: State, hash: string, vp: Paging.Viewport): (r: State)
    requires WellFormed(s)
    ensures WellFormed(r) && r.ids == s.ids && r.measured
    ensures Valid(s) ==> Valid(r)
    ensures hash !in AnchorsOf(s) ==> r.index == s.index
    ensures hash in AnchorsOf(s) ==> AnchorsOf(s)[r.index] == hash
    ensures GetData(r) == Snapshot(r.index, (Extent(s.orientation, vp) * r.index) as real,
                                   (Count(s) - 1) * Extent(s.orientation, vp))
    ensures |r.trace| >= 2 && r.trace[|r.trace| - 2] == Initialised(GetData(r))
  {
    var h := HashApplied(s, hash);
    Announced(UpdateStep(h, vp))
  }

  /** A click on a link to a known anchor scrolls to it. */
  function ClickStep(s: State, link: Option<string>): (r: State)
    requires WellFormed(s)
    ensures WellFormed(r) && SameSetup(s, r)
    ensures link.None? || link.value !in AnchorsOf(s) ==> r == s
    ensures link.Some? && link.value in AnchorsOf(s) ==> r == ScrollToAnchorStep(s, link.value)
  {
    if link.Some? && JsArray.IndexOf(AnchorsOf(s), link.value) > -1 then ScrollToAnchorStep(s, link.value) else s
  }

  // ---------------------------------------------------------------- construction

  /** The fields the constructor sets; `init()` adds only the DOM and the
      listeners, and measuring waits for `DOMContentLoaded`. */
  function Fresh(cfg: Config, ids: seq<string>): State
  {
    State(cfg, ids, cfg.orientation, Paging.Viewport(0, 0), 0, 0, false, Paging.Released,
          0.0, 0, Paging.Idle, 0.0, false, map[], [])
  }

  /** `new Pageable(container, options)` with its three refusals; the
      `anchors` option adds pages after those already in the container,
      and the ids keep their case. */
  function Create(container: Paging.Container, extra: seq<string>, cfg: Config): (r: Result<State, string>)
    requires cfg.interval > 0
    ensures container.NoContainer? ==> r == Failure("No container defined.")
    ensures container.ContainerMissing? ==> r == Failure("The container could not be found.")
    ensures container.Container? && |container.pages + extra| == 0 ==>
              r == Failure("No child nodes with the [data-anchor] attribute could be found.")
    ensures container.Container? && |container.pages + extra| > 0 ==>
              r.Success? && Valid(r.value) && !r.value.measured && r.value.index == 0 &&
              r.value.ids == Anchors.Ids(container.pages + extra, false)
  {
    match container
    case NoContainer => Failure("No container defined.")
    case ContainerMissing => Failure("The container could not be found.")
    case Container(pages) =>
      if |pages + extra| == 0 then Failure("No child nodes with the [data-anchor] attribute could be found.")
      else Success(Fresh(cfg, Anchors.Ids(pages + extra, false)))
  }

  // ---------------------------------------------------------------- properties

  /** While a transition is in flight, a request in bounds still retargets
      the instance: when the running animation completes, the location hash
      and `onFinish` name the requested page, although the container was
      never moved towards it. */
  lemma {:induction false} BusyRequestRetargetsCompletion(s: State, i: int, elapsed: nat)
    requires Valid(s) && s.phase.Animating? && 0 <= i < Count(s) && elapsed > s.cfg.interval
    ensures var r := FrameStep(ScrollToIndexStep(s, i), elapsed);
            r.index == i && !r.scrolling && r.amount == s.amount &&
            r.trace[|r.trace| - 3] == HashWritten(s.ids[i])
  {
    var m := ScrollToIndexStep(s, i);
    assert m == s.(index := i, oldIndex := s.index);
    assert m.phase.Animating? && m.amount == s.amount;
  }

  /** A request in bounds from an idle instance is carried out: the
      transition starts, completes on page `i` and leaves the instance idle
      with the hash naming that page. */
  lemma {:induction false} ScrollToIndexCompletes(s: State, i: int, offset: real, elapsed: nat)
    requires Valid(s) && !s.scrolling && 0 <= i < Count(s) && elapsed > s.cfg.interval
    ensures var r := FrameStep(BeginStep(ScrollToIndexStep(s, i), offset), elapsed);
            r.index == i && r.oldIndex == s.index && !r.scrolling && Valid(r) &&
            r.trace[|r.trace| - 3] == HashWritten(s.ids[i])
  {
    var a := ScrollToIndexStep(s, i);
    assert a.phase.Pending? && a.index == i;
    var b := BeginStep(a, offset);
    assert b.phase.Animating? && b.index == i && b.oldIndex == s.index;
  }

  /** No swipe threshold: away from either end, any release that does not
      land exactly on the press point moves the page by one. */
  lemma {:induction false} AnyDisplacementTurnsThePage(s: State, x: real, y: real, button: int)
    requires Valid(s) && s.down.Pressed? && !s.scrolling && 0 < s.index < Count(s) - 1
    requires Paging.Along(s.orientation, x, y) != PressAt(s)
    ensures var r := StopStep(s, x, y, button);
            (r.index == s.index + 1 || r.index == s.index - 1) && r.scrolling && r.down == Paging.Released
  {
    var d := Direction(s, x, y, button);
    assert d.Some?;
    assert Swiped(s, x, y, button).index != s.index;
  }

  /** With a mouse, the middle button reverses the direction of a release:
      the same gesture that moves forward with the left button moves back
      with the middle one. */
  lemma {:induction false} MiddleButtonReverses(s: State, x: real, y: real)
    requires Valid(s) && !s.cfg.touchDevice && s.down.Pressed? && !s.scrolling && 0 < s.index < Count(s) - 1
    requires Paging.Along(s.orientation, x, y) < PressAt(s)
    ensures StopStep(s, x, y, 0).index == s.index + 1
    ensures StopStep(s, x, y, 1).index == s.index - 1
  {
    assert Direction(s, x, y, 0) == Some(true);
    assert Direction(s, x, y, 1) == Some(false);
  }

  /** Without wrap-around, `next` on the last page and `prev` on the first
      change nothing, not even while idle; in between they step by one. */
  lemma {:induction false} NoWrapAtTheEnds(s: State)
    requires Valid(s) && !s.scrolling
    ensures s.index == Count(s) - 1 ==> NextStep(s) == s && !NextStep(s).scrolling
    ensures s.index == 0 ==> PrevStep(s) == s && !PrevStep(s).scrolling
    ensures s.index < Count(s) - 1 ==> NextStep(s).scrolling && NextStep(s).index == s.index + 1
    ensures 0 < s.index ==> PrevStep(s).scrolling && PrevStep(s).index == s.index - 1
  {
    if s.index < Count(s) - 1 {
      assert ScrollToIndexStep(s, s.index + 1).scrolling;
    }
    if 0 < s.index {
      assert ScrollToIndexStep(s, s.index - 1).scrolling;
    }
  }

  /** As written, `update()` cancels the start timer: a resize between a
      request and the start of its animation leaves the instance busy for
      good, and every later wheel turn is refused. */
  lemma {:induction false} ResizeDuringDelayStrands(s: State, i: int, vp: Paging.Viewport, deltaY: real, offset: real, elapsed: nat)
    requires Valid(s) && !s.scrolling && 0 <= i < Count(s)
    ensures var stranded := UpdateAsWritten(ScrollToIndexStep(s, i), vp);
            stranded.scrolling && stranded.phase.Idle? &&
            BeginStep(stranded, offset) == stranded && FrameStep(stranded, elapsed) == stranded &&
            WheelStep(stranded, deltaY) == stranded
  {
    var a := ScrollToIndexStep(s, i);
    assert Valid(a) && a.phase.Pending?;
  }

  /** With the pending start kept, the same resize does not stop the
      transition: it starts and completes on page `i`. */
  lemma {:induction false} ResizeDuringDelayCompletes(s: State, i: int, vp: Paging.Viewport, offset: real, elapsed: nat)
    requires Valid(s) && !s.scrolling && 0 <= i < Count(s) && elapsed > s.cfg.interval
    ensures var r := FrameStep(BeginStep(UpdateStep(ScrollToIndexStep(s, i), vp), offset), elapsed);
            r.index == i && !r.scrolling && Valid(r)
  {
    var a := ScrollToIndexStep(s, i);
    var u := UpdateStep(a, vp);
    assert u.phase.Pending? && u.index == i;
    var b := BeginStep(u, offset);
    assert b.phase.Animating? && b.index == i;
  }
}
