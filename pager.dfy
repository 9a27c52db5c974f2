/** A pageable.js instance as an object: its fields are the properties the
    source assigns, and every method is proved to perform exactly the
    transition of `Paging` that describes it. The slideshow is a second
    object that points back at its instance. */
module Pageable {
  import opened Wrappers
  import opened Layout
  import opened Lifecycle
  import opened Paging
  import JsArray
  import Easing
  import EventEmitter

  class Pager {
    const cfg: Config
    const ids: seq<string>
    var orientation: Orientation
    var infinite: bool
    var viewport: Viewport
    var index: int
    var oldIndex: int
    var startIndex: int
    var slideIndex: int
    var scrolling: bool
    var dragging: Drag
    var down: Press
    var scrollPosition: real
    var scrollSize: int
    var phase: Phase
    var amount: real
    var target: Option<int>
    var initialised: bool
    var slider: SlideShow?
    var listeners: map<string, seq<Callback>>
    var trace: seq<Notice>

    /** The instance's state as a value. */
    function Model(): State
      reads this, slider
    {
      State(cfg, ids, orientation, infinite, viewport, index, oldIndex, startIndex, slideIndex,
            scrolling, dragging, down, scrollPosition, scrollSize, phase, amount, target, initialised,
            if slider == null then NoSlider else Slider(slider.running), listeners, trace)
    }

    /** The slideshow, when there is one, belongs to this instance. */
    predicate Linked()
      reads this, slider
    {
      slider != null ==> slider.instance == this
    }

    predicate Ready()
      reads this, slider
    {
      Linked() && WellFormed(Model())
    }

    /** `new Pageable(container, options)` once the container and its pages
        have been found: the fields are set, then `init()` runs. */
    constructor (cfg: Config, ids: seq<string>, vp: Viewport, hash: string)
      requires |ids| > 0 && cfg.animation > 0
      ensures Linked() && Model() == InitStep(cfg, ids, vp, hash)
    {
      this.cfg := cfg;
      this.ids := ids;
      orientation := cfg.orientation;
      infinite := cfg.infinite;
      viewport := vp;
      index, oldIndex, startIndex, slideIndex := 0, 0, 0, 0;
      scrolling, dragging, down := false, NotDragging, Released;
      scrollPosition, scrollSize := 0.0, 0;
      phase, amount, target := Idle, 0.0, None;
      initialised := false;
      slider := null;
      listeners := map[];
      trace := [];
      new;
      Init(vp, hash);
    }

    /** `init()` on a fresh instance. */
    method Init(vp: Viewport, hash: string)
      requires slider == null && Model() == Fresh(cfg, ids, vp) && WellFormed(Model())
      modifies this
      ensures Linked() && Model() == InitStep(cfg, ids, vp, hash)
    {
      Measure(vp, hash);
      var data := GetData(Model());
      Notify(Initialised(data));
      Emit("init", Data(data));
      MarkInitialised();
      if cfg.slideshow {
        AttachSlideshow();
      }
    }

    /** The measuring part of `init()`. */
    method Measure(vp: Viewport, hash: string)
      requires slider == null && Model() == Fresh(cfg, ids, vp) && WellFormed(Model())
      modifies this
      ensures slider == null && Model() == Measured(cfg, ids, vp, hash)
    {
      if infinite {
        ToggleInfinite(false, true, vp);
      }
      Update(vp);
      Load(hash, vp);
    }

    method MarkInitialised()
      modifies this`initialised
      ensures Model() == old(Model()).(initialised := true)
    {
      initialised := true;
    }

    /** `this.slider = new SlideShow(this); this.slider.start()`. */
    method AttachSlideshow()
      requires slider == null
      modifies this
      ensures Linked() && fresh(slider)
      ensures Model() == Attached(old(Model()))
    {
      slider := new SlideShow(this);
      slider.Start();
    }

    /** The constructor with its three refusals. */
    static method Create(container: Container, extra: seq<string>, cfg: Config, vp: Viewport, hash: string)
      returns (r: Result<Pager, string>)
      requires cfg.animation > 0
      ensures r.Failure? <==> Paging.Create(container, extra, cfg, vp, hash).Failure?
      ensures r.Failure? ==> r.error == Paging.Create(container, extra, cfg, vp, hash).error
      ensures r.Success? ==>
                fresh(r.value) && r.value.Linked() &&
                r.value.Model() == Paging.Create(container, extra, cfg, vp, hash).value
    {
      match container {
        case NoContainer =>
          return Failure("No container defined.");
        case ContainerMissing =>
          return Failure("The container could not be found.");
        case Container(pages) =>
          if |pages + extra| == 0 {
            return Failure("No child nodes with the [data-anchor] attribute could be found.");
          }
          var p := new Pager(cfg, Anchors.Ids(pages + extra, true), vp, hash);
          return Success(p);
      }
    }

    /** Calls a configuration hook. */
    method Notify(n: Notice)
      modifies this`trace
      ensures Model() == Note(old(Model()), n)
    {
      trace := trace + [n];
    }

    /** `emit(name, payload)`. */
    method Emit(name: string, p: Payload)
      modifies this`trace
      ensures Model() == Paging.Emit(old(Model()), name, p)
    {
      trace := trace + [Emission(Model(), name, p)];
    }

    /** `on(name, callback)`. */
    method On(name: string, cb: Callback)
      modifies this`listeners
      ensures listeners == EventEmitter.Subscribe(old(listeners), name, cb)
    {
      listeners := EventEmitter.Subscribe(listeners, name, cb);
    }

    /** `off(name, callback)`. */
    method Off(name: string, cb: Callback)
      modifies this`listeners
      ensures listeners == EventEmitter.Unsubscribe(old(listeners), name, cb)
    {
      listeners := EventEmitter.Unsubscribe(listeners, name, cb);
    }

    /** `this.slider.stop()` where a slideshow is configured. */
    method PauseSlideshow()
      requires Linked()
      modifies slider
      ensures Linked() && slider == old(slider)
      ensures Model() == Paused(old(Model()))
    {
      if cfg.slideshow && slider != null {
        slider.Stop();
      }
    }

    /** `this.slider.start()` where a slideshow is configured. */
    method ResumeSlideshow()
      requires Linked()
      modifies this`slideIndex, slider
      ensures Linked() && slider == old(slider)
      ensures Model() == Resumed(old(Model()))
    {
      if cfg.slideshow && slider != null {
        slider.Start();
      }
    }

    method ScrollBy(amount: real, target: Option<int>)
      requires Ready()
      requires target.Some? ==> target.value == -1 || target.value == |ids|
      modifies this, slider
      ensures Linked() && slider == old(slider) && Model() == ScrollByStep(old(Model()), amount, target)
    {
      if scrolling {
        return;
      }
      var wait := StartDelay(Model());
      MarkBusy();
      PauseSlideshow();
      ScheduleStart(wait, amount, target);
    }

    /** `this.scrolling = true`, `onBeforeStart` and `scroll.before`. */
    method MarkBusy()
      modifies this`scrolling, this`trace
      ensures Model() == Busy(old(Model()))
    {
      scrolling := true;
      Notify(BeforeStart(oldIndex));
      Emit("scroll.before", Data(GetData(Model())));
    }

    /** The start timer `_scrollBy` sets, with what its callback will use. */
    method ScheduleStart(wait: int, amount: real, target: Option<int>)
      modifies this`phase, this`amount, this`target
      ensures Model() == old(Model()).(phase := Pending(wait), amount := amount, target := target)
    {
      phase, this.amount, this.target := Pending(wait), amount, target;
    }

    method ScrollToIndex(i: int)
      requires Ready()
      modifies this, slider
      ensures Linked() && slider == old(slider) && Model() == ScrollToIndexStep(old(Model()), i)
    {
      if !scrolling && 0 <= i <= |ids| - 1 {
        var distance := ScrollAmount(Size(Model()), index, i) as real;
        MoveTo(i);
        ScrollBy(distance, None);
      }
    }

    /** `this.index = index; this.oldIndex = oldIndex`. */
    method MoveTo(i: int)
      modifies this`index, this`oldIndex
      ensures Model() == MovedTo(old(Model()), i)
    {
      index, oldIndex := i, index;
    }

    method ScrollToPage(page: int)
      requires Ready()
      modifies this, slider
      ensures Linked() && slider == old(slider) && Model() == ScrollToPageStep(old(Model()), page)
    {
      ScrollToIndex(page - 1);
    }

    method ScrollToAnchor(hash: string)
      requires Ready()
      modifies this, slider
      ensures Linked() && slider == old(slider) && Model() == ScrollToAnchorStep(old(Model()), hash)
    {
      ScrollToIndex(JsArray.IndexOf(Anchors.AnchorList(ids), hash));
    }

    method Next()
      requires Ready()
      modifies this, slider
      ensures Linked() && slider == old(slider) && Model() == NextStep(old(Model()))
    {
      if infinite && index == |ids| - 1 {
        ScrollBy(-(Size(Model()) as real), Some(|ids|));
        return;
      }
      ScrollToIndex(index + 1);
    }

    method Prev()
      requires Ready()
      modifies this, slider
      ensures Linked() && slider == old(slider) && Model() == PrevStep(old(Model()))
    {
      if infinite && index == 0 {
        ScrollBy(Size(Model()) as real, Some(-1));
        return;
      }
      ScrollToIndex(index - 1);
    }

    method OverScroll(inc: bool, scrolled: real)
      requires Ready()
      modifies this, slider
      ensures Linked() && slider == old(slider) && Model() == OverScrollStep(old(Model()), inc, scrolled)
    {
      if index == |ids| - 1 && inc {
        ScrollBy(-(Size(Model()) as real) - scrolled, Some(|ids|));
      } else if index == 0 && !inc {
        ScrollBy(Size(Model()) as real - scrolled, Some(-1));
      }
    }

    method Wheel(deltaY: real)
      requires Ready()
      modifies this, slider
      ensures Linked() && slider == old(slider) && Model() == WheelStep(old(Model()), deltaY)
    {
      if cfg.events.wheel && !scrolling {
        var was := index;
        var inc := 0.0 < deltaY;
        if infinite {
          OverScroll(inc, 0.0);
        }
        var candidate := Step(index, |ids|, inc);
        if candidate != was {
          RecordOldIndex(was);
          ScrollToIndex(candidate);
        }
      }
    }

    method RecordOldIndex(i: int)
      modifies this`oldIndex
      ensures Model() == old(Model()).(oldIndex := i)
    {
      oldIndex := i;
    }

    method Start(p: Pointer)
      requires Ready()
      modifies this, slider
      ensures Linked() && slider == old(slider) && Model() == StartStep(old(Model()), p)
    {
      if !StartAccepted(Model(), p) {
        return;
      }
      var was := index;
      Arm();
      PauseSlideshow();
      Press(p, was);
    }

    /** A press arms a drag when free scrolling is on. */
    method Arm()
      modifies this`dragging
      ensures Model() == old(Model()).(dragging := if cfg.freeScroll then Armed else NotDragging)
    {
      dragging := if cfg.freeScroll then Armed else NotDragging;
    }

    /** Where the press happened and which page showed. */
    method Press(p: Pointer, was: int)
      modifies this`down, this`startIndex, this`trace
      ensures Model() == PressedAt(old(Model()), p, was)
    {
      down, startIndex := Pressed(p.x, p.y), was;
      Notify(BeforeStart(was));
    }

    method Drag(x: real, y: real)
      requires Ready()
      modifies this`trace
      ensures Model() == DragStep(old(Model()), x, y)
    {
      if cfg.freeScroll && Truthy(dragging) && !scrolling {
        var scrolled := Limited(Model(), x, y);
        var data := GetData(Model());
        data := data.(scrolled := data.scrolled - scrolled);
        Notify(Scrolled(data, true));
        Emit("scroll", Data(data));
      }
    }

    /** `inc()` of `_stop`. */
    method Inc()
      requires 0 <= index < |ids|
      modifies this`index
      ensures Model() == old(Model()).(index := Step(old(index), |ids|, true))
    {
      if index < |ids| - 1 {
        index := index + 1;
      }
    }

    /** `dec()` of `_stop`. */
    method Dec()
      requires 0 <= index < |ids|
      modifies this`index
      ensures Model() == old(Model()).(index := Step(old(index), |ids|, false))
    {
      if 0 < index {
        index := index - 1;
      }
    }

    /** `this.down = false`. */
    method ClearPress()
      modifies this`down
      ensures Model() == old(Model()).(down := Released)
    {
      down := Released;
    }

    method Stop(x: real, y: real)
      requires Ready()
      modifies this, slider
      ensures Linked() && slider == old(slider) && Model() == StopStep(old(Model()), x, y)
    {
      RecordOldIndex(index);
      ResumeSlideshow();
      if Truthy(dragging) && !scrolling {
        ReleaseDrag(x, y);
      } else if down.Pressed? && !scrolling {
        ReleasePress(x, y);
      }
    }

    /** The free-scroll branch of `_stop`. */
    method ReleaseDrag(x: real, y: real)
      requires Ready() && Truthy(dragging) && !scrolling && oldIndex == index
      modifies this, slider
      ensures Linked() && slider == old(slider) && Model() == Paging.ReleaseDrag(old(Model()), x, y)
    {
      var scrolled := Limited(Model(), x, y);
      var canChange := CanChange(Model(), x, y);
      KeepOffset(scrolled);
      if canChange {
        Turn(scrolled);
      }
      Launch(scrolled);
    }

    /** `this.dragging = scrolled`. */
    method KeepOffset(scrolled: real)
      modifies this`dragging
      ensures Model() == old(Model()).(dragging := DragOffset(scrolled))
    {
      dragging := DragOffset(scrolled);
    }

    /** A transition covers what the drag left of the distance, and the
        press is over. */
    method Launch(scrolled: real)
      requires Ready()
      modifies this, slider
      ensures Linked() && slider == old(slider) && Model() == LaunchStep(old(Model()), scrolled)
    {
      ScrollBy(ScrollAmount(Size(Model()), oldIndex, index) as real - scrolled, None);
      ClearPress();
    }

    /** A free-scroll swipe moves one page against the drag, after heading
        for a clone past either end in infinite mode. */
    method Turn(scrolled: real)
      requires Ready()
      modifies this, slider
      ensures Linked() && slider == old(slider) && Model() == TurnStep(old(Model()), scrolled)
    {
      if infinite {
        OverScroll(scrolled < 0.0, scrolled);
      }
      if scrolled > 0.0 {
        Dec();
      } else {
        Inc();
      }
    }

    /** The plain branch of `_stop`. */
    method ReleasePress(x: real, y: real)
      requires Ready() && down.Pressed? && !scrolling && !Truthy(dragging) && oldIndex == index
      modifies this, slider
      ensures Linked() && slider == old(slider) && Model() == Paging.ReleasePress(old(Model()), x, y)
    {
      Swipe(x, y);
      Settle();
    }

    /** The swipe test and index change of the plain branch of `_stop`. */
    method Swipe(x: real, y: real)
      requires Ready()
      modifies this, slider
      ensures Linked() && slider == old(slider) && Model() == PressSwipe(old(Model()), x, y)
    {
      var at := Along(orientation, x, y);
      var forward := at < PressAt(Model());
      var backward := at > PressAt(Model());
      if CanChange(Model(), x, y) {
        if infinite {
          OverScroll(forward, 0.0);
        }
        if forward {
          Inc();
        } else if backward {
          Dec();
        }
      }
    }

    /** The end of the plain branch of `_stop`. */
    method Settle()
      requires Ready()
      modifies this, slider
      ensures Linked() && slider == old(slider) && Model() == SettleRelease(old(Model()))
    {
      if startIndex == index {
        Notify(Finished(GetData(Model())));
      } else {
        ScrollBy(ScrollAmount(Size(Model()), oldIndex, index) as real, None);
      }
      ClearPress();
    }

    /** The start timer of a transition fires. */
    method Begin(offset: real)
      requires Ready()
      modifies this`phase, this`trace
      ensures Model() == BeginStep(old(Model()), offset)
    {
      if phase.Pending? {
        phase := Animating(offset);
        Notify(Started(ids[index]));
        Emit("scroll.start", Data(GetData(Model())));
      }
    }

    /** An animation frame, `elapsed` milliseconds after the start. */
    method Frame(elapsed: nat)
      requires Ready()
      modifies this, slider
      ensures Linked() && slider == old(slider) && Model() == FrameStep(old(Model()), elapsed)
    {
      if !phase.Animating? {
        return;
      }
      if elapsed > cfg.animation {
        Complete();
        return;
      }
      var eased := Easing.Ease(elapsed as real, StartValue(dragging), amount, cfg.animation as real);
      Reposition(phase.offset - eased);
      ReportFrame();
    }

    /** The wrapper's scroll offset is set for this frame. */
    method Reposition(position: real)
      modifies this`scrollPosition
      ensures Model() == old(Model()).(scrollPosition := position)
    {
      scrollPosition := position;
    }

    method ReportFrame()
      requires WellFormed(Model())
      modifies this`trace
      ensures Model() == FrameReported(old(Model()))
    {
      var data := FrameData(Model());
      Notify(Scrolled(data, false));
      Emit("scroll", Data(data));
    }

    /** The completion branch of the animation loop. */
    method Complete()
      requires Ready()
      modifies this, slider
      ensures Linked() && slider == old(slider) && Model() == CompleteStep(old(Model()))
    {
      Halt();
      ResumeSlideshow();
      LeaveClone();
      Report();
    }

    /** The animation stops and the instance is idle. */
    method Halt()
      modifies this`scrolling, this`dragging, this`phase
      ensures Model() == Halted(old(Model()))
    {
      scrolling, dragging, phase := false, NotDragging, Idle;
    }

    /** The location hash, `slideIndex`, `onFinish` and `scroll.end` follow
        the page the transition ended on. */
    method Report()
      requires 0 <= index < |ids|
      modifies this`trace, this`slideIndex
      ensures Model() == Reported(old(Model()))
    {
      var data := GetData(Model());
      Notify(HashWritten(ids[index]));
      SyncSlideIndex();
      Notify(Finished(data));
      Emit("scroll.end", Data(data));
    }

    /** In infinite mode a transition that ended on a clone jumps to the
        page the clone shows. */
    method LeaveClone()
      requires WellFormed(Model())
      modifies this`index, this`target
      ensures Model() == LeftClone(old(Model()))
    {
      if infinite {
        if target == Some(|ids|) {
          index := 0;
        } else if target == Some(-1) {
          index := |ids| - 1;
        }
      }
      target := None;
    }

    method SyncSlideIndex()
      modifies this`slideIndex
      ensures Model() == old(Model()).(slideIndex := old(index))
    {
      slideIndex := index;
    }

    /** `update()`, keeping a pending start (see `UpdateAsWritten`). */
    method Update(vp: Viewport)
      requires WellFormed(Model())
      modifies this`viewport, this`scrollSize, this`scrollPosition, this`trace
      ensures Model() == UpdateStep(old(Model()), vp)
    {
      Resize(vp);
      var data := GetData(Model());
      Notify(Updated(data));
      Emit("update", Data(data));
    }

    /** The measuring of `update()`: the viewport is read again and the
        scroll size and position are reset for the current page. */
    method Resize(vp: Viewport)
      modifies this`viewport, this`scrollSize, this`scrollPosition
      ensures var size := Size(old(Model()).(viewport := vp));
              Model() == old(Model()).(viewport := vp, scrollSize := ScrollSize(|ids|, size, infinite),
                                       scrollPosition := RestPosition(size, index, infinite) as real)
    {
      var size := if orientation == Horizontal then vp.width else vp.height;
      viewport, scrollSize, scrollPosition := vp, ScrollSize(|ids|, size, infinite), RestPosition(size, index, infinite) as real;
    }

    /** `_toggleInfinite(destroy, force)`: removing the clones leaves
        infinite mode, adding them enters it; either way the instance
        measures again. */
    method ToggleInfinite(destroy: bool, force: bool, vp: Viewport)
      requires WellFormed(Model())
      modifies this`infinite, this`viewport, this`scrollSize, this`scrollPosition, this`trace
      ensures Model() == ToggleInfiniteStep(old(Model()), destroy, force, vp)
    {
      if destroy && infinite {
        infinite := false;
      } else if !infinite || force {
        infinite := true;
      }
      Update(vp);
    }

    method Orientate(t: string, vp: Viewport) returns (accepted: bool)
      requires Ready()
      modifies this`orientation, this`viewport, this`scrollSize, this`scrollPosition, this`trace
      ensures accepted <==> t == "vertical" || t == "horizontal"
      ensures Model() == OrientateStep(old(Model()), t, vp)
    {
      if t == "vertical" {
        orientation := Vertical;
      } else if t == "horizontal" {
        orientation := Horizontal;
      } else {
        return false;
      }
      Update(vp);
      return true;
    }

    method Destroy(vp: Viewport)
      requires Ready()
      modifies this, slider
      ensures Linked() && Model() == DestroyStep(old(Model()), vp)
    {
      if !initialised {
        return;
      }
      Emit("destroy", NoData);
      if infinite {
        ToggleInfinite(true, false, vp);
      }
      if cfg.slideshow {
        DropSlideshow();
      }
      MarkDestroyed();
    }

    /** `this.slider.stop(); this.slider = false`. */
    method DropSlideshow()
      modifies this`slider, slider
      ensures slider == null
      ensures Model() == Dropped(old(Model()))
    {
      if slider != null {
        slider.Stop();
      }
      slider := null;
    }

    method MarkDestroyed()
      modifies this`initialised
      ensures Model() == old(Model()).(initialised := false)
    {
      initialised := false;
    }

    /** `_load()`: the location hash is applied, then the instance measures
        again. */
    method Load(hash: string, vp: Viewport)
      requires WellFormed(Model())
      modifies this`index, this`slideIndex, this`scrollPosition, this`viewport, this`scrollSize, this`trace
      ensures Model() == LoadStep(old(Model()), hash, vp)
    {
      ApplyHash(hash);
      Update(vp);
    }

    method ApplyHash(hash: string)
      requires WellFormed(Model())
      modifies this`index, this`slideIndex, this`scrollPosition, this`trace
      ensures Model() == LoadHash(old(Model()), hash)
    {
      var k := JsArray.IndexOf(Anchors.AnchorList(ids), hash);
      if hash != "" && k > -1 {
        JumpTo(k);
      }
    }

    method JumpTo(k: int)
      requires WellFormed(Model())
      modifies this`index, this`slideIndex, this`scrollPosition, this`trace
      ensures Model() == JumpedTo(old(Model()), k)
    {
      Place(k);
      var data := GetData(Model());
      Show(k);
      Arrived(data);
    }

    /** The wrapper's scroll offset is set for page `k`. */
    method Place(k: int)
      modifies this`scrollPosition
      ensures Model() == Placed(old(Model()), k)
    {
      var offset := if infinite then 1 else 0;
      scrollPosition := (Size(Model()) * (k + offset)) as real;
    }

    /** The page `k` becomes current without a transition. */
    method Show(k: int)
      modifies this`index, this`slideIndex
      ensures Model() == old(Model()).(index := k, slideIndex := k)
    {
      index, slideIndex := k, k;
    }

    /** `onScroll`, `onFinish` and `scroll` report `data`. */
    method Arrived(data: Snapshot)
      modifies this`trace
      ensures Model() == Arrival(old(Model()), data)
    {
      Notify(Scrolled(data, false));
      Notify(Finished(data));
      Emit("scroll", Data(data));
    }

    method Click(link: Option<string>)
      requires Ready()
      modifies this, slider
      ensures Linked() && slider == old(slider) && Model() == ClickStep(old(Model()), link)
    {
      if link.Some? && link.value in Anchors.AnchorList(ids) {
        ScrollToAnchor(link.value);
      }
    }

    method Keydown(key: Key)
      requires Ready()
      modifies this, slider
      ensures Linked() && slider == old(slider) && Model() == KeydownStep(old(Model()), key)
    {
      if scrolling || Truthy(dragging) {
        return;
      }
      match KeyCommand(key, orientation) {
        case GoPrev => Prev();
        case GoNext => Next();
        case NoCommand =>
      }
    }
  }

  /** `SlideShow`: advances its instance on every firing of its interval. */
  class SlideShow {
    const instance: Pager
    var running: bool

    constructor (instance: Pager)
      ensures this.instance == instance && !running
    {
      this.instance := instance;
      running := false;
    }

    /** `start()`: only a stopped slideshow starts, taking the current page
        as its position. */
    method Start()
      modifies this`running, instance`slideIndex
      ensures running
      ensures old(running) ==> instance.slideIndex == old(instance.slideIndex)
      ensures !old(running) ==> instance.slideIndex == instance.index
    {
      if !running {
        running := true;
        instance.slideIndex := instance.index;
      }
    }

    /** `stop()`: only a running slideshow stops. */
    method Stop()
      modifies this`running
      ensures !running
    {
      if running {
        running := false;
      }
    }

    /** One firing of the interval. */
    method Tick()
      requires instance.Ready() && instance.slider == this
      modifies this, instance
      ensures instance.Linked() && instance.Model() == TickStep(old(instance.Model()))
    {
      instance.Notify(BeforeStart(instance.slideIndex));
      if instance.infinite {
        instance.OverScroll(true, 0.0);
      }
      Advance();
      instance.ScrollToIndex(instance.slideIndex);
    }

    /** The slideshow's position moves on, back to 0 after the last page. */
    method Advance()
      modifies instance`slideIndex
      ensures instance.Model() == Advanced(old(instance.Model()))
    {
      if instance.index < |instance.ids| - 1 {
        instance.slideIndex := instance.slideIndex + 1;
      } else {
        instance.slideIndex := 0;
      }
    }
  }
}
