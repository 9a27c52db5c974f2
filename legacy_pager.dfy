/** The earlier `Pageable` class of index.js as an object: its fields are
    the properties the source assigns, and every method is proved to
    perform exactly the transition of `Legacy` that describes it. */
module LegacyPageable {
  import opened Wrappers
  import opened Layout
  import opened Lifecycle
  import opened Legacy
  import Paging
  import JsArray
  import Easing
  import Anchors
  import EventEmitter

  class LegacyPager {
    var cfg: Config
    const ids: seq<string>
    var orientation: Paging.Orientation
    var viewport: Paging.Viewport
    var index: int
    var oldIndex: int
    var scrolling: bool
    var down: Paging.Press
    var scrollPosition: real
    var scrollSize: int
    var phase: Paging.Phase
    var amount: real
    var measured: bool
    var listeners: map<string, seq<Callback>>
    var trace: seq<Notice>

    /** The instance's state as a value. */
    function Model(): State
      reads this
    {
      State(cfg, ids, orientation, viewport, index, oldIndex, scrolling, down, scrollPosition,
            scrollSize, phase, amount, measured, listeners, trace)
    }

    /** `new Pageable(container, options)` once the container and its pages
        have been found; nothing is measured before `DOMContentLoaded`. */
    constructor (cfg: Config, ids: seq<string>)
      ensures Model() == Fresh(cfg, ids)
    {
      this.cfg := cfg;
      this.ids := ids;
      orientation := cfg.orientation;
      viewport := Paging.Viewport(0, 0);
      index, oldIndex := 0, 0;
      scrolling, down := false, Paging.Released;
      scrollPosition, scrollSize := 0.0, 0;
      phase, amount := Paging.Idle, 0.0;
      measured := false;
      listeners := map[];
      trace := [];
    }

    /** The constructor with its three refusals. */
    static method Create(container: Paging.Container, extra: seq<string>, cfg: Config)
      returns (r: Result<LegacyPager, string>)
      requires cfg.interval > 0
      ensures r.Failure? <==> Legacy.Create(container, extra, cfg).Failure?
      ensures r.Failure? ==> r.error == Legacy.Create(container, extra, cfg).error
      ensures r.Success? ==> fresh(r.value) && r.value.Model() == Legacy.Create(container, extra, cfg).value
    {
      match container {
        case NoContainer =>
          return Failure("No container defined.");
        case ContainerMissing =>
          return Failure("The container could not be found.");
        case Container(pages) =>
          if |pages + extra| == 0 {
            return Failure("No child nodes with the [data-anchor] attribute could be found.");
          }
          var p := new LegacyPager(cfg, Anchors.Ids(pages + extra, false));
          return Success(p);
      }
    }

    /** Calls a configuration hook. */
    method Notify(n: Notice)
      modifies this`trace
      ensures Model() == Note(old(Model()), n)
    {
      trace := trace + [n];
    }

    /** `emit(name, payload)`. */
    method Emit(name: string, p: Payload)
      modifies this`trace
      ensures Model() == Legacy.Emit(old(Model()), name, p)
    {
      trace := trace + [Emission(Model(), name, p)];
    }

    /** `on(name, callback)`. */
    method On(name: string, cb: Callback)
      modifies this`listeners
      ensures listeners == EventEmitter.Subscribe(old(listeners), name, cb)
    {
      listeners := EventEmitter.Subscribe(listeners, name, cb);
    }

    /** `off(name, callback)`. */
    method Off(name: string, cb: Callback)
      modifies this`listeners
      ensures listeners == EventEmitter.Unsubscribe(old(listeners), name, cb)
    {
      listeners := EventEmitter.Unsubscribe(listeners, name, cb);
    }

    method ScrollBy(amount: real)
      requires WellFormed(Model())
      modifies this`scrolling, this`trace, this`phase, this`amount
      ensures Model() == ScrollByStep(old(Model()), amount)
    {
      if scrolling {
        return;
      }
      MarkBusy();
      ScheduleStart(amount);
    }

    /** `this.scrolling = true`, `onBeforeStart` and `scroll.before`. */
    method MarkBusy()
      modifies this`scrolling, this`trace
      ensures Model() == Busy(old(Model()))
    {
      scrolling := true;
      Notify(BeforeStart(oldIndex));
      Emit("scroll.before", Data(GetData(Model())));
    }

    /** The start timer `scrollBy` sets, with the distance its callback
        will cover. */
    method ScheduleStart(amount: real)
      modifies this`phase, this`amount
      ensures Model() == old(Model()).(phase := Paging.Pending(cfg.delay), amount := amount)
    {
      phase, this.amount := Paging.Pending(cfg.delay), amount;
    }

    method ScrollToIndex(i: int)
      requires WellFormed(Model())
      modifies this`index, this`oldIndex, this`scrolling, this`trace, this`phase, this`amount
      ensures Model() == ScrollToIndexStep(old(Model()), i)
    {
      if 0 <= i <= |ids| - 1 {
        var distance := ScrollAmount(Size(Model()), index, i) as real;
        MoveTo(i);
        ScrollBy(distance);
      }
    }

    /** `this.index = index; this.oldIndex = oldIndex`. */
    method MoveTo(i: int)
      modifies this`index, this`oldIndex
      ensures Model() == MovedTo(old(Model()), i)
    {
      index, oldIndex := i, index;
    }

    method ScrollToPage(page: int)
      requires WellFormed(Model())
      modifies this`index, this`oldIndex, this`scrolling, this`trace, this`phase, this`amount
      ensures Model() == ScrollToPageStep(old(Model()), page)
    {
      ScrollToIndex(page - 1);
    }

    method ScrollToAnchor(hash: string)
      requires WellFormed(Model())
      modifies this`index, this`oldIndex, this`scrolling, this`trace, this`phase, this`amount
      ensures Model() == ScrollToAnchorStep(old(Model()), hash)
    {
      ScrollToIndex(JsArray.IndexOf(Anchors.AnchorList(ids), hash));
    }

    method Next()
      requires WellFormed(Model())
      modifies this`index, this`oldIndex, this`scrolling, this`trace, this`phase, this`amount
      ensures Model() == NextStep(old(Model()))
    {
      ScrollToIndex(index + 1);
    }

    method Prev()
      requires WellFormed(Model())
      modifies this`index, this`oldIndex, this`scrolling, this`trace, this`phase, this`amount
      ensures Model() == PrevStep(old(Model()))
    {
      ScrollToIndex(index - 1);
    }

    method Wheel(deltaY: real)
      requires WellFormed(Model())
      modifies this`index, this`oldIndex, this`scrolling, this`trace, this`phase, this`amount
      ensures Model() == WheelStep(old(Model()), deltaY)
    {
      if cfg.events.wheel && !scrolling {
        var was := index;
        if deltaY > 0.0 {
          Inc();
        } else {
          Dec();
        }
        if index != was {
          var distance := ScrollAmount(Size(Model()), was, index) as real;
          RecordOldIndex(was);
          ScrollBy(distance);
        }
      }
    }

    method RecordOldIndex(i: int)
      modifies this`oldIndex
      ensures Model() == old(Model()).(oldIndex := i)
    {
      oldIndex := i;
    }

    /** `this.index++` when a later page exists. */
    method Inc()
      requires 0 <= index < |ids|
      modifies this`index
      ensures Model() == old(Model()).(index := Step(old(index), |ids|, true))
    {
      if index < |ids| - 1 {
        index := index + 1;
      }
    }

    /** `this.index--` when an earlier page exists. */
    method Dec()
      requires 0 <= index < |ids|
      modifies this`index
      ensures Model() == old(Model()).(index := Step(old(index), |ids|, false))
    {
      if 0 < index {
        index := index - 1;
      }
    }

    method Start(p: Paging.Pointer)
      modifies this`down, this`trace
      ensures Model() == StartStep(old(Model()), p)
    {
      if (if cfg.touchDevice then cfg.events.touch else cfg.events.mouse) && p.onPage {
        down := Paging.Pressed(p.x, p.y);
        Notify(BeforeStart(index));
      }
    }

    method Stop(x: real, y: real, button: int)
      requires WellFormed(Model())
      modifies this`index, this`oldIndex, this`scrolling, this`trace, this`phase, this`amount, this`down
      ensures Model() == StopStep(old(Model()), x, y, button)
    {
      if down.Pressed? && !scrolling {
        var was := index;
        Swipe(x, y, button);
        Conclude(was);
        ClearPress();
      }
    }

    /** The index change of `stop`: touch releases compare positions only,
        mouse releases with the middle button go the other way. */
    method Swipe(x: real, y: real, button: int)
      requires WellFormed(Model())
      modifies this`index
      ensures Model() == Swiped(old(Model()), x, y, button)
    {
      var at := Paging.Along(orientation, x, y);
      var pressAt := PressAt(Model());
      if cfg.touchDevice {
        if at < pressAt {
          Inc();
        } else if at > pressAt {
          Dec();
        }
      } else {
        if at < pressAt {
          if button == 1 { Dec(); } else { Inc(); }
        } else if at > pressAt {
          if button == 1 { Inc(); } else { Dec(); }
        }
      }
    }

    /** `onFinish` when the page did not change, a transition from page
        `was` when it did. */
    method Conclude(was: int)
      requires WellFormed(Model()) && 0 <= was < |ids|
      modifies this`oldIndex, this`scrolling, this`trace, this`phase, this`amount
      ensures Model() == Concluded(old(Model()), was)
    {
      if index == was {
        Notify(Finished(GetData(Model())));
      } else {
        var distance := ScrollAmount(Size(Model()), was, index) as real;
        RecordOldIndex(was);
        ScrollBy(distance);
      }
    }

    /** `this.down = false`. */
    method ClearPress()
      modifies this`down
      ensures Model() == old(Model()).(down := Paging.Released)
    {
      down := Paging.Released;
    }

    /** The start timer of a transition fires. */
    method Begin(offset: real)
      requires WellFormed(Model())
      modifies this`phase, this`trace
      ensures Model() == BeginStep(old(Model()), offset)
    {
      if phase.Pending? {
        phase := Paging.Animating(offset);
        Notify(Started(ids[index]));
        Emit("scroll.start", Data(GetData(Model())));
      }
    }

    /** An animation frame, `elapsed` milliseconds after the start. */
    method Frame(elapsed: nat)
      requires WellFormed(Model())
      modifies this`scrolling, this`phase, this`scrollPosition, this`trace
      ensures Model() == FrameStep(old(Model()), elapsed)
    {
      if !phase.Animating? {
        return;
      }
      if elapsed > cfg.interval {
        Complete();
        return;
      }
      var eased := Easing.Ease(elapsed as real, 0.0, amount, cfg.interval as real);
      Reposition(phase.offset - eased);
      ReportFrame();
    }

    /** `this.scrollPosition = offset - scrolled`. */
    method Reposition(position: real)
      modifies this`scrollPosition
      ensures Model() == old(Model()).(scrollPosition := position)
    {
      scrollPosition := position;
    }

    method ReportFrame()
      modifies this`trace
      ensures Model() == FrameReported(old(Model()))
    {
      var data := GetData(Model());
      Notify(Scrolled(data, false));
      Emit("scroll", Data(data));
    }

    /** The completion branch of the animation loop. */
    method Complete()
      requires WellFormed(Model())
      modifies this`scrolling, this`phase, this`trace
      ensures Model() == Reported(Halted(old(Model())))
    {
      Halt();
      Report();
    }

    /** The animation stops and the instance is idle. */
    method Halt()
      modifies this`scrolling, this`phase
      ensures Model() == Halted(old(Model()))
    {
      scrolling, phase := false, Paging.Idle;
    }

    /** The location hash, `onFinish` and `scroll.end` follow the page the
        transition ended on. */
    method Report()
      requires 0 <= index < |ids|
      modifies this`trace
      ensures Model() == Reported(old(Model()))
    {
      var data := GetData(Model());
      Notify(HashWritten(ids[index]));
      Notify(Finished(data));
      Emit("scroll.end", Data(data));
    }

    /** `update()`, keeping a pending start (see `Legacy.UpdateAsWritten`). */
    method Update(vp: Paging.Viewport)
      requires WellFormed(Model())
      modifies this`viewport, this`scrollSize, this`scrollPosition, this`measured, this`trace
      ensures Model() == UpdateStep(old(Model()), vp)
    {
      Resize(vp);
      var data := GetData(Model());
      Notify(Updated(data));
      Emit("update", Data(data));
    }

    /** The measuring of `update()`: the viewport is read again and the
        scroll size and position are set for the current page. */
    method Resize(vp: Paging.Viewport)
      modifies this`viewport, this`scrollSize, this`scrollPosition, this`measured
      ensures var size := Extent(orientation, vp);
              Model() == old(Model()).(viewport := vp, measured := true, scrollSize := |ids| * size - size,
                                       scrollPosition := (size * index) as real)
    {
      var size := if orientation == Paging.Horizontal then vp.width else vp.height;
      viewport, measured := vp, true;
      scrollSize, scrollPosition := |ids| * size - size, (size * index) as real;
    }

    method Orientate(t: string, vp: Paging.Viewport) returns (accepted: bool)
      requires WellFormed(Model())
      modifies this`cfg, this`orientation, this`viewport, this`scrollSize, this`scrollPosition,
               this`measured, this`trace
      ensures accepted <==> t == "vertical" || t == "horizontal"
      ensures Model() == OrientateStep(old(Model()), t, vp)
    {
      if t == "vertical" {
        Turn(Paging.Vertical);
      } else if t == "horizontal" {
        Turn(Paging.Horizontal);
      } else {
        return false;
      }
      Update(vp);
      return true;
    }

    /** `this.horizontal`, `this.axis` and `this.config.orientation`. */
    method Turn(o: Paging.Orientation)
      modifies this`cfg, this`orientation
      ensures Model() == Turned(old(Model()), o)
    {
      orientation, cfg := o, cfg.(orientation := o);
    }

    /** `load()`: the location hash is applied, the instance measures, and
        `onInit` and `init` report. */
    method Load(hash: string, vp: Paging.Viewport)
      requires WellFormed(Model())
      modifies this`index, this`viewport, this`scrollSize, this`scrollPosition, this`measured, this`trace
      ensures Model() == LoadStep(old(Model()), hash, vp)
    {
      ApplyHash(hash);
      Update(vp);
      var data := GetData(Model());
      Notify(Initialised(data));
      Emit("init", Data(data));
    }

    method ApplyHash(hash: string)
      requires WellFormed(Model())
      modifies this`index, this`trace
      ensures Model() == HashApplied(old(Model()), hash)
    {
      var k := JsArray.IndexOf(Anchors.AnchorList(ids), hash);
      if hash != "" && k > -1 {
        index := k;
        Notify(if measured then Finished(GetData(Model())) else FinishedUnmeasured(k));
      }
    }

    method Click(link: Option<string>)
      requires WellFormed(Model())
      modifies this`index, this`oldIndex, this`scrolling, this`trace, this`phase, this`amount
      ensures Model() == ClickStep(old(Model()), link)
    {
      if link.Some? && JsArray.IndexOf(Anchors.AnchorList(ids), link.value) > -1 {
        ScrollToAnchor(link.value);
      }
    }
  }
}
