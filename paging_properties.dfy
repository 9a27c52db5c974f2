/** Properties of pageable.js that span several events: the wrap-around of
    infinite mode, the busy guard, the slideshow cycle, and what a resize
    does to a transition that has not started yet. */
module PagingProperties {
  import opened Wrappers
  import opened Layout
  import opened Lifecycle
  import opened Paging

  /** While a transition is under way every request is refused: the
      instance stays exactly as it is. */
  lemma BusyInstanceRefusesRequests(s: State, i: int, deltaY: real, key: Key, p: Pointer, link: Option<string>)
    requires WellFormed(s) && s.scrolling
    ensures ScrollToIndexStep(s, i) == s && NextStep(s) == s && PrevStep(s) == s
    ensures WheelStep(s, deltaY) == s && KeydownStep(s, key) == s && StartStep(s, p) == s
    ensures ClickStep(s, link) == s && OverScrollStep(s, i == 0, deltaY) == s
  {
  }

  /** In infinite mode, `next()` on the last page runs a whole transition
      to the clone of the first page and ends on the first page, with the
      hash and the slideshow counter following. */
  lemma {:induction false} NextWrapsToFirstPage(s: State, offset: real, elapsed: nat)
    requires Valid(s) && s.infinite && !s.scrolling && s.index == Count(s) - 1
    requires elapsed > s.cfg.animation
    ensures var r := FrameStep(BeginStep(NextStep(s), offset), elapsed);
            r.index == 0 && r.slideIndex == 0 && !r.scrolling && r.phase.Idle? && Valid(r) &&
            r.trace[|r.trace| - 3] == HashWritten(s.ids[0])
  {
    var a := NextStep(s);
    assert a.target == Some(Count(s)) && a.phase.Pending? && a.infinite;
    var b := BeginStep(a, offset);
    assert b.phase.Animating? && b.target == Some(Count(s)) && b.infinite && b.ids == s.ids;
    var r := FrameStep(b, elapsed);
    assert r == CompleteStep(b);
  }

  /** The mirror image: `prev()` on the first page ends on the last. */
  lemma {:induction false} PrevWrapsToLastPage(s: State, offset: real, elapsed: nat)
    requires Valid(s) && s.infinite && !s.scrolling && s.index == 0
    requires elapsed > s.cfg.animation
    ensures var r := FrameStep(BeginStep(PrevStep(s), offset), elapsed);
            r.index == Count(s) - 1 && r.slideIndex == Count(s) - 1 && !r.scrolling && Valid(r) &&
            r.trace[|r.trace| - 3] == HashWritten(s.ids[Count(s) - 1])
  {
    var a := PrevStep(s);
    assert a.target == Some(-1) && a.phase.Pending? && a.infinite;
    var b := BeginStep(a, offset);
    assert b.phase.Animating? && b.target == Some(-1) && b.infinite && b.ids == s.ids;
    var r := FrameStep(b, elapsed);
    assert r == CompleteStep(b);
  }

  /** Every frame of the wrapping transition reports offset 0 (heading for
      the first page) or the maximum (heading for the last), whatever the
      eased position is. */
  lemma {:induction false} WrapFramesReportTheArrival(s: State, offset: real, elapsed: nat)
    requires Valid(s) && s.infinite && !s.scrolling && elapsed <= s.cfg.animation
    ensures s.index == Count(s) - 1 ==>
              var r := FrameStep(BeginStep(NextStep(s), offset), elapsed);
              r.trace[|r.trace| - 2] == Scrolled(Snapshot(s.index, 0.0, GetData(s).max), false)
    ensures s.index == 0 ==>
              var r := FrameStep(BeginStep(PrevStep(s), offset), elapsed);
              r.trace[|r.trace| - 2] == Scrolled(Snapshot(0, GetData(s).max as real, GetData(s).max), false)
  {
    if s.index == Count(s) - 1 {
      var b := BeginStep(NextStep(s), offset);
      assert b.phase.Animating? && b.target == Some(Count(s)) && b.index == s.index;
      assert b.infinite && b.scrollSize == s.scrollSize && b.viewport == s.viewport && b.orientation == s.orientation;
    }
    if s.index == 0 {
      var b := BeginStep(PrevStep(s), offset);
      assert b.phase.Animating? && b.target == Some(-1) && b.index == 0;
      assert b.infinite && b.scrollSize == s.scrollSize && b.viewport == s.viewport && b.orientation == s.orientation;
    }
  }

  /** A transition requested by `scrollToIndex(i)` ends on page `i` once
      its timer has fired and the animation time has passed, and the
      instance is idle again. */
  lemma {:induction false} ScrollToIndexCompletes(s: State, i: int, offset: real, elapsed: nat)
    requires Valid(s) && !s.scrolling && 0 <= i < Count(s) && elapsed > s.cfg.animation
    ensures var r := FrameStep(BeginStep(ScrollToIndexStep(s, i), offset), elapsed);
            r.index == i && r.slideIndex == i && !r.scrolling && r.oldIndex == s.index && Valid(r)
  {
    var a := ScrollToIndexStep(s, i);
    var b := BeginStep(a, offset);
    assert b.phase.Animating? && b.target.None? && b.index == i && b.oldIndex == s.index;
  }

  /** A running slideshow on a finite instance visits the pages in order
      and returns from the last to the first. */
  lemma {:induction false} SlideshowAdvancesCyclically(s: State, offset: real, elapsed: nat)
    requires Valid(s) && !s.infinite && !s.scrolling && s.slideIndex == s.index
    requires elapsed > s.cfg.animation
    ensures var r := FrameStep(BeginStep(TickStep(s), offset), elapsed);
            r.index == (if s.index < Count(s) - 1 then s.index + 1 else 0) && r.slideIndex == r.index &&
            !r.scrolling && Valid(r)
  {
    var a := TickStep(s);
    var b := BeginStep(a, offset);
    assert b.phase.Animating? && b.target.None? && b.index == a.index;
  }

  /** In infinite mode the slideshow leaves the last page through the clone
      of the first. */
  lemma {:induction false} InfiniteSlideshowWraps(s: State, offset: real, elapsed: nat)
    requires Valid(s) && s.infinite && !s.scrolling && s.index == Count(s) - 1
    requires elapsed > s.cfg.animation
    ensures var r := FrameStep(BeginStep(TickStep(s), offset), elapsed);
            r.index == 0 && r.slideIndex == 0 && !r.scrolling
  {
    var a := TickStep(s);
    var b := BeginStep(a, offset);
    assert b.phase.Animating? && b.target == Some(Count(s)) && b.infinite;
  }

  /** A release without a swipe never changes the page, and in the plain
      branch of a finite instance it reports `onFinish` instead of
      scrolling. */
  lemma {:induction false} ShortReleaseFinishesInPlace(s: State, x: real, y: real)
    requires Valid(s) && !s.scrolling && !s.infinite && s.down.Pressed? && !Truthy(s.dragging)
    requires s.startIndex == s.index && !CanChange(s, x, y)
    ensures var r := StopStep(s, x, y);
            r.index == s.index && !r.scrolling && r.down == Released && Valid(r) &&
            r.trace == s.trace + [Finished(GetData(r))]
  {
    var s0 := s.(oldIndex := s.index);
    var s1 := if s.cfg.slideshow then SliderStart(s0) else s0;
    assert StopStep(s, x, y) == ReleasePress(s1, x, y);
  }

  /** An inactive navigation button's action does nothing. */
  lemma InactiveNavIsInert(s: State)
    requires WellFormed(s)
    ensures !PrevNavActive(s.index, s.infinite) ==> PrevStep(s) == s
    ensures !NextNavActive(s.index, Count(s), s.infinite) ==> NextStep(s) == s
  {
  }

  // ------------------------------------------------ a resize during the start delay

  /** An instance whose `scrolling` flag is set with no transition pending
      or running can never clear it: the start timer and the frames do
      nothing, and every request is refused. */
  lemma StrandedInstanceStaysBusy(s: State, offset: real, elapsed: nat, i: int, deltaY: real, key: Key)
    requires WellFormed(s) && s.scrolling && s.phase.Idle?
    ensures BeginStep(s, offset) == s && FrameStep(s, elapsed) == s
    ensures ScrollToIndexStep(s, i) == s && NextStep(s) == s && PrevStep(s) == s
    ensures WheelStep(s, deltaY) == s && KeydownStep(s, key) == s
    ensures TickStep(s).index == s.index && TickStep(s).scrolling && TickStep(s).phase.Idle?
  {
  }

  /** As written, `update()` cancels the start timer: with `delay` set, a
      resize between `scrollToIndex(i)` and the start of its animation
      leaves the instance busy for good, on the page it asked for. */
  lemma {:induction false} ResizeDuringDelayStrands(s: State, i: int, vp: Viewport)
    requires Valid(s) && !s.scrolling && 0 <= i < Count(s)
    ensures var stranded := UpdateAsWritten(ScrollToIndexStep(s, i), vp);
            stranded.scrolling && stranded.phase.Idle? && stranded.index == i
  {
    var a := ScrollToIndexStep(s, i);
    assert Valid(a) && a.phase.Pending?;
  }

  /** With the pending start kept, the same resize does not stop the
      transition: it starts, completes on page `i` and leaves the instance
      idle. */
  lemma {:induction false} ResizeDuringDelayCompletes(s: State, i: int, vp: Viewport, offset: real, elapsed: nat)
    requires Valid(s) && !s.scrolling && 0 <= i < Count(s) && elapsed > s.cfg.animation
    ensures var r := FrameStep(BeginStep(UpdateStep(ScrollToIndexStep(s, i), vp), offset), elapsed);
            r.index == i && !r.scrolling && Valid(r)
  {
    var a := ScrollToIndexStep(s, i);
    var u := UpdateStep(a, vp);
    assert u.phase.Pending? && u.index == i && u.target.None?;
    var b := BeginStep(u, offset);
    assert b.phase.Animating? && b.index == i && b.target.None?;
  }
}
