/** The numeric rules of paging that do not depend on the DOM: stepping
    the index, the distance between two pages, the container geometry with
    and without the two clone pages of infinite mode, the resistance
    applied when dragging past either end, and the navigation classes. */
module Layout {
  import opened Wrappers

  /** `inc()` / `dec()` of the release handlers and the wheel's candidate
      index: one page forward or back, never past either end. */
  function Step(index: int, count: int, forward: bool): (r: int)
    requires 0 <= index < count
    ensures 0 <= r < count
    ensures forward ==> index <= r <= index + 1
    ensures !forward ==> index - 1 <= r <= index
    ensures r == index <==> (forward && index == count - 1) || (!forward && index == 0)
  {
    if forward then (if index < count - 1 then index + 1 else index)
    else (if 0 < index then index - 1 else index)
  }

  /** `_getScrollAmount(oldIndex)`: how far the container must travel to
      bring page `to` where page `from` was. */
  function ScrollAmount(size: int, from: int, to: int): (r: int)
    ensures size * from - r == size * to
    ensures from == to ==> r == 0
    ensures to == from + 1 ==> r == -size
    ensures to == from - 1 ==> r == size
  {
    size * from - size * to
  }

  /** Infinite mode adds a clone of the last page before the first and a
      clone of the first page after the last. */
  function ContainerLength(count: int, infinite: bool): int
  {
    if infinite then count + 2 else count
  }

  /** The scroll offset of the first real page. */
  function FirstPageOffset(size: int, infinite: bool): int
  {
    if infinite then size else 0
  }

  /** `scrollSize` as `update` measures it: the container minus one page. */
  function ScrollSize(count: int, size: int, infinite: bool): int
  {
    ContainerLength(count, infinite) * size - size
  }

  /** `scrollPosition` as `update` resets it while page `index` shows. */
  function RestPosition(size: int, index: int, infinite: bool): int
  {
    size * index + FirstPageOffset(size, infinite)
  }

  /** The `scrolled` figure of `_getData()`: infinite mode hides the clone
      in front. */
  function ReportedScroll(position: real, size: int, infinite: bool): real
  {
    if infinite then position - size as real else position
  }

  /** The `max` figure of `_getData()`: infinite mode hides both clones. */
  function ReportedMax(scrollSize: int, size: int, infinite: bool): int
  {
    if infinite then scrollSize - size * 2 else scrollSize
  }

  /** At rest, what the hooks are told does not depend on infinite mode: the
      offset is `size * index` and the maximum `(count - 1) * size`. */
  lemma RestReportIsModeIndependent(count: int, size: int, index: int, infinite: bool)
    ensures ReportedScroll(RestPosition(size, index, infinite) as real, size, infinite) == (size * index) as real
    ensures ReportedMax(ScrollSize(count, size, infinite), size, infinite) == (count - 1) * size
  {
    var len := ContainerLength(count, infinite);
    assert (len - 1) * size == len * size - size;
    if infinite {
      assert (count + 2 - 1) * size - 2 * size == (count - 1) * size;
    }
  }

  /** `_limitDrag`: outside infinite mode, dragging away from the first page
      backwards or from the last page forwards moves a tenth as far. The
      sign is always kept. */
  function LimitDrag(displacement: real, index: int, count: int, infinite: bool): (r: real)
    ensures r > 0.0 <==> displacement > 0.0
    ensures r < 0.0 <==> displacement < 0.0
    ensures r == displacement || 10.0 * r == displacement
    ensures r != displacement <==>
              !infinite && ((index == 0 && displacement > 0.0) || (index == count - 1 && displacement < 0.0))
  {
    if !infinite && ((index == 0 && displacement > 0.0) || (index == count - 1 && displacement < 0.0)) then
      displacement / 10.0
    else displacement
  }

  /** A release counts as a swipe once it has travelled at least the
      threshold from the press. */
  predicate SwipeQualifies(release: real, press: real, threshold: int)
  {
    (if release >= press then release - press else press - release) >= threshold as real
  }

  /** `_setNavs`: the previous button is active unless the first page shows
      outside infinite mode; the next button likewise for the last page. */
  predicate PrevNavActive(index: int, infinite: bool)
  {
    infinite || index > 0
  }

  predicate NextNavActive(index: int, count: int, infinite: bool)
  {
    infinite || index < count - 1
  }

  /** `_setPips`: the pip of the current page is the active one. */
  predicate PipActive(pip: int, index: int)
  {
    pip == index
  }

  /** The completion of a transition in infinite mode: arriving at the
      clone after the last page means the first page shows, arriving at the
      clone before the first means the last page shows. */
  function Renormalise(index: int, target: Option<int>, count: int, infinite: bool): (r: int)
    requires 0 <= index < count
    ensures 0 <= r < count
    ensures infinite && target == Some(count) ==> r == 0
    ensures infinite && target == Some(-1) ==> r == count - 1
    ensures (!infinite || target.None?) ==> r == index
  {
    if infinite && target == Some(count) then 0
    else if infinite && target == Some(-1) then count - 1
    else index
  }
}
