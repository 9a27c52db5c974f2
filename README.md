# Pageable in Dafny

Pageable turns the `[data-anchor]` children of a container into full-screen
pages. Wheel, keyboard, mouse and touch input, links, a slideshow and the
location hash move between the pages with an eased animation. At its core
is a small state machine: the current index, a busy flag that keeps two
transitions from overlapping, a press or drag in progress, and, in infinite
mode, phantom indices just past either end that are mapped back to real
pages when a transition completes.

This project models that machine in two versions, plus the listener table
and the slideshow:

- `paging.dfy` (module `Paging`) models `src/pageable.js`, the current
  version. An instance is a `State` value, and every handler is a function
  from the old state and the handler's already-extracted input to the new
  state.
- `paging_properties.dfy` (module `PagingProperties`) holds the lemmas that
  chain several of those steps: busy exclusion, wrap-around, completion, and
  the slideshow's cycle.
- `pager.dfy` (module `Pageable`) holds the classes. `Pager` keeps the same
  state in fields that its methods update in place, and `SlideShow` points
  back at its instance. Every method is proved to perform exactly the
  transition of the matching `Paging` function:
  `Model() == XStep(old(Model()), ...)`.
- `legacy.dfy` (module `Legacy`) and `legacy_pager.dfy` (module
  `LegacyPageable`) do the same for the earlier class in `src/index.js`.
  Its rules differ in several ways:
  - `scrollToIndex` checks only the bounds;
  - a release turns the page on any displacement;
  - the middle mouse button reverses the direction;
  - `next` and `prev` never wrap;
  - page ids keep their case.
- Shared pieces live in their own modules:
  - `Layout`: page stepping, distances, container geometry, drag resistance
    and the navigation predicates;
  - `Easing`: the quadratic ease-out over exact reals;
  - `Anchors`: the page-id slug and the anchor list;
  - `JsArray`: `indexOf` and `splice`;
  - `EventEmitter`: the listener table and the `Emitter` class of
    `src/utils/emitter.js`;
  - `Options`: `isObject` and the recursive `extend`;
  - `Lifecycle`: snapshots and the record of hooks and events.

**Timers, the clock and the hash.** The timers and the clock are explicit
steps:

- `BeginStep(s, offset)` is the start timer firing. `offset` is the
  wrapper's scroll offset read at that moment.
- `FrameStep(s, elapsed)` is an animation frame, `elapsed` milliseconds
  after the start.
- `TickStep(s)` is one firing of the slideshow interval.

Configuration hooks (`onInit`, `onBeforeStart`, …), emitted events (with the
listeners subscribed at that moment) and writes of the location hash are
appended to a `trace` of `Notice`s. The location hash read on load is a
parameter.

**Where the model follows the code.**

- The default easing, `-c * (t /= d) * (t - 2) + b` (src/pageable.js), is a
  quadratic ease-out, and the model uses that formula.
- The snapshot reported when a transition ends carries the `scrollPosition`
  left by the last animation frame, which can fall short of `pageSize * i`;
  the model reports the same. It is `pageSize * i` at rest, after `update()`
  (`Layout.RestReportIsModeIndependent`).

## Model

The contracts below are written in terms of a few plain definitions that carry no contract of their own:
- `Options.IsObject` is `isObject` (src/pageable.js:29-31);
- `Options.Assign` is one property write of `extend` (src/pageable.js:43-48);
- `Options.Truthy` is JavaScript truthiness;
- `Layout.SwipeQualifies` is the swipe-threshold test of `_stop` (src/pageable.js:793-794);
- the `Layout` geometry helpers (`ContainerLength`, `FirstPageOffset`, `ScrollSize`, `RestPosition`, `ReportedScroll`, `ReportedMax`) are src/pageable.js:471-482 and 933-939.

| member | source | states |
|---|---|---|
| Anchors.FirstSpace | src/pageable.js:179 | the position of the first whitespace character; no whitespace comes before it |
| Anchors.RunEnd | src/pageable.js:179 | the end of the whitespace run starting at `i`: every character in between is whitespace and the next one is not |
| Anchors.LowerAscii | src/pageable.js:179 | `toLowerCase` on ASCII text: each of `A`–`Z` becomes its lower-case letter, every other character is kept, the length is unchanged, and no upper-case ASCII letter remains |
| Anchors.Slug | src/pageable.js:179 | `replace(/\s+/, "-")`, then `toLowerCase()` in the current version: an id is never longer than its anchor text; without lower-casing, a name without whitespace is its own id; with it, no upper-case ASCII letter remains |
| Anchors.Ids | src/pageable.js:178-182 | one id per page, in page order: page `k`'s id is the slug of its anchor text (lower-cased in the current version), never longer than that text; without lower-casing an anchor without whitespace is its own id, and with it no id holds an upper-case ASCII letter |
| Anchors.AnchorList | src/pageable.js:176-184 | one anchor per page, in page order: each starts with the `#` mark, and dropping the mark gives back the page's id |
| Anchors.SlugLowersTheReplacement | src/pageable.js:179 | the current version's id is exactly the case-kept id (first whitespace run replaced by `-`) with its ASCII letters lowered |
| Anchors.SlugReplacesFirstRunOnly | src/pageable.js:179 | a name without whitespace is its own id; otherwise exactly the first whitespace run becomes one `-` and everything after it is copied unchanged |
| Anchors.SlugOfTwoWords | src/index.js:65 | the earlier version keeps the case: "About us" gives "About-us" |
| Anchors.SlugKeepsSecondRun | src/pageable.js:179 | the regular expression is not global: "a b  c" gives "a-b  c" |
| Anchors.SlugLowerCases | src/pageable.js:179 | the current version lower-cases the id: "A B" gives "a-b" |
| Anchors.AnchorLookupFindsPage | src/pageable.js:395-397 | with distinct ids, looking up the anchor of page `k` finds `k` |
| Anchors.HashWithoutMarkIsUnknown | src/pageable.js:886-888 | a hash that does not start with `#` names no page |
| JsArray.IndexOf | src/pageable.js:396 | `indexOf` returns -1 exactly when the value is absent, and otherwise its first position |
| JsArray.SpliceStart | src/utils/emitter.js:23-26 | the start position `splice` uses: a negative start counts from the end |
| JsArray.SpliceOne | src/utils/emitter.js:23-26 | `splice(start, 1)` removes the one element at the resolved start, if there is one, and keeps the rest in order |
| JsArray.SpliceMinusOne | src/utils/emitter.js:23-26 | `splice(-1, 1)` removes the last element |
| Layout.Step | src/pageable.js:783-790 | `inc()`/`dec()` move the index by at most one, stay in `[0, count-1]`, and stand still exactly at the end they move towards |
| Layout.ScrollAmount | src/pageable.js:1083-1093 | `_getScrollAmount` is the distance that moves page `to` to where page `from` was: 0 for the same page, minus one page size for the next page, one page size for the previous page |
| Layout.RestReportIsModeIndependent | src/pageable.js:471-482 | with the container length, first-page offset, `scrollSize` and rest position `update` computes, and the clone corrections of `_getData` (933-939), the reported snapshot at rest is `scrolled = size * index` and `max = (count - 1) * size`, with or without infinite mode |
| Layout.LimitDrag | src/pageable.js:1136-1146 | `_limitDrag` keeps the sign of the displacement; outside infinite mode it divides by 10 exactly when dragging outward from the first or last page, and otherwise returns the raw displacement |
| Layout.Renormalise | src/pageable.js:1002-1008 | in infinite mode the phantom target `count` becomes page 0 and `-1` becomes the last page; otherwise the index is kept; the result is always a real page |
| EventEmitter.Subscribe | src/utils/emitter.js:8-12 | `on` appends the callback to the end of that name's list, creating the list first; duplicates are kept and other names are untouched |
| EventEmitter.Unsubscribe | src/utils/emitter.js:20-27 | `off` on a name with no list changes nothing (names inherited from `Object.prototype` are under Left out); otherwise it removes the first occurrence of the callback, or the last listener when the callback is absent (`splice(-1, 1)`), keeping the order of the rest and every other name |
| EventEmitter.OffRemovesOneEntry | src/utils/emitter.js:23-26 | `off` on a non-empty list removes exactly one entry: the callback, or the last listener when the callback is absent |
| EventEmitter.OnThenOff | src/utils/emitter.js:8-26 | `on` then `off` of a new callback gives back the original list |
| EventEmitter.Emitter.constructor | src/utils/emitter.js:9 | the listener table starts empty |
| EventEmitter.Emitter.On | src/utils/emitter.js:8-12 | the table becomes `Subscribe` of the old one |
| EventEmitter.Emitter.Off | src/utils/emitter.js:20-27 | the table becomes `Unsubscribe` of the old one |
| EventEmitter.Emitter.Emit | src/utils/emitter.js:34-43 | the loop calls each listener of the name once, in registration order, with the remaining arguments; a name with no list calls nothing (names inherited from `Object.prototype` are under Left out); the table is not changed |
| Easing.Ease | src/pageable.js:124-126 | the default easing is `b + c * s * (2 - s)` with `s = t / d`: `b` at `t = 0` and `b + c` at `t = d`; the earlier version's default (src/index.js:15) is the same formula |
| Easing.FractionOfDuration | src/pageable.js:1033 | a time within the duration is a fraction between 0 and 1 of it |
| Easing.ProgressBounds | src/pageable.js:124-126 | the share of the change covered stays between 0 and 1 |
| Easing.ProgressMonotone | src/pageable.js:124-126 | that share never decreases as time runs forward |
| Easing.EaseStaysBetween | src/pageable.js:1032-1036 | within the duration the eased value lies between the start and the destination, whatever the sign of the change: no overshoot |
| Easing.EaseMonotone | src/pageable.js:124-126 | a later frame never reports a smaller value for a non-negative change |
| Options.Extend | src/pageable.js:39-52 | `extend` yields the keys of both maps; keys the options lack keep their values; non-objects (`0`, `false` and `""` included) overwrite; plain objects are merged recursively; it fails exactly when some assignment would write into a truthy primitive |
| Options.ExtendInPlace | src/pageable.js:40-51 | the `for … in` loop that writes one key at a time computes exactly `Extend` |
| Options.ExtendSucceedsWith | src/pageable.js:39-52 | a map that agrees with every entry `extend` writes, and with `src` elsewhere, is its result |
| Options.ExtendIdempotent | src/pageable.js:39-52 | merging the same options a second time changes nothing |
| Options.ExtendFixed | src/pageable.js:39-52 | options whose every entry already sits in `src` leave `src` as it is |
| Options.AssignIdempotent | src/pageable.js:43-48 | writing the same value into a property a second time changes nothing |
| Options.ExtendFlat | src/pageable.js:46-48 | options without plain objects simply override: `extend` is the map update `src + props` |
| Options.NestedObjectIsMerged | src/pageable.js:43-45 | a plain-object option is merged into the object already there rather than replacing it |
| Options.NestedEventsAreMerged | src/pageable.js:137-151 | `{delay: 0, events: {wheel: false}}` over the defaults switches the wheel off and keeps mouse and touch on; the falsy `delay` still overwrites |
| Paging.StartValue | src/pageable.js:1032 | `dragging ? dragging : 0`: the easing starts from a non-zero value exactly when `dragging` is truthy, and `true` (an armed press) counts as 1 |
| Paging.GetData | src/pageable.js:933-939 | the snapshot reports the current index; at rest on page `i`, with the scroll numbers `update` sets, it reports `size * i` over `(count - 1) * size`, so the clones of infinite mode are hidden |
| Paging.SliderStart | src/pageable.js:74-78 | only the slideshow and its position change; an existing slideshow is running afterwards; the position moves only when a stopped slideshow starts, and then to the current index |
| Paging.SliderStop | src/pageable.js:96-102 | only the slideshow changes, and an existing slideshow is stopped afterwards |
| Paging.SliderStartStopIdempotent | src/classes/slideshow.js:8-34 | starting twice is starting once; stopping twice is stopping once |
| Paging.RestartResyncs | src/classes/slideshow.js:8-11 | stopping, moving, then starting runs again with the slideshow's position at the page moved to |
| Paging.Paused | src/pageable.js:974-976 | a configured slideshow is stopped and nothing else changes |
| Paging.Resumed | src/pageable.js:797-799 | a configured slideshow is started and nothing else changes but the slideshow's position |
| Paging.ScrollByStep | src/pageable.js:964-979 | `_scrollBy` does nothing while busy; otherwise it turns busy at once, before any delay, reports `onBeforeStart(oldIndex)` and `scroll.before`, stops the slideshow and schedules the start with the delay (none after a drag) |
| Paging.ScrollToIndexStep | src/pageable.js:404-411 | changes nothing unless idle and `0 <= i < count`; when it acts, `oldIndex` is the previous index, `index` is `i`, and a transition covering `ScrollAmount(size, old, i)` is pending |
| Paging.ScrollToPageStep | src/pageable.js:386-388 | pages are numbered from 1; out-of-range pages and a busy instance change nothing |
| Paging.ScrollToAnchorStep | src/pageable.js:395-397 | an unknown anchor changes nothing; a known one starts a transition to the first page carrying it |
| Paging.NextStep | src/pageable.js:417-427 | one page forward; at the last page nothing happens, except in infinite mode, where it heads for the phantom index `count` one page on |
| Paging.PrevStep | src/pageable.js:433-442 | one page back; at the first page nothing happens, except in infinite mode, where it heads for the phantom index -1 |
| Paging.OverScrollStep | src/pageable.js:946-957 | at the last page moving forward, or the first moving back, a transition heads for the phantom index past that end, less what a drag already covered; otherwise nothing changes |
| Paging.WheelStep | src/pageable.js:856-875 | nothing when wheel input is off or busy; otherwise the candidate is one page forward for `deltaY > 0` and one back otherwise (`deltaY == 0` included), clamped to the pages. Outside infinite mode a transition is requested exactly when the candidate differs. In infinite mode a turn always starts one: at the last page moving forward it heads for the phantom index `count`, and at the first page moving back for -1, by one page size, with the index kept |
| Paging.StartStep | src/pageable.js:701-748 | a press is refused while busy or dragging, for a disabled device, for a mouse button other than the left, or off the pages; otherwise it records the press and the starting index, arms a drag in free-scroll mode, stops the slideshow and reports `onBeforeStart(index)` |
| Paging.DragStep | src/pageable.js:755-771 | while a free-scroll drag is live, the snapshot less the limited displacement is reported by `onScroll` and `scroll`; nothing else changes |
| Paging.ReleaseDrag | src/pageable.js:802-823 | a free-scroll release keeps the drag offset and changes the page by one against the drag only past the threshold, then starts a transition and lets go of the press |
| Paging.TurnStep | src/pageable.js:807-816 | a qualifying free-scroll swipe steps one page against the drag, after heading for a phantom page in infinite mode |
| Paging.LaunchStep | src/pageable.js:818-820 | the transition covers what the drag left of the distance, and the press is let go |
| Paging.PressSwipe | src/pageable.js:825-838 | past the threshold, ending before the press goes forward and ending after it goes back; below it, or exactly at it, the index is kept |
| Paging.SettleRelease | src/pageable.js:841-847 | an index back at the start calls `onFinish` without a transition; a changed one starts the transition; the press is let go |
| Paging.ReleasePress | src/pageable.js:825-848 | the index changes by at most one and only past the threshold; an unchanged index finishes in place; a changed one leaves the instance busy |
| Paging.StopStep | src/pageable.js:778-849 | `oldIndex` becomes the index; the page changes by at most one, only when idle and past the threshold; a busy instance keeps its press and phase |
| Paging.BeginStep | src/pageable.js:1057-1062 | the start timer begins the animation from the wrapper offset and reports `onStart(id)` and `scroll.start`; when nothing is pending it does nothing |
| Paging.FrameData | src/pageable.js:1038-1046 | mid-flight towards the phantom `count` the snapshot reports 0; towards -1 it reports `max`; otherwise it is the plain snapshot |
| Paging.CompleteStep | src/pageable.js:989-1028 | completion leaves the instance idle and not dragging, maps a phantom target back to a real page, syncs the slideshow's position, restarts the slideshow, then writes the hash of the current page and reports `onFinish` and `scroll.end` |
| Paging.FrameStep | src/pageable.js:984-1055 | past the duration the transition completes; otherwise the position is the offset less the eased value, reported by `onScroll` and `scroll` |
| Paging.FramePositionBounded | src/pageable.js:1032-1036 | whatever the drag state, a frame's distance from the start offset lies between the start value (0, 1 for an armed press, or the offset a drag left) and the start value plus the amount, and equals their sum at the full duration |
| Paging.UpdateStep | src/pageable.js:448-506 | the viewport is read again; `scrollSize` and `scrollPosition` are reset for the current page, and the snapshot is `size * index` over `(count - 1) * size` in either mode; `onUpdate` and `update` report; a pending start is kept (see Findings) |
| Paging.UpdateAsWritten | src/pageable.js:449 | as written, a resize during the start delay cancels the start and leaves the instance busy with nothing pending |
| Paging.OrientateStep | src/pageable.js:513-535 | only "vertical" and "horizontal" are taken; either way the instance measures along the new axis and keeps its page |
| Paging.DestroyStep | src/pageable.js:545-597 | only an initialised instance is destroyed: `destroy` is emitted, infinite mode is left, the slideshow is dropped and the instance is no longer initialised |
| Paging.ToggleInfiniteStep | src/pageable.js:1102-1130 | removing the clones leaves infinite mode, adding them (forced or not yet infinite) enters it; either way the instance measures again |
| Paging.DestroyIdempotent | src/pageable.js:545-546 | destroying twice is destroying once |
| Paging.LoadHash | src/pageable.js:882-910 | a hash naming a page makes that page current without a transition, sets its rest position and the slideshow's position, and reports `onScroll`, `onFinish` and `scroll` with the snapshot taken before the index moved; an unknown hash changes nothing |
| Paging.JumpedTo | src/pageable.js:888-908 | the jump to page `k` sets index, slideshow position and rest position, and reports the snapshot taken before the index moved |
| Paging.LoadStep | src/pageable.js:882-913 | `_load` applies the hash and then measures: the current page is the one the hash names, or unchanged |
| Paging.KeyCommand | src/pageable.js:666-692 | codes 33 and 37, PageUp and the backward arrow of the axis mean previous; 34 and 39, PageDown and the forward arrow mean next; any other key means nothing |
| Paging.KeydownStep | src/pageable.js:659-694 | keys are ignored while busy or dragging; otherwise a previous key is `prev()` and a next key `next()` |
| Paging.ArrowKeysFollowAxis | src/pageable.js:673-692 | Up goes back when vertical and does nothing when horizontal; Left the reverse; codes 37 and 39 act in either orientation |
| Paging.ClickStep | src/pageable.js:643-652 | a click on a link to a known anchor scrolls to it; anything else changes nothing |
| Paging.ClickIsScrollToAnchor | src/pageable.js:647-649 | a click on a link is exactly `scrollToAnchor` of its hash |
| Paging.AnchorReachesItsPage | src/pageable.js:395-397 | with distinct ids, scrolling to (or clicking) the anchor of page `k` lands on `k` |
| Paging.TickStep | src/pageable.js:79-92 | each firing reports `onBeforeStart(slideIndex)`, advances the slideshow's position by one or back to 0 after the last page, and requests that page; in infinite mode the last page heads for the phantom page instead |
| Paging.Measured | src/pageable.js:287-297 | a fresh instance measured and with the hash applied is idle, not dragging, on the page the hash names (or page 0), with the rest snapshot |
| Paging.InitStep | src/pageable.js:226-314 | `init` leaves the instance initialised and idle on the page the hash names, with the slideshow running when configured, and ends by emitting `init` |
| Paging.Create | src/pageable.js:110-220 | the three refusals (no container, container not found, no pages), otherwise an initialised, coherent instance whose ids are the slugs of the pages and the `anchors` option, with ASCII letters lower-cased |
| PagingProperties.BusyInstanceRefusesRequests | src/pageable.js:404-411 | while busy, `scrollToIndex`, `next`, `prev`, the wheel, keys, presses, clicks and over-scrolls change nothing |
| PagingProperties.NextWrapsToFirstPage | src/pageable.js:417-427 | in infinite mode, `next` on the last page completes on page 0 and writes its hash |
| PagingProperties.PrevWrapsToLastPage | src/pageable.js:433-442 | in infinite mode, `prev` on page 0 completes on the last page and writes its hash |
| PagingProperties.WrapFramesReportTheArrival | src/pageable.js:1040-1046 | the frames of a wrap report 0 (forward) or `max` (backward) as the position |
| PagingProperties.ScrollToIndexCompletes | src/pageable.js:404-411 | an idle request in range starts, completes on page `i`, and leaves the instance idle and coherent |
| PagingProperties.SlideshowAdvancesCyclically | src/pageable.js:85-90 | outside infinite mode, a slideshow firing followed by its transition moves to the next page, or back to page 0 after the last |
| PagingProperties.InfiniteSlideshowWraps | src/pageable.js:82-90 | in infinite mode, a firing on the last page arrives on page 0 through the phantom page |
| PagingProperties.ShortReleaseFinishesInPlace | src/pageable.js:841-842 | a release below the threshold calls `onFinish` in place, with no transition |
| PagingProperties.InactiveNavIsInert | src/pageable.js:1148-1156 | when `_setNavs` marks a button inactive, pressing it changes nothing |
| PagingProperties.StrandedInstanceStaysBusy | src/pageable.js:449 | a busy instance with nothing pending never becomes idle: no timer, frame, request, wheel turn or key moves it |
| PagingProperties.ResizeDuringDelayStrands | src/pageable.js:449 | as written, a resize between a request and its start leaves the instance busy with nothing pending |
| PagingProperties.ResizeDuringDelayCompletes | src/pageable.js:448-506 | with the pending start kept, the same resize does not stop the transition: it completes on the requested page |
| Pageable.Pager.constructor | src/pageable.js:110-220 | the fields as the constructor sets them, followed by `init()`, give `InitStep` |
| Pageable.Pager.Init | src/pageable.js:226-314 | performs `InitStep` on a fresh instance |
| Pageable.Pager.Measure | src/pageable.js:290-297 | performs `Measured` |
| Pageable.Pager.MarkInitialised | src/pageable.js:306 | only `initialised` changes |
| Pageable.Pager.AttachSlideshow | src/pageable.js:309-312 | a new slideshow belongs to the instance and is started |
| Pageable.Pager.Create | src/pageable.js:110-172 | fails exactly when `Paging.Create` does, with its message, and otherwise returns a new instance whose state is `Paging.Create`'s |
| Pageable.Pager.Notify | src/pageable.js:969 | a hook call is recorded at the end of the trace |
| Pageable.Pager.Emit | src/pageable.js:628-634 | an emitted event is recorded with its current listeners |
| Pageable.Pager.On | src/pageable.js:605-609 | the listener table becomes `Subscribe` of the old one |
| Pageable.Pager.Off | src/pageable.js:617-621 | the listener table becomes `Unsubscribe` of the old one |
| Pageable.Pager.PauseSlideshow | src/pageable.js:974-976 | performs `Paused` |
| Pageable.Pager.ResumeSlideshow | src/pageable.js:797-799 | performs `Resumed` |
| Pageable.Pager.ScrollBy | src/pageable.js:964-979 | performs `ScrollByStep` |
| Pageable.Pager.MarkBusy | src/pageable.js:965-972 | performs `Busy`: busy, `onBeforeStart(oldIndex)`, `scroll.before` |
| Pageable.Pager.ScheduleStart | src/pageable.js:979 | the start timer is pending with its delay, distance and target |
| Pageable.Pager.ScrollToIndex | src/pageable.js:404-411 | performs `ScrollToIndexStep` |
| Pageable.Pager.MoveTo | src/pageable.js:406-408 | the index moves and `oldIndex` keeps the previous one |
| Pageable.Pager.ScrollToPage | src/pageable.js:386-388 | performs `ScrollToPageStep` |
| Pageable.Pager.ScrollToAnchor | src/pageable.js:395-397 | performs `ScrollToAnchorStep` |
| Pageable.Pager.Next | src/pageable.js:417-427 | performs `NextStep` |
| Pageable.Pager.Prev | src/pageable.js:433-442 | performs `PrevStep` |
| Pageable.Pager.OverScroll | src/pageable.js:946-957 | performs `OverScrollStep` |
| Pageable.Pager.Wheel | src/pageable.js:856-875 | performs `WheelStep` |
| Pageable.Pager.RecordOldIndex | src/pageable.js:871 | only `oldIndex` changes |
| Pageable.Pager.Start | src/pageable.js:701-748 | performs `StartStep` |
| Pageable.Pager.Arm | src/pageable.js:733 | `dragging` becomes the free-scroll option |
| Pageable.Pager.Press | src/pageable.js:740-747 | performs `PressedAt`: the press, the starting index and `onBeforeStart` |
| Pageable.Pager.Drag | src/pageable.js:755-771 | performs `DragStep` |
| Pageable.Pager.Inc | src/pageable.js:783-785 | the index steps forward unless on the last page |
| Pageable.Pager.Dec | src/pageable.js:788-790 | the index steps back unless on the first page |
| Pageable.Pager.ClearPress | src/pageable.js:847 | the press is let go |
| Pageable.Pager.Stop | src/pageable.js:778-849 | performs `StopStep` |
| Pageable.Pager.ReleaseDrag | src/pageable.js:802-823 | performs `Paging.ReleaseDrag` |
| Pageable.Pager.KeepOffset | src/pageable.js:805 | `dragging` holds the drag offset |
| Pageable.Pager.Launch | src/pageable.js:818-820 | performs `LaunchStep` |
| Pageable.Pager.Turn | src/pageable.js:807-816 | performs `TurnStep` |
| Pageable.Pager.ReleasePress | src/pageable.js:825-848 | performs `Paging.ReleasePress` |
| Pageable.Pager.Swipe | src/pageable.js:826-838 | performs `PressSwipe` |
| Pageable.Pager.Settle | src/pageable.js:841-847 | performs `SettleRelease` |
| Pageable.Pager.Begin | src/pageable.js:1057-1062 | performs `BeginStep` |
| Pageable.Pager.Frame | src/pageable.js:984-1054 | performs `FrameStep` |
| Pageable.Pager.Reposition | src/pageable.js:1036 | only the scroll position changes |
| Pageable.Pager.ReportFrame | src/pageable.js:1038-1051 | performs `FrameReported`: `onScroll` and `scroll` with the frame's snapshot |
| Pageable.Pager.Complete | src/pageable.js:989-1028 | performs `CompleteStep` |
| Pageable.Pager.Halt | src/pageable.js:994-996 | performs `Halted`: idle, not dragging, nothing pending |
| Pageable.Pager.Report | src/pageable.js:1010-1026 | performs `Reported`: the hash, the slideshow's position, `onFinish` and `scroll.end` |
| Pageable.Pager.LeaveClone | src/pageable.js:1002-1008 | performs `LeftClone`: a phantom target is mapped back to a real page |
| Pageable.Pager.SyncSlideIndex | src/pageable.js:1018 | the slideshow's position becomes the index |
| Pageable.Pager.Update | src/pageable.js:448-506 | performs `UpdateStep` |
| Pageable.Pager.Resize | src/pageable.js:462-482 | the viewport, scroll size and rest position are set for the current page |
| Pageable.Pager.ToggleInfinite | src/pageable.js:1102-1130 | performs `ToggleInfiniteStep` |
| Pageable.Pager.Orientate | src/pageable.js:513-535 | accepts exactly "vertical" and "horizontal" and performs `OrientateStep` |
| Pageable.Pager.Destroy | src/pageable.js:545-597 | performs `DestroyStep` |
| Pageable.Pager.DropSlideshow | src/pageable.js:589-592 | performs `Dropped`: the slideshow is stopped and released |
| Pageable.Pager.MarkDestroyed | src/pageable.js:594 | only `initialised` changes |
| Pageable.Pager.Load | src/pageable.js:882-913 | performs `LoadStep` |
| Pageable.Pager.ApplyHash | src/pageable.js:883-910 | performs `LoadHash` |
| Pageable.Pager.JumpTo | src/pageable.js:888-908 | performs `JumpedTo` |
| Pageable.Pager.Place | src/pageable.js:890-891 | performs `Placed`: the rest position of page `k` |
| Pageable.Pager.Show | src/pageable.js:894-895 | the index and the slideshow's position become `k` |
| Pageable.Pager.Arrived | src/pageable.js:905-908 | performs `Arrival`: `onScroll`, `onFinish` and `scroll` |
| Pageable.Pager.Click | src/pageable.js:643-652 | performs `ClickStep` |
| Pageable.Pager.Keydown | src/pageable.js:659-694 | performs `KeydownStep` |
| Pageable.SlideShow.constructor | src/classes/slideshow.js:2-6 | a new slideshow belongs to its instance and is not running |
| Pageable.SlideShow.Start | src/classes/slideshow.js:8-27 | starting a running slideshow changes nothing; starting a stopped one runs it and sets the position to the instance's index |
| Pageable.SlideShow.Stop | src/classes/slideshow.js:29-35 | afterwards the slideshow is not running |
| Pageable.SlideShow.Tick | src/classes/slideshow.js:12-24 | one firing performs `TickStep` on the instance |
| Pageable.SlideShow.Advance | src/classes/slideshow.js:18-22 | the position moves on by one, or back to 0 when the instance is on its last page |
| Legacy.ScrollByStep | src/index.js:398-409 | does nothing while busy; otherwise it turns busy at once, reports `onBeforeStart(oldIndex)` and `scroll.before`, and schedules the start after the configured delay |
| Legacy.ScrollToIndexStep | src/index.js:514-521 | only the bounds are checked: in range, `index` and `oldIndex` move even while busy, and only the transition is refused; out of range nothing changes |
| Legacy.ScrollToPageStep | src/index.js:480-482 | pages are numbered from 1 |
| Legacy.ScrollToAnchorStep | src/index.js:489-491 | an unknown anchor changes nothing; a known one retargets to its first page |
| Legacy.NextStep | src/index.js:497-499 | `next` on the last page changes nothing (no wrap); elsewhere it moves one page forward |
| Legacy.PrevStep | src/index.js:505-507 | `prev` on the first page changes nothing (no wrap); elsewhere it moves one page back |
| Legacy.WheelStep | src/index.js:302-323 | nothing when the wheel is off or busy; otherwise one page forward for `deltaY > 0` and back otherwise, clamped, and a transition only when the page changed |
| Legacy.StartStep | src/index.js:219-250 | a press on a page from an enabled device is recorded, whether or not a transition is in flight, and reports `onBeforeStart(index)`; anything else changes nothing |
| Legacy.Direction | src/index.js:270-282 | no direction exactly when the release is at the press point |
| Legacy.Swiped | src/index.js:270-282 | any displacement moves the index by one: forward when ending before the press, back when after, reversed for the middle mouse button |
| Legacy.Concluded | src/index.js:285-290 | an unchanged index calls `onFinish` in place; a changed one starts the transition from the old page |
| Legacy.StopStep | src/index.js:258-295 | only a held press on an idle instance is looked at, and then let go; the index changes exactly when the swipe moved it, and then the instance is busy |
| Legacy.BeginStep | src/index.js:409-472 | the start timer begins the animation and reports `onStart(id)` and `scroll.start` |
| Legacy.FrameStep | src/index.js:417-463 | past the interval the transition completes (idle, hash, `onFinish`, `scroll.end`, position untouched); otherwise the position lies between the start offset and the offset less the amount and is reported |
| Legacy.UpdateStep | src/index.js:527-574 | the viewport is read again, `scrollSize = (count - 1) * size`, `scrollPosition = size * index`, and `getData` reports exactly those; `onUpdate` and `update` report |
| Legacy.UpdateAsWritten | src/index.js:528 | as written, a resize during the start delay cancels the start and leaves the instance busy with nothing pending |
| Legacy.OrientateStep | src/index.js:603-630 | only "vertical" and "horizontal" are taken; the option is rewritten and the instance measures along the new axis |
| Legacy.PipClasses | src/index.js:362-372 | with pips, exactly the pip of the given index (or of the current page) is active; without pips there is nothing to mark |
| Legacy.HashApplied | src/index.js:331-346 | a hash naming a page makes it current without a transition and reports `onFinish`; an unknown hash changes nothing |
| Legacy.Announced | src/index.js:350-355 | `onInit` and `init` report the snapshot |
| Legacy.LoadStep | src/index.js:330-356 | `load` applies the hash, measures, and reports `onInit` with the rest snapshot |
| Legacy.ClickStep | src/index.js:199-210 | a click on a link to a known anchor is `scrollToAnchor`; anything else changes nothing |
| Legacy.Create | src/index.js:2-108 | the three refusals, otherwise an idle, unmeasured instance on page 0 whose ids keep their case |
| Legacy.BusyRequestRetargetsCompletion | src/index.js:514-521 | a request during a transition retargets it: the completion writes the requested page's hash, though the container never moved towards it |
| Legacy.ScrollToIndexCompletes | src/index.js:398-446 | an idle request in range starts, completes on the page, and leaves the instance idle |
| Legacy.AnyDisplacementTurnsThePage | src/index.js:270-282 | away from the ends, any release off the press point moves the page by one and starts a transition |
| Legacy.MiddleButtonReverses | src/index.js:277-281 | with a mouse, the gesture that moves forward with the left button moves back with the middle one |
| Legacy.NoWrapAtTheEnds | src/index.js:497-521 | `next` on the last page and `prev` on the first change nothing; elsewhere they step by one |
| Legacy.ResizeDuringDelayStrands | src/index.js:528 | as written, a resize between a request and its start leaves the instance busy for good: no timer, frame or wheel turn moves it |
| Legacy.ResizeDuringDelayCompletes | src/index.js:527-574 | with the pending start kept, the transition completes on the requested page |
| LegacyPageable.LegacyPager.constructor | src/index.js:58-103 | the fields as the constructor sets them: page 0, idle, nothing measured |
| LegacyPageable.LegacyPager.Create | src/index.js:2-57 | fails exactly when `Legacy.Create` does, with its message, and otherwise returns a new instance whose state is `Legacy.Create`'s |
| LegacyPageable.LegacyPager.Notify | src/index.js:404 | a hook call is recorded at the end of the trace |
| LegacyPageable.LegacyPager.Emit | src/index.js:656-662 | an emitted event is recorded with its current listeners |
| LegacyPageable.LegacyPager.On | src/index.js:633-637 | the listener table becomes `Subscribe` of the old one |
| LegacyPageable.LegacyPager.Off | src/index.js:645-649 | the listener table becomes `Unsubscribe` of the old one |
| LegacyPageable.LegacyPager.ScrollBy | src/index.js:398-409 | performs `Legacy.ScrollByStep` |
| LegacyPageable.LegacyPager.MarkBusy | src/index.js:400-407 | performs `Legacy.Busy` |
| LegacyPageable.LegacyPager.ScheduleStart | src/index.js:409 | the start timer is pending with the configured delay and the distance |
| LegacyPageable.LegacyPager.ScrollToIndex | src/index.js:514-521 | performs `Legacy.ScrollToIndexStep` |
| LegacyPageable.LegacyPager.MoveTo | src/index.js:516-518 | the index moves and `oldIndex` keeps the previous one |
| LegacyPageable.LegacyPager.ScrollToPage | src/index.js:480-482 | performs `Legacy.ScrollToPageStep` |
| LegacyPageable.LegacyPager.ScrollToAnchor | src/index.js:489-491 | performs `Legacy.ScrollToAnchorStep` |
| LegacyPageable.LegacyPager.Next | src/index.js:497-499 | performs `Legacy.NextStep` |
| LegacyPageable.LegacyPager.Prev | src/index.js:505-507 | performs `Legacy.PrevStep` |
| LegacyPageable.LegacyPager.Wheel | src/index.js:302-323 | performs `Legacy.WheelStep` |
| LegacyPageable.LegacyPager.RecordOldIndex | src/index.js:319 | only `oldIndex` changes |
| LegacyPageable.LegacyPager.Inc | src/index.js:262 | the index steps forward unless on the last page |
| LegacyPageable.LegacyPager.Dec | src/index.js:265 | the index steps back unless on the first page |
| LegacyPageable.LegacyPager.Start | src/index.js:219-250 | performs `Legacy.StartStep` |
| LegacyPageable.LegacyPager.Stop | src/index.js:258-295 | performs `Legacy.StopStep` |
| LegacyPageable.LegacyPager.Swipe | src/index.js:270-282 | performs `Legacy.Swiped` |
| LegacyPageable.LegacyPager.Conclude | src/index.js:285-290 | performs `Legacy.Concluded` |
| LegacyPageable.LegacyPager.ClearPress | src/index.js:292 | the press is let go |
| LegacyPageable.LegacyPager.Begin | src/index.js:409-472 | performs `Legacy.BeginStep` |
| LegacyPageable.LegacyPager.Frame | src/index.js:417-463 | performs `Legacy.FrameStep` |
| LegacyPageable.LegacyPager.Reposition | src/index.js:453 | only the scroll position changes |
| LegacyPageable.LegacyPager.ReportFrame | src/index.js:455-460 | performs `Legacy.FrameReported` |
| LegacyPageable.LegacyPager.Complete | src/index.js:422-445 | the animation stops and the completion is reported |
| LegacyPageable.LegacyPager.Halt | src/index.js:429-430 | performs `Legacy.Halted` |
| LegacyPageable.LegacyPager.Report | src/index.js:432-443 | performs `Legacy.Reported`: the hash, `onFinish` and `scroll.end` |
| LegacyPageable.LegacyPager.Update | src/index.js:527-574 | performs `Legacy.UpdateStep` |
| LegacyPageable.LegacyPager.Resize | src/index.js:529-559 | the viewport, scroll size and position are set for the current page |
| LegacyPageable.LegacyPager.Orientate | src/index.js:603-630 | accepts exactly "vertical" and "horizontal" and performs `Legacy.OrientateStep` |
| LegacyPageable.LegacyPager.Turn | src/index.js:606-626 | performs `Legacy.Turned` |
| LegacyPageable.LegacyPager.Load | src/index.js:330-356 | performs `Legacy.LoadStep` |
| LegacyPageable.LegacyPager.ApplyHash | src/index.js:331-346 | performs `Legacy.HashApplied` |
| LegacyPageable.LegacyPager.Click | src/index.js:199-210 | performs `Legacy.ClickStep` |

## Left out

- DOM construction and styling are not modelled, only the numbers and flags they compute. This covers the wrapper, body, page, clone, pip and nav elements, the classes toggled on them, `_getScrollBarWidth` and `getScrollBarWidth`. `_setNavs` and `_setPips` are predicates over the index (`Layout.PrevNavActive`, `Layout.NextNavActive`, `Layout.PipActive`).
- Event wiring is not modelled: `bind`, `unbind`, `addEventListener`, `preventDefault`, `stopPropagation`, `_getEvent` and the `closest(...)` lookups. Handlers take the extracted coordinates, button, key, wheel delta and whether the target lies on a page.
- Timers and frames are explicit steps: `setTimeout`, `setInterval`, `requestAnimationFrame`, `cancelAnimationFrame` and `Date.now`. The start delay is recorded in the pending phase but not counted down.
- The slideshow's own `delay` between `onBeforeStart` and the advance is not modelled: `TickStep` performs both at once.
- `throttle` (the rate limit on resize) is not modelled; it is timer-based.
- The location hash is a parameter when read and a `HashWritten` notice when written.
- User-supplied easing functions and hook bodies are not modelled. Hooks are recorded in order with their arguments, and the default easing is computed over exact reals rather than IEEE floats.
- The `init()` guard against initialising a container twice (`container.pageable`) is not modelled: `init` runs once, from the constructor.
- `slideshow()`, the accessor returning the slider, is not modelled.
- `SlideShow.stop`'s write of `instance.slideInterval = false` is not modelled; nothing reads that field.
- The handle stored in `instance.interval` is not modelled; it only serves `clearInterval`.
- The configuration is taken as already merged. `Options.Extend` models the merge of `src/pageable.js` on its own, and the earlier version's shallow `Object.assign` is not modelled.
- The earlier version throws when constructed without an options argument (`options.events`); the model takes merged options.
- Before `DOMContentLoaded` the earlier version has no `data`, so `getScrollAmount` would throw there. The model measures with a zero viewport until `load` runs.
- The earlier version leaves `oldIndex` undefined until the first request sets it. The model starts it at 0.
- Anchors.LowerAscii: only the ASCII letters `A`–`Z` are lowered. The Unicode case mapping of `toLowerCase` is not modelled, including mappings that change the length ("Ü" to "ü", "İ" to two characters), so non-ASCII anchor text can give a different id here than in the source.
- Paging.UpdateStep, Legacy.UpdateStep and every member that measures through them perform the corrected `update()`, which keeps a pending start. The source's `update()` cancels it: pageable.js:449 and index.js:528 (see Findings). Those members are:
  - Paging: OrientateStep, DestroyStep, ToggleInfiniteStep, LoadStep, Measured, InitStep;
  - Pageable.Pager: Update, Resize, Orientate, ToggleInfinite, Destroy, Load;
  - Legacy: OrientateStep, LoadStep;
  - LegacyPageable.LegacyPager: Update, Orientate, Load.

  The source's stranding behaviour is modelled only by Paging.UpdateAsWritten and Legacy.UpdateAsWritten.
- Legacy.FrameStep: the model's position bounds assume the frame's elapsed time lies within the interval; a first frame with a negative clock difference is not modelled.
- Paging.Paused, Paging.Resumed and every member that goes through them (ScrollByStep, StartStep, StopStep, CompleteStep, the requests that reach ScrollByStep, Pager.PauseSlideshow, Pager.ResumeSlideshow): after `destroy()` on an instance configured with a slideshow, the source has set `this.slider = false` (src/pageable.js:591), so a later `_scrollBy` throws a TypeError at `this.slider.stop()` (974-975) after it has already set `scrolling` and called `onBeforeStart` and `scroll.before`, and a transition still running at `destroy()` throws at `that.slider.start()` (998-999) before the hash write, `onFinish` and `scroll.end`. The model does not model the exception: with no slideshow left, `Paused` and `Resumed` leave the state as it is and the step goes on.
- EventEmitter.Subscribe, EventEmitter.Unsubscribe, EventEmitter.Emitter.Emit: the listener table is a map of the names the program itself subscribed. The source looks names up on a plain `{}` (`name in this.listeners`, `this.listeners[name]`), which also sees the names inherited from `Object.prototype` ("constructor", "toString", "hasOwnProperty", "__proto__", ...); on those names `on` throws at `.push` and `off` at `.splice`, and `emit("constructor")` throws because it calls element 0 of `Object`, which is undefined. The model treats them like any name without a list.
- Paging.WellFormed, Legacy.WellFormed, Paging.Measured, Paging.InitStep, Paging.Create, Legacy.Create, Pageable.Pager.constructor, Pageable.Pager.Create, LegacyPageable.LegacyPager.Create: the animation time (`animation`, and `interval` in the earlier version) is taken to be positive. The source accepts 0: its first frame with a positive elapsed time completes the transition at once, and a frame at elapsed time 0 makes the default easing divide 0 by 0. Those configurations are not modelled.
- `docs/js` (demo scaffolding) and `src/components/utils.js` (a copy of `throttle` and the scroll-bar measurement) are not part of this model.

## Findings

| source | as written | input that shows it | evidently intended | confidence | as-written member | corrected member |
|---|---|---|---|---|---|---|
| src/pageable.js:449 | `update()` calls `clearTimeout(this.timer)`. That timer is also the start timer `_scrollBy` sets after `scrolling = true`, so a resize during the start delay cancels the start and leaves `scrolling` set for good. Every later request, wheel turn, key and slideshow advance is then refused. | an idle instance with `delay > 0`: call `scrollToIndex(1)`, then fire a resize before the delay ends | a resize re-measures without cancelling a pending transition, which then starts and completes | not executed | PagingProperties.ResizeDuringDelayStrands | PagingProperties.ResizeDuringDelayCompletes |
| src/index.js:528 | the earlier version's `update()` has the same `clearTimeout(this.timer)`, with the same stranded busy flag | an idle instance with `delay > 0`: call `scrollToIndex(1)`, then fire a resize before the delay ends | as above | not executed | Legacy.ResizeDuringDelayStrands | Legacy.ResizeDuringDelayCompletes |
