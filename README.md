# react-carousel: the carousel component's state machine and layout rules

This project models the core of the `Carousel` React component of
react-carousel (`react-carousel/src/components/Carousel.js`) and proves
properties of the model in Dafny.

Beneath the markup and hooks the component has two parts:

- **A drag/click state machine.** The `slideMovement` record holds the
  clicked item, `dragStart`, `dragOffset` and `dragEnd`. The handlers
  `onMouseMove`, `onMouseDown`, `onTouchStart` and `onMouseUpTouchEnd`
  rewrite it, switch track transitions on, and call `onChange` with the
  nearest slide index when a session ends. Three of the effects that write
  shared state are modelled: the `value`, container-width and `transformOffset` effects.
- **Pure render-time rules.** These cover the track width, the track's
  style record, and what each rendered item receives: width, offset,
  current slide and the `isDragging` flag. They also decide whether the
  track is draggable.

The model is split into modules:

- `Js` (`js.dfy`): JavaScript numbers (`Num`: an integer, `undefined` or
  `NaN`), falsiness, `||` and `*` on them, and the text a template literal
  makes of a number. `ReadInt` inverts the printing: reading the text back
  gives the number.
- `Layout` (`layout.dfy`): the render-time rules as functions.
- `Movement` (`movement.dfy`): the session record and how each pointer
  event rewrites it. Keys the record lacks are `None`.
- `Carousel` (`carousel.dfy`): the shared state as one value, one step
  function per handler and effect, and `Run` over a sequence of events.
  It also holds the lemmas about sessions and runs.
- `Controller` (`controller.dfy`): class `CarouselController`. Its fields
  stand for the atoms `slideMovement`, `transitionEnabled`, `trackStyles`
  and `trackWidth`, and for the `isInitialMount` ref. `onChange` calls are
  kept as a ghost log `changes`. Each handler and effect is a method that
  updates the fields in place. Each method is proved equal to the
  matching `Carousel` step function. The render step is a method that
  only reads.
- `Wrappers` (`wrappers.dfy`): `Option`.

Where the code and the way the component is meant to behave differ, the
model follows the code:

- Mouse-down merges `clicked` and `dragStart` into the existing record. It
  does not reset `dragOffset`. A session restarted without an end keeps
  the old offset (`Carousel.MouseDownKeepsStaleOffset`).
- The offset guard compares an index of the compacted slide list with the
  length of the uncompacted list. The two are never equal, so every item,
  the last one included, gets the `offset` prop
  (`Layout.CarouselItems`, `Layout.LastItemKeepsOffset`).
- `dragStart == 0` is the only test for "no session". A drag that starts
  at pageX 0 is not seen as one, and it leaves `clicked` set outside a
  session (`Carousel.StartAtZeroIsNoSession`). A mouse-down at pageX 0
  during an open session ends that session silently, with no `onChange`
  (`Carousel.MouseDownAtZeroEndsSession`).
- The comment on `onMouseUpTouchEnd` says that a short drag or a click
  selects the clicked slide. The code always passes `nearestSlideIndex` to
  `onChange`, and only when `draggable` is set. The model does the same.

## Model

| member | source | states |
|---|---|---|
| `Js.Truthy` | react-carousel/src/components/Carousel.js:228-230 | A number is truthy iff it is not `undefined`, `NaN` or 0. |
| `Js.Show` | react-carousel/src/components/Carousel.js:205-211 | A template literal prints `undefined` and `NaN` as those words. It prints an integer as decimal text that reads back as the integer: `0` for zero, digits without a leading zero for positive values, and a `-` before such digits for negative values. |
| `Js.Or` | react-carousel/src/components/Carousel.js:228-230 | JavaScript's logical or on numbers: the result is one of the operands. It is truthy iff either operand is truthy. It is `a` when `a` is truthy, else `b`. |
| `Js.Times` | react-carousel/src/components/Carousel.js:175-176 | A number times an integer is an integer iff the number is one, and then it is the product. `undefined` and `NaN` give `NaN`. |
| `Js.ReadIntToString` | react-carousel/src/components/Carousel.js:205-211 | Printing an integer into a template literal loses nothing: reading the text back gives the integer. |
| `Js.ReadShownWithUnit` | react-carousel/src/components/Carousel.js:205-211 | A number printed with a unit (`px`, `ms`) after it reads back as that number. |
| `Layout.WithTransform` | react-carousel/src/components/Carousel.js:182-185 | Merging a new `transformOffset` into the stored track style sets the transform and leaves both margins unchanged. |
| `Layout.TrackWidth` | react-carousel/src/components/Carousel.js:174-179 | The track width is a number iff the container has been measured. Before that it is `NaN`. |
| `Layout.TrackWidthSpansChildren` | react-carousel/src/components/Carousel.js:175-176 | For a measured container, the track width equals the width of all children laid side by side, each as wide as the container. |
| `Layout.TrackWidthExample` | react-carousel/src/components/Carousel.js:175-176 | A 300px container with 4 children gives a 1200px track. An unmeasured one gives `NaN`. |
| `Layout.CurrentTrackStyles` | react-carousel/src/components/Carousel.js:204-212 | The transition duration is present iff transitions are enabled, and then it is the animation speed in ms given twice. The transform is `translateX(<stored transform>px)`. The width and margins are the stored numbers in px. |
| `Layout.TrackStyleReadsBack` | react-carousel/src/components/Carousel.js:204-212 | The rendered width, margins, translation and both transition durations read back as the numbers they were made from. |
| `Layout.IsDragging` | react-carousel/src/components/Carousel.js:234-236 | An item shows a drag iff the record has an offset whose magnitude is strictly above the threshold. A record without an offset never shows one. |
| `Layout.IsDraggingAtThreshold` | react-carousel/src/components/Carousel.js:235 | For a non-negative threshold, an offset of exactly plus or minus the threshold is not a drag. One pixel more is. |
| `Layout.ItemWidth` | react-carousel/src/components/Carousel.js:230 | An item's width is the `itemWidth` prop when it is truthy, else the measured slide width. |
| `Layout.CurrentSlideIndex` | react-carousel/src/components/Carousel.js:228 | The current slide is the active index when it is truthy, else the `value` prop. An active index of 0 defers to the prop. |
| `Layout.DraggableFlag` | react-carousel/src/components/Carousel.js:202 | The track is draggable iff the prop allows it and there are at least two children. |
| `Layout.ItemOffset` | react-carousel/src/components/Carousel.js:231 | An item gets the `offset` prop unless its index equals the slide count, in which case it gets 0. |
| `Layout.Compact` | react-carousel/src/components/Carousel.js:224 | Removing the falsy slides gives one entry per truthy slide, so the list is no longer than the original. Every entry is a truthy slide, and every truthy slide is an entry. |
| `Layout.CompactAppend` | react-carousel/src/components/Carousel.js:224 | Compacting a concatenation concatenates the compacted parts, so order and duplicates are kept. |
| `Layout.CompactSingle` | react-carousel/src/components/Carousel.js:224 | A single truthy slide compacts to its value. A single falsy slide compacts to nothing. |
| `Layout.CarouselItems` | react-carousel/src/components/Carousel.js:224-242 | There is one item per truthy slide, in order, numbered from 0. Every item gets the `offset` prop. All items share the width, current slide, drag flag and drag-enabled flag. |
| `Layout.LastItemKeepsOffset` | react-carousel/src/components/Carousel.js:224-231 | The last rendered item also gets the `offset` prop, because its index is below the slide count. |
| `Movement.Idle` | react-carousel/src/components/Carousel.js:140-144 | The record an end leaves: no clicked item, dragStart 0, dragOffset 0, no dragEnd. No session is open in it. |
| `Movement.InSession` | react-carousel/src/components/Carousel.js:76 | A session is open iff dragStart is not 0. The same test guards the end handler at line 134. |
| `Movement.Dragged` | react-carousel/src/components/Carousel.js:81-85 | A move sets the offset to the pointer's distance from the start and the end to the pointer. It keeps the clicked item and the start. |
| `Movement.MouseDownOn` | react-carousel/src/components/Carousel.js:104-108 | Mouse-down sets the clicked item and the start. It keeps the earlier offset and end. |
| `Movement.TouchStartOn` | react-carousel/src/components/Carousel.js:120-123 | Touch-start sets the clicked item and the start. The new record has no offset and no end. |
| `Carousel.OnMouseMove` | react-carousel/src/components/Carousel.js:74-91 | Outside a session nothing changes. Inside one, the record is updated as `Movement.Dragged` says and transitions end up enabled. It never calls `onChange` and never touches the layout state. |
| `Carousel.OnMouseDown` | react-carousel/src/components/Carousel.js:98-111 | Only the session record changes, as `Movement.MouseDownOn` says. |
| `Carousel.OnTouchStart` | react-carousel/src/components/Carousel.js:118-124 | Only the session record changes, as `Movement.TouchStartOn` says. |
| `Carousel.OnMouseUpTouchEnd` | react-carousel/src/components/Carousel.js:132-148 | Outside a session nothing changes. Inside one, the record is reset to the idle record. `onChange(nearestSlideIndex)` is logged exactly once iff `draggable` is set. Transitions are switched on only in that case. |
| `Carousel.OnValueChanged` | react-carousel/src/components/Carousel.js:166-172 | The first run only clears the mount flag. Every later run only enables transitions. |
| `Carousel.OnOffsetWidthChanged` | react-carousel/src/components/Carousel.js:174-179 | Only the track width changes. It becomes the recomputed width. |
| `Carousel.OnTransformOffsetChanged` | react-carousel/src/components/Carousel.js:181-186 | Only the stored transform changes. The margins and every other part of the state stay. |
| `Carousel.EndIsIdempotent` | react-carousel/src/components/Carousel.js:134-145 | A second end right after an end changes nothing. |
| `Carousel.AtMostOneChangePerSession` | react-carousel/src/components/Carousel.js:132-148 | Over any run of events, the `onChange` calls number at most the sessions the run opens (mouse-downs and touch-starts away from pageX 0), plus one for a session already open. |
| `Carousel.ChangesComeFromEnds` | react-carousel/src/components/Carousel.js:136-139 | Over any run, earlier `onChange` calls are kept. Every new call is the nearest index of one of the run's session ends on a draggable carousel. |
| `Carousel.NoChangeWithoutDrag` | react-carousel/src/components/Carousel.js:136 | A run whose session ends all find `draggable` unset never calls `onChange`. |
| `Carousel.StepKeepsRecordConsistent` | react-carousel/src/components/Carousel.js:74-148 | Every event other than mouse-down keeps "offset = end - start". Every event that does not start a session at pageX 0 keeps "no clicked item outside a session". |
| `Carousel.MouseDownKeepsStaleOffset` | react-carousel/src/components/Carousel.js:104-108 | After a session restarted by mouse-down, the old offset is still there. It no longer matches the start, and it still counts as a drag. |
| `Carousel.MouseDownAtZeroEndsSession` | react-carousel/src/components/Carousel.js:104-145 | A mouse-down at pageX 0 during an open session closes the session. The following end then calls no `onChange`, and the clicked item stays recorded. |
| `Carousel.StartAtZeroIsNoSession` | react-carousel/src/components/Carousel.js:102-108 | Mouse-down at pageX 0 records the clicked item but opens no session, so the following end does nothing. |
| `Carousel.DragSession` | react-carousel/src/components/Carousel.js:74-148 | Mouse-down on item 2 at pageX 100, then a move to 140, gives offset 40, which is a drag for threshold 10. The end then logs exactly one `onChange(nearest)`, resets the record and enables transitions. |
| `Carousel.ValueChangesAfterMount` | react-carousel/src/components/Carousel.js:166-172 | After n >= 1 runs of the `value` effect, the mount flag is clear and only the transition flag may have changed. From a fresh mount, transitions are switched on only by the second and later runs. |
| `Controller.CarouselController.constructor` | react-carousel/src/components/Carousel.js:36-49 | The fields hold the given starting atom values. The mount flag is set and no `onChange` has been made. |
| `Controller.CarouselController.OnMouseMove` | react-carousel/src/components/Carousel.js:74-91 | Switching transitions off, updating the record and switching them on again leaves the state `Carousel.OnMouseMove` gives. |
| `Controller.CarouselController.OnMouseDown` | react-carousel/src/components/Carousel.js:98-111 | The new state is the one `Carousel.OnMouseDown` gives. |
| `Controller.CarouselController.OnTouchStart` | react-carousel/src/components/Carousel.js:118-124 | The new state is the one `Carousel.OnTouchStart` gives. |
| `Controller.CarouselController.OnMouseUpTouchEnd` | react-carousel/src/components/Carousel.js:132-148 | The new state, `onChange` log included, is the one `Carousel.OnMouseUpTouchEnd` gives. |
| `Controller.CarouselController.OnValueChange` | react-carousel/src/components/Carousel.js:166-172 | The new state is the one `Carousel.OnValueChanged` gives. |
| `Controller.CarouselController.OnOffsetWidthChange` | react-carousel/src/components/Carousel.js:174-179 | The new state is the one `Carousel.OnOffsetWidthChanged` gives. |
| `Controller.CarouselController.OnTransformOffsetChange` | react-carousel/src/components/Carousel.js:181-186 | The new state is the one `Carousel.OnTransformOffsetChanged` gives. |
| `Controller.CarouselController.RenderCarouselItems` | react-carousel/src/components/Carousel.js:200-246 | Rendering reads the fields and changes nothing. It returns the track style, the draggable flag and the item list that the `Layout` functions give for the current fields. |
| `Controller.DragThroughController` | react-carousel/src/components/Carousel.js:98-148 | Through the object: mouse-down, a move and two ends give one `onChange`, an idle record and enabled transitions. |

## Left out

- JSX markup, the `classnames` class strings, the stylesheet import, and the `React.memo` and `withResizeDetector` wrappers: rendering and library wrappers.
- The Recoil atom store: it appears only as the controller's fields. The atoms' default values are defined in `src/state/atoms/carouselAtoms.js`, which is not part of this model, so the constructor takes them as parameters.
- `useOnResize`, `useEventListener`, `simulateEvent`, `getChildren`, `carouselPluginResolver` and `config.clickDragThreshold`: their source is not part of this model. Their outputs are inputs here: the pageX of an event, the child count, the slides, and the threshold.
- Plugin invocation and `setStrategies`: these only call opaque plugin functions, and the merge policy lives in the resolver, which is not part of this model.
- `preventDefault` and `stopPropagation`: DOM side effects.
- PropTypes, defaultProps and breakpoints: schema and default wiring with no logic in this file.
- The `nearestSlideIndex` derivation: it arrives as a prop, and the model takes it as an integer input. An `undefined` prop value is not modelled.
- The effects that copy `children` into the `slides` atom and `offset` into the `slideOffset` atom: each is a single assignment. The `slides` list is an input of the render step.
- When React runs the effects and handlers: each effect is a method that the caller runs when the effect's dependency changes. The stale values that `useCallback` closures may capture are not modelled, because the handlers read the current fields and the props are passed at call time.
- Fractional pixel values and floating-point arithmetic: all numbers are integers.
- Js.Show: prints every integer in plain decimal. JavaScript switches to exponent form (`1e+21`) from a magnitude of 10^21 upward, and the model does not cover that form.
- Carousel.OnMouseUpTouchEnd: assumes that `onChange` is a function that returns normally. The prop is optional and has no default. If it is absent, or if it throws while `draggable` is set, the handler stops before resetting the session record, so the session stays open. That outcome is not modelled.
- Keys of the stored track style other than the transform and the two margins: this file never reads them.
