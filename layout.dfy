/**
 * The pure render-time rules of the carousel: track width, the track's
 * style record, and the values every rendered item receives.
 */
module Layout {
  import opened Wrappers
  import opened Js

  /** The stored track style (the `trackStyles` atom): the numbers it is built from. */
  datatype TrackStyles = TrackStyles(transform: Num, marginLeft: Num, marginRight: Num)

  /** The style the track element is rendered with; every value is CSS text. */
  datatype TrackStyle = TrackStyle(
    width: string,
    transitionDuration: Option<string>,
    transform: string,
    marginLeft: string,
    marginRight: string)

  /** What the rendered list needs of the component's props. */
  datatype ItemProps = ItemProps(value: Num, itemWidth: Num, offset: Num, draggable: bool)

  /** The props one rendered carousel item receives. */
  datatype ItemView<T> = ItemView(
    content: T,
    index: nat,
    currentSlideIndex: Num,
    width: Num,
    offset: Num,
    isDragging: bool,
    isDraggingEnabled: bool)

  /** The `transformOffset` update: a new transform merged into the stored style. */
  function WithTransform(styles: TrackStyles, transformOffset: Num): (r: TrackStyles)
    ensures r.transform == transformOffset
    ensures r.marginLeft == styles.marginLeft && r.marginRight == styles.marginRight
  {
    styles.(transform := transformOffset)
  }

  /**
   * Track width: the measured container width times the number of
   * children. Before the container is measured its width is `undefined`
   * and the product is `NaN`.
   */
  function TrackWidth(offsetWidth: Num, childCount: nat): (r: Num)
    ensures r.Int? <==> offsetWidth.Int?
    ensures !offsetWidth.Int? ==> r == NaN
  {
    Times(offsetWidth, childCount)
  }

  /** The total width of `count` items laid side by side, each `width` wide. */
  function Spanned(width: int, count: nat): int {
    if count == 0 then 0 else Spanned(width, count - 1) + width
  }

  /** The track is exactly as wide as all children, each as wide as the container. */
  lemma {:induction false} TrackWidthSpansChildren(width: int, count: nat)
    ensures TrackWidth(Int(width), count) == Int(Spanned(width, count))
  {
    if count > 0 {
      TrackWidthSpansChildren(width, count - 1);
      assert width * count == width * (count - 1) + width;
    }
  }

  lemma TrackWidthExample()
    ensures TrackWidth(Int(300), 4) == Int(1200)
    ensures TrackWidth(Undefined, 4) == NaN
  {
  }

  function Px(n: Num): string {
    Show(n) + "px"
  }

  function Ms(n: Num): string {
    Show(n) + "ms"
  }

  /**
   * The style the track is rendered with. The transition duration is
   * given twice, once for each animated property, and is absent while
   * transitions are disabled.
   */
  function CurrentTrackStyles(trackWidth: Num, transitionEnabled: bool, animationSpeed: Num, styles: TrackStyles): (r: TrackStyle)
    ensures r.transitionDuration.Some? <==> transitionEnabled
    ensures transitionEnabled ==> r.transitionDuration == Some(Ms(animationSpeed) + ", " + Ms(animationSpeed))
    ensures r.width == Px(trackWidth)
    ensures r.transform == "translateX(" + Px(styles.transform) + ")"
    ensures r.marginLeft == Px(styles.marginLeft) && r.marginRight == Px(styles.marginRight)
  {
    TrackStyle(
      Px(trackWidth),
      if transitionEnabled then Some(Ms(animationSpeed) + ", " + Ms(animationSpeed)) else None,
      "translateX(" + Px(styles.transform) + ")",
      Px(styles.marginLeft),
      Px(styles.marginRight))
  }

  /**
   * The rendered style carries the geometry unchanged: the width, the
   * margins, the translation and both transition durations read back as
   * the numbers they were made from.
   */
  lemma TrackStyleReadsBack(trackWidth: int, animationSpeed: int, transform: int, marginLeft: int, marginRight: int)
    ensures var r := CurrentTrackStyles(Int(trackWidth), true, Int(animationSpeed), TrackStyles(Int(transform), Int(marginLeft), Int(marginRight)));
      && ReadWithUnit(r.width, "px") == Some(trackWidth)
      && ReadWithUnit(r.marginLeft, "px") == Some(marginLeft)
      && ReadWithUnit(r.marginRight, "px") == Some(marginRight)
      && |r.transform| > 12
      && r.transform[..11] == "translateX(" && r.transform[|r.transform| - 1] == ')'
      && ReadWithUnit(r.transform[11..|r.transform| - 1], "px") == Some(transform)
      && var d := r.transitionDuration.value;
         var half := |Ms(Int(animationSpeed))|;
         && |d| == 2 + 2 * half
         && d[half..half + 2] == ", "
         && ReadWithUnit(d[..half], "ms") == Some(animationSpeed)
         && ReadWithUnit(d[half + 2..], "ms") == Some(animationSpeed)
  {
    var r := CurrentTrackStyles(Int(trackWidth), true, Int(animationSpeed), TrackStyles(Int(transform), Int(marginLeft), Int(marginRight)));
    ReadShownWithUnit(trackWidth, "px");
    ReadShownWithUnit(marginLeft, "px");
    ReadShownWithUnit(marginRight, "px");
    ReadShownWithUnit(transform, "px");
    ReadShownWithUnit(animationSpeed, "ms");
    assert r.transform[11..|r.transform| - 1] == Px(Int(transform));
    var m := Ms(Int(animationSpeed));
    var d := r.transitionDuration.value;
    assert d == m + ", " + m;
    assert d[..|m|] == m;
    assert d[|m| + 2..] == m;
  }

  /**
   * Whether a drag is far enough to count as one: the offset's magnitude
   * is strictly beyond the threshold. A record without an offset (right
   * after a touch-start) gives `Math.abs(undefined)`, which is `NaN`, so
   * it never counts.
   */
  function IsDragging(dragOffset: Option<int>, threshold: int): (r: bool)
    ensures r <==> dragOffset.Some? && (dragOffset.value > threshold || -dragOffset.value > threshold)
  {
    match dragOffset
    case None => false
    case Some(d) => (if d < 0 then -d else d) > threshold
  }

  lemma IsDraggingAtThreshold(threshold: int)
    requires threshold >= 0
    ensures !IsDragging(Some(threshold), threshold) && !IsDragging(Some(-threshold), threshold)
    ensures IsDragging(Some(threshold + 1), threshold) && IsDragging(Some(-threshold - 1), threshold)
  {
  }

  /** The item width: the `itemWidth` prop when it is truthy, else the measured slide width. */
  function ItemWidth(propsItemWidth: Num, slideWidth: Num): (r: Num)
    ensures Truthy(propsItemWidth) ==> r == propsItemWidth
    ensures !Truthy(propsItemWidth) ==> r == slideWidth
  {
    Or(propsItemWidth, slideWidth)
  }

  /**
   * The slide shown as current: the active slide index, or the `value`
   * prop when the active index is falsy. Slide 0 is falsy, so an active
   * index of 0 defers to the prop.
   */
  function CurrentSlideIndex(activeSlideIndex: Num, value: Num): (r: Num)
    ensures r == activeSlideIndex || r == value
    ensures Truthy(activeSlideIndex) ==> r == activeSlideIndex
    ensures !Truthy(activeSlideIndex) ==> r == value
  {
    Or(activeSlideIndex, value)
  }

  /** The track is draggable only when the prop allows it and there is more than one child. */
  function DraggableFlag(draggable: bool, childCount: nat): (r: bool)
    ensures r <==> draggable && childCount >= 2
  {
    draggable && childCount > 1
  }

  /** The offset an item gets: the `offset` prop, except for an item whose index equals the slide count. */
  function ItemOffset(index: nat, slideCount: nat, offset: Num): (r: Num)
    ensures index != slideCount ==> r == offset
    ensures index == slideCount ==> r == Int(0)
  {
    if index != slideCount then offset else Int(0)
  }

  /** The number of truthy entries of `s`. */
  function Present<T>(s: seq<Option<T>>): nat {
    if s == [] then 0 else (if s[0].Some? then 1 else 0) + Present(s[1..])
  }

  /** Lodash `compact`: the list without its falsy entries, in order. */
  function Compact<T>(s: seq<Option<T>>): (r: seq<T>)
    ensures |r| == Present(s) <= |s|
    ensures forall i :: 0 <= i < |r| ==> Some(r[i]) in s
    ensures forall i :: 0 <= i < |s| && s[i].Some? ==> s[i].value in r
  {
    if s == [] then []
    else
      var rest := Compact(s[1..]);
      match s[0]
      case None => rest
      case Some(x) => [x] + rest
  }

  /**
   * Compacting keeps order and duplicates: a truthy entry becomes its
   * value, a falsy one disappears, and compacting a concatenation
   * concatenates the compacted parts.
   */
  lemma {:induction false} CompactAppend<T>(a: seq<Option<T>>, b: seq<Option<T>>)
    ensures Compact(a + b) == Compact(a) + Compact(b)
    decreases |a|
  {
    if a != [] {
      assert (a + b)[1..] == a[1..] + b;
      CompactAppend(a[1..], b);
    } else {
      assert a + b == b;
    }
  }

  lemma CompactSingle<T>(x: T)
    ensures Compact([Some(x)]) == [x] && Compact<T>([None]) == []
  {
  }

  /**
   * The list of rendered items: one per truthy slide, in order, numbered
   * from 0. Every item gets the `offset` prop: an index of the compacted
   * list is always below the slide count, so the zero branch of the
   * offset rule is never taken, not even for the last item.
   */
  function CarouselItems<T>(slides: seq<Option<T>>, activeSlideIndex: Num, slideWidth: Num,
                                dragOffset: Option<int>, threshold: int, props: ItemProps): (r: seq<ItemView<T>>)
    ensures |r| == |Compact(slides)|
    ensures forall k :: 0 <= k < |r| ==> r[k].content == Compact(slides)[k] && r[k].index == k
    ensures forall k :: 0 <= k < |r| ==> r[k].offset == props.offset
    ensures forall k :: 0 <= k < |r| ==>
      && r[k].width == ItemWidth(props.itemWidth, slideWidth)
      && r[k].currentSlideIndex == CurrentSlideIndex(activeSlideIndex, props.value)
      && r[k].isDragging == IsDragging(dragOffset, threshold)
      && r[k].isDraggingEnabled == props.draggable
  {
    var items := Compact(slides);
    seq(|items|, k requires 0 <= k < |items| =>
      ItemView(
        items[k],
        k,
        CurrentSlideIndex(activeSlideIndex, props.value),
        ItemWidth(props.itemWidth, slideWidth),
        ItemOffset(k, |slides|, props.offset),
        IsDragging(dragOffset, threshold),
        props.draggable))
  }

  /** Even the last rendered item keeps the `offset` prop, whatever its value. */
  lemma LastItemKeepsOffset<T>(slides: seq<Option<T>>, activeSlideIndex: Num, slideWidth: Num,
                                   dragOffset: Option<int>, threshold: int, props: ItemProps)
    requires Compact(slides) != []
    ensures var r := CarouselItems(slides, activeSlideIndex, slideWidth, dragOffset, threshold, props);
      r[|r| - 1].offset == props.offset
  {
  }
}
