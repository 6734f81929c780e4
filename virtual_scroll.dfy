/**
 * The proxy scrollbar of hScrollSticky mode: a fixed-position wrapper under the
 * container holding an invisible spacer as wide as the target, whose horizontal
 * scroll offset is kept equal to the container's in both directions.
 */
module VirtualScrollState {
  import opened Wrappers
  import opened Geometry

  /** The two horizontal scroll offsets the proxy keeps in step. */
  datatype ScrollOffsets = ScrollOffsets(wrap: real, container: real)

  predicate Synced(o: ScrollOffsets) { o.wrap == o.container }

  /** The last step of setStyle (src/index.js:125): the proxy takes the
      container's offset, and the container does not move. */
  function PullFromContainer(o: ScrollOffsets): (r: ScrollOffsets)
    ensures Synced(r) && r.container == o.container
  {
    o.(wrap := o.container)
  }

  /** The scrollVirtual handler (src/index.js:53): the container takes the
      proxy's offset, and the proxy does not move. */
  function PushToContainer(o: ScrollOffsets): (r: ScrollOffsets)
    ensures Synced(r) && r.wrap == o.wrap
  {
    o.(container := o.wrap)
  }

  /** The events that can change the offsets once hScrollSticky is listening
      (src/index.js:64-68), each followed by the handler it triggers. */
  datatype Event =
    | WrapperScrolled(to: real)    // the user scrolls the proxy; scrollVirtual runs
    | ContainerScrolled(to: real)  // other code writes container.scrollLeft; nothing listens
    | WindowScrolled               // setVirtualPosition runs; it leaves both offsets alone
    | WindowResized                // setVirtualStyle, that is setStyle, runs

  function Dispatch(o: ScrollOffsets, e: Event): (r: ScrollOffsets)
    // scrollVirtual and setStyle leave the two in step
    ensures e.WrapperScrolled? || e.WindowResized? ==> Synced(r)
    // the container follows a scroll of the proxy; a resize leaves it where it was
    ensures e.WrapperScrolled? ==> r.container == e.to
    ensures e.WindowResized? ==> r.container == o.container
    // an outside write moves only the container; a window scroll moves neither
    ensures e.ContainerScrolled? ==> r.wrap == o.wrap && r.container == e.to
    ensures e.WindowScrolled? ==> r == o
  {
    match e
    case WrapperScrolled(x) => PushToContainer(o.(wrap := x))
    case ContainerScrolled(x) => o.(container := x)
    case WindowScrolled => o
    case WindowResized => PullFromContainer(o)
  }

  /** The offsets after the events es, oldest first. */
  function Replay(o: ScrollOffsets, es: seq<Event>): ScrollOffsets
    decreases |es|
  {
    if es == [] then o else Dispatch(Replay(o, es[..|es| - 1]), es[|es| - 1])
  }

  /** A scroll of the proxy or a resize of the window always leaves the two in
      step, and a scroll of the proxy moves the container to where the user
      scrolled. */
  lemma ResyncingEvents(o: ScrollOffsets, es: seq<Event>)
    requires |es| > 0 && (es[|es| - 1].WrapperScrolled? || es[|es| - 1].WindowResized?)
    ensures Synced(Replay(o, es))
    ensures es[|es| - 1].WrapperScrolled? ==> Replay(o, es).container == es[|es| - 1].to
  {
  }

  /** Once in step, the offsets stay in step under any events but a write to
      the container's scrollLeft from outside this library. */
  lemma {:induction false} StaysSynced(o: ScrollOffsets, es: seq<Event>)
    requires Synced(o)
    requires forall i :: 0 <= i < |es| ==> !es[i].ContainerScrolled?
    ensures Synced(Replay(o, es))
  {
    if es != [] {
      StaysSynced(o, es[..|es| - 1]);
    }
  }

  /** The two-way binding is not an invariant of every event sequence: after a
      container-side write the window's scroll handler does not resync, only
      the next resize or proxy scroll does. */
  lemma WindowScrollDoesNotResync()
    ensures !Synced(Replay(ScrollOffsets(0.0, 0.0), [ContainerScrolled(5.0), WindowScrolled]))
    ensures Synced(Replay(ScrollOffsets(0.0, 0.0), [ContainerScrolled(5.0), WindowScrolled, WindowResized]))
  {
  }

  /** The wrapper element, its spacer, and the scroll offset of the container
      it mirrors (src/index.js:39-49, 109-138). A style that has not been set
      is None. */
  class VirtualScroll {
    const id: nat                   // identity of the wrapper node in the document
    var wrapPosition: Position
    var wrapLeft: Option<real>
    var wrapWidth: Option<real>
    var wrapBottom: Option<real>
    var contentWidth: Option<real>  // the spacer's width
    var wrapScrollLeft: real
    var containerScrollLeft: real

    function Offsets(): ScrollOffsets
      reads this
    {
      ScrollOffsets(wrapScrollLeft, containerScrollLeft)
    }

    /** Position and `bottom` as setVirtualPosition leaves them for snapshot s. */
    predicate Placed(s: Snapshot, os: real)
      reads this
    {
      wrapPosition == VirtualPosition(s.tBottom, s.clientHeight, os)
      && wrapBottom == Some(VirtualBottom(s.cTop, s.clientHeight, os))
    }

    /** Everything setStyle derives from snapshot s: the proxy spans the
        container horizontally, its spacer is as wide as the target, it is
        placed vertically, and it scrolls with the container. */
    predicate Styled(s: Snapshot, os: real)
      reads this
    {
      Placed(s, os)
      && wrapLeft == Some(s.cLeft) && wrapWidth == Some(s.cWidth)
      && contentWidth == Some(s.tWidth)
      && Synced(Offsets())
    }

    /** The two fresh, unstyled elements of createVirtualScroll; the container
        keeps its current scroll offset. */
    constructor (id: nat, containerScrollLeft: real)
      ensures this.id == id && wrapPosition == Static
      ensures wrapLeft == None && wrapWidth == None && wrapBottom == None && contentWidth == None
      ensures Offsets() == ScrollOffsets(0.0, containerScrollLeft)
    {
      this.id := id;
      wrapPosition := Static;
      wrapLeft, wrapWidth, wrapBottom, contentWidth := None, None, None, None;
      wrapScrollLeft := 0.0;
      this.containerScrollLeft := containerScrollLeft;
    }

    /** setVirtualPosition (src/index.js:129-138). */
    method SetVirtualPosition(s: Snapshot, os: real)
      modifies this`wrapPosition, this`wrapBottom
      ensures Placed(s, os)
    {
      var bottom := if s.cTop > s.clientHeight then s.clientHeight - s.cTop else -os;
      wrapPosition := if s.clientHeight >= s.tBottom - os then Static else Fixed;
      wrapBottom := Some(bottom);
    }

    /** The hScrollSticky branch of setStyle (src/index.js:109-126). The style
        text of line 110 replaces the whole inline style; its `bottom` has no
        unit, so it takes effect only when it is zero, and line 137 overwrites
        it in any case. */
    method SetStyle(s: Snapshot, os: real)
      modifies this
      ensures Styled(s, os)
      ensures Offsets() == PullFromContainer(old(Offsets()))
    {
      wrapPosition := Fixed;
      wrapLeft := Some(s.cLeft);
      wrapBottom := if -os == 0.0 then Some(0.0) else None;
      wrapWidth := Some(s.cWidth);
      contentWidth := Some(s.tWidth);
      SetVirtualPosition(s, os);
      wrapScrollLeft := containerScrollLeft;
    }

    /** The scrollVirtual handler (src/index.js:53), run when the proxy scrolls. */
    method ScrollVirtual()
      modifies this`containerScrollLeft
      ensures Offsets() == PushToContainer(old(Offsets()))
    {
      containerScrollLeft := wrapScrollLeft;
    }
  }
}
