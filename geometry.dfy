/**
 * The position engine of ElementSticky: the pure formulas that turn one read of
 * the layout (a geometry snapshot) into a vertical translation for the target
 * (topSticky, bottomSticky) or into the position and `bottom` offset of the
 * proxy scrollbar (hScrollSticky).
 *
 * Every length is a pixel value in viewport coordinates (y grows downwards) and
 * is an exact real: rounding of fractional pixels is not modelled.
 */
module Geometry {

  /** One read of the layout: the container's and the target's bounding boxes
      (getBoundingClientRect) and the viewport height
      (document.documentElement.clientHeight). */
  datatype Snapshot = Snapshot(
    cTop: real, cBottom: real, cLeft: real, cWidth: real, cHeight: real,
    tWidth: real, tHeight: real, tBottom: real,
    clientHeight: real)

  function Min(a: real, b: real): real { if a <= b then a else b }
  function Max(a: real, b: real): real { if a <= b then b else a }

  /** A target of height tHeight whose natural place is the top of a container
      of height cHeight, moved down by y, lies inside the container. */
  predicate InsideFromTop(y: real, cHeight: real, tHeight: real) {
    0.0 <= y && y + tHeight <= cHeight
  }

  /** A target of height tHeight whose natural place is the bottom of a
      container of height cHeight, moved by y, lies inside the container. */
  predicate InsideFromBottom(y: real, cHeight: real, tHeight: real) {
    y <= 0.0 && cHeight - tHeight + y >= 0.0
  }

  /** The translation topSticky applies to the target (src/index.js:96), for a
      container whose top is at cTop and an offset os below the viewport top. */
  function TopStickyY(cTop: real, cHeight: real, tHeight: real, os: real): (y: real)
    // before the container's top reaches the pin line the target stays put
    ensures cTop > os ==> y == 0.0
    // y always lies between 0 and cHeight - tHeight, whichever order they are in
    ensures Min(0.0, cHeight - tHeight) <= y <= Max(0.0, cHeight - tHeight)
    // so a target no taller than its container never leaves it
    ensures tHeight <= cHeight ==> InsideFromTop(y, cHeight, tHeight)
    // while the container spans the pin line the target's top edge sits on it
    ensures tHeight <= cHeight && tHeight - cHeight + os <= cTop <= os ==> cTop + y == os
    // a target taller than its container never tracks the pin line
    ensures tHeight > cHeight ==> y == 0.0 || y == cHeight - tHeight
  {
    if cTop > os then 0.0
    else if cTop < tHeight - cHeight + os then cHeight - tHeight
    else -cTop + os
  }

  /** The translation bottomSticky applies to the target (src/index.js:101-105):
      the pin line is os below the viewport's bottom edge clientHeight. */
  function BottomStickyY(cTop: real, cBottom: real, cHeight: real, tHeight: real,
                         clientHeight: real, os: real): (y: real)
    // while the container's bottom is above the pin line the target stays put
    ensures cBottom < clientHeight + os ==> y == 0.0
    // for a well-formed container the target never leaves it
    ensures cBottom == cTop + cHeight && tHeight <= cHeight ==> InsideFromBottom(y, cHeight, tHeight)
    // while the container spans the pin line the target's bottom edge sits on it
    ensures cBottom == cTop + cHeight && tHeight <= cHeight
            && clientHeight + os <= cBottom <= clientHeight + os + cHeight - tHeight
            ==> cBottom + y == clientHeight + os
  {
    if cBottom < clientHeight + os then 0.0
    else if cTop >= clientHeight - tHeight + os then tHeight - cHeight
    else clientHeight - cBottom + os
  }

  /** Scrolling the page never moves a topSticky target the wrong way, and never
      by more than the scroll: y is non-increasing and 1-Lipschitz in cTop, so
      the branches agree where they meet (cTop == os and
      cTop == tHeight - cHeight + os). */
  lemma TopStickyContinuous(c1: real, c2: real, cHeight: real, tHeight: real, os: real)
    requires tHeight <= cHeight && c1 <= c2
    ensures 0.0 <= TopStickyY(c1, cHeight, tHeight, os) - TopStickyY(c2, cHeight, tHeight, os) <= c2 - c1
  {
  }

  /** The same for bottomSticky as the container (of fixed height) scrolls. */
  lemma BottomStickyContinuous(c1: real, c2: real, cHeight: real, tHeight: real, clientHeight: real, os: real)
    requires tHeight <= cHeight && c1 <= c2
    ensures var y1 := BottomStickyY(c1, c1 + cHeight, cHeight, tHeight, clientHeight, os);
            var y2 := BottomStickyY(c2, c2 + cHeight, cHeight, tHeight, clientHeight, os);
            0.0 <= y1 - y2 <= c2 - c1
  {
  }

  /** bottomSticky is topSticky seen in a mirror: reflecting the viewport
      (a coordinate v becomes clientHeight - v) turns the container's bottom
      into a top, the offset into its negation, and the translation into its
      negation. The strict and non-strict comparisons of the two formulas differ
      only where both branches give the same value. */
  lemma BottomIsReflectedTop(cTop: real, cHeight: real, tHeight: real, clientHeight: real, os: real)
    ensures BottomStickyY(cTop, cTop + cHeight, cHeight, tHeight, clientHeight, os)
         == -TopStickyY(clientHeight - (cTop + cHeight), cHeight, tHeight, -os)
  {
  }

  /** CSS position of the proxy scrollbar. */
  datatype Position = Static | Fixed

  /** Where a fixed element whose CSS `bottom` is b has its bottom edge. */
  function FixedBottomEdge(b: real, clientHeight: real): real { clientHeight - b }

  /** setVirtualPosition's choice of position (src/index.js:136): the proxy only
      floats while the target's bottom edge, lifted by the offset, is below the
      viewport. */
  function VirtualPosition(tBottom: real, clientHeight: real, os: real): (p: Position)
    ensures p == Static <==> tBottom - os <= clientHeight
  {
    if clientHeight >= tBottom - os then Static else Fixed
  }

  /** setVirtualPosition's `bottom` (src/index.js:134, 137). It depends on the
      container's top, the viewport and the offset only, not on the target. */
  function VirtualBottom(cTop: real, clientHeight: real, os: real): (b: real)
    // a container below the viewport drags the proxy down to its own top edge
    ensures cTop > clientHeight ==> b < 0.0 && FixedBottomEdge(b, clientHeight) == cTop
    // otherwise the proxy's bottom edge sits on the pin line
    ensures cTop <= clientHeight ==> FixedBottomEdge(b, clientHeight) == clientHeight + os
  {
    if cTop > clientHeight then clientHeight - cTop else -os
  }
}
