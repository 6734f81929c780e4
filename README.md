# ElementSticky in Dafny

ElementSticky attaches one of three "sticky" behaviours to a target element inside a scrolling container:

- **topSticky** pins the target at `offset` pixels below the top of the viewport while its container scrolls past.
- **bottomSticky** does the same against the bottom of the viewport.
- **hScrollSticky** hides the container's own horizontal scrollbar. It shows a fixed-position proxy scrollbar (a wrapper holding a spacer as wide as the target) and keeps the proxy's and the container's `scrollLeft` equal.

One global slot, `window.elementSticky`, holds the handler closures of the most recent instance. A rejected construction only logs a diagnostic. Each valid construction first calls `distory` on the slot's handler set. It does so with its own action (see below), so it removes only those of the slot's listeners that match that action, and in hScrollSticky mode it can raise before the slot is cleared. Unless it raised, the construction then initialises and registers its own listeners.

The project has five modules:

- `Geometry` (geometry.dfy): the position engine as pure functions over a geometry snapshot. These are the translation of topSticky and bottomSticky, and the proxy's position and `bottom`. Lemmas cover bounds, pinning, monotonicity and continuity, and the mirror symmetry of the two sticky modes.
- `VirtualScrollState` (virtual_scroll.dfy): the proxy scrollbar as a class with the wrapper's left, width, bottom and position, the spacer's width, and both scroll offsets. A pure model of the two offsets states which events keep them equal.
- `Lifecycle` (lifecycle.dfy): the constructor's checks and the page as a state machine, as functions over a `World` value. The `World` holds the slot, the set of registered listeners, the nodes that follow each element, hidden overflow, target transforms and the console. Lemmas relate `listen`, `distory` and whole sequences of constructions.
- `Sticky` (sticky.dfy): the `ElementSticky` class and a `Dom` class holding the page's state. Its methods follow the source statement by statement. The postconditions of the constructor, `Listen`, `Init`, `SetStyle` and `Distory` equate the new page with the matching `Lifecycle` function. `CreateVirtualScroll` states each field it changes. `ScrollVirtual` and `SetVirtualPosition` state their effect through the predicates and functions of `VirtualScrollState`.
- `Wrappers` (wrappers.dfy): `Option` and `Result`.

All lengths are exact `real` pixels in viewport coordinates, with y growing downwards.

Behaviours of the code a reader might not expect:

- **Clamping sign.** The topSticky translation lies between 0 and `cHeight - tHeight`: a target no taller than its container is moved down, never up.
- **Teardown is incomplete.** `distory` removes the `scroll` listener for `setVirtualStyle`, but `listen` registered it on `resize` (src/index.js:67, 154). Every hScrollSticky activation therefore leaves a resize listener behind (`Lifecycle.ResizeListenersLeak`, `Lifecycle.HScrollActivationAddsPermanentListener`).
- **distory uses the new instance's settings.** `distory` runs with the new instance's action, and before that instance has a wrapper (src/index.js:34-35). As a result:
  - line 151 never runs during construction;
  - switching from topSticky to hScrollSticky keeps the topSticky listeners;
  - hScrollSticky followed by topSticky, the order the demo page uses, keeps both behaviours active.
- **Two-way sync is not restored by every event.** A resize or a scroll of the proxy restores it, but a window scroll after some other code has set the container's `scrollLeft` does not (`VirtualScrollState.WindowScrollDoesNotResync`).
- **Teardown can throw.** In hScrollSticky mode `distory` removes the container's next sibling, whatever it is. If there is none, `removeChild(null)` raises a TypeError, and `init` and `listen` never run.
- **The first `bottom` write is overwritten.** The `bottom` written by the style text of line 113 has no unit. It takes effect only when it is 0, and line 137 overwrites it.
- **Line 158 never runs.** It tests `!c` inside a branch where `c` is an element.

## Model

| member | source | states |
|---|---|---|
| `Geometry.TopStickyY` | src/index.js:96 | y is 0 until the container's top reaches the pin line. y always lies between 0 and cHeight − tHeight. A target no taller than its container stays inside it. While the container spans the pin line, cTop + y == offset. A taller target never takes the tracking branch. |
| `Geometry.BottomStickyY` | src/index.js:101-105 | y is 0 while the container's bottom is above the pin line. For a well-formed container and a target no taller than it, tHeight − cHeight ≤ y ≤ 0. While the container spans the pin line, cBottom + y == viewport height + offset. |
| `Geometry.TopStickyContinuous` | src/index.js:96 | For tHeight ≤ cHeight, y is non-increasing in cTop and changes by at most the change in cTop. So the three branches agree at cTop == offset and at cTop == tHeight − cHeight + offset. |
| `Geometry.BottomStickyContinuous` | src/index.js:101-105 | The same monotonicity and continuity for bottomSticky as a container of fixed height scrolls. |
| `Geometry.BottomIsReflectedTop` | src/index.js:96-105 | bottomSticky's y is the negation of topSticky's y on the vertically mirrored geometry, with the offset negated. This holds for all inputs, including the boundaries where one formula compares strictly and the other does not. |
| `Geometry.VirtualPosition` | src/index.js:136 | The proxy is `static` exactly when the target's bottom minus the offset is within the viewport, otherwise `fixed`. |
| `Geometry.VirtualBottom` | src/index.js:134 | When the container's top is below the viewport, `bottom` is negative and the proxy's bottom edge sits at the container's top. Otherwise the edge sits on the pin line, viewport height + offset. It does not depend on the target. |
| `VirtualScrollState.PullFromContainer` | src/index.js:125 | After setStyle's last step the two offsets are equal and the container's offset is unchanged. |
| `VirtualScrollState.PushToContainer` | src/index.js:53 | After scrollVirtual the two offsets are equal and the proxy's offset is unchanged. |
| `VirtualScrollState.Dispatch` | src/index.js:53-68 | Which handler each event runs, and its effect on the offsets. A proxy scroll (scrollVirtual, line 53) or a window resize (setVirtualStyle, line 67) leaves them equal. A proxy scroll moves the container to the user's position, while a resize leaves the container where it was. A window scroll (setVirtualPosition, line 66) changes neither. An outside write to the container moves only the container. |
| `VirtualScrollState.ResyncingEvents` | src/index.js:64-67 | After a proxy scroll or a window resize the offsets are equal. After a proxy scroll the container is where the user scrolled. |
| `VirtualScrollState.StaysSynced` | src/index.js:53-68 | Offsets that are equal stay equal under any sequence of events that contains no outside write to the container's scrollLeft. |
| `VirtualScrollState.WindowScrollDoesNotResync` | src/index.js:129-138 | A counterexample to "every event resyncs": from offsets (0, 0), an outside write of 5 to the container followed by a window scroll leaves the offsets unequal, and a following resize makes them equal again. |
| `VirtualScrollState.VirtualScroll.constructor` | src/index.js:43-45 | A new wrapper is `static` (the CSS default) with left, width, bottom and spacer width unset, and scroll offset 0. The container keeps its offset. |
| `VirtualScrollState.VirtualScroll.SetVirtualPosition` | src/index.js:129-138 | Sets position and `bottom` to `VirtualPosition` and `VirtualBottom` of the snapshot and changes nothing else. |
| `VirtualScrollState.VirtualScroll.SetStyle` | src/index.js:109-126 | Afterwards wrapLeft = cLeft, wrapWidth = cWidth and the spacer width = tWidth. The proxy is placed as `SetVirtualPosition` places it, which overrides line 113's `bottom`. Its scrollLeft equals the container's, and the container's is unchanged. |
| `VirtualScrollState.VirtualScroll.ScrollVirtual` | src/index.js:53 | The container's scrollLeft becomes the proxy's, and the proxy's is unchanged. |
| `Lifecycle.Validate` | src/index.js:13-32 | Options are accepted only when no check fails. Otherwise the reported error is the one whose check comes first in the order target, container, isElement(target), isElement(container), action present, action supported, offset numeric. On success the fields are the given ones and an absent offset becomes 0. |
| `Lifecycle.Registered` | src/index.js:59-68 | Every listener listen adds belongs to the new handler set. Both window events are listened to in every mode. Only hScrollSticky listens to its wrapper, and only to its scroll event. |
| `Lifecycle.Unregistered` | src/index.js:143-154 | Every listener distory asks to remove belongs to the slot's handler set. For topSticky and bottomSticky these are exactly the listeners listen registered. For hScrollSticky none is a resize listener, so the resize listener of line 67 is never named. |
| `Lifecycle.Listen` | src/index.js:51-69 | The slot holds a fresh handler set whatever it held before. Exactly the mode's listeners are added: two window listeners, or the wrapper's scroll listener plus window scroll and resize listeners. Nothing else changes. |
| `Lifecycle.Distory` | src/index.js:140-163 | With an empty slot nothing changes. Otherwise the listeners it names are removed. In hScrollSticky mode the node following the container, whatever it is, is removed. It raises exactly when the slot is full, the mode is hScrollSticky and the container has no next sibling; then the slot is kept and no node is removed. Otherwise the slot is emptied. It never adds listeners. |
| `Lifecycle.StyleTarget` | src/index.js:95-107 | setStyle's effect on the page: the target's translation is `TopStickyY` or `BottomStickyY`, and hScrollSticky leaves the page unchanged. The slot, listeners, nodes, hidden overflow, console and numbering never change. |
| `Lifecycle.Init` | src/index.js:71-79 | In hScrollSticky mode the container's overflow is hidden and a fresh wrapper becomes its next sibling. Every other element's sibling list, the rest of the hidden-overflow set and the transforms are unchanged. In the other modes the target's translation is set. The slot, listeners and console do not change. |
| `Lifecycle.Construct` | src/index.js:13-37 | A construction is rejected exactly when validation fails, and then only the diagnostic is logged. It throws exactly when the options are valid for hScrollSticky, the slot is full and the container has no next sibling. After a throw the slot, the nodes and the numbering are as before, and listeners have only been removed, because init and listen did not run. An activated instance has the validated configuration, owns the slot, and has all of its handler set's listeners registered. |
| `Lifecycle.ListenThenDistory` | src/index.js:140-146 | For topSticky and bottomSticky, distory after listen removes exactly the two listeners listen added and empties the slot. |
| `Lifecycle.HScrollListenThenDistory` | src/index.js:148-154 | For hScrollSticky, distory after listen keeps the window resize listener. It keeps the wrapper's scroll listener too when the instance has no wrapper, as on the constructor's path. |
| `Lifecycle.ConstructKeepsNoStaleSetStyle` | src/index.js:34-36 | A topSticky or bottomSticky construction, valid or not, keeps the setStyle listeners equal to the slot's own pair. |
| `Lifecycle.TopBottomRunsDoNotAccumulate` | src/index.js:34-36 | After any sequence of topSticky and bottomSticky constructions, the only setStyle listeners are those of the last active instance. |
| `Lifecycle.ResizeListenersLeak` | src/index.js:148-154 | No sequence of later constructions removes an hScrollSticky window resize listener. |
| `Lifecycle.HScrollActivationAddsPermanentListener` | src/index.js:64-68 | Every hScrollSticky activation adds a new resize listener of that kind. |
| `Lifecycle.SwitchingActionLeaks` | src/index.js:143-154 | topSticky followed by hScrollSticky keeps both topSticky window listeners. |
| `Lifecycle.SwitchingToHScrollDeletesNextSibling` | src/index.js:156-157 | After a topSticky construction, an hScrollSticky construction deletes the element that followed its container. Its own wrapper takes that element's place. |
| `Lifecycle.HScrollThenTopKeepsBoth` | src/index.js:143-146 | hScrollSticky followed by topSticky activates topSticky and keeps the hScrollSticky listeners and wrapper. |
| `Sticky.Dom.InsertAfter` | src/index.js:48 | The inserted node becomes the element's next sibling, ahead of the siblings it had. |
| `Sticky.Dom.RemoveNextSibling` | src/index.js:157 | Removes the element's next sibling, whatever it is. It raises a TypeError exactly when there is none, and then nothing changes. |
| `Sticky.ElementSticky.constructor` | src/index.js:13-37 | The page ends as `Lifecycle.Construct` says. A rejected instance has no fields. An activated hScrollSticky instance owns a fresh, fully styled proxy that scrolls with the container. |
| `Sticky.ElementSticky.CreateVirtualScroll` | src/index.js:39-49 | Hides the container's horizontal overflow and inserts a fresh wrapper right after the container. |
| `Sticky.ElementSticky.Listen` | src/index.js:51-69 | The page ends as `Lifecycle.Listen` says. |
| `Sticky.ElementSticky.Init` | src/index.js:71-79 | The page ends as `Lifecycle.Init` says. In hScrollSticky mode the new proxy is styled for the snapshot. |
| `Sticky.ElementSticky.SetStyle` | src/index.js:81-127 | The page ends as `Lifecycle.StyleTarget` says. In hScrollSticky mode the proxy is styled for the snapshot and takes the container's scrollLeft. |
| `Sticky.ElementSticky.SetVirtualPosition` | src/index.js:129-138 | The proxy is placed for the snapshot. |
| `Sticky.ElementSticky.ScrollVirtual` | src/index.js:53 | The container's scrollLeft becomes the proxy's. |
| `Sticky.ElementSticky.Distory` | src/index.js:140-163 | The page ends as `Lifecycle.Distory` says for this instance's action and wrapper and the slot's handler set, and the method reports whether it raised. |

## Left out

- Geometry reads: `getBoundingClientRect` and `document.documentElement.clientHeight` are a `Snapshot` argument. `setVirtualPosition` reads the layout again after setStyle's writes; the model passes it the same snapshot, assuming the proxy's style does not move the container or the target.
- The options argument is always an object. `new ElementSticky(null)` raises a TypeError while destructuring it (src/index.js:13); the model does not represent that call. `new ElementSticky()` is the options with every field absent.
- `Sticky.ElementSticky.Distory` requires a configured instance. A rejected construction still returns an object, and calling `distory()` on it would empty the slot without removing any listener (lines 141 and 162). No caller does this, and the model does not cover it.
- The container's initial `scrollLeft` is an argument of the constructor and of `init`.
- Browser behaviour is not modelled. Writes to `scrollLeft` are not clamped to the scroll range, writing `scrollLeft` does not fire scroll events, and there is no event-loop ordering. Handlers are not dispatched, apart from the offsets model in `VirtualScrollState`: handlers left behind by earlier instances are recorded as registrations but never run.
- `_isElement` (src/index.js:165-170) is a DOM prototype check; an argument is simply given as `Falsy`, `NotElement` or `Element`.
- The DOM tree is reduced to the list of nodes that follow each element, the set of elements with hidden horizontal overflow, and the target translations. Containers are assumed attached (`parentNode` present). Removing a node changes only the list it was taken from, and containers that are siblings of one another are not related.
- CSS text formatting (`px` units, `overflow-x: auto`, the spacer's height, opacity and pointer-events, the X and Z components of `translate3d`) is not modelled. Only the values the code computes are.
- The text of the `console.error` diagnostics is reduced to `ConfigError`. NaN, infinite offsets and floating-point rounding are not modelled.
- Two proxies on the same container each keep their own copy of the container's `scrollLeft`.
- demo/index.js is a caller with page-specific markup; it holds no logic.
