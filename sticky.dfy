/**
 * ElementSticky itself (src/index.js:12-171): the instance fields, the global
 * state of the page it writes to, and the methods that change them. Each
 * method's postcondition ties the new state to the step of module Lifecycle
 * that it performs; the geometry comes in as a Snapshot argument.
 */
module Sticky {
  import opened Wrappers
  import opened Geometry
  import opened VirtualScrollState
  import Lifecycle

  /** The window and the document as the library sees them: the fields of a
      Lifecycle.World, updated in place. */
  class Dom {
    var slot: Option<nat>                        // window.elementSticky
    var listeners: set<Lifecycle.Listener>
    var after: map<Lifecycle.Elem, seq<Lifecycle.Node>>
    var overflowHidden: set<Lifecycle.Elem>
    var transforms: map<Lifecycle.Elem, real>
    var console: seq<Lifecycle.ConfigError>
    var nextId: nat

    function World(): Lifecycle.World
      reads this
    {
      Lifecycle.World(slot, listeners, after, overflowHidden, transforms, console, nextId)
    }

    constructor (w: Lifecycle.World)
      ensures World() == w
    {
      slot, listeners, after := w.slot, w.listeners, w.after;
      overflowHidden, transforms := w.overflowHidden, w.transforms;
      console, nextId := w.console, w.nextId;
    }

    /** A new object: a handler set or a wrapper element. */
    method NewId() returns (id: nat)
      modifies this`nextId
      ensures id == old(nextId) && nextId == id + 1
    {
      id := nextId;
      nextId := nextId + 1;
    }

    /** addEventListener: registering the same listener twice keeps one. */
    method AddEventListener(l: Lifecycle.Listener)
      modifies this`listeners
      ensures listeners == old(listeners) + {l}
    {
      listeners := listeners + {l};
    }

    /** removeEventListener: a listener that is not registered is ignored. */
    method RemoveEventListener(l: Lifecycle.Listener)
      modifies this`listeners
      ensures listeners == old(listeners) - {l}
    {
      listeners := listeners - {l};
    }

    /** c.parentNode.insertBefore(n, c.nextSibling). */
    method InsertAfter(c: Lifecycle.Elem, n: Lifecycle.Node)
      modifies this`after
      ensures after == old(after)[c := [n] + Lifecycle.NextSiblings(old(World()), c)]
    {
      after := after[c := [n] + Lifecycle.NextSiblings(World(), c)];
    }

    /** c.parentNode.removeChild(c.nextSibling): raises a TypeError when c is
        the last child. */
    method RemoveNextSibling(c: Lifecycle.Elem) returns (raised: bool)
      modifies this`after
      ensures raised <==> Lifecycle.NextSiblings(old(World()), c) == []
      ensures after == if raised then old(after) else old(after)[c := Lifecycle.NextSiblings(old(World()), c)[1..]]
    {
      var siblings := Lifecycle.NextSiblings(World(), c);
      raised := siblings == [];
      if !raised {
        after := after[c := siblings[1..]];
      }
    }
  }

  class ElementSticky {
    const dom: Dom
    var config: Option<Lifecycle.Config>   // target, container, offset, action (lines 29-32)
    var virtualWrap: VirtualScroll?
    var raised: bool                       // the constructor's distory raised a TypeError

    /** The instance as module Lifecycle sees it. */
    function Inst(): Lifecycle.Inst
      reads this
      requires config.Some?
    {
      Lifecycle.Inst(config.value, if virtualWrap == null then None else Some(virtualWrap.id))
    }

    predicate Listening()
      reads this
    {
      config.Some? && (config.value.action == Lifecycle.HScrollSticky ==> virtualWrap != null)
    }

    /** The constructor (src/index.js:13-37): the checks, then the fields, then
        distory, init and listen. A rejected configuration logs its diagnostic
        and sets no field; a TypeError from distory stops the construction. */
    constructor (dom: Dom, o: Lifecycle.Options, s: Snapshot, containerScrollLeft: real)
      modifies dom
      ensures this.dom == dom
      ensures var r := Lifecycle.Construct(old(dom.World()), o, s);
              dom.World() == r.world && raised == r.Threw?
              && (r.Rejected? ==> config == None && virtualWrap == null)
              && (r.Threw? ==> config == Some(Lifecycle.Validate(o).value) && virtualWrap == null)
              && (r.Activated? ==> Listening() && Inst() == r.inst)
      ensures Listening() && config.value.action == Lifecycle.HScrollSticky ==>
                fresh(virtualWrap) && virtualWrap.Styled(s, config.value.offset)
                && virtualWrap.containerScrollLeft == containerScrollLeft
    {
      this.dom := dom;
      config := None;
      virtualWrap := null;
      raised := false;
      new;
      var checked := Lifecycle.Validate(o);
      if checked.Failure? {
        dom.console := dom.console + [checked.error];
      } else {
        config := Some(checked.value);
        raised := Distory();
        if !raised {
          Init(s, containerScrollLeft);
          Listen();
        }
      }
    }

    /** createVirtualScroll (src/index.js:39-49): the container's horizontal
        overflow is hidden and a fresh wrapper becomes its next sibling. */
    method CreateVirtualScroll(containerScrollLeft: real)
      requires config.Some?
      modifies dom`overflowHidden, dom`after, dom`nextId, this`virtualWrap
      ensures fresh(virtualWrap) && virtualWrap.id == old(dom.nextId) && dom.nextId == old(dom.nextId) + 1
      ensures virtualWrap.containerScrollLeft == containerScrollLeft
      ensures dom.overflowHidden == old(dom.overflowHidden) + {config.value.container}
      ensures dom.after == old(dom.after)[config.value.container :=
                [Lifecycle.WrapperNode(old(dom.nextId))] + Lifecycle.NextSiblings(old(dom.World()), config.value.container)]
    {
      var c := config.value.container;
      dom.overflowHidden := dom.overflowHidden + {c};
      var id := dom.NewId();
      virtualWrap := new VirtualScroll(id, containerScrollLeft);
      dom.InsertAfter(c, Lifecycle.WrapperNode(id));
    }

    /** listen (src/index.js:51-69). */
    method Listen()
      requires Listening()
      modifies dom`slot, dom`listeners, dom`nextId
      ensures dom.World() == Lifecycle.Listen(old(dom.World()), Inst())
    {
      var h := dom.NewId();
      dom.slot := Some(h);
      var action := config.value.action;
      if action == Lifecycle.TopSticky || action == Lifecycle.BottomSticky {
        dom.AddEventListener(Lifecycle.Listener(Lifecycle.Window, Lifecycle.Scroll, Lifecycle.Handler(h, Lifecycle.SetStyle)));
        dom.AddEventListener(Lifecycle.Listener(Lifecycle.Window, Lifecycle.Resize, Lifecycle.Handler(h, Lifecycle.SetStyle)));
      }
      if action == Lifecycle.HScrollSticky {
        dom.AddEventListener(Lifecycle.Listener(Lifecycle.Wrapper(virtualWrap.id), Lifecycle.Scroll, Lifecycle.Handler(h, Lifecycle.ScrollVirtual)));
        dom.AddEventListener(Lifecycle.Listener(Lifecycle.Window, Lifecycle.Scroll, Lifecycle.Handler(h, Lifecycle.SetVirtualPosition)));
        dom.AddEventListener(Lifecycle.Listener(Lifecycle.Window, Lifecycle.Resize, Lifecycle.Handler(h, Lifecycle.SetVirtualStyle)));
      }
    }

    /** init (src/index.js:71-79). */
    method Init(s: Snapshot, containerScrollLeft: real)
      requires config.Some?
      modifies dom, this`virtualWrap, virtualWrap
      ensures var r := Lifecycle.Init(old(dom.World()), config.value, s);
              dom.World() == r.0 && Listening() && Inst().config == r.1.config
      ensures config.value.action == Lifecycle.HScrollSticky ==>
                fresh(virtualWrap) && Inst() == Lifecycle.Init(old(dom.World()), config.value, s).1
                && virtualWrap.Styled(s, config.value.offset)
                && virtualWrap.containerScrollLeft == containerScrollLeft
      ensures config.value.action != Lifecycle.HScrollSticky ==> virtualWrap == old(virtualWrap)
    {
      var action := config.value.action;
      if action == Lifecycle.TopSticky || action == Lifecycle.BottomSticky {
        SetStyle(s);
      }
      if action == Lifecycle.HScrollSticky {
        CreateVirtualScroll(containerScrollLeft);
        SetStyle(s);
      }
    }

    /** setStyle (src/index.js:81-127), run by init and by the scroll and
        resize handlers. */
    method SetStyle(s: Snapshot)
      requires Listening()
      modifies dom`transforms, virtualWrap
      ensures dom.World() == Lifecycle.StyleTarget(old(dom.World()), config.value, s)
      ensures config.value.action == Lifecycle.HScrollSticky ==>
                virtualWrap.Styled(s, config.value.offset)
                && virtualWrap.Offsets() == PullFromContainer(old(virtualWrap.Offsets()))
    {
      var cfg := config.value;
      if cfg.action == Lifecycle.TopSticky {
        var y := TopStickyY(s.cTop, s.cHeight, s.tHeight, cfg.offset);
        dom.transforms := dom.transforms[cfg.target := y];
      }
      if cfg.action == Lifecycle.BottomSticky {
        var y := BottomStickyY(s.cTop, s.cBottom, s.cHeight, s.tHeight, s.clientHeight, cfg.offset);
        dom.transforms := dom.transforms[cfg.target := y];
      }
      if cfg.action == Lifecycle.HScrollSticky {
        virtualWrap.SetStyle(s, cfg.offset);
      }
    }

    /** The window scroll handler of hScrollSticky (src/index.js:54, 129-138). */
    method SetVirtualPosition(s: Snapshot)
      requires Listening() && virtualWrap != null
      modifies virtualWrap`wrapPosition, virtualWrap`wrapBottom
      ensures virtualWrap.Placed(s, config.value.offset)
    {
      virtualWrap.SetVirtualPosition(s, config.value.offset);
    }

    /** The proxy's scroll handler (src/index.js:53). */
    method ScrollVirtual()
      requires Listening() && virtualWrap != null
      modifies virtualWrap`containerScrollLeft
      ensures virtualWrap.Offsets() == PushToContainer(old(virtualWrap.Offsets()))
    {
      virtualWrap.ScrollVirtual();
    }

    /** distory (src/index.js:140-163), with this instance's action and wrapper
        and the handler set in the slot, whichever instance installed it. */
    method Distory() returns (raised: bool)
      requires config.Some?
      modifies dom`listeners, dom`after, dom`slot
      ensures var r := Lifecycle.Distory(old(dom.World()), Inst());
              dom.World() == r.world && raised == r.Raised?
    {
      raised := false;
      if dom.slot.None? {
        return;
      }
      var h := dom.slot.value;
      var action := config.value.action;
      if action == Lifecycle.TopSticky || action == Lifecycle.BottomSticky {
        dom.RemoveEventListener(Lifecycle.Listener(Lifecycle.Window, Lifecycle.Scroll, Lifecycle.Handler(h, Lifecycle.SetStyle)));
        dom.RemoveEventListener(Lifecycle.Listener(Lifecycle.Window, Lifecycle.Resize, Lifecycle.Handler(h, Lifecycle.SetStyle)));
      }
      if action == Lifecycle.HScrollSticky {
        var c := config.value.container;
        if virtualWrap != null {
          dom.RemoveEventListener(Lifecycle.Listener(Lifecycle.Wrapper(virtualWrap.id), Lifecycle.Scroll, Lifecycle.Handler(h, Lifecycle.ScrollVirtual)));
        }
        dom.RemoveEventListener(Lifecycle.Listener(Lifecycle.Window, Lifecycle.Scroll, Lifecycle.Handler(h, Lifecycle.SetVirtualPosition)));
        dom.RemoveEventListener(Lifecycle.Listener(Lifecycle.Window, Lifecycle.Scroll, Lifecycle.Handler(h, Lifecycle.SetVirtualStyle)));
        // the container is an attached element, so the guard of line 156
        // holds; line 158 tests !c inside it and never runs
        raised := dom.RemoveNextSibling(c);
        if raised {
          return;
        }
      }
      dom.slot := None;
    }
  }
}
