/**
 * The lifecycle of ElementSticky as a state machine over the page: constructor
 * validation, the single global slot `window.elementSticky`, the registered
 * event listeners, the DOM nodes that follow each container, and the inline
 * styles the library writes. The class in module Sticky performs these steps
 * one statement at a time; the functions here say what each step does.
 */
module Lifecycle {
  import opened Wrappers
  import opened Geometry

  /** Identity of a DOM element supplied by the caller. */
  type Elem = nat

  datatype Action = TopSticky | BottomSticky | HScrollSticky

  /** An element argument as the constructor sees it: falsy (undefined, null,
      ...), a truthy value that is not an element, or an element. */
  datatype ElementArg = Falsy | NotElement | Element(e: Elem)

  /** The offset argument: absent (the default 0 applies), a number, or
      something else (null included, since only `undefined` takes the default). */
  datatype OffsetArg = Undefined | Number(v: real) | NotNumber

  /** The options object of the constructor. A falsy action is None or the
      empty string; a truthy action that is not a string stands for any string
      outside the three names. */
  datatype Options = Options(target: ElementArg, container: ElementArg, offset: OffsetArg, action: Option<string>)

  /** The diagnostics of src/index.js:14-27, in the order they are checked. */
  datatype ConfigError =
    | NoTarget | NoContainer | TargetNotElement | ContainerNotElement
    | NoAction | UnsupportedAction | OffsetNotNumber

  datatype Config = Config(target: Elem, container: Elem, offset: real, action: Action)

  function ParseAction(name: string): Option<Action> {
    if name == "topSticky" then Some(TopSticky)
    else if name == "bottomSticky" then Some(BottomSticky)
    else if name == "hScrollSticky" then Some(HScrollSticky)
    else None
  }

  /** The position of each check in the constructor. */
  function Rank(e: ConfigError): nat {
    match e
    case NoTarget => 0
    case NoContainer => 1
    case TargetNotElement => 2
    case ContainerNotElement => 3
    case NoAction => 4
    case UnsupportedAction => 5
    case OffsetNotNumber => 6
  }

  /** Whether the check that reports e rejects the options, judged on its own. */
  predicate Fails(o: Options, e: ConfigError) {
    match e
    case NoTarget => o.target.Falsy?
    case NoContainer => o.container.Falsy?
    case TargetNotElement => !o.target.Element?
    case ContainerNotElement => !o.container.Element?
    case NoAction => o.action == None || o.action == Some("")
    case UnsupportedAction => o.action.None? || ParseAction(o.action.value).None?
    case OffsetNotNumber => o.offset.NotNumber?
  }

  /** The constructor's checks (src/index.js:13-32): the options are accepted
      exactly when no check fails; otherwise the error reported is that of the
      first failing check; an absent offset becomes 0. */
  function Validate(o: Options): (r: Result<Config, ConfigError>)
    ensures r.Success? ==> forall e :: !Fails(o, e)
    ensures r.Failure? ==> Fails(o, r.error) && forall e :: Fails(o, e) ==> Rank(r.error) <= Rank(e)
    ensures r.Success? ==> o.target == Element(r.value.target) && o.container == Element(r.value.container)
    ensures r.Success? ==> o.action.Some? && ParseAction(o.action.value) == Some(r.value.action)
    ensures r.Success? && o.offset == Undefined ==> r.value.offset == 0.0
    ensures r.Success? && o.offset.Number? ==> r.value.offset == o.offset.v
  {
    if o.target.Falsy? then Failure(NoTarget)
    else if o.container.Falsy? then Failure(NoContainer)
    else if !o.target.Element? then Failure(TargetNotElement)
    else if !o.container.Element? then Failure(ContainerNotElement)
    else if o.action == None || o.action == Some("") then Failure(NoAction)
    else if ParseAction(o.action.value).None? then Failure(UnsupportedAction)
    else if o.offset.NotNumber? then Failure(OffsetNotNumber)
    else
      var offset := if o.offset.Number? then o.offset.v else 0.0;
      Success(Config(o.target.e, o.container.e, offset, ParseAction(o.action.value).value))
  }

  /** Listener bookkeeping. Every call of listen installs a fresh object of
      handler closures in the slot; `owner` identifies that object, and a
      removeEventListener only matches a closure of the same object. */
  datatype EventName = Scroll | Resize
  datatype HandlerName = ScrollVirtual | SetVirtualPosition | SetStyle | SetVirtualStyle
  datatype Handler = Handler(owner: nat, name: HandlerName)
  datatype EventTarget = Window | Wrapper(id: nat)
  datatype Listener = Listener(on: EventTarget, event: EventName, handler: Handler)

  /** A DOM node that may follow a container: a proxy wrapper or another element. */
  datatype Node = WrapperNode(id: nat) | Other(e: Elem)

  /** The page as far as the library touches it. `after[c]` lists the siblings
      that follow element c (absent: none); `transforms[t]` is the vertical
      translate3d of t; `nextId` numbers the next object the library creates. */
  datatype World = World(
    slot: Option<nat>,
    listeners: set<Listener>,
    after: map<Elem, seq<Node>>,
    overflowHidden: set<Elem>,
    transforms: map<Elem, real>,
    console: seq<ConfigError>,
    nextId: nat)

  /** Every object the page refers to was numbered before nextId. */
  predicate WellFormed(w: World) {
    (w.slot.Some? ==> w.slot.value < w.nextId)
    && (forall l :: l in w.listeners ==> l.handler.owner < w.nextId)
  }

  /** An activated instance: its configuration and, in hScrollSticky mode once
      init has run, the number of its proxy wrapper. */
  datatype Inst = Inst(config: Config, wrap: Option<nat>)

  predicate Listening(inst: Inst) {
    inst.config.action == HScrollSticky ==> inst.wrap.Some?
  }

  function NextSiblings(w: World, c: Elem): seq<Node> {
    if c in w.after then w.after[c] else []
  }

  /** The listeners listen registers with handler object h (src/index.js:59-68). */
  function Registered(h: nat, inst: Inst): (r: set<Listener>)
    requires Listening(inst)
    ensures forall l :: l in r ==> l.handler.owner == h
    // both window events are listened to in every mode
    ensures exists l :: l in r && l.on == Window && l.event == Scroll
    ensures exists l :: l in r && l.on == Window && l.event == Resize
    // only hScrollSticky listens to its wrapper, and only to its scrolling
    ensures forall l :: l in r && l.on != Window ==>
              inst.config.action == HScrollSticky && l.on == Wrapper(inst.wrap.value) && l.event == Scroll
  {
    if inst.config.action == HScrollSticky then
      {Listener(Wrapper(inst.wrap.value), Scroll, Handler(h, ScrollVirtual)),
       Listener(Window, Scroll, Handler(h, SetVirtualPosition)),
       Listener(Window, Resize, Handler(h, SetVirtualStyle))}
    else
      {Listener(Window, Scroll, Handler(h, SetStyle)),
       Listener(Window, Resize, Handler(h, SetStyle))}
  }

  /** The listeners distory asks to remove with handler object h
      (src/index.js:143-154): in hScrollSticky mode the wrapper's only when the
      instance has one, and the window's `scroll` (not `resize`) listener
      for setVirtualStyle. */
  function Unregistered(h: nat, inst: Inst): (r: set<Listener>)
    ensures forall l :: l in r ==> l.handler.owner == h
    // for topSticky and bottomSticky it names exactly what listen registered
    ensures inst.config.action != HScrollSticky ==> r == Registered(h, inst)
    // for hScrollSticky it names no resize listener at all
    ensures inst.config.action == HScrollSticky ==> forall l :: l in r ==> l.event == Scroll
  {
    if inst.config.action == HScrollSticky then
      (if inst.wrap.Some? then {Listener(Wrapper(inst.wrap.value), Scroll, Handler(h, ScrollVirtual))} else {})
      + {Listener(Window, Scroll, Handler(h, SetVirtualPosition)),
         Listener(Window, Scroll, Handler(h, SetVirtualStyle))}
    else
      {Listener(Window, Scroll, Handler(h, SetStyle)),
       Listener(Window, Resize, Handler(h, SetStyle))}
  }

  /** listen (src/index.js:51-69): a fresh handler object takes the slot,
      whatever it held, and its listeners are added. */
  function Listen(w: World, inst: Inst): (w': World)
    requires Listening(inst)
    ensures w'.slot == Some(w.nextId) && w'.nextId == w.nextId + 1
    ensures w'.listeners == w.listeners + Registered(w.nextId, inst)
    ensures w'.after == w.after && w'.overflowHidden == w.overflowHidden
    ensures w'.transforms == w.transforms && w'.console == w.console
    ensures WellFormed(w) ==> WellFormed(w')
  {
    w.(slot := Some(w.nextId),
       listeners := w.listeners + Registered(w.nextId, inst),
       nextId := w.nextId + 1)
  }

  /** The result of a step that can raise: a TypeError escapes with the page
      as it was when it was raised. */
  datatype Outcome = Returned(world: World) | Raised(world: World)

  /** distory (src/index.js:140-163). With an empty slot nothing happens.
      Otherwise the listeners named by Unregistered are removed; in
      hScrollSticky mode the node after the container, whatever it is, is
      removed, and raises a TypeError when there is none; then the slot is
      emptied. The container is attached, so line 156's test holds, and line
      158 never runs because c is an element. */
  function Distory(w: World, inst: Inst): (r: Outcome)
    ensures w.slot.None? ==> r == Returned(w)
    ensures r.Returned? && w.slot.Some? ==> r.world.slot.None?
    ensures r.Raised? <==> w.slot.Some? && inst.config.action == HScrollSticky && NextSiblings(w, inst.config.container) == []
    // line 157: whatever node follows the container is removed
    ensures r.Returned? && w.slot.Some? && inst.config.action == HScrollSticky ==>
              r.world.after == w.after[inst.config.container := NextSiblings(w, inst.config.container)[1..]]
    ensures r.Raised? || w.slot.None? || inst.config.action != HScrollSticky ==> r.world.after == w.after
    ensures r.Raised? ==> r.world.slot == w.slot
    ensures r.world.listeners <= w.listeners
    ensures w.slot.Some? ==> r.world.listeners == w.listeners - Unregistered(w.slot.value, inst)
    ensures r.world.nextId == w.nextId && r.world.overflowHidden == w.overflowHidden
    ensures r.world.transforms == w.transforms && r.world.console == w.console
    ensures WellFormed(w) ==> WellFormed(r.world)
  {
    if w.slot.None? then Returned(w)
    else
      var w1 := w.(listeners := w.listeners - Unregistered(w.slot.value, inst));
      if inst.config.action == HScrollSticky then
        var c := inst.config.container;
        var siblings := NextSiblings(w1, c);
        if siblings == [] then Raised(w1)
        else Returned(w1.(after := w1.after[c := siblings[1..]], slot := None))
      else Returned(w1.(slot := None))
  }

  /** The translation setStyle writes on the target in topSticky and
      bottomSticky mode; hScrollSticky writes only the proxy's styles, which
      module VirtualScrollState describes. */
  function StyleTarget(w: World, cfg: Config, s: Snapshot): (w': World)
    ensures cfg.action == TopSticky ==>
              w'.transforms == w.transforms[cfg.target := TopStickyY(s.cTop, s.cHeight, s.tHeight, cfg.offset)]
    ensures cfg.action == BottomSticky ==>
              w'.transforms == w.transforms[cfg.target := BottomStickyY(s.cTop, s.cBottom, s.cHeight, s.tHeight, s.clientHeight, cfg.offset)]
    ensures cfg.action == HScrollSticky ==> w' == w
    ensures w'.slot == w.slot && w'.listeners == w.listeners && w'.after == w.after && w'.nextId == w.nextId
    ensures w'.overflowHidden == w.overflowHidden && w'.console == w.console
  {
    match cfg.action
    case TopSticky => w.(transforms := w.transforms[cfg.target := TopStickyY(s.cTop, s.cHeight, s.tHeight, cfg.offset)])
    case BottomSticky => w.(transforms := w.transforms[cfg.target := BottomStickyY(s.cTop, s.cBottom, s.cHeight, s.tHeight, s.clientHeight, cfg.offset)])
    case HScrollSticky => w
  }

  /** init (src/index.js:71-79) with createVirtualScroll (src/index.js:39-49):
      in hScrollSticky mode the container's horizontal overflow is hidden and a
      fresh wrapper becomes its next sibling; then setStyle runs. */
  function Init(w: World, cfg: Config, s: Snapshot): (r: (World, Inst))
    ensures Listening(r.1) && r.1.config == cfg
    ensures cfg.action == HScrollSticky ==>
              r.1.wrap == Some(w.nextId) && r.0.nextId == w.nextId + 1
              && cfg.container in r.0.overflowHidden
              && NextSiblings(r.0, cfg.container) == [WrapperNode(w.nextId)] + NextSiblings(w, cfg.container)
    ensures cfg.action == HScrollSticky ==>
              r.0.after == w.after[cfg.container := [WrapperNode(w.nextId)] + NextSiblings(w, cfg.container)]
              && r.0.overflowHidden == w.overflowHidden + {cfg.container}
              && r.0.transforms == w.transforms
    ensures cfg.action != HScrollSticky ==> r.0 == StyleTarget(w, cfg, s) && r.1.wrap == None
    ensures r.0.slot == w.slot && r.0.listeners == w.listeners && r.0.console == w.console
    ensures WellFormed(w) ==> WellFormed(r.0)
  {
    if cfg.action == HScrollSticky then
      var id := w.nextId;
      var w1 := w.(overflowHidden := w.overflowHidden + {cfg.container},
                   after := w.after[cfg.container := [WrapperNode(id)] + NextSiblings(w, cfg.container)],
                   nextId := id + 1);
      (StyleTarget(w1, cfg, s), Inst(cfg, Some(id)))
    else
      (StyleTarget(w, cfg, s), Inst(cfg, None))
  }

  /** What `new ElementSticky(options)` leads to. */
  datatype Construction =
    | Rejected(world: World, error: ConfigError)  // a diagnostic was logged
    | Threw(world: World)                         // distory raised; no instance
    | Activated(world: World, inst: Inst)

  /** The constructor (src/index.js:13-37): validation, then distory, init and
      listen in that order, all with the new instance's configuration and with
      no wrapper of its own yet. */
  function Construct(w: World, o: Options, s: Snapshot): (r: Construction)
    ensures Validate(o).Failure? <==> r.Rejected?
    ensures r.Rejected? ==> r.world == w.(console := w.console + [Validate(o).error]) && r.error == Validate(o).error
    ensures r.Activated? ==> r.inst.config == Validate(o).value && r.world.slot == Some(r.world.nextId - 1)
    ensures r.Threw? <==> Validate(o).Success? && Validate(o).value.action == HScrollSticky
                          && w.slot.Some? && NextSiblings(w, Validate(o).value.container) == []
    // a TypeError from distory stops before init and listen: the slot, the
    // nodes and the numbering are untouched, and listeners were only removed
    ensures r.Threw? ==> r.world.slot == w.slot && r.world.after == w.after
                         && r.world.listeners <= w.listeners && r.world.nextId == w.nextId
    // an activation ends with listen: the slot's handler set is registered
    ensures r.Activated? ==> Listening(r.inst) && Registered(r.world.nextId - 1, r.inst) <= r.world.listeners
    ensures r.world.console == w.console || r.Rejected?
    ensures WellFormed(w) ==> WellFormed(r.world)
  {
    match Validate(o)
    case Failure(e) => Rejected(w.(console := w.console + [e]), e)
    case Success(cfg) =>
      match Distory(w, Inst(cfg, None))
      case Raised(w1) => Threw(w1)
      case Returned(w1) =>
        var (w2, inst) := Init(w1, cfg, s);
        Activated(Listen(w2, inst), inst)
  }

  /** distory undoes listen for topSticky and bottomSticky: the slot is empty
      again and exactly the two listeners listen added are gone. */
  lemma ListenThenDistory(w: World, inst: Inst)
    requires WellFormed(w) && inst.config.action != HScrollSticky
    ensures Distory(Listen(w, inst), inst) == Returned(w.(slot := None, nextId := w.nextId + 1))
  {
  }

  /** In hScrollSticky mode distory does not undo listen: the window's resize
      listener survives, and so does the wrapper's scroll listener unless the
      instance passed to distory has its wrapper. */
  lemma HScrollListenThenDistory(w: World, inst: Inst)
    requires WellFormed(w) && inst.config.action == HScrollSticky && inst.wrap.Some?
    ensures var r := Distory(Listen(w, inst), inst);
            Listener(Window, Resize, Handler(w.nextId, SetVirtualStyle)) in r.world.listeners
            && Listener(Window, Scroll, Handler(w.nextId, SetVirtualPosition)) !in r.world.listeners
            && Listener(Wrapper(inst.wrap.value), Scroll, Handler(w.nextId, ScrollVirtual)) !in r.world.listeners
    ensures var r := Distory(Listen(w, inst), inst.(wrap := None));
            Listener(Wrapper(inst.wrap.value), Scroll, Handler(w.nextId, ScrollVirtual)) in r.world.listeners
  {
  }

  /** One construction per element of steps, in order; a construction that
      throws leaves the page as the exception found it. */
  function Run(w: World, steps: seq<(Options, Snapshot)>): World
    decreases |steps|
  {
    if steps == [] then w
    else Run(Construct(w, steps[0].0, steps[0].1).world, steps[1..])
  }

  /** The listeners of topSticky and bottomSticky handlers. */
  function SetStyleListeners(w: World): set<Listener> {
    set l | l in w.listeners && l.handler.name == SetStyle
  }

  /** The two window listeners of the handler object in the slot, if any. */
  function SlotPair(slot: Option<nat>): set<Listener> {
    if slot.None? then {}
    else {Listener(Window, Scroll, Handler(slot.value, SetStyle)),
          Listener(Window, Resize, Handler(slot.value, SetStyle))}
  }

  /** No leftover topSticky/bottomSticky listeners: only the slot's own. */
  predicate NoStaleSetStyle(w: World) {
    WellFormed(w) && SetStyleListeners(w) == SlotPair(w.slot)
  }

  predicate TopOrBottom(o: Options) {
    Validate(o).Failure? || Validate(o).value.action != HScrollSticky
  }

  /** One topSticky or bottomSticky construction, valid or not, keeps NoStaleSetStyle. */
  lemma ConstructKeepsNoStaleSetStyle(w: World, o: Options, s: Snapshot)
    requires NoStaleSetStyle(w) && TopOrBottom(o)
    ensures NoStaleSetStyle(Construct(w, o, s).world)
  {
  }

  /** Any sequence of topSticky and bottomSticky constructions (valid or not)
      leaves exactly the last active instance's two listeners: no setStyle
      listener accumulates. */
  lemma {:induction false} TopBottomRunsDoNotAccumulate(w: World, steps: seq<(Options, Snapshot)>)
    requires NoStaleSetStyle(w)
    requires forall i :: 0 <= i < |steps| ==> TopOrBottom(steps[i].0)
    ensures NoStaleSetStyle(Run(w, steps))
    decreases |steps|
  {
    if steps != [] {
      ConstructKeepsNoStaleSetStyle(w, steps[0].0, steps[0].1);
      TopBottomRunsDoNotAccumulate(Construct(w, steps[0].0, steps[0].1).world, steps[1..]);
    }
  }

  /** The listeners nothing in the library ever removes: distory asks to
      remove setVirtualStyle from `scroll`, but listen put it on `resize`. */
  predicate Permanent(l: Listener) {
    l.on == Window && l.event == Resize && l.handler.name == SetVirtualStyle
  }

  /** Whatever is constructed afterwards, an hScrollSticky resize listener
      stays registered. */
  lemma {:induction false} ResizeListenersLeak(w: World, steps: seq<(Options, Snapshot)>, l: Listener)
    requires l in w.listeners && Permanent(l)
    ensures l in Run(w, steps).listeners
    decreases |steps|
  {
    if steps != [] {
      var w1 := Construct(w, steps[0].0, steps[0].1).world;
      assert l in w1.listeners by {
        if Validate(steps[0].0).Success? {
          var cfg := Validate(steps[0].0).value;
          if w.slot.Some? {
            assert l !in Unregistered(w.slot.value, Inst(cfg, None));
          }
        }
      }
      ResizeListenersLeak(w1, steps[1..], l);
    }
  }

  /** Every successful hScrollSticky construction adds such a listener, new
      to the page: repeated activation accumulates them. */
  lemma HScrollActivationAddsPermanentListener(w: World, o: Options, s: Snapshot)
    requires WellFormed(w)
    requires Construct(w, o, s).Activated? && Validate(o).value.action == HScrollSticky
    ensures var w' := Construct(w, o, s).world;
            exists l :: l in w'.listeners && l !in w.listeners && Permanent(l)
  {
  }

  /** distory runs with the new instance's action, so switching from
      topSticky to hScrollSticky on one page keeps the topSticky listeners. */
  lemma SwitchingActionLeaks(w: World, top: Options, h: Options, s: Snapshot)
    requires WellFormed(w)
    requires Validate(top).Success? && Validate(top).value.action == TopSticky
    requires Validate(h).Success? && Validate(h).value.action == HScrollSticky
    ensures var w1 := Construct(w, top, s).world;
            var w2 := Construct(w1, h, s).world;
            Listener(Window, Scroll, Handler(w1.slot.value, SetStyle)) in w2.listeners
            && Listener(Window, Resize, Handler(w1.slot.value, SetStyle)) in w2.listeners
  {
  }

  /** The converse order survives by the same quirk: a topSticky construction
      after an hScrollSticky one asks to remove setStyle listeners the
      hScrollSticky handlers never registered, so both behaviours stay active
      and the proxy wrapper stays in the page. */
  lemma HScrollThenTopKeepsBoth(w: World, h: Options, top: Options, s: Snapshot)
    requires WellFormed(w)
    requires Construct(w, h, s).Activated? && Validate(h).value.action == HScrollSticky
    requires Validate(top).Success? && Validate(top).value.action == TopSticky
    ensures var r1 := Construct(w, h, s);
            var r2 := Construct(r1.world, top, s);
            r2.Activated?
            && Registered(r1.world.nextId - 1, r1.inst) <= r2.world.listeners
            && r2.world.after == r1.world.after
  {
  }

  /** distory removes whatever node follows the container, not necessarily a
      wrapper of this library: after a topSticky construction an
      hScrollSticky construction deletes the element e that followed its
      container and puts its own wrapper there. */
  lemma SwitchingToHScrollDeletesNextSibling(w: World, top: Options, h: Options, s: Snapshot, e: Elem, rest: seq<Node>)
    requires WellFormed(w)
    requires Validate(top).Success? && Validate(top).value.action == TopSticky
    requires Validate(h).Success? && Validate(h).value.action == HScrollSticky
    requires NextSiblings(w, Validate(h).value.container) == [Other(e)] + rest
    ensures var w1 := Construct(w, top, s).world;
            var r2 := Construct(w1, h, s);
            r2.Activated?
            && NextSiblings(r2.world, Validate(h).value.container) == [WrapperNode(w1.nextId)] + rest
  {
  }
}
