/**
 * `Live2DChatStage`: the stage controller that owns the rail's
 * visibility state, its listener registries, the face-guard observers and
 * the keyboard offset, from construction through `init` to `destroy`.
 *
 * Each method that changes the rail's state is proved against the
 * function of RailVisibility that describes it, so the lemmas proved
 * there hold of the class. The browser appears as fields that stand for
 * what it holds (`attached`: the listeners registered on DOM targets;
 * the liveness of the observer and frame handles) and as parameters (`Platform`,
 * the layout, the clock).
 */
module Stage {
  import opened Wrappers
  import opened StageConfig
  import opened Listeners
  import RV = RailVisibility
  import FaceGuard
  import Keyboard

  /** The constructor's only failure: no root element. */
  datatype ConstructError = RootRequired

  /** A browser handle (an observer, a frame request) and whether what it stands for is still live. */
  datatype Handle = Handle(live: bool)

  /** A live handle: a connected observer, a frame callback that has yet to run. */
  predicate Live(h: Option<Handle>) {
    h.Some? && h.value.live
  }

  /** The mount root, seen through the geometry the face guard reads. */
  datatype RootNode = RootNode(layout: FaceGuard.Layout)

  /** What `init` probes the browser for. */
  datatype Platform = Platform(
    blurSupported: bool,            // CSS.supports of a backdrop blur
    resizeObserverAvailable: bool,  // typeof ResizeObserver !== 'undefined'
    viewport: Option<Keyboard.Viewport>, // window.visualViewport
    innerHeight: real               // window.innerHeight
  )

  /**
   * What an event of `eventType` on `target` does to the rail's state:
   * the handlers registered for it run, the interaction handler first.
   */
  function DispatchEffect(s: RV.RailState, cfg: Config, now: real, attached: set<Binding>,
                          target: Target, eventType: EventType): (r: RV.RailState)
    ensures (&& Binding(target, eventType, InteractionHandler) !in attached
             && Binding(target, eventType, IdleCountdownHandler) !in attached) ==> r == s
  {
    var afterInteraction :=
      if Binding(target, eventType, InteractionHandler) in attached then RV.HandleInteraction(s, cfg, now) else s;
    if Binding(target, eventType, IdleCountdownHandler) in attached
    then RV.StartIdleCountdown(afterInteraction, cfg, now)
    else afterInteraction
  }

  class ChatStage {
    const config: Config
    const locale: string

    /** The keys of `this.elements` that exist. */
    var elements: set<Element>
    /** The root holds the subtree `_buildDOM` appended. */
    var subtreeBuilt: bool
    /** What `_applyConfig` wrote on the root. */
    var rootStyle: Option<RootStyle>

    /** `this.state`: the visibility and the two timer handles. */
    var state: RV.RailState
    /** The clock timeouts are measured on, in milliseconds. */
    var now: real
    /** `root.dataset.railVisibility`. */
    var railAttr: Option<RV.Visibility>

    /** What the DOM currently reports for the face guard's reads. */
    var layout: FaceGuard.Layout
    /** `rail.style.top`. */
    var railTop: Option<real>

    /** `_globalListeners`, and the bindings the DOM holds on their targets. */
    var globalListeners: seq<Listener>
    var attached: set<Binding>
    /** `_viewportListeners`, and the bindings `window.visualViewport` holds. */
    var viewportListeners: seq<ViewportListener>
    var viewportAttached: set<EventType>

    /** `_railResizeObserver`; live while the observer is connected. */
    var railResizeObserver: Option<Handle>
    /** `_faceGuardRaf`; live while the frame callback has yet to run. */
    var faceGuardRaf: Option<Handle>

    /** `--live2d-keyboard-offset` and `data-keyboard` ("raised" or ""). */
    var keyboardOffset: Option<real>
    var keyboardRaised: Option<bool>

    /**
     * The object invariant: the state machine's invariant; the visibility
     * attribute, once written, names the state; every binding the DOM holds
     * for this stage is in a registry, so teardown can reach it.
     */
    ghost predicate Valid()
      reads this`state, this`now, this`railAttr, this`globalListeners, this`attached,
            this`viewportListeners, this`viewportAttached
    {
      && RV.Inv(state, config, now)
      && (railAttr.Some? ==> railAttr.value == state.visibility)
      && Registered()
      && viewportAttached == ViewportTypes(viewportListeners)
    }

    /** The DOM holds exactly the bindings `_globalListeners` lists. */
    ghost predicate Registered()
      reads this`globalListeners, this`attached
    {
      attached == Bindings(globalListeners)
    }

    /** What `_applyFaceGuard` writes now, or `None` when rail or canvas host are missing. */
    function GuardedTop(): (r: Option<real>)
      reads this`elements, this`layout
      ensures r.Some? <==> Rail in elements && CanvasHost in elements
      ensures r.Some? ==> r.value >= 0.0 && r.value >= FaceGuard.FallbackTop(layout)
    {
      if Rail in elements && CanvasHost in elements
      then Some(FaceGuard.RailTop(layout, FaceGuardFraction(config)))
      else None
    }

    /** The constructor, given a root: defaults merged, state hidden, nothing registered. */
    constructor (options: UserOptions, locale: string, layout: FaceGuard.Layout, now: real)
      ensures Valid()
      ensures config == Merge(options) && this.locale == locale
      ensures this.layout == layout && this.now == now
      ensures state == RV.Initial && railAttr == None && railTop == None
      ensures elements == {} && !subtreeBuilt && rootStyle == None
      ensures globalListeners == [] && attached == {} && viewportListeners == [] && viewportAttached == {}
      ensures railResizeObserver == None && faceGuardRaf == None
      ensures keyboardOffset == None && keyboardRaised == None
    {
      config := Merge(options);
      this.locale := locale;
      elements := {};
      subtreeBuilt := false;
      rootStyle := None;
      globalListeners := [];
      attached := {};
      viewportListeners := [];
      viewportAttached := {};
      state := RV.Initial;
      this.now := now;
      railAttr := None;
      this.layout := layout;
      railTop := None;
      railResizeObserver := None;
      faceGuardRaf := None;
      keyboardOffset := None;
      keyboardRaised := None;
    }

    // ---- The visibility system ----

    /** `_clearVisibilityTimers`: cancel and null both handles. */
    method ClearVisibilityTimers()
      modifies this`state
      ensures state == RV.ClearTimers(old(state))
    {
      if state.peekTimer.Some? {
        state := state.(peekTimer := None);
      }
      if state.hideTimer.Some? {
        state := state.(hideTimer := None);
      }
    }

    /** `_scheduleVisibilityTimers`. */
    method ScheduleVisibilityTimers()
      modifies this`state
      ensures state == RV.ScheduleTimers(old(state), config, now)
    {
      if !AutoMode(config) {
        return;
      }
      ClearVisibilityTimers();
      var idleMs := IdleMs(config);
      state := state.(peekTimer := Some(RV.Timer(now + idleMs, true)));
      state := state.(hideTimer := Some(RV.Timer(now + idleMs * 2.0, true)));
    }

    /** `_applyFaceGuard` (and the public `applyFaceGuard`, which only calls it). */
    method ApplyFaceGuard()
      modifies this`railTop
      ensures railTop == if GuardedTop().Some? then GuardedTop() else old(railTop)
    {
      if Rail !in elements || CanvasHost !in elements {
        return;
      }
      railTop := Some(FaceGuard.RailTop(layout, FaceGuardFraction(config)));
    }

    /**
     * `_setRailVisibility(mode, opts)`: the state and the attribute follow
     * the machine, and a committed change that is not immediate
     * re-applies the face guard.
     */
    method SetRailVisibility(mode: string, opts: RV.SetOptions)
      modifies this`state, this`railAttr, this`railTop
      ensures state == RV.SetVisibility(old(state), mode, opts, config, now)
      ensures railAttr == if RV.Commits(old(state), mode, opts) then Some(RV.TargetMode(mode)) else old(railAttr)
      ensures railTop == if RV.Commits(old(state), mode, opts) && !opts.immediate && GuardedTop().Some?
                         then GuardedTop() else old(railTop)
    {
      var target := RV.TargetMode(mode);
      if state.visibility == target && !opts.force {
        return;
      }
      state := state.(visibility := target);
      railAttr := Some(target);
      if target == RV.Hidden {
        ClearVisibilityTimers();
      } else if opts.resetTimers {
        ScheduleVisibilityTimers();
      }
      if !opts.immediate {
        ApplyFaceGuard();
      }
    }

    /** `_handleInteraction`: show at once and re-arm the idle timers. */
    method HandleInteraction()
      requires Valid()
      modifies this`state, this`railAttr, this`railTop
      ensures Valid()
      ensures state == RV.HandleInteraction(old(state), config, now)
      ensures railAttr == Some(RV.Show) && railTop == old(railTop)
    {
      RV.HandleInteractionInv(state, config, now);
      SetRailVisibility("show", RV.ForcedImmediate);
      ScheduleVisibilityTimers();
    }

    /** `_startIdleCountdown`. */
    method StartIdleCountdown()
      requires Valid()
      modifies this`state
      ensures Valid()
      ensures state == RV.StartIdleCountdown(old(state), config, now)
    {
      RV.StartIdleCountdownInv(state, config, now);
      if !AutoMode(config) {
        return;
      }
      if state.visibility == RV.Hidden {
        return;
      }
      ScheduleVisibilityTimers();
    }

    /** `flashRail(mode)`: hidden and peek are forced and re-apply the face guard; anything else is an interaction. */
    method FlashRail(mode: string)
      requires Valid()
      modifies this`state, this`railAttr, this`railTop
      ensures Valid()
      ensures state == RV.FlashRail(old(state), mode, config, now)
      ensures railAttr == Some(state.visibility)
      ensures railTop == if (mode == "hidden" || mode == "peek") && GuardedTop().Some? then GuardedTop() else old(railTop)
    {
      RV.FlashRailInv(state, mode, config, now);
      if mode == "hidden" {
        SetRailVisibility("hidden", RV.Forced);
        return;
      }
      if mode == "peek" {
        SetRailVisibility("peek", RV.Forced);
        return;
      }
      HandleInteraction();
    }

    /** The peek timeout's callback. */
    method PeekTimerFires()
      modifies this`state, this`railAttr, this`railTop
      ensures state == RV.FirePeek(old(state), config, now)
      ensures railAttr == if state.visibility != old(state.visibility) then Some(state.visibility) else old(railAttr)
      ensures railTop == old(railTop)
    {
      if !RV.Pending(state.peekTimer) {
        return;
      }
      state := state.(peekTimer := RV.Expire(state.peekTimer));
      if state.visibility == RV.Show {
        SetRailVisibility("peek", RV.ForcedImmediate);
      }
    }

    /** The hide timeout's callback. */
    method HideTimerFires()
      modifies this`state, this`railAttr, this`railTop
      ensures state == RV.FireHide(old(state), config, now)
      ensures railAttr == if state.visibility != old(state.visibility) then Some(state.visibility) else old(railAttr)
      ensures railTop == old(railTop)
    {
      if !RV.Pending(state.hideTimer) {
        return;
      }
      state := state.(hideTimer := RV.Expire(state.hideTimer));
      if state.visibility != RV.Hidden {
        SetRailVisibility("hidden", RV.ForcedImmediate);
      }
    }

    /** The clock reaches `t`: the timeouts due by then fire, peek first. */
    method AdvanceClock(t: real)
      requires Valid() && now <= t
      modifies this`now, this`state, this`railAttr, this`railTop
      ensures Valid()
      ensures now == t && state == RV.Advance(old(state), config, t)
      ensures railAttr == if state.visibility != old(state.visibility) then Some(state.visibility) else old(railAttr)
      ensures railTop == old(railTop)
    {
      RV.AdvanceInv(state, config, now, t);
      now := t;
      if RV.Due(state.peekTimer, t) {
        PeekTimerFires();
      }
      if RV.Due(state.hideTimer, t) {
        HideTimerFires();
      }
    }

    // ---- Listener registry ----

    /** `_addListener`: a missing target or listener is ignored; otherwise one entry is registered. */
    method AddListener(target: Option<Target>, eventType: EventType, listener: Option<Handler>, passive: bool)
      requires Registered()
      modifies this`globalListeners, this`attached
      ensures Registered()
      ensures target.None? || listener.None? ==>
                globalListeners == old(globalListeners) && attached == old(attached)
      ensures target.Some? && listener.Some? ==>
                && globalListeners == old(globalListeners) + [Listener(target.value, eventType, listener.value, passive)]
                && attached == old(attached) + {Binding(target.value, eventType, listener.value)}
    {
      if target.None? || listener.None? {
        return;
      }
      var entry := Listener(target.value, eventType, listener.value, passive);
      BindingsAppend(globalListeners, [entry]);
      BindingsSingleton(entry);
      attached := attached + {Binding(target.value, eventType, listener.value)};
      globalListeners := globalListeners + [entry];
    }

    /** The `forEach` of `_initializeVisibilitySystem`: three pointer listeners on each interactive target. */
    method RegisterInteractiveTargets(targets: seq<Element>)
      requires Registered()
      modifies this`globalListeners, this`attached
      ensures Registered()
      ensures globalListeners == old(globalListeners) + TargetListeners(targets)
    {
      for i := 0 to |targets|
        invariant Registered()
        invariant globalListeners == old(globalListeners) + TargetListeners(targets[..i])
      {
        ghost var before := globalListeners;
        var node := Some(Node(targets[i]));
        AddListener(node, PointerDown, Some(InteractionHandler), true);
        AddListener(node, PointerEnter, Some(InteractionHandler), true);
        AddListener(node, TouchStart, Some(InteractionHandler), true);
        var pl := PointerListeners(targets[i]);
        AppendTriple(before, pl[0], pl[1], pl[2]);
        assert targets[..i + 1] == targets[..i] + [targets[i]];
        TargetListenersSnoc(targets[..i], targets[i]);
        ConcatAssoc(old(globalListeners), TargetListeners(targets[..i]), pl);
      }
      assert targets[..|targets|] == targets;
    }

    /** The listeners of the message list, when it exists. */
    method RegisterScrollListeners()
      requires Registered()
      modifies this`globalListeners, this`attached
      ensures Registered()
      ensures globalListeners == old(globalListeners) + ScrollListeners(elements)
    {
      if MessagesScroll in elements {
        AddListener(Some(Node(MessagesScroll)), Wheel, Some(InteractionHandler), true);
        AddListener(Some(Node(MessagesScroll)), Scroll, Some(InteractionHandler), true);
      }
    }

    /** The listeners of the composer, when it exists. */
    method RegisterComposerListeners()
      requires Registered()
      modifies this`globalListeners, this`attached
      ensures Registered()
      ensures globalListeners == old(globalListeners) + ComposerListeners(elements)
    {
      if Composer in elements {
        AddListener(Some(Node(Composer)), FocusIn, Some(InteractionHandler), false);
        AddListener(Some(Node(Composer)), FocusOut, Some(IdleCountdownHandler), false);
        AddListener(Some(Node(Composer)), PointerLeave, Some(IdleCountdownHandler), true);
      }
    }

    /** The listeners of the rail, when it exists. */
    method RegisterRailListeners()
      requires Registered()
      modifies this`globalListeners, this`attached
      ensures Registered()
      ensures globalListeners == old(globalListeners) + RailListeners(elements)
    {
      if Rail in elements {
        AddListener(Some(Node(Rail)), FocusIn, Some(InteractionHandler), false);
        AddListener(Some(Node(Rail)), PointerLeave, Some(IdleCountdownHandler), true);
      }
    }

    /** The listeners of the textarea, when it exists. */
    method RegisterTextareaListeners()
      requires Registered()
      modifies this`globalListeners, this`attached
      ensures Registered()
      ensures globalListeners == old(globalListeners) + TextareaListeners(elements)
    {
      if Textarea in elements {
        AddListener(Some(Node(Textarea)), Focus, Some(InteractionHandler), false);
        AddListener(Some(Node(Textarea)), Blur, Some(IdleCountdownHandler), false);
      }
    }

    /** The listeners of the canvas host, when it exists. */
    method RegisterCanvasListeners()
      requires Registered()
      modifies this`globalListeners, this`attached
      ensures Registered()
      ensures globalListeners == old(globalListeners) + CanvasListeners(elements)
    {
      if CanvasHost in elements {
        AddListener(Some(Node(CanvasHost)), PointerDown, Some(InteractionHandler), true);
        AddListener(Some(Node(CanvasHost)), PointerEnter, Some(InteractionHandler), true);
        AddListener(Some(Node(CanvasHost)), PointerLeave, Some(IdleCountdownHandler), true);
      }
    }

    /** The root's own listener. */
    method RegisterRootListeners()
      requires Registered()
      modifies this`globalListeners, this`attached
      ensures Registered()
      ensures globalListeners == old(globalListeners) + RootListeners
    {
      AddListener(Some(Node(Root)), PointerLeave, Some(IdleCountdownHandler), true);
    }

    /** The auto-mode half of `_initializeVisibilitySystem`: every interaction and idle-countdown listener, in order. */
    method RegisterVisibilityListeners()
      requires Registered()
      modifies this`globalListeners, this`attached
      ensures Registered()
      ensures globalListeners == old(globalListeners) + VisibilityListeners(elements)
    {
      var targets := Present(InteractiveTargets, elements);
      RegisterInteractiveTargets(targets);
      ghost var acc := TargetListeners(targets);
      RegisterScrollListeners();
      ConcatAssoc(old(globalListeners), acc, ScrollListeners(elements));
      acc := acc + ScrollListeners(elements);
      RegisterComposerListeners();
      ConcatAssoc(old(globalListeners), acc, ComposerListeners(elements));
      acc := acc + ComposerListeners(elements);
      RegisterRailListeners();
      ConcatAssoc(old(globalListeners), acc, RailListeners(elements));
      acc := acc + RailListeners(elements);
      RegisterTextareaListeners();
      ConcatAssoc(old(globalListeners), acc, TextareaListeners(elements));
      acc := acc + TextareaListeners(elements);
      RegisterCanvasListeners();
      ConcatAssoc(old(globalListeners), acc, CanvasListeners(elements));
      acc := acc + CanvasListeners(elements);
      RegisterRootListeners();
      ConcatAssoc(old(globalListeners), acc, RootListeners);
      acc := acc + RootListeners;
      assert acc == VisibilityListeners(elements);
    }

    /**
     * `_initializeVisibilitySystem`: without a rail nothing happens;
     * otherwise the rail starts hidden, is shown for good outside auto
     * mode with no listener attached, and in auto mode gets its
     * interaction and idle-countdown listeners.
     */
    method InitializeVisibilitySystem()
      requires Valid()
      modifies this`state, this`railAttr, this`railTop,
               this`globalListeners, this`attached
      ensures Valid()
      ensures railTop == old(railTop)
      ensures Rail !in elements ==>
                && state == old(state) && railAttr == old(railAttr)
                && globalListeners == old(globalListeners)
      ensures Rail in elements ==>
                && state == RV.RailState(if AutoMode(config) then RV.Hidden else RV.Show, None, None)
                && railAttr == Some(state.visibility)
      ensures Rail in elements && !AutoMode(config) ==> globalListeners == old(globalListeners)
      ensures Rail in elements && AutoMode(config) ==>
                globalListeners == old(globalListeners) + VisibilityListeners(elements)
    {
      if Rail !in elements {
        return;
      }
      SetRailVisibility("hidden", RV.ForcedImmediate);
      assert state == RV.RailState(RV.Hidden, None, None);
      if !AutoMode(config) {
        SetRailVisibility("show", RV.ForcedImmediate);
        assert state == RV.RailState(RV.Show, None, None);
        return;
      }
      RegisterVisibilityListeners();
    }

    // ---- Face guard observers ----

    /** The window resize and orientation-change listeners of `_bindFaceGuardObservers`. */
    method AddFaceGuardListeners()
      requires Valid()
      modifies this`globalListeners, this`attached
      ensures Valid()
      ensures globalListeners == old(globalListeners) + FaceGuardListeners
    {
      AddListener(Some(Window), Resize, Some(FaceGuardHandler), false);
      AddListener(Some(Window), OrientationChange, Some(FaceGuardHandler), false);
    }

    /**
     * `_bindFaceGuardObservers`: the face guard is applied now and again on
     * the next frame, on every resize of the rail when `ResizeObserver`
     * exists and the rail does, and on each window resize and orientation
     * change.
     */
    method BindFaceGuardObservers(resizeObserverAvailable: bool)
      requires Valid()
      modifies this`railTop, this`faceGuardRaf, this`railResizeObserver, this`globalListeners, this`attached
      ensures Valid()
      ensures railTop == if GuardedTop().Some? then GuardedTop() else old(railTop)
      ensures faceGuardRaf == Some(Handle(true))
      ensures railResizeObserver ==
                if resizeObserverAvailable && Rail in elements then Some(Handle(true)) else old(railResizeObserver)
      ensures globalListeners == old(globalListeners) + FaceGuardListeners
    {
      ApplyFaceGuard();
      faceGuardRaf := Some(Handle(true));
      if resizeObserverAvailable && Rail in elements {
        railResizeObserver := Some(Handle(true));
      }
      AddFaceGuardListeners();
    }

    /** The frame callback runs once and applies the face guard; its handle stays set. */
    method AnimationFrame()
      modifies this`faceGuardRaf, this`railTop
      ensures faceGuardRaf == if old(faceGuardRaf).Some? then Some(Handle(false)) else None
      ensures railTop == if Live(old(faceGuardRaf)) && GuardedTop().Some? then GuardedTop() else old(railTop)
    {
      if !Live(faceGuardRaf) {
        return;
      }
      faceGuardRaf := Some(Handle(false));
      ApplyFaceGuard();
    }

    /** The rail is resized: a connected observer applies the face guard. */
    method RailResized()
      modifies this`railTop
      ensures railTop == if Live(railResizeObserver) && GuardedTop().Some? then GuardedTop() else old(railTop)
    {
      if Live(railResizeObserver) {
        ApplyFaceGuard();
      }
    }

    // ---- Events ----

    /**
     * An event of `eventType` reaches `target`: each handler the DOM holds
     * for that pair runs, so a target the stage never registered, or one
     * whose listeners were removed, changes nothing.
     */
    method Dispatch(target: Target, eventType: EventType)
      requires Valid()
      modifies this`state, this`railAttr, this`railTop
      ensures Valid()
      ensures state == DispatchEffect(old(state), config, now, attached, target, eventType)
      ensures railAttr == if Binding(target, eventType, InteractionHandler) in attached then Some(RV.Show) else old(railAttr)
      ensures railTop == if Binding(target, eventType, FaceGuardHandler) in attached && GuardedTop().Some?
                         then GuardedTop() else old(railTop)
    {
      if Binding(target, eventType, InteractionHandler) in attached {
        HandleInteraction();
      }
      if Binding(target, eventType, IdleCountdownHandler) in attached {
        StartIdleCountdown();
      }
      if Binding(target, eventType, FaceGuardHandler) in attached {
        ApplyFaceGuard();
      }
    }

    // ---- The keyboard offset ----

    /** `updateKeyboardOffset`: without a visual viewport nothing is written. */
    method UpdateKeyboardOffset(vv: Option<Keyboard.Viewport>, innerHeight: real)
      modifies this`keyboardOffset, this`keyboardRaised
      ensures vv.None? ==> keyboardOffset == old(keyboardOffset) && keyboardRaised == old(keyboardRaised)
      ensures vv.Some? ==>
                && keyboardOffset == Some(Keyboard.KeyboardOffset(innerHeight, vv.value))
                && keyboardRaised == Some(Keyboard.Raised(keyboardOffset.value))
    {
      if vv.None? {
        return;
      }
      var offset := Keyboard.KeyboardOffset(innerHeight, vv.value);
      keyboardOffset := Some(offset);
      keyboardRaised := Some(Keyboard.Raised(offset));
    }

    /**
     * `_attachViewportListeners`: with a visual viewport, its resize and
     * scroll events are bound to the keyboard-offset update, which also
     * runs once now.
     */
    method AttachViewportListeners(vv: Option<Keyboard.Viewport>, innerHeight: real)
      requires Valid()
      modifies this`viewportListeners, this`viewportAttached, this`keyboardOffset, this`keyboardRaised
      ensures Valid()
      ensures vv.None? ==>
                && viewportListeners == old(viewportListeners)
                && keyboardOffset == old(keyboardOffset) && keyboardRaised == old(keyboardRaised)
      ensures vv.Some? ==>
                && viewportListeners == old(viewportListeners) + KeyboardListeners
                && keyboardOffset == Some(Keyboard.KeyboardOffset(innerHeight, vv.value))
                && keyboardRaised == Some(Keyboard.Raised(keyboardOffset.value))
    {
      if vv.None? {
        return;
      }
      for i := 0 to |KeyboardListeners|
        invariant viewportListeners == old(viewportListeners) + KeyboardListeners[..i]
        invariant viewportAttached == ViewportTypes(viewportListeners)
        invariant keyboardOffset == old(keyboardOffset) && keyboardRaised == old(keyboardRaised)
      {
        var entry := KeyboardListeners[i];
        ViewportTypesAppend(viewportListeners, [entry]);
        ViewportTypesSingleton(entry);
        viewportAttached := viewportAttached + {entry.eventType};
        viewportListeners := viewportListeners + [entry];
        assert KeyboardListeners[..i + 1] == KeyboardListeners[..i] + [entry];
      }
      assert KeyboardListeners[..|KeyboardListeners|] == KeyboardListeners;
      UpdateKeyboardOffset(vv, innerHeight);
    }

    /**
     * An event of `eventType` on `window.visualViewport`: a bound
     * keyboard-offset update runs, reading the viewport again; without a
     * binding nothing changes.
     */
    method ViewportEvent(eventType: EventType, vv: Option<Keyboard.Viewport>, innerHeight: real)
      modifies this`keyboardOffset, this`keyboardRaised
      ensures eventType in viewportAttached && vv.Some? ==>
                && keyboardOffset == Some(Keyboard.KeyboardOffset(innerHeight, vv.value))
                && keyboardRaised == Some(Keyboard.Raised(keyboardOffset.value))
      ensures eventType !in viewportAttached || vv.None? ==>
                keyboardOffset == old(keyboardOffset) && keyboardRaised == old(keyboardRaised)
    {
      if eventType in viewportAttached {
        UpdateKeyboardOffset(vv, innerHeight);
      }
    }

    // ---- Life cycle ----

    /** The construction half of `_buildDOM`: every entry of `this.elements` is created. */
    method CreateElements()
      modifies this`elements, this`subtreeBuilt
      ensures elements == AllElements && subtreeBuilt
      ensures Rail in elements && CanvasHost in elements
    {
      elements := AllElements;
      assert ElementKeys[2] == CanvasHost && ElementKeys[4] == Rail;
      subtreeBuilt := true;
    }

    /** The wiring half of `_buildDOM`: the visibility system, then the face-guard observers. */
    method WireRail(resizeObserverAvailable: bool)
      requires Valid() && Rail in elements && CanvasHost in elements
      modifies this`state, this`railAttr, this`railTop,
               this`faceGuardRaf, this`railResizeObserver, this`globalListeners, this`attached
      ensures Valid()
      ensures state == RV.RailState(if AutoMode(config) then RV.Hidden else RV.Show, None, None)
      ensures railAttr == Some(state.visibility)
      ensures railTop == Some(FaceGuard.RailTop(layout, FaceGuardFraction(config)))
      ensures faceGuardRaf == Some(Handle(true))
      ensures railResizeObserver == if resizeObserverAvailable then Some(Handle(true)) else old(railResizeObserver)
      ensures globalListeners ==
                old(globalListeners) + (if AutoMode(config) then VisibilityListeners(elements) else [])
                + FaceGuardListeners
    {
      InitializeVisibilitySystem();
      BindFaceGuardObservers(resizeObserverAvailable);
    }

    /** `_buildDOM`: every element exists, then the rail is wired. */
    method BuildDom(resizeObserverAvailable: bool)
      requires Valid()
      modifies this`elements, this`subtreeBuilt, this`state, this`railAttr, this`railTop,
               this`faceGuardRaf, this`railResizeObserver, this`globalListeners, this`attached
      ensures Valid()
      ensures elements == AllElements && subtreeBuilt
      ensures state == RV.RailState(if AutoMode(config) then RV.Hidden else RV.Show, None, None)
      ensures railAttr == Some(state.visibility)
      ensures railTop == Some(FaceGuard.RailTop(layout, FaceGuardFraction(config)))
      ensures faceGuardRaf == Some(Handle(true))
      ensures railResizeObserver == if resizeObserverAvailable then Some(Handle(true)) else old(railResizeObserver)
      ensures globalListeners ==
                old(globalListeners) + (if AutoMode(config) then VisibilityListeners(elements) else [])
                + FaceGuardListeners
    {
      CreateElements();
      WireRail(resizeObserverAvailable);
    }

    /** `init`: `_applyConfig`, `_buildDOM`, `_attachViewportListeners`, in that order; returns the elements. */
    method Init(platform: Platform) returns (mounted: set<Element>)
      requires Valid()
      modifies this`rootStyle, this`elements, this`subtreeBuilt, this`state, this`railAttr, this`railTop,
               this`faceGuardRaf, this`railResizeObserver, this`globalListeners, this`attached,
               this`viewportListeners, this`viewportAttached, this`keyboardOffset, this`keyboardRaised
      ensures Valid()
      ensures mounted == elements && elements == AllElements && subtreeBuilt
      ensures rootStyle == Some(ApplyConfig(config, platform.blurSupported))
      ensures state == RV.RailState(if AutoMode(config) then RV.Hidden else RV.Show, None, None)
      ensures railAttr == Some(state.visibility)
      ensures railTop == Some(FaceGuard.RailTop(layout, FaceGuardFraction(config)))
      ensures globalListeners ==
                old(globalListeners) + (if AutoMode(config) then VisibilityListeners(elements) else [])
                + FaceGuardListeners
      ensures faceGuardRaf == Some(Handle(true))
      ensures railResizeObserver ==
                if platform.resizeObserverAvailable then Some(Handle(true)) else old(railResizeObserver)
      ensures platform.viewport.None? ==>
                && viewportListeners == old(viewportListeners)
                && keyboardOffset == old(keyboardOffset) && keyboardRaised == old(keyboardRaised)
      ensures platform.viewport.Some? ==>
                && viewportListeners == old(viewportListeners) + KeyboardListeners
                && keyboardOffset == Some(Keyboard.KeyboardOffset(platform.innerHeight, platform.viewport.value))
                && keyboardRaised == Some(Keyboard.Raised(keyboardOffset.value))
      ensures layout == old(layout) && now == old(now)
    {
      rootStyle := Some(ApplyConfig(config, platform.blurSupported));
      BuildDom(platform.resizeObserverAvailable);
      AttachViewportListeners(platform.viewport, platform.innerHeight);
      mounted := elements;
    }

    /** The first half of `destroy`: each viewport listener is removed, then the registry is emptied. */
    method RemoveViewportListeners()
      requires viewportAttached == ViewportTypes(viewportListeners)
      modifies this`viewportListeners, this`viewportAttached
      ensures viewportListeners == [] && viewportAttached == {}
    {
      for i := 0 to |viewportListeners|
        invariant viewportListeners == old(viewportListeners)
        invariant viewportAttached == ViewportTypes(viewportListeners) - ViewportTypes(viewportListeners[..i])
      {
        ViewportTypesAppend(viewportListeners[..i], [viewportListeners[i]]);
        ViewportTypesSingleton(viewportListeners[i]);
        assert viewportListeners[..i + 1] == viewportListeners[..i] + [viewportListeners[i]];
        viewportAttached := viewportAttached - {viewportListeners[i].eventType};
      }
      assert viewportListeners[..|viewportListeners|] == viewportListeners;
      viewportListeners := [];
    }

    /** The second half: each registered listener is removed from its target, then the registry is emptied. */
    method RemoveGlobalListeners()
      requires Registered()
      modifies this`globalListeners, this`attached
      ensures globalListeners == [] && attached == {}
    {
      for i := 0 to |globalListeners|
        invariant globalListeners == old(globalListeners)
        invariant attached == Bindings(globalListeners) - Bindings(globalListeners[..i])
      {
        BindingsAppend(globalListeners[..i], [globalListeners[i]]);
        BindingsSingleton(globalListeners[i]);
        assert globalListeners[..i + 1] == globalListeners[..i] + [globalListeners[i]];
        attached := attached - {BindingOf(globalListeners[i])};
      }
      assert globalListeners[..|globalListeners|] == globalListeners;
      globalListeners := [];
    }

    /**
     * `destroy`: every viewport and global listener is removed from its
     * target and both registries are emptied, the timers are cleared, the
     * resize observer is disconnected and the frame request cancelled with
     * both handles nulled, and the root is emptied. The visibility, its
     * attribute and the rail's last top are left as they were.
     */
    method Destroy()
      requires Valid()
      modifies this`viewportListeners, this`viewportAttached, this`globalListeners, this`attached,
               this`state, this`railResizeObserver, this`faceGuardRaf, this`subtreeBuilt
      ensures Valid()
      ensures viewportListeners == [] && viewportAttached == {} && globalListeners == [] && attached == {}
      ensures state == RV.ClearTimers(old(state))
      ensures railResizeObserver == None && faceGuardRaf == None
      ensures !subtreeBuilt
    {
      RemoveViewportListeners();
      RemoveGlobalListeners();

      ClearVisibilityTimers();

      if railResizeObserver.Some? {
        railResizeObserver := None;
      }

      if faceGuardRaf.Some? {
        faceGuardRaf := None;
      }

      subtreeBuilt := false;
    }

    /**
     * After `destroy` the stage is inert: time passing, an event on any
     * target, a late frame and a visual-viewport event change nothing it
     * left behind.
     */
    method QuietAfterDestroy(t: real, target: Target, eventType: EventType,
                             vv: Option<Keyboard.Viewport>, innerHeight: real)
      requires Valid() && now <= t
      modifies this`viewportListeners, this`viewportAttached, this`globalListeners, this`attached,
               this`state, this`now, this`railAttr, this`railTop, this`railResizeObserver, this`faceGuardRaf,
               this`subtreeBuilt, this`keyboardOffset, this`keyboardRaised
      ensures Valid()
      ensures state == RV.ClearTimers(old(state)) && now == t
      ensures railAttr == old(railAttr) && railTop == old(railTop)
      ensures keyboardOffset == old(keyboardOffset) && keyboardRaised == old(keyboardRaised)
      ensures globalListeners == [] && attached == {} && viewportListeners == [] && viewportAttached == {}
      ensures faceGuardRaf == None && railResizeObserver == None && !subtreeBuilt
    {
      Destroy();
      assert RV.NoTimers(state);
      AdvanceClock(t);
      Dispatch(target, eventType);
      AnimationFrame();
      ViewportEvent(eventType, vv, innerHeight);
    }
  }

  /** `new Live2DChatStage(root, config, locale)`: fails exactly when there is no root. */
  method Mount(root: Option<RootNode>, options: UserOptions, locale: string, now: real)
    returns (r: Result<ChatStage, ConstructError>)
    ensures root.None? <==> r.Failure?
    ensures root.None? ==> r.error == RootRequired
    ensures r.Success? ==>
              && fresh(r.value) && r.value.Valid()
              && r.value.config == Merge(options) && r.value.state == RV.Initial
              && r.value.layout == root.value.layout
              && r.value.globalListeners == [] && r.value.elements == {}
  {
    if root.None? {
      return Failure(RootRequired);
    }
    var stage := new ChatStage(options, locale, root.value.layout, now);
    return Success(stage);
  }
}
