/**
 * The interaction router as data: the stage's elements, the targets and
 * handlers of its listeners, and the list of listeners
 * `_initializeVisibilitySystem` registers in auto mode.
 */
module Listeners {

  /** The entries of `this.elements` that `_buildDOM` creates. */
  datatype Element =
    | Root | CanvasLayer | CanvasHost | SttOverlay | Rail | MessagesScroll | LoadOlderBtn | LoadBar
    | ScrollIndicator | Composer | Textarea | CharCounter | MicButton | TtsButton | ClearButton
    | SendButton | EmptyState

  /** The keys of `this.elements` after `_buildDOM`, in the order it lists them. */
  const ElementKeys: seq<Element> := [
    Root, CanvasLayer, CanvasHost, SttOverlay, Rail, MessagesScroll, LoadOlderBtn, LoadBar,
    ScrollIndicator, Composer, Textarea, CharCounter, MicButton, TtsButton, ClearButton,
    SendButton, EmptyState
  ]

  const AllElements: set<Element> := set e | e in ElementKeys

  /** Where a listener is attached: one of the elements, or the window. */
  datatype Target = Node(element: Element) | Window

  /** The three bound handlers the constructor creates once. */
  datatype Handler =
    | InteractionHandler    // _boundHandleInteraction
    | IdleCountdownHandler  // _boundIdleCountdown
    | FaceGuardHandler      // _boundFaceGuard

  /** The DOM event types the stage listens for. */
  datatype EventType =
    | PointerDown | PointerEnter | TouchStart | Wheel | Scroll | FocusIn | FocusOut
    | PointerLeave | Focus | Blur | Resize | OrientationChange

  /** An entry of `_globalListeners`; `passive` is `{ passive: true }` as options. */
  datatype Listener = Listener(target: Target, eventType: EventType, handler: Handler, passive: bool)

  /**
   * What the DOM identifies a listener by (target, type, function; no
   * listener here uses capture). Adding one it already holds is ignored.
   */
  datatype Binding = Binding(target: Target, eventType: EventType, handler: Handler)

  function BindingOf(l: Listener): Binding {
    Binding(l.target, l.eventType, l.handler)
  }

  /**
   * Associativity of concatenation, a plain sequence identity. The
   * registration methods call it after each group so that the solver
   * does not have to rediscover it and stays within its resource limit.
   */
  lemma ConcatAssoc(a: seq<Listener>, b: seq<Listener>, c: seq<Listener>)
    ensures (a + b) + c == a + (b + c)
  {
  }

  /**
   * Three single appends equal one append of the three, a plain sequence
   * identity. The target loop calls it for the same reason as `ConcatAssoc`.
   */
  lemma AppendTriple(ls: seq<Listener>, a: Listener, b: Listener, c: Listener)
    ensures ls + [a] + [b] + [c] == ls + [a, b, c]
  {
  }

  /** The DOM bindings a list of registry entries stands for. */
  function Bindings(ls: seq<Listener>): set<Binding> {
    set l | l in ls :: BindingOf(l)
  }

  /** An entry of `_viewportListeners`, on `window.visualViewport`. */
  datatype ViewportListener = ViewportListener(eventType: EventType)

  function ViewportTypes(ls: seq<ViewportListener>): set<EventType> {
    set l | l in ls :: l.eventType
  }

  /** Registering more entries adds exactly their bindings. */
  lemma BindingsAppend(ls: seq<Listener>, extra: seq<Listener>)
    ensures Bindings(ls + extra) == Bindings(ls) + Bindings(extra)
  {
    assert forall l :: l in ls + extra <==> l in ls || l in extra;
  }

  lemma BindingsSingleton(l: Listener)
    ensures Bindings([l]) == {BindingOf(l)}
  {
    assert forall m :: m in [l] <==> m == l;
  }

  lemma ViewportTypesSingleton(l: ViewportListener)
    ensures ViewportTypes([l]) == {l.eventType}
  {
    assert forall m :: m in [l] <==> m == l;
  }

  /** The entries `_attachViewportListeners` registers, both running the keyboard-offset update. */
  const KeyboardListeners: seq<ViewportListener> := [ViewportListener(Resize), ViewportListener(Scroll)]

  lemma ViewportTypesAppend(ls: seq<ViewportListener>, extra: seq<ViewportListener>)
    ensures ViewportTypes(ls + extra) == ViewportTypes(ls) + ViewportTypes(extra)
  {
    assert forall l :: l in ls + extra <==> l in ls || l in extra;
  }

  /** The targets whose pointer and touch signals count as interactions, in order. */
  const InteractiveTargets: seq<Element> := [
    Rail, MessagesScroll, Composer, Textarea, MicButton, TtsButton, ClearButton, SendButton, CanvasHost
  ]

  /** `.filter(Boolean)`: the listed elements that exist, in their order. */
  function Present(xs: seq<Element>, elements: set<Element>): seq<Element> {
    if xs == [] then []
    else (if xs[0] in elements then [xs[0]] else []) + Present(xs[1..], elements)
  }

  /** The filter keeps exactly the listed elements that exist. */
  lemma {:induction false} PresentMembers(xs: seq<Element>, elements: set<Element>)
    ensures forall e :: e in Present(xs, elements) <==> e in xs && e in elements
    decreases |xs|
  {
    if xs != [] {
      PresentMembers(xs[1..], elements);
      assert forall e :: e in xs <==> e == xs[0] || e in xs[1..];
    }
  }

  /** The pointer-down, pointer-enter and touch-start listeners of one interactive target. */
  function PointerListeners(e: Element): seq<Listener> {
    [ Listener(Node(e), PointerDown, InteractionHandler, true),
      Listener(Node(e), PointerEnter, InteractionHandler, true),
      Listener(Node(e), TouchStart, InteractionHandler, true) ]
  }

  /** The `forEach` over the interactive targets: their pointer listeners, target by target. */
  function TargetListeners(ts: seq<Element>): (r: seq<Listener>)
  {
    if ts == [] then [] else PointerListeners(ts[0]) + TargetListeners(ts[1..])
  }

  /** What the `forEach` adds for one more target: that target's pointer listeners, at the end. */
  lemma {:induction false} TargetListenersSnoc(ts: seq<Element>, e: Element)
    ensures TargetListeners(ts + [e]) == TargetListeners(ts) + PointerListeners(e)
    decreases |ts|
  {
    if ts == [] {
      assert [e][1..] == [];
    } else {
      assert (ts + [e])[1..] == ts[1..] + [e];
      TargetListenersSnoc(ts[1..], e);
    }
  }

  /** `if (cond) { xs }`. */
  function When(cond: bool, xs: seq<Listener>): seq<Listener> {
    if cond then xs else []
  }

  /** The groups of `_initializeVisibilitySystem` after the interactive targets, each under its `if`. */
  function ScrollListeners(elements: set<Element>): seq<Listener> {
    When(MessagesScroll in elements,
      [ Listener(Node(MessagesScroll), Wheel, InteractionHandler, true),
        Listener(Node(MessagesScroll), Scroll, InteractionHandler, true) ])
  }

  function ComposerListeners(elements: set<Element>): seq<Listener> {
    When(Composer in elements,
      [ Listener(Node(Composer), FocusIn, InteractionHandler, false),
        Listener(Node(Composer), FocusOut, IdleCountdownHandler, false),
        Listener(Node(Composer), PointerLeave, IdleCountdownHandler, true) ])
  }

  function RailListeners(elements: set<Element>): seq<Listener> {
    When(Rail in elements,
      [ Listener(Node(Rail), FocusIn, InteractionHandler, false),
        Listener(Node(Rail), PointerLeave, IdleCountdownHandler, true) ])
  }

  function TextareaListeners(elements: set<Element>): seq<Listener> {
    When(Textarea in elements,
      [ Listener(Node(Textarea), Focus, InteractionHandler, false),
        Listener(Node(Textarea), Blur, IdleCountdownHandler, false) ])
  }

  function CanvasListeners(elements: set<Element>): seq<Listener> {
    When(CanvasHost in elements,
      [ Listener(Node(CanvasHost), PointerDown, InteractionHandler, true),
        Listener(Node(CanvasHost), PointerEnter, InteractionHandler, true),
        Listener(Node(CanvasHost), PointerLeave, IdleCountdownHandler, true) ])
  }

  const RootListeners: seq<Listener> := [ Listener(Node(Root), PointerLeave, IdleCountdownHandler, true) ]

  /** Every listener `_initializeVisibilitySystem` registers in auto mode, in order. */
  function VisibilityListeners(elements: set<Element>): seq<Listener> {
    TargetListeners(Present(InteractiveTargets, elements))
    + ScrollListeners(elements)
    + ComposerListeners(elements)
    + RailListeners(elements)
    + TextareaListeners(elements)
    + CanvasListeners(elements)
    + RootListeners
  }

  /** The window listeners `_bindFaceGuardObservers` registers. */
  const FaceGuardListeners: seq<Listener> := [
    Listener(Window, Resize, FaceGuardHandler, false),
    Listener(Window, OrientationChange, FaceGuardHandler, false)
  ]

  /** The signals that only re-arm the idle countdown. */
  const IdleSignals: set<EventType> := {FocusOut, PointerLeave, Blur}

  /**
   * How a visibility listener is wired: exactly the focus-out, blur and
   * pointer-leave signals re-arm the idle countdown and every other signal
   * is an interaction; every pointer-leave is passive; and the listener is
   * on the root or on an element that exists.
   */
  predicate Routed(l: Listener, elements: set<Element>) {
    && l.handler != FaceGuardHandler
    && (l.handler == IdleCountdownHandler <==> l.eventType in IdleSignals)
    && (l.eventType == PointerLeave ==> l.passive)
    && l.target.Node? && (l.target.element == Root || l.target.element in elements)
  }

  predicate AllRouted(ls: seq<Listener>, elements: set<Element>) {
    forall l :: l in ls ==> Routed(l, elements)
  }

  /** The pointer listeners of existing targets are passive interactions on those targets. */
  lemma {:induction false} TargetListenersRoute(ts: seq<Element>, elements: set<Element>)
    requires forall e :: e in ts ==> e in elements
    ensures AllRouted(TargetListeners(ts), elements)
    decreases |ts|
  {
    if ts != [] {
      TargetListenersRoute(ts[1..], elements);
      RoutedConcat(PointerListeners(ts[0]), TargetListeners(ts[1..]), elements);
    }
  }

  lemma RoutedConcat(xs: seq<Listener>, ys: seq<Listener>, elements: set<Element>)
    requires AllRouted(xs, elements) && AllRouted(ys, elements)
    ensures AllRouted(xs + ys, elements)
  {
  }

  /** Each group after the interactive targets is wired as `Routed` says. */
  lemma GroupsRoute(elements: set<Element>)
    ensures AllRouted(ScrollListeners(elements), elements)
    ensures AllRouted(ComposerListeners(elements), elements)
    ensures AllRouted(RailListeners(elements), elements)
    ensures AllRouted(TextareaListeners(elements), elements)
    ensures AllRouted(CanvasListeners(elements), elements)
    ensures AllRouted(RootListeners, elements)
  {
  }

  lemma {:induction false} VisibilityListenersRoute(elements: set<Element>)
    ensures AllRouted(VisibilityListeners(elements), elements)
  {
    var ts := Present(InteractiveTargets, elements);
    PresentMembers(InteractiveTargets, elements);
    TargetListenersRoute(ts, elements);
    GroupsRoute(elements);
    var acc := TargetListeners(ts);
    assert AllRouted(acc, elements);
    RoutedConcat(acc, ScrollListeners(elements), elements);
    acc := acc + ScrollListeners(elements);
    RoutedConcat(acc, ComposerListeners(elements), elements);
    acc := acc + ComposerListeners(elements);
    RoutedConcat(acc, RailListeners(elements), elements);
    acc := acc + RailListeners(elements);
    RoutedConcat(acc, TextareaListeners(elements), elements);
    acc := acc + TextareaListeners(elements);
    RoutedConcat(acc, CanvasListeners(elements), elements);
    acc := acc + CanvasListeners(elements);
    RoutedConcat(acc, RootListeners, elements);
  }

  /**
   * No signal on a target reaches both handlers: two visibility listeners
   * for the same event type run the same handler, so the order in which
   * the DOM runs them cannot be observed.
   */
  lemma OneHandlerPerSignal(elements: set<Element>, l1: Listener, l2: Listener)
    requires l1 in VisibilityListeners(elements) && l2 in VisibilityListeners(elements)
    requires l1.eventType == l2.eventType
    ensures l1.handler == l2.handler
  {
    VisibilityListenersRoute(elements);
  }
}
