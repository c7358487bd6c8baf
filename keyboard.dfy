/**
 * The viewport adapter's keyboard offset (`updateKeyboardOffset` in
 * `_attachViewportListeners`): how far an on-screen keyboard has pushed
 * the visual viewport's bottom above the window's.
 */
module Keyboard {

  /** The two `visualViewport` readings used. */
  datatype Viewport = Viewport(height: real, offsetTop: real)

  /** Above this offset the root is marked `data-keyboard="raised"`. */
  const RaisedThreshold: real := 20.0

  /** `Math.max(0, innerHeight - (vv.height + vv.offsetTop))`. */
  function KeyboardOffset(innerHeight: real, vv: Viewport): (r: real)
    ensures r >= 0.0
    ensures r >= innerHeight - (vv.height + vv.offsetTop)
    ensures r == 0.0 || r == innerHeight - (vv.height + vv.offsetTop)
  {
    var visualBottom := vv.height + vv.offsetTop;
    if innerHeight - visualBottom < 0.0 then 0.0 else innerHeight - visualBottom
  }

  /** `keyboardOffset > 20`. */
  predicate Raised(offset: real) {
    offset > RaisedThreshold
  }

  /** The keyboard counts as raised exactly when the visual bottom is more than 20px above the window's. */
  lemma RaisedIff(innerHeight: real, vv: Viewport)
    ensures Raised(KeyboardOffset(innerHeight, vv)) <==> vv.height + vv.offsetTop + RaisedThreshold < innerHeight
  {
  }

  /** A visual viewport reaching the window's bottom gives no offset. */
  lemma NoKeyboard(innerHeight: real, vv: Viewport)
    requires innerHeight <= vv.height + vv.offsetTop
    ensures KeyboardOffset(innerHeight, vv) == 0.0 && !Raised(KeyboardOffset(innerHeight, vv))
  {
  }
}
