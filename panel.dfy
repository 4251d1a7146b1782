/** The overrides registered on the overlay's Objective-C classes
    (src/main.rs:83-142): the panel never becomes key or main window, and
    neither the background view nor the text field takes first-responder
    status, yet both accept the first click. */
module Panel {

  /** The two views inside the panel that override focus behaviour. */
  datatype View = DraggableView | FocuslessTextField

  /** `canBecomeKeyWindow` of `NonActivatingPanel`. */
  function CanBecomeKeyWindow(): bool { false }

  /** `canBecomeMainWindow` of `NonActivatingPanel`. */
  function CanBecomeMainWindow(): bool { false }

  /** `acceptsFirstMouse:` of both views. */
  function AcceptsFirstMouse(v: View): bool { true }

  /** `acceptsFirstResponder` of both views. */
  function AcceptsFirstResponder(v: View): bool { false }

  /** `becomeFirstResponder` of the text field. */
  function BecomeFirstResponder(): bool { false }

  /** Nothing the overlay is made of takes keyboard focus, and both of its
      views take the first click without it. */
  lemma NeverTakesFocus(v: View)
    ensures !CanBecomeKeyWindow() && !CanBecomeMainWindow()
    ensures !AcceptsFirstResponder(v) && !BecomeFirstResponder()
    ensures AcceptsFirstMouse(v)
  {
  }
}
