/**
  The user interactions both screens react to: a pointer click on a button,
  or a key pressed while the button has focus. Both the course entries and
  the star buttons treat Enter and Space exactly like a click.
 */
module Interaction {

  /** A key is identified by the DOM's `KeyboardEvent.key` string. */
  datatype UiEvent = Click | KeyDown(key: string)

  const EnterKey: string := "Enter"
  const SpaceKey: string := " "

  /** True for the interactions that activate a button: a click, Enter or Space. */
  predicate Activates(ev: UiEvent)
  {
    match ev
    case Click => true
    case KeyDown(k) => k == EnterKey || k == SpaceKey
  }
}
