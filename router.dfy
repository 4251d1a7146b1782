/** The router's global state and its handlers, as they run in src/main.rs:
    `TEXT_FIELD`, `TEXT_FIELD_ACTIVE` and `DESKTOP_CHANGE_COUNT` become the
    fields of one object, and each handler is a method that updates them.
    Every method is tied to `RouterSpec.Step`, so the lemmas proved there
    about runs of events hold of any sequence of calls. */
module Overlay {
  import opened Keys
  import opened RouterSpec

  class Router {
    /** `TEXT_FIELD_ACTIVE`: whether key-downs are captured. */
    var active: bool
    /** Whether `TEXT_FIELD` holds a text field (it is null until `main`
        publishes it). */
    var textFieldPresent: bool
    /** The text field's string value. */
    var text: seq<char>
    /** `DESKTOP_CHANGE_COUNT`. */
    var changeCount: u64

    /** The abstract state of the router. */
    function State(): RouterState
      reads this
    {
      RouterState(active, textFieldPresent, text, changeCount)
    }

    /** The statics' initial values. */
    constructor ()
      ensures State() == Initial
      ensures !active && !textFieldPresent && text == [] && changeCount == 0
    {
      active := false;
      textFieldPresent := false;
      text := [];
      changeCount := 0;
    }

    /** `TEXT_FIELD.store(text_field)` in `main`, before either key monitor
        is installed; a new text field's string value is empty. */
    method PublishTextField()
      modifies this
      ensures textFieldPresent
      ensures active == old(active) && text == old(text) && changeCount == old(changeCount)
      ensures State() == Step(old(State()), TextFieldPublished)
    {
      textFieldPresent := true;
    }

    /** `text_field_mouse_down`: start capturing key-downs. */
    method ClickTextField()
      modifies this
      ensures active
      ensures textFieldPresent == old(textFieldPresent) && text == old(text)
      ensures changeCount == old(changeCount)
      ensures State() == Step(old(State()), TextFieldClick)
    {
      active := true;
    }

    /** `mouse_down` on the draggable background: stop capturing. */
    method ClickBackground()
      modifies this
      ensures !active
      ensures textFieldPresent == old(textFieldPresent) && text == old(text)
      ensures changeCount == old(changeCount)
      ensures State() == Step(old(State()), BackgroundClick)
    {
      active := false;
    }

    /** `space_did_change`: `fetch_add(1)` on the counter; `count` is the
        value the handler prints and hands to its thread. */
    method OnSpaceChange() returns (count: u64)
      modifies this
      ensures count == changeCount
      ensures changeCount as int == (old(changeCount) as int + 1) % U64Modulus
      ensures active == old(active) && textFieldPresent == old(textFieldPresent)
      ensures text == old(text)
      ensures State() == Step(old(State()), SpaceChange)
    {
      var previous := changeCount;
      changeCount := Increment(changeCount);
      count := Increment(previous);
    }

    /** The key-down closure of either monitor: `forwarded` is true when it
        returns the event and false when it returns nil; `announcedSubmit`
        is true when it logs "Submitted!". */
    method OnKeyDown(keyCode: KeyCode, modifiers: ModifierFlags, characters: Option<seq<char>>, monitor: Monitor)
      returns (forwarded: bool, announcedSubmit: bool)
      modifies this
      ensures var r := HandleKeyDown(old(State()), KeyEvent(keyCode, modifiers, characters), monitor);
        forwarded == r.forwarded && announcedSubmit == r.announcedSubmit && text == r.text
      ensures forwarded <==> !old(active) || ShouldPassThrough(keyCode, modifiers)
      ensures forwarded ==> text == old(text)
      ensures active == old(active) && textFieldPresent == old(textFieldPresent)
      ensures changeCount == old(changeCount)
      ensures State() == Step(old(State()), KeyDown(KeyEvent(keyCode, modifiers, characters), monitor))
    {
      if !active {
        return true, false;
      }
      if ShouldPassThrough(keyCode, modifiers) {
        return true, false;
      }
      if textFieldPresent && characters.Some? {
        // a mutable copy of the current string value
        var editing := text;
        if keyCode == Delete {
          var length := |editing|;
          if length > 0 {
            editing := editing[..length - 1];
          }
        } else if keyCode == Return {
          text := [];
          return false, monitor == GlobalMonitor;
        } else {
          editing := editing + characters.value;
        }
        text := editing;
      }
      return false, false;
    }
  }

  /** A session as a user drives it: typing before the text field is clicked
      goes on to the focused application; after the click it is captured. */
  method Session() returns (r: Router)
    ensures r.active && r.text == "h" && r.changeCount == 1
  {
    r := new Router();
    r.PublishTextField();
    var forwarded, logged := r.OnKeyDown(0x04, 0, Some("h"), GlobalMonitor);
    assert forwarded && r.text == [];
    r.ClickTextField();
    forwarded, logged := r.OnKeyDown(0x04, 0, Some("h"), GlobalMonitor);
    assert !forwarded && r.text == "h";
    forwarded, logged := r.OnKeyDown(UpArrow, 0, Some("\U{f700}"), LocalMonitor);
    assert forwarded && r.text == "h";
    var count := r.OnSpaceChange();
    assert count == 1;
  }
}
