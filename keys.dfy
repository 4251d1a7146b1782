/** Virtual key codes, modifier flags and the pass-through key filter of the
    focusless keyboard router (src/main.rs). */
module Keys {

  /** A virtual key code as delivered by a key-down event (`u16`). */
  type KeyCode = bv16

  /** The modifier-flags bitmask of a key-down event (`u64`). */
  type ModifierFlags = bv64

  const UpArrow: KeyCode := 0x7E
  const DownArrow: KeyCode := 0x7D
  const LeftArrow: KeyCode := 0x7B
  const RightArrow: KeyCode := 0x7C
  const Escape: KeyCode := 0x35
  const Tab: KeyCode := 0x30
  const Return: KeyCode := 0x24
  const Delete: KeyCode := 0x33

  const CommandFlag: ModifierFlags := 1 << 20
  const OptionFlag: ModifierFlags := 1 << 19
  const ControlFlag: ModifierFlags := 1 << 18

  /** The keys that are always left to the rest of the system. */
  const NavigationKeys: set<KeyCode> := {UpArrow, DownArrow, LeftArrow, RightArrow, Escape, Tab}

  /** Bit `bit` of a modifier mask, read by shifting (an independent reading
      of the `flags & FLAG != 0` tests). */
  predicate BitSet(mods: ModifierFlags, bit: nat)
    requires bit < 64
  {
    (mods >> bit) & 1 == 1
  }

  /** True when the event carries a Command, Option or Control modifier:
      bits 20, 19 and 18 of the mask. */
  predicate IsShortcutChord(mods: ModifierFlags) {
    BitSet(mods, 20) || BitSet(mods, 19) || BitSet(mods, 18)
  }

  /** `should_pass_through_key`: the keys the router never captures. */
  function ShouldPassThrough(keyCode: KeyCode, mods: ModifierFlags): (pass: bool)
    ensures pass <==> keyCode in NavigationKeys || IsShortcutChord(mods)
  {
    if keyCode == UpArrow || keyCode == DownArrow || keyCode == LeftArrow
       || keyCode == RightArrow || keyCode == Escape || keyCode == Tab
    then
      true
    else if mods & CommandFlag != 0 || mods & OptionFlag != 0 || mods & ControlFlag != 0 then
      true
    else
      false
  }

  /** The six navigation keys pass through whatever the modifiers. */
  lemma NavigationKeysPass(keyCode: KeyCode, mods: ModifierFlags)
    requires keyCode in {UpArrow, DownArrow, LeftArrow, RightArrow, Escape, Tab}
    ensures ShouldPassThrough(keyCode, mods)
  {
  }

  /** Any key with Command, Option or Control held passes through. */
  lemma ShortcutChordsPass(keyCode: KeyCode, mods: ModifierFlags)
    requires BitSet(mods, 20) || BitSet(mods, 19) || BitSet(mods, 18)
    ensures ShouldPassThrough(keyCode, mods)
  {
  }

  /** Every other key is captured, Return and Delete included. */
  lemma PlainKeysCaptured(keyCode: KeyCode, mods: ModifierFlags)
    requires keyCode !in NavigationKeys
    requires !BitSet(mods, 20) && !BitSet(mods, 19) && !BitSet(mods, 18)
    ensures !ShouldPassThrough(keyCode, mods)
    ensures !ShouldPassThrough(Return, mods) && !ShouldPassThrough(Delete, mods)
  {
  }

  /** Modifier bits other than Command, Option and Control (Shift, Caps Lock,
      Function, ...) never change the decision. */
  lemma OtherModifiersIgnored(keyCode: KeyCode, mods: ModifierFlags, extra: ModifierFlags)
    requires extra & (CommandFlag | OptionFlag | ControlFlag) == 0
    ensures ShouldPassThrough(keyCode, mods | extra) == ShouldPassThrough(keyCode, mods)
  {
  }
}
