/**
 * The key-press test of the shortcut hook (client/src/hooks/useKeyboardShortcut.ts): a
 * shortcut fires on a key-down event unless the focus is in a text field, the key is the
 * shortcut's key in either case, and the modifier keys are exactly those the options ask for.
 */
module KeyboardShortcut {
  import opened Wrappers
  import opened Strings

  /** The parts of a key-down event the hook reads, including its target element. */
  datatype KeyEvent = KeyEvent(
    key: string,
    ctrlKey: bool,
    metaKey: bool,
    shiftKey: bool,
    altKey: bool,
    targetTag: string,
    targetEditable: bool)

  /** The hook's optional options; an option left out is off. */
  datatype ShortcutOptions = ShortcutOptions(ctrl: Option<bool>, shift: Option<bool>, alt: Option<bool>)

  /** `options?.ctrl` and friends, as truth values: the options and the option are given, and true. */
  predicate Wants(options: Option<ShortcutOptions>, pick: ShortcutOptions -> Option<bool>) {
    options.Some? && pick(options.value) == Some(true)
  }

  predicate WantsCtrl(options: Option<ShortcutOptions>) {
    Wants(options, (o: ShortcutOptions) => o.ctrl)
  }

  predicate WantsShift(options: Option<ShortcutOptions>) {
    Wants(options, (o: ShortcutOptions) => o.shift)
  }

  predicate WantsAlt(options: Option<ShortcutOptions>) {
    Wants(options, (o: ShortcutOptions) => o.alt)
  }

  /** Typing targets, where shortcuts stay quiet. */
  predicate EditableTarget(e: KeyEvent) {
    e.targetTag == "INPUT" || e.targetTag == "TEXTAREA" || e.targetEditable
  }

  predicate KeyMatch(key: string, e: KeyEvent) {
    ToLower(e.key) == ToLower(key)
  }

  /** With the ctrl option either Ctrl or Meta will do; without it neither may be held. */
  predicate CtrlMatch(options: Option<ShortcutOptions>, e: KeyEvent) {
    if WantsCtrl(options) then e.ctrlKey || e.metaKey else !e.ctrlKey && !e.metaKey
  }

  predicate ShiftMatch(options: Option<ShortcutOptions>, e: KeyEvent) {
    if WantsShift(options) then e.shiftKey else !e.shiftKey
  }

  predicate AltMatch(options: Option<ShortcutOptions>, e: KeyEvent) {
    if WantsAlt(options) then e.altKey else !e.altKey
  }

  /**
   * `handleKeyDown`: whether the event's default is prevented and the callback runs (the two
   * always happen together).
   */
  predicate Fires(key: string, options: Option<ShortcutOptions>, e: KeyEvent) {
    !EditableTarget(e) && KeyMatch(key, e) && CtrlMatch(options, e) && ShiftMatch(options, e) && AltMatch(options, e)
  }

  /** Nothing fires while an input, a text area or an editable element has the focus. */
  lemma QuietInTextFields(key: string, options: Option<ShortcutOptions>, e: KeyEvent)
    requires e.targetTag == "INPUT" || e.targetTag == "TEXTAREA" || e.targetEditable
    ensures !Fires(key, options, e)
  {
  }

  /** The key is compared without regard to letter case, on either side. */
  lemma KeyIgnoresCase(key: string, options: Option<ShortcutOptions>, e: KeyEvent)
    ensures Fires(key, options, e) == Fires(ToLower(key), options, e)
    ensures Fires(key, options, e) == Fires(key, options, e.(key := ToLower(e.key)))
  {
    ToLowerIdempotent(key);
    ToLowerIdempotent(e.key);
  }

  /** Upper-case K triggers a "k" shortcut just as lower-case k does. */
  lemma ShiftedLetterMatches(e: KeyEvent)
    ensures KeyMatch("k", e.(key := "K")) && KeyMatch("K", e.(key := "k"))
  {
    assert ToLower("K") == [LowerChar('K')];
    assert ToLower("k") == [LowerChar('k')];
  }

  /**
   * The modifiers of a firing event: Ctrl or Meta held exactly when the ctrl option is on,
   * Shift and Alt held exactly when their options are on; and with the ctrl option Meta
   * stands in for Ctrl.
   */
  lemma ModifiersMatchOptions(key: string, options: Option<ShortcutOptions>, e: KeyEvent)
    ensures Fires(key, options, e) ==> ((e.ctrlKey || e.metaKey) <==> WantsCtrl(options))
    ensures Fires(key, options, e) ==> e.shiftKey == WantsShift(options) && e.altKey == WantsAlt(options)
    ensures WantsCtrl(options) ==>
              Fires(key, options, e.(ctrlKey := true, metaKey := false)) == Fires(key, options, e.(ctrlKey := false, metaKey := true))
    ensures options.None? ==> (Fires(key, options, e) <==> !EditableTarget(e) && KeyMatch(key, e) && !e.ctrlKey && !e.metaKey && !e.shiftKey && !e.altKey)
  {
  }
}
