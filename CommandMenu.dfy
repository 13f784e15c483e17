/**
 * The command palette's open/closed store and its keyboard shortcut: a
 * single `isOpen` flag changed by toggle, open and close, and a keydown
 * listener that toggles it on Ctrl+K or ⌘+K.
 */
module CommandMenu {

  /** The fields of a keydown event the listener inspects. */
  datatype KeyEvent = KeyEvent(key: string, metaKey: bool, ctrlKey: bool)

  /** The shortcut test: key exactly "k" (case-sensitive) with ⌘ or Ctrl held; either modifier suffices. */
  predicate IsShortcut(e: KeyEvent): (b: bool)
    ensures b ==> |e.key| == 1 && e.key[0] == 'k'
    ensures !e.metaKey && !e.ctrlKey ==> !b
    ensures e.key == "k" && e.metaKey ==> b
    ensures e.key == "k" && e.ctrlKey ==> b
  {
    e.key == "k" && (e.metaKey || e.ctrlKey)
  }

  class CommandMenuStore {
    var isOpen: bool

    constructor ()
      ensures !isOpen
    {
      isOpen := false;
    }

    method Toggle()
      modifies this
      ensures isOpen == !old(isOpen)
    {
      isOpen := !isOpen;
    }

    method Open()
      modifies this
      ensures isOpen
    {
      isOpen := true;
    }

    method Close()
      modifies this
      ensures !isOpen
    {
      isOpen := false;
    }

    /**
     * The keydown listener: on the shortcut it prevents the default and
     * toggles; on any other key it does neither.
     */
    method OnKeyDown(e: KeyEvent) returns (preventDefault: bool)
      modifies this
      ensures preventDefault == IsShortcut(e)
      ensures isOpen == (if IsShortcut(e) then !old(isOpen) else old(isOpen))
    {
      preventDefault := false;
      if e.key == "k" && (e.metaKey || e.ctrlKey) {
        preventDefault := true;
        Toggle();
      }
    }
  }

  /** The open flag after a keydown, as a function of the flag before it. */
  function AfterKey(isOpen: bool, e: KeyEvent): (r: bool)
    ensures r != isOpen <==> IsShortcut(e)
  {
    if IsShortcut(e) then !isOpen else isOpen
  }

  /** Two toggles in a row restore the flag. */
  method ToggleTwiceRestores(store: CommandMenuStore)
    modifies store
    ensures store.isOpen == old(store.isOpen)
  {
    store.Toggle();
    store.Toggle();
  }

  /** Two shortcut presses in a row cancel out. */
  lemma ShortcutTwiceRestores(isOpen: bool, e: KeyEvent)
    requires IsShortcut(e)
    ensures AfterKey(AfterKey(isOpen, e), e) == isOpen
    ensures AfterKey(isOpen, e) != isOpen
  {
  }

  /** The comparison is case-sensitive: Ctrl+Shift+K (key "K") is not the shortcut. */
  lemma UpperCaseIsNotShortcut(isOpen: bool, metaKey: bool, ctrlKey: bool)
    ensures !IsShortcut(KeyEvent("K", metaKey, ctrlKey))
    ensures AfterKey(isOpen, KeyEvent("K", metaKey, ctrlKey)) == isOpen
  {
  }

  /** Without a modifier, "k" is ordinary typing. */
  lemma PlainKeyIsNotShortcut(isOpen: bool, key: string)
    ensures !IsShortcut(KeyEvent(key, false, false))
    ensures AfterKey(isOpen, KeyEvent(key, false, false)) == isOpen
  {
  }
}
