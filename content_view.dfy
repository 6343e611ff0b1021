/** The settings window's shortcut state. Its private `shortcutDisplayString`,
    `keyCodeToString` and `RecordingNSView` are copies of those in `ShortcutUtils` and
    `ShortcutRecorder` and are modelled there. */
module ContentView {

  import opened ShortcutUtils
  import opened AppDelegate

  /** The shortcut the window shows and re-registers when recording is cancelled. */
  class ShortcutState {
    var recordedKeyCode: UInt32
    var recordedModifiers: UInt32

    /** The initial state: T with the control key. */
    constructor ()
      ensures Shortcut(recordedKeyCode, recordedModifiers) == DefaultShortcut
    {
      recordedKeyCode := KeyT;
      recordedModifiers := ControlKey as int;
    }

    /** `loadSavedShortcut`: each half is replaced only when a value is stored for it. */
    method LoadSavedShortcut(store: Defaults)
      modifies this
      ensures recordedKeyCode == (if HotkeyKeyCodeKey in store then store[HotkeyKeyCodeKey] else old(recordedKeyCode))
      ensures recordedModifiers ==
        (if HotkeyModifiersKey in store then store[HotkeyModifiersKey] else old(recordedModifiers))
    {
      if HotkeyKeyCodeKey in store {
        recordedKeyCode := store[HotkeyKeyCodeKey];
      }
      if HotkeyModifiersKey in store {
        recordedModifiers := store[HotkeyModifiersKey];
      }
    }
  }

  /** The window opening: a fresh state loaded from the store shows exactly the launch
      shortcut, the one the app asks Carbon to register at launch. */
  method OnAppear(store: Defaults) returns (state: ShortcutState)
    ensures fresh(state)
    ensures Shortcut(state.recordedKeyCode, state.recordedModifiers) == LaunchShortcut(store)
  {
    state := new ShortcutState();
    state.LoadSavedShortcut(store);
  }
}
