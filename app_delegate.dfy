/** The app delegate: the global hotkey's persistence and registration, and its own copy of
    the paste flow (the same guards, coalescing, fallback and restore as `TweakService`,
    without the loading indicator). Carbon's `RegisterEventHotKey` answer is an input. */
module AppDelegate {

  import opened Wrappers
  import opened Osaurus
  import opened Settings
  import opened TweakService
  import opened ShortcutUtils

  const HotkeyKeyCodeKey: string := "HotkeyKeyCode"
  const HotkeyModifiersKey: string := "HotkeyModifiers"

  /** The hotkey-related part of `UserDefaults`. Only `updateGlobalHotkey` writes these keys,
      and always from a `UInt32`. */
  type Defaults = map<string, UInt32>

  datatype Shortcut = Shortcut(keyCode: UInt32, modifiers: UInt32)

  /** T with the control key. */
  const DefaultShortcut: Shortcut := Shortcut(KeyT, ControlKey as int)

  /** The hotkey registered at launch: each half is the saved value when one is stored and
      the default otherwise. */
  function LaunchShortcut(store: Defaults): (s: Shortcut)
    ensures HotkeyKeyCodeKey in store ==> s.keyCode == store[HotkeyKeyCodeKey]
    ensures HotkeyKeyCodeKey !in store ==> s.keyCode == DefaultShortcut.keyCode
    ensures HotkeyModifiersKey in store ==> s.modifiers == store[HotkeyModifiersKey]
    ensures HotkeyModifiersKey !in store ==> s.modifiers == DefaultShortcut.modifiers
  {
    Shortcut(
      if HotkeyKeyCodeKey in store then store[HotkeyKeyCodeKey] else KeyT,
      if HotkeyModifiersKey in store then store[HotkeyModifiersKey] else ControlKey as int)
  }

  /** What `updateGlobalHotkey` writes. */
  function Persisted(store: Defaults, s: Shortcut): Defaults {
    store[HotkeyKeyCodeKey := s.keyCode][HotkeyModifiersKey := s.modifiers]
  }

  /** A shortcut once saved is the one the next launch registers, whatever was stored
      before; with nothing stored the launch registers the default. */
  lemma SavedShortcutIsRelaunched(store: Defaults, s: Shortcut)
    ensures LaunchShortcut(Persisted(store, s)) == s
    ensures LaunchShortcut(map[]) == DefaultShortcut
  {
    assert HotkeyKeyCodeKey != HotkeyModifiersKey;
  }

  /** The control bit alone shows as ⌃. */
  lemma ControlKeySymbol()
    ensures ModifierSymbols(ControlKey) == [Control]
  {
    assert ControlKey & CmdKey == 0 && ControlKey & ShiftKey == 0 && ControlKey & OptionKey == 0;
    assert ControlKey & ControlKey != 0;
  }

  /** The T key shows as T. */
  lemma KeyTName()
    ensures KeyCodeToString(KeyT) == "T"
  {
    assert LetterOf(KeyT) == Some('T');
  }

  /** The default shortcut is displayed as ⌃T. */
  lemma DefaultShortcutIsControlT()
    ensures ModifierSymbols(DefaultShortcut.modifiers as bv32) + KeyCodeToString(DefaultShortcut.keyCode) == "⌃T"
  {
    assert DefaultShortcut.modifiers as bv32 == ControlKey;
    ControlKeySymbol();
    KeyTName();
  }

  /** The hotkey's four-character signature, `'TWKS'`. */
  const HotkeySignature: int := 0x5457_4B53

  /** A four-character code: the characters' code points as big-endian bytes. */
  function FourCharCode(s: string): int
    requires |s| == 4
  {
    ((s[0] as int * 256 + s[1] as int) * 256 + s[2] as int) * 256 + s[3] as int
  }

  lemma HotkeySignatureSpellsTwks()
    ensures FourCharCode("TWKS") == HotkeySignature
  {
  }

  class AppDelegate {
    var store: Defaults
    /** The registered hotkey (`hotKeyRef`), if any. */
    var registered: Option<Shortcut>

    constructor (saved: Defaults)
      ensures store == saved && registered.None?
    {
      store := saved;
      registered := None;
    }

    /** `registerGlobalHotkey`: drop the previous registration, then register; `accepted`
        is whether Carbon accepted the shortcut. */
    method RegisterGlobalHotkey(s: Shortcut, accepted: bool) returns (ok: bool)
      modifies this
      ensures ok == accepted
      ensures registered == (if accepted then Some(s) else None)
      ensures store == old(store)
    {
      registered := None;
      if !accepted {
        return false;
      }
      registered := Some(s);
      ok := true;
    }

    /** The launch step: register the saved hotkey, or ⌃T when none is saved. */
    method ApplicationDidFinishLaunching(accepted: bool) returns (ok: bool)
      modifies this
      ensures ok == accepted
      ensures registered == (if accepted then Some(LaunchShortcut(store)) else None)
      ensures store == old(store)
    {
      var s := LaunchShortcut(store);
      ok := RegisterGlobalHotkey(s, accepted);
    }

    /** `updateGlobalHotkey`: save both halves first, then register, so a shortcut Carbon
        refuses is still the one the next launch tries. */
    method UpdateGlobalHotkey(keyCode: UInt32, modifiers: UInt32, accepted: bool) returns (ok: bool)
      modifies this
      ensures store == Persisted(old(store), Shortcut(keyCode, modifiers))
      ensures LaunchShortcut(store) == Shortcut(keyCode, modifiers)
      ensures ok == accepted
      ensures registered == (if accepted then Some(Shortcut(keyCode, modifiers)) else None)
    {
      store := store[HotkeyKeyCodeKey := keyCode];
      store := store[HotkeyModifiersKey := modifiers];
      SavedShortcutIsRelaunched(old(store), Shortcut(keyCode, modifiers));
      ok := RegisterGlobalHotkey(Shortcut(keyCode, modifiers), accepted);
    }

    /** `suspendGlobalHotkey`: unregister while a new shortcut is recorded. */
    method SuspendGlobalHotkey()
      modifies this
      ensures registered.None? && store == old(store)
    {
      registered := None;
    }

    /** `pasteTweakedText()`: nothing without accessibility trust, a running server or text
        on the clipboard; otherwise tweak the clipboard text with the selected model and the
        active prompt, paste it in coalesced pieces, and end with the original text on the
        clipboard. The guard has already found a server, so the flow always reaches the
        streaming request. */
    method PasteTweakedText(settings: SettingsManager, trusted: bool,
                            env: Environment, parsers: Parsers, listing: Option<seq<InstanceDir>>,
                            clipboard: Option<string>,
                            streamReply: StreamReply, decode: ChunkDecoder, fallbackReply: Reply<ChatCompletionResponse>)
      returns (effects: seq<Effect>)
      ensures effects == [] <==>
        !trusted || !(listing.Some? && Candidates(listing.value, parsers) != []) || clipboard.None?
      ensures effects != [] ==>
        && FinalClipboard(effects) == clipboard
        && (exists c :: effects[0] == Send(TweakStreamRequest(c, env, clipboard.value, settings.selectedModelId,
                                                            PromptFor(settings.ActivePrompt()))))
        && (exists c :: StreamPasteLog(effects, c, env, clipboard.value, settings.selectedModelId,
                                       PromptFor(settings.ActivePrompt()), streamReply, decode, fallbackReply))
        && (ExpectedStream(streamReply, decode).outcome.Finished? &&
            Coalesced(ExpectedStream(streamReply, decode).deltas).receivedAny ==>
              Concat(PastedTexts(effects)) == Concat(ExpectedStream(streamReply, decode).deltas))
        && (ExpectedStream(streamReply, decode).outcome.Failed? ==>
              effects[|effects| - 1] == Paste(clipboard.value))
    {
      if !trusted {
        return [];
      }
      var running := IsRunning(listing, parsers);
      if !running || clipboard.None? {
        return [];
      }
      var made := Make(env, parsers, listing);
      assert made.Success?;
      var model := settings.selectedModelId;
      var prompt := PromptFor(settings.ActivePrompt());
      effects := StreamPaste(made.value, env, clipboard.value, model, prompt, streamReply, decode, fallbackReply);
      assert effects[0] == Send(TweakStreamRequest(made.value, env, clipboard.value, model, prompt));
      assert effects[0] == Send(TweakStreamRequest(made.value, env, clipboard.value, settings.selectedModelId,
                                                   PromptFor(settings.ActivePrompt())));
      assert StreamPasteLog(effects, made.value, env, clipboard.value, settings.selectedModelId,
                            PromptFor(settings.ActivePrompt()), streamReply, decode, fallbackReply);
    }
  }
}
