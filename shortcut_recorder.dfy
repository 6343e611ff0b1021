/** The shortcut recorder: a view that, while recording, reports the next key press as a
    key code and a Carbon modifier mask, after which its representable turns recording
    off. */
module ShortcutRecorder {

  import opened ShortcutUtils

  /** The device-independent flags of an `NSEvent`; only the first four reach the mask. */
  datatype ModifierFlag = ShiftFlag | ControlFlag | OptionFlag | CommandFlag | CapsLockFlag | FunctionFlag | NumericPadFlag | HelpFlag

  /** The Carbon mask the four modifier flags stand for. */
  function ModifierMask(flags: set<ModifierFlag>): (m: Modifiers)
    ensures m & ShiftKey != 0 <==> ShiftFlag in flags
    ensures m & ControlKey != 0 <==> ControlFlag in flags
    ensures m & OptionKey != 0 <==> OptionFlag in flags
    ensures m & CmdKey != 0 <==> CommandFlag in flags
    ensures m & !AllModifierKeys == 0
  {
    (if ShiftFlag in flags then ShiftKey else 0)
    | (if ControlFlag in flags then ControlKey else 0)
    | (if OptionFlag in flags then OptionKey else 0)
    | (if CommandFlag in flags then CmdKey else 0)
  }

  /** `convertModifiers`: start from 0 and OR in the bit of each modifier flag present. */
  method ConvertModifiers(flags: set<ModifierFlag>) returns (mods: Modifiers)
    ensures mods == ModifierMask(flags)
    ensures ShiftFlag !in flags && ControlFlag !in flags && OptionFlag !in flags && CommandFlag !in flags ==> mods == 0
  {
    mods := 0;
    if ShiftFlag in flags { mods := mods | ShiftKey; }
    if ControlFlag in flags { mods := mods | ControlKey; }
    if OptionFlag in flags { mods := mods | OptionKey; }
    if CommandFlag in flags { mods := mods | CmdKey; }
  }

  /** The mask keeps the modifier flags apart: two events whose masks agree carry the same
      modifier flags. */
  lemma ModifierMaskInjective(f: set<ModifierFlag>, g: set<ModifierFlag>)
    requires ModifierMask(f) == ModifierMask(g)
    ensures f * {ShiftFlag, ControlFlag, OptionFlag, CommandFlag} == g * {ShiftFlag, ControlFlag, OptionFlag, CommandFlag}
  {
    var four := {ShiftFlag, ControlFlag, OptionFlag, CommandFlag};
    forall x | x in four ensures x in f <==> x in g {
    }
  }

  /** What the display shows for a recorded combination: a symbol exactly for each
      modifier flag held. */
  lemma RecordedSymbols(flags: set<ModifierFlag>)
    ensures Command in ModifierSymbols(ModifierMask(flags)) <==> CommandFlag in flags
    ensures Shift in ModifierSymbols(ModifierMask(flags)) <==> ShiftFlag in flags
    ensures Option in ModifierSymbols(ModifierMask(flags)) <==> OptionFlag in flags
    ensures Control in ModifierSymbols(ModifierMask(flags)) <==> ControlFlag in flags
  {
  }

  /** A recorded shortcut: what `onRecord` receives. */
  datatype Recorded = Recorded(keyCode: UInt32, modifiers: Modifiers)

  class RecordingNSView {
    var isRecording: bool
    /** Every call of `onRecord`, in order. */
    var recorded: seq<Recorded>

    constructor ()
      ensures !isRecording && recorded == []
    {
      isRecording := false;
      recorded := [];
    }

    /** `setRecording`. Becoming first responder is left out. */
    method SetRecording(recording: bool)
      modifies this
      ensures isRecording == recording && recorded == old(recorded)
    {
      isRecording := recording;
    }

    /** `keyDown`: ignored unless recording; otherwise `onRecord` gets the key code and the
        mask of the event's modifier flags. */
    method KeyDown(keyCode: UInt32, flags: set<ModifierFlag>)
      modifies this
      ensures isRecording == old(isRecording)
      ensures !old(isRecording) ==> recorded == old(recorded)
      ensures old(isRecording) ==> recorded == old(recorded) + [Recorded(keyCode, ModifierMask(flags))]
    {
      if !isRecording {
        return;
      }
      var mods := ConvertModifiers(flags);
      recorded := recorded + [Recorded(keyCode, mods)];
    }
  }

  /** `RecordingView`: its `onRecord` wrapper passes the press on and then clears the
      binding, which `updateNSView` forwards to the view. One press while recording is
      reported once and ends recording; a press while not recording changes nothing. */
  method RecordKeyPress(view: RecordingNSView, keyCode: UInt32, flags: set<ModifierFlag>)
    modifies view
    ensures !old(view.isRecording) ==> view.recorded == old(view.recorded) && !view.isRecording
    ensures old(view.isRecording) ==>
      view.recorded == old(view.recorded) + [Recorded(keyCode, ModifierMask(flags))] && !view.isRecording
  {
    var wasRecording := view.isRecording;
    view.KeyDown(keyCode, flags);
    if wasRecording {
      view.SetRecording(false);
    }
  }
}
