/** The quick-tweak HUD: the actions it offers (the enabled quick slots in number order, or
    four built-in defaults), how digit keys pick one either through a global event tap or
    through the HUD's own key view, and the presenter's window and focus bookkeeping.
    Choosing an action forwards its system prompt to `TweakService`'s quick-slot flow. */
module QuickTweakMenu {

  import opened Wrappers
  import opened ShortcutUtils
  import opened Settings

  datatype TweakAction = TweakAction(number: int, title: string, subtitle: string, systemPrompt: string)

  /** The built-in actions. */
  const DefaultActions: seq<TweakAction> := [
    TweakAction(1, "Rewrite for clarity", "Make it clear, concise, and natural",
      "You are an assistant that rewrites text for clarity. Keep the author’s intent. Use plain language and reduce redundancy."),
    TweakAction(2, "Summarize (bullets)", "3–5 bullets, key points only",
      "Summarize the text in 3–5 concise bullet points. Capture only the key ideas and facts."),
    TweakAction(3, "Shorten (~30%)", "Keep tone; cut fluff",
      "Shorten the text by ~30% while preserving meaning, voice, and critical details."),
    TweakAction(4, "Formalize", "Polite, professional tone",
      "Rewrite the text in a polite, professional tone suitable for business email. Avoid sounding stiff or robotic.")
  ]

  /** A slot's action: its number, title, subtitle and prompt. */
  function ActionOf(s: QuickTweakSlot): TweakAction {
    TweakAction(s.number, s.title, s.subtitle, s.systemPrompt)
  }

  function ActionsOf(slots: seq<QuickTweakSlot>): (r: seq<TweakAction>)
    ensures |r| == |slots| && forall k :: 0 <= k < |slots| ==> r[k] == ActionOf(slots[k])
  {
    seq(|slots|, k requires 0 <= k < |slots| => ActionOf(slots[k]))
  }

  /** The built-in actions are the default quick slots' actions, numbered 1 to 4. */
  lemma DefaultActionsMatchDefaultSlots()
    ensures DefaultActions == ActionsOf(DefaultQuickSlots)
    ensures |DefaultActions| == 4 && forall k :: 0 <= k < 4 ==> DefaultActions[k].number == k + 1
  {
  }

  /** The enabled slots, in their stored order. */
  function Enabled(slots: seq<QuickTweakSlot>): (r: seq<QuickTweakSlot>)
    ensures forall s :: s in r <==> s in slots && s.isEnabled
    ensures |r| <= |slots|
    decreases |slots|
  {
    if slots == [] then []
    else if slots[0].isEnabled then [slots[0]] + Enabled(slots[1..])
    else Enabled(slots[1..])
  }

  /** The actions of a list of slots are the actions of its members. */
  lemma ActionsOfMembers(slots: seq<QuickTweakSlot>)
    ensures forall a :: a in ActionsOf(slots) <==> exists s :: s in slots && a == ActionOf(s)
  {
    var r := ActionsOf(slots);
    forall a | a in r ensures exists s :: s in slots && a == ActionOf(s) {
      var k :| 0 <= k < |r| && r[k] == a;
      assert slots[k] in slots;
    }
    forall s | s in slots ensures ActionOf(s) in r {
      var k :| 0 <= k < |slots| && slots[k] == s;
      assert r[k] == ActionOf(s);
    }
  }

  /** Slots in number order give actions in number order. */
  lemma ActionsOfSorted(slots: seq<QuickTweakSlot>)
    requires SortedByNumber(slots)
    ensures forall i :: 0 <= i < |ActionsOf(slots)| - 1 ==> ActionsOf(slots)[i].number <= ActionsOf(slots)[i + 1].number
  {
  }

  /** The actions of joined lists are the joined actions. */
  lemma ActionsOfAppend(a: seq<QuickTweakSlot>, b: seq<QuickTweakSlot>)
    ensures ActionsOf(a + b) == ActionsOf(a) + ActionsOf(b)
  {
    var l, r := ActionsOf(a + b), ActionsOf(a) + ActionsOf(b);
    assert |l| == |r|;
    forall k | 0 <= k < |l| ensures l[k] == r[k] {
      if k < |a| { assert (a + b)[k] == a[k]; } else { assert (a + b)[k] == b[k - |a|]; }
    }
  }

  /** Rearranging the slots rearranges their actions the same way. */
  lemma {:induction false} ActionsOfPermutation(a: seq<QuickTweakSlot>, b: seq<QuickTweakSlot>)
    requires multiset(a) == multiset(b)
    ensures multiset(ActionsOf(a)) == multiset(ActionsOf(b))
    decreases |a|
  {
    if a == [] {
      assert |b| == |multiset(b)| == 0;
    } else {
      assert a[0] in multiset(a);
      var k :| 0 <= k < |b| && b[k] == a[0];
      var rest := b[..k] + b[k + 1..];
      assert a == [a[0]] + a[1..];
      assert b == b[..k] + [b[k]] + b[k + 1..];
      assert multiset(b) == multiset(b[..k]) + multiset{b[k]} + multiset(b[k + 1..]);
      assert multiset(a) == multiset{a[0]} + multiset(a[1..]);
      assert multiset(rest) == multiset(b[..k]) + multiset(b[k + 1..]);
      assert multiset(a[1..]) == multiset(a) - multiset{a[0]};
      assert multiset(rest) == multiset(b) - multiset{b[k]};
      ActionsOfPermutation(a[1..], rest);
      ActionsOfAppend([a[0]], a[1..]);
      ActionsOfAppend(b[..k] + [b[k]], b[k + 1..]);
      ActionsOfAppend(b[..k], [b[k]]);
      ActionsOfAppend(b[..k], b[k + 1..]);
    }
  }

  /** Sorting keeps exactly the same members. */
  lemma SortKeepsMembers(slots: seq<QuickTweakSlot>)
    ensures forall s :: s in SortByNumber(slots) <==> s in slots
  {
    var sorted := SortByNumber(slots);
    forall s ensures s in sorted <==> s in slots {
      assert s in sorted <==> s in multiset(sorted);
      assert s in slots <==> s in multiset(slots);
    }
  }

  /** `actionsFromSettings`: the enabled slots' actions in ascending number order, or the
      built-in actions when no slot is enabled. */
  function ActionsFromSettings(slots: seq<QuickTweakSlot>): (r: seq<TweakAction>)
    ensures r != []
    ensures Enabled(slots) == [] ==> r == DefaultActions
    ensures Enabled(slots) != [] ==>
      && |r| == |Enabled(slots)|
      && (forall i :: 0 <= i < |r| - 1 ==> r[i].number <= r[i + 1].number)
      && (forall a :: a in r <==> exists s :: s in slots && s.isEnabled && a == ActionOf(s))
      && multiset(r) == multiset(ActionsOf(Enabled(slots)))
  {
    var enabled := Enabled(slots);
    if enabled == [] then DefaultActions
    else
      var sorted := SortByNumber(enabled);
      SortKeepsMembers(enabled);
      ActionsOfMembers(sorted);
      ActionsOfSorted(sorted);
      ActionsOfPermutation(sorted, enabled);
      ActionsOf(sorted)
  }

  /** When every quick slot is enabled and already in number order, the HUD shows them as
      stored. */
  lemma AllEnabledSortedSlotsShowAsStored(slots: seq<QuickTweakSlot>)
    requires slots != [] && SortedByNumber(slots)
    requires forall k :: 0 <= k < |slots| ==> slots[k].isEnabled
    ensures ActionsFromSettings(slots) == ActionsOf(slots)
  {
    AllEnabledKept(slots);
    SortSortedIsIdentity(slots);
  }

  lemma {:induction false} AllEnabledKept(slots: seq<QuickTweakSlot>)
    requires forall k :: 0 <= k < |slots| ==> slots[k].isEnabled
    ensures Enabled(slots) == slots
    decreases |slots|
  {
    if slots != [] {
      AllEnabledKept(slots[1..]);
    }
  }

  lemma DefaultSlotsShowDefaultActions()
    ensures ActionsFromSettings(DefaultQuickSlots) == DefaultActions
  {
    DefaultQuickSlotsWellFormed();
    AllEnabledSortedSlotsShowAsStored(DefaultQuickSlots);
    DefaultActionsMatchDefaultSlots();
  }

  /** The first action with the number, if any. */
  function ActionFor(actions: seq<TweakAction>, number: int): (r: Option<TweakAction>)
    ensures r.None? <==> forall a :: a in actions ==> a.number != number
    ensures r.Some? ==> exists i :: (0 <= i < |actions| && actions[i] == r.value && r.value.number == number &&
      forall j :: 0 <= j < i ==> actions[j].number != number)
    decreases |actions|
  {
    if actions == [] then None
    else if actions[0].number == number then Some(actions[0])
    else
      var r := ActionFor(actions[1..], number);
      assert r.Some? ==> exists i :: (0 <= i < |actions| && actions[i] == r.value && r.value.number == number &&
        forall j :: 0 <= j < i ==> actions[j].number != number) by {
        if r.Some? {
          var i :| 0 <= i < |actions[1..]| && actions[1..][i] == r.value && r.value.number == number &&
            forall j :: 0 <= j < i ==> actions[1..][j].number != number;
          assert actions[i + 1] == r.value;
          assert forall j :: 0 <= j < i + 1 ==> actions[j].number != number by {
            forall j | 0 <= j < i + 1 ensures actions[j].number != number {
              if j > 0 {
                assert actions[j] == actions[1..][j - 1];
              }
            }
          }
        }
      }
      r
  }

  // =======================================================================================
  // Key handling

  /** The event tap's key-code switch: the ANSI digit keys 1–4 (18–21) and the keypad
      digits 1–4 (83–86) stand for 1–4; every other key stands for nothing. */
  function DigitForKeyCode(keyCode: int): (r: Option<int>)
    ensures r.Some? <==> (18 <= keyCode <= 21 || 83 <= keyCode <= 86)
    ensures r.Some? ==> 1 <= r.value <= 4
    ensures r.Some? ==> r.value == (if keyCode <= 21 then keyCode - 17 else keyCode - 82)
  {
    if 18 <= keyCode <= 21 then Some(keyCode - 17)
    else if 83 <= keyCode <= 86 then Some(keyCode - 82)
    else None
  }

  /** The tap agrees with the key names: an ANSI digit key's number is the digit its name
      shows, and each number 1–4 has exactly its ANSI key and its keypad key. */
  lemma DigitKeysAgree(keyCode: UInt32, n: int)
    requires 1 <= n <= 4
    ensures 18 <= keyCode <= 21 ==>
      DigitOf(keyCode) == Some(('0' as int + DigitForKeyCode(keyCode).value) as char)
    ensures DigitForKeyCode(keyCode) == Some(n) <==> keyCode == 17 + n || keyCode == 82 + n
  {
  }

  /** What the tap does with an event. */
  datatype TapVerdict = PassThrough | Consume(number: int)

  /** The tap callback: a key-down carrying the presenter and mapping to a digit is
      swallowed and that digit's action requested; anything else goes on to the app. */
  function TapDecision(isKeyDown: bool, hasUserInfo: bool, keyCode: int): (v: TapVerdict)
    ensures v.Consume? <==> isKeyDown && hasUserInfo && DigitForKeyCode(keyCode).Some?
    ensures v.Consume? ==> v.number == DigitForKeyCode(keyCode).value && 1 <= v.number <= 4
  {
    if !isKeyDown || !hasUserInfo then PassThrough
    else
      match DigitForKeyCode(keyCode)
      case None => PassThrough
      case Some(n) => Consume(n)
  }

  const Escape: char := '\U{1B}'

  /** What the HUD's own key view does with a keystroke. */
  datatype HudKey = Ignored | Highlighted(number: int) | Chosen(action: TweakAction) | Dismissed

  /** The key view's handler: a first character '1'–'4' highlights that number and chooses
      the first action with it, if there is one; Esc dismisses; anything else, or no
      characters, is ignored. */
  function HudKeyResponse(chars: Option<string>, actions: seq<TweakAction>): (r: HudKey)
    ensures r.Chosen? ==> (r.action in actions && chars.Some? && chars.value != [] &&
      '1' <= chars.value[0] <= '4' && r.action.number == chars.value[0] as int - '0' as int)
    ensures r.Highlighted? ==> (chars.Some? && chars.value != [] && '1' <= chars.value[0] <= '4' &&
      r.number == chars.value[0] as int - '0' as int && forall a :: a in actions ==> a.number != r.number)
    ensures r.Dismissed? <==> chars.Some? && chars.value != [] && chars.value[0] == Escape
    ensures r.Ignored? <==> (chars.None? || chars.value == [] ||
      (!('1' <= chars.value[0] <= '4') && chars.value[0] != Escape))
    ensures chars.Some? && chars.value != [] && '1' <= chars.value[0] <= '4' ==>
      (r.Chosen? <==> exists a :: a in actions && a.number == chars.value[0] as int - '0' as int)
  {
    if chars.None? || chars.value == [] then Ignored
    else
      var c := chars.value[0];
      if '1' <= c <= '4' then
        var n := c as int - '0' as int;
        match ActionFor(actions, n)
        case Some(a) => Chosen(a)
        case None => Highlighted(n)
      else if c == Escape then Dismissed
      else Ignored
  }

  // =======================================================================================
  // The presenter

  class QuickTweakMenuPresenter {
    /** Whether the HUD window is up (`hudWindow != nil`). */
    var hudVisible: bool
    var actions: seq<TweakAction>
    /** Whether the digit-interception tap is installed. */
    var tapInstalled: bool
    /** Whether a previous frontmost app is remembered. */
    var hasPreviousFrontApp: bool
    var activatedForKeyCapture: bool
    /** The system prompts handed to `TweakService`'s quick-slot flow, in order. */
    var requestedPrompts: seq<string>
    /** How many times focus was handed back to the previous app. */
    var focusRestores: nat

    /** While the HUD is up digits are captured in exactly one way, by the tap or by the
        activated HUD; while it is down nothing is held. */
    predicate Valid()
      reads this
    {
      && (hudVisible ==> tapInstalled != activatedForKeyCapture)
      && (!hudVisible ==> !tapInstalled && !activatedForKeyCapture && !hasPreviousFrontApp)
    }

    constructor ()
      ensures Valid()
      ensures !hudVisible && actions == DefaultActions && requestedPrompts == [] && focusRestores == 0
    {
      hudVisible := false;
      actions := DefaultActions;
      tapInstalled := false;
      hasPreviousFrontApp := false;
      activatedForKeyCapture := false;
      requestedPrompts := [];
      focusRestores := 0;
    }

    /** `close`: hide the window, remove the tap, hand focus back when the HUD took it, and
        forget the previous app. */
    method Close()
      modifies this
      ensures Valid()
      ensures !hudVisible && !tapInstalled && !hasPreviousFrontApp && !activatedForKeyCapture
      ensures focusRestores ==
        old(focusRestores) + (if old(activatedForKeyCapture) && old(hasPreviousFrontApp) then 1 else 0)
      ensures actions == old(actions) && requestedPrompts == old(requestedPrompts)
    {
      hudVisible := false;
      tapInstalled := false;
      if activatedForKeyCapture && hasPreviousFrontApp {
        focusRestores := focusRestores + 1;
      }
      hasPreviousFrontApp := false;
      activatedForKeyCapture := false;
    }

    /** `showCenteredHUD`: close any earlier HUD, refresh the actions from the quick slots,
        show the window, and capture digits with the tap when one can be created
        (`tapCreated`) and otherwise by activating the app. `frontmostApp` is whether some
        app was frontmost. */
    method ShowCenteredHUD(slots: seq<QuickTweakSlot>, frontmostApp: bool, tapCreated: bool)
      modifies this
      ensures Valid()
      ensures actions == ActionsFromSettings(slots)
      ensures hudVisible && tapInstalled == tapCreated && activatedForKeyCapture == !tapCreated
      ensures hasPreviousFrontApp == frontmostApp
      ensures focusRestores ==
        old(focusRestores) + (if old(activatedForKeyCapture) && old(hasPreviousFrontApp) then 1 else 0)
      ensures requestedPrompts == old(requestedPrompts)
    {
      Close();
      actions := ActionsFromSettings(slots);
      hudVisible := true;
      hasPreviousFrontApp := frontmostApp;
      tapInstalled := tapCreated;
      activatedForKeyCapture := !tapCreated;
    }

    /** `performAction(forNumber:)`: nothing when no action has the number; otherwise
        request a tweak with the first such action's prompt, then close. */
    method PerformAction(number: int)
      modifies this
      ensures ActionFor(old(actions), number).None? ==>
        && requestedPrompts == old(requestedPrompts) && hudVisible == old(hudVisible)
        && tapInstalled == old(tapInstalled) && activatedForKeyCapture == old(activatedForKeyCapture)
        && hasPreviousFrontApp == old(hasPreviousFrontApp) && focusRestores == old(focusRestores)
      ensures ActionFor(old(actions), number).Some? ==>
        && requestedPrompts == old(requestedPrompts) + [ActionFor(old(actions), number).value.systemPrompt]
        && Valid() && !hudVisible && !tapInstalled && !hasPreviousFrontApp && !activatedForKeyCapture
        && focusRestores ==
          old(focusRestores) + (if old(activatedForKeyCapture) && old(hasPreviousFrontApp) then 1 else 0)
      ensures actions == old(actions)
    {
      var action := ActionFor(actions, number);
      if action.None? {
        return;
      }
      requestedPrompts := requestedPrompts + [action.value.systemPrompt];
      Close();
    }

    /** A key event reaching the tap: a digit 1–4 key-down is swallowed and its action
        performed; every other event passes through untouched. */
    method HandleTapEvent(isKeyDown: bool, hasUserInfo: bool, keyCode: int) returns (consumed: bool)
      modifies this
      ensures consumed <==> isKeyDown && hasUserInfo && DigitForKeyCode(keyCode).Some?
      ensures !consumed ==>
        && requestedPrompts == old(requestedPrompts) && hudVisible == old(hudVisible)
        && tapInstalled == old(tapInstalled) && activatedForKeyCapture == old(activatedForKeyCapture)
        && hasPreviousFrontApp == old(hasPreviousFrontApp) && focusRestores == old(focusRestores)
      ensures consumed && ActionFor(old(actions), DigitForKeyCode(keyCode).value).None? ==>
        && requestedPrompts == old(requestedPrompts) && hudVisible == old(hudVisible)
        && tapInstalled == old(tapInstalled) && activatedForKeyCapture == old(activatedForKeyCapture)
        && hasPreviousFrontApp == old(hasPreviousFrontApp) && focusRestores == old(focusRestores)
      ensures consumed && ActionFor(old(actions), DigitForKeyCode(keyCode).value).Some? ==>
        && requestedPrompts ==
          old(requestedPrompts) + [ActionFor(old(actions), DigitForKeyCode(keyCode).value).value.systemPrompt]
        && Valid() && !hudVisible && !tapInstalled && !hasPreviousFrontApp && !activatedForKeyCapture
        && focusRestores ==
          old(focusRestores) + (if old(activatedForKeyCapture) && old(hasPreviousFrontApp) then 1 else 0)
      ensures actions == old(actions)
    {
      var verdict := TapDecision(isKeyDown, hasUserInfo, keyCode);
      if verdict.PassThrough? {
        return false;
      }
      PerformAction(verdict.number);
      consumed := true;
    }

    /** A keystroke in the HUD's own key view: a chosen action is performed, Esc closes the
        HUD, and anything else changes nothing here. */
    method HandleHudKey(chars: Option<string>)
      modifies this
      ensures HudKeyResponse(chars, old(actions)).Chosen? ==>
        && requestedPrompts == old(requestedPrompts) + [HudKeyResponse(chars, old(actions)).action.systemPrompt]
        && Valid() && !hudVisible && !tapInstalled && !hasPreviousFrontApp && !activatedForKeyCapture
        && focusRestores ==
          old(focusRestores) + (if old(activatedForKeyCapture) && old(hasPreviousFrontApp) then 1 else 0)
      ensures HudKeyResponse(chars, old(actions)).Dismissed? ==>
        && requestedPrompts == old(requestedPrompts)
        && Valid() && !hudVisible && !tapInstalled && !hasPreviousFrontApp && !activatedForKeyCapture
        && focusRestores ==
          old(focusRestores) + (if old(activatedForKeyCapture) && old(hasPreviousFrontApp) then 1 else 0)
      ensures (HudKeyResponse(chars, old(actions)).Ignored? || HudKeyResponse(chars, old(actions)).Highlighted?) ==>
        && requestedPrompts == old(requestedPrompts) && hudVisible == old(hudVisible)
        && tapInstalled == old(tapInstalled) && activatedForKeyCapture == old(activatedForKeyCapture)
        && hasPreviousFrontApp == old(hasPreviousFrontApp) && focusRestores == old(focusRestores)
      ensures actions == old(actions)
    {
      var response := HudKeyResponse(chars, actions);
      match response
      case Chosen(a) =>
        ChosenIsFound(chars, actions);
        PerformAction(a.number);
      case Dismissed =>
        Close();
      case _ =>
    }
  }

  /** The action the key view chooses is the one `performAction(forNumber:)` then finds. */
  lemma ChosenIsFound(chars: Option<string>, actions: seq<TweakAction>)
    requires HudKeyResponse(chars, actions).Chosen?
    ensures ActionFor(actions, HudKeyResponse(chars, actions).action.number) == Some(HudKeyResponse(chars, actions).action)
  {
  }
}
