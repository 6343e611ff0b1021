/** The accessibility-permission tracker: a status derived from whether the process is
    trusted and whether the app has asked before, re-checked by a repeating timer that
    runs slowly normally and quickly right after the user was sent to grant access. */
module PermissionManager {

  datatype AccessibilityStatus = Unknown | NotRequested | Denied | Granted

  /** The status's SF Symbol name. */
  function Icon(s: AccessibilityStatus): string {
    match s
    case Unknown => "questionmark.circle"
    case NotRequested => "exclamationmark.circle"
    case Denied => "xmark.circle"
    case Granted => "checkmark.circle.fill"
  }

  /** The status's display colour. */
  datatype StatusColor = Gray | Orange | Red | Green

  function ColorOf(s: AccessibilityStatus): StatusColor {
    match s
    case Unknown => Gray
    case NotRequested => Orange
    case Denied => Red
    case Granted => Green
  }

  /** The status's message. */
  function Message(s: AccessibilityStatus): string {
    match s
    case Unknown => "Checking permissions..."
    case NotRequested => "Accessibility permission required"
    case Denied => "Accessibility permission denied"
    case Granted => "Accessibility enabled"
  }

  /** Each status shows a different icon, colour and message, so the view tells them apart. */
  lemma PresentationDistinguishesStatus(s: AccessibilityStatus, t: AccessibilityStatus)
    requires s != t
    ensures Icon(s) != Icon(t) && ColorOf(s) != ColorOf(t) && Message(s) != Message(t)
  {
    assert |Icon(s)| != |Icon(t)|;
    assert |Message(s)| != |Message(t)|;
  }

  /** `checkStatus`'s verdict: granted when trusted; otherwise denied when the app has
      asked before and not-requested when it has not. */
  function StatusFor(trusted: bool, hasRequested: bool): (s: AccessibilityStatus)
    ensures s != Unknown
    ensures s == Granted <==> trusted
    ensures s == Denied <==> !trusted && hasRequested
    ensures s == NotRequested <==> !trusted && !hasRequested
  {
    if trusted then Granted else if hasRequested then Denied else NotRequested
  }

  /** Which timer is armed. */
  datatype Monitoring = Normal | Intensive

  /** The repeat interval of each timer, in milliseconds. */
  function IntervalMillis(m: Monitoring): nat {
    match m
    case Normal => 5000
    case Intensive => 500
  }

  const PrivacyAccessibilityUrl: string := "x-apple.systempreferences:com.apple.preference.security?Privacy_Accessibility"

  class PermissionManager {
    var accessibilityStatus: AccessibilityStatus
    var monitoring: Monitoring
    /** The persisted `HasRequestedAccessibility` flag. */
    var hasRequested: bool
    /** Times the system trust prompt was asked for. */
    var promptsRequested: nat
    /** URLs handed to the workspace to open. */
    var openedUrls: seq<string>

    /** Once constructed the status has always been checked. */
    predicate Valid()
      reads this
    {
      accessibilityStatus != Unknown
    }

    /** `init`: check once, then monitor at the normal rate. */
    constructor (trusted: bool, requestedBefore: bool)
      ensures Valid()
      ensures accessibilityStatus == StatusFor(trusted, requestedBefore)
      ensures monitoring == Normal && hasRequested == requestedBefore
      ensures promptsRequested == 0 && openedUrls == []
    {
      hasRequested := requestedBefore;
      accessibilityStatus := StatusFor(trusted, requestedBefore);
      monitoring := Normal;
      promptsRequested := 0;
      openedUrls := [];
    }

    /** `checkStatus`, with `AXIsProcessTrusted()`'s answer as `trusted`. */
    method CheckStatus(trusted: bool)
      modifies this
      ensures Valid()
      ensures accessibilityStatus == StatusFor(trusted, hasRequested)
      ensures hasRequested == old(hasRequested) && monitoring == old(monitoring)
      ensures promptsRequested == old(promptsRequested) && openedUrls == old(openedUrls)
    {
      if trusted {
        accessibilityStatus := Granted;
      } else {
        accessibilityStatus := if hasRequested then Denied else NotRequested;
      }
    }

    /** `requestPermission`: remember that the app asked, ask for the system prompt, and
        switch to intensive monitoring. */
    method RequestPermission()
      modifies this
      ensures hasRequested
      ensures promptsRequested == old(promptsRequested) + 1
      ensures monitoring == Intensive
      ensures accessibilityStatus == old(accessibilityStatus) && openedUrls == old(openedUrls)
    {
      hasRequested := true;
      promptsRequested := promptsRequested + 1;
      monitoring := Intensive;
    }

    /** `openSystemPreferences`: open the Privacy › Accessibility pane and switch to
        intensive monitoring. */
    method OpenSystemPreferences()
      modifies this
      ensures openedUrls == old(openedUrls) + [PrivacyAccessibilityUrl]
      ensures monitoring == Intensive
      ensures accessibilityStatus == old(accessibilityStatus) && hasRequested == old(hasRequested)
      ensures promptsRequested == old(promptsRequested)
    {
      openedUrls := openedUrls + [PrivacyAccessibilityUrl];
      monitoring := Intensive;
    }

    /** The normal timer fires: re-check. */
    method HandleNormalTimer(trusted: bool)
      modifies this
      ensures Valid()
      ensures accessibilityStatus == StatusFor(trusted, hasRequested)
      ensures monitoring == old(monitoring) && hasRequested == old(hasRequested)
      ensures promptsRequested == old(promptsRequested) && openedUrls == old(openedUrls)
    {
      CheckStatus(trusted);
    }

    /** The intensive timer fires: re-check, and drop back to the normal rate once access is
        granted. */
    method HandleIntensiveTimer(trusted: bool)
      modifies this
      ensures Valid()
      ensures accessibilityStatus == StatusFor(trusted, hasRequested)
      ensures monitoring == (if trusted then Normal else old(monitoring))
      ensures hasRequested == old(hasRequested)
      ensures promptsRequested == old(promptsRequested) && openedUrls == old(openedUrls)
    {
      CheckStatus(trusted);
      if accessibilityStatus == Granted {
        monitoring := Normal;
      }
    }
  }

  /** After the app has asked once, an untrusted check reports `denied`, never
      `notRequested`: the flag is never cleared. */
  method RequestThenCheck(m: PermissionManager, trusted: bool)
    modifies m
    ensures m.accessibilityStatus == (if trusted then Granted else Denied)
    ensures m.monitoring == (if trusted then Normal else Intensive)
  {
    m.RequestPermission();
    m.HandleIntensiveTimer(trusted);
  }
}
