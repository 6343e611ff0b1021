/** The hotkey feedback overlay's state: a press counter, whether the overlay is showing,
    and a reference count of tweaks in flight that keeps the loading indicator up. */
module HotkeyFeedback {

  class HotkeyFeedbackManager {
    var hotkeyPressCount: int
    var showingFeedback: bool
    var isLoading: bool
    var activeLoadingCount: int
    /** Whether a hide timer is pending. */
    var hideScheduled: bool

    /** The loading flag mirrors the reference count, which never goes negative. */
    predicate Valid()
      reads this
    {
      activeLoadingCount >= 0 && (isLoading <==> activeLoadingCount > 0)
    }

    constructor ()
      ensures Valid()
      ensures hotkeyPressCount == 0 && !showingFeedback && !isLoading && activeLoadingCount == 0 && !hideScheduled
    {
      hotkeyPressCount := 0;
      showingFeedback := false;
      isLoading := false;
      activeLoadingCount := 0;
      hideScheduled := false;
    }

    /** `hotkeyTriggered`: count the press, show the overlay, and (re)arm the hide timer. */
    method HotkeyTriggered()
      requires Valid()
      modifies this
      ensures Valid()
      ensures hotkeyPressCount == old(hotkeyPressCount) + 1
      ensures showingFeedback && hideScheduled
      ensures isLoading == old(isLoading) && activeLoadingCount == old(activeLoadingCount)
    {
      hotkeyPressCount := hotkeyPressCount + 1;
      showingFeedback := true;
      hideScheduled := true;
    }

    /** `beginLoading`: one more tweak in flight; the overlay shows and stays up. */
    method BeginLoading()
      requires Valid()
      modifies this
      ensures Valid()
      ensures activeLoadingCount == old(activeLoadingCount) + 1
      ensures isLoading && showingFeedback && !hideScheduled
      ensures hotkeyPressCount == old(hotkeyPressCount)
    {
      activeLoadingCount := activeLoadingCount + 1;
      if !showingFeedback {
        showingFeedback := true;
      }
      hideScheduled := false;
      isLoading := true;
    }

    /** `endLoading`: nothing when no tweak is in flight; otherwise one fewer, and when the
        last one ends the indicator clears and a hide is scheduled. */
    method EndLoading()
      requires Valid()
      modifies this
      ensures Valid()
      ensures old(activeLoadingCount) == 0 ==>
        activeLoadingCount == 0 && isLoading == old(isLoading) && hideScheduled == old(hideScheduled)
      ensures old(activeLoadingCount) > 0 ==> activeLoadingCount == old(activeLoadingCount) - 1
      ensures old(activeLoadingCount) > 0 ==> (hideScheduled <==> activeLoadingCount == 0 || old(hideScheduled))
      ensures showingFeedback == old(showingFeedback) && hotkeyPressCount == old(hotkeyPressCount)
    {
      if activeLoadingCount <= 0 {
        return;
      }
      activeLoadingCount := activeLoadingCount - 1;
      if activeLoadingCount == 0 {
        isLoading := false;
        hideScheduled := true;
      }
    }

    /** `handleHideTimer`: the overlay hides. */
    method HandleHideTimer()
      requires Valid()
      modifies this
      ensures Valid()
      ensures !showingFeedback && !hideScheduled
      ensures isLoading == old(isLoading) && activeLoadingCount == old(activeLoadingCount)
      ensures hotkeyPressCount == old(hotkeyPressCount)
    {
      showingFeedback := false;
      hideScheduled := false;
    }
  }

  /** A call sequence on the manager. */
  datatype Call = Begin | End

  /** The reference count after a sequence of calls from `count`: an `End` at zero is
      ignored. */
  function CountAfter(count: nat, calls: seq<Call>): nat
    decreases |calls|
  {
    if calls == [] then count
    else if calls[0] == Begin then CountAfter(count + 1, calls[1..])
    else CountAfter(if count == 0 then 0 else count - 1, calls[1..])
  }

  /** Running a call sequence on the manager tracks `CountAfter`, and the loading flag is
      up exactly while the count is positive. */
  method RunCalls(m: HotkeyFeedbackManager, calls: seq<Call>)
    requires m.Valid()
    modifies m
    ensures m.Valid()
    ensures m.activeLoadingCount == CountAfter(old(m.activeLoadingCount), calls)
    ensures m.isLoading <==> m.activeLoadingCount > 0
  {
    var i := 0;
    while i < |calls|
      invariant 0 <= i <= |calls|
      invariant m.Valid()
      invariant CountAfter(m.activeLoadingCount, calls[i..]) == CountAfter(old(m.activeLoadingCount), calls)
    {
      assert calls[i..][1..] == calls[i + 1..];
      if calls[i] == Begin {
        m.BeginLoading();
      } else {
        m.EndLoading();
      }
      i := i + 1;
    }
  }

  /** Balanced use keeps the count: `n` begins followed by `n` ends return it to where it
      started. */
  lemma BalancedCallsRestoreCount(count: nat, n: nat)
    ensures CountAfter(count, Repeat(Begin, n) + Repeat(End, n)) == count
  {
    BeginsAdd(count, n, Repeat(End, n));
    EndsSubtract(count + n, n);
  }

  /** `n` leading begins raise the count by `n`. */
  lemma {:induction false} BeginsAdd(count: nat, n: nat, rest: seq<Call>)
    ensures CountAfter(count, Repeat(Begin, n) + rest) == CountAfter(count + n, rest)
    decreases n
  {
    if n > 0 {
      var calls := Repeat(Begin, n) + rest;
      assert calls[0] == Begin;
      assert calls[1..] == Repeat(Begin, n - 1) + rest;
      assert CountAfter(count, calls) == CountAfter(count + 1, calls[1..]);
      BeginsAdd(count + 1, n - 1, rest);
    } else {
      assert Repeat(Begin, n) + rest == rest;
    }
  }

  /** `n` ends lower a count of at least `n` by `n`. */
  lemma {:induction false} EndsSubtract(count: nat, n: nat)
    requires n <= count
    ensures CountAfter(count, Repeat(End, n)) == count - n
    decreases n
  {
    if n > 0 {
      assert Repeat(End, n)[1..] == Repeat(End, n - 1);
      EndsSubtract(count - 1, n - 1);
    }
  }

  function Repeat(c: Call, n: nat): (r: seq<Call>)
    ensures |r| == n && forall k :: 0 <= k < n ==> r[k] == c
  {
    if n == 0 then [] else [c] + Repeat(c, n - 1)
  }
}
