/**
 * The length gate and success sequence of ModLockscreen.doQuickUnlock: a PIN
 * entry is checked as soon as it reaches the configured length, and a correct
 * one unlocks without the user confirming it.
 */
module QuickUnlock {
  import opened Wrappers

  /** The PIN length assumed when none is configured. */
  const DefaultPinLength := 4

  /**
   * How the background check ended: the password matched, it did not, or a
   * lookup or the password check itself threw.
   */
  datatype CheckResult = Matched | Mismatched | Failed

  /** The calls made on the security view's callback, in order. */
  datatype Callback =
    | ReportUnlockAttempt(userId: int, success: bool, timeoutMs: int)
    | Dismiss(authenticated: bool, targetUserId: int)

  /** What one call of doQuickUnlock leads to: whether a check was started, and the callbacks made. */
  datatype QuickUnlockRun = QuickUnlockRun(checkDispatched: bool, callbacks: seq<Callback>)

  /** The configured PIN length, DefaultPinLength when the preference is absent. */
  function PinLength(stored: Option<int>): (n: int)
    ensures stored.None? ==> n == DefaultPinLength
    ensures stored.Some? ==> n == stored.value
  {
    stored.GetOr(DefaultPinLength)
  }

  /** The callbacks a successful check posts back to the main thread. */
  function UnlockSequence(userId: int): seq<Callback>
  {
    [ReportUnlockAttempt(userId, true, 0), Dismiss(true, userId)]
  }

  /** The length Java's String.length() reports: UTF-16 code units, two for a character outside the Basic Multilingual Plane. */
  function Utf16Length(s: string): nat
  {
    if s == [] then 0 else Utf16Length(s[..|s| - 1]) + (if s[|s| - 1] as int >= 0x1_0000 then 2 else 1)
  }

  /** Every character takes one or two code units; an entry of BMP characters only (a PIN's digits) takes one each. */
  lemma {:induction false} Utf16LengthBounds(s: string)
    ensures |s| <= Utf16Length(s) <= 2 * |s|
    ensures (forall i :: 0 <= i < |s| ==> s[i] as int < 0x1_0000) ==> Utf16Length(s) == |s|
  {
    if s != [] {
      Utf16LengthBounds(s[..|s| - 1]);
    }
  }

  /**
   * doQuickUnlock for an `entry` against the configured `pinLength`, for the
   * current user `userId`, whose background check ends as `check`.
   */
  function DoQuickUnlock(entry: string, pinLength: int, userId: int, check: CheckResult): (r: QuickUnlockRun)
    ensures r.checkDispatched <==> Utf16Length(entry) == pinLength
    ensures r.callbacks != [] <==> Utf16Length(entry) == pinLength && check == Matched
    ensures r.callbacks != [] ==> r.callbacks == UnlockSequence(userId)
  {
    if Utf16Length(entry) != pinLength then QuickUnlockRun(false, [])
    else if check == Matched then QuickUnlockRun(true, UnlockSequence(userId))
    else QuickUnlockRun(true, [])
  }

  /** A successful quick unlock reports the attempt before it dismisses, and dismisses exactly once. */
  lemma ReportBeforeDismiss(entry: string, pinLength: int, userId: int, check: CheckResult)
    requires DoQuickUnlock(entry, pinLength, userId, check).callbacks != []
    ensures var cs := DoQuickUnlock(entry, pinLength, userId, check).callbacks;
            && |cs| == 2 && cs[0].ReportUnlockAttempt? && cs[0].success
            && cs[1].Dismiss? && cs[1].authenticated && cs[1].targetUserId == cs[0].userId
  {
  }

  /**
   * With no configured length only entries of four UTF-16 code units are
   * checked: four digits are, and so are two characters outside the BMP.
   */
  lemma DefaultLengthGate(entry: string, userId: int, check: CheckResult)
    ensures DoQuickUnlock(entry, PinLength(None), userId, check).checkDispatched <==> Utf16Length(entry) == 4
    ensures DoQuickUnlock("1234", PinLength(None), userId, check).checkDispatched
    ensures DoQuickUnlock("\U{1F600}\U{1F600}", PinLength(None), userId, check).checkDispatched
  {
    Utf16LengthBounds("1234");
    assert "\U{1F600}\U{1F600}"[..1] == "\U{1F600}";
  }
}
