/**
 * The notification-policy gate of direct and smart unlock: an automatic unlock
 * may be vetoed by the notifications currently shown on the keyguard.
 * Models ModLockscreen.canTriggerUnlock.
 */
module UnlockPolicy {
  import opened Wrappers

  /** How direct unlock acts when the keyguard is not trust-managed. */
  datatype DirectUnlock = Off | Standard | SeeThrough

  /** Which notifications veto an automatic unlock. */
  datatype Policy = Default | NotifNone | NotifOngoing

  /**
   * One child view of the notification stack scroller: whether it is VISIBLE,
   * whether its class is ExpandableNotificationRow, and what its entry answers
   * to isClearable (None when looking up the entry or calling isClearable throws).
   */
  datatype StackChild = StackChild(visible: bool, isNotifRow: bool, clearable: Option<bool>)

  /** The status bar's stack scroller, or Unavailable when reading it throws. */
  datatype NotificationStack = Unavailable | Stack(children: seq<StackChild>)

  /** A child the loop counts as a notification: visible and a notification row. */
  predicate Counted(c: StackChild)
  {
    c.visible && c.isNotifRow
  }

  /** A counted child whose clearable flag cannot be read. */
  predicate ProbeFails(c: StackChild)
  {
    Counted(c) && c.clearable.None?
  }

  /** A counted child the user can dismiss. */
  predicate CountedClearable(c: StackChild)
  {
    Counted(c) && c.clearable == Some(true)
  }

  /** Number of counted children (notifCount at the end of the loop). */
  function CountRows(cs: seq<StackChild>): nat
  {
    if cs == [] then 0
    else CountRows(cs[..|cs| - 1]) + (if Counted(cs[|cs| - 1]) then 1 else 0)
  }

  /** Number of counted, clearable children (notifClearableCount at the end of the loop). */
  function CountClearable(cs: seq<StackChild>): nat
  {
    if cs == [] then 0
    else CountClearable(cs[..|cs| - 1]) + (if CountedClearable(cs[|cs| - 1]) then 1 else 0)
  }

  /**
   * Reference definition of the gate: DEFAULT always permits; any failure to
   * read the stack permits (fail-open); NOTIF_NONE permits iff no visible
   * notification row is shown; NOTIF_ONGOING permits iff none of them is clearable.
   */
  predicate Permits(policy: Policy, stack: NotificationStack)
  {
    if policy == Default then true
    else
      match stack
      case Unavailable => true
      case Stack(cs) =>
        || (exists i :: 0 <= i < |cs| && ProbeFails(cs[i]))
        || (policy == NotifNone && forall i :: 0 <= i < |cs| ==> !Counted(cs[i]))
        || (policy == NotifOngoing && forall i :: 0 <= i < |cs| ==> !CountedClearable(cs[i]))
  }

  /** canTriggerUnlock: walks the stack once, counting rows and clearable rows. */
  method CanTriggerUnlock(policy: Policy, stack: NotificationStack) returns (permit: bool)
    ensures permit == Permits(policy, stack)
    ensures policy != Default && stack.Stack? && !(exists i :: 0 <= i < |stack.children| && ProbeFails(stack.children[i]))
            ==> permit == if policy == NotifNone then CountRows(stack.children) == 0
                          else CountClearable(stack.children) == 0
  {
    if policy == Default {
      return true;
    }
    if stack.Unavailable? {
      // reading mStackScroller threw
      return true;
    }
    var cs := stack.children;
    var notifCount, notifClearableCount := 0, 0;
    for i := 0 to |cs|
      invariant notifCount == CountRows(cs[..i])
      invariant notifClearableCount == CountClearable(cs[..i])
      invariant forall j :: 0 <= j < i ==> !ProbeFails(cs[j])
    {
      assert cs[..i + 1][..i] == cs[..i];
      var v := cs[i];
      if !v.visible || !v.isNotifRow {
        continue;
      }
      notifCount := notifCount + 1;
      match v.clearable
      case None =>
        // the exception handler: fail open
        assert ProbeFails(cs[i]);
        return true;
      case Some(clearable) =>
        if clearable {
          notifClearableCount := notifClearableCount + 1;
        }
    }
    assert cs[..|cs|] == cs;
    CountRowsZero(cs);
    CountClearableZero(cs);
    permit := if policy == NotifNone then notifCount == 0 else notifClearableCount == 0;
  }

  /** The count the loop takes is zero exactly when no child is a visible notification row. */
  lemma {:induction false} CountRowsZero(cs: seq<StackChild>)
    ensures CountRows(cs) == 0 <==> forall i :: 0 <= i < |cs| ==> !Counted(cs[i])
  {
    if cs != [] {
      var init := cs[..|cs| - 1];
      CountRowsZero(init);
      assert forall i :: 0 <= i < |init| ==> init[i] == cs[i];
    }
  }

  /** The clearable count is zero exactly when no visible notification row is clearable. */
  lemma {:induction false} CountClearableZero(cs: seq<StackChild>)
    ensures CountClearable(cs) == 0 <==> forall i :: 0 <= i < |cs| ==> !CountedClearable(cs[i])
  {
    if cs != [] {
      var init := cs[..|cs| - 1];
      CountClearableZero(init);
      assert forall i :: 0 <= i < |init| ==> init[i] == cs[i];
    }
  }

  /** The clearable rows are a subset of the counted rows. */
  lemma {:induction false} ClearableAtMostRows(cs: seq<StackChild>)
    ensures CountClearable(cs) <= CountRows(cs)
  {
    if cs != [] {
      ClearableAtMostRows(cs[..|cs| - 1]);
    }
  }

  /** DEFAULT never looks at the stack, and a stack that cannot be read always permits. */
  lemma FailOpen(policy: Policy, stack: NotificationStack)
    ensures Permits(Default, stack)
    ensures stack.Unavailable? ==> Permits(policy, stack)
    ensures stack.Stack? && (exists i :: 0 <= i < |stack.children| && ProbeFails(stack.children[i]))
            ==> Permits(policy, stack)
  {
  }

  /** Whatever stops NOTIF_ONGOING also stops NOTIF_NONE: NOTIF_NONE is the stricter policy. */
  lemma NoneImpliesOngoing(stack: NotificationStack)
    ensures Permits(NotifNone, stack) ==> Permits(NotifOngoing, stack)
  {
  }

  /** Ongoing (non-clearable) rows never block NOTIF_ONGOING, but any row blocks NOTIF_NONE. */
  lemma OngoingRowsOnly(cs: seq<StackChild>)
    requires forall i :: 0 <= i < |cs| ==> Counted(cs[i]) && cs[i].clearable == Some(false)
    ensures Permits(NotifOngoing, Stack(cs))
    ensures Permits(NotifNone, Stack(cs)) <==> cs == []
  {
    if cs != [] {
      assert Counted(cs[0]);
    }
  }
}
