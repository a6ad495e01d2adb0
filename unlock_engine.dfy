/**
 * The direct/smart unlock decision engine of ModLockscreen as values: the
 * cached preferences, the handler's queue, the keyguard-state listener's
 * registration and the log of unlock actions taken, with one step function
 * per hook. The class in Lockscreen performs these steps in place.
 */
module UnlockEngine {
  import opened Wrappers
  import opened UnlockPolicy
  import opened MessageQueue

  /** Delay of the direct-unlock message posted on wake-up. */
  const DirectUnlockDelay: nat := 300
  /** Delay of the smart-unlock message posted on wake-up while already insecure. */
  const SmartUnlockDelay: nat := 1000

  /** The three unlock actions: KeyguardMonitor.dismissKeyguard, showBouncer, makeExpandedInvisible. */
  datatype Action = DismissKeyguard | ShowBouncer | MakeExpandedInvisible

  /** The unlock preferences, as reloaded on each sleep (mDirectUnlock ... mSmartUnlockPolicy). */
  datatype UnlockPrefs = UnlockPrefs(directUnlock: DirectUnlock, directPolicy: Policy,
                                     smartUnlock: bool, smartPolicy: Policy)

  /** What the keyguard monitor answers at the moment of an event. */
  datatype KeyguardState = KeyguardState(secured: bool, trustManaged: bool, locked: bool, showing: bool)

  /**
   * The engine's state: the cached preferences, the handler's pending messages
   * (None until the first sleep creates the handler), whether the keyguard-state
   * listener is registered, and every unlock action taken so far.
   */
  datatype EngineState = EngineState(prefs: UnlockPrefs, handler: Option<seq<Message>>,
                                     listenerRegistered: bool, actions: seq<Action>)

  /** The listener is only ever registered once the handler exists. */
  predicate Valid(s: EngineState)
  {
    s.listenerRegistered ==> s.handler.Some?
  }

  /** The static fields' initial values; mSmartUnlockPolicy starts as null, which no path reads while mSmartUnlock is false. */
  function Initial(): (s: EngineState)
    ensures Valid(s) && s.handler.None? && !s.listenerRegistered && s.actions == []
  {
    EngineState(UnlockPrefs(Off, Default, false, Default), None, false, [])
  }

  /** Pending messages of a state, empty before the handler exists. */
  function Queue(s: EngineState): seq<Message>
  {
    s.handler.GetOr([])
  }

  /** onFinishedGoingToSleep: unregister the listener, reload the preferences, create the handler or clear it. */
  function GoingToSleep(s: EngineState, prefs: UnlockPrefs): EngineState
  {
    var q := match s.handler
             case None => []
             case Some(q) => Without(Without(q, MsgDirectUnlock), MsgSmartUnlock);
    EngineState(prefs, Some(q), false, s.actions)
  }

  /** Posts `m` on the handler. */
  function Post(s: EngineState, m: Message): (r: EngineState)
    requires s.handler.Some?
  {
    s.(handler := Some(s.handler.value + [m]))
  }

  /** onStartedWakingUp: arm DIRECT, or register the listener and possibly arm SMART. */
  function WakingUp(s: EngineState, kg: KeyguardState): EngineState
  {
    if !kg.secured || s.handler.None? then s
    else if !kg.trustManaged then
      if s.prefs.directUnlock != Off then Post(s, Message(MsgDirectUnlock, DirectUnlockDelay)) else s
    else if s.prefs.smartUnlock then
      var registered := s.(listenerRegistered := true);
      if !kg.locked then Post(registered, Message(MsgSmartUnlock, SmartUnlockDelay)) else registered
    else s
  }

  /** mKgStateListener.onKeyguardStateChanged, called only while the listener is registered. */
  function StateChanged(s: EngineState, kg: KeyguardState): EngineState
    requires Valid(s) && s.listenerRegistered
  {
    var q := s.handler.value;
    var q' := if kg.trustManaged && !kg.locked then
                (if !Has(q, MsgSmartUnlock) then q + [Message(MsgSmartUnlock, 0)] else q)
              else if Has(q, MsgSmartUnlock) then Without(q, MsgSmartUnlock)
              else q;
    s.(handler := Some(q'), listenerRegistered := !kg.showing)
  }

  /** canTriggerDirectUnlock. */
  predicate CanTriggerDirect(prefs: UnlockPrefs, stack: NotificationStack)
  {
    prefs.directUnlock != Off && Permits(prefs.directPolicy, stack)
  }

  /** canTriggerSmartUnlock. */
  predicate CanTriggerSmart(prefs: UnlockPrefs, stack: NotificationStack)
  {
    prefs.smartUnlock && Permits(prefs.smartPolicy, stack)
  }

  /** UnlockHandler.handleMessage: the actions taken for a delivered message. */
  function Reaction(prefs: UnlockPrefs, what: Kind, stack: NotificationStack): seq<Action>
  {
    match what
    case MsgSmartUnlock =>
      if CanTriggerSmart(prefs, stack) then [DismissKeyguard] else []
    case MsgDirectUnlock =>
      if CanTriggerDirect(prefs, stack) then
        [if prefs.directUnlock == SeeThrough then ShowBouncer else MakeExpandedInvisible]
      else []
  }

  /** The looper delivers the pending message at `i`; the handler reacts to it. */
  function Deliver(s: EngineState, i: nat, stack: NotificationStack): EngineState
    requires s.handler.Some? && i < |s.handler.value|
  {
    var q := s.handler.value;
    s.(handler := Some(RemoveAt(q, i)), actions := s.actions + Reaction(s.prefs, q[i].what, stack))
  }

  /** Events the engine reacts to; stale events (an unregistered listener, no such message) are ignored. */
  datatype Event =
    | Sleep(prefs: UnlockPrefs)
    | Wake(kg: KeyguardState)
    | KeyguardChanged(kg: KeyguardState)
    | Fire(index: nat, stack: NotificationStack)

  /** One event; every step keeps Valid. */
  function Step(s: EngineState, e: Event): (r: EngineState)
    requires Valid(s)
    ensures Valid(r)
  {
    match e
    case Sleep(p) => GoingToSleep(s, p)
    case Wake(kg) => WakingUp(s, kg)
    case KeyguardChanged(kg) => if s.listenerRegistered then StateChanged(s, kg) else s
    case Fire(i, stack) => if s.handler.Some? && i < |s.handler.value| then Deliver(s, i, stack) else s
  }

  /** A sequence of events, in arrival order. */
  function Run(s: EngineState, events: seq<Event>): (r: EngineState)
    requires Valid(s)
    ensures Valid(r)
    decreases |events|
  {
    if events == [] then s else Run(Step(s, events[0]), events[1..])
  }

  /** At most one pending message of each kind. */
  predicate SingleArmed(s: EngineState)
  {
    CountOf(Queue(s), MsgDirectUnlock) <= 1 && CountOf(Queue(s), MsgSmartUnlock) <= 1
  }

  /**
   * DIRECT and SMART exclude each other: while a DIRECT is pending there is no
   * SMART and no registered listener that could post one.
   */
  predicate Exclusive(s: EngineState)
  {
    CountOf(Queue(s), MsgDirectUnlock) == 0
    || (CountOf(Queue(s), MsgSmartUnlock) == 0 && !s.listenerRegistered)
  }

  // ---------------------------------------------------------------------------
  // Handling a message

  /** handleMessage takes at most one action, and exactly the one the kind and the cached mode call for. */
  lemma ReactionIsOneAction(prefs: UnlockPrefs, what: Kind, stack: NotificationStack)
    ensures |Reaction(prefs, what, stack)| <= 1
    ensures Reaction(prefs, what, stack) == [DismissKeyguard]
            <==> what == MsgSmartUnlock && prefs.smartUnlock && Permits(prefs.smartPolicy, stack)
    ensures Reaction(prefs, what, stack) == [ShowBouncer]
            <==> what == MsgDirectUnlock && prefs.directUnlock == SeeThrough && Permits(prefs.directPolicy, stack)
    ensures Reaction(prefs, what, stack) == [MakeExpandedInvisible]
            <==> what == MsgDirectUnlock && prefs.directUnlock == Standard && Permits(prefs.directPolicy, stack)
  {
  }

  /**
   * Delivering a message consumes exactly that message and never re-posts it,
   * appends at most one action and leaves the preferences and the listener alone.
   */
  lemma DeliverConsumes(s: EngineState, i: nat, stack: NotificationStack)
    requires s.handler.Some? && i < |s.handler.value|
    ensures var r := Deliver(s, i, stack);
            && r.prefs == s.prefs && r.listenerRegistered == s.listenerRegistered
            && multiset(Queue(r)) + multiset{s.handler.value[i]} == multiset(Queue(s))
            && |r.actions| <= |s.actions| + 1 && r.actions[..|s.actions|] == s.actions
            && (Reaction(s.prefs, s.handler.value[i].what, stack) == [] ==> r.actions == s.actions)
  {
  }

  // ---------------------------------------------------------------------------
  // Going to sleep

  /**
   * After going to sleep the listener is unregistered, the preferences are the
   * reloaded ones, the handler exists and holds no DIRECT and no SMART message,
   * and no action was taken.
   */
  lemma {:induction false} SleepDisarms(s: EngineState, prefs: UnlockPrefs)
    ensures var r := GoingToSleep(s, prefs);
            && !r.listenerRegistered && r.prefs == prefs && r.handler.Some?
            && !Has(r.handler.value, MsgDirectUnlock) && !Has(r.handler.value, MsgSmartUnlock)
            && r.handler.value == []
            && r.actions == s.actions
  {
    var r := GoingToSleep(s, prefs);
    if s.handler.Some? {
      var q := s.handler.value;
      WithoutCounts(q, MsgDirectUnlock);
      WithoutKeepsOthers(Without(q, MsgDirectUnlock), MsgSmartUnlock, MsgDirectUnlock);
      WithoutCounts(Without(q, MsgDirectUnlock), MsgSmartUnlock);
      // what is left counts no DIRECT and no SMART, and there is no third kind
      if r.handler.value != [] {
        assert false;
      }
    }
  }

  // ---------------------------------------------------------------------------
  // Waking up

  /**
   * Waking up: nothing happens unless the keyguard is secured and the handler
   * exists; without trust management DIRECT is posted at 300 exactly when the
   * mode is not OFF; with trust management and smart unlock the listener is
   * registered and SMART is posted at 1000 only when not locked. Actions and
   * preferences are untouched.
   */
  lemma WakeArming(s: EngineState, kg: KeyguardState)
    ensures var r := WakingUp(s, kg);
            && r.prefs == s.prefs && r.actions == s.actions
            && r.handler.Some? == s.handler.Some?
            && (!kg.secured || s.handler.None? ==> r == s)
            && (r.listenerRegistered <==>
                  (s.listenerRegistered || (kg.secured && s.handler.Some? && kg.trustManaged && s.prefs.smartUnlock)))
            && (s.handler.Some? ==>
                  && (r.handler.value == s.handler.value + [Message(MsgDirectUnlock, DirectUnlockDelay)]
                      <==> kg.secured && !kg.trustManaged && s.prefs.directUnlock != Off)
                  && (r.handler.value == s.handler.value + [Message(MsgSmartUnlock, SmartUnlockDelay)]
                      <==> kg.secured && kg.trustManaged && s.prefs.smartUnlock && !kg.locked)
                  && (r.handler.value == s.handler.value
                      <==> !kg.secured || (!kg.trustManaged && s.prefs.directUnlock == Off)
                           || (kg.trustManaged && (!s.prefs.smartUnlock || kg.locked))))
  {
    if s.handler.Some? {
      var q := s.handler.value;
      var direct, smart := q + [Message(MsgDirectUnlock, DirectUnlockDelay)], q + [Message(MsgSmartUnlock, SmartUnlockDelay)];
      assert |direct| != |q| && |smart| != |q|;
      assert direct[|q|] != smart[|q|];
    }
  }

  /** A single wake never posts both kinds: it adds at most one message in all. */
  lemma {:induction false} WakeNeverBoth(s: EngineState, kg: KeyguardState)
    ensures var r := WakingUp(s, kg);
            CountOf(Queue(r), MsgDirectUnlock) + CountOf(Queue(r), MsgSmartUnlock)
            <= CountOf(Queue(s), MsgDirectUnlock) + CountOf(Queue(s), MsgSmartUnlock) + 1
  {
    var r := WakingUp(s, kg);
    if Queue(r) != Queue(s) {
      var m := Queue(r)[|Queue(r)| - 1];
      assert Queue(r) == Queue(s) + [m];
      CountAppend(Queue(s), m, MsgDirectUnlock);
      CountAppend(Queue(s), m, MsgSmartUnlock);
    }
  }

  // ---------------------------------------------------------------------------
  // Keyguard state changes

  /**
   * The keyguard-state listener: when trust-managed and insecure it leaves a
   * pending SMART alone or posts one with delay 0, so it never creates a second
   * pending SMART, and a pending one keeps its delay; otherwise it removes
   * every pending SMART and keeps the rest of the queue in order. DIRECT
   * messages, actions and preferences are untouched; the listener stays
   * registered iff the keyguard is not showing.
   */
  lemma {:induction false} StateChangedSmart(s: EngineState, kg: KeyguardState)
    requires Valid(s) && s.listenerRegistered
    ensures var r := StateChanged(s, kg);
            && r.prefs == s.prefs && r.actions == s.actions && r.handler.Some?
            && (r.listenerRegistered <==> !kg.showing)
            && CountOf(Queue(r), MsgDirectUnlock) == CountOf(Queue(s), MsgDirectUnlock)
            && CountOf(Queue(r), MsgSmartUnlock)
               == (if kg.trustManaged && !kg.locked then
                     (if CountOf(Queue(s), MsgSmartUnlock) == 0 then 1 else CountOf(Queue(s), MsgSmartUnlock))
                   else 0)
            && (kg.trustManaged && !kg.locked && !Has(Queue(s), MsgSmartUnlock)
                ==> Queue(r) == Queue(s) + [Message(MsgSmartUnlock, 0)])
            && (kg.trustManaged && !kg.locked && Has(Queue(s), MsgSmartUnlock)
                ==> Queue(r) == Queue(s))
            && (!(kg.trustManaged && !kg.locked) ==> Queue(r) == Without(Queue(s), MsgSmartUnlock))
  {
    var q := s.handler.value;
    CountPositive(q, MsgSmartUnlock);
    if kg.trustManaged && !kg.locked {
      CountAppend(q, Message(MsgSmartUnlock, 0), MsgDirectUnlock);
      CountAppend(q, Message(MsgSmartUnlock, 0), MsgSmartUnlock);
    } else if Has(q, MsgSmartUnlock) {
      WithoutRemovesAll(q, MsgSmartUnlock);
      WithoutKeepsOthers(q, MsgSmartUnlock, MsgDirectUnlock);
    } else {
      WithoutAbsent(q, MsgSmartUnlock);
    }
  }

  // ---------------------------------------------------------------------------
  // What the code guarantees about pending messages

  /** Sleeping establishes SingleArmed, and a wake right after a sleep keeps it. */
  lemma {:induction false} WakeAfterSleepSingleArmed(s: EngineState, prefs: UnlockPrefs, kg: KeyguardState)
    ensures SingleArmed(GoingToSleep(s, prefs))
    ensures SingleArmed(WakingUp(GoingToSleep(s, prefs), kg))
  {
    var slept := GoingToSleep(s, prefs);
    SleepDisarms(s, prefs);
    var r := WakingUp(slept, kg);
    if Queue(r) != [] {
      assert Queue(r) == [] + [Queue(r)[0]];
      CountAppend([], Queue(r)[0], MsgDirectUnlock);
      CountAppend([], Queue(r)[0], MsgSmartUnlock);
    }
  }

  /** Listener callbacks and message deliveries keep SingleArmed. */
  lemma {:induction false} CycleStepKeepsSingleArmed(s: EngineState, e: Event)
    requires Valid(s) && SingleArmed(s)
    requires e.KeyguardChanged? || e.Fire?
    ensures SingleArmed(Step(s, e))
  {
    match e
    case KeyguardChanged(kg) =>
      if s.listenerRegistered {
        StateChangedSmart(s, kg);
      }
    case Fire(i, stack) =>
      if s.handler.Some? && i < |s.handler.value| {
        CountRemoveAt(s.handler.value, i, MsgDirectUnlock);
        CountRemoveAt(s.handler.value, i, MsgSmartUnlock);
      }
  }

  /**
   * Within one wake cycle (a sleep, one wake, then any keyguard-state changes
   * and deliveries) at most one message of each kind is ever pending.
   */
  lemma {:induction false} WakeCycleSingleArmed(s: EngineState, prefs: UnlockPrefs, kg: KeyguardState, events: seq<Event>)
    requires Valid(s)
    requires forall i :: 0 <= i < |events| ==> events[i].KeyguardChanged? || events[i].Fire?
    ensures SingleArmed(Run(WakingUp(GoingToSleep(s, prefs), kg), events))
  {
    WakeAfterSleepSingleArmed(s, prefs, kg);
    CycleKeepsSingleArmed(WakingUp(GoingToSleep(s, prefs), kg), events);
  }

  lemma {:induction false} CycleKeepsSingleArmed(s: EngineState, events: seq<Event>)
    requires Valid(s) && SingleArmed(s)
    requires forall i :: 0 <= i < |events| ==> events[i].KeyguardChanged? || events[i].Fire?
    ensures SingleArmed(Run(s, events))
    decreases |events|
  {
    if events != [] {
      CycleStepKeepsSingleArmed(s, events[0]);
      CycleKeepsSingleArmed(Step(s, events[0]), events[1..]);
    }
  }

  /**
   * A wake right after a sleep arms DIRECT or SMART but not both: DIRECT is
   * posted only without trust management, where the listener is not registered.
   */
  lemma {:induction false} WakeAfterSleepExclusive(s: EngineState, prefs: UnlockPrefs, kg: KeyguardState)
    ensures Exclusive(WakingUp(GoingToSleep(s, prefs), kg))
  {
    SleepDisarms(s, prefs);
    var r := WakingUp(GoingToSleep(s, prefs), kg);
    if Queue(r) != [] {
      assert Queue(r) == [] + [Queue(r)[0]];
      CountAppend([], Queue(r)[0], MsgDirectUnlock);
      CountAppend([], Queue(r)[0], MsgSmartUnlock);
    }
  }

  /** Listener callbacks and message deliveries keep Exclusive: the listener only ever adds SMART, a delivery adds nothing. */
  lemma {:induction false} CycleStepKeepsExclusive(s: EngineState, e: Event)
    requires Valid(s) && Exclusive(s)
    requires e.KeyguardChanged? || e.Fire?
    ensures Exclusive(Step(s, e))
  {
    match e
    case KeyguardChanged(kg) =>
      if s.listenerRegistered {
        StateChangedSmart(s, kg);
      }
    case Fire(i, stack) =>
      if s.handler.Some? && i < |s.handler.value| {
        CountRemoveAt(s.handler.value, i, MsgDirectUnlock);
        CountRemoveAt(s.handler.value, i, MsgSmartUnlock);
      }
  }

  lemma {:induction false} CycleKeepsExclusive(s: EngineState, events: seq<Event>)
    requires Valid(s) && Exclusive(s)
    requires forall i :: 0 <= i < |events| ==> events[i].KeyguardChanged? || events[i].Fire?
    ensures Exclusive(Run(s, events))
    decreases |events|
  {
    if events != [] {
      CycleStepKeepsExclusive(s, events[0]);
      CycleKeepsExclusive(Step(s, events[0]), events[1..]);
    }
  }

  /**
   * Within one wake cycle (a sleep, one wake, then any keyguard-state changes
   * and deliveries) DIRECT and SMART are never pending together.
   */
  lemma {:induction false} WakeCycleExclusive(s: EngineState, prefs: UnlockPrefs, kg: KeyguardState, events: seq<Event>)
    requires Valid(s)
    requires forall i :: 0 <= i < |events| ==> events[i].KeyguardChanged? || events[i].Fire?
    ensures var r := Run(WakingUp(GoingToSleep(s, prefs), kg), events);
            CountOf(Queue(r), MsgDirectUnlock) == 0 || CountOf(Queue(r), MsgSmartUnlock) == 0
  {
    WakeAfterSleepExclusive(s, prefs, kg);
    CycleKeepsExclusive(WakingUp(GoingToSleep(s, prefs), kg), events);
  }

  /**
   * Posting does not cancel and replace: two wakes without a sleep between them
   * leave two DIRECT messages pending, each of which will be handled.
   */
  lemma RepeatedWakeQueuesTwoDirect()
    ensures var s := GoingToSleep(Initial(), UnlockPrefs(Standard, Default, false, Default));
            var kg := KeyguardState(true, false, true, true);
            var r := WakingUp(WakingUp(s, kg), kg);
            && Queue(r) == [Message(MsgDirectUnlock, DirectUnlockDelay), Message(MsgDirectUnlock, DirectUnlockDelay)]
            && !SingleArmed(r)
  {
  }

  // ---------------------------------------------------------------------------
  // Scenarios

  /**
   * STANDARD direct unlock with policy DEFAULT, not trust-managed: waking up
   * after a sleep posts one DIRECT at 300, and delivering it hides the
   * expanded panel exactly once, whatever the notifications.
   */
  lemma ScenarioStandardDirectUnlock(s: EngineState, stack: NotificationStack, showing: bool, locked: bool)
    ensures var prefs := UnlockPrefs(Standard, Default, false, Default);
            var woken := WakingUp(GoingToSleep(s, prefs), KeyguardState(true, false, locked, showing));
            && Queue(woken) == [Message(MsgDirectUnlock, DirectUnlockDelay)]
            && Deliver(woken, 0, stack).actions == s.actions + [MakeExpandedInvisible]
            && Queue(Deliver(woken, 0, stack)) == []
  {
    SleepDisarms(s, UnlockPrefs(Standard, Default, false, Default));
  }

  /**
   * Smart unlock with policy NOTIF_NONE on a trust-managed, already insecure
   * keyguard: waking up posts SMART at 1000. With no notification shown its
   * delivery dismisses the keyguard. With one clearable notification it does
   * nothing; a later insecure state change with the notification gone posts
   * SMART with delay 0, whose delivery dismisses the keyguard.
   */
  lemma ScenarioSmartUnlock(s: EngineState, showing: bool)
    ensures var prefs := UnlockPrefs(Off, Default, true, NotifNone);
            var kg := KeyguardState(true, true, false, false);
            var woken := WakingUp(GoingToSleep(s, prefs), kg);
            var clearable := Stack([StackChild(true, true, Some(true))]);
            var blocked := Deliver(woken, 0, clearable);
            var changed := StateChanged(blocked, kg.(showing := showing));
            && Queue(woken) == [Message(MsgSmartUnlock, SmartUnlockDelay)]
            && woken.listenerRegistered
            && Deliver(woken, 0, Stack([])).actions == s.actions + [DismissKeyguard]
            && blocked.actions == s.actions
            && blocked.listenerRegistered
            && Queue(changed) == [Message(MsgSmartUnlock, 0)]
            && Deliver(changed, 0, Stack([])).actions == s.actions + [DismissKeyguard]
  {
    var prefs := UnlockPrefs(Off, Default, true, NotifNone);
    SleepDisarms(s, prefs);
    var clearable := Stack([StackChild(true, true, Some(true))]);
    assert !Permits(NotifNone, clearable) by {
      assert Counted(clearable.children[0]);
      assert !ProbeFails(clearable.children[0]);
    }
  }
}
