/**
 * ModLockscreen's direct/smart unlock state as one object: the static fields
 * the hooks update in place, the handler they post to, the registration of
 * the keyguard-state listener and the log of unlock actions. Each hook body is
 * a method whose new state is the corresponding step of UnlockEngine.
 */
module Lockscreen {
  import opened Wrappers
  import opened UnlockPolicy
  import opened MessageQueue
  import opened UnlockEngine

  class DirectSmartUnlock {
    var directUnlock: DirectUnlock
    var directUnlockPolicy: Policy
    var smartUnlock: bool
    var smartUnlockPolicy: Policy
    var unlockHandler: Handler?
    var listenerRegistered: bool
    var actions: seq<Action>

    /** The cached preferences. */
    function Prefs(): UnlockPrefs
      reads this
    {
      UnlockPrefs(directUnlock, directUnlockPolicy, smartUnlock, smartUnlockPolicy)
    }

    /** The abstract state this object holds. */
    function Snapshot(): EngineState
      reads this, unlockHandler
    {
      EngineState(Prefs(), if unlockHandler == null then None else Some(unlockHandler.pending),
                  listenerRegistered, actions)
    }

    ghost predicate Valid()
      reads this
    {
      listenerRegistered ==> unlockHandler != null
    }

    /** The static fields' initial values. */
    constructor ()
      ensures Valid() && Snapshot() == Initial()
    {
      directUnlock, directUnlockPolicy := Off, Default;
      smartUnlock, smartUnlockPolicy := false, Default;
      unlockHandler := null;
      listenerRegistered := false;
      actions := [];
    }

    /** The onFinishedGoingToSleep hook: the listener goes, the preferences are reloaded, the handler is created or cleared. */
    method OnFinishedGoingToSleep(prefs: UnlockPrefs)
      requires Valid()
      modifies this, unlockHandler
      ensures Valid() && unlockHandler != null
      ensures old(unlockHandler) == null ==> fresh(unlockHandler)
      ensures old(unlockHandler) != null ==> unlockHandler == old(unlockHandler)
      ensures Snapshot() == GoingToSleep(old(Snapshot()), prefs)
    {
      listenerRegistered := false;
      directUnlock := prefs.directUnlock;
      directUnlockPolicy := prefs.directPolicy;
      smartUnlock := prefs.smartUnlock;
      smartUnlockPolicy := prefs.smartPolicy;
      if unlockHandler == null {
        unlockHandler := new Handler();
      } else {
        unlockHandler.RemoveMessages(MsgDirectUnlock);
        unlockHandler.RemoveMessages(MsgSmartUnlock);
      }
    }

    /** The onStartedWakingUp hook's unlock part. */
    method OnStartedWakingUp(kg: KeyguardState)
      requires Valid()
      modifies this, unlockHandler
      ensures Valid() && unlockHandler == old(unlockHandler)
      ensures Snapshot() == WakingUp(old(Snapshot()), kg)
    {
      if !kg.secured || unlockHandler == null {
        return;
      }
      if !kg.trustManaged {
        if directUnlock != Off {
          unlockHandler.SendEmptyMessageDelayed(MsgDirectUnlock, DirectUnlockDelay);
        }
      } else if smartUnlock {
        listenerRegistered := true;
        if !kg.locked {
          unlockHandler.SendEmptyMessageDelayed(MsgSmartUnlock, SmartUnlockDelay);
        }
      }
    }

    /** mKgStateListener.onKeyguardStateChanged, delivered while the listener is registered. */
    method OnKeyguardStateChanged(kg: KeyguardState)
      requires Valid() && listenerRegistered
      modifies this, unlockHandler
      ensures Valid() && unlockHandler == old(unlockHandler)
      ensures Snapshot() == StateChanged(old(Snapshot()), kg)
    {
      var trustManaged := kg.trustManaged;
      var insecure := !kg.locked;
      if trustManaged && insecure {
        // let an already queued message be handled, or handle a new one at once
        var queued := unlockHandler.HasMessages(MsgSmartUnlock);
        if !queued {
          unlockHandler.SendEmptyMessage(MsgSmartUnlock);
        }
      } else {
        var queued := unlockHandler.HasMessages(MsgSmartUnlock);
        if queued {
          unlockHandler.RemoveMessages(MsgSmartUnlock);
        }
      }
      if kg.showing {
        listenerRegistered := false;
      }
    }

    /** canTriggerDirectUnlock: the mode is not OFF and the direct policy permits. */
    method CanTriggerDirectUnlock(stack: NotificationStack) returns (allowed: bool)
      ensures allowed <==> directUnlock != Off && Permits(directUnlockPolicy, stack)
    {
      allowed := false;
      if directUnlock != Off {
        allowed := CanTriggerUnlock(directUnlockPolicy, stack);
      }
    }

    /** canTriggerSmartUnlock: smart unlock is enabled and the smart policy permits. */
    method CanTriggerSmartUnlock(stack: NotificationStack) returns (allowed: bool)
      ensures allowed <==> smartUnlock && Permits(smartUnlockPolicy, stack)
    {
      allowed := false;
      if smartUnlock {
        allowed := CanTriggerUnlock(smartUnlockPolicy, stack);
      }
    }

    /** UnlockHandler.handleMessage: at most one action, logged; nothing is posted again. */
    method HandleMessage(what: Kind, stack: NotificationStack)
      modifies this`actions
      ensures actions == old(actions) + Reaction(Prefs(), what, stack)
    {
      match what
      case MsgSmartUnlock =>
        var allowed := CanTriggerSmartUnlock(stack);
        if allowed {
          actions := actions + [DismissKeyguard];
        }
      case MsgDirectUnlock =>
        var allowed := CanTriggerDirectUnlock(stack);
        if allowed {
          if directUnlock == SeeThrough {
            actions := actions + [ShowBouncer];
          } else {
            actions := actions + [MakeExpandedInvisible];
          }
        }
    }

    /** The looper delivers the pending message at `i`, which has fallen due, to the handler. */
    method DeliverDue(i: nat, stack: NotificationStack)
      requires Valid() && unlockHandler != null && i < |unlockHandler.pending|
      modifies this, unlockHandler
      ensures Valid() && unlockHandler == old(unlockHandler)
      ensures Snapshot() == Deliver(old(Snapshot()), i, stack)
    {
      var m := unlockHandler.TakeDue(i);
      HandleMessage(m.what, stack);
    }
  }

  /** The smart-unlock scenario driven through the object's hooks. */
  method SmartUnlockCycle(showing: bool) returns (engine: DirectSmartUnlock)
    ensures engine.actions == [DismissKeyguard]
    ensures engine.unlockHandler != null && engine.unlockHandler.pending == []
  {
    engine := new DirectSmartUnlock();
    var kg := KeyguardState(true, true, false, showing);
    engine.OnFinishedGoingToSleep(UnlockPrefs(Off, Default, true, NotifNone));
    engine.OnStartedWakingUp(kg);
    ScenarioSmartUnlock(Initial(), showing);
    engine.DeliverDue(0, Stack([StackChild(true, true, Some(true))]));
    engine.OnKeyguardStateChanged(kg.(showing := showing));
    engine.DeliverDue(0, Stack([]));
  }
}
