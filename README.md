# GravityBox lockscreen unlock engine and battery percentage, in Dafny

This project models two parts of GravityBox, an Xposed module for Android's system UI.

**Direct and smart unlock** (`ModLockscreen`). These features dismiss the keyguard automatically:

- *Direct unlock* acts when the keyguard is secured but not trust-managed. It hides the expanded panel (`STANDARD`) or shows the bouncer (`SEE_THROUGH`).
- *Smart unlock* acts when a trust agent (Smart Lock) has already made the keyguard insecure. It dismisses the keyguard.

Each feature has a notification policy that can veto it:

- `DEFAULT` never vetoes.
- `NOTIF_NONE` vetoes while any notification row is visible.
- `NOTIF_ONGOING` vetoes while any visible row is clearable.

A failure while reading the notification stack never vetoes (fail-open).

The hooks work through a `Handler` with delayed messages:

- The sleep hook reloads the preferences and clears DIRECT and SMART messages.
- The wake hook posts DIRECT (300 ms) or SMART (1000 ms).
- A keyguard-state listener fires SMART at once, or cancels it.

The quick-unlock gate checks a PIN or password entry in the background whenever its length, in UTF-16 code units, equals the configured length; a longer entry is not checked. A correct entry reports the attempt and then dismisses the keyguard.

**Battery percentage** (`StatusbarBatteryPercentage`). This is the status-bar text "level + sign". While charging below 100% it is coloured by the charging style: a fixed charging colour, or an animation between the icon colour and the charging colour.

Modules:

- `UnlockPolicy` (policy.dfy): the notification gate.
- `MessageQueue` (message_queue.dfy): the handler's queue.
- `UnlockEngine` (unlock_engine.dfy): the engine's state as values, one step function per hook, and the lemmas about them.
- `Lockscreen` (lockscreen.dfy): a class that holds the same state in fields and performs each hook in place. Each of its methods is proved to produce the corresponding `UnlockEngine` step.
- `QuickUnlock` (quick_unlock.dfy): the quick-unlock gate.
- `BatteryPercentage` (battery_percentage.dfy): the battery text as a class with an object invariant.
- `Wrappers` (wrappers.dfy): `Option`.

`sendEmptyMessageDelayed` appends: it does not cancel a pending message of the same kind. So two wakes without a sleep between them leave two DIRECT messages pending (`UnlockEngine.RepeatedWakeQueuesTwoDirect`). The model proves what the code does guarantee:

- sleep clears both kinds;
- the listener never adds a second SMART;
- within one sleep-wake cycle at most one message of each kind is pending (`UnlockEngine.WakeCycleSingleArmed`).
- within one sleep-wake cycle DIRECT and SMART are never pending together (`UnlockEngine.WakeCycleExclusive`): DIRECT is armed only without trust management, where the listener that posts SMART is not registered.

## Model

| member | source | states |
|---|---|---|
| `UnlockPolicy.CanTriggerUnlock` | GravityBox/src/main/java/com/ceco/q/gravitybox/ModLockscreen.java:662-687 | The counting loop's answer equals the reference gate `Permits`: DEFAULT, an unreadable stack or an unreadable clearable flag permit; otherwise NOTIF_NONE permits iff no visible notification row is counted and NOTIF_ONGOING iff no counted row is clearable (also stated in the loop's own counts) |
| `UnlockPolicy.CountRowsZero` | GravityBox/src/main/java/com/ceco/q/gravitybox/ModLockscreen.java:670-682 | notifCount is 0 iff no child is both visible and a notification row |
| `UnlockPolicy.CountClearableZero` | GravityBox/src/main/java/com/ceco/q/gravitybox/ModLockscreen.java:670-682 | notifClearableCount is 0 iff no counted row is clearable |
| `UnlockPolicy.ClearableAtMostRows` | GravityBox/src/main/java/com/ceco/q/gravitybox/ModLockscreen.java:675-679 | Only counted rows are tested for clearability, so the clearable count never exceeds the row count |
| `UnlockPolicy.FailOpen` | GravityBox/src/main/java/com/ceco/q/gravitybox/ModLockscreen.java:663-686 | DEFAULT permits whatever the stack; a failure to read the stack or a row's clearable flag permits under every policy |
| `UnlockPolicy.NoneImpliesOngoing` | GravityBox/src/main/java/com/ceco/q/gravitybox/ModLockscreen.java:681-682 | A NOTIF_NONE permit implies a NOTIF_ONGOING permit on the same stack |
| `UnlockPolicy.OngoingRowsOnly` | GravityBox/src/main/java/com/ceco/q/gravitybox/ModLockscreen.java:677-682 | Rows that are all ongoing never block NOTIF_ONGOING, while any row blocks NOTIF_NONE |
| `MessageQueue.WithoutRemovesAll` | GravityBox/src/main/java/com/ceco/q/gravitybox/ModLockscreen.java:401-402 | After removeMessages(k) no message of kind k is pending and nothing was added |
| `MessageQueue.WithoutKeepsOthers` | GravityBox/src/main/java/com/ceco/q/gravitybox/ModLockscreen.java:641 | removeMessages(k) leaves the count of every other kind unchanged |
| `MessageQueue.WithoutAbsent` | GravityBox/src/main/java/com/ceco/q/gravitybox/ModLockscreen.java:639-642 | removeMessages(k) is a no-op when nothing of kind k is pending |
| `MessageQueue.CountPositive` | GravityBox/src/main/java/com/ceco/q/gravitybox/ModLockscreen.java:636 | hasMessages(k) holds iff the count of kind k is positive |
| `MessageQueue.CountAppend` | GravityBox/src/main/java/com/ceco/q/gravitybox/ModLockscreen.java:425 | Posting a message raises the count of its own kind by one and no other |
| `MessageQueue.CountRemoveAt` | GravityBox/src/main/java/com/ceco/q/gravitybox/ModLockscreen.java:695 | Delivering a message lowers the count of its kind by one |
| `MessageQueue.RemoveAt` | GravityBox/src/main/java/com/ceco/q/gravitybox/ModLockscreen.java:695 | The queue after a delivery is one shorter and holds exactly the other messages |
| `MessageQueue.Handler.constructor` | GravityBox/src/main/java/com/ceco/q/gravitybox/ModLockscreen.java:398-399 | A new handler has nothing pending |
| `MessageQueue.Handler.SendEmptyMessageDelayed` | GravityBox/src/main/java/com/ceco/q/gravitybox/ModLockscreen.java:425 | Appends the message and cancels nothing |
| `MessageQueue.Handler.SendEmptyMessage` | GravityBox/src/main/java/com/ceco/q/gravitybox/ModLockscreen.java:637 | Appends the message with delay 0 |
| `MessageQueue.Handler.RemoveMessages` | GravityBox/src/main/java/com/ceco/q/gravitybox/ModLockscreen.java:401-402 | The queue loses exactly the messages of the given kind |
| `MessageQueue.Handler.HasMessages` | GravityBox/src/main/java/com/ceco/q/gravitybox/ModLockscreen.java:636 | Answers true iff some pending message has the given kind |
| `MessageQueue.Handler.TakeDue` | GravityBox/src/main/java/com/ceco/q/gravitybox/ModLockscreen.java:695 | Returns the due message and removes exactly it from the queue |
| `MessageQueue.Has` | GravityBox/src/main/java/com/ceco/q/gravitybox/ModLockscreen.java:636 | hasMessages: some pending message has the given kind |
| `MessageQueue.Without` | GravityBox/src/main/java/com/ceco/q/gravitybox/ModLockscreen.java:401-402 | The queue after removeMessages: the messages of the other kinds, in order; `WithoutRemovesAll`, `WithoutKeepsOthers` and `WithoutAbsent` state its properties |
| `UnlockEngine.GoingToSleep` | GravityBox/src/main/java/com/ceco/q/gravitybox/ModLockscreen.java:389-404 | The onFinishedGoingToSleep step: listener unregistered, preferences reloaded, handler created or cleared of DIRECT and SMART; its properties are `SleepDisarms` |
| `UnlockEngine.WakingUp` | GravityBox/src/main/java/com/ceco/q/gravitybox/ModLockscreen.java:418-436 | The onStartedWakingUp step; its properties are `WakeArming` and `WakeNeverBoth` |
| `UnlockEngine.StateChanged` | GravityBox/src/main/java/com/ceco/q/gravitybox/ModLockscreen.java:629-647 | The onKeyguardStateChanged step; its properties are `StateChangedSmart` |
| `UnlockEngine.CanTriggerDirect` | GravityBox/src/main/java/com/ceco/q/gravitybox/ModLockscreen.java:653-656 | Direct unlock is allowed iff the mode is not OFF and the direct policy permits |
| `UnlockEngine.CanTriggerSmart` | GravityBox/src/main/java/com/ceco/q/gravitybox/ModLockscreen.java:658-660 | Smart unlock is allowed iff it is enabled and the smart policy permits |
| `UnlockEngine.Reaction` | GravityBox/src/main/java/com/ceco/q/gravitybox/ModLockscreen.java:695-709 | The actions handleMessage takes for one message; `ReactionIsOneAction` characterises them |
| `UnlockEngine.Deliver` | GravityBox/src/main/java/com/ceco/q/gravitybox/ModLockscreen.java:695-709 | A due message leaves the queue and its reaction is appended to the action log; `DeliverConsumes` states this |
| `UnlockEngine.Initial` | GravityBox/src/main/java/com/ceco/q/gravitybox/ModLockscreen.java:89-94 | Before any hook runs there is no handler, no registered listener and no action |
| `UnlockEngine.Step` | GravityBox/src/main/java/com/ceco/q/gravitybox/ModLockscreen.java:389-709 | Every hook keeps the invariant that the listener is registered only once the handler exists |
| `UnlockEngine.Run` | GravityBox/src/main/java/com/ceco/q/gravitybox/ModLockscreen.java:389-709 | The same invariant holds after any sequence of events |
| `UnlockEngine.ReactionIsOneAction` | GravityBox/src/main/java/com/ceco/q/gravitybox/ModLockscreen.java:695-709 | A message causes at most one action. SMART dismisses iff smart unlock is on and its policy permits. DIRECT shows the bouncer for SEE_THROUGH and hides the panel for STANDARD iff its policy permits |
| `UnlockEngine.DeliverConsumes` | GravityBox/src/main/java/com/ceco/q/gravitybox/ModLockscreen.java:695-709 | A delivery consumes exactly its message. It never re-posts it, even when disallowed. It appends at most one action and changes neither the preferences nor the listener |
| `UnlockEngine.SleepDisarms` | GravityBox/src/main/java/com/ceco/q/gravitybox/ModLockscreen.java:389-404 | After sleep the listener is unregistered and the preferences are the reloaded ones. The handler exists with no DIRECT or SMART pending, and no action was taken |
| `UnlockEngine.WakeArming` | GravityBox/src/main/java/com/ceco/q/gravitybox/ModLockscreen.java:418-436 | Waking does nothing unless secured with a handler. Without trust management it posts DIRECT at 300 iff the mode is not OFF. With trust management and smart unlock it registers the listener and posts SMART at 1000 iff not locked |
| `UnlockEngine.WakeNeverBoth` | GravityBox/src/main/java/com/ceco/q/gravitybox/ModLockscreen.java:423-436 | One wake adds at most one DIRECT-or-SMART message in all |
| `UnlockEngine.StateChangedSmart` | GravityBox/src/main/java/com/ceco/q/gravitybox/ModLockscreen.java:629-647 | When trust-managed and insecure, the listener posts SMART at delay 0 only if none is pending, so the SMART count becomes max(count, 1). A pending SMART is then left exactly as it was, delay included. Otherwise the new queue is the old one without its SMART messages, so every DIRECT message is kept in order with its delay. The listener stays registered iff the keyguard is not showing |
| `UnlockEngine.WakeAfterSleepSingleArmed` | GravityBox/src/main/java/com/ceco/q/gravitybox/ModLockscreen.java:398-436 | After a sleep, and after a wake that follows it, at most one message of each kind is pending |
| `UnlockEngine.CycleStepKeepsSingleArmed` | GravityBox/src/main/java/com/ceco/q/gravitybox/ModLockscreen.java:634-643 | Listener callbacks and deliveries keep at most one message of each kind pending |
| `UnlockEngine.CycleKeepsSingleArmed` | GravityBox/src/main/java/com/ceco/q/gravitybox/ModLockscreen.java:634-643 | The same holds for any sequence of listener callbacks and deliveries |
| `UnlockEngine.WakeCycleSingleArmed` | GravityBox/src/main/java/com/ceco/q/gravitybox/ModLockscreen.java:389-647 | Within one sleep-wake cycle at most one message of each kind is ever pending |
| `UnlockEngine.WakeAfterSleepExclusive` | GravityBox/src/main/java/com/ceco/q/gravitybox/ModLockscreen.java:418-436 | A wake right after a sleep leaves no DIRECT pending, or else no SMART pending and the listener unregistered |
| `UnlockEngine.CycleStepKeepsExclusive` | GravityBox/src/main/java/com/ceco/q/gravitybox/ModLockscreen.java:634-643 | A listener callback or a delivery keeps DIRECT and SMART exclusive, because the listener only adds SMART and a delivery adds nothing |
| `UnlockEngine.CycleKeepsExclusive` | GravityBox/src/main/java/com/ceco/q/gravitybox/ModLockscreen.java:634-643 | The same holds for any sequence of listener callbacks and deliveries |
| `UnlockEngine.WakeCycleExclusive` | GravityBox/src/main/java/com/ceco/q/gravitybox/ModLockscreen.java:389-647 | Within one sleep-wake cycle, a DIRECT and a SMART message are never pending together |
| `UnlockEngine.RepeatedWakeQueuesTwoDirect` | GravityBox/src/main/java/com/ceco/q/gravitybox/ModLockscreen.java:423-426 | Posting does not cancel and replace: two wakes with no sleep between them leave two DIRECT messages pending |
| `UnlockEngine.ScenarioStandardDirectUnlock` | GravityBox/src/main/java/com/ceco/q/gravitybox/ModLockscreen.java:423-426 | STANDARD with policy DEFAULT and no trust management: the wake posts one DIRECT at 300. Delivering it hides the panel exactly once, whatever the notifications |
| `UnlockEngine.ScenarioSmartUnlock` | GravityBox/src/main/java/com/ceco/q/gravitybox/ModLockscreen.java:427-435 | Smart unlock with NOTIF_NONE, trust-managed and insecure: the wake posts SMART at 1000, and it dismisses when no notification is shown. A clearable notification blocks it. A later insecure state change posts SMART at delay 0, which then dismisses |
| `Lockscreen.DirectSmartUnlock.constructor` | GravityBox/src/main/java/com/ceco/q/gravitybox/ModLockscreen.java:89-94 | The object starts in `Initial()` |
| `Lockscreen.DirectSmartUnlock.OnFinishedGoingToSleep` | GravityBox/src/main/java/com/ceco/q/gravitybox/ModLockscreen.java:389-404 | The new state is `GoingToSleep` of the old state. The handler is created fresh the first time and kept afterwards |
| `Lockscreen.DirectSmartUnlock.OnStartedWakingUp` | GravityBox/src/main/java/com/ceco/q/gravitybox/ModLockscreen.java:418-436 | The new state is `WakingUp` of the old state |
| `Lockscreen.DirectSmartUnlock.OnKeyguardStateChanged` | GravityBox/src/main/java/com/ceco/q/gravitybox/ModLockscreen.java:629-647 | The new state is `StateChanged` of the old state |
| `Lockscreen.DirectSmartUnlock.CanTriggerDirectUnlock` | GravityBox/src/main/java/com/ceco/q/gravitybox/ModLockscreen.java:653-656 | Allowed iff the mode is not OFF and the direct policy permits |
| `Lockscreen.DirectSmartUnlock.CanTriggerSmartUnlock` | GravityBox/src/main/java/com/ceco/q/gravitybox/ModLockscreen.java:658-660 | Allowed iff smart unlock is on and the smart policy permits |
| `Lockscreen.DirectSmartUnlock.HandleMessage` | GravityBox/src/main/java/com/ceco/q/gravitybox/ModLockscreen.java:695-709 | The action log grows by exactly the reaction `ReactionIsOneAction` characterises |
| `Lockscreen.DirectSmartUnlock.DeliverDue` | GravityBox/src/main/java/com/ceco/q/gravitybox/ModLockscreen.java:695-709 | The new state is `Deliver` of the old state |
| `Lockscreen.SmartUnlockCycle` | GravityBox/src/main/java/com/ceco/q/gravitybox/ModLockscreen.java:427-437 | Driving the object through sleep, wake, a blocked SMART, a state change and a delivery dismisses the keyguard exactly once and leaves nothing pending |
| `QuickUnlock.PinLength` | GravityBox/src/main/java/com/ceco/q/gravitybox/ModLockscreen.java:729-730 | The configured PIN length, 4 when absent |
| `QuickUnlock.Utf16LengthBounds` | GravityBox/src/main/java/com/ceco/q/gravitybox/ModLockscreen.java:729 | String.length() counts one or two UTF-16 code units per character, exactly one for an entry of BMP characters such as digits |
| `QuickUnlock.DoQuickUnlock` | GravityBox/src/main/java/com/ceco/q/gravitybox/ModLockscreen.java:728-752 | A check is dispatched iff the entry's length in UTF-16 code units equals the configured length. Callbacks happen iff additionally the password matched, and they are then reportUnlockAttempt(user, true, 0) followed by dismiss(true, user) |
| `QuickUnlock.ReportBeforeDismiss` | GravityBox/src/main/java/com/ceco/q/gravitybox/ModLockscreen.java:739-742 | A successful quick unlock reports the attempt first and dismisses exactly once, for the same user |
| `QuickUnlock.DefaultLengthGate` | GravityBox/src/main/java/com/ceco/q/gravitybox/ModLockscreen.java:729-730 | Without a configured length exactly the entries of four UTF-16 code units are checked: four digits, and also two characters outside the BMP |
| `BatteryPercentage.NatDigits` | src/com/ceco/lollipop/gravitybox/StatusbarBatteryPercentage.java:156 | The level's digits are non-empty decimal digits without a leading zero |
| `BatteryPercentage.NatDigitsRoundTrip` | src/com/ceco/lollipop/gravitybox/StatusbarBatteryPercentage.java:156 | The digits read back as the number |
| `BatteryPercentage.IntToStringRoundTrip` | src/com/ceco/lollipop/gravitybox/StatusbarBatteryPercentage.java:156 | The level's decimal text, negative numbers included, parses back to the level |
| `BatteryPercentage.PercentTextParts` | src/com/ceco/lollipop/gravitybox/StatusbarBatteryPercentage.java:156 | The shown text is the level, which reads back, followed by exactly the current percent sign |
| `BatteryPercentage.SteadyColorCases` | src/com/ceco/lollipop/gravitybox/StatusbarBatteryPercentage.java:158-171 | Not charging or full: icon colour and no animation. A style other than STATIC shows the icon colour. The charging colour shows only for STATIC while charging below 100% |
| `BatteryPercentage.StatusbarBatteryPercentage.constructor` | src/com/ceco/lollipop/gravitybox/StatusbarBatteryPercentage.java:49-72 | The view's colour becomes the default and icon colour. The stored sign, style and charging colour apply, defaulting to "%", NONE and GREEN. Nothing is shown yet and no animation runs |
| `BatteryPercentage.StatusbarBatteryPercentage.StartChargingAnimation` | src/com/ceco/lollipop/gravitybox/StatusbarBatteryPercentage.java:74-110 | Starts an icon-to-charging-colour animation iff none runs, and returns whether it did. A second call changes nothing |
| `BatteryPercentage.StatusbarBatteryPercentage.StopChargingAnimation` | src/com/ceco/lollipop/gravitybox/StatusbarBatteryPercentage.java:112-121 | Returns whether an animation ran. Afterwards none exists, and a stopped one has reset the text to the icon colour |
| `BatteryPercentage.StatusbarBatteryPercentage.Update` | src/com/ceco/lollipop/gravitybox/StatusbarBatteryPercentage.java:153-172 | Without battery data nothing changes. Otherwise the text is level + sign. The animation runs iff ANIMATED while charging below 100%, and the colour is otherwise the steady colour. It keeps `Valid()`, and restores it from any state whose running animation uses the current colours |
| `BatteryPercentage.StatusbarBatteryPercentage.SetTextColor` | src/com/ceco/lollipop/gravitybox/StatusbarBatteryPercentage.java:127-131 | Stores the icon colour and keeps the display invariant. An ANIMATED charging state restarts with the new colour, and the text starts from it |
| `BatteryPercentage.StatusbarBatteryPercentage.SetChargingColor` | src/com/ceco/lollipop/gravitybox/StatusbarBatteryPercentage.java:147-151 | Stores the charging colour and keeps the display invariant. An ANIMATED charging state restarts towards the new colour |
| `BatteryPercentage.StatusbarBatteryPercentage.SetPercentSign` | src/com/ceco/lollipop/gravitybox/StatusbarBatteryPercentage.java:137-140 | Stores the sign and redraws the text. The animation and, while it runs, the text colour are untouched |
| `BatteryPercentage.StatusbarBatteryPercentage.SetChargingStyle` | src/com/ceco/lollipop/gravitybox/StatusbarBatteryPercentage.java:142-145 | Stores the style and redoes colour and animation per the invariant. An animation that was already running keeps going, and the text colour is untouched |
| `BatteryPercentage.StatusbarBatteryPercentage.OnBatteryStatusChanged` | src/com/ceco/lollipop/gravitybox/StatusbarBatteryPercentage.java:191-195 | Stores the data, after which the display shows it |
| `BatteryPercentage.StatusbarBatteryPercentage.OnIconManagerStatusChanged` | src/com/ceco/lollipop/gravitybox/StatusbarBatteryPercentage.java:178-189 | A colour change sets the icon colour to iconColor[0] when colouring is enabled, else to the default colour. Before battery data it leaves the view untouched; while ANIMATED charging the text resets to the new colour and the animation restarts between the new colours. Alpha is applied only when there is no colour change |

The class `BatteryPercentage.StatusbarBatteryPercentage` has a `Valid()` invariant that every method modelling a public method of the class keeps: the constructor, `Update`, the setters and the two callbacks. The helpers `StartChargingAnimation` and `StopChargingAnimation` model private methods and are called with the invariant temporarily broken. Once battery data has arrived, the text is level + sign. An animation runs exactly in the ANIMATED style while charging below 100%, and always between the current icon colour and the current charging colour. When no animation runs, the colour is the steady colour.

## Left out

- Xposed hook registration and reflection (`findAndHookMethod`, `getObjectField`, `callMethod`) are not modelled. Keyguard-monitor queries become a `KeyguardState` input, and the notification stack becomes a `NotificationStack` input.
- The preferences are given as typed values. A `DirectUnlock.valueOf` or `UnlockPolicy.valueOf` failure on a malformed stored string is not modelled.
- `mSmartUnlockPolicy` starts as `null` in the source and as DEFAULT here. Nothing reads it before the first sleep sets it together with `mSmartUnlock`, which starts false.
- Time is not modelled. The delays are recorded on the messages, and the environment chooses which pending message falls due. Android's time ordering of the queue is therefore not captured.
- `SysUiKeyguardStateMonitor` is not part of this model. Listener registration is a boolean, so registering twice is assumed to be the same as registering once.
- Message codes other than SMART and DIRECT cannot occur: only these two are ever posted to the handler.
- The try/catch around `showBouncer` and `makeExpandedInvisible` is not modelled. An action is logged as invoked whether or not the call threw.
- The wake hook's background check (`updateMediaMetaData`, lines 411-416) is left out, as are the custom background, media art, scrim, rotation, carrier text, PIN scrambler, double-tap gesture, quiet hours, alarm info, bottom affordances, app bar and broadcast receiver. These are rendering and configuration plumbing.
- `DoQuickUnlock`: the AsyncTask and main-looper hand-off are not modelled; the callbacks are the calls the posted runnable makes. `checkPassword` and every lookup that can throw are one `CheckResult` input. A `reportUnlockAttempt` that throws, and so skips `dismiss`, is not modelled.
- `BatteryPercentage.StatusbarBatteryPercentage.StartChargingAnimation`: the colour interpolation, duration and repeat mode are not modelled. The view's colour while an animation runs is left as it was, and `Update` states nothing about it beyond that.
- An animator that ends without `stopChargingAnimation`, for example under a zero animator duration scale, is not modelled: an existing animation is a running one.
- `setTextSize`, `setVisibility`, `getView`, listener registration with the managers, and the `Integer.valueOf` parse of stored strings are left out. The values of `FLAG_ICON_COLOR_CHANGED` and `FLAG_ICON_ALPHA_CHANGED` are not part of this model, so the two bit tests are boolean inputs.
- `BatteryPercentage.StatusbarBatteryPercentage.OnIconManagerStatusChanged` requires `iconColor` to be non-empty when a colour change with colouring enabled is reported. The source indexes `iconColor[0]` without a check.
