# WallpaperSetter: orientation lock, pending status and progress dialog

`WallpaperSetter` (package `com.android.wallpaper.module`) applies a static or
live wallpaper for an activity. Around the actual platform calls it runs a small
state machine on the UI thread:

- **orientation lock/restore**: `mCurrentScreenOrientation` is an optional saved
  orientation. "Save and lock" records the activity's requested orientation once
  and then requests `SCREEN_ORIENTATION_LOCKED` (14). "Restore" puts the saved value
  back and empties the slot.
- **pending status**: a static set writes `WALLPAPER_SET_PENDING` to the
  preferences. The persister's success or error callback writes
  `WALLPAPER_SET_NOT_PENDING`.
- **progress dialog**: a static set shows a progress dialog unless the activity is
  finishing. It registers an `ON_DESTROY` observer when the activity is a lifecycle
  owner. `cleanUp` dismisses and drops the dialog.

The model has two layers.

- `Protocol` (protocol.dfy) states the machine over values:
  - a `State` holding the slot, the activity's requested orientation, its
    finishing and lifecycle-owner flags, the pending status, whether a dialog is
    held, and whether an observer is registered;
  - one function per transition, an `Event` type, `Step` and `Run` over traces.
- `ProtocolProperties` (protocol_properties.dfy) proves what the protocol promises,
  including the properties of whole traces, by induction.
- `Setter` (setter.dfy) is the class itself:
  - `WallpaperSetter` has the fields the source mutates;
  - `Activity` has a mutable requested orientation and a finishing flag;
  - `ProgressDialog` records whether it is on screen.

  `View(activity)` is the protocol state of the setter with that activity. These
  methods ensure that the new `View(activity)` equals the matching `Protocol`
  transition of the old one: `SaveAndLockScreenOrientationIfNeeded`,
  `RestoreScreenOrientationIfNeeded`, `OnWallpaperApplied`, `OnWallpaperApplyError`,
  `SetCurrentWallpaper`, `SetCurrentLiveWallpaper`, `OnPersistSuccess`,
  `OnPersistError`, `RequestDestination`, `OnDialogDismissed` and
  `OnLifecycleDestroy`. So the trace lemmas apply to any sequence of these calls.
  The remaining members relate to the protocol in other ways:
  - `CleanUp` takes no activity. It ensures the dialog field is null and changes
    only that field and the dialog, so for every activity it makes the transition
    `Protocol.CleanUp`.
  - `OnDialogSet` and `SetCurrentLiveWallpaperFromRestore` change no state at all:
    they have no `modifies` clause.
  - The constructor gives the initial state.
  The asynchronous callbacks are separate methods that the caller invokes afterwards:
  - the persister's `OnPersistSuccess` and `OnPersistError`;
  - the destination dialog's `OnDialogSet` and `OnDialogDismissed`;
  - the lifecycle's `OnLifecycleDestroy`.

Collaborators are reduced as follows:
- The preferences become the field `pendingStatus`.
- The optional `SetWallpaperCallback` and the dialog `Listener` become the
  notifications they receive, returned as out-parameters.
- Whether the platform calls of a live set throw, and where, is the parameter
  `LiveOutcome`:
  - `Applied`: nothing throws;
  - `FailedBeforeApply`: a call before the success notification throws. These
    calls are `WallpaperManager.getInstance`, saving the wallpaper, setting the
    component, setting the offset steps and offsets, storing the preferences,
    `clearCurrentWallpaperInfos`, and the logging inside `onWallpaperApplied`;
  - `FailedAfterApply`: the caller's `onSuccess` or the persister's
    `onLiveWallpaperSet` throws.

Behaviour of the code that the model makes explicit:
- When something throws after the success notification of a live set, the catch
  block also runs `onWallpaperApplyError`. The callback then hears `onSuccess`
  followed by `onError`. This holds for `setCurrentLiveWallpaper` and, for the
  callback, for `setCurrentLiveWallpaperFromRestore` too. The restore entry point
  therefore reports one outcome only when nothing after `onSuccess` throws
  (`Protocol.Notifications`).
- A static set while a dialog is already held overwrites `mProgressDialog` without
  dismissing the old dialog. The old one stays on screen, and nothing refers to it
  any more (`Setter.WallpaperSetter.SetCurrentWallpaper`, last ensures).
- `ON_DESTROY` releases the dialog only if this setter registered an observer on
  that activity. That happens only when the activity is a lifecycle owner.
  `ProtocolProperties.RunDialogObserved` proves that for a lifecycle owner a held
  dialog is always observed. `ProtocolProperties.DestroyReleasesDialog` concludes
  that `ON_DESTROY` then leaves no dialog held.

## Model

| member | source | states |
|---|---|---|
| `Protocol.SaveAndLock` | src/com/android/wallpaper/module/WallpaperSetter.java:347-352 | with an empty slot, saves the requested orientation and locks; with a full slot, changes nothing; the slot is full afterwards; nothing but orientation state changes |
| `Protocol.Restore` | src/com/android/wallpaper/module/WallpaperSetter.java:354-361 | with a saved value, the activity requests it afterwards; with none, changes nothing; the slot is empty afterwards; nothing but orientation state changes |
| `Protocol.CleanUp` | src/com/android/wallpaper/module/WallpaperSetter.java:276-281 | no dialog is held afterwards; nothing else changes |
| `Protocol.Settle` | src/com/android/wallpaper/module/WallpaperSetter.java:250-271 | after onWallpaperApplied or onWallpaperApplyError: NOT_PENDING, no dialog, slot empty, and the activity requests the orientation that was saved (or keeps its own if none was) |
| `Protocol.SetStatic` | src/com/android/wallpaper/module/WallpaperSetter.java:97-135 | a static set leaves the status PENDING and the orientation saved and locked; a dialog is held exactly when one was or the activity is not finishing; an observer exists when the activity is a lifecycle owner and not finishing |
| `Protocol.SetLive` | src/com/android/wallpaper/module/WallpaperSetter.java:161-194 | a live set, however its platform calls end, leaves NOT_PENDING, no dialog, the slot empty and the orientation from before its save (or the one saved earlier) |
| `Protocol.LifecycleDestroy` | src/com/android/wallpaper/module/WallpaperSetter.java:119-133 | with an observer registered, no dialog is held afterwards; without one, nothing changes; only the dialog flag can change, and the observer stays registered |
| `Protocol.Notifications` | src/com/android/wallpaper/module/WallpaperSetter.java:184-193 | without a callback nothing is reported; otherwise exactly one notification, except two when a call after onSuccess threw; onSuccess first unless a call before it threw, onError last when anything threw |
| `Protocol.Step` | src/com/android/wallpaper/module/WallpaperSetter.java:313-333 | one UI-thread event: requestDestination, the listener wrapper's onSet and onDialogDismissed, the set entry points, the persister's callbacks, cleanUp, ON_DESTROY; no event changes the activity's flags, an observer stays registered, restoring events empty the slot, the callbacks clear PENDING, onSet and the restore entry point change nothing |
| `Protocol.Run` | src/com/android/wallpaper/module/WallpaperSetter.java:119-157 | events run one after another on the UI thread; no trace changes the activity's flags or unregisters an observer |
| `ProtocolProperties.SaveAndLockIdempotent` | src/com/android/wallpaper/module/WallpaperSetter.java:347-352 | a second save-and-lock changes nothing |
| `ProtocolProperties.RestoreUndoesSave` | src/com/android/wallpaper/module/WallpaperSetter.java:347-361 | from an empty slot, restore after save-and-lock gives back the exact state |
| `ProtocolProperties.RestoreIdempotent` | src/com/android/wallpaper/module/WallpaperSetter.java:354-361 | a second restore changes nothing |
| `ProtocolProperties.DismissOutcome` | src/com/android/wallpaper/module/WallpaperSetter.java:316-329 | after requestDestination, dismissing without a selection returns to the state before it; with a selection, the old orientation stays saved and the activity stays locked |
| `ProtocolProperties.StepAnchored` | src/com/android/wallpaper/module/WallpaperSetter.java:347-361 | every event keeps the orientation anchored: slot empty and the activity at the anchor, or slot holding the anchor and the activity locked |
| `ProtocolProperties.RunAnchored` | src/com/android/wallpaper/module/WallpaperSetter.java:347-361 | every trace of events keeps the same anchor |
| `ProtocolProperties.RunSnoc` | src/com/android/wallpaper/module/WallpaperSetter.java:119-157 | callbacks run one after another on the UI thread: a trace followed by one event is the longer trace |
| `ProtocolProperties.ProtocolReturnsOrientation` | src/com/android/wallpaper/module/WallpaperSetter.java:316-329 | nesting: from an empty slot, any events followed by a restoring one leave the slot empty and the activity at the orientation from before the first save |
| `ProtocolProperties.EndToEndStaticSet` | src/com/android/wallpaper/module/WallpaperSetter.java:262-270 | requestDestination, dismiss with a selection, static set, then persister success or error: the original orientation, slot empty, NOT_PENDING, no dialog |
| `ProtocolProperties.PendingUntilCallback` | src/com/android/wallpaper/module/WallpaperSetter.java:97-98 | events that do not write NOT_PENDING keep the status PENDING |
| `ProtocolProperties.StaticSetPending` | src/com/android/wallpaper/module/WallpaperSetter.java:260-268 | after a static set the status is PENDING until the callback; the callback clears it and leaves no dialog |
| `ProtocolProperties.RunDialogObserved` | src/com/android/wallpaper/module/WallpaperSetter.java:110-135 | every trace keeps a held dialog of a lifecycle owner backed by an ON_DESTROY observer |
| `ProtocolProperties.DestroyReleasesDialog` | src/com/android/wallpaper/module/WallpaperSetter.java:125-129 | starting with no dialog, after any trace ON_DESTROY of a lifecycle owner leaves no dialog held |
| `ProtocolProperties.CleanUpIdempotent` | src/com/android/wallpaper/module/WallpaperSetter.java:276-281 | a second cleanUp changes nothing |
| `ProtocolProperties.StaticSetDialog` | src/com/android/wallpaper/module/WallpaperSetter.java:110-113 | from no dialog, a static set holds one exactly when the activity is not finishing |
| `ProtocolProperties.FromRestoreLeavesState` | src/com/android/wallpaper/module/WallpaperSetter.java:220-248 | the restore entry point leaves slot, orientation, status and dialog as they were (on the class, the empty frame of `SetCurrentLiveWallpaperFromRestore` states the same) |
| `Setter.WallpaperSetter.constructor` | src/com/android/wallpaper/module/WallpaperSetter.java:61-71 | a new setter has an empty slot, no dialog and no observers |
| `Setter.WallpaperSetter.SaveAndLockScreenOrientationIfNeeded` | src/com/android/wallpaper/module/WallpaperSetter.java:347-352 | the new state is `Protocol.SaveAndLock` of the old one |
| `Setter.WallpaperSetter.RestoreScreenOrientationIfNeeded` | src/com/android/wallpaper/module/WallpaperSetter.java:354-361 | the new state is `Protocol.Restore` of the old one |
| `Setter.WallpaperSetter.CleanUp` | src/com/android/wallpaper/module/WallpaperSetter.java:276-281 | no dialog is held afterwards, and a dialog held before is dismissed; nothing else changes |
| `Setter.WallpaperSetter.OnWallpaperApplied` | src/com/android/wallpaper/module/WallpaperSetter.java:250-264 | the new state is `Protocol.Settle` of the old one; the old dialog is dismissed |
| `Setter.WallpaperSetter.OnWallpaperApplyError` | src/com/android/wallpaper/module/WallpaperSetter.java:266-271 | the new state is `Protocol.Settle` of the old one; the old dialog is dismissed |
| `Setter.WallpaperSetter.SetCurrentWallpaper` | src/com/android/wallpaper/module/WallpaperSetter.java:88-159 | the new state is the protocol's static or live set; a static set on a finishing activity shows no dialog, otherwise a fresh one, and a dialog held before stays on screen; a live set dismisses the dialog held before; an observer is registered exactly by a static set on a lifecycle owner that is not finishing |
| `Setter.WallpaperSetter.OnPersistSuccess` | src/com/android/wallpaper/module/WallpaperSetter.java:140-148 | the new state is the protocol's settled state; the callback hears onSuccess |
| `Setter.WallpaperSetter.OnPersistError` | src/com/android/wallpaper/module/WallpaperSetter.java:150-156 | the new state is the protocol's settled state; the callback hears onError |
| `Setter.WallpaperSetter.SetCurrentLiveWallpaper` | src/com/android/wallpaper/module/WallpaperSetter.java:161-194 | the new state is `Protocol.SetLive` of the old one; the callback hears `Protocol.Notifications` |
| `Setter.WallpaperSetter.SetCurrentLiveWallpaperFromRestore` | src/com/android/wallpaper/module/WallpaperSetter.java:220-248 | changes no state (it modifies nothing); the callback hears `Protocol.Notifications` |
| `Setter.WallpaperSetter.RequestDestination` | src/com/android/wallpaper/module/WallpaperSetter.java:313-316 | the new state is the protocol's save-and-lock |
| `Setter.WallpaperSetter.OnDialogSet` | src/com/android/wallpaper/module/WallpaperSetter.java:319-323 | changes no state; the destination reaches the caller's listener when there is one |
| `Setter.WallpaperSetter.OnDialogDismissed` | src/com/android/wallpaper/module/WallpaperSetter.java:326-333 | restores exactly when no item was selected; the dismissal reaches the caller's listener when there is one |
| `Setter.WallpaperSetter.OnLifecycleDestroy` | src/com/android/wallpaper/module/WallpaperSetter.java:121-132 | the new state is `Protocol.LifecycleDestroy` of the old one; with an observer registered, the held dialog is dismissed; a dialog still held afterwards is the same object, still on screen |

## Left out

- The platform calls of the live paths: `WallpaperManager`, `saveWallpaper`, the
  reflective `setWallpaperComponent` with its fallback, and the float offsets and
  offset steps. They are reduced to where they may throw (`LiveOutcome`).
- Glide's memory clearing and `clearCurrentWallpaperInfos`. They are foreign calls
  with no state visible to this model.
- The progress dialog's theme, title, message and indeterminate flag. These are
  presentation only.
- Analytics (`logWallpaperApplied`) and `storeLatestWallpaper`. Their content and
  storage format belong to collaborators.
- `WallpaperColors.fromBitmap` and asset bitmap loading. Image decoding is done by
  a collaborator.
- Rendering of the destination dialog and `FragmentManager.show`. The Activity's
  own changes to its requested orientation are not modelled either:
  `ProtocolProperties.RunAnchored` describes a world where only this setter
  changes it.
- One activity at a time: `View` relates the setter to a single activity. The
  source lets a caller save one activity's orientation and restore it onto
  another. The methods' contracts still hold per activity, but the trace lemmas
  speak of a single activity.
- Lifecycle events other than `ON_DESTROY` are not modelled, because the observer ignores them.
  Several observers registered on one activity are represented as one, because each
  of them clears the same field.
- Setter.WallpaperSetter.SetCurrentWallpaper: the wallpaper, asset, crop, scale,
  colors and destination are passed to collaborators only, and are not parameters
  of the model. The call to the persister's `setIndividualWallpaper` is not
  modelled; the model delivers its callback later, as `OnPersistSuccess` or
  `OnPersistError`.
- Setter.WallpaperSetter.SetCurrentWallpaper: the static path is modelled as
  throwing nothing. The source has no try around it. If `Glide`'s memory clearing,
  `ProgressDialog.show` or `setIndividualWallpaper` throws, the exception
  propagates to the caller. The status then stays PENDING, the orientation stays
  locked, and no callback follows. The model does not capture that outcome.
- The test WallpaperSnapshotRestorerTest.kt exercises classes whose sources are not
  part of this model, so the snapshot restorer is not modelled.
