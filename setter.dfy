/**
 * WallpaperSetter as a class whose methods update its fields in place.
 * Each method is proved against the transition of module Protocol that it
 * implements, through View, which reads the setter and one activity.
 *
 * The preferences store is reduced to its pending wallpaper-set status, a
 * field of the setter; the optional SetWallpaperCallback and the destination
 * dialog's Listener are reduced to the notifications they receive, returned
 * as out-parameters. The persister's and the dialog's asynchronous callbacks
 * are methods that the caller invokes afterwards, on the same activity.
 */
module Setter {
  import opened Wrappers
  import opened Protocol

  /** The parts of an Activity the setter reads and writes. */
  class Activity {
    var requestedOrientation: int
    var isFinishing: bool
    const isLifecycleOwner: bool

    constructor (orientation: int, finishing: bool, lifecycleOwner: bool)
      ensures requestedOrientation == orientation
      ensures isFinishing == finishing && isLifecycleOwner == lifecycleOwner
    {
      requestedOrientation := orientation;
      isFinishing := finishing;
      isLifecycleOwner := lifecycleOwner;
    }

    method SetRequestedOrientation(orientation: int)
      modifies this`requestedOrientation
      ensures requestedOrientation == orientation
    {
      requestedOrientation := orientation;
    }
  }

  /** A ProgressDialog, reduced to whether it is on screen. */
  class ProgressDialog {
    var showing: bool

    constructor ()
      ensures !showing
    {
      showing := false;
    }

    method Show()
      modifies this
      ensures showing
    {
      showing := true;
    }

    method Dismiss()
      modifies this
      ensures !showing
    {
      showing := false;
    }
  }

  /** What the destination dialog's own listener is told by the wrapper. */
  datatype ListenerCall = Set(destination: int) | Dismissed(withItemSelected: bool)

  class WallpaperSetter {
    var currentScreenOrientation: Option<int>
    var progressDialog: ProgressDialog?
    var pendingStatus: Status
    /** The activities on whose lifecycle this setter has registered an ON_DESTROY observer. */
    var observed: set<Activity>

    /** The dialog the setter holds is the one on screen. */
    ghost predicate Valid()
      reads this, progressDialog
    {
      progressDialog != null ==> progressDialog.showing
    }

    /** The protocol state of this setter together with `activity`. */
    function View(activity: Activity): State
      reads this, activity
    {
      State(currentScreenOrientation, activity.requestedOrientation, activity.isFinishing,
            activity.isLifecycleOwner, pendingStatus, progressDialog != null, activity in observed)
    }

    /** The preferences' status is not known to the setter; it is whatever was stored before. */
    constructor (pending: Status)
      ensures Valid()
      ensures currentScreenOrientation.None? && progressDialog == null
      ensures pendingStatus == pending && observed == {}
    {
      currentScreenOrientation := None;
      progressDialog := null;
      pendingStatus := pending;
      observed := {};
    }

    method SaveAndLockScreenOrientationIfNeeded(activity: Activity)
      modifies this`currentScreenOrientation, activity`requestedOrientation
      ensures View(activity) == SaveAndLock(old(View(activity)))
    {
      if currentScreenOrientation.None? {
        currentScreenOrientation := Some(activity.requestedOrientation);
        activity.SetRequestedOrientation(SCREEN_ORIENTATION_LOCKED);
      }
    }

    method RestoreScreenOrientationIfNeeded(activity: Activity)
      modifies this`currentScreenOrientation, activity`requestedOrientation
      ensures View(activity) == Restore(old(View(activity)))
    {
      match currentScreenOrientation
      case Some(orientation) =>
        if activity.requestedOrientation != orientation {
          activity.SetRequestedOrientation(orientation);
        }
        currentScreenOrientation := None;
      case None =>
    }

    /** Dismiss and drop the progress dialog, if one is held. */
    method CleanUp()
      modifies this`progressDialog, progressDialog
      ensures progressDialog == null
      ensures old(progressDialog) != null ==> !old(progressDialog).showing
    {
      if progressDialog != null {
        progressDialog.Dismiss();
        progressDialog := null;
      }
    }

    /** After a successful set: the status becomes NOT_PENDING, cleanUp, restore. */
    method OnWallpaperApplied(activity: Activity)
      modifies this`pendingStatus, this`progressDialog, progressDialog
      modifies this`currentScreenOrientation, activity`requestedOrientation
      ensures View(activity) == Settle(old(View(activity)))
      ensures old(progressDialog) != null ==> !old(progressDialog).showing
    {
      pendingStatus := NotPending;
      CleanUp();
      RestoreScreenOrientationIfNeeded(activity);
    }

    /** After a failed set: the same state changes as OnWallpaperApplied. */
    method OnWallpaperApplyError(activity: Activity)
      modifies this`pendingStatus, this`progressDialog, progressDialog
      modifies this`currentScreenOrientation, activity`requestedOrientation
      ensures View(activity) == Settle(old(View(activity)))
      ensures old(progressDialog) != null ==> !old(progressDialog).showing
    {
      pendingStatus := NotPending;
      CleanUp();
      RestoreScreenOrientationIfNeeded(activity);
    }

    /**
     * setCurrentWallpaper. A live wallpaper is set at once (its platform
     * calls behave as `liveOutcome` says); a static one is handed to the
     * persister, whose outcome arrives later as OnPersistSuccess or
     * OnPersistError.
     */
    method SetCurrentWallpaper(activity: Activity, isLive: bool, liveOutcome: LiveOutcome, hasCallback: bool)
      returns (notified: seq<Notification>)
      requires Valid()
      modifies this, activity`requestedOrientation, progressDialog
      ensures Valid()
      ensures View(activity) == Step(old(View(activity)), if isLive then LiveSet(liveOutcome) else StaticSet)
      ensures notified == if isLive then Notifications(liveOutcome, hasCallback) else []
      // a static set on a finishing activity shows no dialog
      ensures !isLive && activity.isFinishing ==> progressDialog == old(progressDialog)
      // otherwise it shows a new one, and a dialog held before is left on screen, no longer held
      ensures !isLive && !activity.isFinishing ==> fresh(progressDialog)
      ensures !isLive && old(progressDialog) != null ==> old(progressDialog).showing
      // a live set dismisses the dialog held before, through cleanUp
      ensures isLive && old(progressDialog) != null ==> !old(progressDialog).showing
      // only a static set on a lifecycle owner that is not finishing registers an observer
      ensures observed == if !isLive && !activity.isFinishing && activity.isLifecycleOwner
                          then old(observed) + {activity} else old(observed)
    {
      if isLive {
        notified := SetCurrentLiveWallpaper(activity, liveOutcome, hasCallback);
        return;
      }
      pendingStatus := Pending;
      SaveAndLockScreenOrientationIfNeeded(activity);
      if !activity.isFinishing {
        progressDialog := new ProgressDialog();
        if activity.isLifecycleOwner {
          observed := observed + {activity};
        }
        progressDialog.Show();
      }
      notified := [];
    }

    /** The static set's persister callback, success branch. */
    method OnPersistSuccess(activity: Activity, hasCallback: bool) returns (notified: seq<Notification>)
      modifies this`pendingStatus, this`progressDialog, progressDialog
      modifies this`currentScreenOrientation, activity`requestedOrientation
      ensures View(activity) == Step(old(View(activity)), PersistSuccess)
      ensures old(progressDialog) != null ==> !old(progressDialog).showing
      ensures notified == if hasCallback then [Success] else []
    {
      OnWallpaperApplied(activity);
      notified := if hasCallback then [Success] else [];
    }

    /** The static set's persister callback, error branch. */
    method OnPersistError(activity: Activity, hasCallback: bool) returns (notified: seq<Notification>)
      modifies this`pendingStatus, this`progressDialog, progressDialog
      modifies this`currentScreenOrientation, activity`requestedOrientation
      ensures View(activity) == Step(old(View(activity)), PersistError)
      ensures old(progressDialog) != null ==> !old(progressDialog).showing
      ensures notified == if hasCallback then [Error] else []
    {
      OnWallpaperApplyError(activity);
      notified := if hasCallback then [Error] else [];
    }

    method SetCurrentLiveWallpaper(activity: Activity, outcome: LiveOutcome, hasCallback: bool)
      returns (notified: seq<Notification>)
      modifies this`pendingStatus, this`progressDialog, progressDialog
      modifies this`currentScreenOrientation, activity`requestedOrientation
      ensures View(activity) == SetLive(old(View(activity)), outcome)
      ensures old(progressDialog) != null ==> !old(progressDialog).showing
      ensures notified == Notifications(outcome, hasCallback)
    {
      SaveAndLockScreenOrientationIfNeeded(activity);
      notified := [];
      if outcome == FailedBeforeApply {
        OnWallpaperApplyError(activity);
        if hasCallback {
          notified := notified + [Error];
        }
        return;
      }
      OnWallpaperApplied(activity);
      if hasCallback {
        notified := notified + [Success];
      }
      if outcome == FailedAfterApply {
        // the catch block runs after the success path had already settled
        OnWallpaperApplyError(activity);
        if hasCallback {
          notified := notified + [Error];
        }
      }
    }

    /**
     * setCurrentLiveWallpaperFromRestore: no UI, so no orientation lock,
     * no pending status and no dialog; only the callback hears the outcome.
     */
    method SetCurrentLiveWallpaperFromRestore(outcome: LiveOutcome, hasCallback: bool)
      returns (notified: seq<Notification>)
      ensures notified == Notifications(outcome, hasCallback)
    {
      notified := [];
      if outcome != FailedBeforeApply && hasCallback {
        notified := notified + [Success];
      }
      if outcome != Applied && hasCallback {
        notified := notified + [Error];
      }
    }

    /** requestDestination: lock the orientation while the destination dialog is up. */
    method RequestDestination(activity: Activity)
      modifies this`currentScreenOrientation, activity`requestedOrientation
      ensures View(activity) == Step(old(View(activity)), Protocol.RequestDestination)
    {
      SaveAndLockScreenOrientationIfNeeded(activity);
    }

    /** The listener wrapper's onSet: forwards to the caller's listener, if any. */
    method OnDialogSet(destination: int, hasListener: bool) returns (forwarded: seq<ListenerCall>)
      ensures forwarded == if hasListener then [Set(destination)] else []
    {
      forwarded := if hasListener then [Set(destination)] else [];
    }

    /** The listener wrapper's onDialogDismissed: restores unless a destination was chosen, then forwards. */
    method OnDialogDismissed(activity: Activity, withItemSelected: bool, hasListener: bool)
      returns (forwarded: seq<ListenerCall>)
      modifies this`currentScreenOrientation, activity`requestedOrientation
      ensures View(activity) == Step(old(View(activity)), DialogDismissed(withItemSelected))
      ensures forwarded == if hasListener then [Dismissed(withItemSelected)] else []
    {
      if !withItemSelected {
        RestoreScreenOrientationIfNeeded(activity);
      }
      forwarded := if hasListener then [Dismissed(withItemSelected)] else [];
    }

    /** ON_DESTROY of `activity`, delivered to the observers this setter registered there. */
    method OnLifecycleDestroy(activity: Activity)
      modifies this`progressDialog, progressDialog
      ensures View(activity) == Step(old(View(activity)), Destroyed)
      ensures activity in observed && old(progressDialog) != null ==> !old(progressDialog).showing
      // a dialog still held afterwards is the same one, untouched
      ensures progressDialog != null ==>
                progressDialog == old(progressDialog) && progressDialog.showing == old(progressDialog.showing)
    {
      if activity in observed && progressDialog != null {
        progressDialog.Dismiss();
        progressDialog := null;
      }
    }
  }
}
