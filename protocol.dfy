/**
 * The screen-orientation lock/restore protocol of WallpaperSetter, the
 * pending-status flag and the progress-dialog lifetime, as a state machine
 * over values. The class in module Setter is proved against these functions.
 *
 * One activity is involved: its requested orientation, whether it is
 * finishing and whether it is a lifecycle owner are part of the state.
 */
module Protocol {
  import opened Wrappers

  /** The platform's ActivityInfo.SCREEN_ORIENTATION_LOCKED. */
  const SCREEN_ORIENTATION_LOCKED: int := 14

  /** The two values the setter writes to the preferences' pending status. */
  datatype Status = Pending | NotPending

  /** What an optional SetWallpaperCallback is told. */
  datatype Notification = Success | Error

  /**
   * How the platform calls inside a live-wallpaper set behave:
   * all succeed; one throws before the success notification (saving the
   * wallpaper, setting the component, the offsets, storing the preferences);
   * or the caller's onSuccess or the persister's onLiveWallpaperSet throws
   * after it.
   */
  datatype LiveOutcome = Applied | FailedBeforeApply | FailedAfterApply

  datatype State = State(
    saved: Option<int>,     // mCurrentScreenOrientation
    requested: int,         // the activity's requested orientation
    finishing: bool,        // the activity's isFinishing()
    lifecycleOwner: bool,   // whether the activity is a LifecycleOwner
    pending: Status,        // the preferences' pending wallpaper-set status
    dialogHeld: bool,       // mProgressDialog != null
    observing: bool)        // an ON_DESTROY observer of this setter is registered on the activity

  /** Only the orientation slot and the requested orientation may differ. */
  predicate OnlyOrientationChanged(s: State, r: State) {
    r.finishing == s.finishing && r.lifecycleOwner == s.lifecycleOwner &&
    r.pending == s.pending && r.dialogHeld == s.dialogHeld && r.observing == s.observing
  }

  /** saveAndLockScreenOrientationIfNeeded */
  function SaveAndLock(s: State): (r: State)
    ensures r.saved.Some?
    ensures s.saved.None? ==> r.saved == Some(s.requested) && r.requested == SCREEN_ORIENTATION_LOCKED
    ensures s.saved.Some? ==> r == s
    ensures OnlyOrientationChanged(s, r)
  {
    match s.saved
    case None => s.(saved := Some(s.requested), requested := SCREEN_ORIENTATION_LOCKED)
    case Some(_) => s
  }

  /** restoreScreenOrientationIfNeeded */
  function Restore(s: State): (r: State)
    ensures r.saved.None?
    ensures s.saved.Some? ==> r.requested == s.saved.value
    ensures s.saved.None? ==> r == s
    ensures OnlyOrientationChanged(s, r)
  {
    match s.saved
    case None => s
    case Some(orientation) =>
      // the source only calls setRequestedOrientation when the value differs;
      // either way the activity ends up requesting the saved orientation
      var t := if s.requested != orientation then s.(requested := orientation) else s;
      t.(saved := None)
  }

  /** cleanUp: dismiss and drop the progress dialog, if any. */
  function CleanUp(s: State): (r: State)
    ensures !r.dialogHeld
    ensures r == s.(dialogHeld := false)
  {
    if s.dialogHeld then s.(dialogHeld := false) else s
  }

  /**
   * The common tail of onWallpaperApplied and onWallpaperApplyError: the
   * pending status becomes NOT_PENDING, cleanUp, then the orientation is
   * restored. (onWallpaperApplied also logs, which is not modelled.)
   */
  function Settle(s: State): (r: State)
    ensures r.pending == NotPending && !r.dialogHeld && r.saved.None?
    ensures r.requested == (if s.saved.Some? then s.saved.value else s.requested)
    ensures r.finishing == s.finishing && r.lifecycleOwner == s.lifecycleOwner && r.observing == s.observing
  {
    Restore(CleanUp(s.(pending := NotPending)))
  }

  /** setCurrentWallpaper for a static wallpaper, up to handing the work to the persister. */
  function SetStatic(s: State): (r: State)
    ensures r.pending == Pending
    ensures r.saved.Some?
    ensures r.saved == SaveAndLock(s).saved && r.requested == SaveAndLock(s).requested
    ensures r.dialogHeld <==> s.dialogHeld || !s.finishing
    ensures r.observing <==> s.observing || (!s.finishing && s.lifecycleOwner)
    ensures r.finishing == s.finishing && r.lifecycleOwner == s.lifecycleOwner
  {
    var t := SaveAndLock(s.(pending := Pending));
    if t.finishing then t
    else t.(dialogHeld := true, observing := t.observing || t.lifecycleOwner)
  }

  /**
   * setCurrentLiveWallpaper: save and lock, then either onWallpaperApplied
   * or onWallpaperApplyError; when a call after the success notification
   * throws, onWallpaperApplyError runs after onWallpaperApplied.
   */
  function SetLive(s: State, outcome: LiveOutcome): (r: State)
    ensures r.pending == NotPending && !r.dialogHeld && r.saved.None?
    ensures r.requested == (if s.saved.Some? then s.saved.value else s.requested)
    ensures r.finishing == s.finishing && r.lifecycleOwner == s.lifecycleOwner && r.observing == s.observing
  {
    var locked := SaveAndLock(s);
    var t := Settle(locked);
    if outcome == FailedAfterApply then Settle(t) else t
  }

  /** The lifecycle observer's reaction to ON_DESTROY. */
  function LifecycleDestroy(s: State): (r: State)
    ensures s.observing ==> !r.dialogHeld
    ensures !s.observing ==> r == s
    ensures r == s.(dialogHeld := r.dialogHeld)
  {
    if s.observing && s.dialogHeld then s.(dialogHeld := false) else s
  }

  /**
   * What the optional callback hears in a live set (both setCurrentLiveWallpaper
   * and setCurrentLiveWallpaperFromRestore): onSuccess unless a call before it
   * threw, and onError whenever anything threw, after onSuccess if that came first.
   */
  function Notifications(outcome: LiveOutcome, hasCallback: bool): (r: seq<Notification>)
    ensures !hasCallback ==> r == []
    ensures hasCallback ==> 1 <= |r| <= 2
    ensures hasCallback ==> (|r| == 2 <==> outcome == FailedAfterApply)
    ensures hasCallback ==> (r[0] == Success <==> outcome != FailedBeforeApply)
    ensures hasCallback ==> (r[|r| - 1] == Error <==> outcome != Applied)
    ensures Success in r ==> r[0] == Success
  {
    if !hasCallback then []
    else
      match outcome
      case Applied => [Success]
      case FailedBeforeApply => [Error]
      case FailedAfterApply => [Success, Error]
  }

  /** The UI-thread events that drive the protocol. */
  datatype Event =
    | RequestDestination                        // requestDestination shows the destination dialog
    | DialogSet                                 // the dialog's onSet
    | DialogDismissed(withItemSelected: bool)   // the dialog's onDialogDismissed
    | StaticSet                                 // setCurrentWallpaper with a static wallpaper
    | LiveSet(outcome: LiveOutcome)             // setCurrentWallpaper with a live wallpaper
    | PersistSuccess                            // the persister reports success
    | PersistError                              // the persister reports an error
    | CleanUpCalled                             // the owner calls cleanUp
    | Destroyed                                 // the activity's lifecycle reaches ON_DESTROY
    | FromRestore(outcome: LiveOutcome)         // setCurrentLiveWallpaperFromRestore

  /**
   * One event on the UI thread. No event changes the activity itself (its
   * finishing and lifecycle-owner flags: Activity.finish() is not an event of
   * this protocol), and an observer once registered stays registered.
   */
  function Step(s: State, e: Event): (r: State)
    ensures r.finishing == s.finishing && r.lifecycleOwner == s.lifecycleOwner
    ensures s.observing ==> r.observing
    ensures Restores(e) ==> r.saved.None?
    ensures ClearsPending(e) ==> r.pending == NotPending
    ensures e.DialogSet? || e.FromRestore? ==> r == s
  {
    match e
    case RequestDestination => SaveAndLock(s)
    case DialogSet => s
    case DialogDismissed(withItemSelected) => if withItemSelected then s else Restore(s)
    case StaticSet => SetStatic(s)
    case LiveSet(outcome) => SetLive(s, outcome)
    case PersistSuccess => Settle(s)
    case PersistError => Settle(s)
    case CleanUpCalled => CleanUp(s)
    case Destroyed => LifecycleDestroy(s)
    case FromRestore(_) => s
  }

  /** The state after a sequence of events, in order. */
  function Run(s: State, events: seq<Event>): (r: State)
    ensures r.finishing == s.finishing && r.lifecycleOwner == s.lifecycleOwner
    ensures s.observing ==> r.observing
    decreases |events|
  {
    if events == [] then s else Run(Step(s, events[0]), events[1..])
  }

  /** The events after which the orientation slot is empty. */
  predicate Restores(e: Event) {
    (e.DialogDismissed? && !e.withItemSelected) || e.LiveSet? || e.PersistSuccess? || e.PersistError?
  }

  /** The events that write NOT_PENDING. */
  predicate ClearsPending(e: Event) {
    e.LiveSet? || e.PersistSuccess? || e.PersistError?
  }

  /**
   * The orientation protocol is anchored at `o`, the orientation requested
   * before the first save: with the slot empty the activity requests `o`;
   * with it full the slot holds `o` and the activity is locked.
   */
  predicate Anchored(s: State, o: int) {
    match s.saved
    case None => s.requested == o
    case Some(v) => v == o && s.requested == SCREEN_ORIENTATION_LOCKED
  }

  /** A dialog held for a lifecycle-owning activity has an ON_DESTROY observer behind it. */
  predicate DialogObserved(s: State) {
    s.dialogHeld && s.lifecycleOwner ==> s.observing
  }
}
