/** What the orientation, pending-status and dialog protocol promises. */
module ProtocolProperties {
  import opened Wrappers
  import opened Protocol

  /** A second save-and-lock changes nothing. */
  lemma SaveAndLockIdempotent(s: State)
    ensures SaveAndLock(SaveAndLock(s)) == SaveAndLock(s)
  {
  }

  /** Restore undoes exactly the save that filled the slot. */
  lemma RestoreUndoesSave(s: State)
    requires s.saved.None?
    ensures Restore(SaveAndLock(s)) == s
  {
  }

  /** A second restore changes nothing. */
  lemma RestoreIdempotent(s: State)
    ensures Restore(Restore(s)) == Restore(s)
  {
  }

  /** Dismissing the destination dialog without a selection restores; with one, it stays locked and saved. */
  lemma DismissOutcome(s: State, withItemSelected: bool)
    requires s.saved.None?
    ensures var t := Step(Step(s, RequestDestination), DialogDismissed(withItemSelected));
      if withItemSelected then t.saved == Some(s.requested) && t.requested == SCREEN_ORIENTATION_LOCKED
      else t == s
  {
  }

  /** Every event keeps the protocol anchored at the same orientation. */
  lemma StepAnchored(s: State, e: Event, o: int)
    requires Anchored(s, o)
    ensures Anchored(Step(s, e), o)
  {
  }

  /** Every trace of events keeps the protocol anchored: the orientation in effect before the first save is never lost. */
  lemma {:induction false} RunAnchored(s: State, events: seq<Event>, o: int)
    requires Anchored(s, o)
    ensures Anchored(Run(s, events), o)
    decreases |events|
  {
    if events != [] {
      StepAnchored(s, events[0], o);
      RunAnchored(Step(s, events[0]), events[1..], o);
    }
  }

  /** Running a trace and then one more event is running the longer trace. */
  lemma {:induction false} RunSnoc(s: State, events: seq<Event>, e: Event)
    ensures Run(s, events + [e]) == Step(Run(s, events), e)
    decreases |events|
  {
    if events == [] {
      assert [] + [e] == [e];
    } else {
      assert (events + [e])[1..] == events[1..] + [e];
      RunSnoc(Step(s, events[0]), events[1..], e);
    }
  }

  /**
   * Nesting: from an empty slot, whatever events come first, an event that
   * restores leaves the activity at the orientation it requested before
   * the first save, with the slot empty.
   */
  lemma ProtocolReturnsOrientation(s: State, events: seq<Event>, last: Event)
    requires s.saved.None?
    requires Restores(last)
    ensures Run(s, events + [last]).saved.None?
    ensures Run(s, events + [last]).requested == s.requested
  {
    RunAnchored(s, events, s.requested);
    RunSnoc(s, events, last);
    StepAnchored(Run(s, events), last, s.requested);
  }

  /**
   * End to end: request the destination, dismiss with a selection, set a
   * static wallpaper, then the persister reports success or an error.
   */
  lemma EndToEndStaticSet(s: State, succeeded: bool)
    requires s.saved.None?
    ensures var t := Run(s, [RequestDestination, DialogDismissed(true), StaticSet,
                             if succeeded then PersistSuccess else PersistError]);
      t.requested == s.requested && t.saved.None? && t.pending == NotPending && !t.dialogHeld
  {
    var events := [RequestDestination, DialogDismissed(true), StaticSet];
    var last := if succeeded then PersistSuccess else PersistError;
    assert events + [last] == [RequestDestination, DialogDismissed(true), StaticSet, last];
    ProtocolReturnsOrientation(s, events, last);
    RunSnoc(s, events, last);
  }

  /** Between a static set and its persister callback the status stays PENDING. */
  lemma {:induction false} PendingUntilCallback(s: State, events: seq<Event>)
    requires s.pending == Pending
    requires forall i :: 0 <= i < |events| ==> !ClearsPending(events[i])
    ensures Run(s, events).pending == Pending
    decreases |events|
  {
    if events != [] {
      PendingUntilCallback(Step(s, events[0]), events[1..]);
    }
  }

  /** A static set is pending from its start until a callback clears it, which it always does. */
  lemma StaticSetPending(s: State, events: seq<Event>, last: Event)
    requires forall i :: 0 <= i < |events| ==> !ClearsPending(events[i])
    requires ClearsPending(last)
    ensures Run(Step(s, StaticSet), events).pending == Pending
    ensures Run(Step(s, StaticSet), events + [last]).pending == NotPending
    ensures !Run(Step(s, StaticSet), events + [last]).dialogHeld
  {
    PendingUntilCallback(Step(s, StaticSet), events);
    RunSnoc(Step(s, StaticSet), events, last);
  }

  /** Every trace keeps each held dialog of a lifecycle owner observed. */
  lemma {:induction false} RunDialogObserved(s: State, events: seq<Event>)
    requires DialogObserved(s)
    ensures DialogObserved(Run(s, events))
    decreases |events|
  {
    if events != [] {
      RunDialogObserved(Step(s, events[0]), events[1..]);
    }
  }

  /** From a state with no dialog, after any trace ON_DESTROY of a lifecycle owner leaves no dialog held. */
  lemma DestroyReleasesDialog(s: State, events: seq<Event>)
    requires !s.dialogHeld
    requires s.lifecycleOwner
    ensures !LifecycleDestroy(Run(s, events)).dialogHeld
  {
    RunDialogObserved(s, events);
  }

  /** cleanUp is idempotent. */
  lemma CleanUpIdempotent(s: State)
    ensures CleanUp(CleanUp(s)) == CleanUp(s)
  {
  }

  /** A static set shows a dialog exactly when the activity is not finishing (or one was already held). */
  lemma StaticSetDialog(s: State)
    requires !s.dialogHeld
    ensures Step(s, StaticSet).dialogHeld <==> !s.finishing
  {
  }

  /**
   * The restore entry point touches none of the protocol state. On the class
   * this is the empty frame of SetCurrentLiveWallpaperFromRestore; here it is
   * what Step assigns to the event.
   */
  lemma FromRestoreLeavesState(s: State, outcome: LiveOutcome)
    ensures Step(s, FromRestore(outcome)) == s
  {
  }
}
