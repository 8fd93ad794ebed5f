/**
 * The app's session state: who has entered, whether a spin is in progress,
 * the day's counter and recent history for the active partition, and the
 * browser store they are persisted in. The date (the UTC calendar date,
 * YYYY-MM-DD), the clock and the result id are passed in.
 */
module AppState {
  import opened Types
  import opened Outcome
  import opened Ledger
  import WheelEngine

  /** The name recorded in a result: the user's name, or "Unknown" when there is none or it is empty. */
  function UserName(user: Option<UserProfile>): (s: string)
    ensures s != ""
    ensures user.Some? && user.value.name != "" ==> s == user.value.name
  {
    if user.Some? && user.value.name != "" then user.value.name else "Unknown"
  }

  class App {
    var user: Option<UserProfile>
    var isSpinning: bool
    var count: nat
    var history: seq<SpinResult>
    var store: map<string, Stored>

    ghost predicate Valid()
      reads this
    {
      WellFormed(store) && |history| <= 5
    }

    /** Start-up: resume the profile saved under the session key, if there is one. */
    constructor (saved: map<string, Stored>)
      requires WellFormed(saved)
      ensures Valid() && store == saved
      ensures SessionKey in saved ==> saved[SessionKey].ProfileEntry? && user == Some(saved[SessionKey].p)
      ensures SessionKey !in saved ==> user == None
      ensures !isSpinning && count == 0 && history == []
    {
      assert EntryFits(saved, SessionKey);
      store := saved;
      user := if SessionKey in saved then Some(saved[SessionKey].p) else None;
      isSpinning := false;
      count := 0;
      history := [];
    }

    /** The entry screen hands over a profile. */
    method Enter(profile: UserProfile)
      modifies this`user
      ensures user == Some(profile)
    {
      user := Some(profile);
    }

    /** Back to the entry screen; the saved session entry stays in the store. */
    method Leave()
      modifies this`user
      ensures user == None
    {
      user := None;
    }

    /** Reads the counter and the history of the partition for `date`. */
    method Resync(date: string)
      requires Valid() && user.Some?
      modifies this`count, this`history
      ensures Valid()
      ensures var k := GetKeys(user, date);
        && Readable(store, k)
        && count == StoredCount(store, k.countKey)
        && history == StoredHistory(store, k.historyKey)
    {
      var k := GetKeys(user, date);
      KeysReadable(store, user, date);
      count := StoredCount(store, k.countKey);
      history := StoredHistory(store, k.historyKey);
    }

    /** The load effect: with a user, read the partition for `date` and save the profile. */
    method Load(date: string)
      requires Valid()
      modifies this`count, this`history, this`store
      ensures Valid()
      ensures user.None? ==> count == old(count) && history == old(history) && store == old(store)
      ensures user.Some? ==>
        var k := GetKeys(user, date);
        && Readable(old(store), k)
        && count == StoredCount(old(store), k.countKey)
        && history == StoredHistory(old(store), k.historyKey)
        && store == old(store)[SessionKey := ProfileEntry(user.value)]
    {
      if user.None? {
        return;
      }
      Resync(date);
      SessionWriteKeepsWellFormed(store, user.value);
      store := store[SessionKey := ProfileEntry(user.value)];
    }

    /** The spin button: ignored while a spin is in progress, otherwise asks the wheel to spin. */
    method SpinClick(wheel: WheelEngine.Wheel, now: real, r1: real, r2: real, r3: real)
      requires wheel.Valid()
      requires 0.0 <= r1 < 1.0 && 0.0 <= r2 < 1.0 && 0.0 <= r3 < 1.0
      modifies this`isSpinning, wheel
      ensures isSpinning && wheel.Valid()
      ensures old(isSpinning) || old(wheel.spinning) ==> unchanged(wheel)
      ensures !old(isSpinning) && !old(wheel.spinning) ==>
        && wheel.spinning
        && wheel.started == old(wheel.started) + 1
        && wheel.startTime == now
        && wheel.startRotation == old(wheel.rotation)
        && wheel.duration == Duration(wheel.mode, r1)
        && wheel.targetIndex == TargetIndex(r2, |wheel.prizes|)
        && wheel.targetRotation == TargetRotation(FullSpins(wheel.mode, r3), wheel.targetIndex, |wheel.prizes|)
        && wheel.rotation == old(wheel.rotation)
    {
      if isSpinning {
        return;
      }
      isSpinning := true;
      wheel.Spin(now, r1, r2, r3);
    }

    /**
     * The wheel reports `prize`: count it, put the result in front of the
     * history (five at most) and write both to the partition of `date`.
     */
    method OnFinished(prize: Prize, date: string, timestamp: int, id: string) returns (result: SpinResult)
      requires Valid()
      modifies this`count, this`history, this`store, this`isSpinning
      ensures Valid()
      ensures count == old(count) + 1
      ensures result == SpinResult(id, prize.text, timestamp, ModeOf(user), UserName(user), count)
      ensures history == PushHistory(result, old(history))
      ensures var k := GetKeys(user, date);
        store == old(store)[k.countKey := CountEntry(count)][k.historyKey := HistoryEntry(history)]
      ensures !isSpinning
      ensures Numbered(old(count), old(history)) ==> Numbered(count, history)
    {
      var k := GetKeys(user, date);
      var next := count + 1;
      result := SpinResult(id, prize.text, timestamp, ModeOf(user), UserName(user), next);
      if Numbered(count, history) {
        PushKeepsNumbering(count, history, result);
      }
      count := next;
      history := PushHistory(result, history);
      WriteKeepsWellFormed(store, user, date, count, history);
      store := store[k.countKey := CountEntry(count)];
      store := store[k.historyKey := HistoryEntry(history)];
      isSpinning := false;
    }

    /**
     * OnFinished with the counter and history first re-read from the partition
     * of `date`, so that a spin recorded after the date changes starts that
     * day's count afresh.
     */
    method OnFinishedDaily(prize: Prize, date: string, timestamp: int, id: string) returns (result: SpinResult)
      requires Valid()
      modifies this`count, this`history, this`store, this`isSpinning
      ensures Valid() && !isSpinning
      ensures user.Some? ==>
        var k := GetKeys(user, date);
        && Readable(old(store), k)
        && count == StoredCount(old(store), k.countKey) + 1
        && result.spinNumber == count
        && history == PushHistory(result, StoredHistory(old(store), k.historyKey))
        && store == old(store)[k.countKey := CountEntry(count)][k.historyKey := HistoryEntry(history)]
    {
      if user.Some? {
        Resync(date);
      }
      result := OnFinished(prize, date, timestamp, id);
    }
  }

  /**
   * Two spins from an empty store on one day: spin numbers 1 and 2, the
   * history holds both, newest first, and the stored counter is 2.
   */
  method TwoSpinsOneDay(profile: UserProfile, prize: Prize, date: string)
    returns (first: SpinResult, second: SpinResult, history: seq<SpinResult>, stored: nat)
    ensures first.spinNumber == 1 && second.spinNumber == 2
    ensures first.prize == second.prize == prize.text
    ensures history == [second, first]
    ensures stored == 2
  {
    var k := GetKeys(Some(profile), date);
    var app := new App(map[]);
    app.Enter(profile);
    app.Load(date);
    assert app.count == 0 && app.history == [];
    first := app.OnFinished(prize, date, 1000, "a");
    assert app.history == [first];
    second := app.OnFinished(prize, date, 2000, "b");
    assert app.count == 2;
    history := app.history;
    assert app.store[k.countKey] == CountEntry(2);
    stored := StoredCount(app.store, k.countKey);
  }

  /**
   * The app stays open from day d1 into day d2: the load effect does not run
   * again, and the next spin writes d1's count plus one under d2's key,
   * although nothing was recorded on d2 before.
   */
  method DayRolloverCarriesCount(profile: UserProfile, prize: Prize, d1: string, d2: string)
    returns (storedBefore: nat, storedAfter: nat)
    requires |d1| == |d2| && d1 != d2
    ensures storedBefore == 0 && storedAfter == 2
  {
    var user := Some(profile);
    var oldDay, newDay := GetKeys(user, d1), GetKeys(user, d2);
    DaysApart(user, d1, d2);
    var app := new App(map[]);
    app.Enter(profile);
    app.Load(d1);
    assert app.store == map[SessionKey := ProfileEntry(profile)];
    var _ := app.OnFinished(prize, d1, 1000, "a");
    assert app.count == 1;
    assert newDay.countKey !in app.store;
    storedBefore := StoredCount(app.store, newDay.countKey);
    var _ := app.OnFinished(prize, d2, 2000, "b");
    assert app.store[newDay.countKey] == CountEntry(2);
    storedAfter := StoredCount(app.store, newDay.countKey);
  }

  /** The same day change with OnFinishedDaily: d2's counter starts at 1 and d1's keeps its 1. */
  method DayRolloverStartsFresh(profile: UserProfile, prize: Prize, d1: string, d2: string)
    returns (storedBefore: nat, storedAfter: nat, previousDay: nat)
    requires |d1| == |d2| && d1 != d2
    ensures storedBefore == 0 && storedAfter == 1 && previousDay == 1
  {
    var user := Some(profile);
    var oldDay, newDay := GetKeys(user, d1), GetKeys(user, d2);
    DaysApart(user, d1, d2);
    var app := new App(map[]);
    app.Enter(profile);
    app.Load(d1);
    assert app.store == map[SessionKey := ProfileEntry(profile)];
    var _ := app.OnFinishedDaily(prize, d1, 1000, "a");
    assert app.store.Keys == {SessionKey, oldDay.countKey, oldDay.historyKey};
    assert app.store[oldDay.countKey] == CountEntry(1);
    storedBefore := StoredCount(app.store, newDay.countKey);
    var _ := app.OnFinishedDaily(prize, d2, 2000, "b");
    assert app.store[newDay.countKey] == CountEntry(1);
    storedAfter := StoredCount(app.store, newDay.countKey);
    previousDay := StoredCount(app.store, oldDay.countKey);
  }
}
