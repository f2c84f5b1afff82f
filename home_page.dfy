/**
 * The alarm list of the alarm-clock home page (class `HomePage`).
 *
 * The page keeps the chosen input, the alarm list in memory and, under the
 * storage key 'alarms', a persisted copy of it. Loading purges expired alarms,
 * sorts and saves the rest and arms one timer each; setting an alarm
 * validates the input, inserts, re-sorts, saves and arms a timer; deleting
 * removes one entry and saves.
 *
 * The clock is the parameter `now` (milliseconds), read once per operation.
 * Storage is the field `stored`, written synchronously. A timer is the entry
 * of `armed` recording the delay handed to `setTimeout`; firing is not
 * modelled.
 */
module Home {

  import opened Wrappers
  import opened AlarmList

  /**
   * The value of the date-time input: empty, a non-empty text that parses to
   * an invalid date (whose time is NaN, so it is never after now), or a time.
   */
  datatype TimeInput = Blank | Unparsable | At(time: int)

  /**
   * Which branch `setAlarm` took: nothing entered, the error dialog for a time
   * not in the future, or the alarm scheduled.
   */
  datatype SetOutcome = Ignored | Rejected | Scheduled(time: int)

  class HomePage {
    /** The input field bound to the date-time picker. */
    var alarmTime: TimeInput
    /** The alarms in memory, as fire times. */
    var alarms: seq<int>
    /** The value under the storage key 'alarms'; None while the key is absent. */
    var stored: Option<seq<int>>
    /** The delays of all timers armed so far, in the order they were armed. */
    var armed: seq<int>

    /** The list in memory is always in ascending order of time. */
    ghost predicate Valid()
      reads this
    {
      Sorted(alarms)
    }

    /** The persisted copy equals the list in memory. */
    ghost predicate InSync()
      reads this
    {
      stored == Some(alarms)
    }

    /** A fresh page over the storage as it was left by earlier runs. */
    constructor (storage: Option<seq<int>>)
      ensures Valid()
      ensures alarmTime == Blank && alarms == [] && armed == []
      ensures stored == storage
    {
      alarmTime := Blank;
      alarms := [];
      stored := storage;
      armed := [];
    }

    /**
     * ngOnInit. With nothing stored, nothing happens. Otherwise the page takes
     * the stored alarms strictly after `now`, sorts and saves them, and arms
     * one timer per alarm, in list order, for `time - now`.
     */
    method Load(now: int)
      requires Valid()
      modifies this`alarms, this`stored, this`armed
      ensures Valid()
      ensures old(stored).None? ==>
        alarms == old(alarms) && stored == old(stored) && armed == old(armed)
      ensures old(stored).Some? ==>
        && alarms == Loaded(old(stored).value, now)
        && InSync()
        && armed == old(armed) + Delays(alarms, now)
      ensures old(stored).Some? ==> AllAfter(alarms, now)
      ensures old(stored).Some? ==> AllAfter(armed[|old(armed)|..], 0)
    {
      if stored.Some? {
        alarms := Upcoming(stored.value, now);
        SortAlarmsAndSave();
        ArmTimers(now);
        assert armed[|old(armed)|..] == Delays(alarms, now);
        DelaysPositive(alarms, now);
      }
    }

    /**
     * The `forEach` of ngOnInit: one timer per alarm, in list order, each for
     * `time - now`.
     */
    method ArmTimers(now: int)
      modifies this`armed
      ensures armed == old(armed) + Delays(alarms, now)
    {
      var i := 0;
      while i < |alarms|
        invariant 0 <= i <= |alarms|
        invariant armed == old(armed) + Delays(alarms[..i], now)
      {
        DelaysExtend(alarms, i, now);
        armed := armed + [alarms[i] - now];
        i := i + 1;
      }
      assert alarms[..i] == alarms;
    }

    /**
     * setAlarm. An empty input is ignored. A time not strictly after `now`
     * (or an unparsable one) is rejected and everything, the input included,
     * stays as it was. A future time is scheduled by ConfigureAlarm.
     */
    method SetAlarm(now: int) returns (outcome: SetOutcome)
      requires Valid()
      modifies this
      ensures Valid()
      ensures outcome.Scheduled? <==> old(alarmTime).At? && now < old(alarmTime).time
      ensures outcome.Ignored? <==> old(alarmTime).Blank?
      ensures !outcome.Scheduled? ==> alarmTime == old(alarmTime) && alarms == old(alarms)
      ensures !outcome.Scheduled? ==> stored == old(stored) && armed == old(armed)
      ensures outcome.Scheduled? ==> outcome.time == old(alarmTime).time && alarmTime == Blank
      ensures outcome.Scheduled? ==> alarms == SortAscending(old(alarms) + [outcome.time])
      ensures outcome.Scheduled? ==> |alarms| == |old(alarms)| + 1 && InSync()
      ensures outcome.Scheduled? ==> armed == old(armed) + [outcome.time - now]
      ensures outcome.Scheduled? ==> 0 < outcome.time - now
    {
      match alarmTime
      case Blank =>
        outcome := Ignored;
      case Unparsable =>
        outcome := Rejected;
      case At(t) =>
        if now < t {
          ConfigureAlarm(t, now);
          outcome := Scheduled(t);
        } else {
          outcome := Rejected;
        }
    }

    /**
     * configureAlarm. Adds the alarm, sorts and saves the list, arms a timer
     * for `alarmDate - now` and clears the input field.
     */
    method ConfigureAlarm(alarmDate: int, now: int)
      modifies this
      ensures Valid() && InSync()
      ensures alarms == SortAscending(old(alarms) + [alarmDate])
      ensures |alarms| == |old(alarms)| + 1
      ensures armed == old(armed) + [alarmDate - now]
      ensures alarmTime == Blank
    {
      alarms := alarms + [alarmDate];
      SortAlarmsAndSave();
      armed := armed + [alarmDate - now];
      alarmTime := Blank;
    }

    /**
     * deleteAlarm, as `splice(index, 1)` followed by a save: at most one
     * alarm goes, the rest keep their order, and no timer is cancelled.
     */
    method DeleteAlarm(index: int)
      requires Valid()
      modifies this`alarms, this`stored
      ensures Valid() && InSync()
      ensures alarms == SpliceOne(old(alarms), index)
      ensures 0 <= index < |old(alarms)| ==>
        alarms == old(alarms)[..index] + old(alarms)[index + 1..]
      ensures armed == old(armed) && alarmTime == old(alarmTime)
    {
      DeleteKeepsSorted(alarms, index);
      alarms := SpliceOne(alarms, index);
      stored := Some(alarms);
    }

    /** sortAlarmsAndSave: sorts the list in ascending order of time and saves it. */
    method SortAlarmsAndSave()
      modifies this`alarms, this`stored
      ensures Valid() && InSync()
      ensures alarms == SortAscending(old(alarms))
    {
      alarms := SortAscending(alarms);
      stored := Some(alarms);
    }
  }

  // Scenarios at 10:00, with times in milliseconds since midnight.

  const MINUTE := 60_000
  const TEN_O_CLOCK := 600 * MINUTE

  /** At 10:00, an alarm for 10:05 is accepted and armed for five minutes. */
  method ScheduleFutureAlarm()
  {
    var page := new HomePage(None);
    page.alarmTime := At(TEN_O_CLOCK + 5 * MINUTE);
    var outcome := page.SetAlarm(TEN_O_CLOCK);
    assert outcome == Scheduled(TEN_O_CLOCK + 5 * MINUTE);
    SortOfSorted([TEN_O_CLOCK + 5 * MINUTE]);
    assert page.alarms == [TEN_O_CLOCK + 5 * MINUTE];
    assert page.armed == [5 * MINUTE] && page.alarmTime == Blank;
  }

  /** At 10:00, an alarm for 9:59 is rejected; list and input stay as they were. */
  method RejectPastAlarm()
  {
    var page := new HomePage(None);
    page.alarmTime := At(TEN_O_CLOCK - MINUTE);
    var outcome := page.SetAlarm(TEN_O_CLOCK);
    assert outcome == Rejected;
    assert page.alarms == [] && page.armed == [];
    assert page.alarmTime == At(TEN_O_CLOCK - MINUTE);
  }

  /** Restarting at 10:10 with [10:05, 11:00] stored keeps [11:00] and arms one timer. */
  method RestartPurgesExpired()
  {
    var both := [TEN_O_CLOCK + 5 * MINUTE, TEN_O_CLOCK + 60 * MINUTE];
    var restart := TEN_O_CLOCK + 10 * MINUTE;
    assert Upcoming(both, restart) == [TEN_O_CLOCK + 60 * MINUTE];
    SortOfSorted([TEN_O_CLOCK + 60 * MINUTE]);
    var page := new HomePage(Some(both));
    page.Load(restart);
    assert page.alarms == [TEN_O_CLOCK + 60 * MINUTE] && page.stored == Some(page.alarms);
    assert page.armed == [50 * MINUTE];
  }

  /** Deleting the first of [10:05, 11:00] leaves [11:00], saved. */
  method DeleteFirstAlarm()
  {
    var both := [TEN_O_CLOCK + 5 * MINUTE, TEN_O_CLOCK + 60 * MINUTE];
    SaveThenLoad(both, TEN_O_CLOCK);
    var page := new HomePage(Some(both));
    page.Load(TEN_O_CLOCK);
    assert page.alarms == both;
    page.DeleteAlarm(0);
    assert page.alarms == [TEN_O_CLOCK + 60 * MINUTE] && page.stored == Some(page.alarms);
  }
}
