# Alarm list of the alarm-clock home page

This project models the one piece of logic in the alarm-clock app: the alarm
list kept by the `HomePage` component. The user picks a date and time. The
page checks that it lies in the future, stores it in a list that is kept in
ascending order, persists the list under the storage key `'alarms'` and arms a
timer for it. On start-up the page reloads the stored list, drops the alarms
whose time has passed, sorts and saves the rest and arms one timer for each.
An alarm can be deleted by its position in the list.

Files:

- `wrappers.dfy`: module `Wrappers`, the `Option` type. A storage key that is
  absent is `None`.
- `alarm_list.dfy`: module `AlarmList`, the list as a value. It holds the
  functions that stand for the library calls the page makes: `sort` with the
  comparator `a - b` (`SortAscending`), `filter` on "strictly after now"
  (`Upcoming`) and `splice(index, 1)` (`SpliceOne`). It also holds the timer
  delays (`Delays`) and the lemmas about all of these.
- `home_page.dfy`: module `Home`, the class `HomePage`. Its methods change the
  fields in place, as the component does. It ends with four small client
  methods that walk through the page's typical scenarios at 10:00.

How the model represents the page:

- An alarm is its fire time in milliseconds (the value of `Date.getTime()`), an
  `int`. Equal times are equal alarms, because the page only ever looks at an
  alarm's time.
- The clock is the parameter `now` of `Load`, `SetAlarm` and `ConfigureAlarm`. It is read once
  per operation.
- The storage is the field `stored: Option<seq<int>>`. It is written at once
  instead of asynchronously.
- The input field `alarmTime` is a `TimeInput`. `Blank` is the empty string.
  `Unparsable` is a non-empty text whose `Date` is invalid: its time is NaN and
  `NaN > now` is false. `At(t)` is a valid time.
- A timer is one entry of the field `armed`. The entry is the delay handed to
  `setTimeout`. Timers never fire in the model.
- The error dialog of `setAlarm` is the outcome `Rejected`.

Behaviour of the code worth noting:

- `deleteAlarm` has no error path. An index out of range does what `splice`
  does with it: a negative index counts back from the end, and an index past
  the end removes nothing.
- On start-up, a stored empty list is truthy, so it is still saved back; only
  the timers are skipped.
- `configureAlarm` itself does not check the time. Only `setAlarm` does.

## Model

| member | source | states |
|---|---|---|
| `AlarmList.SortAscending` | src/app/home/home.page.ts:131-132 | the sorted list is in ascending order of time and is a permutation of the input (same multiset, same length) |
| `AlarmList.SortedPermutationUnique` | src/app/home/home.page.ts:132 | two sorted lists with the same alarms are equal, so any correct sort (stable or not) gives `SortAscending`'s result and the order of equal times cannot be observed |
| `AlarmList.SortOfSorted` | src/app/home/home.page.ts:132 | sorting a list that is already in ascending order leaves it unchanged |
| `AlarmList.Upcoming` | src/app/home/home.page.ts:43-44 | the purge keeps only alarms strictly after `now`, and keeps every such alarm as often as it was stored; it never grows the list |
| `AlarmList.UpcomingOfFuture` | src/app/home/home.page.ts:44 | when every alarm lies after `now`, the purge removes nothing |
| `AlarmList.UpcomingAppend` | src/app/home/home.page.ts:44 | the purge works alarm by alarm: purging two joined lists equals joining the two purged lists, so the kept alarms keep their relative order |
| `AlarmList.UpcomingKeepsSorted` | src/app/home/home.page.ts:44 | purging a sorted list leaves it sorted |
| `AlarmList.Loaded` | src/app/home/home.page.ts:39-47 | the list after loading is sorted, lies entirely after `now`, and holds exactly the stored alarms that lie after `now` |
| `AlarmList.SaveThenLoad` | src/app/home/home.page.ts:37-47 | loading a saved list of future alarms in ascending order gives it back unchanged (persist-then-load round trip) |
| `AlarmList.LoadAgainLater` | src/app/home/home.page.ts:41-47 | loading again at a later time removes only what expired since; loading again at the same time changes nothing |
| `AlarmList.Delays` | src/app/home/home.page.ts:50-53 | one delay per alarm, in list order, and the delay handed to `setTimeout` is `time - now` (`now + delay == time`) |
| `AlarmList.DelaysPositive` | src/app/home/home.page.ts:50-52 | every delay is positive exactly when every alarm lies after `now` |
| `AlarmList.SpliceOne` | src/app/home/home.page.ts:125 | `splice(index, 1)`: a valid index removes exactly that alarm and keeps the others in order; a negative index counts from the end; an index past the end removes nothing |
| `AlarmList.DeleteKeepsSorted` | src/app/home/home.page.ts:125 | deleting at any index keeps the list in ascending order |
| `Home.HomePage.constructor` | src/app/home/home.page.ts:27-30 | a new page has an empty input, an empty list and no timers, over storage as earlier runs left it |
| `Home.HomePage.Load` | src/app/home/home.page.ts:32-56 | with nothing stored, nothing changes; otherwise the list becomes the future stored alarms in ascending order, storage equals it, one timer per alarm is appended with delay `time - now`, and every new delay is positive |
| `Home.HomePage.ArmTimers` | src/app/home/home.page.ts:50-53 | the loop appends exactly the delays of the list, in order, to the armed timers |
| `Home.HomePage.SetAlarm` | src/app/home/home.page.ts:58-74 | the alarm is scheduled if and only if the input is a time strictly after `now`; an empty input is ignored; a rejected or ignored input changes nothing, the input included; a scheduled time yields a sorted permutation of the old list plus the time, one longer, saved, with one new timer of positive delay `time - now` and a cleared input |
| `Home.HomePage.ConfigureAlarm` | src/app/home/home.page.ts:93-106 | the list becomes the sorted permutation of the old list plus the new time, one longer, and is saved; one timer with delay `time - now` is appended and the input is cleared |
| `Home.HomePage.DeleteAlarm` | src/app/home/home.page.ts:123-129 | the list becomes its `splice(index, 1)` (for a valid index, the list without that entry, the rest in order), stays sorted and is saved; no timer is cancelled |
| `Home.HomePage.SortAlarmsAndSave` | src/app/home/home.page.ts:131-134 | the list is sorted in ascending order of time and storage then equals it |

## Left out

- Angular and Ionic wiring (the component decorator, dependency injection, the
  standalone imports): framework configuration with no logic.
- Creating the storage driver and the asynchronous key-value backend: storage
  is a field written synchronously. Write failures are not modelled.
- The interleaving of the `async` operations at their `await` points: each
  operation runs to completion before the next starts.
- Parsing the input text into a `Date`, and the stored record format: times are
  integers, and a stored time reads back as the same integer.
- A stored value that is truthy but not an array of records: the model's
  storage always holds a list of times.
- The repeated clock reads inside one operation: the model reads `now` once.
  In the source the filter reads the clock once per alarm, and each timer's
  delay is computed after the list has been saved, so it is taken against a
  later clock than the purge or the validation.
- `AlarmList.Delays`: states only the delay handed to `setTimeout`, not when
  the alarm rings. Because the source reads the clock again after the save, a
  delay in the source can be zero or negative. Web hosts also keep a timer
  delay as a signed 32-bit integer, so a delay above 2,147,483,647 ms (about
  24.8 days) wraps, and the alarm rings at once or after the wrapped remainder.
  Neither the later clock read nor the wrap is modelled.
- Timers firing, the alarm sound and the dialogs (`playAlarm`, `showAlarms`,
  the error alert): host scheduling, media and UI. Timers are only recorded.
- `getFormattedAlarms`: its output depends on the locale through
  `toLocaleTimeString`, a foreign call.
- Cancelling a deleted alarm's timer: the source does not do it, and neither
  does the model.
- Non-integer indices to `deleteAlarm`: JavaScript truncates them; the model's
  index is an integer.
- `capacitor.config.ts`: a static build configuration with no behaviour.
