# Repeating alerts — a verified model

This project models the `Alert` entity of Home Assistant's `alert` component.
An alert watches one entity. It starts firing when that entity enters the
configured alert state. While it fires, it sends its message to every
configured notifier, again and again, after each delay of the `repeat` list.
Once the list is used up, the last delay repeats. Acknowledging the alert
(`turn_off`) mutes the messages, but the timer keeps running. Clearing the
acknowledgement (`turn_on`) lets the next timer notify again. When the entity
leaves the alert state, the alert stops firing. If at least one notification
cycle sent its message during the episode, the alert also sends its optional
done message.

Files:

- `alert_types.dfy` (module `AlertTypes`): the configuration, the alert's
  runtime fields as one value (`Runtime`), and a notify call (`Dispatch`).
- `alert_spec.dfy` (module `AlertSpec`): every transition as a function from
  old fields to new fields, the invariant `Inv` that holds between
  operations, and the event-driven `Step` / `Run`.
- `alert.dfy` (module `AlertEntity`): the class `Alert` with the source's
  fields and methods. Each method is proved to compute its `AlertSpec`
  function: `WatchedEntityChange` computes `WatchedChange`, `BeginAlerting`
  computes `Begin`, `EndAlerting` computes `End`, `ScheduleNotify` computes
  `Schedule`, `NotifyDoneMessage` computes `NotifyDone`, and `TimerFired`
  computes `TimerFires`. `Notify`, `TurnOn`, `TurnOff` and `Toggle` compute the
  function of the same name. The entry points also keep `Valid()`, which is
  `Inv` on the fields.
- `alert_properties.dfy` (module `AlertProperties`): lemmas that relate
  several transitions. They cover duplicate events, the schedule over a whole
  episode, acknowledgement against the timer, and done messages.

The timer service and the notify service are modelled by ghost state inside
the alert:

- `armed` lists the delay of every timer the alert has requested. A timer's
  index in this list is its serial number.
- `live` holds the serial numbers of the timers that are still pending.
- `cancel` is the cancel handle the alert keeps: the serial number of the last
  timer it armed.
- `outbox` lists every notify-service call, as (notifier, message), in order.

Template rendering depends on Home Assistant's state at the moment a message
is rendered. It is therefore a parameter `render: Template -> string` of
every operation that renders.

The model follows the code as written:

- `turn_off` sets the acknowledgement whether or not the alert is firing
  (`alert.py:264`). An idle alert can therefore be acknowledged.
  `AckWithoutFiring` exhibits an idle, acknowledged alert that satisfies the
  invariant.
- The done-message flag is set on every unacknowledged notification cycle
  (`alert.py:228`), before the message goes to the notifiers. The notifier
  list may be empty (`alert.py:46` only makes it a list). With an empty list,
  a done message is owed although nothing was sent.
- The constructor accepts an empty `repeat` list (`alert.py:145`). Such an
  alert fails with an index error when it first schedules a timer
  (`alert.py:215`). The model's constructor requires a non-empty list.

The source contains slips. The model follows their evident intent:

- The constructor's parameter order (`alert.py:128-130`) does not match the
  call in `alert.py:83-85`. The model binds parameters by name.
- `_send_message` is called without `self.` (`alert.py:235`,
  `alert.py:248`). The model calls the method `SendMessage`, which sends to
  the alert's notifiers.
- The done message is declared a plain string (`alert.py:45`), yet it is
  rendered like a template (`alert.py:246`). The model treats it as a
  template.

## Model

| member | source | states |
|---|---|---|
| AlertSpec.Fanout | homeassistant/components/alert.py:250-253 | a message goes out as exactly one call per notifier, in list order, each carrying that message |
| AlertEntity.Alert.SendMessage | homeassistant/components/alert.py:250-253 | the loop appends exactly Fanout(notifiers, message) to the outbox and changes no other field |
| AlertEntity.Alert.State | homeassistant/components/alert.py:167-174 | the state is idle iff not firing, on iff firing and not acknowledged, off iff firing and acknowledged |
| AlertEntity.Alert.Hidden | homeassistant/components/alert.py:176-179 | hidden iff acknowledgement is disabled or the state is idle |
| AlertEntity.Alert.constructor | homeassistant/components/alert.py:128-155 | stores the configuration, names the entity "alert.<id>", and starts idle, unacknowledged, at delay index 0, with no cancel handle and no done message owed; the invariant holds |
| AlertSpec.Initial | homeassistant/components/alert.py:145-151 | the initial fields satisfy the invariant: not firing, not acknowledged, at delay index 0, no done message owed, no cancel handle, no timer armed or pending, nothing sent |
| AlertSpec.Schedule | homeassistant/components/alert.py:213-219 | arms one timer with the delay at the current index, keeps its handle, and advances the index by one until the last delay, where it stays; the index stays in range |
| AlertEntity.Alert.ScheduleNotify | homeassistant/components/alert.py:213-219 | the method computes Schedule on the fields |
| AlertSpec.Notify | homeassistant/components/alert.py:221-236 | not firing (a stale timer): no change at all; firing and acknowledged: nothing sent, but the next timer is armed; firing and not acknowledged: the template text (or the name) goes to every notifier, a done message becomes owed, and the next timer is armed |
| AlertEntity.Alert.Notify | homeassistant/components/alert.py:221-236 | the method computes Notify on the fields |
| AlertSpec.NotifyDone | homeassistant/components/alert.py:238-248 | the owed flag is cleared even when there is no done template; the rendered done message goes to every notifier only when there is one; nothing else changes |
| AlertEntity.Alert.NotifyDoneMessage | homeassistant/components/alert.py:238-248 | the method computes NotifyDone on the fields |
| AlertSpec.Begin | homeassistant/components/alert.py:189-201 | afterwards firing and not acknowledged, with exactly one timer armed for the first delay; without skip_first one message per notifier is sent and a done message is owed; with skip_first nothing is sent |
| AlertEntity.Alert.BeginAlerting | homeassistant/components/alert.py:189-201 | the method computes Begin on the fields |
| AlertSpec.End | homeassistant/components/alert.py:203-211 | afterwards not firing, not acknowledged, and no done message owed; the handle's timer is no longer pending; the handle itself is kept; the done message is sent iff one was owed |
| AlertEntity.Alert.EndAlerting | homeassistant/components/alert.py:203-211 | the method computes End on the fields |
| AlertSpec.WatchedChange | homeassistant/components/alert.py:181-187 | begins alerting iff the new state is the alert state while idle; ends iff the new state differs while firing; any other change leaves every field and the outbox unchanged |
| AlertEntity.Alert.WatchedEntityChange | homeassistant/components/alert.py:181-187 | the method computes WatchedChange on the fields and keeps the invariant |
| AlertSpec.TurnOn | homeassistant/components/alert.py:255-259 | clears acknowledgement; nothing else changes (firing, delay index, timers, outbox) |
| AlertEntity.Alert.TurnOn | homeassistant/components/alert.py:255-259 | the method computes TurnOn on the fields and keeps the invariant |
| AlertSpec.TurnOff | homeassistant/components/alert.py:261-265 | sets acknowledgement, whether firing or not; nothing else changes |
| AlertEntity.Alert.TurnOff | homeassistant/components/alert.py:261-265 | the method computes TurnOff on the fields and keeps the invariant |
| AlertSpec.Toggle | homeassistant/components/alert.py:267-271 | negates acknowledgement and changes nothing else |
| AlertEntity.Alert.Toggle | homeassistant/components/alert.py:267-271 | the method computes Toggle on the fields and keeps the invariant |
| AlertSpec.TimerFires | homeassistant/components/alert.py:217-224 | when a pending timer that was armed earlier fires, it is no longer pending; while idle nothing else happens; while firing exactly one new timer is armed |
| AlertEntity.Alert.TimerFired | homeassistant/components/alert.py:217-224 | the method computes TimerFires on the fields and keeps the invariant |
| AlertSpec.Step | homeassistant/components/alert.py:181-271 | every operation keeps the invariant: the delay index is in range, one timer is pending while firing and none while idle, and no done message is owed while idle |
| AlertSpec.Run | homeassistant/components/alert.py:181-271 | any sequence of operations from an invariant state keeps the invariant |
| AlertProperties.WatchedChangeIdempotent | homeassistant/components/alert.py:184-187 | a second change to the same state is a no-op: duplicate change events act as one |
| AlertProperties.ToggleTwice | homeassistant/components/alert.py:267-271 | two toggles restore the original fields |
| AlertProperties.AckWithoutFiring | homeassistant/components/alert.py:261-265 | an idle alert can be acknowledged: acknowledged and not firing is a reachable state that satisfies the invariant |
| AlertProperties.AtMostOneTimer | homeassistant/components/alert.py:203-219 | under the invariant at most one timer is pending, and one is pending exactly while firing |
| AlertProperties.DelaysFrom | homeassistant/components/alert.py:145-146 | the reference schedule: the i-th delay from index j is the list's entry at min(j + i, last index) |
| AlertProperties.DelaysFromClamped | homeassistant/components/alert.py:219 | clamping the index at the last delay does not change the remaining schedule |
| AlertProperties.FireTimes | homeassistant/components/alert.py:217-236 | an alert that keeps firing keeps the invariant and is still firing after any number of timer expiries |
| AlertProperties.RepeatSchedule | homeassistant/components/alert.py:213-236 | while firing, the k timers armed next use the delays of the list from the current index on, with the last delay repeating forever |
| AlertProperties.EpisodeDelays | homeassistant/components/alert.py:189-219 | in an episode begun from idle, the first timer and the k timers after it use the delays in list order, with the last delay repeating once the list is used up |
| AlertProperties.SkipFirstEpisode | homeassistant/components/alert.py:196-199 | with skip_first, the trigger sends nothing and arms the first delay; the first expiry then sends one message per notifier and arms the second delay (the first again if it is the only one) |
| AlertProperties.AckKeepsClock | homeassistant/components/alert.py:221-236 | when acknowledged, the next expiry sends nothing but re-arms with the scheduled delay; once acknowledgement is cleared, the same expiry sends to every notifier |
| AlertProperties.DoneMessageOnClear | homeassistant/components/alert.py:203-211 | clearing a firing alert sends the done calls iff a done message was owed, and leaves it idle with no timer pending |
| AlertProperties.SilentWithoutExpiry | homeassistant/components/alert.py:189-248 | with skip_first, any run in which no timer fires sends nothing and never owes a done message |
| AlertProperties.StepSendsBeforeOwing | homeassistant/components/alert.py:221-248 | one event only appends to the outbox; with at least one notifier, it makes a done message owed only by sending something |
| AlertProperties.NoDoneWithoutNotification | homeassistant/components/alert.py:189-248 | over any run, with either skip_first value and any expiries, acknowledgements and state changes, the outbox only grows; with at least one notifier, a done message is owed at the end only if one was owed at the start or something was sent; so an episode whose expiries were all muted, or that ended before its first notification, sends no done message when it clears |
| AlertProperties.StepAppends | homeassistant/components/alert.py:181-271 | one event only appends to the outbox; nothing sent is ever taken back |
| AlertProperties.RunAppends | homeassistant/components/alert.py:181-271 | over any run the outbox only grows |
| AlertProperties.StepKeepsOwed | homeassistant/components/alert.py:203-248 | an owed done message stays owed under every event, except the end of the episode, which leaves the alert idle and sends the done calls |
| AlertProperties.OwedIsPaid | homeassistant/components/alert.py:203-248 | over any run, a done message owed at the start is still owed at the end, or its calls were sent after the starting outbox, once per notifier; so once a notification has gone out in an episode, the done message goes out when the episode clears |

## Left out

- Component setup, service registration and the dispatch of service calls by entity id (`alert.py:65-122`): this is wiring around the entity. The entity's operations are the modelled methods.
- Configuration schemas (`alert.py:37-57`): validation is done by a foreign library.
- Subscribing to the watched entity (`alert.py:154-155`): the subscription's callbacks are the calls of `WatchedEntityChange`. A change carries only the new state. The removal of the watched entity (a missing new state, which would raise) is not modelled.
- Clocks: `datetime.now()` and the absolute fire time (`alert.py:216`) are not modelled. A timer is recorded by its delay in `armed`. The timer service is the ghost `live` set, and a firing is a call of `TimerFired` for a pending timer.
- Durations: minutes given as floats and converted to `timedelta` (`alert.py:145`) are modelled as abstract integer durations.
- Rendering and delivery: rendering is the `render` parameter, and each notify-service call is an entry appended to the ghost `outbox`. Delivery failures belong to the notify service and are not modelled.
- Asynchrony: `await` interleavings are not modelled. Every operation runs to completion before the next one starts. So a timer callback that was already dispatched when the episode ended is not modelled either. The not-firing branch of `Notify` is modelled and proved to change nothing.
- Logging, `should_poll`, the `name` property, and publishing the entity state (`async_update_ha_state`, `async_schedule_update_ha_state`) are not modelled. None of them changes the alert's fields.
- AlertEntity.Alert.constructor: requires a non-empty delay list. The code accepts an empty one and fails only at the first scheduling (`alert.py:215`), so a model of it would have no valid schedule.
- AlertProperties.NoDoneWithoutNotification: assumes at least one notifier. With an empty notifier list, a notification cycle owes a done message without sending anything (`alert.py:228`), so "something was sent" is then the wrong test.
- AlertProperties.SilentWithoutExpiry: limited to skip_first and to runs without timer expiries, because it states that nothing at all is sent. Without skip_first, the trigger itself notifies. An unacknowledged expiry also notifies. The general done-message property is `NoDoneWithoutNotification`.
