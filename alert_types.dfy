/** Values shared by the alert model: configuration, the runtime fields of an
    alert taken together as one value, and what the alert hands to its
    collaborators (notification calls, timer requests). */
module AlertTypes {

  datatype Option<T> = None | Some(value: T)

  /** The presentation states an alert entity reports. */
  const StateIdle: string := "idle"
  const StateOn: string := "on"
  const StateOff: string := "off"

  /** A message template; what it renders to depends on the Home Assistant
      state at the moment of rendering, so rendering is passed in as a
      function `render: Template -> string` wherever the alert renders. */
  datatype Template = Template(source: string)

  /** One call of the notify service: `target` is the notifier's service name
      and `message` the text handed to it. */
  datatype Dispatch = Dispatch(target: string, message: string)

  /** The read-only part of an alert, fixed at construction. `delays` are the
      repeat intervals as abstract durations. */
  datatype Config = Config(
    name: string,
    watchedEntityId: string,
    alertState: string,
    delays: seq<int>,
    skipFirst: bool,
    message: Option<Template>,
    doneMessage: Option<Template>,
    notifiers: seq<string>,
    canAck: bool)
  {
    /** Indexing the first delay needs at least one. */
    predicate Valid() {
      |delays| > 0
    }
  }

  /** The mutable fields of an alert, together with the record of what it has
      asked of its collaborators:
      - `firing`, `ack`, `nextDelay`, `sendDone` are the alert's own flags;
      - `cancel` is the cancel handle of the last timer the alert armed (the
        timer's serial number), never reset once set;
      - `armed` lists the delay of every timer requested so far, its index
        being the timer's serial number;
      - `live` holds the serial numbers of the timers still pending;
      - `outbox` lists every notify call made so far, in order. */
  datatype Runtime = Runtime(
    firing: bool,
    ack: bool,
    nextDelay: nat,
    sendDone: bool,
    cancel: Option<nat>,
    armed: seq<int>,
    live: set<nat>,
    outbox: seq<Dispatch>)

  function Min(a: int, b: int): int {
    if a <= b then a else b
  }
}
