/** The alert's transitions as functions from the old runtime fields to the new
    ones. Each function mirrors one method of the alert entity; the entity's
    methods are proved to compute exactly these functions. */
module AlertSpec {
  import opened AlertTypes

  /** The calls made when a message is sent: one per notifier, in the order of
      the notifier list, each with the same message. */
  function Fanout(targets: seq<string>, message: string): (r: seq<Dispatch>)
    ensures |r| == |targets|
    ensures forall i :: 0 <= i < |r| ==> r[i] == Dispatch(targets[i], message)
  {
    if targets == [] then [] else [Dispatch(targets[0], message)] + Fanout(targets[1..], message)
  }

  /** The text of an alert notification: the rendered template, or the alert's
      name when there is no template. */
  function AlertText(c: Config, render: Template -> string): string {
    if c.message.Some? then render(c.message.value) else c.name
  }

  /** The calls made for the done message: none without a done template. */
  function DoneCalls(c: Config, render: Template -> string): seq<Dispatch> {
    if c.doneMessage.Some? then Fanout(c.notifiers, render(c.doneMessage.value)) else []
  }

  /** What holds between operations:
      - the next delay index is a valid index of the delay list;
      - the cancel handle refers to a timer that was armed;
      - while firing exactly the timer behind the cancel handle is pending,
        and while idle no timer is pending;
      - a done message is owed only while firing.
      Acknowledgement is deliberately absent: it can be set while idle. */
  ghost predicate Inv(c: Config, s: Runtime) {
    && s.nextDelay < |c.delays|
    && (s.cancel.Some? ==> s.cancel.value < |s.armed|)
    && (s.firing ==> s.cancel.Some? && s.live == {s.cancel.value})
    && (!s.firing ==> s.live == {} && !s.sendDone)
  }

  /** The fields as the constructor leaves them. */
  function Initial(c: Config): (r: Runtime)
    requires c.Valid()
    ensures Inv(c, r)
    ensures !r.firing && !r.ack && r.nextDelay == 0 && !r.sendDone
    ensures r.cancel == None && r.armed == [] && r.live == {} && r.outbox == []
  {
    Runtime(false, false, 0, false, None, [], {}, [])
  }

  /** Arms a timer for the delay at the current index, keeps its cancel handle
      and advances the index, stopping at the last delay. */
  function Schedule(c: Config, s: Runtime): (r: Runtime)
    requires s.nextDelay < |c.delays|
    ensures r.armed == s.armed + [c.delays[s.nextDelay]]
    ensures r.cancel == Some(|s.armed|) && r.live == s.live + {|s.armed|}
    ensures r.nextDelay < |c.delays|
    ensures r.nextDelay == s.nextDelay + 1 || r.nextDelay == s.nextDelay == |c.delays| - 1
    ensures r.firing == s.firing && r.ack == s.ack && r.sendDone == s.sendDone && r.outbox == s.outbox
  {
    s.(armed := s.armed + [c.delays[s.nextDelay]],
       cancel := Some(|s.armed|),
       live := s.live + {|s.armed|},
       nextDelay := Min(s.nextDelay + 1, |c.delays| - 1))
  }

  /** A notification cycle: nothing at all when not firing; otherwise, unless
      acknowledged, the alert text goes to every notifier and a done message
      becomes owed; and in both firing cases the next timer is armed. */
  function Notify(c: Config, render: Template -> string, s: Runtime): (r: Runtime)
    requires s.firing ==> s.nextDelay < |c.delays|
    ensures !s.firing ==> r == s
    ensures s.firing && s.ack ==> r.outbox == s.outbox && r.sendDone == s.sendDone
    ensures s.firing && !s.ack ==> r.outbox == s.outbox + Fanout(c.notifiers, AlertText(c, render)) && r.sendDone
    ensures s.firing ==> r.armed == s.armed + [c.delays[s.nextDelay]] && r.live == s.live + {|s.armed|}
    ensures s.firing ==> r.cancel == Some(|s.armed|) && r.nextDelay == Min(s.nextDelay + 1, |c.delays| - 1)
    ensures r.firing == s.firing && r.ack == s.ack
  {
    if !s.firing then s
    else
      var sent := if !s.ack
        then s.(sendDone := true, outbox := s.outbox + Fanout(c.notifiers, AlertText(c, render)))
        else s;
      Schedule(c, sent)
  }

  /** Sends the done message if there is one; the owed flag is cleared either
      way. */
  function NotifyDone(c: Config, render: Template -> string, s: Runtime): (r: Runtime)
    ensures !r.sendDone
    ensures r.outbox == s.outbox + DoneCalls(c, render)
    ensures r.(sendDone := s.sendDone, outbox := s.outbox) == s
  {
    var cleared := s.(sendDone := false);
    if c.doneMessage.None? then cleared
    else cleared.(outbox := cleared.outbox + Fanout(c.notifiers, render(c.doneMessage.value)))
  }

  /** Starts a firing episode, unacknowledged, with the delay list restarted:
      either notifies at once (which arms the first timer) or, with skip_first,
      only arms the first timer. */
  function Begin(c: Config, render: Template -> string, s: Runtime): (r: Runtime)
    requires c.Valid()
    ensures r.firing && !r.ack
    ensures r.armed == s.armed + [c.delays[0]]
    ensures r.cancel == Some(|s.armed|) && r.live == s.live + {|s.armed|}
    ensures r.nextDelay == Min(1, |c.delays| - 1)
    ensures c.skipFirst ==> r.outbox == s.outbox && r.sendDone == s.sendDone
    ensures !c.skipFirst ==> r.outbox == s.outbox + Fanout(c.notifiers, AlertText(c, render)) && r.sendDone
  {
    var started := s.(ack := false, firing := true, nextDelay := 0);
    if !c.skipFirst then Notify(c, render, started) else Schedule(c, started)
  }

  /** Ends a firing episode: cancels the timer behind the handle (harmless if
      it already fired), clears firing and acknowledgement, and sends the done
      message only when one is owed. The handle itself is kept. */
  function End(c: Config, render: Template -> string, s: Runtime): (r: Runtime)
    requires s.cancel.Some?
    ensures !r.firing && !r.ack && !r.sendDone
    ensures r.live == s.live - {s.cancel.value}
    ensures r.cancel == s.cancel && r.armed == s.armed && r.nextDelay == s.nextDelay
    ensures r.outbox == s.outbox + (if s.sendDone then DoneCalls(c, render) else [])
  {
    var stopped := s.(live := s.live - {s.cancel.value}, ack := false, firing := false);
    if stopped.sendDone then NotifyDone(c, render, stopped) else stopped
  }

  /** Reacts to a new state of the watched entity: begins alerting only when
      the state becomes the alert state while idle, ends only when it leaves
      the alert state while firing, and otherwise changes nothing. */
  function WatchedChange(c: Config, render: Template -> string, s: Runtime, newState: string): (r: Runtime)
    requires c.Valid()
    requires s.firing ==> s.cancel.Some?
    ensures newState == c.alertState && !s.firing ==> r == Begin(c, render, s)
    ensures newState != c.alertState && s.firing ==> r == End(c, render, s)
    ensures (newState == c.alertState) == s.firing ==> r == s
  {
    var afterBegin := if newState == c.alertState && !s.firing then Begin(c, render, s) else s;
    if newState != c.alertState && afterBegin.firing then End(c, render, afterBegin) else afterBegin
  }

  /** Clears acknowledgement and nothing else. */
  function TurnOn(s: Runtime): (r: Runtime)
    ensures !r.ack && r.(ack := s.ack) == s
  {
    s.(ack := false)
  }

  /** Sets acknowledgement, firing or not, and nothing else. */
  function TurnOff(s: Runtime): (r: Runtime)
    ensures r.ack && r.(ack := s.ack) == s
  {
    s.(ack := true)
  }

  /** Acknowledges an unacknowledged alert and clears an acknowledged one. */
  function Toggle(s: Runtime): (r: Runtime)
    ensures r.ack == !s.ack && r.(ack := s.ack) == s
  {
    if s.ack then TurnOn(s) else TurnOff(s)
  }

  /** The timer service runs the callback of the pending timer `serial`, one
      that was armed earlier: that timer is no longer pending, and a
      notification cycle runs. */
  function TimerFires(c: Config, render: Template -> string, s: Runtime, serial: nat): (r: Runtime)
    requires serial in s.live && serial < |s.armed|
    requires s.firing ==> s.nextDelay < |c.delays|
    ensures serial !in r.live
    ensures !s.firing ==> r == s.(live := s.live - {serial})
    ensures s.firing ==> r.live == s.live - {serial} + {|s.armed|} && |r.armed| == |s.armed| + 1
  {
    Notify(c, render, s.(live := s.live - {serial}))
  }

  /** Everything that can happen to an alert between two of its operations. */
  datatype Event =
    | StateChanged(newState: string)
    | TimerFired(serial: nat)
    | TurnOnCalled
    | TurnOffCalled
    | ToggleCalled

  /** One event; a timer that is not pending cannot fire. */
  function Step(c: Config, render: Template -> string, s: Runtime, e: Event): (r: Runtime)
    requires c.Valid() && Inv(c, s)
    ensures Inv(c, r)
  {
    match e
    case StateChanged(v) => WatchedChange(c, render, s, v)
    case TimerFired(k) => if k in s.live then TimerFires(c, render, s, k) else s
    case TurnOnCalled => TurnOn(s)
    case TurnOffCalled => TurnOff(s)
    case ToggleCalled => Toggle(s)
  }

  /** A sequence of events, in order. */
  function Run(c: Config, render: Template -> string, s: Runtime, es: seq<Event>): (r: Runtime)
    requires c.Valid() && Inv(c, s)
    ensures Inv(c, r)
    decreases |es|
  {
    if es == [] then s else Run(c, render, Step(c, render, s, es[0]), es[1..])
  }
}
