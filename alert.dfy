/** The alert entity: watches one entity, fires while that entity is in the
    alert state, repeats its notification on the configured schedule, and can
    be acknowledged. Every method is proved to compute its transition in
    AlertSpec on the entity's fields: WatchedEntityChange computes
    WatchedChange, BeginAlerting Begin, EndAlerting End, ScheduleNotify
    Schedule, NotifyDoneMessage NotifyDone, TimerFired TimerFires, and Notify,
    TurnOn, TurnOff and Toggle the function of the same name. */
module AlertEntity {
  import opened AlertTypes
  import AlertSpec

  class Alert {
    // configuration, never reassigned
    const entityId: string
    const name: string
    const watchedEntityId: string
    const alertState: string
    const delays: seq<int>
    const skipFirst: bool
    const message: Option<Template>
    const doneMessage: Option<Template>
    const notifiers: seq<string>
    const canAck: bool

    // the alert's own state
    var nextDelay: nat
    var firing: bool
    var ack: bool
    var sendDoneMessage: bool

    // the timer service and the notify service, as far as the alert uses them:
    // the cancel handle of the last armed timer (its serial number), every
    // timer armed so far, the timers still pending, and every notify call
    ghost var cancel: Option<nat>
    ghost var armed: seq<int>
    ghost var live: set<nat>
    ghost var outbox: seq<Dispatch>

    function Configuration(): AlertTypes.Config {
      AlertTypes.Config(name, watchedEntityId, alertState, delays, skipFirst, message, doneMessage, notifiers, canAck)
    }

    ghost function Snapshot(): Runtime
      reads this
    {
      Runtime(firing, ack, nextDelay, sendDoneMessage, cancel, armed, live, outbox)
    }

    ghost predicate Valid()
      reads this
    {
      Configuration().Valid() && AlertSpec.Inv(Configuration(), Snapshot())
    }

    /** Builds an idle alert. The entity subscribes to changes of the watched
        entity; those changes arrive as calls of WatchedEntityChange. */
    constructor (objectId: string, name: string, watchedEntityId: string, state: string,
                 repeat: seq<int>, skipFirst: bool, message: Option<Template>,
                 doneMessage: Option<Template>, notifiers: seq<string>, canAck: bool)
      requires |repeat| > 0
      ensures entityId == "alert." + objectId
      ensures Configuration() == AlertTypes.Config(name, watchedEntityId, state, repeat, skipFirst, message,
                                            doneMessage, notifiers, canAck)
      ensures Snapshot() == AlertSpec.Initial(Configuration())
      ensures Valid()
    {
      this.name := name;
      this.alertState := state;
      this.skipFirst := skipFirst;
      this.message := message;
      this.notifiers := notifiers;
      this.canAck := canAck;
      this.doneMessage := doneMessage;
      this.delays := repeat;
      this.nextDelay := 0;
      this.firing := false;
      this.ack := false;
      this.cancel := None;
      this.sendDoneMessage := false;
      this.entityId := "alert." + objectId;
      this.watchedEntityId := watchedEntityId;
      this.armed := [];
      this.live := {};
      this.outbox := [];
    }

    /** The presentation state: idle while not firing, off while firing and
        acknowledged, on while firing and not acknowledged. */
    function State(): (r: string)
      reads this
      ensures r == StateIdle <==> !firing
      ensures r == StateOn <==> firing && !ack
      ensures r == StateOff <==> firing && ack
    {
      if firing then (if ack then StateOff else StateOn) else StateIdle
    }

    /** Hidden exactly when acknowledgement is disabled or the alert is idle. */
    function Hidden(): (r: bool)
      reads this
      ensures r <==> !canAck || State() == StateIdle
    {
      !canAck || !firing
    }

    /** Called with the watched entity's new state on every change of it. */
    method WatchedEntityChange(newState: string, render: Template -> string)
      requires Valid()
      modifies this
      ensures Valid()
      ensures Snapshot() == AlertSpec.WatchedChange(Configuration(), render, old(Snapshot()), newState)
    {
      if newState == alertState && !firing {
        BeginAlerting(render);
      }
      if newState != alertState && firing {
        EndAlerting(render);
      }
    }

    method BeginAlerting(render: Template -> string)
      requires |delays| > 0
      modifies this
      ensures Snapshot() == AlertSpec.Begin(Configuration(), render, old(Snapshot()))
    {
      ack := false;
      firing := true;
      nextDelay := 0;
      if !skipFirst {
        Notify(render);
      } else {
        ScheduleNotify();
      }
    }

    /** Requires a cancel handle: calling a missing one would raise. */
    method EndAlerting(render: Template -> string)
      requires cancel.Some?
      modifies this
      ensures Snapshot() == AlertSpec.End(Configuration(), render, old(Snapshot()))
    {
      live := live - {cancel.value};
      ack := false;
      firing := false;
      if sendDoneMessage {
        NotifyDoneMessage(render);
      }
    }

    /** Requires the index to be in range: indexing past the list would raise. */
    method ScheduleNotify()
      requires nextDelay < |delays|
      modifies this
      ensures Snapshot() == AlertSpec.Schedule(Configuration(), old(Snapshot()))
    {
      var delay := delays[nextDelay];
      cancel := Some(|armed|);
      live := live + {|armed|};
      armed := armed + [delay];
      nextDelay := Min(nextDelay + 1, |delays| - 1);
    }

    method Notify(render: Template -> string)
      requires firing ==> nextDelay < |delays|
      modifies this
      ensures Snapshot() == AlertSpec.Notify(Configuration(), render, old(Snapshot()))
    {
      if !firing {
        return;
      }
      if !ack {
        sendDoneMessage := true;
        var text := if message.Some? then render(message.value) else name;
        SendMessage(text);
      }
      ScheduleNotify();
    }

    method NotifyDoneMessage(render: Template -> string)
      modifies this
      ensures Snapshot() == AlertSpec.NotifyDone(Configuration(), render, old(Snapshot()))
    {
      sendDoneMessage := false;
      if doneMessage.None? {
        return;
      }
      var text := render(doneMessage.value);
      SendMessage(text);
    }

    /** One notify call per notifier, in list order; no field of the alert
        changes. */
    method SendMessage(text: string)
      modifies this`outbox
      ensures outbox == old(outbox) + AlertSpec.Fanout(notifiers, text)
    {
      var i := 0;
      while i < |notifiers|
        invariant 0 <= i <= |notifiers|
        invariant |outbox| == |old(outbox)| + i
        invariant outbox[..|old(outbox)|] == old(outbox)
        invariant forall k :: 0 <= k < i ==> outbox[|old(outbox)| + k] == Dispatch(notifiers[k], text)
      {
        outbox := outbox + [Dispatch(notifiers[i], text)];
        i := i + 1;
      }
    }

    /** Called by the timer service when the pending timer `serial` is due. */
    method TimerFired(serial: nat, render: Template -> string)
      requires Valid() && serial in live
      modifies this
      ensures Valid()
      ensures Snapshot() == AlertSpec.TimerFires(Configuration(), render, old(Snapshot()), serial)
    {
      live := live - {serial};
      Notify(render);
    }

    /** Clears acknowledgement. */
    method TurnOn()
      requires Valid()
      modifies this`ack
      ensures Valid()
      ensures Snapshot() == AlertSpec.TurnOn(old(Snapshot()))
    {
      ack := false;
    }

    /** Acknowledges, whether firing or not. */
    method TurnOff()
      requires Valid()
      modifies this`ack
      ensures Valid()
      ensures Snapshot() == AlertSpec.TurnOff(old(Snapshot()))
    {
      ack := true;
    }

    method Toggle()
      requires Valid()
      modifies this`ack
      ensures Valid()
      ensures Snapshot() == AlertSpec.Toggle(old(Snapshot()))
    {
      if ack {
        TurnOn();
      } else {
        TurnOff();
      }
    }
  }
}
