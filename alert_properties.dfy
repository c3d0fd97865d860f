/** Properties of the alert that relate several transitions: duplicate events,
    the repeat schedule over a whole episode, acknowledgement against the
    timer, and when a done message can be sent. */
module AlertProperties {
  import opened AlertTypes
  import opened AlertSpec

  /** A repeated change to the same state does nothing more than the first. */
  lemma WatchedChangeIdempotent(c: Config, render: Template -> string, s: Runtime, newState: string)
    requires c.Valid() && Inv(c, s)
    ensures var once := WatchedChange(c, render, s, newState);
            Inv(c, once) && WatchedChange(c, render, once, newState) == once
  {
  }

  /** Toggling twice restores the acknowledgement, and with it every field. */
  lemma ToggleTwice(s: Runtime)
    ensures Toggle(Toggle(s)) == s
  {
  }

  /** Acknowledgement does not imply firing: acknowledging an idle alert is
      allowed and keeps the invariant. */
  lemma AckWithoutFiring(c: Config)
    requires c.Valid()
    ensures var s := TurnOff(Initial(c)); Inv(c, s) && s.ack && !s.firing
  {
  }

  /** At most one timer is pending at any time, and one is pending exactly
      while firing. */
  lemma AtMostOneTimer(c: Config, s: Runtime)
    requires Inv(c, s)
    ensures |s.live| <= 1
    ensures s.firing <==> |s.live| == 1
  {
  }

  /** The delays the schedule uses from index `j` on, `k` of them: the list is
      followed up to its last delay, which then repeats. */
  function DelaysFrom(c: Config, j: nat, k: nat): (r: seq<int>)
    requires c.Valid()
    ensures |r| == k
    ensures forall i :: 0 <= i < k ==> r[i] == c.delays[Min(j + i, |c.delays| - 1)]
    decreases k
  {
    if k == 0 then [] else [c.delays[Min(j, |c.delays| - 1)]] + DelaysFrom(c, j + 1, k - 1)
  }

  /** Once the index has reached the last delay, the schedule stays there. */
  lemma DelaysFromClamped(c: Config, j: nat, k: nat)
    requires c.Valid() && j < |c.delays|
    ensures DelaysFrom(c, Min(j + 1, |c.delays| - 1), k) == DelaysFrom(c, j + 1, k)
  {
  }

  /** The pending timer fires `k` times in a row. */
  function FireTimes(c: Config, render: Template -> string, s: Runtime, k: nat): (r: Runtime)
    requires c.Valid() && Inv(c, s) && s.firing
    ensures Inv(c, r) && r.firing
    decreases k
  {
    if k == 0 then s
    else FireTimes(c, render, TimerFires(c, render, s, s.cancel.value), k - 1)
  }

  /** While firing, successive timers are armed with the delays of the list
      from the current index on, the last one repeating forever. */
  lemma {:induction false} RepeatSchedule(c: Config, render: Template -> string, s: Runtime, k: nat)
    requires c.Valid() && Inv(c, s) && s.firing
    ensures FireTimes(c, render, s, k).armed == s.armed + DelaysFrom(c, s.nextDelay, k)
    decreases k
  {
    if k > 0 {
      var next := TimerFires(c, render, s, s.cancel.value);
      RepeatSchedule(c, render, next, k - 1);
      DelaysFromClamped(c, s.nextDelay, k - 1);
    }
  }

  /** Over a whole episode begun from idle, the first timer uses the first
      delay and the timers after it use the following ones, the last delay
      repeating once the list is exhausted. */
  lemma EpisodeDelays(c: Config, render: Template -> string, s: Runtime, k: nat)
    requires c.Valid() && Inv(c, s) && !s.firing
    ensures var begun := Begin(c, render, s);
            Inv(c, begun) && FireTimes(c, render, begun, k).armed == s.armed + DelaysFrom(c, 0, k + 1)
  {
    var begun := Begin(c, render, s);
    RepeatSchedule(c, render, begun, k);
    DelaysFromClamped(c, 0, k);
  }

  /** With skip_first: the trigger sends nothing and arms the first delay; the
      first timer then sends one message per notifier and arms the second
      delay (the first again if there is only one). */
  lemma SkipFirstEpisode(c: Config, render: Template -> string, s: Runtime)
    requires c.Valid() && Inv(c, s) && !s.firing && c.skipFirst
    ensures var begun := WatchedChange(c, render, s, c.alertState);
            && begun.outbox == s.outbox && begun.armed == s.armed + [c.delays[0]]
            && begun.cancel == Some(|s.armed|) && begun.live == {|s.armed|}
    ensures var fired := TimerFires(c, render, WatchedChange(c, render, s, c.alertState), |s.armed|);
            && fired.outbox == s.outbox + Fanout(c.notifiers, AlertText(c, render))
            && fired.armed == s.armed + [c.delays[0], c.delays[Min(1, |c.delays| - 1)]]
  {
  }

  /** Acknowledging suppresses the next notification but not the timer; clearing
      the acknowledgement before the timer fires lets it notify as usual. */
  lemma AckKeepsClock(c: Config, render: Template -> string, s: Runtime)
    requires c.Valid() && Inv(c, s) && s.firing
    ensures var muted := TimerFires(c, render, TurnOff(s), s.cancel.value);
            && muted.outbox == s.outbox && muted.firing && muted.ack
            && muted.armed == s.armed + [c.delays[s.nextDelay]] && muted.live == {|s.armed|}
    ensures var resumed := TimerFires(c, render, TurnOn(TurnOff(s)), s.cancel.value);
            && resumed.outbox == s.outbox + Fanout(c.notifiers, AlertText(c, render))
            && resumed.armed == s.armed + [c.delays[s.nextDelay]] && resumed.live == {|s.armed|}
  {
  }

  /** Clearing the watched state while a done message is owed sends it once
      per notifier, and sends nothing when no done message is owed. */
  lemma DoneMessageOnClear(c: Config, render: Template -> string, s: Runtime, newState: string)
    requires c.Valid() && Inv(c, s) && s.firing && newState != c.alertState
    ensures var r := WatchedChange(c, render, s, newState);
            && !r.firing && !r.sendDone && r.live == {}
            && r.outbox == s.outbox + (if s.sendDone then DoneCalls(c, render) else [])
  {
  }

  /** With skip_first, a run in which no timer fires sends nothing at all and
      never owes a done message. */
  lemma {:induction false} SilentWithoutExpiry(c: Config, render: Template -> string, s: Runtime, es: seq<Event>)
    requires c.Valid() && Inv(c, s) && !s.sendDone && c.skipFirst
    requires forall i :: 0 <= i < |es| ==> !es[i].TimerFired?
    ensures Run(c, render, s, es).outbox == s.outbox
    ensures !Run(c, render, s, es).sendDone
    decreases |es|
  {
    if es != [] {
      var next := Step(c, render, s, es[0]);
      assert next.outbox == s.outbox && !next.sendDone;
      SilentWithoutExpiry(c, render, next, es[1..]);
    }
  }

  /** One event only appends to the outbox, and it makes a done message owed
      only by sending something (there is at least one notifier). */
  lemma StepSendsBeforeOwing(c: Config, render: Template -> string, s: Runtime, e: Event)
    requires c.Valid() && Inv(c, s) && |c.notifiers| > 0
    ensures var r := Step(c, render, s, e);
            && s.outbox <= r.outbox
            && (r.sendDone && |r.outbox| == |s.outbox| ==> s.sendDone)
  {
  }

  /** Over any run, with either skip_first value and any timer expiries and
      acknowledgements: the outbox only grows, and a done message is owed at
      the end only if one was owed at the start or something was sent. So an
      episode whose expiries were all muted, or that ended before its first
      notification, sends no done message when it clears. */
  lemma {:induction false} NoDoneWithoutNotification(c: Config, render: Template -> string, s: Runtime, es: seq<Event>)
    requires c.Valid() && Inv(c, s) && |c.notifiers| > 0
    ensures s.outbox <= Run(c, render, s, es).outbox
    ensures var r := Run(c, render, s, es);
            r.sendDone && |r.outbox| == |s.outbox| ==> s.sendDone
    decreases |es|
  {
    if es != [] {
      var next := Step(c, render, s, es[0]);
      StepSendsBeforeOwing(c, render, s, es[0]);
      NoDoneWithoutNotification(c, render, next, es[1..]);
    }
  }

  /** One event only appends to the outbox. */
  lemma StepAppends(c: Config, render: Template -> string, s: Runtime, e: Event)
    requires c.Valid() && Inv(c, s)
    ensures s.outbox <= Step(c, render, s, e).outbox
  {
  }

  /** Over any run the outbox only grows. */
  lemma {:induction false} RunAppends(c: Config, render: Template -> string, s: Runtime, es: seq<Event>)
    requires c.Valid() && Inv(c, s)
    ensures s.outbox <= Run(c, render, s, es).outbox
    decreases |es|
  {
    if es != [] {
      StepAppends(c, render, s, es[0]);
      RunAppends(c, render, Step(c, render, s, es[0]), es[1..]);
    }
  }

  /** An owed done message stays owed under every event except the end of the
      episode, and that event sends it. */
  lemma StepKeepsOwed(c: Config, render: Template -> string, s: Runtime, e: Event)
    requires c.Valid() && Inv(c, s) && s.sendDone
    ensures var r := Step(c, render, s, e);
            r.sendDone || (!r.firing && r.outbox == s.outbox + DoneCalls(c, render))
  {
  }

  /** Over any run, a done message owed at the start is either still owed at
      the end or was sent during the run, once per notifier. Once a
      notification has gone out in an episode, the done message therefore goes
      out when the episode clears. */
  lemma {:induction false} OwedIsPaid(c: Config, render: Template -> string, s: Runtime, es: seq<Event>)
    requires c.Valid() && Inv(c, s) && s.sendDone
    ensures var r := Run(c, render, s, es);
            r.sendDone || exists m :: s.outbox <= m && m + DoneCalls(c, render) <= r.outbox
    decreases |es|
  {
    if es != [] {
      var next := Step(c, render, s, es[0]);
      var r := Run(c, render, s, es);
      assert r == Run(c, render, next, es[1..]);
      StepKeepsOwed(c, render, s, es[0]);
      if next.sendDone {
        StepAppends(c, render, s, es[0]);
        OwedIsPaid(c, render, next, es[1..]);
        if !r.sendDone {
          var m :| next.outbox <= m && m + DoneCalls(c, render) <= r.outbox;
          assert s.outbox <= m;
        }
      } else {
        RunAppends(c, render, next, es[1..]);
        assert s.outbox <= s.outbox && s.outbox + DoneCalls(c, render) <= r.outbox;
      }
    }
  }
}
