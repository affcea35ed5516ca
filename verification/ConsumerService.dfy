/**
 The service's consumer variables, updated step by step as its coroutines do.
 */
module ConsumerService {
  import opened Identifiers
  import opened ConsumerModel
  import opened ConsumerRuns

  class Consumers {
    const cfg: Config
    var subs: Subs
    var tasks: Tasks
    var watch: Watch
    var queues: set<Kind>
    var recoveryRequested: bool
    var connection: bool
    var channel: bool
    var stopping: bool

    ghost function View(): State
      reads this
    {
      State(subs, tasks, watch, queues, recoveryRequested, connection, channel, stopping)
    }

    constructor (cfg: Config)
      ensures this.cfg == cfg && View() == Initial() && Inv(View())
    {
      this.cfg := cfg;
      subs, tasks := Subs(map[], map[], 0, {}, map[], 0), Tasks(map[], map[], 0);
      watch := Watch({}, 0.0, map k: Kind | k in EVERY_KIND :: 0.0, map k: Kind | k in EVERY_KIND :: 0);
      queues, recoveryRequested, connection, channel, stopping := {}, false, false, false, false;
    }

    // ---------------------------------------------------------- registration

    method RegisterConsumer(kind: Kind, tag: string)
      modifies this`subs
      ensures subs == ConsumerModel.Register(old(subs), kind, tag)
    {
      subs := subs.(tags := subs.tags[kind := tag], history := subs.history[kind := tag]);
      subs := subs.(gauge := subs.gauge + 1);
      subs := subs.(live := subs.live + {kind}, epochs := subs.epochs[kind := subs.registrations],
                    registrations := subs.registrations + 1);
    }

    method Startup(now: real, names: Kind -> string)
      requires View() == Initial()
      modifies this
      ensures View() == Next(cfg, old(View()), Event.Startup(now, names)) && Inv(View())
    {
      StartupKeepsInv(cfg, now, names);
      connection, channel, queues := true, true, EVERY_KIND;
      subs, watch := subs.(history := map[]), watch.(startedAt := now);
      RegisterAll(names);
    }

    method RegisterAll(names: Kind -> string)
      requires SubsOk(subs) && subs.tags == map[]
      modifies this`subs
      ensures subs == RegisterMissing(old(subs), |KINDS|, names)
    {
      for i := 0 to |KINDS|
        invariant subs == RegisterMissing(old(subs), i, names)
      {
        RegisterMissingMeans(old(subs), i, names);
        RegisterConsumer(KINDS[i], names(KINDS[i]));
      }
    }

    // ---------------------------------------------------------- deliveries and markers

    method CancelPending(kind: Kind)
      modifies this`tasks
      ensures tasks == CancelTimer(old(tasks), kind)
    {
      if kind in tasks.timers {
        var timer := tasks.timers[kind];
        tasks := tasks.(timers := tasks.timers - {kind});
        if timer.Running? && timer.id in tasks.cancels {
          tasks := tasks.(cancels := tasks.cancels[timer.id := tasks.cancels[timer.id].(doomed := true)]);
        }
      }
    }

    /** A record after completion re-arms its kind's alarm and calls off the pending cancellation. */
    method RecordArrives(kind: Kind)
      requires Inv(View()) && !stopping
      modifies this
      ensures View() == Next(cfg, old(View()), Arrives(kind)) && Inv(View())
    {
      NextKeepsInv(cfg, View(), Arrives(kind));
      watch := watch.(completed := watch.completed - {kind});
      CancelPending(kind);
    }

    method DeliverySettled(kind: Kind, now: real)
      requires Inv(View()) && kind in watch.counts && now > 0.0
      modifies this
      ensures View() == Next(cfg, old(View()), Settled(kind, now)) && Inv(View())
    {
      NextKeepsInv(cfg, View(), Settled(kind, now));
      watch := watch.(counts := watch.counts[kind := watch.counts[kind] + 1]);
      watch := watch.(lastMessage := watch.lastMessage[kind := now]);
    }

    /** A completion marker: schedule the cancellation, unless delays are off or no queue is known. */
    method FileCompletion(kind: Kind)
      requires Inv(View()) && !stopping
      modifies this
      ensures View() == Next(cfg, old(View()), Completes(kind)) && Inv(View())
    {
      NextKeepsInv(cfg, View(), Completes(kind));
      if cfg.cancelDelay > 0 && kind in queues {
        CancelPending(kind);
        tasks := tasks.(timers := tasks.timers[kind := Sleeping]);
      }
      watch := watch.(completed := watch.completed + {kind});
    }

    // ---------------------------------------------------------- cancellation tasks

    method BeginCancel(kind: Kind, timed: bool)
      requires kind in subs.tags && kind in subs.epochs
      modifies this`tasks
      ensures tasks == Begin(old(tasks), kind, subs.tags[kind], subs.epochs[kind], timed)
    {
      var id := tasks.begun;
      tasks := tasks.(cancels := tasks.cancels[id := Cancel(kind, Asking(subs.tags[kind], subs.epochs[kind]), timed,
                                                            false)]);
      if timed {
        tasks := tasks.(timers := tasks.timers[kind := Running(id)]);
      }
      tasks := tasks.(begun := id + 1);
    }

    method TimerFires(kind: Kind)
      requires Inv(View()) && kind in tasks.timers && tasks.timers[kind].Sleeping?
      modifies this
      ensures View() == Next(cfg, old(View()), Event.TimerFires(kind)) && Inv(View())
    {
      NextKeepsInv(cfg, View(), Event.TimerFires(kind));
      if kind in subs.tags {
        BeginCancel(kind, true);
      } else {
        tasks := tasks.(timers := tasks.timers - {kind});
      }
    }

    method EndTask(id: nat)
      requires id in tasks.cancels
      modifies this`tasks
      ensures tasks == Finish(old(tasks), id)
    {
      var kind := tasks.cancels[id].kind;
      if kind in tasks.timers && tasks.timers[kind] == Running(id) {
        tasks := tasks.(timers := tasks.timers - {kind});
      }
      tasks := tasks.(cancels := tasks.cancels - {id});
    }

    /** The broker, too, has acted on the request. */
    method CancelReachesBroker(id: nat)
      requires Inv(View()) && InFlight(View(), id)
      modifies this
      ensures View() == Next(cfg, old(View()), BrokerActs(id)) && Inv(View())
    {
      NextKeepsInv(cfg, View(), BrokerActs(id));
      var c := tasks.cancels[id];
      if c.kind in subs.epochs && subs.epochs[c.kind] == c.phase.epoch {
        subs := subs.(live := subs.live - {c.kind});
      }
    }

    /** The reply to a cancel: confirmed drops the tag and may turn to closing, anything else asks for recovery. */
    method CancelAnswered(id: nat, confirmed: bool)
      requires Inv(View()) && InFlight(View(), id) && !tasks.cancels[id].doomed
      modifies this
      ensures View() == Next(cfg, old(View()), Answered(id, confirmed)) && Inv(View())
    {
      NextKeepsInv(cfg, View(), Answered(id, confirmed));
      if !confirmed {
        recoveryRequested := true;
        EndTask(id);
        return;
      }
      ConfirmTask(id);
    }

    method ConfirmTask(id: nat)
      requires SubsOk(subs) && InFlight(View(), id)
      modifies this`subs, this`tasks
      ensures View() == Confirm(old(View()), id)
    {
      var c := tasks.cancels[id];
      DropTag(c);
      if c.timed && subs.tags == map[] && watch.completed == EVERY_KIND {
        tasks := tasks.(cancels := tasks.cancels[id := c.(phase := Closing(connection || channel))]);
      } else {
        EndTask(id);
      }
    }

    method DropTag(c: Cancel)
      requires SubsOk(subs) && c.phase.Asking?
      modifies this`subs
      ensures subs == ConsumerModel.Answer(old(subs), c)
    {
      if c.kind in subs.epochs && subs.epochs[c.kind] == c.phase.epoch {
        subs := subs.(live := subs.live - {c.kind});
      }
      if c.kind in subs.tags && subs.tags[c.kind] == c.phase.tag {
        subs := subs.(tags := subs.tags - {c.kind}, epochs := subs.epochs - {c.kind});
        subs := subs.(gauge := subs.gauge - 1);
      }
    }

    method TaskInterrupted(id: nat)
      requires Inv(View()) && id in tasks.cancels && tasks.cancels[id].doomed
      modifies this
      ensures View() == Next(cfg, old(View()), Interrupted(id)) && Inv(View())
    {
      NextKeepsInv(cfg, View(), Interrupted(id));
      if tasks.cancels[id].phase.Asking? {
        recoveryRequested := true;
      }
      EndTask(id);
    }

    // ---------------------------------------------------------- transport

    /** Close the channel, then the connection; only a confirmed close forgets the tags. */
    method CloseConnection(had: bool, o: CloseOutcome)
      modifies this
      ensures View() == CloseFrom(old(View()), had, o)
    {
      if channel {
        match o.channel {
          case Done => channel, subs := false, subs.(live := {});
          case Raises =>
          case TimesOut =>
            recoveryRequested := true;
            return;
        }
      }
      if connection {
        if o.connection != Done {
          recoveryRequested := true;
          return;
        }
        connection, channel := false, false;
      }
      if channel {
        recoveryRequested := true;
        return;
      }
      if !had {
        return;
      }
      subs := subs.(gauge := subs.gauge - |subs.tags|);
      subs := subs.(tags := map[], epochs := map[], history := map[], live := {});
      watch := watch.(startedAt := 0.0);
    }

    method IdleChannelCloses(id: nat)
      requires Inv(View()) && ClosingNow(View(), id) && channel
      modifies this
      ensures View() == Next(cfg, old(View()), ChannelCloses(id)) && Inv(View())
    {
      NextKeepsInv(cfg, View(), ChannelCloses(id));
      channel, subs := false, subs.(live := {});
    }

    method IdleCloseEnds(id: nat, o: CloseOutcome)
      requires Inv(View()) && ClosingNow(View(), id)
      modifies this
      ensures View() == Next(cfg, old(View()), CloseEnds(id, o)) && Inv(View())
    {
      NextKeepsInv(cfg, View(), CloseEnds(id, o));
      FinishClose(id, o);
    }

    method FinishClose(id: nat, o: CloseOutcome)
      requires ClosingNow(View(), id)
      modifies this
      ensures View() == Next(cfg, old(View()), CloseEnds(id, o))
    {
      CloseConnection(tasks.cancels[id].phase.hadTransport, o);
      EndTask(id);
    }

    method CancelAllTimers()
      modifies this`tasks
      ensures tasks == CancelTimers(old(tasks), |KINDS|)
    {
      for i := 0 to |KINDS|
        invariant tasks == CancelTimers(old(tasks), i)
      {
        CancelPending(KINDS[i]);
      }
    }

    // ---------------------------------------------------------- recovery

    method AbandonTransport(teardown: CloseOutcome)
      modifies this
      ensures View() == Abandon(old(View()), teardown)
    {
      recoveryRequested := true;
      connection, channel, queues := true, true, {};
      CloseConnection(true, teardown);
    }

    /** A consumer for each of the first `k` kinds that lacks one. */
    method Resubscribe(now: real, kinds: set<Kind>, names: Kind -> string, k: nat)
      requires k <= |KINDS| && SubsOk(subs) && subs.tags == map[]
      modifies this
      ensures View() == Resubscribed(old(View()), now, kinds, names, k)
    {
      connection, channel := true, true;
      subs, watch := subs.(history := map[]), watch.(startedAt := now);
      queues := EVERY_KIND;
      assert SubsOk(subs);
      StartMissing(now, kinds, names, k);
    }

    method StartMissing(now: real, kinds: set<Kind>, names: Kind -> string, k: nat)
      requires k <= |KINDS| && SubsOk(subs) && subs.tags == map[]
      modifies this`subs, this`watch
      ensures subs == RegisterMissing(old(subs), k, names)
      ensures watch == WatchMissing(old(watch), old(subs), k, kinds, now)
    {
      for i := 0 to k
        invariant subs == RegisterMissing(old(subs), i, names)
        invariant watch == WatchMissing(old(watch), old(subs), i, kinds, now)
      {
        NextIsMissing(old(subs), old(watch), i, kinds, names, now);
        StartOne(now, kinds, names, KINDS[i]);
      }
    }

    /** The next kind has no consumer yet, so starting one is what registering one more kind means. */
    static lemma NextIsMissing(u: Subs, w: Watch, i: nat, kinds: set<Kind>, names: Kind -> string, now: real)
      requires SubsOk(u) && u.tags == map[] && i < |KINDS|
      ensures KINDS[i] !in RegisterMissing(u, i, names).tags
      ensures RegisterMissing(u, i + 1, names) == Register(RegisterMissing(u, i, names), KINDS[i], names(KINDS[i]))
      ensures var before := WatchMissing(w, u, i, kinds, now);
              WatchMissing(w, u, i + 1, kinds, now) ==
                before.(completed := before.completed - (if KINDS[i] in kinds then {KINDS[i]} else {}),
                        lastMessage := before.lastMessage[KINDS[i] := now])
    {
      RegisterMissingMeans(u, i, names);
      KindAt(i);
    }

    /** A consumer for a kind without one; only a kind with a backlog becomes incomplete. */
    method StartOne(now: real, kinds: set<Kind>, names: Kind -> string, kind: Kind)
      modifies this`subs, this`watch
      ensures if kind in old(subs).tags then subs == old(subs) && watch == old(watch)
              else subs == ConsumerModel.Register(old(subs), kind, names(kind))
                   && watch == old(watch).(completed := old(watch).completed - (if kind in kinds then {kind} else {}),
                                           lastMessage := old(watch).lastMessage[kind := now])
    {
      if kind !in subs.tags {
        RegisterConsumer(kind, names(kind));
        if kind in kinds {
          watch := watch.(completed := watch.completed - {kind});
        }
        watch := watch.(lastMessage := watch.lastMessage[kind := now]);
      }
    }

    method TryAgain(now: real, attempt: Attempt, teardown: CloseOutcome)
      requires AttemptOk(attempt) && SubsOk(subs) && subs.tags == map[]
      modifies this
      ensures View() == Attempted(old(View()), now, attempt, teardown)
    {
      match attempt {
        case NoConnection => recoveryRequested := true;
        case DeclareFails => AbandonTransport(teardown);
        case NoBacklog(closes) =>
          if !closes {
            AbandonTransport(teardown);
          }
        case Backlog(kinds, names, broken) =>
          Resubscribe(now, kinds, names, if broken.Some? then broken.value else |KINDS|);
          if broken.Some? {
            AbandonTransport(teardown);
          }
      }
    }

    method RecoverConsumers(now: real, drop: CloseOutcome, attempt: Attempt, teardown: CloseOutcome)
      requires Inv(View()) && !stopping && now > 0.0 && AttemptOk(attempt)
      modifies this
      ensures View() == Next(cfg, old(View()), Recovers(now, drop, attempt, teardown)) && Inv(View())
    {
      NextKeepsInv(cfg, View(), Recovers(now, drop, attempt, teardown));
      DroppedIsClean(View(), drop);
      RunRecovery(now, drop, attempt, teardown);
    }

    method RunRecovery(now: real, drop: CloseOutcome, attempt: Attempt, teardown: CloseOutcome)
      requires AttemptOk(attempt)
      requires var dropped := DropTransport(View(), drop);
               !dropped.connection && !dropped.channel ==> SubsOk(dropped.subs) && dropped.subs.tags == map[]
      modifies this
      ensures View() == Recover(old(View()), now, drop, attempt, teardown)
    {
      if connection || channel {
        CloseConnection(true, drop);
        if connection || channel {
          return;
        }
      }
      CancelAllTimers();
      recoveryRequested := false;
      TryAgain(now, attempt, teardown);
    }

    // ---------------------------------------------------------- alarms and the checker

    method ConsumerAlarms(now: real) returns (alarms: seq<Kind>)
      ensures alarms == Alarms(cfg, watch, subs.tags, now)
    {
      alarms := [];
      var trafficSeen := exists k :: k in watch.counts && watch.counts[k] > 0;
      var graceExpired := watch.startedAt > 0.0 && now - watch.startedAt >= cfg.idleTimeout;
      if !trafficSeen && !graceExpired {
        return;
      }
      var allButOne := |watch.completed| >= |KINDS| - 1;
      for i := 0 to |KINDS|
        invariant alarms == AlarmsAmong(cfg, watch, subs.tags, now, i)
      {
        var kind := KINDS[i];
        if kind !in watch.completed {
          var neverRegistered := kind !in subs.tags;
          var stalled := graceExpired && allButOne
              && (if kind in watch.lastMessage then watch.lastMessage[kind] else 0.0) <= 0.0;
          if neverRegistered || stalled {
            alarms := alarms + [kind];
          }
        }
      }
    }

    /** What a wake-up does, and when the queues were last looked at. */
    method CheckerWakes(now: real, lastFull: real) returns (action: Check, lastChecked: real)
      ensures action == CheckerAction(cfg, View(), now, lastFull)
      ensures lastChecked == if action == FullCheck then now else lastFull
      ensures action == Recovering <==> recoveryRequested || !AllWell(cfg, View(), now)
      ensures action == FullCheck <==>
                !recoveryRequested && AllWell(cfg, View(), now) && now >= lastFull + cfg.checkInterval && !connection
                && subs.tags == map[]
    {
      WakeUpsAreExact(cfg, View(), now, lastFull);
      lastChecked := lastFull;
      if recoveryRequested {
        return Recovering, lastChecked;
      }
      var alarms := ConsumerAlarms(now);
      if alarms != [] {
        return Recovering, lastChecked;
      }
      if now - lastFull < cfg.checkInterval {
        return Resting, lastChecked;
      }
      if connection || |subs.tags| > 0 {
        return Resting, lastChecked;
      }
      lastChecked := now;
      return FullCheck, lastChecked;
    }

    // ---------------------------------------------------------- shutdown

    method Shutdown()
      requires Inv(View())
      modifies this
      ensures View() == Next(cfg, old(View()), ShutsDown) && Inv(View())
    {
      NextKeepsInv(cfg, View(), ShutsDown);
      stopping := true;
      CancelAllTimers();
    }

    method ShutdownCancel(kind: Kind)
      requires Inv(View()) && stopping && kind in subs.tags
      modifies this
      ensures View() == Next(cfg, old(View()), ShutdownCancels(kind)) && Inv(View())
    {
      NextKeepsInv(cfg, View(), ShutdownCancels(kind));
      if kind in queues {
        BeginCancel(kind, false);
      } else {
        recoveryRequested := true;
      }
    }
  }
}
