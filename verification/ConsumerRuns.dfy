/**
 Whole runs of the consumer lifecycle: tags leave only on the broker's word, a lost subscription is
 never forgotten, and a recovery that raises nothing leaves every kind consuming and no alarm.
 */
module ConsumerRuns {
  import opened Identifiers
  import opened ConsumerModel

  ghost predicate Allowed(cfg: Config, s: State, es: seq<Event>)
    decreases |es|
  {
    es == [] || (Enabled(s, es[0]) && Allowed(cfg, Next(cfg, s, es[0]), es[1..]))
  }

  ghost function After(cfg: Config, s: State, es: seq<Event>): State
    requires Allowed(cfg, s, es)
    decreases |es|
  {
    if es == [] then s else After(cfg, Next(cfg, s, es[0]), es[1..])
  }

  lemma {:induction false} RunKeepsInv(cfg: Config, s: State, es: seq<Event>)
    requires Inv(s) && Allowed(cfg, s, es)
    ensures Inv(After(cfg, s, es))
    decreases |es|
  {
    if es != [] {
      NextKeepsInv(cfg, s, es[0]);
      RunKeepsInv(cfg, Next(cfg, s, es[0]), es[1..]);
    }
  }

  /**
   In every reachable state: the gauge is the number of tags, each tag is on the connection's record,
   tags imply a transport handle, and, with no cancel outstanding and no recovery requested, the broker
   really holds every subscription that has a tag.
   */
  lemma EveryRunIsConsistent(cfg: Config, es: seq<Event>)
    requires Allowed(cfg, Initial(), es)
    ensures var s := After(cfg, Initial(), es);
            && s.subs.gauge == |s.subs.tags|
            && (forall k | k in s.subs.tags :: k in s.subs.history && s.subs.history[k] == s.subs.tags[k])
            && (s.subs.tags != map[] ==> s.connection || s.channel)
            && (!s.requested && s.tasks.cancels == map[] ==> forall k | k in s.subs.tags :: k in s.subs.live)
  {
    RunKeepsInv(cfg, Initial(), es);
    var s := After(cfg, Initial(), es);
    if !s.requested && s.tasks.cancels == map[] {
      forall k | k in s.subs.tags ensures k in s.subs.live {
        assert k !in s.subs.live ==> Asked(s.subs, s.tasks, k);
      }
    }
  }

  // ------------------------------------------------------------ tags leave on the broker's word

  /** The registration behind the tag is gone, even if a new one has the same tag string. */
  ghost predicate Left(s: State, s': State, k: Kind) {
    k in s.subs.tags && k in s.subs.epochs && !(k in s'.subs.tags && k in s'.subs.epochs
                                                && s'.subs.epochs[k] == s.subs.epochs[k])
  }

  /** The broker confirmed this very registration's cancel. */
  ghost predicate CancelConfirmed(s: State, e: Event, k: Kind) {
    e.Answered? && e.confirmed && InFlight(s, e.id) && s.tasks.cancels[e.id].kind == k
    && k in s.subs.epochs && s.tasks.cancels[e.id].phase.epoch == s.subs.epochs[k]
  }

  /** A recovery began by closing a transport it held, and the close was confirmed. */
  ghost predicate TransportConfirmed(s: State, e: Event) {
    e.Recovers? && (s.connection || s.channel) && Confirmed(s, e.drop)
  }

  lemma ClosingHasNoTags(s: State)
    requires Inv(s)
    ensures forall id :: ClosingNow(s, id) ==> s.subs.tags == map[]
  {
    forall id | ClosingNow(s, id) ensures s.subs.tags == map[] {
      assert Current(s.subs, s.tasks.cancels[id]);
    }
  }

  lemma TagsLeaveOnlyWhenConfirmed(cfg: Config, s: State, e: Event, k: Kind)
    requires Inv(s) && Enabled(s, e) && Left(s, Next(cfg, s, e), k)
    ensures CancelConfirmed(s, e, k) || TransportConfirmed(s, e)
  {
    ClosingHasNoTags(s);
    match e
    case Answered(id, confirmed) =>
      if confirmed {
        assert Current(s.subs, s.tasks.cancels[id]);
        AnswerDropsItsOwn(s.subs, s.tasks.cancels[id]);
      }
    case Recovers(_, drop, _, _) =>
      CloseMeans(s, true, drop);
      assert s.connection || s.channel;
    case _ =>
  }

  // ------------------------------------------------------------ requests

  /** An RPC or a close that did not end well. */
  ghost predicate WentWrong(s: State, e: Event)
    requires Enabled(s, e)
  {
    match e
    case Answered(_, confirmed) => !confirmed
    case Interrupted(id) => s.tasks.cancels[id].phase.Asking?
    case CloseEnds(_, o) => (s.connection || s.channel) && !Confirmed(s, o)
    case Recovers(_, drop, attempt, _) =>
      if (s.connection || s.channel) && !Confirmed(s, drop) then true
      else !(attempt == NoBacklog(true) || (attempt.Backlog? && attempt.broken == None))
    case ShutdownCancels(kind) => kind !in s.queues
    case _ => false
  }

  /**
   Anything that goes wrong leaves a recovery requested, and a request is cleared exactly by a recovery
   that found no transport left and raised nothing.
   */
  lemma RequestsAreExact(cfg: Config, s: State, e: Event)
    requires Inv(s) && Enabled(s, e)
    ensures Next(cfg, s, e).requested <==> WentWrong(s, e) || (s.requested && !e.Recovers?)
  {
    match e
    case CloseEnds(id, o) => CloseMeans(s, s.tasks.cancels[id].phase.hadTransport, o);
    case Recovers(now, drop, attempt, teardown) =>
      CloseMeans(s, true, drop);
      DroppedIsClean(s, drop);
      var dropped := DropTransport(s, drop);
      if !dropped.connection && !dropped.channel {
        AttemptedKeepsInv(Cleared(dropped), now, attempt, teardown);
        if !WentWrong(s, e) { AttemptRequests(Cleared(dropped), now, attempt, teardown); }
      }
    case _ =>
  }

  lemma AttemptRequests(s: State, now: real, attempt: Attempt, teardown: CloseOutcome)
    requires !s.requested && AttemptOk(attempt)
             && (attempt == NoBacklog(true) || (attempt.Backlog? && attempt.broken == None))
    ensures !Attempted(s, now, attempt, teardown).requested
  {}

  /** Without a recovery the request stays, whatever else happens. */
  lemma {:induction false} RequestsStay(cfg: Config, s: State, es: seq<Event>)
    requires Inv(s) && Allowed(cfg, s, es) && s.requested && forall i | 0 <= i < |es| :: !es[i].Recovers?
    ensures After(cfg, s, es).requested
    decreases |es|
  {
    if es != [] {
      NextKeepsInv(cfg, s, es[0]);
      RequestsAreExact(cfg, s, es[0]);
      RequestsStay(cfg, Next(cfg, s, es[0]), es[1..]);
    }
  }

  // ------------------------------------------------------------ alarms

  predicate TrafficSeen(w: Watch) { exists k :: k in w.counts && w.counts[k] > 0 }

  predicate GraceExpired(cfg: Config, w: Watch, now: real) { w.startedAt > 0.0 && now - w.startedAt >= cfg.idleTimeout }

  /** The kind has no consumer, or its siblings are done and it never delivered anything. */
  predicate Starved(cfg: Config, w: Watch, tags: map<Kind, string>, now: real, k: Kind) {
    k !in w.completed
    && (k !in tags
        || (GraceExpired(cfg, w, now) && |w.completed| >= |KINDS| - 1
            && (k in w.lastMessage ==> w.lastMessage[k] <= 0.0)))
  }

  /** The alarm list, in the order of the kinds. */
  function AlarmsAmong(cfg: Config, w: Watch, tags: map<Kind, string>, now: real, n: nat): seq<Kind>
    requires n <= |KINDS|
  {
    if n == 0 then []
    else
      AlarmsAmong(cfg, w, tags, now, n - 1)
      + (if Starved(cfg, w, tags, now, KINDS[n - 1]) then [KINDS[n - 1]] else [])
  }

  function Alarms(cfg: Config, w: Watch, tags: map<Kind, string>, now: real): seq<Kind> {
    if !TrafficSeen(w) && !GraceExpired(cfg, w, now) then [] else AlarmsAmong(cfg, w, tags, now, |KINDS|)
  }

  lemma {:induction false} AlarmsAmongHas(cfg: Config, w: Watch, tags: map<Kind, string>, now: real, n: nat, k: Kind)
    requires n <= |KINDS|
    ensures k in AlarmsAmong(cfg, w, tags, now, n) <==> Starved(cfg, w, tags, now, k) && Rank(k) < n
  {
    if n > 0 {
      AlarmsAmongHas(cfg, w, tags, now, n - 1, k);
      KindAt(n - 1);
    }
  }

  lemma AlarmsHave(cfg: Config, w: Watch, tags: map<Kind, string>, now: real, k: Kind)
    ensures k in Alarms(cfg, w, tags, now) <==>
            (TrafficSeen(w) || GraceExpired(cfg, w, now)) && Starved(cfg, w, tags, now, k)
  {
    AlarmsAmongHas(cfg, w, tags, now, |KINDS|, k);
  }

  /** The watch has run for at least the idle timeout. */
  ghost predicate LongWatched(cfg: Config, w: Watch, now: real) {
    w.startedAt > 0.0 && now >= w.startedAt + cfg.idleTimeout
  }

  /** Some record has been handled, or the watch has run long enough. */
  ghost predicate CanAlarm(cfg: Config, w: Watch, now: real) {
    LongWatched(cfg, w, now) || exists k :: k in w.counts && w.counts[k] != 0
  }

  /** The kind has a consumer that never delivered, though the watch has run and every other kind is complete. */
  ghost predicate LeftBehind(cfg: Config, w: Watch, now: real, k: Kind) {
    && LongWatched(cfg, w, now) && (forall other :: other != k ==> other in w.completed)
    && (k !in w.lastMessage || w.lastMessage[k] <= 0.0)
  }

  lemma OthersComplete(completed: set<Kind>, k: Kind, n: nat)
    requires k !in completed && n == |KINDS|
    ensures |completed| >= n - 1 <==> forall other :: other != k ==> other in completed
  {
    AllKinds();
    var others := EVERY_KIND - {k};
    assert completed <= others && |EVERY_KIND| == n && |others| == n - 1;
    assert |others - completed| == |others| - |completed|;
    if forall other :: other != k ==> other in completed { assert completed == others; }
    if |completed| >= n - 1 { assert others - completed == {}; }
  }

  /**
   The alarm list, kind by kind: incomplete, once alarms can sound, and either without a consumer or
   left behind by siblings that are all done.
   */
  lemma AlarmsMean(cfg: Config, w: Watch, tags: map<Kind, string>, now: real, k: Kind)
    ensures k in Alarms(cfg, w, tags, now) <==>
              k !in w.completed && CanAlarm(cfg, w, now) && (k !in tags || LeftBehind(cfg, w, now, k))
    ensures k in Alarms(cfg, w, tags, now) && k in tags ==> k !in w.lastMessage || w.lastMessage[k] <= 0.0
  {
    AlarmsHave(cfg, w, tags, now, k);
    if k !in w.completed { OthersComplete(w.completed, k, |KINDS|); }
  }

  /** A record handled makes alarms possible and its own kind, while subscribed, exempt at any later time. */
  lemma DeliveryIsSeen(cfg: Config, s: State, kind: Kind, now: real, later: real)
    requires Enabled(s, Settled(kind, now))
    ensures var s' := Next(cfg, s, Settled(kind, now));
            && CanAlarm(cfg, s'.watch, later)
            && (kind in s'.subs.tags ==> kind !in Alarms(cfg, s'.watch, s'.subs.tags, later))
            && s' == s.(watch := s'.watch) && s'.watch.completed == s.watch.completed
            && s'.watch.startedAt == s.watch.startedAt
            && (forall k | k != kind && k in s.watch.counts :: s'.watch.counts[k] == s.watch.counts[k])
            && s'.watch.counts[kind] == s.watch.counts[kind] + 1
  {
    var s' := Next(cfg, s, Settled(kind, now));
    assert kind in s'.watch.counts && s'.watch.counts[kind] != 0;
    AlarmsMean(cfg, s'.watch, s'.subs.tags, later, kind);
  }

  lemma SomeMember(s: seq<Kind>)
    ensures s != [] ==> exists k :: k in s
  {
    if s != [] { assert s[0] in s; }
  }

  /** Starting a consumer for the first `n` kinds, on an empty record. */
  lemma ResubscribedServes(s: State, now: real, kinds: set<Kind>, names: Kind -> string, n: nat)
    requires SubsOk(s.subs) && s.subs.tags == map[] && n <= |KINDS|
    ensures var s' := Resubscribed(s, now, kinds, names, n);
            && SubsOk(s'.subs) && (forall k | Rank(k) < n :: k in s'.subs.tags && k in s'.subs.live)
            && (forall k | Rank(k) < n :: k in s'.watch.completed <==> k in s.watch.completed && k !in kinds)
            && (forall k | Rank(k) < n :: k in s'.watch.lastMessage && s'.watch.lastMessage[k] == now)
  {
    var u := s.subs.(history := map[]);
    RegisterMissingMeans(u, n, names);
    WatchMissingMeans(s.watch.(startedAt := now), u, n, kinds, now);
  }

  lemma RankIsBelow(n: nat)
    requires n == |KINDS|
    ensures forall k :: Rank(k) < n
  {}

  /** With every kind registered and just heard from, no alarm can sound. */
  lemma NoAlarm(cfg: Config, w: Watch, tags: map<Kind, string>, later: real)
    requires forall k: Kind :: k in tags && k in w.lastMessage && w.lastMessage[k] > 0.0
    ensures Alarms(cfg, w, tags, later) == []
  {
    var alarms := Alarms(cfg, w, tags, later);
    forall k ensures k !in alarms { AlarmsHave(cfg, w, tags, later, k); }
    SomeMember(alarms);
  }

  /** A recovery that drops its transport cleanly, finds a backlog and raises nothing. */
  ghost predicate Succeeds(s: State, e: Event) {
    && e.Recovers? && e.attempt.Backlog? && e.attempt.broken == None
    && (s.connection || s.channel ==> Confirmed(s, e.drop))
  }

  lemma RecoveredState(cfg: Config, s: State, e: Event)
    requires Inv(s) && Enabled(s, e) && Succeeds(s, e)
    ensures var clean := Cleared(DropTransport(s, e.drop));
            && Next(cfg, s, e) == Resubscribed(clean, e.now, e.attempt.kinds, e.attempt.names, |KINDS|)
            && Inv(clean) && clean.subs.tags == map[] && !clean.requested && clean.watch.completed == s.watch.completed
            && NoTaskActs(clean.tasks) && SomeDoomed(s.tasks, clean.tasks)
  {
    var dropped := DropTransport(s, e.drop);
    CloseMeans(s, true, e.drop);
    DroppedIsClean(s, e.drop);
    AllTimersDoom(dropped.tasks);
  }

  lemma ResubscribingWatches(s: State, now: real, kinds: set<Kind>, names: Kind -> string, n: nat)
    requires SubsOk(s.subs) && s.subs.tags == map[] && n == |KINDS|
    ensures var s' := Resubscribed(s, now, kinds, names, n);
            && s'.queues == EVERY_KIND && s'.watch.startedAt == now && s'.watch.counts == s.watch.counts
            && (forall k: Kind :: k in s'.watch.lastMessage && s'.watch.lastMessage[k] == now)
  {
    WatchMissingMeans(s.watch.(startedAt := now), s.subs.(history := map[]), n, kinds, now);
    RankIsBelow(n);
  }

  /** And it declares every queue and starts the watch anew, with every kind just heard from. */
  lemma RecoveryStartsWatch(cfg: Config, s: State, e: Event)
    requires Inv(s) && Enabled(s, e) && Succeeds(s, e)
    ensures var s' := Next(cfg, s, e);
            && s'.queues == EVERY_KIND && s'.watch.startedAt == e.now
            && (forall k: Kind :: k in s'.watch.lastMessage && s'.watch.lastMessage[k] == e.now)
  {
    RecoveredState(cfg, s, e);
    ResubscribingWatches(Cleared(DropTransport(s, e.drop)), e.now, e.attempt.kinds, e.attempt.names, |KINDS|);
  }

  /** A confirmed close forgets the connection: no tag, no history, no subscription, and no watch running. */
  lemma ConfirmedCloseForgets(s: State, o: CloseOutcome)
    requires SubsOk(s.subs) && (s.connection || s.channel) && Confirmed(s, o)
    ensures var closed := Close(s, o);
            && !closed.connection && !closed.channel
            && closed.subs.tags == map[] && closed.subs.history == map[] && closed.subs.live == {}
            && closed.subs.gauge == 0 && closed.watch.startedAt == 0.0
  {}

  /** A recovery that drops its transport cleanly and finds no message holds nothing afterwards. */
  lemma EmptyRecoveryHoldsNothing(cfg: Config, s: State, e: Event)
    requires Inv(s) && Enabled(s, e) && e.Recovers? && e.attempt == NoBacklog(true)
    requires s.connection || s.channel ==> Confirmed(s, e.drop)
    ensures var s' := Next(cfg, s, e);
            && !s'.connection && !s'.channel && s'.subs.tags == map[] && !s'.requested
            && s'.watch.completed == s.watch.completed && s'.tasks.timers == map[] && NoTaskActs(s'.tasks)
  {
    CloseMeans(s, true, e.drop);
    DroppedIsClean(s, e.drop);
    AllTimersDoom(DropTransport(s, e.drop).tasks);
    ClosingCompletesNothing(s, s.connection || s.channel, e.drop);
  }

  /** A recovery that raised once it had a connection: it gives up the queues and tries to close what it opened. */
  ghost predicate BreaksOff(s: State, e: Event) {
    && e.Recovers? && (s.connection || s.channel ==> Confirmed(s, e.drop))
    && (e.attempt.DeclareFails? || e.attempt == NoBacklog(false) || (e.attempt.Backlog? && e.attempt.broken.Some?))
  }

  lemma AbandonHolds(s: State, teardown: CloseOutcome)
    requires SubsOk(s.subs)
    ensures var s' := Abandon(s, teardown);
            && s'.requested && s'.queues == {}
            && (s'.connection || s'.channel <==> teardown.channel.TimesOut? || !teardown.connection.Done?)
  {
    CloseMeans(s.(requested := true, connection := true, channel := true, queues := {}), true, teardown);
  }

  /** What it opened stays on record, for the next recovery to drop, unless the teardown was confirmed. */
  lemma BrokenRecoveryHoldsOn(cfg: Config, s: State, e: Event)
    requires Inv(s) && Enabled(s, e) && BreaksOff(s, e)
    ensures var s' := Next(cfg, s, e);
            && s'.requested && s'.queues == {}
            && (s'.connection || s'.channel <==> e.teardown.channel.TimesOut? || !e.teardown.connection.Done?)
  {
    CloseMeans(s, true, e.drop);
    DroppedIsClean(s, e.drop);
    var clean := Cleared(DropTransport(s, e.drop));
    if e.attempt.Backlog? {
      var begun := Resubscribed(clean, e.now, e.attempt.kinds, e.attempt.names, e.attempt.broken.value);
      RegisterMissingMeans(clean.subs.(history := map[]), e.attempt.broken.value, e.attempt.names);
      AbandonHolds(begun, e.teardown);
    } else {
      AbandonHolds(clean, e.teardown);
    }
  }

  lemma DoomedStillAsk(s: State, s': State)
    requires SomeDoomed(s.tasks, s'.tasks)
    ensures forall id :: InFlight(s', id) <==> InFlight(s, id)
  {
    forall id ensures InFlight(s', id) <==> InFlight(s, id) {
      assert id in s.tasks.cancels <==> id in s'.tasks.cancels;
    }
  }

  /**
   Such a recovery leaves every kind registered with a live subscription, the request gone, only kinds
   with a backlog un-completed, every earlier task cancelled, and no alarm, then or at any later time.
   */
  lemma RecoveryRestoresService(cfg: Config, s: State, e: Event, later: real)
    requires Inv(s) && Enabled(s, e) && Succeeds(s, e)
    ensures var s' := Next(cfg, s, e);
            && (forall k: Kind :: k in s'.subs.tags && k in s'.subs.live)
            && s'.subs.gauge == |s'.subs.tags| && s'.connection && s'.channel && !s'.requested
            && (forall k: Kind :: k in s'.watch.completed <==> k in s.watch.completed && k !in e.attempt.kinds)
            && Alarms(cfg, s'.watch, s'.subs.tags, later) == []
            && NoTaskActs(s'.tasks) && (forall id :: InFlight(s', id) <==> InFlight(s, id))
  {
    RecoveredState(cfg, s, e);
    var clean, s' := Cleared(DropTransport(s, e.drop)), Next(cfg, s, e);
    ResubscribedServes(clean, e.now, e.attempt.kinds, e.attempt.names, |KINDS|);
    RankIsBelow(|KINDS|);
    NoAlarm(cfg, s'.watch, s'.subs.tags, later);
    DoomedStillAsk(s, s');
  }

  /**
   Letting cancelled tasks end moves nothing but the request, and brings that back exactly when one of
   them had a cancel in flight. So the request a recovery cleared stays cleared, until something else
   goes wrong, just when none was.
   */
  lemma {:induction false} DoomedTasksEnd(cfg: Config, s: State, es: seq<Event>)
    requires Allowed(cfg, s, es) && forall i | 0 <= i < |es| :: es[i].Interrupted?
    ensures var after := After(cfg, s, es);
            && after == s.(tasks := after.tasks, requested := after.requested)
            && (after.requested <==> s.requested || exists i :: 0 <= i < |es| && InFlight(s, es[i].id))
    decreases |es|
  {
    if es != [] {
      var s1, rest := Next(cfg, s, es[0]), es[1..];
      DoomedTasksEnd(cfg, s1, rest);
      EndedOnce(cfg, s1, rest, es[0].id);
      assert forall i | 0 <= i < |rest| :: rest[i] == es[i + 1];
      forall i | 0 <= i < |rest| ensures InFlight(s1, rest[i].id) <==> InFlight(s, rest[i].id) {
        assert rest[i].id != es[0].id;
      }
      if i :| 0 <= i < |es| && InFlight(s, es[i].id) {
        assert i > 0 ==> InFlight(s1, rest[i - 1].id);
      }
    }
  }

  /** A task that has ended does not end again. */
  lemma {:induction false} EndedOnce(cfg: Config, s: State, es: seq<Event>, id: nat)
    requires Allowed(cfg, s, es) && id !in s.tasks.cancels && forall i | 0 <= i < |es| :: es[i].Interrupted?
    ensures forall i | 0 <= i < |es| :: es[i].id != id
    decreases |es|
  {
    if es != [] {
      EndedOnce(cfg, Next(cfg, s, es[0]), es[1..], id);
      assert forall i | 1 <= i < |es| :: es[i] == es[1..][i - 1];
    }
  }

  // ------------------------------------------------------------ completion and the idle close

  /** The recovery got as far as starting this kind's consumer and had found a backlog for it. */
  ghost predicate Reopened(s: State, e: Event, k: Kind)
    requires Enabled(s, e)
  {
    && e.Recovers? && (s.connection || s.channel ==> Confirmed(s, e.drop))
    && e.attempt.Backlog? && k in e.attempt.kinds
    && Rank(k) < (if e.attempt.broken.Some? then e.attempt.broken.value else |KINDS|)
  }

  /**
   A kind is complete after an event exactly when the event is its marker, or it was complete before
   and no record of it arrived and no recovery restarted it for a backlog.
   */
  lemma CompletionIsExact(cfg: Config, s: State, e: Event, k: Kind)
    requires Inv(s) && Enabled(s, e)
    ensures k in Next(cfg, s, e).watch.completed <==>
              e == Completes(k) || (k in s.watch.completed && e != Arrives(k) && !Reopened(s, e, k))
  {
    match e
    case CloseEnds(id, o) => ClosingCompletesNothing(s, s.tasks.cancels[id].phase.hadTransport, o);
    case Recovers(_, _, _, _) => RecoveringReopens(cfg, s, e, k);
    case _ =>
  }

  lemma RecoveringReopens(cfg: Config, s: State, e: Event, k: Kind)
    requires Inv(s) && Enabled(s, e) && e.Recovers?
    ensures k in Next(cfg, s, e).watch.completed <==> k in s.watch.completed && !Reopened(s, e, k)
  {
    CloseMeans(s, true, e.drop);
    DroppedIsClean(s, e.drop);
    var dropped := DropTransport(s, e.drop);
    if !dropped.connection && !dropped.channel {
      AttemptCompletes(Cleared(dropped), e.now, e.attempt, e.teardown, k);
    }
  }

  lemma ClosingCompletesNothing(s: State, had: bool, o: CloseOutcome)
    ensures CloseFrom(s, had, o).watch.completed == s.watch.completed
  {}

  lemma ResubscribingReopens(s: State, now: real, kinds: set<Kind>, names: Kind -> string, n: nat, k: Kind)
    requires s.subs.tags == map[] && n <= |KINDS|
    ensures k in Resubscribed(s, now, kinds, names, n).watch.completed <==>
            k in s.watch.completed && !(k in kinds && Rank(k) < n)
  {
    WatchMissingMeans(s.watch.(startedAt := now), s.subs.(history := map[]), n, kinds, now);
  }

  lemma AttemptCompletes(s: State, now: real, attempt: Attempt, teardown: CloseOutcome, k: Kind)
    requires s.subs.tags == map[] && AttemptOk(attempt)
    ensures k in Attempted(s, now, attempt, teardown).watch.completed <==>
              k in s.watch.completed
              && !(attempt.Backlog? && k in attempt.kinds
                   && Rank(k) < (if attempt.broken.Some? then attempt.broken.value else |KINDS|))
  {
    match attempt
    case NoConnection =>
    case DeclareFails =>
      ClosingCompletesNothing(s.(requested := true, connection := true, channel := true, queues := {}), true, teardown);
    case NoBacklog(_) =>
      ClosingCompletesNothing(s.(requested := true, connection := true, channel := true, queues := {}), true, teardown);
    case Backlog(kinds, names, broken) =>
      var n := if broken.Some? then broken.value else |KINDS|;
      ResubscribingReopens(s, now, kinds, names, n, k);
      var begun := Resubscribed(s, now, kinds, names, n);
      ClosingCompletesNothing(begun.(requested := true, connection := true, channel := true, queues := {}), true,
                              teardown);
  }

  /**
   The last confirmed cancel of a finished extraction, and no other, goes on to close the connection,
   which then ends everything.
   */
  lemma IdleServiceCloses(cfg: Config, s: State, id: nat, o: CloseOutcome)
    requires Inv(s) && Enabled(s, Answered(id, true))
    ensures var s', kind := Next(cfg, s, Answered(id, true)), s.tasks.cancels[id].kind;
            && (ClosingNow(s', id) <==>
                  s.tasks.cancels[id].timed && s.watch.completed == EVERY_KIND && forall k | k in s.subs.tags ::
                                                                                    k == kind)
            && (ClosingNow(s', id) && Confirmed(s', o) ==>
                  var closed := Next(cfg, s', CloseEnds(id, o));
                  && !closed.connection && !closed.channel && closed.subs.tags == map[] && closed.subs.gauge == 0
                  && closed.requested == s.requested && id !in closed.tasks.cancels)
  {
    var c := s.tasks.cancels[id];
    assert Current(s.subs, c);
    AnswerDropsItsOwn(s.subs, c);
    var s' := Next(cfg, s, Answered(id, true));
    assert s'.subs.tags == map[] <==> forall k | k in s.subs.tags :: k == c.kind;
    NextKeepsInv(cfg, s, Answered(id, true));
    if ClosingNow(s', id) && Confirmed(s', o) {
      CloseMeans(s', s'.tasks.cancels[id].phase.hadTransport, o);
    }
  }

  // ------------------------------------------------------------ the periodic queue check

  /** What the periodic checker does when it wakes, and when it last made a full check. */
  datatype Check = Recovering | FullCheck | Resting

  function CheckerAction(cfg: Config, s: State, now: real, lastFull: real): Check {
    if s.requested then Recovering
    else if Alarms(cfg, s.watch, s.subs.tags, now) != [] then Recovering
    else if now - lastFull < cfg.checkInterval then Resting
    else if s.connection || |s.subs.tags| > 0 then Resting
    else FullCheck
  }

  /** No kind is on the alarm list. */
  ghost predicate AllWell(cfg: Config, s: State, now: real) {
    forall k :: k in s.watch.completed || !CanAlarm(cfg, s.watch, now)
                || (k in s.subs.tags && !LeftBehind(cfg, s.watch, now, k))
  }

  lemma AllWellMeans(cfg: Config, s: State, now: real)
    ensures Alarms(cfg, s.watch, s.subs.tags, now) == [] <==> AllWell(cfg, s, now)
  {
    var alarms := Alarms(cfg, s.watch, s.subs.tags, now);
    SomeMember(alarms);
    forall k { AlarmsMean(cfg, s.watch, s.subs.tags, now, k); }
  }

  /**
   A wake-up recovers exactly when a recovery was asked for or some kind is on the alarm list, and looks
   at all the queues exactly when neither is so, the interval is over, no connection is held and nothing
   is subscribed.
   */
  lemma WakeUpsAreExact(cfg: Config, s: State, now: real, lastFull: real)
    ensures CheckerAction(cfg, s, now, lastFull) == Recovering <==> s.requested || !AllWell(cfg, s, now)
    ensures CheckerAction(cfg, s, now, lastFull) == FullCheck <==>
              !s.requested && AllWell(cfg, s, now) && now >= lastFull + cfg.checkInterval && !s.connection
              && s.subs.tags == map[]
  {
    AllWellMeans(cfg, s, now);
  }

  // ------------------------------------------------------------ an idle service keeps looking

  /** Everything is complete, nothing is held or subscribed, and no task still asks the broker anything. */
  ghost predicate Rested(s: State) {
    && s.subs.tags == map[] && s.watch.completed == EVERY_KIND && !s.connection && !s.channel && !s.requested
    && NothingAsked(s.tasks)
  }

  ghost predicate NothingAsked(t: Tasks) { forall id | id in t.cancels :: t.cancels[id].phase.Closing? }

  lemma {:induction false} CancellingAsksNothing(t: Tasks, n: nat)
    requires NothingAsked(t) && n <= |KINDS|
    ensures NothingAsked(CancelTimers(t, n))
  {
    if n > 0 { CancellingAsksNothing(t, n - 1); }
  }

  /** Until a record arrives or a recovery is made, the service stays as it is. */
  lemma RestStays(cfg: Config, s: State, e: Event)
    requires Rested(s) && Enabled(s, e) && !e.Arrives? && !e.Recovers?
    ensures Rested(Next(cfg, s, e))
  {
    AllKinds();
    CancellingAsksNothing(s.tasks, |KINDS|);
  }

  /** Something happens to the service, or its checker wakes up. */
  datatype Moment = Happens(e: Event) | Wakes(now: real)

  ghost predicate Possible(cfg: Config, s: State, ms: seq<Moment>)
    decreases |ms|
  {
    ms == []
    || match ms[0]
       case Happens(e) => Enabled(s, e) && Possible(cfg, Next(cfg, s, e), ms[1..])
       case Wakes(_) => Possible(cfg, s, ms[1..])
  }

  /** The state and the time of the last full check, some moments later. */
  ghost function Later(cfg: Config, s: State, lastFull: real, ms: seq<Moment>): (State, real)
    requires Possible(cfg, s, ms)
    decreases |ms|
  {
    if ms == [] then (s, lastFull)
    else
      match ms[0]
      case Happens(e) => Later(cfg, Next(cfg, s, e), lastFull, ms[1..])
      case Wakes(now) =>
        Later(cfg, s, if CheckerAction(cfg, s, now, lastFull) == FullCheck then now else lastFull, ms[1..])
  }

  /** No record arrives, no recovery is made, and every wake-up comes before the interval is over. */
  ghost predicate OnlyTimePasses(cfg: Config, lastFull: real, ms: seq<Moment>) {
    forall i | 0 <= i < |ms| ::
      match ms[i]
      case Happens(e) => !e.Arrives? && !e.Recovers?
      case Wakes(now) => now < lastFull + cfg.checkInterval
  }

  lemma RestedWakesUp(cfg: Config, s: State, now: real, lastFull: real)
    requires Rested(s)
    ensures CheckerAction(cfg, s, now, lastFull) == if now < lastFull + cfg.checkInterval then Resting else FullCheck
  {
    AllKinds();
    WakeUpsAreExact(cfg, s, now, lastFull);
  }

  lemma {:induction false} RestedLooksWhenDue(cfg: Config, s: State, lastFull: real, ms: seq<Moment>, now: real)
    requires Rested(s) && Possible(cfg, s, ms) && OnlyTimePasses(cfg, lastFull, ms)
    ensures var (s', last) := Later(cfg, s, lastFull, ms);
            && Rested(s') && last == lastFull
            && CheckerAction(cfg, s', now, last) == if now < lastFull + cfg.checkInterval then Resting else FullCheck
    decreases |ms|
  {
    if ms == [] {
      RestedWakesUp(cfg, s, now, lastFull);
    } else {
      assert forall i | 0 <= i < |ms[1..]| :: ms[1..][i] == ms[i + 1];
      match ms[0]
      case Happens(e) =>
        RestStays(cfg, s, e);
        RestedLooksWhenDue(cfg, Next(cfg, s, e), lastFull, ms[1..], now);
      case Wakes(t) =>
        RestedWakesUp(cfg, s, t, lastFull);
        RestedLooksWhenDue(cfg, s, lastFull, ms[1..], now);
    }
  }

  /** Everything is complete, the last cancel is confirmed, and the idle close that follows is, too. */
  ghost predicate ClosesIdle(cfg: Config, s: State, id: nat, o: CloseOutcome) {
    && Inv(s) && Enabled(s, Answered(id, true)) && !s.requested
    && (forall other | other in s.tasks.cancels && other != id :: s.tasks.cancels[other].phase.Closing?)
    && var s' := Next(cfg, s, Answered(id, true));
       ClosingNow(s', id) && Confirmed(s', o)
  }

  lemma IdleCloseRests(cfg: Config, s: State, id: nat, o: CloseOutcome)
    requires ClosesIdle(cfg, s, id, o)
    ensures Rested(Next(cfg, Next(cfg, s, Answered(id, true)), CloseEnds(id, o)))
  {
    IdleServiceCloses(cfg, s, id, o);
    var s' := Next(cfg, s, Answered(id, true));
    ClosingCompletesNothing(s', s'.tasks.cancels[id].phase.hadTransport, o);
    CloseKeepsTasks(s', s'.tasks.cancels[id].phase.hadTransport, o);
  }

  /**
   After the confirmed idle close, however long nothing arrives: wake-ups rest until the interval since
   the last full check is over, and the first one after that looks at all the queues again.
   */
  lemma IdleServiceKeepsLooking(cfg: Config, s: State, id: nat, o: CloseOutcome, ms: seq<Moment>, now: real,
                                lastFull: real)
    requires ClosesIdle(cfg, s, id, o)
    requires Possible(cfg, Next(cfg, Next(cfg, s, Answered(id, true)), CloseEnds(id, o)), ms)
    requires OnlyTimePasses(cfg, lastFull, ms)
    ensures var closed := Next(cfg, Next(cfg, s, Answered(id, true)), CloseEnds(id, o));
            var (s', last) := Later(cfg, closed, lastFull, ms);
            && last == lastFull
            && CheckerAction(cfg, s', now, last) == if now < lastFull + cfg.checkInterval then Resting else FullCheck
  {
    IdleCloseRests(cfg, s, id, o);
    RestedLooksWhenDue(cfg, Next(cfg, Next(cfg, s, Answered(id, true)), CloseEnds(id, o)), lastFull, ms, now);
  }

  /** A look that finds no message leaves the service resting as before, without a connection. */
  lemma EmptyLookRestsAgain(cfg: Config, s: State, e: Event)
    requires Rested(s) && Enabled(s, e) && e.Recovers? && e.attempt == NoBacklog(true)
    ensures Rested(Next(cfg, s, e))
  {
    CancellingAsksNothing(s.tasks, |KINDS|);
  }

  // ------------------------------------------------------------ grace timers

  /** The event takes away a timer that has not fired yet. */
  ghost predicate Disarms(s: State, e: Event, k: Kind)
    requires Enabled(s, e)
  {
    e == Arrives(k) || e == TimerFires(k) || e == ShutsDown
    || (e.Recovers? && (s.connection || s.channel ==> Confirmed(s, e.drop)))
  }

  ghost predicate Armed(s: State, k: Kind) { k in s.tasks.timers && s.tasks.timers[k].Sleeping? }

  lemma FinishKeepsArmed(t: Tasks, id: nat, k: Kind)
    requires id in t.cancels
    ensures k in Finish(t, id).timers && Finish(t, id).timers[k].Sleeping? <==> k in t.timers && t.timers[k].Sleeping?
  {}

  ghost predicate TimerStep(cfg: Config, s: State, e: Event, k: Kind)
    requires Enabled(s, e)
  {
    Armed(Next(cfg, s, e), k) <==>
      (e == Completes(k) && cfg.cancelDelay > 0 && k in s.queues) || (Armed(s, k) && !Disarms(s, e, k))
  }

  lemma TaskEndsArm(cfg: Config, s: State, e: Event, k: Kind)
    requires Enabled(s, e) && (e.Answered? || e.Interrupted? || e.CloseEnds?)
    ensures TimerStep(cfg, s, e, k)
  {
    FinishKeepsArmed(s.tasks, e.id, k);
    if e.CloseEnds? { CloseKeepsTasks(s, s.tasks.cancels[e.id].phase.hadTransport, e.outcome); }
  }

  /** Cancelling a kind's timer takes that one away. */
  lemma CancellingDisarms(t: Tasks, kind: Kind, k: Kind)
    ensures k in CancelTimer(t, kind).timers <==> k in t.timers && k != kind
    ensures k != kind && k in t.timers ==> CancelTimer(t, kind).timers[k] == t.timers[k]
  {}

  lemma MarkersArm(cfg: Config, s: State, e: Event, k: Kind)
    requires Enabled(s, e) && (e.Arrives? || e.Completes?)
    ensures TimerStep(cfg, s, e, k)
  {
    CancellingDisarms(s.tasks, e.kind, k);
  }

  lemma FiringDisarms(cfg: Config, s: State, e: Event, k: Kind)
    requires Enabled(s, e) && (e.TimerFires? || e.ShutdownCancels?)
    ensures TimerStep(cfg, s, e, k)
  {}

  lemma OtherEventsArm(cfg: Config, s: State, e: Event, k: Kind)
    requires Enabled(s, e) && (e.Startup? || e.Settled? || e.BrokerActs? || e.ChannelCloses?)
    ensures TimerStep(cfg, s, e, k)
  {}

  lemma StoppingDisarms(cfg: Config, s: State, e: Event, k: Kind)
    requires TasksOk(s.tasks) && e.ShutsDown?
    ensures TimerStep(cfg, s, e, k)
  {
    AllTimersDoom(s.tasks);
  }

  lemma RecoveryDisarms(cfg: Config, s: State, e: Event, k: Kind)
    requires Inv(s) && Enabled(s, e) && e.Recovers?
    ensures TimerStep(cfg, s, e, k)
  {
    RecoveringDisarms(s, e.now, e.drop, e.attempt, e.teardown);
  }

  /** A grace timer is armed exactly by its kind's marker, where a queue and a delay are set, until it is disarmed. */
  lemma TimersAreExact(cfg: Config, s: State, e: Event, k: Kind)
    requires Inv(s) && Enabled(s, e)
    ensures Armed(Next(cfg, s, e), k) <==>
              (e == Completes(k) && cfg.cancelDelay > 0 && k in s.queues) || (Armed(s, k) && !Disarms(s, e, k))
  {
    assert TimerStep(cfg, s, e, k) by {
      if e.Recovers? {
        RecoveryDisarms(cfg, s, e, k);
      } else if e.ShutsDown? {
        StoppingDisarms(cfg, s, e, k);
      } else if e.Answered? || e.Interrupted? || e.CloseEnds? {
        TaskEndsArm(cfg, s, e, k);
      } else if e.Arrives? || e.Completes? {
        MarkersArm(cfg, s, e, k);
      } else if e.TimerFires? || e.ShutdownCancels? {
        FiringDisarms(cfg, s, e, k);
      } else {
        OtherEventsArm(cfg, s, e, k);
      }
    }
  }

  lemma RecoveringDisarms(s: State, now: real, drop: CloseOutcome, attempt: Attempt, teardown: CloseOutcome)
    requires Inv(s) && AttemptOk(attempt)
    ensures var s' := Recover(s, now, drop, attempt, teardown);
            if s.connection || s.channel ==> Confirmed(s, drop) then s'.tasks.timers == map[]
            else s'.tasks == s.tasks
  {
    CloseMeans(s, true, drop);
    var dropped := DropTransport(s, drop);
    AllTimersDoom(dropped.tasks);
    if !dropped.connection && !dropped.channel { AttemptKeepsTasks(Cleared(dropped), now, attempt, teardown); }
  }

  lemma AttemptKeepsTasks(s: State, now: real, attempt: Attempt, teardown: CloseOutcome)
    requires AttemptOk(attempt)
    ensures Attempted(s, now, attempt, teardown).tasks == s.tasks
  {}

  /** A new task has begun that asks the broker about the kind's current registration. */
  ghost predicate BegunFor(s: State, s': State, k: Kind, timed: bool, id: nat) {
    && id !in s.tasks.cancels && id in s'.tasks.cancels && k in s.subs.tags && k in s.subs.epochs
    && s'.tasks.cancels[id] == Cancel(k, Asking(s.subs.tags[k], s.subs.epochs[k]), timed, false)
  }

  /** A timer that fires for a subscribed kind, and shutdown, for each queue, begin a cancellation. */
  lemma CancelsBegin(cfg: Config, s: State, e: Event, k: Kind)
    requires Inv(s) && Enabled(s, e)
    requires (e == TimerFires(k) && k in s.subs.tags) || (e == ShutdownCancels(k) && k in s.queues)
    ensures BegunFor(s, Next(cfg, s, e), k, e.TimerFires?, s.tasks.begun)
    ensures Next(cfg, s, e).subs == s.subs && Next(cfg, s, e).requested == s.requested
  {}

  /** A failed cancel or a starved kind always gets a recovery at the next wake-up. */
  lemma NothingIsOverlooked(cfg: Config, s: State, now: real, lastFull: real, k: Kind)
    requires Inv(s) && (TrafficSeen(s.watch) || GraceExpired(cfg, s.watch, now))
    requires s.tasks.cancels == map[]
    requires k !in s.watch.completed && k !in s.subs.live
    ensures CheckerAction(cfg, s, now, lastFull) == Recovering
  {
    AlarmsHave(cfg, s.watch, s.subs.tags, now, k);
    assert k in s.subs.tags && !s.requested ==> Asked(s.subs, s.tasks, k);
  }

  // ------------------------------------------------------------ an interrupted close

  /** The next wake-up does more than wait. */
  ghost predicate AlarmCanSound(cfg: Config, w: Watch, now: real) { TrafficSeen(w) || GraceExpired(cfg, w, now) }

  /**
   An interrupted close asks for no recovery of its own. With no consumer left, the next wake-up recovers
   exactly when a request stands anyway, or some kind is incomplete and an alarm can sound; otherwise,
   while a connection is held, it rests.
   */
  lemma WakeUpAfterInterruptedClose(cfg: Config, s: State, id: nat, now: real, lastFull: real)
    requires Inv(s) && Enabled(s, Interrupted(id)) && s.tasks.cancels[id].phase.Closing? && s.subs.tags == map[]
    ensures var s' := Next(cfg, s, Interrupted(id));
            && s'.requested == s.requested && s'.connection == s.connection && s'.subs == s.subs
            && (CheckerAction(cfg, s', now, lastFull) == Recovering <==>
                  s.requested || (s.watch.completed != EVERY_KIND && AlarmCanSound(cfg, s.watch, now)))
            && (s.connection && CheckerAction(cfg, s', now, lastFull) != Recovering ==>
                  CheckerAction(cfg, s', now, lastFull) == Resting)
  {
    var s' := Next(cfg, s, Interrupted(id));
    var alarms := Alarms(cfg, s'.watch, s'.subs.tags, now);
    forall k ensures k in alarms <==> AlarmCanSound(cfg, s.watch, now) && k !in s.watch.completed {
      AlarmsHave(cfg, s'.watch, s'.subs.tags, now, k);
    }
    SomeMember(alarms);
    IncompleteKind(s.watch.completed);
  }

  lemma AllKinds()
    ensures forall k :: k in EVERY_KIND
  {
    forall k: Kind ensures k in EVERY_KIND {
      match k case Artists => case Labels => case ReleaseGroups => case Releases =>
    }
  }

  lemma IncompleteKind(completed: set<Kind>)
    ensures completed != EVERY_KIND <==> exists k :: k !in completed
  {
    AllKinds();
    assert (forall k :: k in completed) ==> completed == EVERY_KIND;
  }

  /** When a late record is what interrupts the close, its kind is left incomplete, so the alarm lists it. */
  lemma InterruptedCloseIsNoticed(cfg: Config, s: State, id: nat, now: real)
    requires Inv(s) && ClosingNow(s, id) && !s.stopping
    ensures var k := s.tasks.cancels[id].kind;
            var doomed := Next(cfg, s, Arrives(k));
            && Enabled(doomed, Interrupted(id))
            && var s' := Next(cfg, doomed, Interrupted(id));
            && s'.requested == s.requested && s'.connection == s.connection
            && (k in Alarms(cfg, s'.watch, s'.subs.tags, now) <==> AlarmCanSound(cfg, s'.watch, now))
  {
    var k := s.tasks.cancels[id].kind;
    assert Current(s.subs, s.tasks.cancels[id]);
    var s' := Next(cfg, Next(cfg, s, Arrives(k)), Interrupted(id));
    AlarmsHave(cfg, s'.watch, s'.subs.tags, now, k);
  }

  /** Nothing is subscribed, everything reads complete, the connection is held and nobody has asked for a recovery. */
  ghost predicate Stalled(s: State) {
    && s.subs.tags == map[] && s.subs.live == {} && s.watch.completed == EVERY_KIND
    && s.connection && !s.requested && s.tasks.cancels == map[]
  }

  lemma RunOfOne(cfg: Config, s: State, e: Event)
    requires Enabled(s, e)
    ensures Allowed(cfg, s, [e]) && After(cfg, s, [e]) == Next(cfg, s, e)
  {
    assert [e][1..] == [];
  }

  lemma RunOfMore(cfg: Config, s: State, e: Event, es: seq<Event>)
    requires Enabled(s, e) && Allowed(cfg, Next(cfg, s, e), es)
    ensures Allowed(cfg, s, [e] + es) && After(cfg, s, [e] + es) == After(cfg, Next(cfg, s, e), es)
  {
    assert ([e] + es)[1..] == es;
  }

  /** A second marker re-arms the timer and dooms the closing task; ending, that task leaves nothing behind. */
  lemma MarkerDooms(cfg: Config, s: State, id: nat)
    requires TasksOk(s.tasks) && ClosingNow(s, id) && !s.stopping && s.tasks.cancels[id].timed
             && s.tasks.cancels.Keys == {id}
    requires cfg.cancelDelay > 0 && s.tasks.cancels[id].kind in s.queues
    ensures var doomed := Next(cfg, s, Completes(s.tasks.cancels[id].kind));
            && Enabled(doomed, Interrupted(id))
            && var after := Next(cfg, doomed, Interrupted(id));
            && after.tasks.cancels == map[]
            && after == s.(tasks := after.tasks,
                           watch := s.watch.(completed := s.watch.completed + {s.tasks.cancels[id].kind}))
  {
    var k := s.tasks.cancels[id].kind;
    assert k in s.tasks.timers && s.tasks.timers[k] == Running(id);
    var doomed := Next(cfg, s, Completes(k));
    assert doomed.tasks.cancels == s.tasks.cancels[id := s.tasks.cancels[id].(doomed := true)];
    assert Next(cfg, doomed, Interrupted(id)).tasks.cancels.Keys == {};
  }

  /** An idle close is the only task under way, and nothing is amiss. */
  ghost predicate LastClosing(s: State, id: nat) {
    && Inv(s) && ClosingNow(s, id) && !s.stopping && s.connection && !s.requested && s.queues == EVERY_KIND
    && s.watch.completed == EVERY_KIND && s.subs.live == {} && s.tasks.cancels.Keys == {id}
  }

  /** When a second marker is what interrupts the close, the service is left stalled. */
  lemma MarkerStalls(cfg: Config, s: State, id: nat)
    requires LastClosing(s, id) && cfg.cancelDelay > 0
    ensures var es := [Completes(s.tasks.cancels[id].kind), Interrupted(id)];
            Allowed(cfg, s, es) && Stalled(After(cfg, s, es))
  {
    var k := s.tasks.cancels[id].kind;
    assert Current(s.subs, s.tasks.cancels[id]);
    var tail: seq<Event> := [Interrupted(id)];
    assert [Completes(k)] + tail == [Completes(k), Interrupted(id)];
    AllKinds();
    MarkerDooms(cfg, s, id);
    RunOfOne(cfg, Next(cfg, s, Completes(k)), Interrupted(id));
    RunOfMore(cfg, s, Completes(k), tail);
  }

  /** A stalled service's checker rests at every wake-up, at whatever time. */
  lemma StalledRests(cfg: Config, s: State, now: real, lastFull: real)
    requires Stalled(s)
    ensures CheckerAction(cfg, s, now, lastFull) == Resting
  {
    var alarms := Alarms(cfg, s.watch, s.subs.tags, now);
    AllKinds();
    forall k ensures k !in alarms { AlarmsHave(cfg, s.watch, s.subs.tags, now, k); }
    SomeMember(alarms);
  }

  /**
   And stays stalled: no timer, marker or shutdown changes it. Only a record delivered before it stalled
   could, and a recovery, which its checker never starts.
   */
  lemma {:induction false} StallIsPermanent(cfg: Config, s: State, es: seq<Event>)
    requires Stalled(s) && Allowed(cfg, s, es) && forall i | 0 <= i < |es| :: !es[i].Arrives? && !es[i].Recovers?
    ensures Stalled(After(cfg, s, es))
    decreases |es|
  {
    if es != [] {
      StallStep(cfg, s, es[0]);
      StallIsPermanent(cfg, Next(cfg, s, es[0]), es[1..]);
    }
  }

  lemma StallStep(cfg: Config, s: State, e: Event)
    requires Stalled(s) && Enabled(s, e) && !e.Arrives? && !e.Recovers?
    ensures Stalled(Next(cfg, s, e))
  {
    AllKinds();
    NothingToDoom(s.tasks, |KINDS|);
  }

  lemma {:induction false} NothingToDoom(t: Tasks, n: nat)
    requires t.cancels == map[] && n <= |KINDS|
    ensures CancelTimers(t, n).cancels == map[]
  {
    if n > 0 { NothingToDoom(t, n - 1); }
  }

  // ------------------------------------------------------------ a run into the stall

  lemma {:induction false} RunsJoin(cfg: Config, s: State, a: seq<Event>, b: seq<Event>)
    requires Allowed(cfg, s, a) && Allowed(cfg, After(cfg, s, a), b)
    ensures Allowed(cfg, s, a + b) && After(cfg, s, a + b) == After(cfg, After(cfg, s, a), b)
    decreases |a|
  {
    if a == [] {
      assert a + b == b;
    } else {
      RunsJoin(cfg, Next(cfg, s, a[0]), a[1..], b);
      assert (a + b)[1..] == a[1..] + b;
    }
  }

  /** Exactly the kinds left are consuming; the rest are complete and cancelled, and nothing is under way. */
  ghost predicate Serving(s: State, left: set<Kind>) {
    && Inv(s) && s.connection && !s.requested && !s.stopping && s.queues == EVERY_KIND
    && s.subs.tags.Keys == left && s.subs.live == left && s.watch.completed == EVERY_KIND - left
    && s.tasks.timers == map[] && s.tasks.cancels == map[]
  }

  /** A kind's marker, its timer, and the broker's confirmation. */
  function WindDown(s: State, k: Kind): seq<Event> {
    [Completes(k), TimerFires(k), Answered(s.tasks.begun, true)]
  }

  lemma WindingDown(cfg: Config, s: State, left: set<Kind>, k: Kind)
    requires Serving(s, left) && k in left && left != {k} && cfg.cancelDelay > 0
    ensures Allowed(cfg, s, WindDown(s, k)) && Serving(After(cfg, s, WindDown(s, k)), left - {k})
  {
    AllKinds();
    WindDownRun(cfg, s, k);
    RunKeepsInv(cfg, s, WindDown(s, k));
    var s1 := Next(cfg, s, Completes(k));
    Marking(cfg, s, k);
    Firing(cfg, s1, k, s.tasks.begun);
    AnsweringOne(cfg, Next(cfg, s1, TimerFires(k)), left, k, s.tasks.begun);
    assert EVERY_KIND - left + {k} == EVERY_KIND - (left - {k});
  }

  lemma WindingDownLast(cfg: Config, s: State, k: Kind)
    requires Serving(s, {k}) && cfg.cancelDelay > 0
    ensures Allowed(cfg, s, WindDown(s, k)) && LastClosing(After(cfg, s, WindDown(s, k)), s.tasks.begun)
    ensures After(cfg, s, WindDown(s, k)).tasks.cancels[s.tasks.begun].kind == k
  {
    AllKinds();
    assert EVERY_KIND - {k} + {k} == EVERY_KIND;
    LastState(cfg, s, k);
    RunKeepsInv(cfg, s, WindDown(s, k));
  }

  lemma LastState(cfg: Config, s: State, k: Kind)
    requires !s.stopping && cfg.cancelDelay > 0 && k in s.queues && s.tasks.timers == map[] && s.tasks.cancels == map[]
    requires s.subs.tags.Keys == {k} == s.subs.epochs.Keys == s.subs.live && s.watch.completed + {k} == EVERY_KIND
    ensures Allowed(cfg, s, WindDown(s, k))
    ensures var after := After(cfg, s, WindDown(s, k));
            && after == s.(subs := after.subs, tasks := after.tasks, watch := s.watch.(completed := EVERY_KIND))
            && after.subs.live == {}
            && after.tasks.cancels == map[s.tasks.begun := Cancel(k, Closing(s.connection || s.channel), true, false)]
  {
    WindDownRun(cfg, s, k);
    var s1 := Next(cfg, s, Completes(k));
    Marking(cfg, s, k);
    Firing(cfg, s1, k, s.tasks.begun);
    AnsweringLast(cfg, Next(cfg, s1, TimerFires(k)), k, s.tasks.begun);
  }

  lemma WindDownRun(cfg: Config, s: State, k: Kind)
    requires !s.stopping && cfg.cancelDelay > 0 && k in s.queues && s.tasks.timers == map[] && s.tasks.cancels == map[]
    requires k in s.subs.tags && k in s.subs.epochs
    ensures Enabled(s, Completes(k))
    ensures var s1 := Next(cfg, s, Completes(k));
            && Enabled(s1, TimerFires(k))
            && var s2 := Next(cfg, s1, TimerFires(k));
            && Enabled(s2, Answered(s.tasks.begun, true))
            && Allowed(cfg, s, WindDown(s, k))
                && After(cfg, s, WindDown(s, k)) == Next(cfg, s2, Answered(s.tasks.begun, true))
  {
    var id := s.tasks.begun;
    Marking(cfg, s, k);
    var s1 := Next(cfg, s, Completes(k));
    Firing(cfg, s1, k, id);
    RunOfOne(cfg, Next(cfg, s1, TimerFires(k)), Answered(id, true));
    RunOfMore(cfg, s1, TimerFires(k), [Answered(id, true)]);
    RunOfMore(cfg, s, Completes(k), [TimerFires(k)] + [Answered(id, true)]);
    assert [Completes(k)] + ([TimerFires(k)] + [Answered(id, true)]) == WindDown(s, k);
  }

  lemma Marking(cfg: Config, s: State, k: Kind)
    requires !s.stopping && cfg.cancelDelay > 0 && k in s.queues && s.tasks.timers == map[] && s.tasks.cancels == map[]
    ensures Next(cfg, s, Completes(k)) ==
              s.(watch := s.watch.(completed := s.watch.completed + {k}),
                  tasks := Tasks(map[k := Sleeping], map[], s.tasks.begun))
  {}

  lemma Firing(cfg: Config, s: State, k: Kind, id: nat)
    requires s.tasks == Tasks(map[k := Sleeping], map[], id) && k in s.subs.tags && k in s.subs.epochs
    ensures Next(cfg, s, TimerFires(k)) ==
              s.(tasks := Tasks(map[k := Running(id)],
                                map[id := Cancel(k, Asking(s.subs.tags[k], s.subs.epochs[k]), true, false)], id + 1))
  {}

  lemma AnsweringOne(cfg: Config, s: State, left: set<Kind>, k: Kind, id: nat)
    requires k in left && left != {k} && s.subs.tags.Keys == left == s.subs.epochs.Keys == s.subs.live
    requires s.tasks == Tasks(map[k := Running(id)],
                              map[id := Cancel(k, Asking(s.subs.tags[k], s.subs.epochs[k]), true, false)], id + 1)
    ensures var after := Next(cfg, s, Answered(id, true));
            && after == s.(subs := after.subs, tasks := Tasks(map[], map[], id + 1))
            && after.subs.tags.Keys == left - {k} == after.subs.live
  {
    AnsweringSubs(s.subs, s.tasks.cancels[id], left, k);
    assert Finish(s.tasks, id) == Tasks(map[], map[], id + 1);
  }

  lemma AnsweringLast(cfg: Config, s: State, k: Kind, id: nat)
    requires s.subs.tags.Keys == {k} == s.subs.epochs.Keys == s.subs.live && s.watch.completed == EVERY_KIND
    requires s.tasks == Tasks(map[k := Running(id)],
                              map[id := Cancel(k, Asking(s.subs.tags[k], s.subs.epochs[k]), true, false)], id + 1)
    ensures var after := Next(cfg, s, Answered(id, true));
            && after == s.(subs := after.subs, tasks := after.tasks)
            && after.subs.live == {} && after.tasks.cancels
                == map[id := Cancel(k, Closing(s.connection || s.channel), true, false)]
  {
    AnsweringSubs(s.subs, s.tasks.cancels[id], {k}, k);
  }

  lemma AnsweringSubs(u: Subs, c: Cancel, left: set<Kind>, k: Kind)
    requires k in left && u.tags.Keys == left == u.epochs.Keys == u.live
    requires c == Cancel(k, Asking(u.tags[k], u.epochs[k]), true, false)
    ensures var after := Answer(u, c);
            && after.tags.Keys == left - {k} == after.live
            && (after.tags == map[] <==> left == {k})
  {
    var after := Answer(u, c);
    assert after.tags.Keys == left - {k};
    assert after.tags == map[] <==> after.tags.Keys == {};
    assert left - {k} == {} <==> left == {k};
  }

  /** The kinds from the `i`th on. */
  ghost function From(i: nat): set<Kind> { set k | k in EVERY_KIND && Rank(k) >= i }

  /** A run without a recovery that leaves the kinds from the `i`th on consuming. */
  ghost predicate ServedFrom(cfg: Config, es: seq<Event>, i: nat) {
    && Allowed(cfg, Initial(), es) && Serving(After(cfg, Initial(), es), From(i))
    && forall j | 0 <= j < |es| :: !es[j].Recovers?
  }

  lemma FromNext(i: nat)
    requires i + 1 < |KINDS|
    ensures KINDS[i] in From(i) && From(i) != {KINDS[i]} && From(i) - {KINDS[i]} == From(i + 1)
  {
    AllKinds();
    KindAt(i);
    KindAt(i + 1);
    assert KINDS[i + 1] in From(i) && KINDS[i + 1] != KINDS[i];
  }

  lemma WindOneMore(cfg: Config, es: seq<Event>, i: nat) returns (more: seq<Event>)
    requires cfg.cancelDelay > 0 && i + 1 < |KINDS| && ServedFrom(cfg, es, i)
    ensures ServedFrom(cfg, more, i + 1)
  {
    var s, k := After(cfg, Initial(), es), KINDS[i];
    FromNext(i);
    WindingDown(cfg, s, From(i), k);
    RunsJoin(cfg, Initial(), es, WindDown(s, k));
    more := es + WindDown(s, k);
  }

  lemma StallFrom(cfg: Config, s: State, k: Kind) returns (es: seq<Event>)
    requires cfg.cancelDelay > 0 && Serving(s, {k})
    ensures Allowed(cfg, s, es) && Stalled(After(cfg, s, es))
    ensures forall j | 0 <= j < |es| :: !es[j].Recovers?
  {
    WindingDownLast(cfg, s, k);
    var closing := After(cfg, s, WindDown(s, k));
    MarkerStalls(cfg, closing, s.tasks.begun);
    RunsJoin(cfg, s, WindDown(s, k), [Completes(k), Interrupted(s.tasks.begun)]);
    es := WindDown(s, k) + [Completes(k), Interrupted(s.tasks.begun)];
  }

  lemma LastWindsDown(cfg: Config, es: seq<Event>) returns (all: seq<Event>)
    requires cfg.cancelDelay > 0 && ServedFrom(cfg, es, 3)
    ensures Allowed(cfg, Initial(), all) && Stalled(After(cfg, Initial(), all))
    ensures forall j | 0 <= j < |all| :: !all[j].Recovers?
  {
    AllKinds();
    assert From(3) == {Releases};
    var more := StallFrom(cfg, After(cfg, Initial(), es), Releases);
    RunsJoin(cfg, Initial(), es, more);
    all := es + more;
  }

  lemma StartRun(cfg: Config, names: Kind -> string) returns (es: seq<Event>)
    ensures ServedFrom(cfg, es, 0)
  {
    RunOfOne(cfg, Initial(), Event.Startup(1.0, names));
    StartupServesAll(cfg, names);
    es := [Event.Startup(1.0, names)];
  }

  /**
   A run from the start: everything starts, finishes and is cancelled, and a second marker comes during
   the idle close.
   */
  lemma ServiceCanStall(cfg: Config, names: Kind -> string) returns (es: seq<Event>)
    requires cfg.cancelDelay > 0
    ensures Allowed(cfg, Initial(), es) && Stalled(After(cfg, Initial(), es))
    ensures forall i | 0 <= i < |es| :: !es[i].Recovers?
  {
    es := StartRun(cfg, names);
    es := WindOneMore(cfg, es, 0);
    es := WindOneMore(cfg, es, 1);
    es := WindOneMore(cfg, es, 2);
    es := LastWindsDown(cfg, es);
  }

  lemma AllRegistered(u: Subs, names: Kind -> string, n: nat)
    requires SubsOk(u) && u.tags == map[] && u.live == {} && n == |KINDS|
    ensures var after := RegisterMissing(u, n, names);
            after.tags.Keys == From(0) == after.live
  {
    AllKinds();
    RankIsBelow(n);
    RegisterMissingMeans(u, n, names);
    LiveAreTagged(u, n, names);
  }

  lemma StartupServesAll(cfg: Config, names: Kind -> string)
    ensures Serving(Next(cfg, Initial(), Event.Startup(1.0, names)), From(0))
  {
    StartupKeepsInv(cfg, 1.0, names);
    AllRegistered(Initial().subs.(history := map[]), names, |KINDS|);
    assert EVERY_KIND - From(0) == {} by { AllKinds(); }
  }

  /** Startup subscribes every kind under the name given for it, and starts the watch. */
  lemma StartupWatches(cfg: Config, now: real, names: Kind -> string)
    ensures var s := Next(cfg, Initial(), Event.Startup(now, names));
            && s.connection && s.channel && s.queues == EVERY_KIND && s.watch.startedAt == now
            && s.watch.completed == {} && !s.requested
            && (forall k: Kind :: k in s.subs.tags && s.subs.tags[k] == names(k) && k in s.subs.live)
  {
    var u := Initial().subs.(history := map[]);
    RankIsBelow(|KINDS|);
    RegisterMissingMeans(u, |KINDS|, names);
    forall k { NamedOnRegistering(u, |KINDS|, names, k); }
  }

  lemma {:induction false} NamedOnRegistering(u: Subs, n: nat, names: Kind -> string, k: Kind)
    requires n <= |KINDS| && u.tags == map[]
    ensures k in RegisterMissing(u, n, names).tags ==> RegisterMissing(u, n, names).tags[k] == names(k)
  {
    if n > 0 { NamedOnRegistering(u, n - 1, names, k); }
  }

  lemma {:induction false} LiveAreTagged(u: Subs, n: nat, names: Kind -> string)
    requires n <= |KINDS| && u.live == u.tags.Keys
    ensures RegisterMissing(u, n, names).live == RegisterMissing(u, n, names).tags.Keys
  {
    if n > 0 { LiveAreTagged(u, n - 1, names); }
  }

  /** The same registration's tag string comes back after a recovery: a late task of the old one cannot drop it. */
  lemma OldTasksCannotDropNewTags(cfg: Config, s: State, e: Event)
    requires Inv(s) && Enabled(s, e) && e.Recovers? && !(Next(cfg, s, e).requested)
    ensures forall id | id in Next(cfg, s, e).tasks.cancels :: !Enabled(Next(cfg, s, e), Answered(id, true))
  {
    RequestsAreExact(cfg, s, e);
    CloseMeans(s, true, e.drop);
    DroppedIsClean(s, e.drop);
  }
}
