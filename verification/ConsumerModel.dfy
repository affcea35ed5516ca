/**
 The broker consumers' life: registration, cancellation after a grace period, closing an idle
 connection, recovery, completion markers and starvation alarms, one event at a time.
 */
module ConsumerModel {
  import opened Identifiers

  datatype Kind = Artists | Labels | ReleaseGroups | Releases

  const KINDS := [Artists, Labels, ReleaseGroups, Releases]

  const EVERY_KIND: set<Kind> := {Artists, Labels, ReleaseGroups, Releases}

  datatype Config = Config(cancelDelay: int, idleTimeout: real, checkInterval: real)

  /**
   The consumers on record. `live`, `epochs` and `registrations` are history: which subscriptions the
   broker really holds, and which registration each tag stands for (tag strings repeat).
   */
  datatype Subs = Subs(
    tags: map<Kind, string>,
    history: map<Kind, string>,
    gauge: int,
    live: set<Kind>,
    epochs: map<Kind, nat>,
    registrations: nat)

  /** A cancellation task past its grace period: asking the broker, or closing the connection. */
  datatype Phase = Asking(tag: string, epoch: nat) | Closing(hadTransport: bool)

  /** `timed` tasks come from a grace timer, the others from shutdown; a doomed one has been cancelled itself. */
  datatype Cancel = Cancel(kind: Kind, phase: Phase, timed: bool, doomed: bool)

  datatype Timer = Sleeping | Running(id: nat)

  datatype Tasks = Tasks(timers: map<Kind, Timer>, cancels: map<nat, Cancel>, begun: nat)

  datatype Watch = Watch(completed: set<Kind>, startedAt: real, lastMessage: map<Kind, real>, counts: map<Kind, nat>)

  datatype State = State(
    subs: Subs,
    tasks: Tasks,
    watch: Watch,
    queues: set<Kind>,
    requested: bool,
    connection: bool,
    channel: bool,
    stopping: bool)

  function Initial(): State {
    State(Subs(map[], map[], 0, {}, map[], 0),
          Tasks(map[], map[], 0),
          Watch({}, 0.0, map k: Kind | k in EVERY_KIND :: 0.0, map k: Kind | k in EVERY_KIND :: 0),
          {}, false, false, false, false)
  }

  datatype Rpc = Done | Raises | TimesOut

  datatype CloseOutcome = CloseOutcome(channel: Rpc, connection: Rpc)

  /** What a recovery finds once no transport is left; `broken` counts the consumers started before it raised. */
  datatype Attempt =
    | NoConnection
    | DeclareFails
    | NoBacklog(closes: bool)
    | Backlog(kinds: set<Kind>, names: Kind -> string, broken: Option<nat>)

  datatype Event =
    | Startup(now: real, names: Kind -> string)
    | Arrives(kind: Kind)
    | Settled(kind: Kind, now: real)
    | Completes(kind: Kind)
    | TimerFires(kind: Kind)
    | BrokerActs(id: nat)
    | Answered(id: nat, confirmed: bool)
    | Interrupted(id: nat)
    | ChannelCloses(id: nat)
    | CloseEnds(id: nat, outcome: CloseOutcome)
    | Recovers(now: real, drop: CloseOutcome, attempt: Attempt, teardown: CloseOutcome)
    | ShutsDown
    | ShutdownCancels(kind: Kind)

  // ------------------------------------------------------------ registration

  function Register(u: Subs, kind: Kind, tag: string): Subs {
    u.(tags := u.tags[kind := tag], history := u.history[kind := tag], gauge := u.gauge + 1,
       live := u.live + {kind}, epochs := u.epochs[kind := u.registrations], registrations := u.registrations + 1)
  }

  function Deregister(u: Subs, kind: Kind): Subs
    requires kind in u.tags
  {
    u.(tags := u.tags - {kind}, epochs := u.epochs - {kind}, gauge := u.gauge - 1)
  }

  /** The transport is confirmed closed: every subscription has ended. */
  function Ended(u: Subs): Subs {
    u.(gauge := u.gauge - |u.tags|, tags := map[], epochs := map[], history := map[], live := {})
  }

  /** The broker drops the subscription the task asked about, if it is still the current one. */
  function Dropped(u: Subs, c: Cancel): Subs {
    if c.phase.Asking? && c.kind in u.epochs
        && u.epochs[c.kind] == c.phase.epoch then u.(live := u.live - {c.kind}) else u
  }

  /** The reply has come: drop the tag if it is still this one. */
  function Answer(u: Subs, c: Cancel): Subs
    requires c.phase.Asking?
  {
    var dropped := Dropped(u, c);
    if c.kind in u.tags && u.tags[c.kind] == c.phase.tag then Deregister(dropped, c.kind) else dropped
  }

  // ------------------------------------------------------------ grace timers

  /** A cancelled task: one still asleep vanishes, one already asking or closing is interrupted later. */
  function CancelTimer(t: Tasks, kind: Kind): Tasks {
    if kind !in t.timers then t
    else if t.timers[kind].Running? && t.timers[kind].id in t.cancels then
      var id := t.timers[kind].id;
      t.(timers := t.timers - {kind}, cancels := t.cancels[id := t.cancels[id].(doomed := true)])
    else t.(timers := t.timers - {kind})
  }

  function CancelTimers(t: Tasks, k: nat): Tasks
    requires k <= |KINDS|
  {
    if k == 0 then t else CancelTimer(CancelTimers(t, k - 1), KINDS[k - 1])
  }

  /** The task is over: its timer entry goes too, if it is still this task's. */
  function Finish(t: Tasks, id: nat): Tasks
    requires id in t.cancels
  {
    var kind := t.cancels[id].kind;
    t.(cancels := t.cancels - {id}, timers := if kind in t.timers
        && t.timers[kind] == Running(id) then t.timers - {kind} else t.timers)
  }

  function Begin(t: Tasks, kind: Kind, tag: string, epoch: nat, timed: bool): Tasks {
    t.(cancels := t.cancels[t.begun := Cancel(kind, Asking(tag, epoch), timed, false)],
       timers := if timed then t.timers[kind := Running(t.begun)] else t.timers,
       begun := t.begun + 1)
  }

  // ------------------------------------------------------------ closing and recovering

  /** The service is idle: nothing is subscribed and everything is complete. */
  predicate Idle(u: Subs, completed: set<Kind>) { u.tags == map[] && completed == EVERY_KIND }

  function Confirm(s: State, id: nat): State
    requires id in s.tasks.cancels && s.tasks.cancels[id].phase.Asking?
  {
    var c := s.tasks.cancels[id];
    var u := Answer(s.subs, c);
    s.(subs := u,
       tasks := if c.timed && Idle(u, s.watch.completed)
                then s.tasks.(cancels := s.tasks.cancels[id := c.(phase := Closing(s.connection || s.channel))])
                else Finish(s.tasks, id))
  }

  /** Closing ends every subscription only when the connection, or a lone channel, is confirmed closed. */
  function CloseFrom(s: State, had: bool, o: CloseOutcome): State {
    if s.channel && o.channel == TimesOut then s.(requested := true)
    else
      var channel := s.channel && o.channel != Done;
      var u := if s.channel && o.channel == Done then s.subs.(live := {}) else s.subs;
      if s.connection && o.connection != Done then s.(channel := channel, subs := u, requested := true)
      else if !s.connection && channel then s.(requested := true)
      else if !had then s.(connection := false, channel := false, subs := u)
      else s.(connection := false, channel := false, subs := Ended(s.subs), watch := s.watch.(startedAt := 0.0))
  }

  function Close(s: State, o: CloseOutcome): State { CloseFrom(s, s.connection || s.channel, o) }

  /** The first `k` kinds that lack a consumer get one. */
  function RegisterMissing(u: Subs, k: nat, names: Kind -> string): Subs
    requires k <= |KINDS|
  {
    if k == 0 then u
    else
      var before, kind := RegisterMissing(u, k - 1, names), KINDS[k - 1];
      if kind in before.tags then before else Register(before, kind, names(kind))
  }

  /** Each kind so registered is marked as just heard from, and as incomplete if it has a backlog. */
  function WatchMissing(w: Watch, u: Subs, k: nat, backlog: set<Kind>, now: real): Watch
    requires k <= |KINDS|
  {
    if k == 0 then w
    else
      var before, kind := WatchMissing(w, u, k - 1, backlog, now), KINDS[k - 1];
      if kind in u.tags then before
      else before.(completed := before.completed - (if kind in backlog then {kind} else {}),
                   lastMessage := before.lastMessage[kind := now])
  }

  /** An error once a temporary transport exists: keep it as the active one and try to close it. */
  function Abandon(s: State, teardown: CloseOutcome): State {
    Close(s.(requested := true, connection := true, channel := true, queues := {}), teardown)
  }

  function Resubscribed(s: State, now: real, kinds: set<Kind>, names: Kind -> string, k: nat): State
    requires k <= |KINDS|
  {
    var u := s.subs.(history := map[]);
    s.(connection := true, channel := true, queues := EVERY_KIND,
       subs := RegisterMissing(u, k, names),
       watch := WatchMissing(s.watch.(startedAt := now), u, k, kinds, now))
  }

  predicate AttemptOk(attempt: Attempt) {
    attempt.Backlog? ==> attempt.kinds != {} && (attempt.broken.Some? ==> attempt.broken.value <= |KINDS|)
  }

  function Attempted(s: State, now: real, attempt: Attempt, teardown: CloseOutcome): State
    requires AttemptOk(attempt)
  {
    match attempt
    case NoConnection => s.(requested := true)
    case DeclareFails => Abandon(s, teardown)
    case NoBacklog(closes) => if closes then s else Abandon(s, teardown)
    case Backlog(kinds, names, broken) =>
      if broken.Some? then Abandon(Resubscribed(s, now, kinds, names, broken.value), teardown)
      else Resubscribed(s, now, kinds, names, |KINDS|)
  }

  function DropTransport(s: State, drop: CloseOutcome): State {
    if s.connection || s.channel then Close(s, drop) else s
  }

  /** Drop what transport there is; only when none is left forget the request and try again from scratch. */
  function Recover(s: State, now: real, drop: CloseOutcome, attempt: Attempt, teardown: CloseOutcome): State
    requires AttemptOk(attempt)
  {
    var dropped := DropTransport(s, drop);
    if dropped.connection || dropped.channel then dropped
    else Attempted(dropped.(tasks := CancelTimers(dropped.tasks, |KINDS|), requested := false), now, attempt, teardown)
  }

  // ------------------------------------------------------------ one event

  predicate InFlight(s: State, id: nat) { id in s.tasks.cancels && s.tasks.cancels[id].phase.Asking? }

  predicate ClosingNow(s: State, id: nat) {
    id in s.tasks.cancels && s.tasks.cancels[id].phase.Closing? && !s.tasks.cancels[id].doomed
  }

  ghost predicate Enabled(s: State, e: Event) {
    match e
    case Startup(_, _) => s == Initial()
    case Arrives(_) => !s.stopping
    case Settled(kind, now) => kind in s.watch.counts && now > 0.0
    case Completes(_) => !s.stopping
    case TimerFires(kind) => kind in s.tasks.timers && s.tasks.timers[kind].Sleeping?
    case BrokerActs(id) => InFlight(s, id)
    case Answered(id, _) => InFlight(s, id) && !s.tasks.cancels[id].doomed
    case Interrupted(id) => id in s.tasks.cancels && s.tasks.cancels[id].doomed
    case ChannelCloses(id) => ClosingNow(s, id) && s.channel
    case CloseEnds(id, _) => ClosingNow(s, id)
    case Recovers(now, _, attempt, _) => !s.stopping && now > 0.0 && AttemptOk(attempt)
    case ShutsDown => true
    case ShutdownCancels(kind) => s.stopping && kind in s.subs.tags && kind in s.subs.epochs
  }

  ghost function Next(cfg: Config, s: State, e: Event): State
    requires Enabled(s, e)
  {
    match e
    case Startup(now, names) =>
      s.(connection := true, channel := true, queues := EVERY_KIND, watch := s.watch.(startedAt := now),
         subs := RegisterMissing(s.subs.(history := map[]), |KINDS|, names))
    case Arrives(kind) => s.(watch := s.watch.(completed := s.watch.completed - {kind}),
                             tasks := CancelTimer(s.tasks, kind))
    case Settled(kind, now) =>
      s.(watch := s.watch.(counts := s.watch.counts[kind := s.watch.counts[kind] + 1],
                           lastMessage := s.watch.lastMessage[kind := now]))
    case Completes(kind) =>
      var tasks := CancelTimer(s.tasks, kind);
      s.(watch := s.watch.(completed := s.watch.completed + {kind}),
         tasks := if cfg.cancelDelay > 0 && kind in s.queues then tasks.(timers := tasks.timers[kind := Sleeping])
             else s.tasks)
    case TimerFires(kind) =>
      s.(tasks := if kind in s.subs.tags && kind in s.subs.epochs
                  then Begin(s.tasks, kind, s.subs.tags[kind], s.subs.epochs[kind], true)
                  else s.tasks.(timers := s.tasks.timers - {kind}))
    case BrokerActs(id) => s.(subs := Dropped(s.subs, s.tasks.cancels[id]))
    case Answered(id, confirmed) => if confirmed then Confirm(s, id)
        else s.(requested := true, tasks := Finish(s.tasks, id))
    case Interrupted(id) => s.(requested := s.requested
                               || s.tasks.cancels[id].phase.Asking?, tasks := Finish(s.tasks, id))
    case ChannelCloses(id) => s.(channel := false, subs := s.subs.(live := {}))
    case CloseEnds(id, o) =>
      var closed := CloseFrom(s, s.tasks.cancels[id].phase.hadTransport, o);
      closed.(tasks := Finish(s.tasks, id))
    case Recovers(now, drop, attempt, teardown) => Recover(s, now, drop, attempt, teardown)
    case ShutsDown => s.(stopping := true, tasks := CancelTimers(s.tasks, |KINDS|))
    case ShutdownCancels(kind) =>
      if kind in s.queues then s.(tasks := Begin(s.tasks, kind, s.subs.tags[kind], s.subs.epochs[kind], false))
      else s.(requested := true)
  }

  // ------------------------------------------------------------ what every event keeps

  /** The gauge counts the tags, and the tags are on record for this connection. */
  ghost predicate SubsOk(u: Subs) {
    && u.gauge == |u.tags|
    && (forall k | k in u.tags :: k in u.history && u.history[k] == u.tags[k])
    && u.epochs.Keys == u.tags.Keys
  }

  /** A timed task that can still act is the one its kind's timer names. */
  ghost predicate TasksOk(t: Tasks) {
    && (forall k | k in t.timers && t.timers[k].Running? ::
          t.timers[k].id in t.cancels && t.cancels[t.timers[k].id].kind == k)
    && (forall id | id in t.cancels :: id < t.begun)
    && (forall id | id in t.cancels && t.cancels[id].timed && !t.cancels[id].doomed ::
          t.cancels[id].kind in t.timers && t.timers[t.cancels[id].kind] == Running(id))
  }

  /** A task that can act asks about the current registration, or closes a connection with none. */
  ghost predicate Current(u: Subs, c: Cancel) {
    match c.phase
    case Asking(tag, epoch) => c.kind in u.tags && c.kind in u.epochs ==>
        u.epochs[c.kind] == epoch && u.tags[c.kind] == tag
    case Closing(_) => c.timed && u.tags == map[]
  }

  ghost predicate Aligned(u: Subs, t: Tasks) {
    forall id | id in t.cancels && !t.cancels[id].doomed :: Current(u, t.cancels[id])
  }

  ghost predicate AsksAbout(u: Subs, c: Cancel, k: Kind) {
    c.kind == k && c.phase.Asking? && k in u.epochs && c.phase.epoch == u.epochs[k]
  }

  /** Somebody is asking the broker about this very registration. */
  ghost predicate Asked(u: Subs, t: Tasks, k: Kind) {
    exists id :: id in t.cancels && AsksAbout(u, t.cancels[id], k)
  }

  /** A tag whose subscription the broker no longer holds is being asked about, or a recovery is due. */
  ghost predicate Remembered(u: Subs, t: Tasks, requested: bool) {
    requested || forall k | k in u.tags && k !in u.live :: Asked(u, t, k)
  }

  ghost predicate Inv(s: State) {
    && SubsOk(s.subs) && TasksOk(s.tasks) && Aligned(s.subs, s.tasks)
    && (s.subs.tags != map[] ==> s.connection || s.channel)
    && (forall id | id in s.tasks.cancels && !s.tasks.cancels[id].timed :: s.stopping)
    && Remembered(s.subs, s.tasks, s.requested)
    && (forall id | ClosingNow(s, id) :: s.connection || s.channel ==> s.tasks.cancels[id].phase.hadTransport)
  }

  /** A kind's place in the list. */
  function Rank(k: Kind): nat { match k case Artists => 0 case Labels => 1 case ReleaseGroups => 2 case Releases => 3 }

  lemma KindAt(i: nat)
    requires i < |KINDS|
    ensures Rank(KINDS[i]) == i && forall k :: Rank(k) == i ==> k == KINDS[i]
  {}

  lemma RegisterKeepsSubs(u: Subs, kind: Kind, tag: string)
    requires SubsOk(u) && kind !in u.tags
    ensures SubsOk(Register(u, kind, tag))
  {
    assert Register(u, kind, tag).tags.Keys == u.tags.Keys + {kind};
  }

  lemma DeregisterKeepsSubs(u: Subs, kind: Kind)
    requires SubsOk(u) && kind in u.tags
    ensures SubsOk(Deregister(u, kind))
  {
    assert Deregister(u, kind).tags.Keys == u.tags.Keys - {kind};
  }

  lemma EndedIsEmpty(u: Subs)
    requires SubsOk(u)
    ensures SubsOk(Ended(u)) && Ended(u).tags == map[]
  {}

  // ------------------------------------------------------------ timers

  /** What cancelling timers leaves: the same tasks, some of them doomed. */
  ghost predicate SomeDoomed(t: Tasks, after: Tasks) {
    && after.cancels.Keys == t.cancels.Keys && after.begun == t.begun
    && (forall k :: k in after.timers ==> k in t.timers && after.timers[k] == t.timers[k])
    && (forall id | id in t.cancels :: after.cancels[id] == t.cancels[id].(doomed := after.cancels[id].doomed)
                                       && (t.cancels[id].doomed ==> after.cancels[id].doomed))
  }

  lemma CancelTimerDooms(t: Tasks, kind: Kind)
    requires TasksOk(t)
    ensures var after := CancelTimer(t, kind); TasksOk(after) && kind !in after.timers && SomeDoomed(t, after)
  {}

  lemma {:induction false} CancelTimersDoom(t: Tasks, k: nat)
    requires TasksOk(t) && k <= |KINDS|
    ensures var after := CancelTimers(t, k);
            TasksOk(after) && SomeDoomed(t, after) && forall kind | Rank(kind) < k :: kind !in after.timers
  {
    if k > 0 {
      CancelTimersDoom(t, k - 1);
      CancelTimerDooms(CancelTimers(t, k - 1), KINDS[k - 1]);
      KindAt(k - 1);
    }
  }

  /** With every timer cancelled, no timed task can act any more. */
  lemma AllTimersDoom(t: Tasks)
    requires TasksOk(t)
    ensures var after := CancelTimers(t, |KINDS|);
            && TasksOk(after) && SomeDoomed(t, after) && after.timers == map[]
            && (forall id | id in after.cancels && after.cancels[id].timed :: after.cancels[id].doomed)
  {
    CancelTimersDoom(t, |KINDS|);
    var after := CancelTimers(t, |KINDS|);
    assert forall kind :: Rank(kind) < |KINDS|;
  }

  lemma DoomingRemembers(u: Subs, t: Tasks, after: Tasks, requested: bool)
    requires SomeDoomed(t, after) && Remembered(u, t, requested)
    ensures Remembered(u, after, requested)
  {
    if !requested {
      forall k | k in u.tags && k !in u.live ensures Asked(u, after, k) {
        var id :| id in t.cancels && AsksAbout(u, t.cancels[id], k);
        assert id in after.cancels && AsksAbout(u, after.cancels[id], k);
      }
    }
  }

  lemma DoomingKeepsInv(s: State, after: Tasks)
    requires Inv(s) && TasksOk(after) && SomeDoomed(s.tasks, after)
    ensures Inv(s.(tasks := after))
  {
    DoomingRemembers(s.subs, s.tasks, after, s.requested);
    forall id | id in after.cancels && !after.cancels[id].doomed ensures Current(s.subs, after.cancels[id]) {
      assert Current(s.subs, s.tasks.cancels[id]);
    }
    forall id | id in after.cancels && !after.cancels[id].timed ensures s.stopping {
      assert !s.tasks.cancels[id].timed;
    }
    forall id | ClosingNow(s.(tasks := after), id) ensures s.connection || s.channel ==>
        after.cancels[id].phase.hadTransport {
      assert ClosingNow(s, id);
    }
  }

  // ------------------------------------------------------------ cancels

  lemma FinishKeepsTasks(t: Tasks, id: nat)
    requires TasksOk(t) && id in t.cancels
    ensures TasksOk(Finish(t, id))
  {}

  /** Ending a task forgets nothing that is still registered, or the request remembers it. */
  lemma FinishRemembers(u: Subs, t: Tasks, id: nat, requested: bool)
    requires Remembered(u, t, requested) && id in t.cancels && u.epochs.Keys == u.tags.Keys
    requires requested || !t.cancels[id].phase.Asking? || t.cancels[id].kind !in u.tags
    ensures Remembered(u, Finish(t, id), requested)
  {
    if !requested {
      forall k | k in u.tags && k !in u.live ensures Asked(u, Finish(t, id), k) {
        var other :| other in t.cancels && AsksAbout(u, t.cancels[other], k);
        assert other in Finish(t, id).cancels;
      }
    }
  }

  lemma FinishKeepsInv(s: State, id: nat)
    requires Inv(s) && id in s.tasks.cancels
    requires s.requested || !s.tasks.cancels[id].phase.Asking? || s.tasks.cancels[id].kind !in s.subs.tags
    ensures Inv(s.(tasks := Finish(s.tasks, id)))
  {
    FinishKeepsTasks(s.tasks, id);
    FinishRemembers(s.subs, s.tasks, id, s.requested);
    forall other | ClosingNow(s.(tasks := Finish(s.tasks, id)), other)
      ensures s.connection || s.channel ==> s.tasks.cancels[other].phase.hadTransport
    {
      assert ClosingNow(s, other);
    }
  }

  /** The confirmed task's own registration goes and no other does, whatever the tag strings. */
  lemma AnswerDropsItsOwn(u: Subs, c: Cancel)
    requires SubsOk(u) && c.phase.Asking? && Current(u, c)
    ensures var after := Answer(u, c);
            && SubsOk(after) && c.kind !in after.tags
            && (c.kind in u.tags ==> u.epochs[c.kind] == c.phase.epoch)
            && (forall k | k != c.kind :: (k in after.tags <==> k in u.tags) && (k in after.live <==> k in u.live)
                  && (k in u.tags ==> after.tags[k] == u.tags[k] && after.epochs[k] == u.epochs[k]))
            && (c.kind !in u.tags ==> after == u)
  {
    if c.kind in u.tags { DeregisterKeepsSubs(Dropped(u, c), c.kind); }
  }

  lemma AnswerStaysAligned(u: Subs, c: Cancel, d: Cancel)
    requires SubsOk(u) && c.phase.Asking? && Current(u, c) && Current(u, d)
    ensures Current(Answer(u, c), d)
  {
    AnswerDropsItsOwn(u, c);
  }

  lemma AnswerRemembers(u: Subs, t: Tasks, c: Cancel, requested: bool)
    requires SubsOk(u) && c.phase.Asking? && Current(u, c) && Remembered(u, t, requested)
    ensures Remembered(Answer(u, c), t, requested)
  {
    AnswerDropsItsOwn(u, c);
    var after := Answer(u, c);
    if !requested {
      forall k | k in after.tags && k !in after.live ensures Asked(after, t, k) {
        assert k != c.kind && Asked(u, t, k);
        var id :| id in t.cancels && AsksAbout(u, t.cancels[id], k);
        assert AsksAbout(after, t.cancels[id], k);
      }
    }
  }

  lemma AnswerKeepsInv(s: State, id: nat)
    requires Inv(s) && InFlight(s, id) && !s.tasks.cancels[id].doomed
    ensures Inv(s.(subs := Answer(s.subs, s.tasks.cancels[id])))
  {
    var c := s.tasks.cancels[id];
    assert Current(s.subs, c);
    AnswerDropsItsOwn(s.subs, c);
    AnswerRemembers(s.subs, s.tasks, c, s.requested);
    forall other | other in s.tasks.cancels && !s.tasks.cancels[other].doomed
        ensures Current(Answer(s.subs, c), s.tasks.cancels[other]) {
      AnswerStaysAligned(s.subs, c, s.tasks.cancels[other]);
    }
    forall other | ClosingNow(s.(subs := Answer(s.subs, c)), other)
      ensures s.connection || s.channel ==> s.tasks.cancels[other].phase.hadTransport
    {
      assert ClosingNow(s, other);
    }
  }

  /** The last confirmed task turns to closing the connection. */
  lemma TurningKeepsInv(s: State, id: nat, phase: Phase)
    requires Inv(s) && InFlight(s, id) && s.tasks.cancels[id].timed && s.subs.tags == map[]
    requires phase == Closing(s.connection || s.channel)
    ensures Inv(s.(tasks := s.tasks.(cancels := s.tasks.cancels[id := s.tasks.cancels[id].(phase := phase)])))
  {
    var after := s.(tasks := s.tasks.(cancels := s.tasks.cancels[id := s.tasks.cancels[id].(phase := phase)]));
    forall other | other in after.tasks.cancels && !after.tasks.cancels[other].doomed
      ensures Current(s.subs, after.tasks.cancels[other])
    {
      if other != id { assert Current(s.subs, s.tasks.cancels[other]); }
    }
    forall other | ClosingNow(after, other) ensures s.connection || s.channel ==>
        after.tasks.cancels[other].phase.hadTransport {
      if other != id { assert ClosingNow(s, other); }
    }
  }

  lemma ConfirmKeepsInv(s: State, id: nat)
    requires Inv(s) && InFlight(s, id) && !s.tasks.cancels[id].doomed
    ensures Inv(Confirm(s, id))
  {
    var c := s.tasks.cancels[id];
    AnswerKeepsInv(s, id);
    assert Current(s.subs, c);
    AnswerDropsItsOwn(s.subs, c);
    var answered := s.(subs := Answer(s.subs, c));
    if c.timed && Idle(answered.subs, s.watch.completed) {
      TurningKeepsInv(answered, id, Closing(s.connection || s.channel));
    } else {
      FinishKeepsInv(answered, id);
    }
  }

  lemma BeginKeepsTasks(t: Tasks, kind: Kind, tag: string, epoch: nat, timed: bool)
    requires TasksOk(t) && (timed ==> kind in t.timers && t.timers[kind].Sleeping?)
    ensures TasksOk(Begin(t, kind, tag, epoch, timed))
  {
    var after := Begin(t, kind, tag, epoch, timed);
    assert t.begun !in t.cancels;
    forall k | k in after.timers && after.timers[k].Running?
      ensures after.timers[k].id in after.cancels && after.cancels[after.timers[k].id].kind == k
    {
      if !(timed && k == kind) { assert t.timers[k].id in t.cancels; }
    }
  }

  lemma BeginRemembers(u: Subs, t: Tasks, kind: Kind, tag: string, epoch: nat, timed: bool, requested: bool)
    requires TasksOk(t) && Remembered(u, t, requested)
    ensures Remembered(u, Begin(t, kind, tag, epoch, timed), requested)
  {
    if !requested {
      forall k | k in u.tags && k !in u.live ensures Asked(u, Begin(t, kind, tag, epoch, timed), k) {
        var id :| id in t.cancels && AsksAbout(u, t.cancels[id], k);
        assert id in Begin(t, kind, tag, epoch, timed).cancels
            && AsksAbout(u, Begin(t, kind, tag, epoch, timed).cancels[id], k);
      }
    }
  }

  lemma BeginKeepsInv(s: State, kind: Kind, timed: bool)
    requires Inv(s) && kind in s.subs.tags && kind in s.subs.epochs
    requires if timed then kind in s.tasks.timers && s.tasks.timers[kind].Sleeping? else s.stopping
    ensures Inv(s.(tasks := Begin(s.tasks, kind, s.subs.tags[kind], s.subs.epochs[kind], timed)))
  {
    var after := Begin(s.tasks, kind, s.subs.tags[kind], s.subs.epochs[kind], timed);
    BeginKeepsTasks(s.tasks, kind, s.subs.tags[kind], s.subs.epochs[kind], timed);
    BeginRemembers(s.subs, s.tasks, kind, s.subs.tags[kind], s.subs.epochs[kind], timed, s.requested);
    forall id | id in after.cancels && !after.cancels[id].doomed ensures Current(s.subs, after.cancels[id]) {
      if id != s.tasks.begun { assert Current(s.subs, s.tasks.cancels[id]); }
    }
    forall id ensures !ClosingNow(s.(tasks := after), id) {
      assert ClosingNow(s, id) ==> Current(s.subs, s.tasks.cancels[id]);
    }
  }

  /** The broker acting on a request it has received: nothing else knows yet. */
  lemma BrokerKeepsInv(s: State, id: nat)
    requires Inv(s) && InFlight(s, id)
    ensures Inv(s.(subs := Dropped(s.subs, s.tasks.cancels[id])))
  {
    var c := s.tasks.cancels[id];
    var after := s.(subs := Dropped(s.subs, c));
    forall other | other in s.tasks.cancels && !s.tasks.cancels[other].doomed
        ensures Current(after.subs, s.tasks.cancels[other]) {
      assert Current(s.subs, s.tasks.cancels[other]);
    }
    if !s.requested {
      forall k | k in after.subs.tags && k !in after.subs.live ensures Asked(after.subs, s.tasks, k) {
        if k in s.subs.live {
          assert AsksAbout(after.subs, c, k);
        } else {
          var other :| other in s.tasks.cancels && AsksAbout(s.subs, s.tasks.cancels[other], k);
          assert AsksAbout(after.subs, s.tasks.cancels[other], k);
        }
      }
    }
    forall other | ClosingNow(after, other) ensures s.connection || s.channel ==>
        s.tasks.cancels[other].phase.hadTransport {
      assert ClosingNow(s, other);
    }
  }

  // ------------------------------------------------------------ transport

  /** The close is confirmed: what there was of the transport is gone. */
  predicate Confirmed(s: State, o: CloseOutcome) {
    && (s.channel ==> o.channel != TimesOut)
    && (if s.connection then o.connection == Done else s.channel ==> o.channel == Done)
  }

  /** A confirmed close leaves no handle and no tag; any other keeps every tag and asks for a recovery. */
  lemma CloseMeans(s: State, had: bool, o: CloseOutcome)
    requires SubsOk(s.subs) && (s.connection || s.channel ==> had)
             && (s.subs.tags != map[] ==> s.connection || s.channel)
    ensures var after := CloseFrom(s, had, o);
            && SubsOk(after.subs)
            && (if Confirmed(s, o)
                then !after.connection && !after.channel && after.subs.tags == map[] && after.requested == s.requested
                else (after.connection || after.channel) && after.requested
                     && after.subs == s.subs.(live := after.subs.live) && after.watch == s.watch)
            && after.tasks == s.tasks && after.stopping == s.stopping && after.queues == s.queues
            && after.watch == s.watch.(startedAt := after.watch.startedAt)
            && (after.connection ==> s.connection) && (after.channel ==> s.channel)
  {
    EndedIsEmpty(s.subs);
  }

  lemma CloseKeepsInv(s: State, had: bool, o: CloseOutcome)
    requires Inv(s) && (s.connection || s.channel ==> had)
    ensures Inv(CloseFrom(s, had, o))
  {
    CloseMeans(s, had, o);
    var after := CloseFrom(s, had, o);
    forall id | id in s.tasks.cancels && !s.tasks.cancels[id].doomed ensures Current(after.subs, s.tasks.cancels[id]) {
      assert Current(s.subs, s.tasks.cancels[id]);
    }
    forall id | ClosingNow(after, id) ensures after.connection || after.channel ==>
        after.tasks.cancels[id].phase.hadTransport {
      assert ClosingNow(s, id);
    }
  }

  /** Fresh registrations on an empty record: exactly the first `k` kinds, all really subscribed. */
  lemma {:induction false} RegisterMissingMeans(u: Subs, k: nat, names: Kind -> string)
    requires SubsOk(u) && k <= |KINDS| && u.tags == map[]
    ensures var after := RegisterMissing(u, k, names);
            && SubsOk(after)
            && (forall kind :: kind in after.tags <==> Rank(kind) < k)
            && (forall kind | kind in after.tags :: kind in after.live)
  {
    if k > 0 {
      RegisterMissingMeans(u, k - 1, names);
      KindAt(k - 1);
      RegisterKeepsSubs(RegisterMissing(u, k - 1, names), KINDS[k - 1], names(KINDS[k - 1]));
    }
  }

  lemma {:induction false} WatchMissingMeans(w: Watch, u: Subs, k: nat, backlog: set<Kind>, now: real)
    requires k <= |KINDS| && u.tags == map[]
    ensures var after := WatchMissing(w, u, k, backlog, now);
            && (forall kind | Rank(kind) < k :: kind in after.lastMessage && after.lastMessage[kind] == now)
            && (forall kind :: kind in after.completed <==> kind in w.completed && !(kind in backlog && Rank(kind) < k))
            && after.startedAt == w.startedAt && after.counts == w.counts
  {
    if k > 0 {
      WatchMissingMeans(w, u, k - 1, backlog, now);
      KindAt(k - 1);
    }
  }

  ghost predicate NoTaskActs(t: Tasks) { forall id | id in t.cancels :: t.cancels[id].doomed }

  lemma ResubscribedKeepsInv(s: State, now: real, kinds: set<Kind>, names: Kind -> string, k: nat)
    requires Inv(s) && s.subs.tags == map[] && NoTaskActs(s.tasks) && k <= |KINDS|
    ensures Inv(Resubscribed(s, now, kinds, names, k))
  {
    RegisterMissingMeans(s.subs.(history := map[]), k, names);
  }

  lemma AbandonKeepsInv(s: State, teardown: CloseOutcome)
    requires Inv(s) && NoTaskActs(s.tasks)
    ensures Inv(Abandon(s, teardown)) && Abandon(s, teardown).requested
  {
    var held := s.(requested := true, connection := true, channel := true, queues := {});
    CloseKeepsInv(held, true, teardown);
    CloseMeans(held, true, teardown);
  }

  lemma AttemptedKeepsInv(s: State, now: real, attempt: Attempt, teardown: CloseOutcome)
    requires Inv(s) && s.subs.tags == map[] && NoTaskActs(s.tasks) && AttemptOk(attempt)
    ensures Inv(Attempted(s, now, attempt, teardown))
    ensures !Attempted(s, now, attempt, teardown).requested ==>
              !s.requested && (attempt == NoBacklog(true) || (attempt.Backlog? && attempt.broken == None))
  {
    match attempt
    case NoConnection =>
    case DeclareFails => AbandonKeepsInv(s, teardown);
    case NoBacklog(closes) => if !closes { AbandonKeepsInv(s, teardown); }
    case Backlog(kinds, names, broken) =>
      ResubscribedKeepsInv(s, now, kinds, names, if broken.Some? then broken.value else |KINDS|);
      if broken.Some? { AbandonKeepsInv(Resubscribed(s, now, kinds, names, broken.value), teardown); }
  }

  function Cleared(s: State): State { s.(tasks := CancelTimers(s.tasks, |KINDS|), requested := false) }

  /** Where a recovery starts again from: no transport, no tags, and no task that can still act. */
  lemma DroppedIsClean(s: State, drop: CloseOutcome)
    requires Inv(s) && !s.stopping
    ensures var dropped := DropTransport(s, drop);
            && Inv(dropped)
            && (!dropped.connection && !dropped.channel ==>
                  Inv(Cleared(dropped)) && dropped.subs.tags == map[] && NoTaskActs(Cleared(dropped).tasks))
  {
    var dropped := DropTransport(s, drop);
    if s.connection || s.channel {
      CloseKeepsInv(s, true, drop);
      CloseMeans(s, true, drop);
    }
    AllTimersDoom(dropped.tasks);
    DoomingKeepsInv(dropped, CancelTimers(dropped.tasks, |KINDS|));
  }

  lemma RecoverKeepsInv(s: State, now: real, drop: CloseOutcome, attempt: Attempt, teardown: CloseOutcome)
    requires Inv(s) && !s.stopping && AttemptOk(attempt)
    ensures Inv(Recover(s, now, drop, attempt, teardown))
  {
    DroppedIsClean(s, drop);
    var dropped := DropTransport(s, drop);
    if !dropped.connection && !dropped.channel {
      AttemptedKeepsInv(Cleared(dropped), now, attempt, teardown);
    }
  }

  // ------------------------------------------------------------ every event

  lemma SleepingKeepsInv(s: State, kind: Kind)
    requires Inv(s) && kind !in s.tasks.timers
    ensures Inv(s.(tasks := s.tasks.(timers := s.tasks.timers[kind := Sleeping])))
  {
    var after := s.(tasks := s.tasks.(timers := s.tasks.timers[kind := Sleeping]));
    forall id | ClosingNow(after, id) ensures s.connection || s.channel ==> s.tasks.cancels[id].phase.hadTransport {
      assert ClosingNow(s, id);
    }
  }

  lemma WakingKeepsInv(s: State, kind: Kind)
    requires Inv(s) && kind in s.tasks.timers && s.tasks.timers[kind].Sleeping?
    ensures Inv(s.(tasks := s.tasks.(timers := s.tasks.timers - {kind})))
  {
    var after := s.(tasks := s.tasks.(timers := s.tasks.timers - {kind}));
    forall id | ClosingNow(after, id) ensures s.connection || s.channel ==> s.tasks.cancels[id].phase.hadTransport {
      assert ClosingNow(s, id);
    }
  }

  /** Events that only watch, ask for a recovery, or announce the end. */
  lemma QuietKeepsInv(s: State, watch: Watch, requested: bool, stopping: bool)
    requires Inv(s) && (s.requested ==> requested) && (s.stopping ==> stopping)
    ensures Inv(s.(watch := watch, requested := requested, stopping := stopping))
  {
    var after := s.(watch := watch, requested := requested, stopping := stopping);
    forall id | ClosingNow(after, id) ensures s.connection || s.channel ==> s.tasks.cancels[id].phase.hadTransport {
      assert ClosingNow(s, id);
    }
  }

  lemma ChannelKeepsInv(s: State, id: nat)
    requires Inv(s) && ClosingNow(s, id)
    ensures Inv(s.(channel := false, subs := s.subs.(live := {})))
  {
    var after := s.(channel := false, subs := s.subs.(live := {}));
    assert Current(s.subs, s.tasks.cancels[id]);
    forall other | other in s.tasks.cancels && !s.tasks.cancels[other].doomed
        ensures Current(after.subs, s.tasks.cancels[other]) {
      assert Current(s.subs, s.tasks.cancels[other]);
    }
    forall other | ClosingNow(after, other) ensures after.connection || after.channel ==>
        after.tasks.cancels[other].phase.hadTransport {
      assert ClosingNow(s, other);
    }
  }

  lemma CompletesKeepsInv(cfg: Config, s: State, kind: Kind)
    requires Inv(s) && !s.stopping
    ensures Inv(Next(cfg, s, Completes(kind)))
  {
    var watch := s.watch.(completed := s.watch.completed + {kind});
    QuietKeepsInv(s, watch, s.requested, s.stopping);
    if cfg.cancelDelay > 0 && kind in s.queues {
      CancelTimerDooms(s.tasks, kind);
      DoomingKeepsInv(s.(watch := watch), CancelTimer(s.tasks, kind));
      SleepingKeepsInv(s.(watch := watch, tasks := CancelTimer(s.tasks, kind)), kind);
    }
  }

  lemma ArrivesKeepsInv(s: State, kind: Kind)
    requires Inv(s)
    ensures Inv(s.(watch := s.watch.(completed := s.watch.completed - {kind}), tasks := CancelTimer(s.tasks, kind)))
  {
    var watch := s.watch.(completed := s.watch.completed - {kind});
    QuietKeepsInv(s, watch, s.requested, s.stopping);
    CancelTimerDooms(s.tasks, kind);
    DoomingKeepsInv(s.(watch := watch), CancelTimer(s.tasks, kind));
  }

  lemma UnansweredKeepsInv(s: State, id: nat)
    requires Inv(s) && id in s.tasks.cancels
    ensures Inv(s.(requested := s.requested || s.tasks.cancels[id].phase.Asking?, tasks := Finish(s.tasks, id)))
  {
    var requested := s.requested || s.tasks.cancels[id].phase.Asking?;
    QuietKeepsInv(s, s.watch, requested, s.stopping);
    FinishKeepsInv(s.(requested := requested), id);
  }

  lemma CloseEndsKeepsInv(cfg: Config, s: State, id: nat, o: CloseOutcome)
    requires Inv(s) && ClosingNow(s, id)
    ensures Inv(Next(cfg, s, CloseEnds(id, o)))
  {
    var had := s.tasks.cancels[id].phase.hadTransport;
    CloseKeepsInv(s, had, o);
    CloseKeepsTasks(s, had, o);
    FinishKeepsInv(CloseFrom(s, had, o), id);
  }

  lemma CloseKeepsTasks(s: State, had: bool, o: CloseOutcome)
    ensures CloseFrom(s, had, o).tasks == s.tasks
  {}

  lemma StartupKeepsInv(cfg: Config, now: real, names: Kind -> string)
    ensures Inv(Initial()) && Inv(Next(cfg, Initial(), Startup(now, names)))
  {
    RegisterMissingMeans(Initial().subs.(history := map[]), |KINDS|, names);
  }

  lemma StopKeepsInv(s: State)
    requires Inv(s)
    ensures Inv(s.(stopping := true, tasks := CancelTimers(s.tasks, |KINDS|)))
  {
    QuietKeepsInv(s, s.watch, s.requested, true);
    AllTimersDoom(s.tasks);
    DoomingKeepsInv(s.(stopping := true), CancelTimers(s.tasks, |KINDS|));
  }

  /** Every event of the lifecycle, with every broker outcome, keeps the invariant. */
  lemma NextKeepsInv(cfg: Config, s: State, e: Event)
    requires Inv(s) && Enabled(s, e)
    ensures Inv(Next(cfg, s, e))
  {
    match e
    case Startup(now, names) => StartupKeepsInv(cfg, now, names);
    case Arrives(kind) => ArrivesKeepsInv(s, kind);
    case Settled(kind, now) => QuietKeepsInv(s, Next(cfg, s, e).watch, s.requested, s.stopping);
    case Completes(kind) => CompletesKeepsInv(cfg, s, kind);
    case TimerFires(kind) => if kind in s.subs.tags { BeginKeepsInv(s, kind, true); } else { WakingKeepsInv(s, kind); }
    case BrokerActs(id) => BrokerKeepsInv(s, id);
    case Answered(id, confirmed) => if confirmed { ConfirmKeepsInv(s, id); } else { UnansweredKeepsInv(s, id); }
    case Interrupted(id) => UnansweredKeepsInv(s, id);
    case ChannelCloses(id) => ChannelKeepsInv(s, id);
    case CloseEnds(id, o) => CloseEndsKeepsInv(cfg, s, id, o);
    case Recovers(now, drop, attempt, teardown) => RecoverKeepsInv(s, now, drop, attempt, teardown);
    case ShutsDown => StopKeepsInv(s);
    case ShutdownCancels(kind) =>
      if kind in s.queues { BeginKeepsInv(s, kind, false); } else { QuietKeepsInv(s, s.watch, true, s.stopping); }
  }
}
