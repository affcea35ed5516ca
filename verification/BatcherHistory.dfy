/**
 What a run of the write batcher has committed: each delivery at most once, every answer after the
 transaction that gave it, and a graph and counters that are exactly the committed transactions'.
 */
module BatcherHistory {
  import opened EntityGate
  import opened BatcherModel

  // ------------------------------------------------------------ the log

  function Tickets(c: Committed): seq<nat> {
    match c
    case Together(tickets, _) => tickets
    case Alone(ticket, _) => [ticket]
  }

  ghost predicate Gave(c: Committed, t: nat, b: bool) {
    match c
    case Together(tickets, flags) => exists i :: 0 <= i < |tickets| && i < |flags| && tickets[i] == t && flags[i] == b
    case Alone(ticket, flag) => ticket == t && flag == b
  }

  predicate EntryOk(c: Committed, n: nat) {
    match c
    case Together(tickets, flags) => |flags| == |tickets| && Ascending(tickets) && forall i | 0 <= i < |tickets| ::
                                                                                     tickets[i] < n
    case Alone(ticket, _) => ticket < n
  }

  ghost predicate LogOk(log: seq<Committed>, n: nat) {
    forall i | 0 <= i < |log| :: EntryOk(log[i], n)
  }

  ghost predicate InLog(log: seq<Committed>, t: nat) {
    exists i :: 0 <= i < |log| && t in Tickets(log[i])
  }

  ghost predicate Given(log: seq<Committed>, t: nat, b: bool) {
    exists i :: 0 <= i < |log| && Gave(log[i], t, b)
  }

  ghost predicate Once(log: seq<Committed>, t: nat) {
    forall i, j | 0 <= i < j < |log| :: !(t in Tickets(log[i]) && t in Tickets(log[j]))
  }

  lemma LogGrows(log: seq<Committed>, c: Committed, t: nat, b: bool)
    ensures InLog(log + [c], t) <==> InLog(log, t) || t in Tickets(c)
    ensures Given(log, t, b) || Gave(c, t, b) ==> Given(log + [c], t, b)
    ensures Once(log, t) && !(InLog(log, t) && t in Tickets(c)) ==> Once(log + [c], t)
  {
    var longer := log + [c];
    assert longer[|log|] == c;
    forall i | 0 <= i < |log| ensures longer[i] == log[i] {}
    if InLog(log, t) {
      var i :| 0 <= i < |log| && t in Tickets(log[i]);
      assert t in Tickets(longer[i]);
    }
    if Given(log, t, b) {
      var i :| 0 <= i < |log| && Gave(log[i], t, b);
      assert Gave(longer[i], t, b);
    }
  }

  // ------------------------------------------------------------ the book-keeping of one ticket

  /**
   A committed delivery is out of the queue for good and never reads as failed; a queued one is
   undecided or given up by its caller; an answer was given by a committed transaction.
   */
  ghost predicate TicketOk<G, R>(s: State<G, R>, t: nat)
    requires t < |s.futures|
  {
    var future := s.futures[t];
    && (InLog(s.log, t) ==> !Placed(s, t) && !future.Waiting? && !future.Failed?)
    && (Placed(s, t) ==> future.Waiting? || future.Cancelled?)
    && (future.Value? || future.Reported? ==> Given(s.log, t, future.matched))
    && Once(s.log, t)
  }

  ghost predicate Tidy<G, R>(s: State<G, R>) {
    && LogOk(s.log, |s.futures|)
    && forall t | 0 <= t < |s.futures| :: TicketOk(s, t)
  }

  /** A queued ticket is in the queue or in one flight, never both and never twice. */
  lemma OnePlace<G, R>(s: State<G, R>, size: nat, t: nat)
    requires Queued(s, size)
    ensures t in s.pending ==> forall f | f in s.flights :: t !in s.flights[f].batch
    ensures forall f, g | f in s.flights && g in s.flights && f != g && t in s.flights[f].batch ::
              t !in s.flights[g].batch
    ensures forall i, j | 0 <= i < |s.pending| && 0 <= j < |s.pending| && s.pending[i] == t && s.pending[j] == t ::
              i == j
    ensures forall f, i, j | f in s.flights && 0 <= i < |s.flights[f].batch| && 0 <= j < |s.flights[f].batch|
              && s.flights[f].batch[i] == t && s.flights[f].batch[j] == t :: i == j
  {
    forall f | f in s.flights ensures FlightOk(s.flights[f], size, |s.futures|)
        && AllBelow(s.flights[f].batch, s.pending) {}
    forall f, g | f in s.flights && g in s.flights && f != g && t in s.flights[f].batch
        ensures t !in s.flights[g].batch {
      assert f < g ==> AllBelow(s.flights[f].batch, s.flights[g].batch);
      assert g < f ==> AllBelow(s.flights[g].batch, s.flights[f].batch);
    }
  }

  /** Landing a flight takes its members out of every place. */
  lemma LandedIsNowhere<G, R>(s: State<G, R>, s': State<G, R>, size: nat, f: nat, t: nat)
    requires Queued(s, size) && f in s.flights
    requires s'.pending == s.pending && s'.flights == Land(s.flights, f)
    ensures Placed(s', t) ==> Placed(s, t)
    ensures t in s.flights[f].batch ==> !Placed(s', t)
  {
    OnePlace(s, size, t);
    if Placed(s', t) && t !in s.pending {
      var g :| g in s'.flights && t in Rest(s'.flights[g]);
      assert g in s.flights && t in Rest(s.flights[g]) && t in s.flights[g].batch;
    }
  }

  lemma MovedOnIsNowhere<G, R>(s: State<G, R>, s': State<G, R>, size: nat, f: nat, t: nat)
    requires Queued(s, size) && f in s.flights && s.flights[f].Replaying?
    requires s.flights[f].next + 1 < |s.flights[f].batch|
    requires s'.pending == s.pending
    requires s'.flights == s.flights[f := Replaying(s.flights[f].batch, s.flights[f].next + 1)]
    ensures Placed(s', t) ==> Placed(s, t)
    ensures t == s.flights[f].batch[s.flights[f].next] ==> !Placed(s', t)
  {
    OnePlace(s, size, t);
    var batch, k := s.flights[f].batch, s.flights[f].next;
    assert Rest(s'.flights[f]) == batch[k + 1..];
    if Placed(s', t) && t !in s.pending {
      var g :| g in s'.flights && t in Rest(s'.flights[g]);
      if g == f {
        var i :| 0 <= i < |batch[k + 1..]| && batch[k + 1..][i] == t;
        assert batch[k + 1 + i] == t && batch[k..][1 + i] == t;
        assert t in Rest(s.flights[f]);
      } else {
        assert t in Rest(s.flights[g]) && t in s.flights[g].batch;
      }
    }
  }

  lemma FlushPlaces<G, R>(s: State<G, R>, size: nat, t: nat)
    requires Filled(s, size)
    ensures Placed(FlushNow(s, size), t) ==> Placed(s, t)
  {
    var after, live := FlushNow(s, size), Live(s.futures, s.pending);
    assert s.pending[..|s.pending|] == s.pending;
    LiveIsLive(s.futures, s.pending);
    if Placed(after, t) {
      var f :| f in after.flights && t in Rest(after.flights[f]);
      if f == s.launched && live != [] {
        assert t in live;
      } else {
        assert f in s.flights;
      }
    }
  }

  // ------------------------------------------------------------ every event keeps the books

  lemma SubmitKeepsTidy<G(!new), R(!new)>(p: Projection<G, R>, size: nat, s: State<G, R>, r: R)
    requires Faithful(p) && size > 0 && Queued(s, size) && InRange(s) && Tidy(s)
    ensures Tidy(Next(p, size, s, Submit(r)))
  {
    var queued := s.(records := s.records + [r], futures := s.futures + [Waiting],
                     pending := s.pending + [|s.futures|]);
    var s' := Next(p, size, s, Submit(r));
    assert LogOk(s'.log, |s'.futures|);
    forall t | 0 <= t < |s'.futures| ensures TicketOk(s', t) {
      if |queued.pending| >= size {
        SubmitFills(s, r, size);
        FlushPlaces(queued, size, t);
      }
      assert Placed(s', t) ==> Placed(queued, t);
      assert t < |s.futures| && Placed(queued, t) ==> Placed(s, t);
      if t < |s.futures| {
        assert TicketOk(s, t);
      } else {
        forall i | 0 <= i < |s.log| ensures t !in Tickets(s.log[i]) {
          assert EntryOk(s.log[i], |s.futures|);
        }
      }
    }
  }

  lemma TimerKeepsTidy<G, R>(s: State<G, R>, size: nat)
    requires Queued(s, size) && s.timer && InRange(s) && Tidy(s)
    ensures Tidy(FlushNow(s, size))
  {
    forall t | 0 <= t < |s.futures| ensures TicketOk(FlushNow(s, size), t) {
      assert TicketOk(s, t);
      FlushPlaces(s, size, t);
    }
  }

  /** Landing a flight with nothing written: its undecided members fail, nobody else moves. */
  lemma FailingKeepsTidy<G, R>(s: State<G, R>, s': State<G, R>, size: nat, f: nat, reason: Reason)
    requires Queued(s, size) && Tidy(s) && f in s.flights && !s.flights[f].Replaying?
    requires s' == s.(futures := SettleAll(s.futures, s.flights[f].batch, Failed(reason)),
                      flights := Land(s.flights, f))
    ensures Tidy(s')
  {
    forall t | 0 <= t < |s'.futures| ensures TicketOk(s', t) {
      assert TicketOk(s, t);
      LandedIsNowhere(s, s', size, f, t);
      if t in s.flights[f].batch {
        assert t in Rest(s.flights[f]);
      }
    }
  }

  lemma CommitKeepsTidy<G(!new), R(!new)>(p: Projection<G, R>, size: nat, s: State<G, R>, f: nat)
    requires Faithful(p) && Queued(s, size) && InRange(s) && Tidy(s) && Enabled(s, Commits(f))
    ensures Tidy(Next(p, size, s, Commits(f)))
  {
    var s', batch := Next(p, size, s, Commits(f)), s.flights[f].batch;
    var flags := p.batch(s.graph, RecordsOf(s.records, batch)).flags;
    assert FlightOk(s.flights[f], size, |s.futures|);
    SettleFlagsSettles(s.futures, batch, flags);
    assert LogOk(s'.log, |s'.futures|);
    forall t | 0 <= t < |s'.futures| ensures TicketOk(s', t) {
      CommittedTicket(s, s', size, f, flags, t);
    }
  }

  lemma CommittedTicket<G, R>(s: State<G, R>, s': State<G, R>, size: nat, f: nat, flags: seq<bool>, t: nat)
    requires Queued(s, size) && Tidy(s) && f in s.flights && s.flights[f].Committing? && t < |s.futures| == |s'.futures|
    requires s'.pending == s.pending && s'.flights == Land(s.flights, f)
    requires |flags| == |s.flights[f].batch| && s'.log == s.log + [Together(s.flights[f].batch, flags)]
    requires forall u | 0 <= u < |s.futures| && u !in s.flights[f].batch :: s'.futures[u] == s.futures[u]
    requires forall i | 0 <= i < |s.flights[f].batch| ::
               s.flights[f].batch[i] < |s.futures| &&
               s'.futures[s.flights[f].batch[i]] ==
                 if s.futures[s.flights[f].batch[i]].Waiting? then Value(flags[i]) else s.futures[s.flights[f].batch[i]]
    ensures TicketOk(s', t)
  {
    var batch := s.flights[f].batch;
    var c := Together(batch, flags);
    assert TicketOk(s, t);
    LandedIsNowhere(s, s', size, f, t);
    var future := s'.futures[t];
    LogGrows(s.log, c, t, if future.Value? || future.Reported? then future.matched else false);
    if t in batch {
      assert t in Rest(s.flights[f]) && Placed(s, t);
      var i :| 0 <= i < |batch| && batch[i] == t;
      assert Gave(c, t, flags[i]);
    }
  }

  lemma RejectedKeepsTidy<G(!new), R(!new)>(p: Projection<G, R>, size: nat, s: State<G, R>, f: nat)
    requires Faithful(p) && Queued(s, size) && InRange(s) && Tidy(s) && Enabled(s, Rejected(f))
             && |s.flights[f].batch| > 1
    ensures Tidy(Next(p, size, s, Rejected(f)))
  {
    var s', batch := Next(p, size, s, Rejected(f)), s.flights[f].batch;
    assert Rest(s'.flights[f]) == Rest(s.flights[f]) by { assert batch[0..] == batch; }
    forall t | 0 <= t < |s'.futures| ensures TicketOk(s', t) {
      assert TicketOk(s, t);
      if Placed(s', t) && t !in s.pending {
        var g :| g in s'.flights && t in Rest(s'.flights[g]);
        assert g in s.flights && t in Rest(s.flights[g]);
      }
    }
  }

  /** One replayed member: its own future is decided, in step with the log. */
  lemma ReplayedTicket<G, R>(s: State<G, R>, s': State<G, R>, size: nat, f: nat, done: nat, t: nat, verdict: Verdict,
                             flag: bool)
    requires Queued(s, size) && Tidy(s) && f in s.flights && s.flights[f].Replaying? && t < |s.futures| == |s'.futures|
    requires done < |s.futures| && s.flights[f].next < |s.flights[f].batch|
             && done == s.flights[f].batch[s.flights[f].next]
    requires forall u: nat :: Placed(s', u) ==> Placed(s, u) && u != done
    requires s'.log == if verdict.Applied? then s.log + [Alone(done, flag)] else s.log
    requires s'.futures == Settle(s.futures, done, if verdict.Applied? then Value(flag) else Failed(verdict.reason))
    ensures TicketOk(s', t)
  {
    assert TicketOk(s, t);
    var future := s'.futures[t];
    LogGrows(s.log, Alone(done, flag), t, if future.Value? || future.Reported? then future.matched else false);
    if t == done {
      var batch, k := s.flights[f].batch, s.flights[f].next;
      assert batch[k..][0] == done;
      assert t in Rest(s.flights[f]) && Placed(s, t);
    }
  }

  lemma ReplayKeepsTidy<G(!new), R(!new)>(p: Projection<G, R>, size: nat, s: State<G, R>, f: nat, verdict: Verdict)
    requires Faithful(p) && Queued(s, size) && InRange(s) && Tidy(s) && Enabled(s, Replays(f, verdict))
    ensures Tidy(Next(p, size, s, Replays(f, verdict)))
  {
    var s', batch, k := Next(p, size, s, Replays(f, verdict)), s.flights[f].batch, s.flights[f].next;
    assert FlightOk(s.flights[f], size, |s.futures|);
    var done := batch[k];
    var w := p.single(s.graph, s.records[done]);
    assert LogOk(s'.log, |s'.futures|);
    forall t: nat ensures Placed(s', t) ==> Placed(s, t) && t != done {
      if k + 1 == |batch| {
        LandedIsNowhere(s, s', size, f, t);
      } else {
        MovedOnIsNowhere(s, s', size, f, t);
      }
    }
    forall t | 0 <= t < |s'.futures| ensures TicketOk(s', t) {
      ReplayedTicket(s, s', size, f, done, t, verdict, w.matched);
    }
  }

  lemma DirectKeepsTidy<G(!new), R(!new)>(p: Projection<G, R>, size: nat, s: State<G, R>, r: R, verdict: Verdict)
    requires Faithful(p) && Queued(s, size) && InRange(s) && Tidy(s)
    ensures Tidy(Next(p, size, s, Direct(r, verdict)))
  {
    var s', n := Next(p, size, s, Direct(r, verdict)), |s.futures|;
    var c := Alone(n, p.single(s.graph, r).matched);
    forall i | 0 <= i < |s'.log| ensures EntryOk(s'.log[i], n + 1) {
      if i < |s.log| { assert EntryOk(s.log[i], n); }
    }
    assert !Placed(s, n) by {
      forall f | f in s.flights ensures n !in Rest(s.flights[f]) { assert FlightOk(s.flights[f], size, n); }
    }
    assert !InLog(s.log, n) by {
      forall i | 0 <= i < |s.log| ensures n !in Tickets(s.log[i]) { assert EntryOk(s.log[i], n); }
    }
    forall t | 0 <= t < |s'.futures| ensures TicketOk(s', t) {
      var future := s'.futures[t];
      LogGrows(s.log, c, t, if future.Value? || future.Reported? then future.matched else false);
      assert Placed(s', t) ==> Placed(s, t);
      if t < n { assert TicketOk(s, t); }
    }
  }

  /** A caller going away, or its handler taking its answer, is nobody else's business. */
  lemma DecidingKeepsTidy<G, R>(s: State<G, R>, s': State<G, R>, u: nat)
    requires Tidy(s) && u < |s.futures| && s' == s.(futures := s'.futures, totals := s'.totals)
    requires s'.futures == (if s.futures[u].Waiting? then s.futures[u := Cancelled] else s.futures)
          || (s.futures[u].Value? && s'.futures == s.futures[u := Reported(s.futures[u].matched)])
    ensures Tidy(s')
  {
    forall t | 0 <= t < |s'.futures| ensures TicketOk(s', t) {
      assert TicketOk(s, t);
      assert Placed(s', t) ==> Placed(s, t);
    }
  }

  lemma NextKeepsTidy<G(!new), R(!new)>(p: Projection<G, R>, size: nat, s: State<G, R>, e: Event<R>)
    requires Faithful(p) && size > 0 && Queued(s, size) && InRange(s) && Tidy(s) && Enabled(s, e)
    ensures Tidy(Next(p, size, s, e))
  {
    var s' := Next(p, size, s, e);
    match e
    case Submit(r) => SubmitKeepsTidy(p, size, s, r);
    case TimerFires => TimerKeepsTidy(s, size);
    case Commits(f) => CommitKeepsTidy(p, size, s, f);
    case Unavailable(f) => FailingKeepsTidy(s, s', size, f, Outage);
    case FlushCancelled(f) => FailingKeepsTidy(s, s', size, f, Stopped);
    case Rejected(f) =>
      if |s.flights[f].batch| <= 1 {
        FailingKeepsTidy(s, s', size, f, Poison);
      } else {
        RejectedKeepsTidy(p, size, s, f);
      }
    case Replays(f, verdict) => ReplayKeepsTidy(p, size, s, f, verdict);
    case CallerCancels(t) => DecidingKeepsTidy(s, s', t);
    case HandlerResumes(t) => DecidingKeepsTidy(s, s', t);
    case Direct(r, verdict) => DirectKeepsTidy(p, size, s, r, verdict);
  }
}
