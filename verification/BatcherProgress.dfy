/**
 Where a run of the write batcher goes: a rejected batch ends as if each member had been written
 alone, and the flushes still owed always run out with nobody left waiting.
 */
module BatcherProgress {
  import opened BatcherModel
  import opened BatcherHistory
  import opened BatcherRuns

  // ------------------------------------------------------------ poison stays alone

  /** The graph after the first `k` members were written alone, in order, skipping those that raised. */
  ghost function AloneGraph<G(!new), R(!new)>(p: Projection<G, R>, records: seq<R>, g: G, batch: seq<nat>,
                                              verdicts: seq<Verdict>, k: nat): G
    requires Faithful(p) && |verdicts| == |batch| && k <= |batch| && forall i | 0 <= i < |batch| :: batch[i] < |records|
  {
    if k == 0 then g
    else
      var before := AloneGraph(p, records, g, batch, verdicts, k - 1);
      if verdicts[k - 1].Applied? then p.single(before, records[batch[k - 1]]).graph else before
  }

  /** What writing the member alone answers. */
  ghost function AloneAnswer<G(!new), R(!new)>(p: Projection<G, R>, records: seq<R>, g: G, batch: seq<nat>,
                                               verdicts: seq<Verdict>, i: nat): Future
    requires Faithful(p) && |verdicts| == |batch| && i < |batch| && forall k | 0 <= k < |batch| :: batch[k] < |records|
  {
    match verdicts[i]
    case Applied => Value(p.single(AloneGraph(p, records, g, batch, verdicts, i), records[batch[i]]).matched)
    case Raised(reason) => Failed(reason)
  }

  function ReplayEvents<R>(f: nat, verdicts: seq<Verdict>): (es: seq<Event<R>>) {
    if verdicts == [] then [] else [Replays(f, verdicts[0])] + ReplayEvents(f, verdicts[1..])
  }

  /** The batch's first `k` members have been written alone since `s0`; nothing else has moved. */
  ghost predicate Midway<G(!new), R(!new)>(p: Projection<G, R>, s0: State<G, R>, s: State<G, R>, batch: seq<nat>,
                                           verdicts: seq<Verdict>, k: nat)
    requires Faithful(p) && |verdicts| == |batch| && k <= |batch| && forall i | 0 <= i < |batch| ::
                                                                       batch[i] < |s0.records|
  {
    && s.records == s0.records && s.pending == s0.pending && s.timer == s0.timer
        && |s.futures| == |s0.futures| == |s0.records|
    && s.graph == AloneGraph(p, s0.records, s0.graph, batch, verdicts, k)
    && (forall t | 0 <= t < |s0.futures| && t !in batch[..k] :: s.futures[t] == s0.futures[t])
    && (forall i | 0 <= i < k ::
          s.futures[batch[i]] == if s0.futures[batch[i]].Waiting?
              then AloneAnswer(p, s0.records, s0.graph, batch, verdicts, i)
                                 else s0.futures[batch[i]])
  }

  lemma MidwayStep<G(!new), R(!new)>(p: Projection<G, R>, size: nat, s0: State<G, R>, s: State<G, R>, f: nat,
                                     batch: seq<nat>, verdicts: seq<Verdict>, k: nat)
    requires Faithful(p) && InRange(s) && |verdicts| == |batch| && Ascending(batch) && k < |batch|
    requires forall i | 0 <= i < |batch| :: batch[i] < |s0.records|
    requires f in s.flights && s.flights[f] == Replaying(batch, k)
    requires Midway(p, s0, s, batch, verdicts, k)
    ensures Midway(p, s0, Next(p, size, s, Replays(f, verdicts[k])), batch, verdicts, k + 1)
  {
    var s', t := Next(p, size, s, Replays(f, verdicts[k])), batch[k];
    assert batch[..k + 1] == batch[..k] + [t];
    assert t !in batch[..k];
    var w := p.single(s.graph, s.records[t]);
    assert w.matched == (w.counts.enriched > 0);
    assert AloneAnswer(p, s0.records, s0.graph, batch, verdicts, k)
        == if verdicts[k].Applied? then Value(w.counts.enriched > 0) else Failed(verdicts[k].reason);
  }

  lemma RunCons<G(!new), R(!new)>(p: Projection<G, R>, size: nat, s: State<G, R>, e: Event<R>, es: seq<Event<R>>)
    requires Faithful(p) && InRange(s) && Enabled(s, e) && Allowed(p, size, Next(p, size, s, e), es)
    ensures Allowed(p, size, s, [e] + es) && After(p, size, s, [e] + es) == After(p, size, Next(p, size, s, e), es)
  {
    assert ([e] + es)[1..] == es;
  }

  /** One replay turns the flight to its next member, or lands it. */
  lemma ReplayTurns<G(!new), R(!new)>(p: Projection<G, R>, size: nat, s: State<G, R>, f: nat, verdict: Verdict)
    requires Faithful(p) && InRange(s) && f in s.flights && s.flights[f].Replaying?
    ensures var s', batch, k := Next(p, size, s, Replays(f, verdict)), s.flights[f].batch, s.flights[f].next;
            && Land(s'.flights, f) == Land(s.flights, f)
            && (if k + 1 == |batch| then s'.flights == Land(s.flights, f)
                else f in s'.flights && s'.flights[f] == Replaying(batch, k + 1))
  {}

  /** The run replays the rest of the batch and lands the flight. */
  ghost predicate ReplaysRest<G(!new), R(!new)>(p: Projection<G, R>, size: nat, s0: State<G, R>, s: State<G, R>,
                                                es: seq<Event<R>>, f: nat, batch: seq<nat>, verdicts: seq<Verdict>)
    requires Faithful(p) && |verdicts| == |batch| && forall i | 0 <= i < |batch| :: batch[i] < |s0.records|
  {
    && Allowed(p, size, s, es)
    && Midway(p, s0, After(p, size, s, es), batch, verdicts, |batch|)
    && After(p, size, s, es).flights == Land(s.flights, f)
  }

  lemma ReplayFirst<G(!new), R(!new)>(p: Projection<G, R>, size: nat, s0: State<G, R>, s: State<G, R>,
                                      es: seq<Event<R>>, f: nat, batch: seq<nat>, verdicts: seq<Verdict>,
                                      verdict: Verdict)
    requires Faithful(p) && |verdicts| == |batch| && forall i | 0 <= i < |batch| :: batch[i] < |s0.records|
    requires InRange(s) && Enabled(s, Replays(f, verdict))
    requires ReplaysRest(p, size, s0, Next(p, size, s, Replays(f, verdict)), es, f, batch, verdicts)
    ensures ReplaysRest(p, size, s0, s, [Replays(f, verdict)] + es, f, batch, verdicts)
  {
    RunCons(p, size, s, Replays(f, verdict), es);
    ReplayTurns(p, size, s, f, verdict);
  }

  lemma {:induction false} ReplayRun<G(!new), R(!new)>(p: Projection<G, R>, size: nat, s0: State<G, R>, s: State<G, R>,
                                                       f: nat, batch: seq<nat>, verdicts: seq<Verdict>, k: nat)
    requires Faithful(p) && size > 0 && Queued(s, size) && |verdicts| == |batch| && Ascending(batch) && k < |batch|
    requires forall i | 0 <= i < |batch| :: batch[i] < |s0.records|
    requires f in s.flights && s.flights[f] == Replaying(batch, k)
    requires Midway(p, s0, s, batch, verdicts, k)
    ensures ReplaysRest(p, size, s0, s, ReplayEvents(f, verdicts[k..]), f, batch, verdicts)
    decreases |batch| - k
  {
    QueuedInRange(s, size);
    var e: Event<R> := Replays(f, verdicts[k]);
    var s', rest := Next(p, size, s, e), verdicts[k + 1..];
    MidwayStep(p, size, s0, s, f, batch, verdicts, k);
    ReplayTurns(p, size, s, f, verdicts[k]);
    assert verdicts[k..] == [verdicts[k]] + rest && verdicts[k..][1..] == rest;
    if k + 1 < |batch| {
      NextKeepsQueued(p, size, s, e);
      ReplayRun(p, size, s0, s', f, batch, verdicts, k + 1);
    } else {
      assert Land(s'.flights, f) == s'.flights;
    }
    ReplayFirst(p, size, s0, s, ReplayEvents(f, rest), f, batch, verdicts, verdicts[k]);
  }

  /**
   A batch of two or more that is rejected, then replayed with any verdicts: the graph is the in-order
   fold of the members that succeeded, each caller still waiting gets exactly what writing its record
   alone gives, and no other delivery is touched.
   */
  lemma PoisonIsIsolated<G(!new), R(!new)>(p: Projection<G, R>, size: nat, s: State<G, R>, f: nat,
                                           verdicts: seq<Verdict>)
    requires Faithful(p) && size > 0 && Queued(s, size) && f in s.flights && s.flights[f].Committing?
    requires |verdicts| == |s.flights[f].batch| > 1
    ensures forall i | 0 <= i < |s.flights[f].batch| :: s.flights[f].batch[i] < |s.records| == |s.futures|
    ensures var batch, es := s.flights[f].batch, [Rejected(f)] + ReplayEvents(f, verdicts);
            && Allowed(p, size, s, es)
            && var after := After(p, size, s, es);
            && |after.futures| == |s.futures|
            && after.graph == AloneGraph(p, s.records, s.graph, batch, verdicts, |batch|)
            && (forall i | 0 <= i < |batch| :: after.futures[batch[i]] ==
                  if s.futures[batch[i]].Waiting? then AloneAnswer(p, s.records, s.graph, batch, verdicts, i)
                      else s.futures[batch[i]])
            && (forall t | 0 <= t < |s.futures| && t !in batch :: after.futures[t] == s.futures[t])
            && after.pending == s.pending && after.flights == Land(s.flights, f)
  {
    var batch := s.flights[f].batch;
    assert FlightOk(s.flights[f], size, |s.futures|);
    Rejecting(p, size, s, f, verdicts);
    var s' := Next(p, size, s, Rejected(f));
    assert verdicts[0..] == verdicts && batch[..|batch|] == batch;
    ReplayRun(p, size, s, s', f, batch, verdicts, 0);
    RunCons(p, size, s, Rejected(f), ReplayEvents(f, verdicts));
    assert Land(s'.flights, f) == Land(s.flights, f);
  }

  lemma Rejecting<G(!new), R(!new)>(p: Projection<G, R>, size: nat, s: State<G, R>, f: nat, verdicts: seq<Verdict>)
    requires Faithful(p) && size > 0 && Queued(s, size) && f in s.flights && s.flights[f].Committing?
    requires |verdicts| == |s.flights[f].batch| > 1
    ensures InRange(s) && Enabled(s, Rejected(f))
    ensures var batch, s' := s.flights[f].batch, Next(p, size, s, Rejected(f));
            && Queued(s', size) && s' == s.(flights := s.flights[f := Replaying(batch, 0)])
            && (forall i | 0 <= i < |batch| :: batch[i] < |s.records|)
            && Midway(p, s, s', batch, verdicts, 0)
  {
    QueuedInRange(s, size);
    assert FlightOk(s.flights[f], size, |s.futures|);
    var rejected: Event<R> := Rejected(f);
    NextKeepsQueued(p, size, s, rejected);
  }

  /** What a failed flush tells its members. */
  ghost function ReasonOf<R>(e: Event<R>): Reason {
    if e.Unavailable? then Outage else if e.FlushCancelled? then Stopped else Poison
  }

  /**
   An outage, a stop, or a lone poison record writes nothing, counts nothing and replays nothing: each
   member still waiting is told the reason, and nobody else is touched.
   */
  lemma FailureWritesNothing<G(!new), R(!new)>(p: Projection<G, R>, size: nat, s: State<G, R>, f: nat, e: Event<R>)
    requires Faithful(p) && Queued(s, size) && InRange(s) && Enabled(s, e)
    requires e == Unavailable(f) || e == FlushCancelled(f) || (e == Rejected(f) && |s.flights[f].batch| == 1)
    ensures var s' := Next(p, size, s, e);
            && s'.graph == s.graph && s'.totals == s.totals && s'.log == s.log && f !in s'.flights
            && s'.pending == s.pending && s'.timer == s.timer && |s'.futures| == |s.futures|
            && (forall t | 0 <= t < |s.futures| ::
                  s'.futures[t] == if t in s.flights[f].batch && s.futures[t].Waiting? then Failed(ReasonOf(e))
                                   else s.futures[t])
  {
    assert FlightOk(s.flights[f], size, |s.futures|);
  }

  // ------------------------------------------------------------ and stays alone in every run

  /** The delivery is a member of a rejected batch, not yet written again, and its caller still waits. */
  ghost predicate AwaitsReplay<G, R>(s: State<G, R>, f: nat, t: nat) {
    && t < |s.futures| == |s.records| && s.futures[t].Waiting?
    && f in s.flights && s.flights[f].Replaying? && t in Rest(s.flights[f])
  }

  /** What writing the record alone answers, in the graph as it then is. */
  ghost function SingleAnswer<G(!new), R(!new)>(p: Projection<G, R>, s: State<G, R>, t: nat, verdict: Verdict): Future
    requires Faithful(p) && t < |s.records|
  {
    match verdict
    case Applied => Value(p.single(s.graph, s.records[t]).matched)
    case Raised(reason) => Failed(reason)
  }

  /** The event decides the delivery: its caller goes away, or its own turn comes and its own write answers. */
  ghost predicate DecidedAlone<G(!new), R(!new)>(p: Projection<G, R>, s: State<G, R>, e: Event<R>, f: nat, t: nat,
                                                 future: Future)
    requires Faithful(p) && t < |s.records|
  {
    || (e == CallerCancels(t) && future == Cancelled)
    || (e.Replays? && e.flight == f && f in s.flights && s.flights[f].Replaying?
        && s.flights[f].next < |s.flights[f].batch|
        && s.flights[f].batch[s.flights[f].next] == t && future == SingleAnswer(p, s, t, e.verdict))
  }

  /** No event but its own replays touches a flight being replayed. */
  lemma FlightStays<G(!new), R(!new)>(p: Projection<G, R>, size: nat, s: State<G, R>, e: Event<R>, f: nat)
    requires Faithful(p) && size > 0 && Queued(s, size) && InRange(s) && Enabled(s, e)
    requires f in s.flights && s.flights[f].Replaying? && !(e.Replays? && e.flight == f)
    ensures f in Next(p, size, s, e).flights && Next(p, size, s, e).flights[f] == s.flights[f]
  {
    assert f < s.launched;
  }

  /** A flight that settles futures settles its own members' only. */
  lemma OtherFlightsSpare<G, R>(s: State<G, R>, size: nat, f: nat, g: nat, t: nat)
    requires Queued(s, size) && AwaitsReplay(s, f, t) && g in s.flights && g != f
    ensures t !in s.flights[g].batch
  {
    OnePlace(s, size, t);
    assert t in s.flights[f].batch;
  }

  lemma CommitSpares<G(!new), R(!new)>(p: Projection<G, R>, size: nat, s: State<G, R>, f: nat, g: nat, t: nat)
    requires Faithful(p) && Queued(s, size) && InRange(s) && AwaitsReplay(s, f, t) && Enabled(s, Commits(g))
    ensures Next(p, size, s, Commits(g)).futures[t].Waiting?
  {
    OtherFlightsSpare(s, size, f, g, t);
    assert FlightOk(s.flights[g], size, |s.futures|);
    SettleFlagsSettles(s.futures, s.flights[g].batch, p.batch(s.graph, RecordsOf(s.records, s.flights[g].batch)).flags);
  }

  lemma ReplaySpares<G(!new), R(!new)>(p: Projection<G, R>, size: nat, s: State<G, R>, f: nat, g: nat, t: nat,
                                       verdict: Verdict)
    requires Faithful(p) && Queued(s, size) && InRange(s) && AwaitsReplay(s, f, t) && Enabled(s, Replays(g, verdict))
             && g != f
    ensures Next(p, size, s, Replays(g, verdict)).futures[t].Waiting?
  {
    OtherFlightsSpare(s, size, f, g, t);
    assert s.flights[g].batch[s.flights[g].next] in s.flights[g].batch;
  }

  lemma FutureStays<G(!new), R(!new)>(p: Projection<G, R>, size: nat, s: State<G, R>, e: Event<R>, f: nat, t: nat)
    requires Faithful(p) && size > 0 && Queued(s, size) && InRange(s) && Enabled(s, e) && AwaitsReplay(s, f, t)
    requires !(e.Replays? && e.flight == f) && e != CallerCancels(t)
    ensures t < |Next(p, size, s, e).futures| && Next(p, size, s, e).futures[t].Waiting?
  {
    match e
    case Commits(g) => CommitSpares(p, size, s, f, g, t);
    case Replays(g, verdict) => ReplaySpares(p, size, s, f, g, t, verdict);
    case Unavailable(g) => OtherFlightsSpare(s, size, f, g, t);
    case FlushCancelled(g) => OtherFlightsSpare(s, size, f, g, t);
    case Rejected(g) => OtherFlightsSpare(s, size, f, g, t);
    case _ =>
  }

  lemma RecordsStay<G(!new), R(!new)>(p: Projection<G, R>, size: nat, s: State<G, R>, e: Event<R>, t: nat)
    requires Faithful(p) && InRange(s) && Enabled(s, e) && t < |s.records|
    ensures var s' := Next(p, size, s, e);
            |s'.records| == |s'.futures| && t < |s'.records| && s'.records[t] == s.records[t]
  {
    if e.Commits? {
      var flags := p.batch(s.graph, RecordsOf(s.records, s.flights[e.flight].batch)).flags;
      assert |SettleFlags(s.futures, s.flights[e.flight].batch, flags)| == |s.futures|;
    }
  }

  /** Its own flight's replay decides the member whose turn it is and moves on. */
  lemma ReplayTurn<G(!new), R(!new)>(p: Projection<G, R>, size: nat, s: State<G, R>, f: nat, t: nat, verdict: Verdict)
    requires Faithful(p) && Queued(s, size) && InRange(s) && Enabled(s, Replays(f, verdict)) && AwaitsReplay(s, f, t)
    ensures var s' := Next(p, size, s, Replays(f, verdict));
            && |s'.futures| == |s.futures|
            && (if s'.futures[t].Waiting? then AwaitsReplay(s', f, t)
                else DecidedAlone(p, s, Replays(f, verdict), f, t, s'.futures[t]))
  {
    var batch, k := s.flights[f].batch, s.flights[f].next;
    if t == batch[k] {
      var w := p.single(s.graph, s.records[t]);
      assert w.matched == (w.counts.enriched > 0);
    } else {
      RestStep(batch, k, t);
      ReplayTurns(p, size, s, f, verdict);
    }
  }

  /** Whatever happens, a member keeps its place, or is decided by its caller or by its own write alone. */
  lemma ReplayMemberStep<G(!new), R(!new)>(p: Projection<G, R>, size: nat, s: State<G, R>, e: Event<R>, f: nat, t: nat)
    requires Faithful(p) && size > 0 && Queued(s, size) && InRange(s) && Enabled(s, e) && AwaitsReplay(s, f, t)
    ensures var s' := Next(p, size, s, e);
            && t < |s'.futures| == |s'.records| && s'.records[t] == s.records[t]
            && (if s'.futures[t].Waiting? then AwaitsReplay(s', f, t) else DecidedAlone(p, s, e, f, t, s'.futures[t]))
  {
    RecordsStay(p, size, s, e, t);
    if e.Replays? && e.flight == f {
      ReplayTurn(p, size, s, f, t, e.verdict);
    } else {
      FlightStays(p, size, s, e, f);
      if e != CallerCancels(t) { FutureStays(p, size, s, e, f, t); }
    }
  }

  lemma {:induction false} DecidedStays<G(!new), R(!new)>(p: Projection<G, R>, size: nat, s: State<G, R>,
                                                          es: seq<Event<R>>, t: nat)
    requires Faithful(p) && size > 0 && Queued(s, size) && Allowed(p, size, s, es) && t < |s.futures|
             && !s.futures[t].Waiting?
    ensures var after := After(p, size, s, es);
            && t < |after.futures|
            && (after.futures[t] == s.futures[t]
                || (s.futures[t].Value? && after.futures[t] == Reported(s.futures[t].matched)))
    decreases |es|
  {
    if es != [] {
      QueuedInRange(s, size);
      NextKeepsQueued(p, size, s, es[0]);
      DecidedOnce(p, size, s, es[0], t);
      DecidedStays(p, size, Next(p, size, s, es[0]), es[1..], t);
    }
  }

  lemma PrefixAllowed<G(!new), R(!new)>(p: Projection<G, R>, size: nat, s: State<G, R>, es: seq<Event<R>>, i: nat)
    requires Faithful(p) && Allowed(p, size, s, es) && i < |es| && InRange(s) && es != []
    requires i > 0 ==> Allowed(p, size, Next(p, size, s, es[0]), es[1..][..i - 1])
    ensures Allowed(p, size, s, es[..i])
    ensures i > 0 ==> After(p, size, s, es[..i]) == After(p, size, Next(p, size, s, es[0]), es[1..][..i - 1])
    ensures i == 0 ==> After(p, size, s, es[..i]) == s
  {
    if i > 0 {
      assert es[..i][0] == es[0] && es[..i][1..] == es[1..][..i - 1];
    }
  }

  /**
   In every run, with other flushes, submissions and cancellations interleaved as they may be: a waiting
   member of a rejected batch still waits for its turn, or one event decided it for good, and that was
   its own caller going away or its own write, answering what writing it alone then answers.
   */
  lemma {:induction false} MembersAreWrittenAlone<G(!new), R(!new)>(p: Projection<G, R>, size: nat, s: State<G, R>,
                                                                    es: seq<Event<R>>, f: nat, t: nat)
    returns (i: nat)
    requires Faithful(p) && size > 0 && Queued(s, size) && Allowed(p, size, s, es) && AwaitsReplay(s, f, t)
    ensures i <= |es|
    ensures i == |es| ==> AwaitsReplay(After(p, size, s, es), f, t)
    ensures i < |es| ==>
              && Allowed(p, size, s, es[..i])
              && var before, after := After(p, size, s, es[..i]), After(p, size, s, es);
              && t < |before.records| && before.records[t] == s.records[t] && t < |after.futures|
              && exists future ::
                   && DecidedAlone(p, before, es[i], f, t, future)
                   && (after.futures[t] == future || (future.Value? && after.futures[t] == Reported(future.matched)))
    decreases |es|
  {
    if es == [] {
      i := 0;
    } else {
      QueuedInRange(s, size);
      NextKeepsQueued(p, size, s, es[0]);
      ReplayMemberStep(p, size, s, es[0], f, t);
      var s1, rest := Next(p, size, s, es[0]), es[1..];
      if s1.futures[t].Waiting? {
        var j := MembersAreWrittenAlone(p, size, s1, rest, f, t);
        i := j + 1;
        if j < |rest| {
          assert es[i] == rest[j];
          PrefixAllowed(p, size, s, es, i);
        }
      } else {
        i := 0;
        assert es[..0] == [];
        DecidedStays(p, size, s1, rest, t);
        assert After(p, size, s, es) == After(p, size, s1, rest);
        assert DecidedAlone(p, s, es[0], f, t, s1.futures[t]);
      }
    }
  }

  // ------------------------------------------------------------ nothing is stranded

  function Weight(f: Flight): nat {
    match f
    case Committing(batch) => |batch| + 1
    case Replaying(batch, next) => if next <= |batch| then |batch| - next else 0
  }

  function WeightBelow(flights: map<nat, Flight>, n: nat): nat {
    if n == 0 then 0 else WeightBelow(flights, n - 1) + (if n - 1 in flights then Weight(flights[n - 1]) else 0)
  }

  /** The flush steps still owed: a queued delivery owes up to three, a flight one for each untried member. */
  function Owed<G, R>(s: State<G, R>): nat { 3 * |s.pending| + WeightBelow(s.flights, s.launched) }

  /** The events of the flushes themselves, as opposed to callers coming and going. */
  predicate IsFlush<R>(e: Event<R>) {
    e.TimerFires? || e.Commits? || e.Unavailable? || e.Rejected? || e.Replays? || e.FlushCancelled?
  }

  lemma {:induction false} WeightChanges(flights: map<nat, Flight>, after: map<nat, Flight>, f: nat, n: nat)
    requires forall g: nat | g != f :: (g in flights <==> g in after) && (g in flights ==> flights[g] == after[g])
    ensures WeightBelow(after, n) + (if f < n && f in flights then Weight(flights[f]) else 0)
         == WeightBelow(flights, n) + (if f < n && f in after then Weight(after[f]) else 0)
  {
    if n > 0 {
      WeightChanges(flights, after, f, n - 1);
    }
  }

  lemma {:induction false} WeightFound(flights: map<nat, Flight>, n: nat) returns (f: nat)
    requires WeightBelow(flights, n) > 0
    ensures f < n && f in flights
  {
    if n - 1 in flights { f := n - 1; } else { f := WeightFound(flights, n - 1); }
  }

  lemma {:induction false} NoWeightNoFlight(flights: map<nat, Flight>, n: nat, f: nat)
    requires WeightBelow(flights, n) == 0 && f < n && f in flights
    ensures Weight(flights[f]) == 0
  {
    if f < n - 1 { NoWeightNoFlight(flights, n - 1, f); }
  }

  lemma FlushOwesLess<G, R>(s: State<G, R>, size: nat)
    requires Filled(s, size)
    ensures Owed(FlushNow(s, size)) < Owed(s)
  {
    var after, live := FlushNow(s, size), Live(s.futures, s.pending);
    assert s.pending[..|s.pending|] == s.pending;
    LiveIsLive(s.futures, s.pending);
    assert s.launched !in s.flights;
    if live != [] {
      WeightChanges(s.flights, after.flights, s.launched, s.launched + 1);
    }
  }

  /** A flight that lands or turns to a smaller one owes less. */
  lemma LighterOwesLess(flights: map<nat, Flight>, after: map<nat, Flight>, f: nat, n: nat)
    requires f < n && f in flights
    requires forall g: nat | g != f :: (g in flights <==> g in after) && (g in flights ==> flights[g] == after[g])
    requires 0 < Weight(flights[f]) && (f in after ==> Weight(after[f]) < Weight(flights[f]))
    ensures WeightBelow(after, n) < WeightBelow(flights, n)
  {
    WeightChanges(flights, after, f, n);
  }

  lemma LandingOwesLess(flights: map<nat, Flight>, f: nat, n: nat)
    requires f < n && f in flights && 0 < Weight(flights[f])
    ensures WeightBelow(Land(flights, f), n) < WeightBelow(flights, n)
  {
    LighterOwesLess(flights, Land(flights, f), f, n);
  }

  lemma TurningOwesLess(flights: map<nat, Flight>, f: nat, flight: Flight, n: nat)
    requires f < n && f in flights && Weight(flight) < Weight(flights[f])
    ensures WeightBelow(flights[f := flight], n) < WeightBelow(flights, n)
  {
    LighterOwesLess(flights, flights[f := flight], f, n);
  }

  lemma FlushStepOwesLess<G(!new), R(!new)>(p: Projection<G, R>, size: nat, s: State<G, R>, e: Event<R>)
    requires Faithful(p) && Queued(s, size) && InRange(s) && Enabled(s, e) && IsFlush(e) && !e.TimerFires?
    ensures Owed(Next(p, size, s, e)) < Owed(s)
  {
    var f := e.flight;
    var batch := s.flights[f].batch;
    assert FlightOk(s.flights[f], size, |s.futures|) && f < s.launched;
    if e.Rejected? && |batch| > 1 {
      TurningOwesLess(s.flights, f, Replaying(batch, 0), s.launched);
    } else if e.Replays? && s.flights[f].next + 1 < |batch| {
      TurningOwesLess(s.flights, f, Replaying(batch, s.flights[f].next + 1), s.launched);
    } else {
      LandingOwesLess(s.flights, f, s.launched);
    }
  }

  lemma NextOwes<G(!new), R(!new)>(p: Projection<G, R>, size: nat, s: State<G, R>, e: Event<R>)
    requires Faithful(p) && size > 0 && Queued(s, size) && InRange(s) && Enabled(s, e) && !e.Submit?
    ensures if IsFlush(e) then Owed(Next(p, size, s, e)) < Owed(s) else Owed(Next(p, size, s, e)) == Owed(s)
  {
    if e.TimerFires? {
      FlushOwesLess(s, size);
    } else if IsFlush(e) {
      FlushStepOwesLess(p, size, s, e);
    }
  }

  function FlushSteps<R>(es: seq<Event<R>>): nat {
    if es == [] then 0 else (if IsFlush(es[0]) then 1 else 0) + FlushSteps(es[1..])
  }

  /** While anything is owed some flush step can happen. */
  lemma OwedCanStep<G(!new), R(!new)>(size: nat, s: State<G, R>)
    requires Queued(s, size) && Owed(s) > 0
    ensures exists e: Event<R> :: IsFlush(e) && Enabled(s, e)
  {
    if s.pending != [] {
      assert Enabled(s, Event<R>.TimerFires) && IsFlush(Event<R>.TimerFires);
    } else {
      var f := WeightFound(s.flights, s.launched);
      if s.flights[f].Committing? {
        assert Enabled(s, Event<R>.Commits(f)) && IsFlush(Event<R>.Commits(f));
      } else {
        assert Enabled(s, Event<R>.Replays(f, Applied)) && IsFlush(Event<R>.Replays(f, Applied));
      }
    }
  }

  lemma NothingOwedNobodyWaits<G, R>(size: nat, s: State<G, R>, t: nat)
    requires Queued(s, size) && Owed(s) == 0 && t < |s.futures|
    ensures !s.futures[t].Waiting?
  {
    if s.futures[t].Waiting? {
      assert Placed(s, t);
      var f :| f in s.flights && t in Rest(s.flights[f]);
      NoWeightNoFlight(s.flights, s.launched, f);
    }
  }

  ghost predicate NoFlushCanStep<G(!new), R(!new)>(s: State<G, R>) {
    forall e: Event<R> | IsFlush(e) :: !Enabled(s, e)
  }

  ghost predicate NobodyWaits<G, R>(s: State<G, R>) {
    forall t | 0 <= t < |s.futures| :: !s.futures[t].Waiting?
  }

  lemma NoStepNobodyWaits<G(!new), R(!new)>(size: nat, s: State<G, R>)
    requires Queued(s, size) && NoFlushCanStep(s)
    ensures NobodyWaits(s)
  {
    if Owed(s) > 0 {
      OwedCanStep(size, s);
    } else {
      forall t | 0 <= t < |s.futures| ensures !s.futures[t].Waiting? { NothingOwedNobodyWaits(size, s, t); }
    }
  }

  /**
   With no new submissions, however the remaining events fall, only so many flush steps happen, and
   once none can, nobody is waiting.
   */
  lemma {:induction false} NothingIsStranded<G(!new), R(!new)>(p: Projection<G, R>, size: nat, s: State<G, R>,
                                                               es: seq<Event<R>>)
    requires Faithful(p) && size > 0 && Queued(s, size) && Allowed(p, size, s, es)
    requires forall i | 0 <= i < |es| :: !es[i].Submit?
    ensures FlushSteps(es) <= Owed(s)
    ensures NoFlushCanStep(After(p, size, s, es)) ==> NobodyWaits(After(p, size, s, es))
    decreases |es|
  {
    if es == [] {
      if NoFlushCanStep(s) { NoStepNobodyWaits(size, s); }
    } else {
      var s1, rest := Next(p, size, s, es[0]), es[1..];
      NextKeepsQueued(p, size, s, es[0]);
      NextOwes(p, size, s, es[0]);
      assert forall i | 0 <= i < |rest| :: rest[i] == es[i + 1];
      NothingIsStranded(p, size, s1, rest);
      assert After(p, size, s, es) == After(p, size, s1, rest);
    }
  }

  // ------------------------------------------------------------ a delivery given up in time

  /** The caller has gone and no flight holds the delivery. */
  ghost predicate GivenUp<G, R>(s: State<G, R>, t: nat) {
    && t < |s.futures| && s.futures[t].Cancelled? && !InLog(s.log, t)
    && forall f | f in s.flights :: t !in s.flights[f].batch
  }

  lemma FlushSparesGivenUp<G, R>(s: State<G, R>, size: nat, t: nat)
    requires Filled(s, size) && GivenUp(s, t)
    ensures GivenUp(FlushNow(s, size), t)
  {
    assert s.pending[..|s.pending|] == s.pending;
    LiveIsLive(s.futures, s.pending);
  }

  lemma GivenUpStays<G(!new), R(!new)>(p: Projection<G, R>, size: nat, s: State<G, R>, e: Event<R>, t: nat)
    requires Faithful(p) && size > 0 && Queued(s, size) && InRange(s) && Enabled(s, e) && GivenUp(s, t)
    ensures GivenUp(Next(p, size, s, e), t)
  {
    var s' := Next(p, size, s, e);
    DecidedOnce(p, size, s, e, t);
    match e
    case Submit(r) =>
      SubmitFills(s, r, size);
      var queued := s.(records := s.records + [r], futures := s.futures + [Waiting],
                       pending := s.pending + [|s.futures|]);
      if |queued.pending| >= size { FlushSparesGivenUp(queued, size, t); }
    case TimerFires => FlushSparesGivenUp(s, size, t);
    case Commits(f) =>
      LogGrows(s.log, Together(s.flights[f].batch, p.batch(s.graph, RecordsOf(s.records, s.flights[f].batch)).flags),
               t, true);
    case Replays(f, verdict) =>
      var done := s.flights[f].batch[s.flights[f].next];
      assert done in s.flights[f].batch;
      LogGrows(s.log, Alone(done, p.single(s.graph, s.records[done]).matched), t, true);
    case Direct(r, _) => LogGrows(s.log, Alone(|s.futures|, p.single(s.graph, r).matched), t, true);
    case _ =>
  }

  /** A delivery whose caller leaves while it is still queued is never written, however the run goes on. */
  lemma {:induction false} GivenUpIsNeverWritten<G(!new), R(!new)>(p: Projection<G, R>, size: nat, g0: G,
                                                                   s: State<G, R>, es: seq<Event<R>>, t: nat)
    requires Faithful(p) && size > 0 && Sound(p, size, g0, s) && Allowed(p, size, s, es) && GivenUp(s, t)
    ensures GivenUp(After(p, size, s, es), t)
    decreases |es|
  {
    if es != [] {
      GivenUpStays(p, size, s, es[0], t);
      NextKeepsSound(p, size, g0, s, es[0]);
      GivenUpIsNeverWritten(p, size, g0, Next(p, size, s, es[0]), es[1..], t);
    }
  }

  /** Leaving while queued is giving up. */
  lemma QueuedCancelGivesUp<G(!new), R(!new)>(p: Projection<G, R>, size: nat, g0: G, s: State<G, R>, t: nat)
    requires Faithful(p) && Sound(p, size, g0, s) && InRange(s) && t in s.pending
    requires t < |s.futures| && (s.futures[t].Waiting? || s.futures[t].Cancelled?)
    ensures GivenUp(Next(p, size, s, CallerCancels(t)), t)
  {
    assert TicketOk(s, t) && Placed(s, t);
    OnePlace(s, size, t);
  }
}
