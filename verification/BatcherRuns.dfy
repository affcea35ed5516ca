/**
 Whole runs of the write batcher: conservation of deliveries, commit before answer, statistics,
 isolation of a poison record, and nothing left stranded.
 */
module BatcherRuns {
  import opened EntityGate
  import opened BatcherModel
  import opened BatcherHistory

  // ------------------------------------------------------------ what the log amounts to

  /** The graph one logged transaction leaves. */
  ghost function GraphWith<G(!new), R(!new)>(p: Projection<G, R>, records: seq<R>, g: G, c: Committed): G
    requires Faithful(p) && EntryOk(c, |records|)
  {
    match c
    case Together(tickets, _) => p.batch(g, RecordsOf(records, tickets)).graph
    case Alone(ticket, _) => p.single(g, records[ticket]).graph
  }

  /** The graph after the logged transactions, applied in commit order. */
  ghost function GraphAfter<G(!new), R(!new)>(p: Projection<G, R>, records: seq<R>, g0: G, log: seq<Committed>): G
    requires Faithful(p) && LogOk(log, |records|)
  {
    if log == [] then g0
    else GraphWith(p, records, GraphAfter(p, records, g0, log[..|log| - 1]), log[|log| - 1])
  }

  /** What one transaction's own write counted. */
  ghost function OwnCounts<G(!new), R(!new)>(p: Projection<G, R>, records: seq<R>, g: G, c: Committed): Stats
    requires Faithful(p) && EntryOk(c, |records|)
  {
    match c
    case Together(tickets, _) => p.batch(g, RecordsOf(records, tickets)).counts
    case Alone(ticket, _) => p.single(g, records[ticket]).counts
  }

  /** One counter, added up over the logged transactions' own writes. */
  ghost function SumOf<G(!new), R(!new)>(p: Projection<G, R>, records: seq<R>, g0: G, log: seq<Committed>,
                                         counter: Stats -> int): int
    requires Faithful(p) && LogOk(log, |records|)
  {
    if log == [] then 0
    else
      var front, last := log[..|log| - 1], log[|log| - 1];
      SumOf(p, records, g0, front, counter) + counter(OwnCounts(p, records, GraphAfter(p, records, g0, front), last))
  }

  function CreatedIn(stats: Stats): int { stats.created }
  function UpdatedIn(stats: Stats): int { stats.updated }
  function MissingIn(stats: Stats): int { stats.missing }
  function ReplaysIn(stats: Stats): int { stats.replays }

  /** Each write counter is the sum of what the logged transactions counted. */
  ghost predicate SumsUp<G(!new), R(!new)>(p: Projection<G, R>, records: seq<R>, g0: G, log: seq<Committed>,
                                           totals: Stats)
    requires Faithful(p) && LogOk(log, |records|)
  {
    && totals.created == SumOf(p, records, g0, log, CreatedIn)
    && totals.updated == SumOf(p, records, g0, log, UpdatedIn)
    && totals.missing == SumOf(p, records, g0, log, MissingIn)
    && totals.replays == SumOf(p, records, g0, log, ReplaysIn)
  }

  /** The answers the projection gave inside the transaction. */
  ghost predicate Answers<G(!new), R(!new)>(p: Projection<G, R>, records: seq<R>, g: G, c: Committed)
    requires Faithful(p) && EntryOk(c, |records|)
  {
    match c
    case Together(tickets, flags) => flags == p.batch(g, RecordsOf(records, tickets)).flags
    case Alone(ticket, flag) => flag == p.single(g, records[ticket]).matched
  }

  ghost predicate Genuine<G(!new), R(!new)>(p: Projection<G, R>, records: seq<R>, g0: G, log: seq<Committed>)
    requires Faithful(p) && LogOk(log, |records|)
  {
    forall i | 0 <= i < |log| :: Answers(p, records, GraphAfter(p, records, g0, log[..i]), log[i])
  }

  function CountReported(futures: seq<Future>, b: bool): nat {
    if futures == [] then 0
    else CountReported(futures[..|futures| - 1], b) + (if futures[|futures| - 1] == Reported(b) then 1 else 0)
  }

  /** The graph and the write counters are the committed transactions', and each gave the answers logged. */
  ghost predicate HistoryOk<G(!new), R(!new)>(p: Projection<G, R>, records: seq<R>, g0: G, log: seq<Committed>,
                                              graph: G, totals: Stats)
    requires Faithful(p)
  {
    LogOk(log, |records|) && GraphAfter(p, records, g0, log) == graph && SumsUp(p, records, g0, log, totals)
    && Genuine(p, records, g0, log)
  }

  /** Each reported delivery is counted once. */
  predicate CountsOk(futures: seq<Future>, totals: Stats) {
    totals.enriched == CountReported(futures, true) && totals.skipped == CountReported(futures, false)
  }

  ghost predicate Accounted<G(!new), R(!new)>(p: Projection<G, R>, g0: G, s: State<G, R>)
    requires Faithful(p)
  {
    HistoryOk(p, s.records, g0, s.log, s.graph, s.totals) && CountsOk(s.futures, s.totals)
  }

  /** Records that arrive later change nothing about what was committed. */
  lemma {:induction false} HistoryStable<G(!new), R(!new)>(p: Projection<G, R>, records: seq<R>, more: seq<R>, g0: G,
                                                           log: seq<Committed>, counter: Stats -> int)
    requires Faithful(p) && LogOk(log, |records|)
    ensures LogOk(log, |records + more|)
    ensures GraphAfter(p, records + more, g0, log) == GraphAfter(p, records, g0, log)
    ensures SumOf(p, records + more, g0, log, counter) == SumOf(p, records, g0, log, counter)
  {
    forall i | 0 <= i < |log| ensures EntryOk(log[i], |records + more|) { assert EntryOk(log[i], |records|); }
    if log != [] {
      var n := |log| - 1;
      assert EntryOk(log[n], |records|);
      HistoryStable(p, records, more, g0, log[..n], counter);
      if log[n].Together? {
        assert RecordsOf(records + more, log[n].tickets) == RecordsOf(records, log[n].tickets);
      }
    }
  }

  lemma SumsStable<G(!new), R(!new)>(p: Projection<G, R>, records: seq<R>, more: seq<R>, g0: G, log: seq<Committed>,
                                     totals: Stats)
    requires Faithful(p) && LogOk(log, |records|) && SumsUp(p, records, g0, log, totals)
    ensures LogOk(log, |records + more|) && SumsUp(p, records + more, g0, log, totals)
  {
    HistoryStable(p, records, more, g0, log, CreatedIn);
    HistoryStable(p, records, more, g0, log, UpdatedIn);
    HistoryStable(p, records, more, g0, log, MissingIn);
    HistoryStable(p, records, more, g0, log, ReplaysIn);
  }

  lemma GenuineStable<G(!new), R(!new)>(p: Projection<G, R>, records: seq<R>, more: seq<R>, g0: G, log: seq<Committed>)
    requires Faithful(p) && LogOk(log, |records|) && Genuine(p, records, g0, log)
    ensures LogOk(log, |records + more|) && Genuine(p, records + more, g0, log)
  {
    HistoryStable(p, records, more, g0, log, CreatedIn);
    forall i | 0 <= i < |log| ensures Answers(p, records + more, GraphAfter(p, records + more, g0, log[..i]), log[i]) {
      HistoryStable(p, records, more, g0, log[..i], CreatedIn);
      assert EntryOk(log[i], |records|);
      if log[i].Together? {
        assert RecordsOf(records + more, log[i].tickets) == RecordsOf(records, log[i].tickets);
      }
    }
  }

  lemma GenuineGrows<G(!new), R(!new)>(p: Projection<G, R>, records: seq<R>, g0: G, log: seq<Committed>, c: Committed)
    requires Faithful(p) && LogOk(log, |records|) && EntryOk(c, |records|) && Genuine(p, records, g0, log)
    requires Answers(p, records, GraphAfter(p, records, g0, log), c)
    ensures LogOk(log + [c], |records|) && Genuine(p, records, g0, log + [c])
    ensures GraphAfter(p, records, g0, log + [c]) == GraphWith(p, records, GraphAfter(p, records, g0, log), c)
  {
    var longer := log + [c];
    assert LogOk(longer, |records|);
    assert longer[..|log|] == log;
    forall i | 0 <= i < |longer| ensures Answers(p, records, GraphAfter(p, records, g0, longer[..i]), longer[i]) {
      if i < |log| {
        assert longer[..i] == log[..i] && longer[i] == log[i];
      }
    }
  }

  lemma SumsGrow<G(!new), R(!new)>(p: Projection<G, R>, records: seq<R>, g0: G, log: seq<Committed>, c: Committed,
                                   totals: Stats, totals': Stats)
    requires Faithful(p) && LogOk(log, |records|) && EntryOk(c, |records|) && SumsUp(p, records, g0, log, totals)
    requires Adds(totals, OwnCounts(p, records, GraphAfter(p, records, g0, log), c), totals')
    ensures LogOk(log + [c], |records|) && SumsUp(p, records, g0, log + [c], totals')
  {
    var longer := log + [c];
    assert LogOk(longer, |records|);
    assert longer[..|longer| - 1] == log && longer[|longer| - 1] == c;
  }

  // ------------------------------------------------------------ counting deliveries

  lemma {:induction false} SameReports(before: seq<Future>, after: seq<Future>, b: bool)
    requires |before| == |after|
    requires forall t | 0 <= t < |before| :: before[t].Reported? || after[t].Reported? ==> before[t] == after[t]
    ensures CountReported(before, b) == CountReported(after, b)
  {
    if before != [] {
      SameReports(before[..|before| - 1], after[..|after| - 1], b);
    }
  }

  lemma {:induction false} OneMoreReport(futures: seq<Future>, t: nat, matched: bool, b: bool)
    requires t < |futures| && !futures[t].Reported?
    ensures CountReported(futures[t := Reported(matched)], b) ==
              CountReported(futures, b) + if matched == b then 1 else 0
  {
    var n, after := |futures| - 1, futures[t := Reported(matched)];
    if t == n {
      assert after[..n] == futures[..n];
    } else {
      OneMoreReport(futures[..n], t, matched, b);
      assert after[..n] == futures[..n][t := Reported(matched)];
    }
  }

  lemma ReportsGrow(futures: seq<Future>, f: Future, b: bool)
    ensures CountReported(futures + [f], b) == CountReported(futures, b) + if f == Reported(b) then 1 else 0
  {
    assert (futures + [f])[..|futures|] == futures;
  }

  // ------------------------------------------------------------ every event keeps the accounts

  lemma ArrivalKeepsHistory<G(!new), R(!new)>(p: Projection<G, R>, records: seq<R>, g0: G, log: seq<Committed>,
                                              graph: G, totals: Stats, r: R)
    requires Faithful(p) && HistoryOk(p, records, g0, log, graph, totals)
    ensures HistoryOk(p, records + [r], g0, log, graph, totals)
  {
    HistoryStable(p, records, [r], g0, log, CreatedIn);
    SumsStable(p, records, [r], g0, log, totals);
    GenuineStable(p, records, [r], g0, log);
  }

  lemma CommitKeepsHistory<G(!new), R(!new)>(p: Projection<G, R>, records: seq<R>, g0: G, log: seq<Committed>, graph: G,
                                             totals: Stats, c: Committed, totals': Stats)
    requires Faithful(p) && HistoryOk(p, records, g0, log, graph, totals)
    requires EntryOk(c, |records|) && Answers(p, records, graph, c)
    requires Adds(totals, OwnCounts(p, records, graph, c), totals')
    ensures HistoryOk(p, records, g0, log + [c], GraphWith(p, records, graph, c), totals')
  {
    GenuineGrows(p, records, g0, log, c);
    SumsGrow(p, records, g0, log, c, totals, totals');
  }

  /** An event that reports nothing. */
  lemma IdleKeepsCounts(before: seq<Future>, after: seq<Future>, totals: Stats, totals': Stats)
    requires |before| == |after| && CountsOk(before, totals)
    requires totals'.enriched == totals.enriched && totals'.skipped == totals.skipped
    requires forall t | 0 <= t < |before| :: before[t].Reported? || after[t].Reported? ==> before[t] == after[t]
    ensures CountsOk(after, totals')
  {
    SameReports(before, after, true);
    SameReports(before, after, false);
  }

  lemma ArrivalKeepsCounts(futures: seq<Future>, totals: Stats, future: Future, totals': Stats)
    requires CountsOk(futures, totals)
    requires totals'.enriched == totals.enriched + (if future == Reported(true) then 1 else 0)
    requires totals'.skipped == totals.skipped + (if future == Reported(false) then 1 else 0)
    ensures CountsOk(futures + [future], totals')
  {
    ReportsGrow(futures, future, true);
    ReportsGrow(futures, future, false);
  }

  lemma SubmitKeepsAccounts<G(!new), R(!new)>(p: Projection<G, R>, size: nat, g0: G, s: State<G, R>, r: R)
    requires Faithful(p) && InRange(s) && Accounted(p, g0, s)
    ensures Accounted(p, g0, Next(p, size, s, Submit(r)))
  {
    ArrivalKeepsHistory(p, s.records, g0, s.log, s.graph, s.totals, r);
    ArrivalKeepsCounts(s.futures, s.totals, Waiting, s.totals);
  }

  lemma CommitKeepsAccounts<G(!new), R(!new)>(p: Projection<G, R>, size: nat, g0: G, s: State<G, R>, f: nat)
    requires Faithful(p) && Queued(s, size) && InRange(s) && Enabled(s, Commits(f)) && Accounted(p, g0, s)
    ensures Accounted(p, g0, Next(p, size, s, Commits(f)))
  {
    assert FlightOk(s.flights[f], size, |s.futures|);
    var batch := s.flights[f].batch;
    BatchKeepsAccounts(p, g0, s.records, s.log, s.graph, s.futures, s.totals, batch);
  }

  lemma BatchKeepsAccounts<G(!new), R(!new)>(p: Projection<G, R>, g0: G, records: seq<R>, log: seq<Committed>, graph: G,
                                             futures: seq<Future>, totals: Stats, batch: seq<nat>)
    requires Faithful(p) && |records| == |futures| && Ascending(batch)
    requires forall i | 0 <= i < |batch| :: batch[i] < |futures|
    requires HistoryOk(p, records, g0, log, graph, totals) && CountsOk(futures, totals)
    ensures var w := p.batch(graph, RecordsOf(records, batch));
            && HistoryOk(p, records, g0, log + [Together(batch, w.flags)], w.graph,
                         MergeCounts(totals, w.counts))
            && CountsOk(SettleFlags(futures, batch, w.flags), MergeCounts(totals, w.counts))
  {
    var w := p.batch(graph, RecordsOf(records, batch));
    BatchKeepsHistory(p, g0, records, log, graph, totals, batch);
    SettlingKeepsCounts(futures, batch, w.flags, totals, MergeCounts(totals, w.counts));
  }

  lemma BatchKeepsHistory<G(!new), R(!new)>(p: Projection<G, R>, g0: G, records: seq<R>, log: seq<Committed>, graph: G,
                                            totals: Stats, batch: seq<nat>)
    requires Faithful(p) && Ascending(batch) && forall i | 0 <= i < |batch| :: batch[i] < |records|
    requires HistoryOk(p, records, g0, log, graph, totals)
    ensures var w := p.batch(graph, RecordsOf(records, batch));
            HistoryOk(p, records, g0, log + [Together(batch, w.flags)], w.graph, MergeCounts(totals, w.counts))
  {
    var w := p.batch(graph, RecordsOf(records, batch));
    var c := Together(batch, w.flags);
    assert EntryOk(c, |records|) && Answers(p, records, graph, c);
    CommitKeepsHistory(p, records, g0, log, graph, totals, c, MergeCounts(totals, w.counts));
  }

  lemma SettlingKeepsCounts(futures: seq<Future>, batch: seq<nat>, flags: seq<bool>, totals: Stats, totals': Stats)
    requires |flags| == |batch| && Ascending(batch) && forall i | 0 <= i < |batch| :: batch[i] < |futures|
    requires CountsOk(futures, totals) && totals'.enriched == totals.enriched && totals'.skipped == totals.skipped
    ensures CountsOk(SettleFlags(futures, batch, flags), totals')
  {
    SettledNotReported(futures, batch, flags);
    IdleKeepsCounts(futures, SettleFlags(futures, batch, flags), totals, totals');
  }

  lemma SettledNotReported(futures: seq<Future>, batch: seq<nat>, flags: seq<bool>)
    requires |flags| == |batch| && Ascending(batch) && forall i | 0 <= i < |batch| :: batch[i] < |futures|
    ensures var after := SettleFlags(futures, batch, flags);
            forall t | 0 <= t < |futures| :: futures[t].Reported? || after[t].Reported? ==> futures[t] == after[t]
  {
    var after := SettleFlags(futures, batch, flags);
    SettleFlagsSettles(futures, batch, flags);
    forall t | 0 <= t < |futures| ensures futures[t].Reported? || after[t].Reported? ==> futures[t] == after[t] {
      if t in batch {
        var i :| 0 <= i < |batch| && batch[i] == t;
        assert after[batch[i]] == if futures[batch[i]].Waiting? then Value(flags[i]) else futures[batch[i]];
      }
    }
  }

  lemma ReplayKeepsAccounts<G(!new), R(!new)>(p: Projection<G, R>, size: nat, g0: G, s: State<G, R>, f: nat,
                                              verdict: Verdict)
    requires Faithful(p) && InRange(s) && Enabled(s, Replays(f, verdict)) && Accounted(p, g0, s)
    ensures Accounted(p, g0, Next(p, size, s, Replays(f, verdict)))
  {
    var s', done := Next(p, size, s, Replays(f, verdict)), s.flights[f].batch[s.flights[f].next];
    if verdict.Applied? {
      var c := Alone(done, p.single(s.graph, s.records[done]).matched);
      CommitKeepsHistory(p, s.records, g0, s.log, s.graph, s.totals, c, s'.totals);
    }
    IdleKeepsCounts(s.futures, s'.futures, s.totals, s'.totals);
  }

  lemma DirectKeepsAccounts<G(!new), R(!new)>(p: Projection<G, R>, size: nat, g0: G, s: State<G, R>, r: R,
                                              verdict: Verdict)
    requires Faithful(p) && InRange(s) && Accounted(p, g0, s)
    ensures Accounted(p, g0, Next(p, size, s, Direct(r, verdict)))
  {
    match verdict
    case Applied => AppliedKeepsAccounts(p, g0, s.records, s.log, s.graph, s.futures, s.totals, r);
    case Raised(reason) => RaisedKeepsAccounts(p, g0, s.records, s.log, s.graph, s.futures, s.totals, r, reason);
  }

  lemma AppliedKeepsAccounts<G(!new), R(!new)>(p: Projection<G, R>, g0: G, records: seq<R>, log: seq<Committed>,
                                               graph: G,
                                               futures: seq<Future>, totals: Stats, r: R)
    requires Faithful(p) && |records| == |futures|
    requires HistoryOk(p, records, g0, log, graph, totals) && CountsOk(futures, totals)
    ensures var w := p.single(graph, r);
            && HistoryOk(p, records + [r], g0, log + [Alone(|futures|, w.matched)], w.graph,
                         AddCounts(totals, w.counts))
            && CountsOk(futures + [Reported(w.counts.enriched > 0)], AddCounts(totals, w.counts))
  {
    var w := p.single(graph, r);
    assert w.counts.enriched + w.counts.skipped == 1 && w.matched == (w.counts.enriched > 0);
    ArrivalKeepsHistory(p, records, g0, log, graph, totals, r);
    CommitKeepsHistory(p, records + [r], g0, log, graph, totals, Alone(|futures|, w.matched),
                       AddCounts(totals, w.counts));
    ArrivalKeepsCounts(futures, totals, Reported(w.counts.enriched > 0), AddCounts(totals, w.counts));
  }

  lemma RaisedKeepsAccounts<G(!new), R(!new)>(p: Projection<G, R>, g0: G, records: seq<R>, log: seq<Committed>,
                                              graph: G,
                                              futures: seq<Future>, totals: Stats, r: R, reason: Reason)
    requires Faithful(p) && HistoryOk(p, records, g0, log, graph, totals) && CountsOk(futures, totals)
    ensures HistoryOk(p, records + [r], g0, log, graph, totals)
            && CountsOk(futures + [Failed(reason)], totals)
  {
    ArrivalKeepsHistory(p, records, g0, log, graph, totals, r);
    ArrivalKeepsCounts(futures, totals, Failed(reason), totals);
  }

  lemma NextKeepsAccounts<G(!new), R(!new)>(p: Projection<G, R>, size: nat, g0: G, s: State<G, R>, e: Event<R>)
    requires Faithful(p) && size > 0 && Queued(s, size) && InRange(s) && Enabled(s, e) && Accounted(p, g0, s)
    ensures Accounted(p, g0, Next(p, size, s, e))
  {
    var s' := Next(p, size, s, e);
    match e
    case Submit(r) => SubmitKeepsAccounts(p, size, g0, s, r);
    case Commits(f) => CommitKeepsAccounts(p, size, g0, s, f);
    case Replays(f, verdict) => ReplayKeepsAccounts(p, size, g0, s, f, verdict);
    case Direct(r, verdict) => DirectKeepsAccounts(p, size, g0, s, r, verdict);
    case HandlerResumes(t) =>
      OneMoreReport(s.futures, t, s.futures[t].matched, true);
      OneMoreReport(s.futures, t, s.futures[t].matched, false);
    case TimerFires => IdleKeepsCounts(s.futures, s'.futures, s.totals, s'.totals);
    case Unavailable(f) => IdleKeepsCounts(s.futures, s'.futures, s.totals, s'.totals);
    case FlushCancelled(f) => IdleKeepsCounts(s.futures, s'.futures, s.totals, s'.totals);
    case Rejected(f) => IdleKeepsCounts(s.futures, s'.futures, s.totals, s'.totals);
    case CallerCancels(t) => IdleKeepsCounts(s.futures, s'.futures, s.totals, s'.totals);
  }

  // ------------------------------------------------------------ whole runs

  ghost predicate Allowed<G(!new), R(!new)>(p: Projection<G, R>, size: nat, s: State<G, R>, es: seq<Event<R>>)
    requires Faithful(p)
    decreases |es|
  {
    es == [] || (InRange(s) && Enabled(s, es[0]) && Allowed(p, size, Next(p, size, s, es[0]), es[1..]))
  }

  ghost function After<G(!new), R(!new)>(p: Projection<G, R>, size: nat, s: State<G, R>, es: seq<Event<R>>): State<G, R>
    requires Faithful(p) && Allowed(p, size, s, es)
    decreases |es|
  {
    if es == [] then s else After(p, size, Next(p, size, s, es[0]), es[1..])
  }

  /** What holds between events. */
  ghost predicate Sound<G(!new), R(!new)>(p: Projection<G, R>, size: nat, g0: G, s: State<G, R>)
    requires Faithful(p)
  {
    Queued(s, size) && Tidy(s) && Accounted(p, g0, s)
  }

  lemma NextKeepsSound<G(!new), R(!new)>(p: Projection<G, R>, size: nat, g0: G, s: State<G, R>, e: Event<R>)
    requires Faithful(p) && size > 0 && Sound(p, size, g0, s) && InRange(s) && Enabled(s, e)
    ensures Sound(p, size, g0, Next(p, size, s, e))
  {
    NextKeepsQueued(p, size, s, e);
    NextKeepsTidy(p, size, s, e);
    NextKeepsAccounts(p, size, g0, s, e);
  }

  lemma {:induction false} RunKeepsSound<G(!new), R(!new)>(p: Projection<G, R>, size: nat, g0: G, s: State<G, R>,
                                                           es: seq<Event<R>>)
    requires Faithful(p) && size > 0 && Sound(p, size, g0, s) && Allowed(p, size, s, es)
    ensures Sound(p, size, g0, After(p, size, s, es))
    decreases |es|
  {
    if es != [] {
      NextKeepsSound(p, size, g0, s, es[0]);
      RunKeepsSound(p, size, g0, Next(p, size, s, es[0]), es[1..]);
    }
  }

  /** Every run from an empty batcher is sound: conservation, commit before answer, and the accounts. */
  lemma EveryRunIsSound<G(!new), R(!new)>(p: Projection<G, R>, size: nat, g0: G, es: seq<Event<R>>)
    requires Faithful(p) && size > 0 && Allowed(p, size, Start(g0), es)
    ensures Sound(p, size, g0, After(p, size, Start(g0), es))
  {
    RunKeepsSound(p, size, g0, Start(g0), es);
  }

  /**
   The same, in a caller's terms. A submitted delivery is undecided exactly while it is queued (or
   given up by its caller while queued), in one place; once its record is committed it is never
   queued again, is never reported failed, and was committed by one transaction; an answer is the
   one that transaction gave; deliveries reported processed or skipped are what the counters count.
   */
  lemma DeliveriesAreConserved<G(!new), R(!new)>(p: Projection<G, R>, size: nat, g0: G, es: seq<Event<R>>, t: nat)
    requires Faithful(p) && size > 0 && Allowed(p, size, Start(g0), es)
    requires t < |After(p, size, Start(g0), es).futures|
    ensures var s := After(p, size, Start(g0), es);
            && (s.futures[t].Waiting? ==> Placed(s, t))
            && (Placed(s, t) ==> (s.futures[t].Waiting? || s.futures[t].Cancelled?) && !InLog(s.log, t))
            && !(t in s.pending && exists f :: f in s.flights && t in Rest(s.flights[f]))
            && (forall f, g | f in s.flights && g in s.flights && t in Rest(s.flights[f]) && t in Rest(s.flights[g]) ::
                  f == g)
            && (InLog(s.log, t) ==> s.futures[t].Value? || s.futures[t].Reported? || s.futures[t].Cancelled?)
            && (s.futures[t].Value? || s.futures[t].Reported? ==> Given(s.log, t, s.futures[t].matched))
            && Once(s.log, t)
    ensures var s := After(p, size, Start(g0), es);
            && |s.pending| < size && (s.timer <==> s.pending != [])
            && (forall f | f in s.flights :: 0 < |s.flights[f].batch| <= size)
    ensures var s := After(p, size, Start(g0), es);
            && LogOk(s.log, |s.records|) && GraphAfter(p, s.records, g0, s.log) == s.graph
            && s.totals.created == SumOf(p, s.records, g0, s.log, CreatedIn)
            && s.totals.updated == SumOf(p, s.records, g0, s.log, UpdatedIn)
            && s.totals.missing == SumOf(p, s.records, g0, s.log, MissingIn)
            && s.totals.replays == SumOf(p, s.records, g0, s.log, ReplaysIn)
            && s.totals.enriched == CountReported(s.futures, true)
                && s.totals.skipped == CountReported(s.futures, false)
  {
    EveryRunIsSound(p, size, g0, es);
    var s := After(p, size, Start(g0), es);
    assert TicketOk(s, t);
    OnePlace(s, size, t);
    forall f | f in s.flights ensures FlightOk(s.flights[f], size, |s.futures|) {}
    forall f | f in s.flights && t in Rest(s.flights[f]) ensures t in s.flights[f].batch {}
  }

  /** A decided future stays decided: only its own handler taking the value is recorded. */
  lemma DecidedOnce<G(!new), R(!new)>(p: Projection<G, R>, size: nat, s: State<G, R>, e: Event<R>, t: nat)
    requires Faithful(p) && Queued(s, size) && InRange(s) && Enabled(s, e) && t < |s.futures| && !s.futures[t].Waiting?
    ensures t < |Next(p, size, s, e).futures|
    ensures var future := Next(p, size, s, e).futures[t];
            if e == HandlerResumes(t) then future == Reported(s.futures[t].matched) else future == s.futures[t]
  {
    if e.Commits? {
      var batch := s.flights[e.flight].batch;
      assert FlightOk(s.flights[e.flight], size, |s.futures|);
      SettleFlagsSettles(s.futures, batch, p.batch(s.graph, RecordsOf(s.records, batch)).flags);
      if t in batch {
        var i :| 0 <= i < |batch| && batch[i] == t;
      }
    }
  }
}
