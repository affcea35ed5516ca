/**
 The write batcher itself: fields updated event by event, each event proved to be the machine's.
 */
module WriteBatchers {
  import opened Identifiers
  import opened EntityGate
  import opened BatcherModel

  /**
   One record's transaction function and the counters it shares with its caller. The driver may run it
   any number of times before one run commits.
   */
  class SingleTransaction<G(!new), R(!new)> {
    const project: Projection<G, R>
    const record: R
    var stats: Stats

    constructor (project: Projection<G, R>, record: R, stats: Stats)
      ensures this.project == project && this.record == record && this.stats == stats
    {
      this.project, this.record, this.stats := project, record, stats;
    }

    /**
     One run, which may abort with its counters moved anyhow. Whatever earlier runs left in the shared
     counters, a run that goes through leaves its own counts alone.
     */
    method Try(graph: G, aborts: Option<Stats>) returns (after: G)
      modifies `stats
      ensures aborts.None? ==>
              after == project.single(graph, record).graph && stats == project.single(graph, record).counts
      ensures aborts.Some? ==> after == graph && stats == AddCounts(NO_STATS, aborts.value)
    {
      stats := NO_STATS;
      if aborts.Some? {
        stats := AddCounts(stats, aborts.value);
        after := graph;
      } else {
        var w := project.single(graph, record);
        stats := AddCounts(stats, w.counts);
        after := w.graph;
      }
    }

    /** `execute_write`: runs that abort, with any partial counts, then the one that commits. */
    method Execute(graph: G, aborted: seq<Stats>) returns (after: G)
      modifies `stats
      ensures after == project.single(graph, record).graph
      ensures stats == project.single(graph, record).counts
    {
      after := graph;
      for i := 0 to |aborted|
        invariant after == graph
      {
        after := Try(after, Some(aborted[i]));
      }
      after := Try(after, None);
    }
  }

  /** How a batch's run aborts: before its projection returned, or at the commit, its outcome already noted. */
  datatype Abort = Early | AtCommit(flags: seq<bool>, counts: Stats)

  /** A batch's transaction function, with the outcome it notes for its caller. */
  class BatchTransaction<G(!new), R(!new)> {
    const project: Projection<G, R>
    const records: seq<R>
    var flags: seq<bool>
    var stats: Stats

    constructor (project: Projection<G, R>, records: seq<R>)
      ensures this.project == project && this.records == records
    {
      this.project, this.records := project, records;
      flags, stats := [], NO_STATS;
    }

    /** One run on counters of its own; the noted outcome is that of the last run that got so far. */
    method Try(graph: G, aborts: Option<Abort>) returns (after: G)
      modifies `flags, `stats
      ensures aborts.None? ==>
                var w := project.batch(graph, records); after == w.graph && flags == w.flags && stats == w.counts
      ensures aborts.Some? ==> after == graph
    {
      var own := NO_STATS;
      after := graph;
      match aborts {
        case Some(Early) =>
        case Some(AtCommit(noted, counts)) =>
          own := AddCounts(own, counts);
          flags, stats := noted, own;
        case None =>
          var w := project.batch(graph, records);
          own := AddCounts(own, w.counts);
          flags, stats := w.flags, own;
          after := w.graph;
      }
    }

    method Execute(graph: G, aborted: seq<Abort>) returns (after: G)
      modifies `flags, `stats
      ensures var w := project.batch(graph, records); after == w.graph && flags == w.flags && stats == w.counts
    {
      after := graph;
      for i := 0 to |aborted|
        invariant after == graph
      {
        after := Try(after, Some(aborted[i]));
      }
      after := Try(after, None);
    }
  }

  class WriteBatcher<G(!new), R(!new)> {
    const size: nat
    const project: Projection<G, R>
    var records: seq<R>
    var futures: seq<Future>
    var pending: seq<nat>
    var timer: bool
    var flights: map<nat, Flight>
    var launched: nat
    var graph: G
    var totals: Stats
    ghost var log: seq<Committed>

    ghost function View(): State<G, R>
      reads this
    {
      State(records, futures, pending, timer, flights, launched, graph, totals, log)
    }

    ghost predicate Valid()
      reads this
    {
      size > 0 && Faithful(project) && Queued(View(), size) && InRange(View())
    }

    constructor (size: nat, project: Projection<G, R>, graph: G)
      requires size > 0 && Faithful(project)
      ensures Valid() && View() == Start(graph) && this.size == size && this.project == project
    {
      this.size, this.project, this.graph := size, project, graph;
      records, futures, pending, timer := [], [], [], false;
      flights, launched, totals, log := map[], 0, NO_STATS, [];
    }

    /** Queue a delivery; flush at the limit, else (re)start the linger timer. */
    method Submit(record: R) returns (ticket: nat)
      requires Valid()
      modifies this
      ensures Valid() && ticket == |old(futures)|
      ensures View() == Next(project, size, old(View()), Event.Submit(record))
    {
      SubmitKeepsQueued(project, size, View(), record);
      ticket := |futures|;
      SubmitFills(View(), record, size);
      records, futures := records + [record], futures + [Waiting];
      pending := pending + [ticket];
      if |pending| >= size {
        FlushNow();
      } else {
        timer := true;
      }
      QueuedInRange(View(), size);
    }

    method TimerFires()
      requires Valid() && timer
      modifies this
      ensures Valid() && View() == Next(project, size, old(View()), Event.TimerFires)
    {
      FlushKeepsQueued(View(), size);
      FlushNow();
      QueuedInRange(View(), size);
    }

    method FlushNow()
      requires forall i | 0 <= i < |pending| :: pending[i] < |futures|
      modifies this
      ensures View() == BatcherModel.FlushNow(old(View()), size)
    {
      timer := false;
      var k := if |pending| <= size then |pending| else size;
      var batch := pending[..k];
      pending := pending[k..];
      if pending != [] {
        timer := true;
      }
      var live := StillWaiting(batch);
      if live == [] {
        return;
      }
      flights := flights[launched := Committing(live)];
      launched := launched + 1;
    }

    /** The batch without the deliveries whose caller has gone. */
    method StillWaiting(batch: seq<nat>) returns (live: seq<nat>)
      requires forall i | 0 <= i < |batch| :: batch[i] < |futures|
      ensures live == Live(futures, batch)
    {
      live := [];
      for i := 0 to |batch|
        invariant live == Live(futures, batch[..i])
      {
        assert batch[..i + 1][..i] == batch[..i];
        if futures[batch[i]].Waiting? {
          live := live + [batch[i]];
        }
      }
      assert batch[..|batch|] == batch;
    }

    /** The commit went through: merge its counters, then answer every member still waiting. */
    method Commit(f: nat, aborted: seq<Abort>)
      requires Valid() && f in flights && flights[f].Committing?
      modifies this
      ensures Valid() && View() == Next(project, size, old(View()), Commits(f))
      ensures var w := project.batch(old(graph), RecordsOf(old(records), old(flights)[f].batch));
              && graph == w.graph && Adds(old(totals), w.counts, totals)
              && totals.enriched == old(totals).enriched && totals.skipped == old(totals).skipped
    {
      CommitKeepsQueued(project, size, View(), f);
      var batch := flights[f].batch;
      var tx := new BatchTransaction(project, RecordsOf(records, batch));
      graph := tx.Execute(graph, aborted);
      log := log + [Together(batch, tx.flags)];
      totals := MergeCounts(totals, tx.stats);
      SetResults(batch, tx.flags);
      flights := Land(flights, f);
      QueuedInRange(View(), size);
    }

    method SetResults(batch: seq<nat>, flags: seq<bool>)
      requires |flags| == |batch| && forall i | 0 <= i < |batch| :: batch[i] < |futures|
      modifies `futures
      ensures futures == SettleFlags(old(futures), batch, flags)
    {
      for i := 0 to |batch|
        invariant |futures| == |old(futures)|
        invariant futures == SettleFlags(old(futures), batch[..i], flags[..i])
      {
        assert batch[..i + 1][..i] == batch[..i] && flags[..i + 1][..i] == flags[..i];
        if futures[batch[i]].Waiting? {
          futures := futures[batch[i] := Value(flags[i])];
        }
      }
      assert batch[..|batch|] == batch && flags[..|batch|] == flags;
    }

    /** A transient outage fails every member; nothing is replayed. */
    method CommitUnavailable(f: nat)
      requires Valid() && f in flights && flights[f].Committing?
      modifies this
      ensures Valid() && View() == Next(project, size, old(View()), Unavailable(f))
    {
      ghost var before := View();
      Fail(flights[f].batch, Failed(Outage));
      flights := Land(flights, f);
      LandKeepsQueued(before, View(), f, size);
      QueuedInRange(View(), size);
    }

    method CommitCancelled(f: nat)
      requires Valid() && f in flights && flights[f].Committing?
      modifies this
      ensures Valid() && View() == Next(project, size, old(View()), FlushCancelled(f))
    {
      ghost var before := View();
      Fail(flights[f].batch, Failed(Stopped));
      flights := Land(flights, f);
      LandKeepsQueued(before, View(), f, size);
      QueuedInRange(View(), size);
    }

    /** Any other failure: a lone member takes it, a larger batch is written again one by one. */
    method CommitRejected(f: nat)
      requires Valid() && f in flights && flights[f].Committing?
      modifies this
      ensures Valid() && View() == Next(project, size, old(View()), Rejected(f))
    {
      NextKeepsQueued(project, size, View(), Rejected(f));
      var batch := flights[f].batch;
      if |batch| == 1 {
        Fail(batch, Failed(Poison));
        flights := Land(flights, f);
      } else {
        assert FlightOk(flights[f], size, |futures|);
        flights := flights[f := Replaying(batch, 0)];
      }
      QueuedInRange(View(), size);
    }

    method Fail(batch: seq<nat>, failure: Future)
      requires forall i | 0 <= i < |batch| :: batch[i] < |futures|
      requires !failure.Waiting?
      modifies `futures
      ensures futures == SettleAll(old(futures), batch, failure)
    {
      for i := 0 to |batch|
        invariant futures == SettleAll(old(futures), batch[..i], failure)
      {
        assert batch[..i + 1] == batch[..i] + [batch[i]];
        if futures[batch[i]].Waiting? {
          futures := futures[batch[i] := failure];
        }
      }
      assert batch[..|batch|] == batch;
    }

    /** A record's own transaction: its graph and counters on success, nothing at all when it raises. */
    method WriteAlone(ticket: nat, verdict: Verdict, aborted: seq<Stats>) returns (answer: Future)
      requires Faithful(project) && ticket < |records|
      modifies `graph, `totals, `log
      ensures var w := project.single(old(graph), records[ticket]);
              if verdict.Applied?
              then answer == Value(w.counts.enriched > 0) && graph == w.graph
                  && totals == MergeCounts(old(totals), w.counts)
                   && log == old(log) + [Alone(ticket, w.matched)]
              else answer == Failed(verdict.reason) && graph == old(graph) && totals == old(totals) && log == old(log)
    {
      match verdict {
        case Applied =>
          var tx := new SingleTransaction(project, records[ticket], NO_STATS);
          graph := tx.Execute(graph, aborted);
          log := log + [Alone(ticket, tx.stats.enriched > 0)];
          totals := MergeCounts(totals, tx.stats);
          answer := Value(tx.stats.enriched > 0);
        case Raised(reason) =>
          answer := Failed(reason);
      }
    }

    /** One member of a rejected batch, whether or not its caller still waits. */
    method Replay(f: nat, verdict: Verdict, aborted: seq<Stats>)
      requires Valid() && f in flights && flights[f].Replaying?
      modifies this
      ensures Valid() && View() == Next(project, size, old(View()), Replays(f, verdict))
      ensures var w := project.single(old(graph), old(records)[old(flights)[f].batch[old(flights)[f].next]]);
              if verdict.Applied?
              then graph == w.graph && Adds(old(totals), w.counts, totals)
                   && totals.enriched == old(totals).enriched && totals.skipped == old(totals).skipped
              else graph == old(graph) && totals == old(totals)
    {
      ReplayKeepsQueued(project, size, View(), f, verdict);
      QueuedInRange(Next(project, size, View(), Replays(f, verdict)), size);
      ReplayMember(f, verdict, aborted);
    }

    method ReplayMember(f: nat, verdict: Verdict, aborted: seq<Stats>)
      requires Faithful(project) && InRange(View()) && f in flights && flights[f].Replaying?
      modifies this
      ensures View() == Next(project, size, old(View()), Replays(f, verdict))
    {
      var batch, k := flights[f].batch, flights[f].next;
      var ticket := batch[k];
      var answer := WriteAlone(ticket, verdict, aborted);
      if futures[ticket].Waiting? {
        futures := futures[ticket := answer];
      }
      flights := if k + 1 == |batch| then Land(flights, f) else flights[f := Replaying(batch, k + 1)];
    }

    method CallerCancels(ticket: nat)
      requires Valid() && ticket < |futures|
      modifies this
      ensures Valid() && View() == Next(project, size, old(View()), Event.CallerCancels(ticket))
    {
      SettlingKeepsQueued(View(), Next(project, size, View(), Event.CallerCancels(ticket)), size);
      if futures[ticket].Waiting? {
        futures := futures[ticket := Cancelled];
      }
      QueuedInRange(View(), size);
    }

    /** The delivery's own handler takes its answer, counts it, and reports processed or skipped. */
    method HandlerResumes(ticket: nat) returns (processed: bool)
      requires Valid() && ticket < |futures| && futures[ticket].Value?
      modifies this
      ensures Valid() && View() == Next(project, size, old(View()), Event.HandlerResumes(ticket))
      ensures processed == old(futures)[ticket].matched
      ensures totals.enriched + totals.skipped == old(totals.enriched + totals.skipped) + 1
    {
      SettlingKeepsQueued(View(), Next(project, size, View(), Event.HandlerResumes(ticket)), size);
      var local := NO_STATS;
      if futures[ticket].matched {
        local := local.(enriched := local.enriched + 1);
      } else {
        local := local.(skipped := local.skipped + 1);
      }
      futures := futures[ticket := Reported(futures[ticket].matched)];
      totals := AddCounts(totals, local);
      processed := local.enriched > 0;
      QueuedInRange(View(), size);
    }

    /** The unbatched path: the record's own transaction, then all its counters at once. */
    method WriteSingle(record: R, verdict: Verdict, aborted: seq<Stats>) returns (processed: bool)
      requires Valid()
      modifies this
      ensures Valid() && View() == Next(project, size, old(View()), Direct(record, verdict))
      ensures verdict.Applied? ==> processed == project.single(old(graph), record).matched
      ensures totals.enriched + totals.skipped ==
                old(totals.enriched + totals.skipped) + if verdict.Applied? then 1 else 0
      ensures var w := project.single(old(graph), record);
              if verdict.Applied?
              then graph == w.graph
                   && totals.enriched == old(totals).enriched + w.counts.enriched
                   && totals.skipped == old(totals).skipped + w.counts.skipped
                   && Adds(old(totals), w.counts, totals)
              else graph == old(graph) && totals == old(totals)
    {
      DirectKeepsQueued(project, size, View(), record, verdict);
      processed := false;
      match verdict {
        case Applied =>
          var tx := new SingleTransaction(project, record, NO_STATS);
          graph := tx.Execute(graph, aborted);
          processed := tx.stats.enriched > 0;
          log := log + [Alone(|futures|, processed)];
          futures := futures + [Reported(processed)];
          totals := AddCounts(totals, tx.stats);
        case Raised(reason) =>
          futures := futures + [Failed(reason)];
      }
      records := records + [record];
      QueuedInRange(View(), size);
    }
  }
}
