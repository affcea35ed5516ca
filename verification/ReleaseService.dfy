/**
 The write batcher carrying releases: whatever the timers, failures, replays and callers do, the graph
 is what the committed records leave when each is written in full.
 */
module ReleaseService {
  import opened Identifiers
  import opened CatalogGraph
  import opened MediaRows
  import opened EntityGate
  import opened ReleaseProjection
  import opened ReleaseBatches
  import opened ReleaseRuns
  import opened BatcherModel
  import opened BatcherHistory
  import opened BatcherRuns

  function WriteOne(v: Vocabulary, g: Graph, r: Record): Write<Graph> {
    Write(EnrichOne(v, g, r, true), Matches(g.releases, EntryOf(v, r)),
          CountOne(NO_STATS, g.releases, EntryOf(v, r), true))
  }

  function WriteMany(v: Vocabulary, g: Graph, rs: seq<Record>): Writes<Graph> {
    Writes(EnrichMany(v, g, rs, true),
           seq(|rs|, i requires 0 <= i < |rs| => Matches(g.releases, EntryOf(v, rs[i]))),
           Counted(NO_STATS, g.releases, Entries(v, rs), true))
  }

  function Releases(v: Vocabulary): Projection<Graph, Record> {
    Projection((g, r) => WriteOne(v, g, r), (g, rs) => WriteMany(v, g, rs))
  }

  lemma ReleasesAreFaithful(v: Vocabulary)
    ensures Faithful(Releases(v))
  {
    var p := Releases(v);
    forall g, rs ensures |p.batch(g, rs).flags| == |rs| {
      assert p.batch(g, rs) == WriteMany(v, g, rs);
    }
    forall g, r
      ensures var w := p.single(g, r);
              w.counts.enriched + w.counts.skipped == 1 && 0 <= w.counts.enriched <= 1
                  && w.matched == (w.counts.enriched > 0)
    {
      assert p.single(g, r) == WriteOne(v, g, r);
    }
  }

  function DeliveryOf(records: seq<Record>, c: Committed): Delivery
    requires EntryOk(c, |records|)
  {
    match c
    case Together(tickets, _) => Batch(RecordsOf(records, tickets))
    case Alone(ticket, _) => Single(records[ticket])
  }

  ghost function DeliveriesOf(records: seq<Record>, log: seq<Committed>): (ds: seq<Delivery>)
    requires LogOk(log, |records|)
    ensures |ds| == |log|
  {
    seq(|log|, i requires 0 <= i < |log| => assert EntryOk(log[i], |records|); DeliveryOf(records, log[i]))
  }

  lemma {:induction false} GraphIsDelivered(v: Vocabulary, records: seq<Record>, g0: Graph, log: seq<Committed>)
    requires Faithful(Releases(v)) && LogOk(log, |records|)
    ensures GraphAfter(Releases(v), records, g0, log) == DeliverAll(v, g0, DeliveriesOf(records, log), true)
  {
    if log != [] {
      var n := |log| - 1;
      GraphIsDelivered(v, records, g0, log[..n]);
      var ds := DeliveriesOf(records, log);
      assert EntryOk(log[n], |records|);
      assert ds[..n] == DeliveriesOf(records, log[..n]);
      assert ds[n] == DeliveryOf(records, log[n]);
    }
  }

  lemma DeliveryIsFiled(fam: Id -> Id, records: seq<Record>, c: Committed)
    requires EntryOk(c, |records|) && RecordsFiled(fam, records)
    ensures DeliveryFiled(fam, DeliveryOf(records, c))
  {
    if c.Together? {
      forall i | 0 <= i < |c.tickets| ensures RecordFiled(fam, RecordsOf(records, c.tickets)[i]) {
        assert RecordFiled(fam, records[c.tickets[i]]);
      }
    }
  }

  /**
   After any run of the batcher over releases, from a graph whose digests are true: every stored digest
   is true, no edge dangles, no orphan medium has appeared, and the graph is the one the committed
   deliveries leave, in commit order, with the gate switched off.
   */
  lemma BatchedReleasesAreTransparent(v: Vocabulary, fam: Id -> Id, size: nat, g0: Graph, es: seq<Event<Record>>)
    requires size > 0 && Good(v, fam, g0) && Faithful(Releases(v)) && Allowed(Releases(v), size, Start(g0), es)
    requires RecordsFiled(fam, After(Releases(v), size, Start(g0), es).records)
    ensures var s := After(Releases(v), size, Start(g0), es);
            && LogOk(s.log, |s.records|)
            && s.graph == DeliverAll(v, g0, DeliveriesOf(s.records, s.log), false)
            && Good(v, fam, s.graph) && (OrphanFree(g0) ==> OrphanFree(s.graph))
  {
    var s := After(Releases(v), size, Start(g0), es);
    EveryRunIsSound(Releases(v), size, g0, es);
    var ds := DeliveriesOf(s.records, s.log);
    forall i | 0 <= i < |ds| ensures DeliveryFiled(fam, ds[i]) {
      assert EntryOk(s.log[i], |s.records|);
      DeliveryIsFiled(fam, s.records, s.log[i]);
    }
    GraphIsDelivered(v, s.records, g0, s.log);
    RunsAreTransparent(v, fam, g0, ds);
  }
}
