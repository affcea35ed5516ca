/**
 The write batcher carrying artists: along any run relation digests stay true and no edge is ever lost.
 */
module ArtistService {
  import opened Identifiers
  import opened CatalogGraph
  import opened EntityGate
  import opened Relationships
  import opened ArtistProjection
  import opened BatcherModel
  import opened BatcherHistory
  import opened BatcherRuns

  function WriteOne(g: ArtistGraph, r: ArtistRecord): Write<ArtistGraph> {
    Write(EnrichSingle(g, r, true), Matches(g.artists, EntryOf(r)), SingleStats(g, r, true, NO_STATS))
  }

  ghost function WriteMany(g: ArtistGraph, rs: seq<ArtistRecord>): Writes<ArtistGraph> {
    Writes(EnrichBatch(g, rs, true),
           seq(|rs|, i requires 0 <= i < |rs| => Matches(g.artists, EntryOf(rs[i]))),
           BatchStats(g, rs, true, NO_STATS))
  }

  ghost function Artists(): Projection<ArtistGraph, ArtistRecord> {
    Projection((g, r) => WriteOne(g, r), (g, rs) => WriteMany(g, rs))
  }

  /** Relations move counters of their own, so a record still counts once. */
  lemma ArtistCountsOnce(g: ArtistGraph, r: ArtistRecord)
    ensures var w := WriteOne(g, r);
            w.counts.enriched + w.counts.skipped == 1 && 0 <= w.counts.enriched <= 1
                && w.matched == (w.counts.enriched > 0)
  {
    var counted := CountOne(NO_STATS, g.artists, EntryOf(r), true);
    InOrderProjects(g.artists.Keys, g.related, JobsFor(Str(r.id), r.relations), counted);
  }

  lemma ArtistsAreFaithful()
    ensures Faithful(Artists())
  {
    var p := Artists();
    forall g, rs ensures |p.batch(g, rs).flags| == |rs| {
      assert p.batch(g, rs) == WriteMany(g, rs);
    }
    forall g, r
      ensures var w := p.single(g, r);
              w.counts.enriched + w.counts.skipped == 1 && 0 <= w.counts.enriched <= 1
                  && w.matched == (w.counts.enriched > 0)
    {
      assert p.single(g, r) == WriteOne(g, r);
      ArtistCountsOnce(g, r);
    }
  }

  function DeliveryOf(records: seq<ArtistRecord>, c: Committed): ArtistDelivery
    requires EntryOk(c, |records|)
  {
    match c
    case Together(tickets, _) => ArtistDelivery.Batch(RecordsOf(records, tickets))
    case Alone(ticket, _) => ArtistDelivery.Single(records[ticket])
  }

  ghost function DeliveriesOf(records: seq<ArtistRecord>, log: seq<Committed>): (ds: seq<ArtistDelivery>)
    requires LogOk(log, |records|)
    ensures |ds| == |log|
  {
    seq(|log|, i requires 0 <= i < |log| => assert EntryOk(log[i], |records|); DeliveryOf(records, log[i]))
  }

  lemma {:induction false} GraphIsDelivered(records: seq<ArtistRecord>, g0: ArtistGraph, log: seq<Committed>)
    requires Faithful(Artists()) && LogOk(log, |records|)
    ensures GraphAfter(Artists(), records, g0, log) == DeliverAll(g0, DeliveriesOf(records, log), true)
  {
    if log != [] {
      var n := |log| - 1;
      GraphIsDelivered(records, g0, log[..n]);
      var ds := DeliveriesOf(records, log);
      assert EntryOk(log[n], |records|);
      assert ds[..n] == DeliveriesOf(records, log[..n]);
      assert ds[n] == DeliveryOf(records, log[n]);
    }
  }

  /** No delivery takes an edge away. */
  lemma {:induction false} EdgesOnlyGrow(g: ArtistGraph, ds: seq<ArtistDelivery>)
    requires RelationsTrue(g)
    ensures g.related <= DeliverAll(g, ds, true).related
  {
    if ds != [] {
      var front := ds[..|ds| - 1];
      var mid := DeliverAll(g, front, true);
      EdgesOnlyGrow(g, front);
      RelationDigestIsSound(g, front, true);
      match ds[|ds| - 1]
      case Single(r) => SingleKeepsRelationsTrue(mid, r, true);
      case Batch(rs) => BatchKeepsRelationsTrue(mid, rs, true);
      case Arrives(_, _) =>
    }
  }

  /**
   After any run of the batcher over artists, from a graph whose relation digests are true: the graph is
   what the committed deliveries leave, in commit order, every relation digest is true, and every edge
   that was there still is.
   */
  lemma BatchedArtistsKeepRelations(size: nat, g0: ArtistGraph, es: seq<Event<ArtistRecord>>)
    requires size > 0 && RelationsTrue(g0) && Faithful(Artists()) && Allowed(Artists(), size, Start(g0), es)
    ensures var s := After(Artists(), size, Start(g0), es);
            && LogOk(s.log, |s.records|)
            && s.graph == DeliverAll(g0, DeliveriesOf(s.records, s.log), true)
            && RelationsTrue(s.graph) && g0.related <= s.graph.related
  {
    var s := After(Artists(), size, Start(g0), es);
    EveryRunIsSound(Artists(), size, g0, es);
    GraphIsDelivered(s.records, g0, s.log);
    RelationDigestIsSound(g0, DeliveriesOf(s.records, s.log), true);
    EdgesOnlyGrow(g0, DeliveriesOf(s.records, s.log));
  }
}
