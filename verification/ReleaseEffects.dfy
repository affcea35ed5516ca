/** What a batch leaves of each release it names, in terms of that release's own last record. */
module ReleaseEffects {
  import opened Identifiers
  import opened MediaRows
  import opened CatalogGraph
  import opened MediaReconcile
  import opened EntityGate
  import opened ReleaseProjection
  import opened ReleaseBatches
  import opened ReleaseRuns

  /** The release's summary and edges are its media block's, and its mediums are there and filed. */
  ghost predicate BlockShows(g: Graph, release: Id, media: Media) {
    && release in g.releases
    && g.releases[release].summary == Some(Summary(media.families, |Mappings(media.items)|))
    && EdgesShow(g, release, media.items) && MediumsShow(g, media.items)
  }

  lemma RealisedShows(v: Vocabulary, fam: Id -> Id, g: Graph, release: Id, media: Media)
    requires Realised(v, fam, g, release, PlanFrom(v, media)) && WellNamed(v, fam, g) && Filed(fam, media.items)
    ensures BlockShows(g, release, media)
  {
    MappingCountCounts(media.items);
    var rows := EdgeRows(v, media.items);
    forall m
      ensures var e := Issue(release, MusicBrainz, m);
              && (e in g.issued <==> exists i | 0 <= i < |media.items| :: NamesMedium(media.items[i], m))
              && (e in g.issued ==> g.issued[e] == Total(media.items, m))
    {
      RowsList(v, media.items, m);
    }
    forall m, i: nat | FirstNamed(media.items, m, i)
      ensures m in g.mediums && media.items[i].family.value in g.families
              && (m, media.items[i].family.value) in g.inFamily
    {
      RowsList(v, media.items, m);
      assert Lists(rows, m) && (m, fam(m)) in g.inFamily;
    }
  }

  /**
   From true digests, gated or not: after a batch every release it names shows its last record, the
   mapped fields and digest and, if that record has a media block, the summary, edges and mediums of it.
   */
  lemma BatchShowsLast(v: Vocabulary, fam: Id -> Id, g: Graph, records: seq<Record>, gate: bool, i: nat)
    requires Good(v, fam, g) && RecordsFiled(fam, records)
    requires i < |records| && LastNamed(records, i) && Str(records[i].id) in g.releases
    ensures var after, release := EnrichMany(v, g, records, gate), Str(records[i].id);
            && release in after.releases && ShowsRecord(v, after.releases[release], records[i])
            && forall media | HasBlock(records[i], media) :: BlockShows(after, release, media)
  {
    var after, release := EnrichMany(v, g, records, gate), Str(records[i].id);
    CoherentIsConsistent(v, fam, g);
    ManyLeavesNodes(v, g, records, gate, release);
    forall media | HasBlock(records[i], media) ensures BlockShows(after, release, media) {
      BatchShowsBlock(v, fam, g, records, gate, i, media);
    }
  }

  lemma BatchShowsBlock(v: Vocabulary, fam: Id -> Id, g: Graph, records: seq<Record>, gate: bool, i: nat, media: Media)
    requires Good(v, fam, g) && RecordsFiled(fam, records) && i < |records| && LastNamed(records, i)
    requires Str(records[i].id) in g.releases && HasBlock(records[i], media)
    ensures BlockShows(EnrichMany(v, g, records, gate), Str(records[i].id), media)
  {
    LastIsRealised(v, fam, g, records, i, media);
    ManyIsEnriched(v, fam, g, records, gate);
    GateIsTransparent(v, fam, g, records);
    EnrichedKeepsNames(v, fam, g, records, gate);
    assert RecordFiled(fam, records[i]);
    RealisedShows(v, fam, EnrichMany(v, g, records, gate), Str(records[i].id), media);
  }

  lemma LastIsRealised(v: Vocabulary, fam: Id -> Id, g: Graph, records: seq<Record>, i: nat, media: Media)
    requires RecordsFiled(fam, records) && i < |records| && LastNamed(records, i) && HasBlock(records[i], media)
    requires Str(records[i].id) in g.releases
    ensures Realised(v, fam, Enriched(v, fam, g, records, false), Str(records[i].id), PlanFrom(v, media))
  {
    LastIsProjected(v, g.releases, records, i, media);
    assert RecordFiled(fam, records[i]);
    PlanIsNamed(v, fam, records[i]);
    WrittenIsRealised(v, fam, g.(releases := Rewrites(v, g.releases, records, false)),
                      PlansFor(v, g.releases, records, false), Str(records[i].id));
  }

  lemma LastIsProjected(v: Vocabulary, table: Table, records: seq<Record>, i: nat, media: Media)
    requires i < |records| && LastNamed(records, i) && Str(records[i].id) in table && HasBlock(records[i], media)
    ensures var plans, release := PlansFor(v, table, records, false), Str(records[i].id);
            release in plans && plans[release] == PlanFrom(v, media)
  {
    LastNamedMeans(v, records, i);
    IsLastMeans(Entries(v, records), i);
    ProjectsLocally(v, table, records, false, Str(records[i].id));
  }

  /** The same along any run: whatever came before, the batch's last records are what its releases show. */
  lemma RunsShowLast(v: Vocabulary, fam: Id -> Id, g: Graph, ds: seq<Delivery>, records: seq<Record>, i: nat)
    requires Good(v, fam, g) && RecordsFiled(fam, records) && forall k | 0 <= k < |ds| :: DeliveryFiled(fam, ds[k])
    requires i < |records| && LastNamed(records, i)
    requires Str(records[i].id) in DeliverAll(v, g, ds, true).releases
    ensures var after, release := DeliverAll(v, g, ds + [Batch(records)], true), Str(records[i].id);
            && release in after.releases && ShowsRecord(v, after.releases[release], records[i])
            && forall media | HasBlock(records[i], media) :: BlockShows(after, release, media)
  {
    assert (ds + [Batch(records)])[..|ds|] == ds;
    RunsAreTransparent(v, fam, g, ds);
    BatchShowsLast(v, fam, DeliverAll(v, g, ds, true), records, true, i);
  }
}
