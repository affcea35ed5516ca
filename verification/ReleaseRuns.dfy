/**
 Whole runs of release deliveries, single and batched, with another catalog writing in between:
 the digest gate changes nothing but the work done, and pruning is exact.
 */
module ReleaseRuns {
  import opened Identifiers
  import opened MediaRows
  import opened CatalogGraph
  import opened MediaReconcile
  import opened MediaLocks
  import opened EntityGate
  import opened ReleaseProjection
  import opened ReleaseBatches

  // ------------------------------------------------------------ what a digest stands for

  /** The release's musicbrainz edges are exactly the rows, and each medium is filed. */
  ghost predicate Exactly(fam: Id -> Id, g: Graph, release: Id, rows: seq<Row>) {
    && (forall m :: Issue(release, MusicBrainz, m) in g.issued <==> Lists(rows, m))
    && (forall m | Lists(rows, m) :: g.issued[Issue(release, MusicBrainz, m)] == RowOf(rows, m).qty)
    && (forall m | Lists(rows, m) :: (m, fam(m)) in g.inFamily)
  }

  ghost predicate Realised(v: Vocabulary, fam: Id -> Id, g: Graph, release: Id, plan: Plan) {
    && release in g.releases
    && g.releases[release].summary == Some(plan.summary)
    && PlanNamed(v, fam, plan)
    && Exactly(fam, g, release, plan.rows)
  }

  ghost predicate StandsFor(v: Vocabulary, fam: Id -> Id, g: Graph, release: Id, d: Digest)
    requires release in g.releases
  {
    && g.releases[release].fields == d.fields
    && (d.extra.MediaExtra? ==> Realised(v, fam, g, release, Plan(d.extra.summary, d.extra.rows)))
  }

  /** A stored digest is true of the graph. */
  ghost predicate Coherent(v: Vocabulary, fam: Id -> Id, g: Graph) {
    forall r | r in g.releases && g.releases[r].hash.Some? :: StandsFor(v, fam, g, r, g.releases[r].hash.value)
  }

  // ------------------------------------------------------------ a write keeps digests true

  lemma WrittenIsRealised(v: Vocabulary, fam: Id -> Id, g: Graph, plans: Plans, release: Id)
    requires release in plans && release in g.releases && PlanNamed(v, fam, plans[release])
    ensures Realised(v, fam, Reconciled(v, fam, g, plans), release, plans[release])
  {
    var after, rows := Reconciled(v, fam, g, plans), plans[release].rows;
    forall m ensures Issue(release, MusicBrainz, m) in after.issued <==> Lists(rows, m) {
      IssuedAfterHas(g.issued, plans, Issue(release, MusicBrainz, m));
    }
    forall m | Lists(rows, m) ensures (m, fam(m)) in after.inFamily {
      assert Attached(plans, m);
      AttachedInUse(g.issued, plans, m);
      FiledPairsHas(fam, plans, (m, fam(m)));
    }
  }

  lemma UnwrittenStaysRealised(v: Vocabulary, fam: Id -> Id, g: Graph, plans: Plans, release: Id, plan: Plan)
    requires Realised(v, fam, g, release, plan) && release !in plans
    ensures Realised(v, fam, Reconciled(v, fam, g, plans), release, plan)
  {
    var after := Reconciled(v, fam, g, plans);
    forall m ensures var e := Issue(release, MusicBrainz, m);
                     (e in after.issued <==> e in g.issued) && (e in after.issued ==> after.issued[e] == g.issued[e]) {
      IssuedAfterHas(g.issued, plans, Issue(release, MusicBrainz, m));
    }
    forall m | Lists(plan.rows, m) ensures (m, fam(m)) in after.inFamily {
      var e := Issue(release, MusicBrainz, m);
      assert e in after.issued;
      assert InUse(after.issued, m);
    }
  }

  lemma RewritingKeepsRealised(v: Vocabulary, fam: Id -> Id, g: Graph, records: seq<Record>, gate: bool, release: Id,
                               plan: Plan)
    requires Realised(v, fam, g, release, plan)
    ensures Realised(v, fam, g.(releases := Rewrites(v, g.releases, records, gate)), release, plan)
  {}

  lemma EnrichedStandsFor(v: Vocabulary, fam: Id -> Id, g: Graph, records: seq<Record>, gate: bool, r: Id)
    requires WellNamed(v, fam, g) && Coherent(v, fam, g) && RecordsFiled(fam, records) && r in g.releases
    ensures var after := Enriched(v, fam, g, records, gate);
            r in after.releases && (after.releases[r].hash.Some? ==>
                                    StandsFor(v, fam, after, r, after.releases[r].hash.value))
  {
    var plans := PlansFor(v, g.releases, records, gate);
    var start := g.(releases := Rewrites(v, g.releases, records, gate));
    PlansForNamed(v, fam, g.releases, records, gate);
    ProjectsLocally(v, g.releases, records, gate, r);
    if r in plans {
      WrittenIsRealised(v, fam, start, plans, r);
    } else if g.releases[r].hash.Some? && g.releases[r].hash.value.extra.MediaExtra? {
      var d := g.releases[r].hash.value;
      var plan := Plan(d.extra.summary, d.extra.rows);
      RewritingKeepsRealised(v, fam, g, records, gate, r, plan);
      UnwrittenStaysRealised(v, fam, start, plans, r, plan);
    }
  }

  lemma EnrichedKeepsCoherent(v: Vocabulary, fam: Id -> Id, g: Graph, records: seq<Record>, gate: bool)
    requires WellNamed(v, fam, g) && Coherent(v, fam, g) && RecordsFiled(fam, records)
    ensures Coherent(v, fam, Enriched(v, fam, g, records, gate))
  {
    EnrichedKeepsNames(v, fam, g, records, gate);
    forall r | r in g.releases { EnrichedStandsFor(v, fam, g, records, gate, r); }
  }

  // ------------------------------------------------------------ rewriting what is already there

  ghost predicate AllRealised(v: Vocabulary, fam: Id -> Id, g: Graph, plans: Plans) {
    forall r | r in plans :: Realised(v, fam, g, r, plans[r])
  }

  lemma RealisedIssued(v: Vocabulary, fam: Id -> Id, g: Graph, plans: Plans)
    requires AllRealised(v, fam, g, plans)
    ensures IssuedAfter(g.issued, plans) == g.issued
  {
    var after := IssuedAfter(g.issued, plans);
    forall e ensures (e in after <==> e in g.issued) && (e in after ==> after[e] == g.issued[e]) {
      IssuedAfterHas(g.issued, plans, e);
      if e.source == MusicBrainz && e.release in plans {
        assert Exactly(fam, g, e.release, plans[e.release].rows);
        assert e == Issue(e.release, MusicBrainz, e.medium);
      }
    }
  }

  lemma RealisedFiled(v: Vocabulary, fam: Id -> Id, g: Graph, plans: Plans, m: Id)
    requires WellNamed(v, fam, g) && AllRealised(v, fam, g, plans)
    ensures !Dropped(g.issued, plans, m)
    ensures Attached(plans, m) ==> m in g.mediums && fam(m) in g.families && (m, fam(m)) in g.inFamily
  {
    forall r | r in plans ensures Issue(r, MusicBrainz, m) in g.issued <==> Lists(plans[r].rows, m) {
      assert Realised(v, fam, g, r, plans[r]);
    }
    if Attached(plans, m) {
      var r :| r in plans && Lists(plans[r].rows, m);
      assert Realised(v, fam, g, r, plans[r]);
    }
  }

  lemma RealisedSummaries(v: Vocabulary, fam: Id -> Id, g: Graph, plans: Plans)
    requires AllRealised(v, fam, g, plans)
    ensures Summarised(g.releases, plans) == g.releases
  {
    forall r | r in plans ensures r in g.releases && g.releases[r].summary == Some(plans[r].summary) {
      assert Realised(v, fam, g, r, plans[r]);
    }
  }

  lemma RealisedMediums(v: Vocabulary, fam: Id -> Id, g: Graph, plans: Plans)
    requires WellNamed(v, fam, g) && AllRealised(v, fam, g, plans)
    ensures Reconciled(v, fam, g, plans).mediums == g.mediums
  {
    forall m ensures !Pruned(g, plans, m) && (m in AttachedMediums(plans) ==> m in g.mediums) {
      RealisedFiled(v, fam, g, plans, m);
      AttachedHas(plans, m);
    }
  }

  lemma RealisedFamilies(v: Vocabulary, fam: Id -> Id, g: Graph, plans: Plans)
    requires WellNamed(v, fam, g) && AllRealised(v, fam, g, plans)
    ensures g.families + FiledFamilies(fam, plans) == g.families
  {
    forall m | m in AttachedMediums(plans) ensures fam(m) in g.families {
      RealisedFiled(v, fam, g, plans, m);
      AttachedHas(plans, m);
    }
  }

  lemma RealisedPairs(v: Vocabulary, fam: Id -> Id, g: Graph, plans: Plans)
    requires WellNamed(v, fam, g) && AllRealised(v, fam, g, plans)
    ensures Reconciled(v, fam, g, plans).inFamily == g.inFamily
  {
    forall e: (Id, Id) ensures !Pruned(g, plans, e.0) && (e in FiledPairs(fam, plans) ==> e in g.inFamily) {
      RealisedFiled(v, fam, g, plans, e.0);
      FiledPairsHas(fam, plans, e);
    }
  }

  /** Writing media that are already in the graph leaves the graph as it is. */
  lemma RealisedIsNoop(v: Vocabulary, fam: Id -> Id, g: Graph, plans: Plans)
    requires WellNamed(v, fam, g) && AllRealised(v, fam, g, plans)
    ensures Reconciled(v, fam, g, plans) == g
  {
    RealisedSummaries(v, fam, g, plans);
    RealisedMediums(v, fam, g, plans);
    RealisedFamilies(v, fam, g, plans);
    RealisedPairs(v, fam, g, plans);
    RealisedIssued(v, fam, g, plans);
    SameGraph(Reconciled(v, fam, g, plans), g);
  }

  // ------------------------------------------------------------ the gate is transparent

  lemma CoherentIsConsistent(v: Vocabulary, fam: Id -> Id, g: Graph)
    requires Coherent(v, fam, g)
    ensures Consistent(g.releases)
  {
    forall r | r in g.releases && g.releases[r].hash.Some?
        ensures g.releases[r].fields == g.releases[r].hash.value.fields {
      assert StandsFor(v, fam, g, r, g.releases[r].hash.value);
    }
  }

  /** The plans only an ungated delivery carries out: those the stored digest already vouches for. */
  function SkippedPlans(v: Vocabulary, table: Table, records: seq<Record>): Plans {
    map id | id in table && Projects(v, table, records, false, id) && !Projects(v, table, records, true, id)
      :: LastPlan(v, records, id)
  }

  lemma UngatedPlans(v: Vocabulary, table: Table, records: seq<Record>)
    ensures Joined(SkippedPlans(v, table, records), PlansFor(v, table, records, true))
            == PlansFor(v, table, records, false)
  {
    forall id | id in table && Projects(v, table, records, true, id) ensures Projects(v, table, records, false, id) {
      ProjectsLocally(v, table, records, true, id);
      ProjectsLocally(v, table, records, false, id);
    }
  }

  lemma SkippedAreRealised(v: Vocabulary, fam: Id -> Id, g: Graph, records: seq<Record>)
    requires Coherent(v, fam, g)
    ensures AllRealised(v, fam, g.(releases := Rewrites(v, g.releases, records, true)),
                        SkippedPlans(v, g.releases, records))
  {
    var skipped := SkippedPlans(v, g.releases, records);
    forall r | r in skipped
      ensures Realised(v, fam, g.(releases := Rewrites(v, g.releases, records, true)), r, skipped[r])
    {
      ProjectsLocally(v, g.releases, records, true, r);
      ProjectsLocally(v, g.releases, records, false, r);
      var x := records[LastIndex(Entries(v, records), r).value];
      assert g.releases[r].hash == Some(DigestOf(EntryOf(v, x)));
      assert StandsFor(v, fam, g, r, g.releases[r].hash.value);
      RewritingKeepsRealised(v, fam, g, records, true, r, skipped[r]);
    }
  }

  /** Delivering with the gate or with the gate switched off leaves the same graph. */
  lemma GateIsTransparent(v: Vocabulary, fam: Id -> Id, g: Graph, records: seq<Record>)
    requires WellNamed(v, fam, g) && Coherent(v, fam, g) && RecordsFiled(fam, records)
    ensures Enriched(v, fam, g, records, true) == Enriched(v, fam, g, records, false)
  {
    var gated, skipped := PlansFor(v, g.releases, records, true), SkippedPlans(v, g.releases, records);
    var start := g.(releases := Rewrites(v, g.releases, records, true));
    CoherentIsConsistent(v, fam, g);
    LastRecordWins(g.releases, Entries(v, records), true);
    LastRecordWins(g.releases, Entries(v, records), false);
    SameRewrites(g.releases, Entries(v, records));
    UngatedPlans(v, g.releases, records);
    SkippedAreRealised(v, fam, g, records);
    RealisedIsNoop(v, fam, start, skipped);
    ReconcileComposes(v, fam, start, skipped, gated);
  }

  lemma SameRewrites(table: Table, entries: seq<Entry>)
    requires Consistent(table)
    ensures BatchTable(table, entries, true) == BatchTable(table, entries, false)
  {
    forall id | id in table && LastIndex(entries, id).Some?
      ensures Rewritten(table[id], entries[LastIndex(entries, id).value], true)
              == Rewritten(table[id], entries[LastIndex(entries, id).value], false)
    {
      RewrittenSettles(table[id], entries[LastIndex(entries, id).value], true);
    }
  }

  // ------------------------------------------------------------ runs

  /** One committed delivery of this service, or an edge write by another catalog. */
  datatype Delivery =
    | Single(record: Record)
    | Batch(records: seq<Record>)
    | Elsewhere(e: Issue, qty: int)

  function Deliver(v: Vocabulary, g: Graph, d: Delivery, gate: bool): Graph {
    match d
    case Single(r) => EnrichOne(v, g, r, gate)
    case Batch(rs) => EnrichMany(v, g, rs, gate)
    case Elsewhere(e, qty) =>
      if e.source != MusicBrainz && e.release in g.releases && e.medium in g.mediums
      then g.(issued := g.issued[e := qty]) else g
  }

  function DeliverAll(v: Vocabulary, g: Graph, ds: seq<Delivery>, gate: bool): Graph {
    if ds == [] then g else Deliver(v, DeliverAll(v, g, ds[..|ds| - 1], gate), ds[|ds| - 1], gate)
  }

  ghost predicate DeliveryFiled(fam: Id -> Id, d: Delivery) {
    match d
    case Single(r) => RecordFiled(fam, r)
    case Batch(rs) => RecordsFiled(fam, rs)
    case Elsewhere(_, _) => true
  }

  ghost predicate Good(v: Vocabulary, fam: Id -> Id, g: Graph) {
    WellNamed(v, fam, g) && Coherent(v, fam, g)
  }

  lemma ElsewhereKeepsGood(v: Vocabulary, fam: Id -> Id, g: Graph, e: Issue, qty: int)
    requires Good(v, fam, g)
    ensures Good(v, fam, Deliver(v, g, Elsewhere(e, qty), true))
    ensures OrphanFree(g) ==> OrphanFree(Deliver(v, g, Elsewhere(e, qty), true))
  {
    var after := Deliver(v, g, Elsewhere(e, qty), true);
    forall r | r in g.releases && g.releases[r].hash.Some?
        ensures StandsFor(v, fam, after, r, g.releases[r].hash.value) {
      assert StandsFor(v, fam, g, r, g.releases[r].hash.value);
    }
    forall m | InUse(g.issued, m) ensures InUse(after.issued, m) {
      var x :| x in g.issued && x.medium == m;
      assert x in after.issued;
    }
  }

  lemma BatchKeepsGood(v: Vocabulary, fam: Id -> Id, g: Graph, records: seq<Record>, gate: bool)
    requires Good(v, fam, g) && RecordsFiled(fam, records)
    ensures var after := Enriched(v, fam, g, records, gate);
            Good(v, fam, after) && (OrphanFree(g) ==> OrphanFree(after))
  {
    EnrichedKeepsNames(v, fam, g, records, gate);
    EnrichedKeepsCoherent(v, fam, g, records, gate);
    if OrphanFree(g) {
      ReconcileLeavesNoOrphan(v, fam, g.(releases := Rewrites(v, g.releases, records, gate)),
                              PlansFor(v, g.releases, records, gate));
    }
  }

  lemma DeliverKeepsGood(v: Vocabulary, fam: Id -> Id, g: Graph, d: Delivery)
    requires Good(v, fam, g) && DeliveryFiled(fam, d)
    ensures Good(v, fam, Deliver(v, g, d, true))
    ensures OrphanFree(g) ==> OrphanFree(Deliver(v, g, d, true))
    ensures Deliver(v, g, d, true) == Deliver(v, g, d, false)
  {
    match d
    case Single(r) =>
      OneIsEnriched(v, fam, g, r, true);
      OneIsEnriched(v, fam, g, r, false);
      BatchKeepsGood(v, fam, g, [r], true);
      GateIsTransparent(v, fam, g, [r]);
    case Batch(rs) =>
      ManyIsEnriched(v, fam, g, rs, true);
      ManyIsEnriched(v, fam, g, rs, false);
      BatchKeepsGood(v, fam, g, rs, true);
      GateIsTransparent(v, fam, g, rs);
    case Elsewhere(e, qty) => ElsewhereKeepsGood(v, fam, g, e, qty);
  }

  /**
   Over any run of single and batched deliveries: every stored digest stays true of the graph, no
   edge dangles, an orphan-free graph stays orphan-free, and the run with the gate leaves exactly the
   graph of the run that rewrites everything.
   */
  lemma {:induction false} RunsAreTransparent(v: Vocabulary, fam: Id -> Id, g: Graph, ds: seq<Delivery>)
    requires Good(v, fam, g) && forall i | 0 <= i < |ds| :: DeliveryFiled(fam, ds[i])
    ensures var after := DeliverAll(v, g, ds, true);
            && Good(v, fam, after)
            && (OrphanFree(g) ==> OrphanFree(after))
            && after == DeliverAll(v, g, ds, false)
  {
    if ds != [] {
      RunsAreTransparent(v, fam, g, ds[..|ds| - 1]);
      DeliverKeepsGood(v, fam, DeliverAll(v, g, ds[..|ds| - 1], true), ds[|ds| - 1]);
    }
  }

  // ------------------------------------------------------------ lock lists along runs

  lemma DeliverKeepsFiled(v: Vocabulary, fam: Id -> Id, g: Graph, d: Delivery)
    requires Good(v, fam, g) && DeliveryFiled(fam, d) && MusicBrainzFiled(fam, g)
    ensures MusicBrainzFiled(fam, Deliver(v, g, d, true))
  {
    match d
    case Single(r) =>
      OneIsEnriched(v, fam, g, r, true);
      EnrichedKeepsFiled(v, fam, g, [r]);
    case Batch(rs) =>
      ManyIsEnriched(v, fam, g, rs, true);
      EnrichedKeepsFiled(v, fam, g, rs);
    case Elsewhere(_, _) =>
  }

  lemma EnrichedKeepsFiled(v: Vocabulary, fam: Id -> Id, g: Graph, records: seq<Record>)
    requires MusicBrainzFiled(fam, g)
    ensures MusicBrainzFiled(fam, Enriched(v, fam, g, records, true))
  {
    ReconcileKeepsFiled(v, fam, g.(releases := Rewrites(v, g.releases, records, true)),
                        PlansFor(v, g.releases, records, true));
  }

  /** Every musicbrainz edge's medium stays filed, along any run. */
  lemma {:induction false} RunsKeepFiled(v: Vocabulary, fam: Id -> Id, g: Graph, ds: seq<Delivery>)
    requires Good(v, fam, g) && MusicBrainzFiled(fam, g) && forall i | 0 <= i < |ds| :: DeliveryFiled(fam, ds[i])
    ensures MusicBrainzFiled(fam, DeliverAll(v, g, ds, true))
  {
    if ds != [] {
      RunsKeepFiled(v, fam, g, ds[..|ds| - 1]);
      RunsAreTransparent(v, fam, g, ds[..|ds| - 1]);
      DeliverKeepsFiled(v, fam, DeliverAll(v, g, ds[..|ds| - 1], true), ds[|ds| - 1]);
    }
  }

  /** The delivery writes no release of the plans. */
  ghost predicate Spares(mine: Plans, d: Delivery) {
    match d
    case Single(r) => r.id != Absent ==> Str(r.id) !in mine
    case Batch(rs) => forall i | 0 <= i < |rs| && rs[i].id != Absent :: Str(rs[i].id) !in mine
    case Elsewhere(_, _) => true
  }

  lemma SparingPlans(v: Vocabulary, table: Table, records: seq<Record>, mine: Plans)
    requires forall i | 0 <= i < |records| && records[i].id != Absent :: Str(records[i].id) !in mine
    ensures mine.Keys !! PlansFor(v, table, records, true).Keys
  {}

  lemma EnrichedKeepsLockList(v: Vocabulary, fam: Id -> Id, g: Graph, records: seq<Record>, mine: Plans)
    requires WellNamed(v, fam, g) && MusicBrainzFiled(fam, g)
    requires forall i | 0 <= i < |records| && records[i].id != Absent :: Str(records[i].id) !in mine
    ensures var after := Enriched(v, fam, g, records, true);
            StaleFamilies(after, mine) == StaleFamilies(g, mine) && StaleMediums(after, mine) == StaleMediums(g, mine)
  {
    var start := g.(releases := Rewrites(v, g.releases, records, true));
    SparingPlans(v, g.releases, records, mine);
    HeldFollowFromFiled(fam, start, mine);
    LockListIsStable(v, fam, start, mine, PlansFor(v, g.releases, records, true));
    NodesHoldNothing(g, start.releases, mine);
  }

  /** What a write holds does not depend on the release nodes. */
  lemma NodesHoldNothing(g: Graph, releases: Table, mine: Plans)
    ensures StaleFamilies(g.(releases := releases), mine) == StaleFamilies(g, mine)
    ensures StaleMediums(g.(releases := releases), mine) == StaleMediums(g, mine)
  {
    forall m ensures Held(g.(releases := releases), mine, m) <==> Held(g, mine, m) {}
  }

  lemma ElsewhereKeepsLockList(g: Graph, mine: Plans, e: Issue, qty: int)
    requires e.source != MusicBrainz
    ensures var after := g.(issued := g.issued[e := qty]);
            StaleFamilies(after, mine) == StaleFamilies(g, mine) && StaleMediums(after, mine) == StaleMediums(g, mine)
  {
    var after := g.(issued := g.issued[e := qty]);
    forall m ensures Held(after, mine, m) <==> Held(g, mine, m) {}
    forall m ensures m in StaleMediums(after, mine) <==> m in StaleMediums(g, mine) {
      if m in StaleMediums(g, mine) {
        var x :| x in g.issued && Stale(mine, x) && x.medium == m;
        assert x in after.issued;
      }
    }
  }

  lemma DeliverKeepsLockList(v: Vocabulary, fam: Id -> Id, g: Graph, mine: Plans, d: Delivery)
    requires Good(v, fam, g) && MusicBrainzFiled(fam, g) && DeliveryFiled(fam, d) && Spares(mine, d)
    ensures var after := Deliver(v, g, d, true);
            StaleFamilies(after, mine) == StaleFamilies(g, mine) && StaleMediums(after, mine) == StaleMediums(g, mine)
  {
    match d
    case Single(r) =>
      OneIsEnriched(v, fam, g, r, true);
      EnrichedKeepsLockList(v, fam, g, [r], mine);
    case Batch(rs) =>
      ManyIsEnriched(v, fam, g, rs, true);
      EnrichedKeepsLockList(v, fam, g, rs, mine);
    case Elsewhere(e, qty) =>
      if e.source != MusicBrainz { ElsewhereKeepsLockList(g, mine, e, qty); }
  }

  /**
   While a write holds its releases, any number of other deliveries, single, batched or another
   catalog's, may commit: the stale families and mediums its lock statements read stay what they were.
   */
  lemma {:induction false} LockListsStayAlongRuns(v: Vocabulary, fam: Id -> Id, g: Graph, mine: Plans,
                                                  ds: seq<Delivery>)
    requires Good(v, fam, g) && MusicBrainzFiled(fam, g)
    requires forall i | 0 <= i < |ds| :: DeliveryFiled(fam, ds[i]) && Spares(mine, ds[i])
    ensures var after := DeliverAll(v, g, ds, true);
            StaleFamilies(after, mine) == StaleFamilies(g, mine) && StaleMediums(after, mine) == StaleMediums(g, mine)
  {
    if ds != [] {
      var front := ds[..|ds| - 1];
      LockListsStayAlongRuns(v, fam, g, mine, front);
      RunsAreTransparent(v, fam, g, front);
      RunsKeepFiled(v, fam, g, front);
      DeliverKeepsLockList(v, fam, DeliverAll(v, g, front, true), mine, ds[|ds| - 1]);
    }
  }

  // ------------------------------------------------------------ pruning is exact

  /** Every edge to the medium, from any release and catalog, is one this write takes off. */
  ghost predicate AllUsesTakenOff(g: Graph, plans: Plans, m: Id) {
    forall e | e in g.issued && e.medium == m :: Stale(plans, e)
  }

  /**
   A write deletes a medium exactly when it takes a musicbrainz edge off it, attaches none to it,
   leaves no edge of any catalog on it, and no other relationship touches it.
   */
  lemma PruneIsExact(v: Vocabulary, fam: Id -> Id, g: Graph, records: seq<Record>, gate: bool, m: Id)
    requires WellNamed(v, fam, g) && RecordsFiled(fam, records) && m in g.mediums
    ensures var plans := PlansFor(v, g.releases, records, gate);
            m !in EnrichMany(v, g, records, gate).mediums <==>
              Dropped(g.issued, plans, m) && !Attached(plans, m) && AllUsesTakenOff(g, plans, m) && m !in g.linked
  {
    var plans := PlansFor(v, g.releases, records, gate);
    ManyIsEnriched(v, fam, g, records, gate);
    if Attached(plans, m) {
      AttachedInUse(g.issued, plans, m);
    } else {
      forall e: Issue | e.medium == m ensures e in IssuedAfter(g.issued, plans) <==> e in g.issued && !Stale(plans, e) {
        IssuedAfterHas(g.issued, plans, e);
        if e.source == MusicBrainz && e.release in plans { assert !Lists(plans[e.release].rows, m); }
      }
      assert InUse(IssuedAfter(g.issued, plans), m) <==> !AllUsesTakenOff(g, plans, m);
    }
  }

  /** The same for a single write. */
  lemma SinglePruneIsExact(v: Vocabulary, fam: Id -> Id, g: Graph, r: Record, gate: bool, m: Id)
    requires WellNamed(v, fam, g) && RecordFiled(fam, r) && m in g.mediums
    ensures var plans := PlansFor(v, g.releases, [r], gate);
            m !in EnrichOne(v, g, r, gate).mediums <==>
              Dropped(g.issued, plans, m) && !Attached(plans, m) && AllUsesTakenOff(g, plans, m) && m !in g.linked
  {
    OneIsEnriched(v, fam, g, r, gate);
    ManyIsEnriched(v, fam, g, [r], gate);
    PruneIsExact(v, fam, g, [r], gate, m);
  }

  /** The plans one delivery carries out; another catalog has none. */
  function DeliveryPlans(v: Vocabulary, g: Graph, d: Delivery): Plans {
    match d
    case Single(r) => PlansFor(v, g.releases, [r], true)
    case Batch(rs) => PlansFor(v, g.releases, rs, true)
    case Elsewhere(_, _) => map[]
  }

  /**
   Along any run: the next delivery deletes a medium that is there exactly when it takes a musicbrainz
   edge off it, attaches none, leaves no edge of any catalog on it, and nothing else touches it.
   */
  lemma RunsPruneExactly(v: Vocabulary, fam: Id -> Id, g: Graph, ds: seq<Delivery>, d: Delivery, m: Id)
    requires Good(v, fam, g) && DeliveryFiled(fam, d) && forall i | 0 <= i < |ds| :: DeliveryFiled(fam, ds[i])
    requires m in DeliverAll(v, g, ds, true).mediums
    ensures var mid := DeliverAll(v, g, ds, true);
            var plans := DeliveryPlans(v, mid, d);
            m !in DeliverAll(v, g, ds + [d], true).mediums <==>
              Dropped(mid.issued, plans, m) && !Attached(plans, m) && AllUsesTakenOff(mid, plans, m) && m !in mid.linked
  {
    var mid := DeliverAll(v, g, ds, true);
    assert (ds + [d])[..|ds|] == ds;
    RunsAreTransparent(v, fam, g, ds);
    match d
    case Single(r) => SinglePruneIsExact(v, fam, mid, r, true, m);
    case Batch(rs) => PruneIsExact(v, fam, mid, rs, true, m);
    case Elsewhere(_, _) =>
  }

  /** Another catalog's edges, and the releases this write has no plan for, keep their edges and quantities. */
  lemma OtherEdgesKept(v: Vocabulary, fam: Id -> Id, g: Graph, records: seq<Record>, gate: bool, e: Issue)
    requires WellNamed(v, fam, g) && RecordsFiled(fam, records)
    requires e.source != MusicBrainz || e.release !in PlansFor(v, g.releases, records, gate)
    ensures var after := EnrichMany(v, g, records, gate);
            (e in after.issued <==> e in g.issued) && (e in g.issued ==> after.issued[e] == g.issued[e])
  {
    ManyIsEnriched(v, fam, g, records, gate);
    IssuedAfterHas(g.issued, PlansFor(v, g.releases, records, gate), e);
  }

  ghost predicate OwnDelivery(d: Delivery) { !d.Elsewhere? }

  /** However many deliveries run, another catalog never loses or sees changed an edge it wrote. */
  lemma {:induction false} OtherCatalogsKeepTheirEdges(v: Vocabulary, fam: Id -> Id, g: Graph, ds: seq<Delivery>,
                                                       e: Issue)
    requires Good(v, fam, g) && forall i | 0 <= i < |ds| :: DeliveryFiled(fam, ds[i]) && OwnDelivery(ds[i])
    requires e.source != MusicBrainz
    ensures var after := DeliverAll(v, g, ds, true);
            (e in after.issued <==> e in g.issued) && (e in g.issued ==> after.issued[e] == g.issued[e])
  {
    if ds != [] {
      var front, last := ds[..|ds| - 1], ds[|ds| - 1];
      var mid := DeliverAll(v, g, front, true);
      OtherCatalogsKeepTheirEdges(v, fam, g, front, e);
      RunsAreTransparent(v, fam, g, front);
      assert DeliveryFiled(fam, last) && OwnDelivery(last);
      match last
      case Single(r) =>
        OneIsEnriched(v, fam, mid, r, true);
        ManyIsEnriched(v, fam, mid, [r], true);
        OtherEdgesKept(v, fam, mid, [r], true, e);
      case Batch(rs) => OtherEdgesKept(v, fam, mid, rs, true, e);
    }
  }
}
