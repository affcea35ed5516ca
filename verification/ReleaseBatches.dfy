/** A batch of releases leaves the graph its records leave one by one, in any order. */
module ReleaseBatches {
  import opened Identifiers
  import opened MediaRows
  import opened CatalogGraph
  import opened MediaReconcile
  import opened MediaLocks
  import opened EntityGate
  import opened ReleaseProjection

  // ------------------------------------------------------------ closed form of an enrichment

  /** The id's last record was rewritten and says something about media. */
  predicate Projects(v: Vocabulary, table: Table, records: seq<Record>, gate: bool, id: Id) {
    var last := LastIndex(Entries(v, records), id);
    last.Some? && id in table && ProjectsMedia(v, table, records, gate, last.value)
  }

  function LastPlan(v: Vocabulary, records: seq<Record>, id: Id): Plan
    requires LastIndex(Entries(v, records), id).Some?
    requires PlanOf(v, records[LastIndex(Entries(v, records), id).value]).Some?
  {
    PlanOf(v, records[LastIndex(Entries(v, records), id).value]).value
  }

  function PlansFor(v: Vocabulary, table: Table, records: seq<Record>, gate: bool): Plans {
    map id | id in table && Projects(v, table, records, gate, id) :: LastPlan(v, records, id)
  }

  function Rewrites(v: Vocabulary, table: Table, records: seq<Record>, gate: bool): Table {
    BatchTable(table, Entries(v, records), gate)
  }

  function Enriched(v: Vocabulary, fam: Id -> Id, g: Graph, records: seq<Record>, gate: bool): Graph {
    Reconciled(v, fam, g.(releases := Rewrites(v, g.releases, records, gate)), PlansFor(v, g.releases, records, gate))
  }

  /** Every record's media block files each medium under its one family. */
  ghost predicate RecordFiled(fam: Id -> Id, r: Record) {
    MediaBlock(r).Some? ==> Filed(fam, MediaBlock(r).value.items)
  }

  ghost predicate RecordsFiled(fam: Id -> Id, records: seq<Record>) {
    forall i | 0 <= i < |records| :: RecordFiled(fam, records[i])
  }

  lemma PlanIsNamed(v: Vocabulary, fam: Id -> Id, r: Record)
    requires RecordFiled(fam, r) && PlanOf(v, r).Some?
    ensures PlanNamed(v, fam, PlanOf(v, r).value)
  {
    var items := MediaBlock(r).value.items;
    var rows := EdgeRows(v, items);
    forall i | 0 <= i < |rows| ensures RowNamed(v, fam, rows[i]) {
      FirstFamilyIsFiled(fam, items, FirstSeen(items)[i]);
    }
  }

  // ------------------------------------------------------------ the statements reach the closed form

  lemma ProjectsAt(v: Vocabulary, table: Table, records: seq<Record>, gate: bool, i: nat, id: Id)
    requires i < |records|
    ensures ProjectsMedia(v, table, records, gate, i) && Str(records[i].id) == id
       <==> LastIndex(Entries(v, records), id) == Some(i) && Projects(v, table, records, gate, id)
  {
    var es := Entries(v, records);
    assert es[i].id == records[i].id;
    if LastIndex(es, id) == Some(i) { LastIsLast(es, id); }
  }

  /** The dictionary after `k` records holds exactly the ids whose last record is among them. */
  lemma {:induction false} PlansToHas(v: Vocabulary, table: Table, records: seq<Record>, gate: bool, k: nat, id: Id)
    requires k <= |records|
    ensures id in PlansTo(v, table, records, gate, k)
       <==> Projects(v, table, records, gate, id) && LastIndex(Entries(v, records), id).value < k
    ensures id in PlansTo(v, table, records, gate, k) ==>
            PlansTo(v, table, records, gate, k)[id] == LastPlan(v, records, id)
  {
    if k > 0 {
      PlansToHas(v, table, records, gate, k - 1, id);
      ProjectsAt(v, table, records, gate, k - 1, id);
    }
  }

  lemma PlansToAll(v: Vocabulary, table: Table, records: seq<Record>, gate: bool)
    ensures PlansTo(v, table, records, gate, |records|) == PlansFor(v, table, records, gate)
  {
    var plans := PlansTo(v, table, records, gate, |records|);
    forall id ensures (id in plans <==> id in PlansFor(v, table, records, gate))
                   && (id in plans ==> plans[id] == LastPlan(v, records, id)) {
      PlansToHas(v, table, records, gate, |records|, id);
    }
  }

  lemma {:induction false} ItemsToHas(v: Vocabulary, table: Table, records: seq<Record>, gate: bool, k: nat,
                                      item: (Id, Row))
    requires k <= |records|
    ensures var plans := PlansTo(v, table, records, gate, k);
            item in ItemsTo(v, table, records, gate, k) <==> item.0 in plans && item.1 in plans[item.0].rows
  {
    if k > 0 {
      ItemsToHas(v, table, records, gate, k - 1, item);
      if ProjectsMedia(v, table, records, gate, k - 1) {
        var key, rows := Str(records[k - 1].id), PlanOf(v, records[k - 1]).value.rows;
        PlansToHas(v, table, records, gate, k - 1, key);
        ItemsForHas(key, rows, item);
      }
    }
  }

  lemma ItemsForHas(release: Id, rows: seq<Row>, item: (Id, Row))
    ensures item in ItemsFor(release, rows) <==> item.0 == release && item.1 in rows
  {
    if item.0 == release && item.1 in rows {
      var i :| 0 <= i < |rows| && rows[i] == item.1;
      assert ItemsFor(release, rows)[i] == item;
    }
  }

  /** With every medium under one name, a write is the closed form of its plans. */
  lemma MediaWriteReconciles(v: Vocabulary, fam: Id -> Id, g: Graph, plans: Plans, items: seq<(Id, Row)>)
    requires WellNamed(v, fam, g) && plans.Keys <= g.releases.Keys && PlansNamed(v, fam, plans)
    requires forall item :: item in items <==> item.0 in plans && item.1 in plans[item.0].rows
    ensures MediaWrite(g, plans, items) == Reconciled(v, fam, g, plans)
  {
    forall i | 0 <= i < |items| ensures items[i].0 in plans && items[i].1 in plans[items[i].0].rows {
      assert items[i] in items;
    }
    LockArgsFit(v, fam, plans, items);
    var locked := LockItems(RowsOf(items));
    StatementsReconcile(v, fam, g, plans, SortIds(FamiliesOf(locked)), locked, items);
  }

  lemma ReconcileNothing(v: Vocabulary, fam: Id -> Id, g: Graph)
    requires WellNamed(v, fam, g)
    ensures Reconciled(v, fam, g, map[]) == g
  {
    var after := Reconciled(v, fam, g, map[]);
    assert after.issued == g.issued;
    assert after.releases == g.releases;
    assert after.mediums == g.mediums;
    assert after.inFamily == g.inFamily;
    SameGraph(after, g);
  }

  lemma PlansForNamed(v: Vocabulary, fam: Id -> Id, table: Table, records: seq<Record>, gate: bool)
    requires RecordsFiled(fam, records)
    ensures PlansNamed(v, fam, PlansFor(v, table, records, gate))
    ensures PlansFor(v, table, records, gate).Keys <= table.Keys
  {
    var plans := PlansFor(v, table, records, gate);
    forall id | id in plans ensures PlanNamed(v, fam, plans[id]) {
      PlanIsNamed(v, fam, records[LastIndex(Entries(v, records), id).value]);
    }
  }

  lemma ManyIsEnriched(v: Vocabulary, fam: Id -> Id, g: Graph, records: seq<Record>, gate: bool)
    requires WellNamed(v, fam, g) && RecordsFiled(fam, records)
    ensures EnrichMany(v, g, records, gate) == Enriched(v, fam, g, records, gate)
  {
    var rewritten := g.(releases := Rewrites(v, g.releases, records, gate));
    var plans := PlansFor(v, g.releases, records, gate);
    PlansToAll(v, g.releases, records, gate);
    if plans == map[] {
      ReconcileNothing(v, fam, rewritten);
    } else {
      PlansForNamed(v, fam, g.releases, records, gate);
      forall item { ItemsToHas(v, g.releases, records, gate, |records|, item); }
      MediaWriteReconciles(v, fam, rewritten, plans, SortItems(ItemsTo(v, g.releases, records, gate, |records|)));
    }
  }

  lemma LastOfOne(v: Vocabulary, r: Record, id: Id)
    ensures LastIndex(Entries(v, [r]), id) == if EntityGate.Names(EntryOf(v, r), id) then Some(0) else None
  {
    var es := Entries(v, [r]);
    assert es[..0] == [];
  }

  lemma OneRewrites(v: Vocabulary, table: Table, r: Record, gate: bool)
    ensures Rewrites(v, table, [r], gate) == DeliverOne(table, EntryOf(v, r), gate)
  {
    forall id { LastOfOne(v, r, id); }
  }

  lemma OnePlans(v: Vocabulary, table: Table, r: Record, gate: bool)
    ensures PlansFor(v, table, [r], gate) ==
              if WritesMedia(v, table, r, gate) then map[Str(r.id) := PlanOf(v, r).value] else map[]
  {
    forall id { LastOfOne(v, r, id); }
    assert r.id != Absent ==> IsLast(Entries(v, [r]), 0);
  }

  predicate WritesMedia(v: Vocabulary, table: Table, r: Record, gate: bool) {
    var e := EntryOf(v, r);
    Matches(table, e) && Changed(table[Str(e.id)], DigestOf(e), gate) && PlanOf(v, r).Some?
  }

  lemma OneWithMedia(v: Vocabulary, g: Graph, r: Record, gate: bool)
    requires WritesMedia(v, g.releases, r, gate)
    ensures EnrichOne(v, g, r, gate) ==
              MediaWrite(g.(releases := Rewrites(v, g.releases, [r], gate)), PlansFor(v, g.releases, [r], gate),
                         ItemsFor(Str(r.id), PlanOf(v, r).value.rows))
  {
    OneRewrites(v, g.releases, r, gate);
    OnePlans(v, g.releases, r, gate);
  }

  lemma OneWithoutMedia(v: Vocabulary, g: Graph, r: Record, gate: bool)
    requires !WritesMedia(v, g.releases, r, gate)
    ensures PlansFor(v, g.releases, [r], gate) == map[]
    ensures EnrichOne(v, g, r, gate) == g.(releases := Rewrites(v, g.releases, [r], gate))
  {
    OneRewrites(v, g.releases, r, gate);
    OnePlans(v, g.releases, r, gate);
  }

  lemma OneItems(v: Vocabulary, table: Table, r: Record, gate: bool, item: (Id, Row))
    requires WritesMedia(v, table, r, gate)
    ensures var plans := PlansFor(v, table, [r], gate);
            item in ItemsFor(Str(r.id), PlanOf(v, r).value.rows) <==> item.0 in plans && item.1 in plans[item.0].rows
  {
    OnePlans(v, table, r, gate);
    ItemsForHas(Str(r.id), PlanOf(v, r).value.rows, item);
  }

  lemma OneIsEnriched(v: Vocabulary, fam: Id -> Id, g: Graph, r: Record, gate: bool)
    requires WellNamed(v, fam, g) && RecordFiled(fam, r)
    ensures EnrichOne(v, g, r, gate) == Enriched(v, fam, g, [r], gate)
  {
    var plans := PlansFor(v, g.releases, [r], gate);
    var rewritten := g.(releases := Rewrites(v, g.releases, [r], gate));
    if !WritesMedia(v, g.releases, r, gate) {
      OneWithoutMedia(v, g, r, gate);
      ReconcileNothing(v, fam, rewritten);
    } else {
      OneWithMedia(v, g, r, gate);
      PlansForNamed(v, fam, g.releases, [r], gate);
      forall item { OneItems(v, g.releases, r, gate, item); }
      MediaWriteReconciles(v, fam, rewritten, plans, ItemsFor(Str(r.id), PlanOf(v, r).value.rows));
    }
  }

  // ------------------------------------------------------------ one more record

  /** No two records name the same release. */
  ghost predicate DistinctIds(records: seq<Record>) {
    forall i, j | 0 <= i < j < |records| && records[i].id != Absent && records[j].id != Absent ::
      Str(records[i].id) != Str(records[j].id)
  }

  lemma LastOfMore(v: Vocabulary, front: seq<Record>, x: Record, id: Id)
    ensures LastIndex(Entries(v, front + [x]), id) ==
              if EntityGate.Names(EntryOf(v, x), id) then Some(|front|) else LastIndex(Entries(v, front), id)
  {
    var es := Entries(v, front + [x]);
    assert es[..|front|] == Entries(v, front);
  }

  lemma NotBefore(v: Vocabulary, front: seq<Record>, x: Record, id: Id)
    requires DistinctIds(front + [x]) && EntityGate.Names(EntryOf(v, x), id)
    ensures LastIndex(Entries(v, front), id).None?
  {
    var all := front + [x];
    assert all[|front|] == x;
    assert forall i | 0 <= i < |front| :: all[i] == front[i];
    assert forall i | 0 <= i < |front| && front[i].id != Absent :: Str(front[i].id) != id;
  }

  /** Whether an id projects depends on its own node and its own last record only. */
  lemma ProjectsLocally(v: Vocabulary, table: Table, records: seq<Record>, gate: bool, id: Id)
    ensures var last := LastIndex(Entries(v, records), id);
            Projects(v, table, records, gate, id) <==>
              last.Some? && id in table && Changed(table[id], DigestOf(EntryOf(v, records[last.value])), gate)
              && PlanOf(v, records[last.value]).Some?
  {
    if LastIndex(Entries(v, records), id).Some? { LastIsLast(Entries(v, records), id); }
  }

  lemma PlanOfMore(v: Vocabulary, table: Table, later: Table, front: seq<Record>, x: Record, gate: bool, id: Id)
    requires DistinctIds(front + [x])
    requires later.Keys == table.Keys && (id in table && LastIndex(Entries(v, front), id).None? ==>
                                          later[id] == table[id])
    ensures var a, b, both := PlansFor(v, table, front, gate), PlansFor(v, later, [x], gate),
            PlansFor(v, table, front + [x], gate);
            !(id in a && id in b) && (id in both <==> id in a || id in b)
            && (id in both ==> both[id] == if id in b then b[id] else a[id])
  {
    LastOfMore(v, front, x, id);
    LastOfOne(v, x, id);
    ProjectsLocally(v, table, front + [x], gate, id);
    ProjectsLocally(v, table, front, gate, id);
    ProjectsLocally(v, later, [x], gate, id);
    if EntityGate.Names(EntryOf(v, x), id) { NotBefore(v, front, x, id); }
  }

  lemma JoinedPointwise(a: Plans, b: Plans, both: Plans)
    requires forall id :: !(id in a && id in b) && (id in both <==> id in a || id in b)
    requires forall id | id in both :: both[id] == if id in b then b[id] else a[id]
    ensures a.Keys !! b.Keys && both == Joined(a, b)
  {}

  lemma PlansOfMore(v: Vocabulary, table: Table, later: Table, front: seq<Record>, x: Record, gate: bool)
    requires DistinctIds(front + [x])
    requires later.Keys == table.Keys && forall id | id in table && LastIndex(Entries(v, front), id).None? ::
                                           later[id] == table[id]
    ensures var a, b := PlansFor(v, table, front, gate), PlansFor(v, later, [x], gate);
            a.Keys !! b.Keys && PlansFor(v, table, front + [x], gate) == Joined(a, b)
  {
    var a, b, both := PlansFor(v, table, front, gate), PlansFor(v, later, [x], gate),
        PlansFor(v, table, front + [x], gate);
    forall id ensures !(id in a && id in b) && (id in both <==> id in a || id in b)
                   && (id in both ==> both[id] == if id in b then b[id] else a[id]) {
      PlanOfMore(v, table, later, front, x, gate, id);
    }
    JoinedPointwise(a, b, both);
  }

  lemma RewritesOfMore(v: Vocabulary, table: Table, front: seq<Record>, x: Record, gate: bool, id: Id)
    requires DistinctIds(front + [x]) && id in table
    ensures Rewrites(v, table, front + [x], gate)[id] ==
              if EntityGate.Names(EntryOf(v, x), id) then Rewritten(table[id], EntryOf(v, x), gate)
              else Rewrites(v, table, front, gate)[id]
  {
    LastOfMore(v, front, x, id);
  }

  /** A graph's release nodes take no part in what a write does to the rest. */
  lemma ReleasesAside(v: Vocabulary, fam: Id -> Id, g: Graph, releases: Table, plans: Plans)
    ensures Reconciled(v, fam, g.(releases := releases), plans)
         == Reconciled(v, fam, g, plans).(releases := Summarised(releases, plans))
  {
    var h := g.(releases := releases);
    assert forall m :: Pruned(h, plans, m) <==> Pruned(g, plans, m);
    SameGraph(Reconciled(v, fam, h, plans), Reconciled(v, fam, g, plans).(releases := Summarised(releases, plans)));
  }

  lemma NodeOfMore(v: Vocabulary, table: Table, front: seq<Record>, x: Record, gate: bool, id: Id)
    requires DistinctIds(front + [x]) && id in table
    ensures var later := Summarised(Rewrites(v, table, front, gate), PlansFor(v, table, front, gate));
            Rewrites(v, later, [x], gate)[id] ==
              Summarised(Rewrites(v, table, front + [x], gate), PlansFor(v, table, front, gate))[id]
  {
    RewritesOfMore(v, table, front, x, gate, id);
    LastOfOne(v, x, id);
    if EntityGate.Names(EntryOf(v, x), id) { NotBefore(v, front, x, id); }
  }

  lemma NodesAligned(v: Vocabulary, table: Table, front: seq<Record>, x: Record, gate: bool)
    requires DistinctIds(front + [x])
    ensures var a := PlansFor(v, table, front, gate);
            Rewrites(v, Summarised(Rewrites(v, table, front, gate), a), [x], gate)
              == Summarised(Rewrites(v, table, front + [x], gate), a)
  {
    forall id | id in table { NodeOfMore(v, table, front, x, gate, id); }
  }

  /** The nodes that one record after another leaves are the nodes the batch leaves. */
  lemma NodesOfMore(v: Vocabulary, table: Table, front: seq<Record>, x: Record, gate: bool)
    requires DistinctIds(front + [x])
    ensures var a := PlansFor(v, table, front, gate);
            var later := Summarised(Rewrites(v, table, front, gate), a);
            var b := PlansFor(v, later, [x], gate);
            Summarised(Rewrites(v, later, [x], gate), b) ==
              Summarised(Rewrites(v, table, front + [x], gate), PlansFor(v, table, front + [x], gate))
  {
    var a := PlansFor(v, table, front, gate);
    var later := Summarised(Rewrites(v, table, front, gate), a);
    var all := Rewrites(v, table, front + [x], gate);
    UntouchedBefore(v, table, front, gate);
    PlansOfMore(v, table, later, front, x, gate);
    NodesAligned(v, table, front, x, gate);
    SummarisedCompose(all, a, PlansFor(v, later, [x], gate));
  }

  lemma UntouchedBefore(v: Vocabulary, table: Table, front: seq<Record>, gate: bool)
    ensures var later := Summarised(Rewrites(v, table, front, gate), PlansFor(v, table, front, gate));
            later.Keys == table.Keys && forall id | id in table && LastIndex(Entries(v, front), id).None? ::
                                          later[id] == table[id]
  {}

  /** Adding a record on another release to a batch is delivering it after the batch. */
  lemma EnrichedStep(v: Vocabulary, fam: Id -> Id, g: Graph, front: seq<Record>, x: Record, gate: bool)
    requires WellNamed(v, fam, g) && DistinctIds(front + [x])
    ensures Enriched(v, fam, Enriched(v, fam, g, front, gate), [x], gate) == Enriched(v, fam, g, front + [x], gate)
  {
    var a := PlansFor(v, g.releases, front, gate);
    var start := g.(releases := Rewrites(v, g.releases, front, gate));
    var one := Reconciled(v, fam, start, a);
    var b := PlansFor(v, one.releases, [x], gate);
    UntouchedBefore(v, g.releases, front, gate);
    PlansOfMore(v, g.releases, one.releases, front, x, gate);
    ReconcileComposes(v, fam, start, a, b);
    NodesOfMore(v, g.releases, front, x, gate);
    ReleasesAside(v, fam, one, Rewrites(v, one.releases, [x], gate), b);
    ReleasesAside(v, fam, start, Rewrites(v, g.releases, front + [x], gate), Joined(a, b));
  }

  // ------------------------------------------------------------ whole batches

  function EnrichInOrder(v: Vocabulary, g: Graph, records: seq<Record>, gate: bool): Graph {
    if records == [] then g
    else EnrichOne(v, EnrichInOrder(v, g, records[..|records| - 1], gate), records[|records| - 1], gate)
  }

  lemma EnrichedKeepsNames(v: Vocabulary, fam: Id -> Id, g: Graph, records: seq<Record>, gate: bool)
    requires WellNamed(v, fam, g) && RecordsFiled(fam, records)
    ensures WellNamed(v, fam, Enriched(v, fam, g, records, gate))
    ensures Enriched(v, fam, g, records, gate).releases.Keys == g.releases.Keys
  {
    PlansForNamed(v, fam, g.releases, records, gate);
    ReconcileKeepsNames(v, fam, g.(releases := Rewrites(v, g.releases, records, gate)),
                        PlansFor(v, g.releases, records, gate));
  }

  lemma {:induction false} InOrderIsEnriched(v: Vocabulary, fam: Id -> Id, g: Graph, records: seq<Record>, gate: bool)
    requires WellNamed(v, fam, g) && RecordsFiled(fam, records) && DistinctIds(records)
    ensures EnrichInOrder(v, g, records, gate) == Enriched(v, fam, g, records, gate)
  {
    if records == [] {
      assert PlansFor(v, g.releases, [], gate) == map[];
      assert Rewrites(v, g.releases, [], gate) == g.releases;
      ReconcileNothing(v, fam, g);
    } else {
      var front, x := records[..|records| - 1], records[|records| - 1];
      assert records == front + [x];
      InOrderIsEnriched(v, fam, g, front, gate);
      EnrichedKeepsNames(v, fam, g, front, gate);
      OneIsEnriched(v, fam, Enriched(v, fam, g, front, gate), x, gate);
      EnrichedStep(v, fam, g, front, x, gate);
    }
  }

  lemma SameLast(v: Vocabulary, a: seq<Record>, b: seq<Record>, id: Id)
    requires DistinctIds(a) && DistinctIds(b) && forall r :: r in a <==> r in b
    ensures var i, j := LastIndex(Entries(v, a), id), LastIndex(Entries(v, b), id);
            (i.Some? <==> j.Some?) && (i.Some? ==> a[i.value] == b[j.value])
  {
    var i, j := LastIndex(Entries(v, a), id), LastIndex(Entries(v, b), id);
    if i.Some? {
      assert a[i.value] in b;
      var k :| 0 <= k < |b| && b[k] == a[i.value];
      LastIndexMeans(Entries(v, b), id, k);
    }
    if j.Some? {
      assert b[j.value] in a;
      var k :| 0 <= k < |a| && a[k] == b[j.value];
      LastIndexMeans(Entries(v, a), id, k);
    }
  }

  lemma EnrichedInAnyOrder(v: Vocabulary, fam: Id -> Id, g: Graph, a: seq<Record>, b: seq<Record>, gate: bool)
    requires DistinctIds(a) && DistinctIds(b) && forall r :: r in a <==> r in b
    ensures Enriched(v, fam, g, a, gate) == Enriched(v, fam, g, b, gate)
  {
    forall id { SameLast(v, a, b, id); }
    assert Rewrites(v, g.releases, a, gate) == Rewrites(v, g.releases, b, gate);
    var pa, pb := PlansFor(v, g.releases, a, gate), PlansFor(v, g.releases, b, gate);
    forall id ensures (id in pa <==> id in pb) && (id in pa ==> pa[id] == pb[id]) {
      ProjectsLocally(v, g.releases, a, gate, id);
      ProjectsLocally(v, g.releases, b, gate, id);
    }
    assert pa == pb;
  }

  /**
   A batch on distinct releases leaves the whole graph that its records leave one at a time, taken in
   any order: fields, digests, summaries, edges with quantities, mediums, families and IN_FAMILY edges,
   even where one release drops a medium that another attaches.
   */
  lemma BatchIsAnyOrder(v: Vocabulary, fam: Id -> Id, g: Graph, batch: seq<Record>, order: seq<Record>, gate: bool)
    requires WellNamed(v, fam, g) && RecordsFiled(fam, batch)
    requires DistinctIds(batch) && DistinctIds(order) && forall r :: r in batch <==> r in order
    ensures EnrichMany(v, g, batch, gate) == EnrichInOrder(v, g, order, gate)
  {
    forall i | 0 <= i < |order| ensures RecordFiled(fam, order[i]) {
      assert order[i] in batch;
    }
    ManyIsEnriched(v, fam, g, batch, gate);
    InOrderIsEnriched(v, fam, g, order, gate);
    EnrichedInAnyOrder(v, fam, g, batch, order, gate);
  }
}
