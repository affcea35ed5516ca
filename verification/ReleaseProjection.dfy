/**
 Enriching releases one at a time and in batches: fields, digest, media summary and media edges.
 */
module ReleaseProjection {
  import opened Sorting
  import opened Identifiers
  import opened MediaRows
  import opened CatalogGraph
  import opened MediaReconcile
  import opened MediaLocks
  import opened EntityGate

  /** A release event: its mapped fields, its media block, and the block a mapper derives from raw media. */
  datatype Record = Record(id: RawId, fields: Fields, canonical: Option<Media>, derived: Option<Media>)

  /** The canonical block when the event has one, else the derived one, else nothing is known. */
  function MediaBlock(r: Record): Option<Media> {
    if r.canonical.Some? then r.canonical else r.derived
  }

  function PlanFrom(v: Vocabulary, media: Media): Plan {
    Plan(Summary(media.families, MappingCount(media.items)), EdgeRows(v, media.items))
  }

  function PlanOf(v: Vocabulary, r: Record): Option<Plan> {
    match MediaBlock(r)
    case None => None
    case Some(media) => Some(PlanFrom(v, media))
  }

  /** The digest covers what the media block projects, not the block itself. */
  function EntryOf(v: Vocabulary, r: Record): Entry {
    var plan := PlanOf(v, r);
    Entry(r.id, r.fields, if plan.Some? then MediaExtra(plan.value.summary, plan.value.rows) else NoExtra)
  }

  function Entries(v: Vocabulary, records: seq<Record>): (es: seq<Entry>)
    ensures |es| == |records| && forall i | 0 <= i < |es| :: es[i] == EntryOf(v, records[i])
  {
    seq(|records|, i requires 0 <= i < |records| => EntryOf(v, records[i]))
  }

  function ItemsFor(release: Id, rows: seq<Row>): seq<(Id, Row)> {
    seq(|rows|, i requires 0 <= i < |rows| => (release, rows[i]))
  }

  /** The statements of one write, given its plans and its edge items. */
  function MediaWrite(g: Graph, plans: Plans, items: seq<(Id, Row)>): Graph {
    var locked := LockItems(RowsOf(items));
    MediaStatements(g, plans, SortIds(FamiliesOf(locked)), locked, items)
  }

  // ------------------------------------------------------------ one record

  function EnrichOne(v: Vocabulary, g: Graph, r: Record, gate: bool): Graph {
    var e, plan := EntryOf(v, r), PlanOf(v, r);
    if !Matches(g.releases, e) then g
    else
      var key := Str(r.id);
      var rewritten := g.(releases := DeliverOne(g.releases, e, gate));
      if Changed(g.releases[key], DigestOf(e), gate) && plan.Some?
      then MediaWrite(rewritten, map[key := plan.value], ItemsFor(key, plan.value.rows))
      else rewritten
  }

  // ------------------------------------------------------------ many records

  /** The record at `i` stands for its id, is matched, was rewritten, and says something about media. */
  predicate ProjectsMedia(v: Vocabulary, table: Table, records: seq<Record>, gate: bool, i: nat)
    requires i < |records|
  {
    var es := Entries(v, records);
    IsLast(es, i) && Matches(table, es[i]) && Changed(table[Str(es[i].id)], DigestOf(es[i]), gate)
        && PlanOf(v, records[i]).Some?
  }

  /** The `summaries` dictionary after the first `k` records. */
  function PlansTo(v: Vocabulary, table: Table, records: seq<Record>, gate: bool, k: nat): Plans
    requires k <= |records|
  {
    if k == 0 then map[]
    else
      var before := PlansTo(v, table, records, gate, k - 1);
      if ProjectsMedia(v, table, records, gate, k - 1)
      then before[Str(records[k - 1].id) := PlanOf(v, records[k - 1]).value]
      else before
  }

  /** The edge rows of the first `k` records, in record order. */
  function ItemsTo(v: Vocabulary, table: Table, records: seq<Record>, gate: bool, k: nat): seq<(Id, Row)>
    requires k <= |records|
  {
    if k == 0 then []
    else
      var before := ItemsTo(v, table, records, gate, k - 1);
      if ProjectsMedia(v, table, records, gate, k - 1)
      then before + ItemsFor(Str(records[k - 1].id), PlanOf(v, records[k - 1]).value.rows)
      else before
  }

  predicate ItemPrecedes(a: (Id, Row), b: (Id, Row)) {
    Precedes(a.1.medium, b.1.medium) || (a.1.medium == b.1.medium && Precedes(a.0, b.0))
  }

  /** `sorted(rows, key=(medium, discogs_id))`. */
  function SortItems(items: seq<(Id, Row)>): (r: seq<(Id, Row)>)
    ensures forall y :: y in r <==> y in items
  {
    SortByKeeps(items, ItemPrecedes);
    SortBy(items, ItemPrecedes)
  }

  lemma ItemsAreSorted(items: seq<(Id, Row)>)
    ensures Sorted(SortItems(items), ItemPrecedes) && multiset(SortItems(items)) == multiset(items)
  {
    forall a ensures !ItemPrecedes(a, a) {
      PrecedesIrreflexive(a.1.medium);
      PrecedesIrreflexive(a.0);
    }
    forall a, b, c | ItemPrecedes(a, b) && ItemPrecedes(b, c) ensures ItemPrecedes(a, c) {
      if Precedes(a.1.medium, b.1.medium) && Precedes(b.1.medium, c.1.medium) {
        PrecedesTransitive(a.1.medium, b.1.medium, c.1.medium);
      }
      if Precedes(a.0, b.0) && Precedes(b.0, c.0) { PrecedesTransitive(a.0, b.0, c.0); }
    }
    SortBySorts(items, ItemPrecedes);
    SortByKeeps(items, ItemPrecedes);
  }

  function EnrichMany(v: Vocabulary, g: Graph, records: seq<Record>, gate: bool): Graph {
    var rewritten := g.(releases := BatchTable(g.releases, Entries(v, records), gate));
    var plans := PlansTo(v, g.releases, records, gate, |records|);
    if plans == map[] then rewritten
    else MediaWrite(rewritten, plans, SortItems(ItemsTo(v, g.releases, records, gate, |records|)))
  }

  // ------------------------------------------------------------ what a write shows

  /** The media block a record is written from. */
  ghost predicate HasBlock(r: Record, media: Media) {
    r.canonical == Some(media) || (r.canonical.None? && r.derived == Some(media))
  }

  /** What a digest covers of a record's media: the summary and the edge rows, or nothing. */
  ghost predicate CoversMedia(v: Vocabulary, r: Record, extra: Extra) {
    && (r.canonical.None? && r.derived.None? ==> extra == NoExtra)
    && forall media | HasBlock(r, media) ::
         extra == MediaExtra(Summary(media.families, |Mappings(media.items)|), EdgeRows(v, media.items))
  }

  /** The node shows the record: its mapped fields, and a digest of them and of its media. */
  ghost predicate ShowsRecord(v: Vocabulary, node: Node, r: Record) {
    node.hash.Some? && Holds(node, r.fields, node.hash.value.extra) && CoversMedia(v, r, node.hash.value.extra)
  }

  lemma EntryCovers(v: Vocabulary, r: Record)
    ensures var e := EntryOf(v, r); e.id == r.id && e.fields == r.fields && CoversMedia(v, r, e.extra)
  {
    forall media | HasBlock(r, media) { MappingCountCounts(media.items); }
  }

  /** Two records have one digest exactly when they map the same fields and project the same media. */
  lemma DigestsTellRecordsApart(v: Vocabulary, a: Record, b: Record)
    ensures DigestOf(EntryOf(v, a)) == DigestOf(EntryOf(v, b)) <==>
              a.fields == b.fields && exists extra :: CoversMedia(v, a, extra) && CoversMedia(v, b, extra)
  {
    EntryCovers(v, a);
    EntryCovers(v, b);
    forall extra ensures CoversMedia(v, a, extra) <==> extra == EntryOf(v, a).extra {
      assert MediaBlock(a).Some? ==> HasBlock(a, MediaBlock(a).value);
    }
    forall extra ensures CoversMedia(v, b, extra) <==> extra == EntryOf(v, b).extra {
      assert MediaBlock(b).Some? ==> HasBlock(b, MediaBlock(b).value);
    }
  }

  lemma {:induction false} WriteIssuesKeeps(g: Graph, items: seq<(Id, Row)>)
    ensures var after := WriteIssues(g, items);
            && after.releases == g.releases && after.linked == g.linked
            && g.families <= after.families && g.inFamily <= after.inFamily && g.mediums.Keys <= after.mediums.Keys
            && forall i | 0 <= i < |items| && items[i].0 in g.releases ::
                 items[i].1.medium in after.mediums && items[i].1.family in after.families
                 && (items[i].1.medium, items[i].1.family) in after.inFamily
  {
    if items != [] {
      var n := |items| - 1;
      WriteIssuesKeeps(g, items[..n]);
      assert forall i | 0 <= i < n :: items[..n][i] == items[i];
    }
  }

  /** A media write touches the summaries of the nodes only, and no family ever goes. */
  lemma MediaWriteKeeps(g: Graph, plans: Plans, items: seq<(Id, Row)>)
    ensures MediaWrite(g, plans, items).releases == Summarised(g.releases, plans)
    ensures g.families <= MediaWrite(g, plans, items).families
  {
    var locked := LockItems(RowsOf(items));
    var held := LockMediums(LockFamilies(g, plans, SortIds(FamiliesOf(locked))), locked);
    WriteIssuesKeeps(WriteSummaries(held, plans), items);
  }

  /** The release has an edge, of the items' total, to each medium that an item names, and to no other. */
  ghost predicate EdgesShow(g: Graph, release: Id, items: seq<Item>) {
    forall m :: var e := Issue(release, MusicBrainz, m);
      && (e in g.issued <==> exists i | 0 <= i < |items| :: NamesMedium(items[i], m))
      && (e in g.issued ==> g.issued[e] == Total(items, m))
  }

  /** Each medium that an item names is there, filed under the family it was first named with. */
  ghost predicate MediumsShow(g: Graph, items: seq<Item>) {
    forall m, i: nat | FirstNamed(items, m, i) ::
      m in g.mediums && items[i].family.value in g.families && (m, items[i].family.value) in g.inFamily
  }

  /** The release shows this media block, and every edge that is not a musicbrainz edge of it is as it was. */
  ghost predicate MediaShows(before: Graph, after: Graph, release: Id, media: Media) {
    && release in after.releases
    && after.releases[release].summary == Some(Summary(media.families, |Mappings(media.items)|))
    && EdgesShow(after, release, media.items) && MediumsShow(after, media.items)
    && (forall e: Issue | e.release != release || e.source != MusicBrainz ::
          (e in after.issued <==> e in before.issued) && (e in after.issued ==> after.issued[e] == before.issued[e]))
    && before.families <= after.families
  }

  lemma RowsList(v: Vocabulary, items: seq<Item>, m: Id)
    ensures var rows := EdgeRows(v, items);
            && OneRowEach(rows)
            && (Lists(rows, m) <==> exists i | 0 <= i < |items| :: NamesMedium(items[i], m))
            && (Lists(rows, m) ==> RowOf(rows, m).qty == Total(items, m))
  {
    var rows := EdgeRows(v, items);
    if m in FirstSeen(items) {
      var i :| 0 <= i < |rows| && FirstSeen(items)[i] == m;
      assert rows[i].medium == m;
    }
    if Lists(rows, m) { assert RowOf(rows, m) in rows; }
  }

  lemma OneWriteReconciles(v: Vocabulary, g: Graph, release: Id, plan: Plan, items: seq<Item>)
    requires release in g.releases && plan.rows == EdgeRows(v, items)
    ensures MediaWrite(g, map[release := plan], ItemsFor(release, plan.rows)).issued
         == IssuedAfter(g.issued, map[release := plan])
  {
    var plans, edges := map[release := plan], ItemsFor(release, plan.rows);
    var locked := LockItems(RowsOf(edges));
    RowsList(v, items, "");
    ItemsCover(release, plan);
    StatementsIssued(LockMediums(LockFamilies(g, plans, SortIds(FamiliesOf(locked))), locked), plans, edges);
  }

  /** The statements of one record's write leave its edges as its items say. */
  lemma OneWriteIssues(v: Vocabulary, g: Graph, release: Id, plan: Plan, items: seq<Item>, e: Issue)
    requires release in g.releases && plan.rows == EdgeRows(v, items)
    ensures var after := MediaWrite(g, map[release := plan], ItemsFor(release, plan.rows));
            if e.release == release && e.source == MusicBrainz
            then (e in after.issued <==> exists i | 0 <= i < |items| :: NamesMedium(items[i], e.medium))
                 && (e in after.issued ==> after.issued[e] == Total(items, e.medium))
            else (e in after.issued <==> e in g.issued) && (e in after.issued ==> after.issued[e] == g.issued[e])
  {
    RowsList(v, items, e.medium);
    OneWriteReconciles(v, g, release, plan, items);
    IssuedAfterHas(g.issued, map[release := plan], e);
  }

  lemma ItemsCover(release: Id, plan: Plan)
    ensures Covers(ItemsFor(release, plan.rows), map[release := plan])
  {
    var plans, items := map[release := plan], ItemsFor(release, plan.rows);
    forall r, row | r in plans && row in plans[r].rows ensures (r, row) in items {
      var i :| 0 <= i < |plan.rows| && plan.rows[i] == row;
      assert items[i] == (r, row);
    }
  }

  lemma OneWriteMediums(v: Vocabulary, g: Graph, release: Id, plan: Plan, items: seq<Item>)
    requires release in g.releases && plan.rows == EdgeRows(v, items)
    ensures MediumsShow(MediaWrite(g, map[release := plan], ItemsFor(release, plan.rows)), items)
  {
    var plans, edges := map[release := plan], ItemsFor(release, plan.rows);
    var locked := LockItems(RowsOf(edges));
    var held := LockMediums(LockFamilies(g, plans, SortIds(FamiliesOf(locked))), locked);
    var after := MediaWrite(g, plans, edges);
    WriteIssuesKeeps(WriteSummaries(held, plans), edges);
    forall m, i: nat | FirstNamed(items, m, i)
      ensures m in after.mediums && items[i].family.value in after.families
              && (m, items[i].family.value) in after.inFamily
    {
      FirstFamilyIsFirst(items, m, i);
      var k :| 0 <= k < |FirstSeen(items)| && FirstSeen(items)[k] == m;
      assert edges[k].0 == release && edges[k].1.medium == m && edges[k].1.family == items[i].family.value;
    }
  }

  /** What the write of one record's media leaves. */
  lemma OneWriteShows(v: Vocabulary, g: Graph, release: Id, media: Media)
    requires release in g.releases
    ensures var plan := PlanFrom(v, media);
            MediaShows(g, MediaWrite(g, map[release := plan], ItemsFor(release, plan.rows)), release, media)
  {
    var plan := PlanFrom(v, media);
    MappingCountCounts(media.items);
    MediaWriteKeeps(g, map[release := plan], ItemsFor(release, plan.rows));
    OneWriteMediums(v, g, release, plan, media.items);
    forall e { OneWriteIssues(v, g, release, plan, media.items, e); }
  }

  /** Whatever a delivery leaves of the nodes when it starts from true digests, or writes regardless. */
  lemma OneLeavesNodes(v: Vocabulary, g: Graph, r: Record, gate: bool, id: Id)
    requires id in g.releases && (gate ==> Consistent(g.releases))
    ensures id in EnrichOne(v, g, r, gate).releases
    ensures var after := EnrichOne(v, g, r, gate);
            if r.id != Absent && Str(r.id) == id then ShowsRecord(v, after.releases[id], r)
            else after.releases[id] == g.releases[id]
  {
    EntryCovers(v, r);
    var e, plan := EntryOf(v, r), PlanOf(v, r);
    if Matches(g.releases, e) && plan.Some? {
      MediaWriteKeeps(g.(releases := DeliverOne(g.releases, e, gate)), map[Str(r.id) := plan.value],
                      ItemsFor(Str(r.id), plan.value.rows));
    }
  }

  /** No later record of the batch names the release this one names. */
  ghost predicate LastNamed(records: seq<Record>, i: nat)
    requires i < |records|
  {
    records[i].id != Absent
    && forall j | i < j < |records| && records[j].id != Absent :: Str(records[j].id) != Str(records[i].id)
  }

  lemma LastNamedMeans(v: Vocabulary, records: seq<Record>, i: nat)
    requires i < |records|
    ensures LastNamed(records, i) <==> StandsLast(Entries(v, records), i)
  {
    var es := Entries(v, records);
    assert forall j | 0 <= j < |records| :: es[j].id == records[j].id;
  }

  /** Beside the summaries, a batch leaves its nodes as its gated statement does. */
  lemma MediaLeavesGate(v: Vocabulary, g: Graph, records: seq<Record>, gate: bool, id: Id)
    requires id in g.releases
    ensures id in EnrichMany(v, g, records, gate).releases
    ensures var node, gated := EnrichMany(v, g, records, gate).releases[id],
                               BatchTable(g.releases, Entries(v, records), gate)[id];
            node.fields == gated.fields && node.hash == gated.hash
  {
    var rewritten := g.(releases := BatchTable(g.releases, Entries(v, records), gate));
    var plans := PlansTo(v, g.releases, records, gate, |records|);
    MediaWriteKeeps(rewritten, plans, SortItems(ItemsTo(v, g.releases, records, gate, |records|)));
  }

  lemma ManyLeavesNodes(v: Vocabulary, g: Graph, records: seq<Record>, gate: bool, id: Id)
    requires id in g.releases && (gate ==> Consistent(g.releases))
    ensures id in EnrichMany(v, g, records, gate).releases
    ensures var after := EnrichMany(v, g, records, gate);
            && (forall i | 0 <= i < |records| && LastNamed(records, i) && Str(records[i].id) == id ::
                  ShowsRecord(v, after.releases[id], records[i]))
    ensures (forall i | 0 <= i < |records| && records[i].id != Absent :: Str(records[i].id) != id) ==>
              var after := EnrichMany(v, g, records, gate);
              after.releases[id].fields == g.releases[id].fields && after.releases[id].hash == g.releases[id].hash
  {
    MediaLeavesGate(v, g, records, gate, id);
    BatchLeavesLast(g.releases, Entries(v, records), gate, id);
    forall i | 0 <= i < |records| && LastNamed(records, i) && Str(records[i].id) == id
      ensures ShowsRecord(v, EnrichMany(v, g, records, gate).releases[id], records[i])
    {
      LastNamedMeans(v, records, i);
      EntryCovers(v, records[i]);
    }
  }

  /** The stored digest is the record's: its fields, and all that it projects of its media. */
  ghost predicate Vouched(v: Vocabulary, node: Node, r: Record) {
    node.hash.Some? && node.hash.value.fields == r.fields && CoversMedia(v, r, node.hash.value.extra)
  }

  lemma VouchedMeans(v: Vocabulary, node: Node, r: Record)
    ensures Vouched(v, node, r) <==> node.hash == Some(DigestOf(EntryOf(v, r)))
  {
    EntryCovers(v, r);
    assert MediaBlock(r).Some? ==> HasBlock(r, MediaBlock(r).value);
  }

  /** How one record moves the counters: by one match or one miss, and one replay when its digest is stored already. */
  ghost predicate OneCounted(v: Vocabulary, table: Table, r: Record, gate: bool, stats: Stats, counted: Stats) {
    var found := r.id != Absent && Str(r.id) in table;
    && counted.enriched == stats.enriched + (if found then 1 else 0)
    && counted.skipped == stats.skipped + (if found then 0 else 1)
    && counted.replays == stats.replays + (if found && gate && Vouched(v, table[Str(r.id)], r) then 1 else 0)
    && counted.created == stats.created && counted.updated == stats.updated && counted.missing == stats.missing
  }

  lemma OneCountsOnce(v: Vocabulary, table: Table, r: Record, gate: bool, stats: Stats)
    ensures OneCounted(v, table, r, gate, stats, CountOne(stats, table, EntryOf(v, r), gate))
  {
    if r.id != Absent && Str(r.id) in table { VouchedMeans(v, table[Str(r.id)], r); }
  }

  /** A record whose digest is stored already changes nothing. */
  lemma VouchedChangesNothing(v: Vocabulary, g: Graph, r: Record)
    requires r.id != Absent && Str(r.id) in g.releases && Vouched(v, g.releases[Str(r.id)], r)
    ensures EnrichOne(v, g, r, true) == g
  {
    VouchedMeans(v, g.releases[Str(r.id)], r);
  }

  /** The records of a batch that find their release. */
  ghost function Found(table: Table, records: seq<Record>): set<int> {
    set i | 0 <= i < |records| && records[i].id != Absent && Str(records[i].id) in table
  }

  lemma FoundAreMatched(v: Vocabulary, table: Table, records: seq<Record>)
    ensures Found(table, records) == MatchedAt(table, Entries(v, records))
  {}

  /** The last records of a batch that find their digest stored already. */
  ghost function Repeated(v: Vocabulary, table: Table, records: seq<Record>, gate: bool): set<int> {
    set i | 0 <= i < |records| && LastNamed(records, i) && gate && Str(records[i].id) in table
            && Vouched(v, table[Str(records[i].id)], records[i])
  }

  lemma RepeatedAreUnchanged(v: Vocabulary, table: Table, records: seq<Record>, gate: bool)
    ensures Repeated(v, table, records, gate) == UnchangedAt(table, Entries(v, records), gate, |records|)
  {
    forall i | 0 <= i < |records|
      ensures LastNamed(records, i) <==> StandsLast(Entries(v, records), i)
      ensures forall node :: Vouched(v, node, records[i]) <==> node.hash == Some(DigestOf(Entries(v, records)[i]))
    {
      LastNamedMeans(v, records, i);
      forall node { VouchedMeans(v, node, records[i]); }
    }
  }

  /** How a batch moves the counters. */
  ghost predicate BatchCounted(v: Vocabulary, table: Table, records: seq<Record>, gate: bool, stats: Stats,
                               counted: Stats) {
    && counted.enriched == stats.enriched + |Found(table, records)|
    && counted.enriched + counted.skipped == stats.enriched + stats.skipped + |records|
    && counted.replays == stats.replays + |Repeated(v, table, records, gate)|
    && counted.created == stats.created && counted.updated == stats.updated && counted.missing == stats.missing
  }

  lemma BatchCountsAll(v: Vocabulary, table: Table, records: seq<Record>, gate: bool, stats: Stats)
    ensures BatchCounted(v, table, records, gate, stats, Counted(stats, table, Entries(v, records), gate))
  {
    BatchCounts(stats, table, Entries(v, records), gate);
    FoundAreMatched(v, table, records);
    RepeatedAreUnchanged(v, table, records, gate);
  }

  // ------------------------------------------------------------ the transaction functions

  /** The release half of a transaction: the graph it writes and the counters it fills. */
  class ReleaseWriter {
    const vocabulary: Vocabulary
    const gate: bool
    var graph: Graph
    var stats: Stats

    constructor (vocabulary: Vocabulary, gate: bool, graph: Graph)
      ensures this.vocabulary == vocabulary && this.gate == gate && this.graph == graph && stats == NO_STATS
    {
      this.vocabulary, this.gate, this.graph, stats := vocabulary, gate, graph, NO_STATS;
    }

    method LockMediaInOrder(plans: Plans, rows: seq<Row>)
      modifies this`graph
      ensures var locked := LockItems(rows);
              graph == LockMediums(LockFamilies(old(graph), plans, SortIds(FamiliesOf(locked))), locked)
    {
      var items, ids, families := MediaLockArgs(rows);
      graph := LockFamilies(graph, plans, families);
      graph := LockMediums(graph, items);
    }

    method ReconcileReleaseMedia(discogsId: Id, record: Record) returns (present: bool)
      modifies this`graph
      ensures present == PlanOf(vocabulary, record).Some?
      ensures graph == if present
                       then var plan := PlanOf(vocabulary, record).value;
                            MediaWrite(old(graph), map[discogsId := plan], ItemsFor(discogsId, plan.rows))
                       else old(graph)
      ensures present <==> record.canonical.Some? || record.derived.Some?
      ensures discogsId in old(graph).releases ==>
                forall media | HasBlock(record, media) :: MediaShows(old(graph), graph, discogsId, media)
    {
      if discogsId in graph.releases {
        forall media | HasBlock(record, media) { OneWriteShows(vocabulary, graph, discogsId, media); }
      }
      var media := MediaBlock(record);
      if media.None? {
        return false;
      }
      var rows := CollectEdgeRows(vocabulary, media.value.items);
      var plan := Plan(Summary(media.value.families, MappingCount(media.value.items)), rows);
      assert RowsOf(ItemsFor(discogsId, rows)) == rows;
      LockMediaInOrder(map[discogsId := plan], rows);
      graph := WriteSummaries(graph, map[discogsId := plan]);
      if rows != [] {
        graph := WriteIssues(graph, ItemsFor(discogsId, rows));
      }
      present := true;
    }

    method EnrichRelease(record: Record)
      modifies this
      ensures graph == EnrichOne(vocabulary, old(graph), record, gate)
      ensures stats == CountOne(old(stats), old(graph).releases, EntryOf(vocabulary, record), gate)
      ensures (gate ==> Consistent(old(graph).releases)) ==>
                forall id | id in old(graph).releases ::
                  id in graph.releases
                  && if record.id != Absent && Str(record.id) == id
                     then ShowsRecord(vocabulary, graph.releases[id], record)
                     else graph.releases[id] == old(graph).releases[id]
      ensures OneCounted(vocabulary, old(graph).releases, record, gate, old(stats), stats)
    {
      if gate ==> Consistent(graph.releases) {
        forall id | id in graph.releases { OneLeavesNodes(vocabulary, graph, record, gate, id); }
      }
      OneCountsOnce(vocabulary, graph.releases, record, gate, stats);
      if record.id == Absent {
        stats := stats.(skipped := stats.skipped + 1);
        return;
      }
      var key, e := Str(record.id), EntryOf(vocabulary, record);
      if key !in graph.releases {
        stats := stats.(skipped := stats.skipped + 1);
        return;
      }
      stats := stats.(enriched := stats.enriched + 1);
      if Changed(graph.releases[key], DigestOf(e), gate) {
        graph := graph.(releases := graph.releases[key := Settled(graph.releases[key], e)]);
        var _ := ReconcileReleaseMedia(key, record);
      } else {
        graph := graph.(releases := graph.releases[key := graph.releases[key]]);
        stats := stats.(replays := stats.replays + 1);
      }
    }

    /** The flags, the summaries and the edge rows of the records whose node was rewritten. */
    method CollectMedia(records: seq<Record>, outcomes: seq<Outcome>, ghost table: Table)
      returns (flags: seq<bool>, summaries: Plans, edges: seq<(Id, Row)>)
      requires |outcomes| == |records|
      requires forall i | 0 <= i < |records| ::
                 outcomes[i] == OutcomeOf(table, Entries(vocabulary, records), gate, false, i)
      ensures |flags| == |records| && forall i | 0 <= i < |records| :: flags[i] == outcomes[i].matched
      ensures summaries == PlansTo(vocabulary, table, records, gate, |records|)
      ensures edges == ItemsTo(vocabulary, table, records, gate, |records|)
    {
      flags, summaries, edges := [], map[], [];
      for i := 0 to |records|
        invariant summaries == PlansTo(vocabulary, table, records, gate, i)
        invariant edges == ItemsTo(vocabulary, table, records, gate, i)
        invariant |flags| == i && forall k | 0 <= k < i :: flags[k] == outcomes[k].matched
      {
        flags := flags + [outcomes[i].matched];
        var media := MediaBlock(records[i]);
        if outcomes[i].changed && media.Some? {
          var key := Str(records[i].id);
          var rows := CollectEdgeRows(vocabulary, media.value.items);
          summaries := summaries[key := Plan(Summary(media.value.families, MappingCount(media.value.items)), rows)];
          edges := edges + ItemsFor(key, rows);
        }
      }
    }

    method EnrichReleasesBatch(records: seq<Record>) returns (flags: seq<bool>)
      modifies this
      ensures graph == EnrichMany(vocabulary, old(graph), records, gate)
      ensures stats == Counted(old(stats), old(graph).releases, Entries(vocabulary, records), gate)
      ensures |flags| == |records|
      ensures forall i | 0 <= i < |records| ::
                flags[i] <==> records[i].id != Absent && Str(records[i].id) in old(graph).releases
      ensures (gate ==> Consistent(old(graph).releases)) ==>
                forall i | 0 <= i < |records| && flags[i] && LastNamed(records, i) ::
                  Str(records[i].id) in graph.releases
                  && ShowsRecord(vocabulary, graph.releases[Str(records[i].id)], records[i])
      ensures (gate ==> Consistent(old(graph).releases)) ==>
                forall id | id in old(graph).releases
                            && (forall i | 0 <= i < |records| && records[i].id != Absent ::
                                  Str(records[i].id) != id) ::
                  id in graph.releases
                  && graph.releases[id].fields == old(graph).releases[id].fields
                  && graph.releases[id].hash == old(graph).releases[id].hash
      ensures BatchCounted(vocabulary, old(graph).releases, records, gate, old(stats), stats)
    {
      if gate ==> Consistent(graph.releases) {
        forall id | id in graph.releases { ManyLeavesNodes(vocabulary, graph, records, gate, id); }
      }
      BatchCountsAll(vocabulary, graph.releases, records, gate, stats);
      ghost var table := graph.releases;
      var es := Entries(vocabulary, records);
      var after, outcomes, counted := RunEntityBatch(graph.releases, es, gate, false, stats);
      graph, stats := graph.(releases := after), counted;

      var summaries: Plans, edges: seq<(Id, Row)> := map[], [];
      flags, summaries, edges := CollectMedia(records, outcomes, table);
      if summaries != map[] {
        var items := SortItems(edges);
        LockMediaInOrder(summaries, RowsOf(items));
        graph := WriteSummaries(graph, summaries);
        if items != [] {
          graph := WriteIssues(graph, items);
        }
      }
    }
  }
}
