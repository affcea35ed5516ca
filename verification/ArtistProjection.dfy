/**
 Enriching artists: node fields under one digest, relationships under a digest of their own that is
 stored only once every supported relation has its edge.
 */
module ArtistProjection {
  import opened Identifiers
  import opened CatalogGraph
  import opened EntityGate
  import opened Relationships

  datatype ArtistRecord = ArtistRecord(id: RawId, fields: Fields, relations: seq<Relation>)

  datatype ArtistGraph = ArtistGraph(artists: Table, related: set<Edge>)

  function EntryOf(r: ArtistRecord): Entry { Entry(r.id, r.fields, RelationsExtra(r.relations)) }

  function Entries(records: seq<ArtistRecord>): (es: seq<Entry>)
    ensures |es| == |records| && forall i | 0 <= i < |es| :: es[i] == EntryOf(records[i])
  {
    seq(|records|, i requires 0 <= i < |records| => EntryOf(records[i]))
  }

  /** A later record of the batch has the same id in string form. A missing id reads "None" here. */
  predicate Superseded(records: seq<ArtistRecord>, i: nat)
    requires i < |records|
  {
    exists j | i < j < |records| :: Str(records[j].id) == Str(records[i].id)
  }

  // ------------------------------------------------------------ what a delivery does

  /** The batch projects the record's relations: matched, not superseded, not vouched for by the stored digest. */
  predicate Selected(table: Table, records: seq<ArtistRecord>, gate: bool, i: nat)
    requires i < |records|
  {
    var r := records[i];
    && Matches(table, EntryOf(r)) && !Superseded(records, i)
    && !(gate && table[Str(r.id)].relationsHash == Some(r.relations))
  }

  function JobsTo(table: Table, records: seq<ArtistRecord>, gate: bool, k: nat): seq<Job>
    requires k <= |records|
  {
    if k == 0 then []
    else
      var before, r := JobsTo(table, records, gate, k - 1), records[k - 1];
      if Selected(table, records, gate, k - 1) then before + JobsFor(Str(r.id), r.relations) else before
  }

  function DigestsTo(table: Table, records: seq<ArtistRecord>, gate: bool, k: nat): map<Id, seq<Relation>>
    requires k <= |records|
  {
    if k == 0 then map[]
    else
      var before, r := DigestsTo(table, records, gate, k - 1), records[k - 1];
      if Selected(table, records, gate, k - 1) then before[Str(r.id) := r.relations] else before
  }

  /** Stores the relation digest of every owner whose relations were all projected. */
  ghost function MarkDone(table: Table, digests: map<Id, seq<Relation>>, jobs: seq<Job>): Table {
    map id | id in table ::
      if id in digests && AllResolved(table.Keys, jobs, id) then table[id].(relationsHash := Some(digests[id]))
          else table[id]
  }

  ghost function EnrichBatch(g: ArtistGraph, records: seq<ArtistRecord>, gate: bool): ArtistGraph {
    var table := BatchTable(g.artists, Entries(records), gate);
    var jobs, digests := JobsTo(g.artists, records, gate, |records|), DigestsTo(g.artists, records, gate, |records|);
    ArtistGraph(MarkDone(table, digests, jobs), ProjectInOrder(table.Keys, g.related, jobs, NO_STATS).0)
  }

  function EnrichSingle(g: ArtistGraph, r: ArtistRecord, gate: bool): ArtistGraph {
    if !Matches(g.artists, EntryOf(r)) then g
    else ArtistGraph(DeliverOne(g.artists, EntryOf(r), gate),
                     ProjectInOrder(g.artists.Keys, g.related, JobsFor(Str(r.id), r.relations), NO_STATS).0)
  }

  /** The counters of one delivery: the node's, then the relations'. */
  function SingleStats(g: ArtistGraph, r: ArtistRecord, gate: bool, stats: Stats): Stats {
    var counted := CountOne(stats, g.artists, EntryOf(r), gate);
    if !Matches(g.artists, EntryOf(r)) then counted
    else ProjectInOrder(g.artists.Keys, g.related, JobsFor(Str(r.id), r.relations), counted).1
  }

  function BatchStats(g: ArtistGraph, records: seq<ArtistRecord>, gate: bool, stats: Stats): Stats {
    ProjectInOrder(g.artists.Keys, g.related, JobsTo(g.artists, records, gate, |records|),
                   Counted(stats, g.artists, Entries(records), gate)).1
  }

  /** The edges a projection leaves do not depend on the counters it starts from. */
  lemma EdgesLeft(artists: set<Id>, related: set<Edge>, jobs: seq<Job>, stats: Stats)
    ensures ProjectInOrder(artists, related, jobs, stats).0 == related + EdgesOf(artists, jobs)
  {
    InOrderProjects(artists, related, jobs, stats);
  }

  /** The single path's relations: nothing to do without any, else one statement each. */
  method ProjectRelations(artists: set<Id>, related: set<Edge>, owner: Id, relations: seq<Relation>, stats: Stats)
    returns (edges: set<Edge>, counted: Stats)
    ensures var jobs := JobsFor(owner, relations);
            && edges == ProjectInOrder(artists, related, jobs, NO_STATS).0
            && counted == ProjectInOrder(artists, related, jobs, stats).1
  {
    edges, counted := related, stats;
    EdgesLeft(artists, related, JobsFor(owner, relations), stats);
    EdgesLeft(artists, related, JobsFor(owner, relations), NO_STATS);
    if relations != [] {
      edges, counted := CreateRelationshipEdges(artists, related, owner, relations, stats);
    }
  }

  // ------------------------------------------------------------ what a delivery shows

  /** No later record of the batch names the artist this one names. */
  ghost predicate LastNamed(records: seq<ArtistRecord>, i: nat)
    requires i < |records|
  {
    records[i].id != Absent
    && forall j | i < j < |records| && records[j].id != Absent :: Str(records[j].id) != Str(records[i].id)
  }

  /** The record finds its artist and asks for an edge. */
  ghost predicate AskedBy(g: ArtistGraph, r: ArtistRecord, e: Edge) {
    && r.id != Absent && Str(r.id) in g.artists
    && exists n | 0 <= n < |r.relations| :: AsksFor(g.artists.Keys, Str(r.id), r.relations[n], e)
  }

  lemma AskedByMeans(g: ArtistGraph, r: ArtistRecord, e: Edge)
    ensures AskedBy(g, r, e) <==>
              Matches(g.artists, EntryOf(r)) && e in EdgesOf(g.artists.Keys, JobsFor(Str(r.id), r.relations))
  {
    EdgesAreAskedFor(g.artists.Keys, JobsFor(Str(r.id), r.relations), e);
    OwnersAskFor(g.artists.Keys, Str(r.id), r.relations, e);
  }

  /** What one record leaves on an artist, from true digests or with the gate off. */
  lemma OneLeavesNodes(g: ArtistGraph, r: ArtistRecord, gate: bool, id: Id)
    requires id in g.artists && (gate ==> Consistent(g.artists))
    ensures id in EnrichSingle(g, r, gate).artists
    ensures var node := EnrichSingle(g, r, gate).artists[id];
            if r.id != Absent && Str(r.id) == id
            then Holds(node, r.fields, RelationsExtra(r.relations)) && node.relationsHash == g.artists[id].relationsHash
            else node == g.artists[id]
  {}

  /** One record adds exactly the edges that its relations ask for. */
  lemma OneLeavesEdges(g: ArtistGraph, r: ArtistRecord, gate: bool, e: Edge)
    ensures e in EnrichSingle(g, r, gate).related <==> e in g.related || AskedBy(g, r, e)
  {
    AskedByMeans(g, r, e);
    EdgesLeft(g.artists.Keys, g.related, JobsFor(Str(r.id), r.relations), NO_STATS);
  }

  /** The stored digest is the record's: its fields and its relations. */
  ghost predicate Vouched(node: Node, r: ArtistRecord) {
    node.hash == Some(Digest(r.fields, RelationsExtra(r.relations)))
  }

  /** How one record moves the counters: one match or miss, one replay, and each relation of a match once. */
  ghost predicate OneCounted(g: ArtistGraph, r: ArtistRecord, gate: bool, stats: Stats, after: set<Edge>,
                             counted: Stats) {
    var found, jobs := r.id != Absent && Str(r.id) in g.artists, JobsFor(Str(r.id), r.relations);
    var linked, supported := |LinkedAt(g.artists.Keys, jobs)|, |SupportedAt(jobs)|;
    && counted.enriched == stats.enriched + (if found then 1 else 0)
    && counted.skipped == stats.skipped + (if found then 0 else 1)
    && counted.replays == stats.replays + (if found && gate && Vouched(g.artists[Str(r.id)], r) then 1 else 0)
    && counted.created == stats.created + |after| - |g.related|
    && counted.created + counted.updated == stats.created + stats.updated + (if found then linked else 0)
    && counted.missing == stats.missing + (if found then supported - linked else 0)
  }

  lemma OneCountsOnce(g: ArtistGraph, r: ArtistRecord, gate: bool, stats: Stats)
    ensures OneCounted(g, r, gate, stats, EnrichSingle(g, r, gate).related, SingleStats(g, r, gate, stats))
  {
    var jobs, counted := JobsFor(Str(r.id), r.relations), CountOne(stats, g.artists, EntryOf(r), gate);
    EdgesLeft(g.artists.Keys, g.related, jobs, NO_STATS);
    EdgesLeft(g.artists.Keys, g.related, jobs, counted);
    InOrderLinks(g.artists.Keys, g.related, jobs, counted);
  }

  lemma LastNamedMeans(records: seq<ArtistRecord>, i: nat)
    requires i < |records|
    ensures LastNamed(records, i) <==> StandsLast(Entries(records), i)
  {
    var es := Entries(records);
    assert forall j | 0 <= j < |records| :: es[j].id == records[j].id;
  }

  /** Beside the relation digests, a batch leaves its nodes as its gated statement does. */
  lemma MarkingLeavesGate(g: ArtistGraph, records: seq<ArtistRecord>, gate: bool, id: Id)
    requires id in g.artists
    ensures id in EnrichBatch(g, records, gate).artists
    ensures var node, gated := EnrichBatch(g, records, gate).artists[id],
                               BatchTable(g.artists, Entries(records), gate)[id];
            node.fields == gated.fields && node.hash == gated.hash
  {}

  /** A batch leaves the fields and digest of each artist's last record, and no others move. */
  lemma ManyLeavesNodes(g: ArtistGraph, records: seq<ArtistRecord>, gate: bool, id: Id)
    requires id in g.artists && (gate ==> Consistent(g.artists))
    ensures id in EnrichBatch(g, records, gate).artists
    ensures forall i | 0 <= i < |records| && LastNamed(records, i) && Str(records[i].id) == id ::
              Holds(EnrichBatch(g, records, gate).artists[id], records[i].fields, RelationsExtra(records[i].relations))
    ensures (forall i | 0 <= i < |records| && records[i].id != Absent :: Str(records[i].id) != id) ==>
              var node := EnrichBatch(g, records, gate).artists[id];
              node.fields == g.artists[id].fields && node.hash == g.artists[id].hash
  {
    MarkingLeavesGate(g, records, gate, id);
    BatchLeavesLast(g.artists, Entries(records), gate, id);
    forall i | 0 <= i < |records| && LastNamed(records, i) && Str(records[i].id) == id
      ensures Holds(EnrichBatch(g, records, gate).artists[id], records[i].fields, RelationsExtra(records[i].relations))
    {
      LastNamedMeans(records, i);
    }
  }

  /** The batch projects this record: found, not superseded, and the gate does not vouch for its relations. */
  ghost predicate Projects(table: Table, records: seq<ArtistRecord>, gate: bool, i: nat)
    requires i < |records|
  {
    && records[i].id != Absent && Str(records[i].id) in table
    && (forall j | i < j < |records| :: Str(records[j].id) != Str(records[i].id))
    && !(gate && table[Str(records[i].id)].relationsHash == Some(records[i].relations))
  }

  /** How many relations of the first `k` records, of those projected, are supported. */
  ghost function SupportedTo(table: Table, records: seq<ArtistRecord>, gate: bool, k: nat): nat
    requires k <= |records|
  {
    if k == 0 then 0
    else
      var r := records[k - 1];
      SupportedTo(table, records, gate, k - 1)
      + (if Projects(table, records, gate, k - 1) then |SupportedAt(JobsFor(Str(r.id), r.relations))| else 0)
  }

  /** And how many of these find both their artists. */
  ghost function LinkedTo(table: Table, records: seq<ArtistRecord>, gate: bool, k: nat): nat
    requires k <= |records|
  {
    if k == 0 then 0
    else
      var r := records[k - 1];
      LinkedTo(table, records, gate, k - 1)
      + (if Projects(table, records, gate, k - 1) then |LinkedAt(table.Keys, JobsFor(Str(r.id), r.relations))| else 0)
  }

  lemma {:induction false} JobsToCount(table: Table, records: seq<ArtistRecord>, gate: bool, k: nat)
    requires k <= |records|
    ensures var jobs := JobsTo(table, records, gate, k);
            && SupportedCount(jobs) == SupportedTo(table, records, gate, k)
            && ResolvedCount(table.Keys, jobs) == LinkedTo(table, records, gate, k)
  {
    if k > 0 {
      var r := records[k - 1];
      var own := JobsFor(Str(r.id), r.relations);
      JobsToCount(table, records, gate, k - 1);
      CountsJoin(table.Keys, JobsTo(table, records, gate, k - 1), own);
      SupportedCountCounts(own);
      ResolvedCountCounts(table.Keys, own);
      assert Selected(table, records, gate, k - 1) <==> Projects(table, records, gate, k - 1);
    }
  }

  /** The records of a batch that find their artist, and the last ones whose digest is stored already. */
  ghost function Found(table: Table, records: seq<ArtistRecord>): set<int> {
    set i | 0 <= i < |records| && records[i].id != Absent && Str(records[i].id) in table
  }

  ghost function Repeated(table: Table, records: seq<ArtistRecord>, gate: bool): set<int> {
    set i | 0 <= i < |records| && LastNamed(records, i) && gate && Str(records[i].id) in table
            && Vouched(table[Str(records[i].id)], records[i])
  }

  /** How a batch moves the counters: each record once, each repeated one, and each projected relation once. */
  ghost predicate BatchCounted(g: ArtistGraph, records: seq<ArtistRecord>, gate: bool, stats: Stats, after: set<Edge>,
                               counted: Stats) {
    var n := |records|;
    var linked, supported := LinkedTo(g.artists, records, gate, n), SupportedTo(g.artists, records, gate, n);
    && counted.enriched == stats.enriched + |Found(g.artists, records)|
    && counted.enriched + counted.skipped == stats.enriched + stats.skipped + n
    && counted.replays == stats.replays + |Repeated(g.artists, records, gate)|
    && counted.created == stats.created + |after| - |g.related|
    && counted.created + counted.updated == stats.created + stats.updated + linked
    && counted.missing == stats.missing + supported - linked
  }

  lemma NodesCounted(table: Table, records: seq<ArtistRecord>, gate: bool, stats: Stats)
    ensures var counted := Counted(stats, table, Entries(records), gate);
            && counted.enriched == stats.enriched + |Found(table, records)|
            && counted.enriched + counted.skipped == stats.enriched + stats.skipped + |records|
            && counted.replays == stats.replays + |Repeated(table, records, gate)|
            && counted.created == stats.created && counted.updated == stats.updated
            && counted.missing == stats.missing
  {
    BatchCounts(stats, table, Entries(records), gate);
    assert Found(table, records) == MatchedAt(table, Entries(records));
    forall i | 0 <= i < |records| ensures LastNamed(records, i) <==> StandsLast(Entries(records), i) {
      LastNamedMeans(records, i);
    }
    assert Repeated(table, records, gate) == UnchangedAt(table, Entries(records), gate, |records|);
  }

  lemma BatchCountsAll(g: ArtistGraph, records: seq<ArtistRecord>, gate: bool, stats: Stats)
    ensures BatchCounted(g, records, gate, stats, EnrichBatch(g, records, gate).related,
                         BatchStats(g, records, gate, stats))
  {
    var jobs := JobsTo(g.artists, records, gate, |records|);
    var counted := Counted(stats, g.artists, Entries(records), gate);
    NodesCounted(g.artists, records, gate, stats);
    JobsToCount(g.artists, records, gate, |records|);
    assert BatchTable(g.artists, Entries(records), gate).Keys == g.artists.Keys;
    EdgesLeft(g.artists.Keys, g.related, jobs, NO_STATS);
    InOrderProjects(g.artists.Keys, g.related, jobs, counted);
  }

  // ------------------------------------------------------------ which relation digests a batch stores

  /** Every supported relation of the list finds both its artists. */
  ghost predicate AllFound(artists: set<Id>, owner: Id, relations: seq<Relation>) {
    forall n | 0 <= n < |relations| && relations[n].kind in RELATIONSHIP_TYPES ::
      relations[n].target != Absent && owner in artists && Str(relations[n].target) in artists
  }

  /** Of the records that share an artist's id, only the one no later record supersedes counts. */
  lemma {:induction false} DigestOfOne(table: Table, records: seq<ArtistRecord>, gate: bool, k: nat, i: nat)
    requires k <= |records| && i < |records| && !Superseded(records, i)
    ensures var digests, id := DigestsTo(table, records, gate, k), Str(records[i].id);
            && (id in digests <==> i < k && Selected(table, records, gate, i))
            && (id in digests ==> digests[id] == records[i].relations)
  {
    if k > 0 {
      DigestOfOne(table, records, gate, k - 1, i);
      assert k - 1 > i ==> Str(records[k - 1].id) != Str(records[i].id);
      assert k - 1 < i && Str(records[i].id) == Str(records[k - 1].id) ==> Superseded(records, k - 1);
    }
  }

  lemma OwnJobs(g: ArtistGraph, records: seq<ArtistRecord>, gate: bool, i: nat)
    requires i < |records| && !Superseded(records, i) && Selected(g.artists, records, gate, i)
    ensures AllResolved(g.artists.Keys, JobsTo(g.artists, records, gate, |records|), Str(records[i].id)) <==>
              AllFound(g.artists.Keys, Str(records[i].id), records[i].relations)
  {
    var id, relations := Str(records[i].id), records[i].relations;
    var keys, jobs := g.artists.Keys, JobsTo(g.artists, records, gate, |records|);
    forall n | 0 <= n < |relations| ensures Job(id, relations[n]) in jobs {
      SelectedHasJobs(g.artists, records, gate, |records|, i, n);
    }
    forall m | 0 <= m < |jobs| && jobs[m].owner == id
      ensures exists n | 0 <= n < |relations| :: jobs[m] == Job(id, relations[n])
    {
      JobsToAreAsked(g, records, gate, |records|, jobs[m]);
      var k :| 0 <= k < |records| && Selected(g.artists, records, gate, k)
               && jobs[m] in JobsFor(Str(records[k].id), records[k].relations);
      assert k == i;
    }
  }

  /**
   After a batch, the digest of a found record's relations is stored exactly when it was before and the
   gate vouched for it, or when every supported relation found both artists. Otherwise the artist keeps
   the digest it had, so that the relations are tried again.
   */
  lemma RelationDigestExactly(g: ArtistGraph, records: seq<ArtistRecord>, gate: bool, i: nat)
    requires i < |records| && records[i].id != Absent && Str(records[i].id) in g.artists
    requires forall j | i < j < |records| :: Str(records[j].id) != Str(records[i].id)
    ensures var r, id := records[i], Str(records[i].id);
            var before, after := g.artists[id].relationsHash, EnrichBatch(g, records, gate).artists;
            && id in after
            && after[id].relationsHash ==
               if (gate && before == Some(r.relations)) || AllFound(g.artists.Keys, id, r.relations)
               then Some(r.relations) else before
  {
    DigestOfOne(g.artists, records, gate, |records|, i);
    assert BatchTable(g.artists, Entries(records), gate).Keys == g.artists.Keys;
    if Selected(g.artists, records, gate, i) { OwnJobs(g, records, gate, i); }
  }

  lemma {:induction false} DigestsAreNamed(table: Table, records: seq<ArtistRecord>, gate: bool, k: nat, id: Id)
    requires k <= |records| && id in DigestsTo(table, records, gate, k)
    ensures exists i | 0 <= i < k :: records[i].id != Absent && Str(records[i].id) == id
  {
    if !(Selected(table, records, gate, k - 1) && Str(records[k - 1].id) == id) {
      DigestsAreNamed(table, records, gate, k - 1, id);
    }
  }

  /** An artist that no record names keeps everything. */
  lemma UnnamedKeepsAll(g: ArtistGraph, records: seq<ArtistRecord>, gate: bool, id: Id)
    requires id in g.artists && forall i | 0 <= i < |records| && records[i].id != Absent :: Str(records[i].id) != id
    ensures id in EnrichBatch(g, records, gate).artists
    ensures EnrichBatch(g, records, gate).artists[id] == g.artists[id]
  {
    if id in DigestsTo(g.artists, records, gate, |records|) {
      DigestsAreNamed(g.artists, records, gate, |records|, id);
    }
  }

  /** A batch whose relation digests are all stored projects nothing: no edge, and no relation counted. */
  lemma VouchedProjectsNothing(g: ArtistGraph, records: seq<ArtistRecord>, stats: Stats)
    requires forall i | 0 <= i < |records| :: !Projects(g.artists, records, true, i)
    ensures EnrichBatch(g, records, true).related == g.related
    ensures var counted := BatchStats(g, records, true, stats);
            counted.created == stats.created && counted.updated == stats.updated && counted.missing == stats.missing
  {
    NoneProjected(g.artists, records, |records|);
    BatchCountsAll(g, records, true, stats);
    EdgesLeft(g.artists.Keys, g.related, [], NO_STATS);
    assert BatchTable(g.artists, Entries(records), true).Keys == g.artists.Keys;
  }

  lemma {:induction false} NoneProjected(table: Table, records: seq<ArtistRecord>, k: nat)
    requires k <= |records| && forall i | 0 <= i < |records| :: !Projects(table, records, true, i)
    ensures JobsTo(table, records, true, k) == []
    ensures LinkedTo(table, records, true, k) == 0 && SupportedTo(table, records, true, k) == 0
  {
    if k > 0 {
      NoneProjected(table, records, k - 1);
      assert Selected(table, records, true, k - 1) <==> Projects(table, records, true, k - 1);
    }
  }

  class ArtistWriter {
    const gate: bool
    var graph: ArtistGraph
    var stats: Stats

    constructor (gate: bool, graph: ArtistGraph)
      ensures this.gate == gate && this.graph == graph && stats == NO_STATS
    {
      this.gate, this.graph, stats := gate, graph, NO_STATS;
    }

    method EnrichArtist(record: ArtistRecord)
      modifies this
      ensures graph == EnrichSingle(old(graph), record, gate)
      ensures stats == SingleStats(old(graph), record, gate, old(stats))
      ensures (gate ==> Consistent(old(graph).artists)) ==>
                forall id | id in old(graph).artists ::
                  id in graph.artists
                  && if record.id != Absent && Str(record.id) == id
                     then Holds(graph.artists[id], record.fields, RelationsExtra(record.relations))
                          && graph.artists[id].relationsHash == old(graph).artists[id].relationsHash
                     else graph.artists[id] == old(graph).artists[id]
      ensures forall e :: e in graph.related <==> e in old(graph).related || AskedBy(old(graph), record, e)
      ensures OneCounted(old(graph), record, gate, old(stats), graph.related, stats)
    {
      if gate ==> Consistent(graph.artists) {
        forall id | id in graph.artists { OneLeavesNodes(graph, record, gate, id); }
      }
      forall e { OneLeavesEdges(graph, record, gate, e); }
      OneCountsOnce(graph, record, gate, stats);
      if record.id == Absent || Str(record.id) !in graph.artists {
        stats := stats.(skipped := stats.skipped + 1);
        return;
      }
      var key, e := Str(record.id), EntryOf(record);
      var node := graph.artists[key];
      var changed := Changed(node, DigestOf(e), gate);
      var artists := graph.artists[key := if changed then Settled(node, e) else node];
      var counted := stats.(enriched := stats.enriched + 1, replays := stats.replays + if changed then 0 else 1);
      assert artists.Keys == graph.artists.Keys;
      var edges: set<Edge>;
      edges, counted := ProjectRelations(artists.Keys, graph.related, key, record.relations, counted);
      graph, stats := ArtistGraph(artists, edges), counted;
    }

    method EnrichArtistsBatch(records: seq<ArtistRecord>) returns (flags: seq<bool>)
      modifies this
      ensures graph == EnrichBatch(old(graph), records, gate)
      ensures |flags| == |records|
      ensures forall i | 0 <= i < |records| ::
                flags[i] <==> records[i].id != Absent && Str(records[i].id) in old(graph).artists
      ensures stats == BatchStats(old(graph), records, gate, old(stats))
      ensures (gate ==> Consistent(old(graph).artists)) ==>
                forall i | 0 <= i < |records| && flags[i] && LastNamed(records, i) ::
                  Str(records[i].id) in graph.artists
                  && Holds(graph.artists[Str(records[i].id)], records[i].fields, RelationsExtra(records[i].relations))
      ensures RelationsTrue(old(graph)) ==>
                forall e :: e in graph.related <==> e in old(graph).related || AskedByKept(old(graph), records, e)
      ensures BatchCounted(old(graph), records, gate, old(stats), graph.related, stats)
    {
      BatchFacts(graph, records, gate, stats);
      var table, outcomes, counted := RunEntityBatch(graph.artists, Entries(records), gate, true, stats);
      var jobs, digests := CollectRelations(graph.artists, records, gate, outcomes);
      flags := seq(|outcomes|, i requires 0 <= i < |outcomes| => outcomes[i].matched);
      assert table.Keys == graph.artists.Keys;
      NoDigestNoJob(graph.artists, records, gate, |records|);
      var edges: set<Edge>;
      table, edges, counted := ProjectAndStore(table, graph.related, jobs, digests, counted);
      graph, stats := ArtistGraph(table, edges), counted;
    }
  }

  /** The batch's relations, when there is anything to project, and the digests of those that are complete. */
  method ProjectAndStore(table: Table, related: set<Edge>, jobs: seq<Job>, digests: map<Id, seq<Relation>>,
                         stats: Stats)
    returns (after: Table, edges: set<Edge>, counted: Stats)
    requires digests == map[] ==> jobs == []
    ensures after == MarkDone(table, digests, jobs)
    ensures edges == ProjectInOrder(table.Keys, related, jobs, NO_STATS).0
    ensures counted == ProjectInOrder(table.Keys, related, jobs, stats).1
  {
    after, edges, counted := table, related, stats;
    EdgesLeft(table.Keys, related, jobs, stats);
    EdgesLeft(table.Keys, related, jobs, NO_STATS);
    if digests != map[] {
      var complete: map<Id, bool>;
      edges, counted, complete := CreateRelationshipEdgesBatch(table.Keys, related, jobs, stats);
      after := StoreDigests(table, digests, complete, jobs);
    } else {
      assert MarkDone(table, digests, jobs) == table;
    }
  }

  /** What a batch leaves and counts, together. */
  lemma BatchFacts(g: ArtistGraph, records: seq<ArtistRecord>, gate: bool, stats: Stats)
    ensures (gate ==> Consistent(g.artists)) ==>
              forall i | 0 <= i < |records| && LastNamed(records, i) && Str(records[i].id) in g.artists ::
                var after := EnrichBatch(g, records, gate).artists;
                Str(records[i].id) in after
                && Holds(after[Str(records[i].id)], records[i].fields, RelationsExtra(records[i].relations))
    ensures RelationsTrue(g) ==>
              forall e :: e in EnrichBatch(g, records, gate).related <==> e in g.related || AskedByKept(g, records, e)
    ensures BatchCounted(g, records, gate, stats, EnrichBatch(g, records, gate).related,
                         BatchStats(g, records, gate, stats))
  {
    if gate ==> Consistent(g.artists) {
      forall id | id in g.artists { ManyLeavesNodes(g, records, gate, id); }
    }
    if RelationsTrue(g) {
      forall e { BatchLeaves(g, records, gate, e); }
    }
    BatchCountsAll(g, records, gate, stats);
  }

  /** The relations to project and the digests to store once they are. */
  method CollectRelations(table: Table, records: seq<ArtistRecord>, gate: bool, outcomes: seq<Outcome>)
    returns (jobs: seq<Job>, digests: map<Id, seq<Relation>>)
    requires |outcomes| == |records|
    requires forall i | 0 <= i < |records| :: outcomes[i] == OutcomeOf(table, Entries(records), gate, true, i)
    ensures jobs == JobsTo(table, records, gate, |records|) && digests == DigestsTo(table, records, gate, |records|)
  {
    jobs, digests := [], map[];
    for i := 0 to |records|
      invariant jobs == JobsTo(table, records, gate, i) && digests == DigestsTo(table, records, gate, i)
    {
      assert outcomes[i] == OutcomeOf(table, Entries(records), gate, true, i);
      if outcomes[i].matched && !Superseded(records, i) && !(gate && outcomes[i].stored == Some(records[i].relations)) {
        var owner := Str(records[i].id);
        digests := digests[owner := records[i].relations];
        jobs := jobs + JobsFor(owner, records[i].relations);
      }
    }
  }

  /** The last statement: owners with nothing supported count as complete. */
  method StoreDigests(table: Table, digests: map<Id, seq<Relation>>, complete: map<Id, bool>, ghost jobs: seq<Job>)
    returns (after: Table)
    requires forall owner :: owner in complete <==> SupportedFor(jobs, owner) > 0
    requires forall owner | owner in complete :: complete[owner] <==> AllResolved(table.Keys, jobs, owner)
    ensures after == MarkDone(table, digests, jobs)
  {
    forall id ensures (id !in complete || complete[id]) <==> AllResolved(table.Keys, jobs, id) {
      NothingSupported(table.Keys, jobs, id);
    }
    after := map id | id in table ::
      if id in digests && (id !in complete || complete[id]) then table[id].(relationsHash := Some(digests[id]))
          else table[id];
  }

  lemma {:induction false} NoDigestNoJob(table: Table, records: seq<ArtistRecord>, gate: bool, k: nat)
    requires k <= |records|
    ensures DigestsTo(table, records, gate, k) == map[] ==> JobsTo(table, records, gate, k) == []
  {
    if k > 0 {
      NoDigestNoJob(table, records, gate, k - 1);
      if Selected(table, records, gate, k - 1) {
        assert Str(records[k - 1].id) in DigestsTo(table, records, gate, k);
      }
    }
  }

  // ------------------------------------------------------------ the relation digest is sound

  /** Every supported relation of the list has its edge from this artist. */
  ghost predicate HasEdges(related: set<Edge>, owner: Id, relations: seq<Relation>) {
    forall i | 0 <= i < |relations| && relations[i].kind in RELATIONSHIP_TYPES ::
      relations[i].target != Absent && forall e | Links(owner, relations[i], e) :: e in related
  }

  /** A stored relation digest is true of the graph. */
  ghost predicate RelationsTrue(g: ArtistGraph) {
    forall a | a in g.artists && g.artists[a].relationsHash.Some? ::
        HasEdges(g.related, a, g.artists[a].relationsHash.value)
  }

  lemma {:induction false} DigestsHaveJobs(table: Table, records: seq<ArtistRecord>, gate: bool, k: nat, owner: Id)
    requires k <= |records| && owner in DigestsTo(table, records, gate, k)
    ensures var relations := DigestsTo(table, records, gate, k)[owner];
            forall i | 0 <= i < |relations| :: Job(owner, relations[i]) in JobsTo(table, records, gate, k)
  {
    if Selected(table, records, gate, k - 1) && Str(records[k - 1].id) == owner {
      var relations := records[k - 1].relations;
      forall i | 0 <= i < |relations| ensures Job(owner, relations[i]) in JobsTo(table, records, gate, k) {
        assert JobsFor(owner, relations)[i] == Job(owner, relations[i]);
      }
    } else {
      DigestsHaveJobs(table, records, gate, k - 1, owner);
    }
  }

  lemma BatchKeepsRelationsTrue(g: ArtistGraph, records: seq<ArtistRecord>, gate: bool)
    requires RelationsTrue(g)
    ensures RelationsTrue(EnrichBatch(g, records, gate))
    ensures g.related <= EnrichBatch(g, records, gate).related
    ensures EnrichBatch(g, records, gate).artists.Keys == g.artists.Keys
  {
    var after := EnrichBatch(g, records, gate);
    var table := BatchTable(g.artists, Entries(records), gate);
    var jobs, digests := JobsTo(g.artists, records, gate, |records|), DigestsTo(g.artists, records, gate, |records|);
    EdgesLeft(table.Keys, g.related, jobs, NO_STATS);
    forall a | a in after.artists && after.artists[a].relationsHash.Some?
      ensures HasEdges(after.related, a, after.artists[a].relationsHash.value)
    {
      if a in digests && AllResolved(table.Keys, jobs, a) {
        DigestsHaveJobs(g.artists, records, gate, |records|, a);
        ResolvedHaveEdges(table.Keys, g.related, jobs, a, digests[a]);
      } else {
        assert g.artists[a].relationsHash == after.artists[a].relationsHash;
        assert HasEdges(g.related, a, g.artists[a].relationsHash.value);
      }
    }
  }

  lemma ResolvedHaveEdges(artists: set<Id>, related: set<Edge>, jobs: seq<Job>, owner: Id, relations: seq<Relation>)
    requires AllResolved(artists, jobs, owner)
    requires forall i | 0 <= i < |relations| :: Job(owner, relations[i]) in jobs
    ensures HasEdges(related + EdgesOf(artists, jobs), owner, relations)
  {
    forall i | 0 <= i < |relations| && relations[i].kind in RELATIONSHIP_TYPES
      ensures relations[i].target != Absent && forall e | Links(owner, relations[i], e) :: e in EdgesOf(artists, jobs)
    {
      assert Job(owner, relations[i]) in jobs;
      var k :| 0 <= k < |jobs| && jobs[k] == Job(owner, relations[i]);
      assert Resolves(artists, jobs[k]);
    }
  }

  lemma SingleKeepsRelationsTrue(g: ArtistGraph, r: ArtistRecord, gate: bool)
    requires RelationsTrue(g)
    ensures RelationsTrue(EnrichSingle(g, r, gate))
    ensures g.related <= EnrichSingle(g, r, gate).related
  {
    var after := EnrichSingle(g, r, gate);
    EdgesLeft(g.artists.Keys, g.related, JobsFor(Str(r.id), r.relations), NO_STATS);
    forall a | a in after.artists && after.artists[a].relationsHash.Some?
      ensures HasEdges(after.related, a, after.artists[a].relationsHash.value)
    {
      assert HasEdges(g.related, a, g.artists[a].relationsHash.value);
    }
  }

  /** One committed delivery, or a new artist another catalog brings in. */
  datatype ArtistDelivery =
    | Single(record: ArtistRecord)
    | Batch(records: seq<ArtistRecord>)
    | Arrives(id: Id, fields: Fields)

  ghost function Deliver(g: ArtistGraph, d: ArtistDelivery, gate: bool): ArtistGraph {
    match d
    case Single(r) => EnrichSingle(g, r, gate)
    case Batch(rs) => EnrichBatch(g, rs, gate)
    case Arrives(id, fields) =>
      if id in g.artists then g else g.(artists := g.artists[id := Node(fields, None, None, None)])
  }

  ghost function DeliverAll(g: ArtistGraph, ds: seq<ArtistDelivery>, gate: bool): ArtistGraph {
    if ds == [] then g else Deliver(DeliverAll(g, ds[..|ds| - 1], gate), ds[|ds| - 1], gate)
  }

  /** In every state a run reaches, a stored relation digest vouches for edges that are there. */
  lemma {:induction false} RelationDigestIsSound(g: ArtistGraph, ds: seq<ArtistDelivery>, gate: bool)
    requires RelationsTrue(g)
    ensures RelationsTrue(DeliverAll(g, ds, gate))
  {
    if ds != [] {
      var mid := DeliverAll(g, ds[..|ds| - 1], gate);
      RelationDigestIsSound(g, ds[..|ds| - 1], gate);
      match ds[|ds| - 1]
      case Single(r) => SingleKeepsRelationsTrue(mid, r, gate);
      case Batch(rs) => BatchKeepsRelationsTrue(mid, rs, gate);
      case Arrives(id, fields) =>
        var after := Deliver(mid, Arrives(id, fields), gate);
        forall a | a in after.artists && after.artists[a].relationsHash.Some?
          ensures HasEdges(after.related, a, after.artists[a].relationsHash.value)
        {
          assert HasEdges(mid.related, a, mid.artists[a].relationsHash.value);
        }
    }
  }

  // ------------------------------------------------------------ no relation starves

  /** Every supported relation of the record whose two artists exist has its edge. */
  ghost predicate Delivered(g: ArtistGraph, r: ArtistRecord) {
    forall i, e | 0 <= i < |r.relations| && AsksFor(g.artists.Keys, Str(r.id), r.relations[i], e) :: e in g.related
  }

  lemma {:induction false} SelectedHasJobs(table: Table, records: seq<ArtistRecord>, gate: bool, k: nat, i: nat, n: nat)
    requires i < k <= |records| && Selected(table, records, gate, i) && n < |records[i].relations|
    ensures Job(Str(records[i].id), records[i].relations[n]) in JobsTo(table, records, gate, k)
  {
    if i == k - 1 {
      assert JobsFor(Str(records[i].id), records[i].relations)[n] == Job(Str(records[i].id), records[i].relations[n]);
    } else {
      SelectedHasJobs(table, records, gate, k - 1, i, n);
    }
  }

  /** Whether or not the gate skips it, a matched record that is not superseded has all its resolvable edges. */
  lemma BatchDelivers(g: ArtistGraph, records: seq<ArtistRecord>, gate: bool, i: nat)
    requires RelationsTrue(g) && i < |records| && Matches(g.artists, EntryOf(records[i])) && !Superseded(records, i)
    ensures Delivered(EnrichBatch(g, records, gate), records[i])
  {
    var after, r, owner := EnrichBatch(g, records, gate), records[i], Str(records[i].id);
    var jobs := JobsTo(g.artists, records, gate, |records|);
    BatchKeepsRelationsTrue(g, records, gate);
    assert BatchTable(g.artists, Entries(records), gate).Keys == g.artists.Keys;
    EdgesLeft(g.artists.Keys, g.related, jobs, NO_STATS);
    forall n, e | 0 <= n < |r.relations| && AsksFor(after.artists.Keys, owner, r.relations[n], e)
      ensures e in after.related
    {
      if Selected(g.artists, records, gate, i) {
        SelectedHasJobs(g.artists, records, gate, |records|, i, n);
        assert EdgeOf(Job(owner, r.relations[n])) == e && e in EdgesOf(g.artists.Keys, jobs);
      } else {
        assert HasEdges(g.related, owner, r.relations);
      }
    }
  }

  /**
   The last record of an artist is skipped as superseded exactly when the artist's id is the literal
   "None" and a later record of the batch has no id, whose string form reads the same.
   */
  lemma LastIsSupersededOnlyByMissingId(records: seq<ArtistRecord>, i: nat)
    requires i < |records| && IsLast(Entries(records), i)
    ensures Superseded(records, i) <==>
              Str(records[i].id) == "None" && exists j | i < j < |records| :: records[j].id == Absent
  {
    if Superseded(records, i) {
      var j :| i < j < |records| && Str(records[j].id) == Str(records[i].id);
      if records[j].id != Absent {
        LastIndexMeans(Entries(records), Str(records[i].id), j);
        assert false;
      }
    }
  }

  /** After a batch, an artist's last record has all its resolvable edges, short of that one collision. */
  lemma RelationsNeverStarve(g: ArtistGraph, records: seq<ArtistRecord>, gate: bool, i: nat)
    requires RelationsTrue(g) && i < |records|
    requires IsLast(Entries(records), i) && Matches(g.artists, EntryOf(records[i]))
    requires !(Str(records[i].id) == "None" && exists j | i < j < |records| :: records[j].id == Absent)
    ensures Delivered(EnrichBatch(g, records, gate), records[i])
  {
    LastIsSupersededOnlyByMissingId(records, i);
    BatchDelivers(g, records, gate, i);
  }

  /** The collision does lose relations: here both artists exist and the batch adds no edge. */
  lemma MissingIdHidesArtistNone()
    ensures var g := ArtistGraph(map["None" := Node(map[], None, None, None), "7" := Node(map[], None, None, None)],
                                 {});
            var named := ArtistRecord(Text("None"), map[], [Relation("teacher", Text("7"), false)]);
            var nameless := ArtistRecord(Absent, map[], []);
            && IsLast(Entries([named, nameless]), 0)
            && EnrichBatch(g, [named, nameless], true).related == {}
            && EnrichSingle(g, named, true).related == {Edge("TAUGHT", "None", "7")}
  {
    var g := ArtistGraph(map["None" := Node(map[], None, None, None), "7" := Node(map[], None, None, None)], {});
    var relation := Relation("teacher", Text("7"), false);
    var named, nameless := ArtistRecord(Text("None"), map[], [relation]), ArtistRecord(Absent, map[], []);
    var records := [named, nameless];
    var es := Entries(records);
    assert es[1].id == Absent && es[0].id == Text("None");
    assert es[..1] == [es[0]];
    assert Superseded(records, 0) by { assert Str(records[1].id) == Str(records[0].id); }
    assert !Selected(g.artists, records, true, 0) && !Selected(g.artists, records, true, 1);
    assert JobsTo(g.artists, records, true, 1) == [];
    assert JobsTo(g.artists, records, true, 2) == [];
    assert BatchTable(g.artists, es, true).Keys == g.artists.Keys;
    EdgesLeft(g.artists.Keys, {}, [], NO_STATS);
    var jobs := JobsFor("None", [relation]);
    assert jobs == [Job("None", relation)];
    EdgesLeft(g.artists.Keys, {}, jobs, NO_STATS);
    assert Resolves(g.artists.Keys, jobs[0]) && EdgeOf(jobs[0]) == Edge("TAUGHT", "None", "7");
    assert EdgesOf(g.artists.Keys, jobs) == {EdgeOf(jobs[0])};
  }

  // ------------------------------------------------------------ which edges a batch leaves

  /** Some record of the list asks for the edge. */
  ghost predicate Asked(g: ArtistGraph, records: seq<ArtistRecord>, e: Edge) {
    exists i | 0 <= i < |records| :: AskedBy(g, records[i], e)
  }

  /** Some record that no later one supersedes asks for the edge. */
  ghost predicate AskedByKept(g: ArtistGraph, records: seq<ArtistRecord>, e: Edge) {
    exists i | 0 <= i < |records| :: !Superseded(records, i) && AskedBy(g, records[i], e)
  }

  lemma {:induction false} JobsToAreAsked(g: ArtistGraph, records: seq<ArtistRecord>, gate: bool, k: nat, job: Job)
    requires k <= |records| && job in JobsTo(g.artists, records, gate, k)
    ensures exists i :: 0 <= i < k && Selected(g.artists, records, gate, i)
                        && job in JobsFor(Str(records[i].id), records[i].relations)
  {
    if !(Selected(g.artists, records, gate, k - 1)
         && job in JobsFor(Str(records[k - 1].id), records[k - 1].relations)) {
      JobsToAreAsked(g, records, gate, k - 1, job);
    }
  }

  lemma BatchAddsOnlyAsked(g: ArtistGraph, records: seq<ArtistRecord>, gate: bool, e: Edge)
    requires e in EdgesOf(g.artists.Keys, JobsTo(g.artists, records, gate, |records|))
    ensures AskedByKept(g, records, e)
  {
    var keys, jobs := g.artists.Keys, JobsTo(g.artists, records, gate, |records|);
    var job :| job in jobs && Resolves(keys, job) && EdgeOf(job) == e;
    JobsToAreAsked(g, records, gate, |records|, job);
    var i :| 0 <= i < |records| && Selected(g.artists, records, gate, i)
             && job in JobsFor(Str(records[i].id), records[i].relations);
    AskedByMeans(g, records[i], e);
    assert AskedBy(g, records[i], e);
  }

  lemma BatchAddsAllAsked(g: ArtistGraph, records: seq<ArtistRecord>, gate: bool, e: Edge, i: nat)
    requires RelationsTrue(g) && i < |records| && !Superseded(records, i) && AskedBy(g, records[i], e)
    ensures e in EnrichBatch(g, records, gate).related
  {
    var r := records[i];
    BatchDelivers(g, records, gate, i);
    BatchKeepsRelationsTrue(g, records, gate);
    var n :| 0 <= n < |r.relations| && AsksFor(g.artists.Keys, Str(r.id), r.relations[n], e);
    assert AsksFor(EnrichBatch(g, records, gate).artists.Keys, Str(r.id), r.relations[n], e);
  }

  /** A batch, gated or not, adds exactly the edges that records it does not supersede ask for. */
  lemma BatchLeaves(g: ArtistGraph, records: seq<ArtistRecord>, gate: bool, e: Edge)
    requires RelationsTrue(g)
    ensures e in EnrichBatch(g, records, gate).related <==> e in g.related || AskedByKept(g, records, e)
  {
    var keys, jobs := g.artists.Keys, JobsTo(g.artists, records, gate, |records|);
    assert BatchTable(g.artists, Entries(records), gate).Keys == keys;
    EdgesLeft(keys, g.related, jobs, NO_STATS);
    if e in EdgesOf(keys, jobs) { BatchAddsOnlyAsked(g, records, gate, e); }
    if AskedByKept(g, records, e) {
      var i :| 0 <= i < |records| && !Superseded(records, i) && AskedBy(g, records[i], e);
      BatchAddsAllAsked(g, records, gate, e, i);
    }
  }

  /** A matched record is delivered when every edge it asks for is there. */
  lemma DeliveredMeans(g: ArtistGraph, after: ArtistGraph, r: ArtistRecord)
    requires Matches(g.artists, EntryOf(r)) && after.artists.Keys == g.artists.Keys
    ensures Delivered(after, r) <==> forall e | AskedBy(g, r, e) :: e in after.related
  {
    forall n, e | 0 <= n < |r.relations| && AsksFor(after.artists.Keys, Str(r.id), r.relations[n], e)
      ensures AskedBy(g, r, e)
    {
      assert AsksFor(g.artists.Keys, Str(r.id), r.relations[n], e);
    }
    if Delivered(after, r) {
      forall e | AskedBy(g, r, e) ensures e in after.related {
        var n :| 0 <= n < |r.relations| && AsksFor(g.artists.Keys, Str(r.id), r.relations[n], e);
        assert AsksFor(after.artists.Keys, Str(r.id), r.relations[n], e);
      }
    }
  }

  /**
   Exactly when a batch delivers a matched record's relations: always when no later record supersedes
   it, and otherwise just when each edge it asks for is there already or asked for by a record that stays.
   */
  lemma RelationsDeliveredExactly(g: ArtistGraph, records: seq<ArtistRecord>, gate: bool, i: nat)
    requires RelationsTrue(g) && i < |records| && Matches(g.artists, EntryOf(records[i]))
    ensures Delivered(EnrichBatch(g, records, gate), records[i]) <==>
              !Superseded(records, i) || forall e | AskedBy(g, records[i], e) ::
                                           e in g.related || AskedByKept(g, records, e)
  {
    BatchKeepsRelationsTrue(g, records, gate);
    DeliveredMeans(g, EnrichBatch(g, records, gate), records[i]);
    forall e ensures e in EnrichBatch(g, records, gate).related <==> e in g.related || AskedByKept(g, records, e) {
      BatchLeaves(g, records, gate, e);
    }
  }

  // ------------------------------------------------------------ batches and singles agree

  function EnrichInOrder(g: ArtistGraph, records: seq<ArtistRecord>, gate: bool): ArtistGraph {
    if records == [] then g
    else EnrichSingle(EnrichInOrder(g, records[..|records| - 1], gate), records[|records| - 1], gate)
  }

  lemma AskedThen(g: ArtistGraph, front: seq<ArtistRecord>, r: ArtistRecord, e: Edge)
    ensures Asked(g, front, e) || AskedBy(g, r, e) ==> Asked(g, front + [r], e)
  {
    var all := front + [r];
    assert all[|front|] == r;
    if Asked(g, front, e) {
      var i :| 0 <= i < |front| && AskedBy(g, front[i], e);
      assert all[i] == front[i];
    }
  }

  lemma AskedBefore(g: ArtistGraph, front: seq<ArtistRecord>, r: ArtistRecord, e: Edge)
    requires Asked(g, front + [r], e)
    ensures Asked(g, front, e) || AskedBy(g, r, e)
  {
    var all := front + [r];
    var i :| 0 <= i < |all| && AskedBy(g, all[i], e);
    assert if i < |front| then all[i] == front[i] else all[i] == r;
  }

  lemma AskedMore(g: ArtistGraph, records: seq<ArtistRecord>, e: Edge)
    requires records != []
    ensures Asked(g, records, e) <==> Asked(g, records[..|records| - 1], e) || AskedBy(g, records[|records| - 1], e)
  {
    var front, last := records[..|records| - 1], records[|records| - 1];
    assert records == front + [last];
    AskedThen(g, front, last, e);
    if Asked(g, front + [last], e) { AskedBefore(g, front, last, e); }
  }

  lemma {:induction false} InOrderLeaves(g: ArtistGraph, records: seq<ArtistRecord>, gate: bool, e: Edge)
    ensures var after := EnrichInOrder(g, records, gate);
            && after.artists == DeliverInOrder(g.artists, Entries(records), gate)
            && after.artists.Keys == g.artists.Keys
            && (e in after.related <==> e in g.related || Asked(g, records, e))
  {
    if records == [] {
      assert Entries(records) == [];
    } else {
      var front, last := records[..|records| - 1], records[|records| - 1];
      var mid := EnrichInOrder(g, front, gate);
      InOrderLeaves(g, front, gate, e);
      assert Entries(records)[..|records| - 1] == Entries(front);
      EdgesLeft(mid.artists.Keys, mid.related, JobsFor(Str(last.id), last.relations), NO_STATS);
      AskedByMeans(g, last, e);
      AskedMore(g, records, e);
    }
  }

  /** A superseded record's edges are all there or asked for by records that stay. */
  ghost predicate NothingSupersededIsLost(g: ArtistGraph, records: seq<ArtistRecord>) {
    forall i, e | 0 <= i < |records| && Superseded(records, i) && AskedBy(g, records[i], e) ::
      e in g.related || AskedByKept(g, records, e)
  }

  lemma SameEdgesMeans(g: ArtistGraph, records: seq<ArtistRecord>)
    ensures NothingSupersededIsLost(g, records) <==>
              forall e | Asked(g, records, e) :: e in g.related || AskedByKept(g, records, e)
  {
    if NothingSupersededIsLost(g, records) {
      forall e | Asked(g, records, e) ensures e in g.related || AskedByKept(g, records, e) {
        var i :| 0 <= i < |records| && AskedBy(g, records[i], e);
      }
    }
    if forall e | Asked(g, records, e) :: e in g.related || AskedByKept(g, records, e) {
      forall i, e | 0 <= i < |records| && Superseded(records, i) && AskedBy(g, records[i], e)
        ensures e in g.related || AskedByKept(g, records, e)
      {
        assert Asked(g, records, e);
      }
    }
  }

  lemma KeptIsAsked(g: ArtistGraph, records: seq<ArtistRecord>, e: Edge)
    requires AskedByKept(g, records, e)
    ensures Asked(g, records, e)
  {
    var i :| 0 <= i < |records| && !Superseded(records, i) && AskedBy(g, records[i], e);
  }

  /** A batch leaves the fields and digests of its records one at a time, repeated ids or not. */
  lemma BatchNodesEqualSingles(g: ArtistGraph, records: seq<ArtistRecord>, gate: bool)
    requires Consistent(g.artists)
    ensures var batch, singles := EnrichBatch(g, records, gate), EnrichInOrder(g, records, gate);
            && batch.artists.Keys == singles.artists.Keys
            && forall id | id in batch.artists ::
                 batch.artists[id].fields == singles.artists[id].fields
                     && batch.artists[id].hash == singles.artists[id].hash
  {
    InOrderLeaves(g, records, gate, Edge("", "", ""));
    LastRecordWins(g.artists, Entries(records), gate);
  }

  /**
   For any batch: its edges are those of its records one at a time exactly when no superseded record
   asks for an edge that nothing else provides. So always when no id repeats.
   */
  lemma BatchEqualsSingles(g: ArtistGraph, records: seq<ArtistRecord>, gate: bool)
    requires RelationsTrue(g)
    ensures EnrichBatch(g, records, gate).related == EnrichInOrder(g, records, gate).related <==>
              NothingSupersededIsLost(g, records)
  {
    var batch, singles := EnrichBatch(g, records, gate), EnrichInOrder(g, records, gate);
    forall e
      ensures e in batch.related <==> e in g.related || AskedByKept(g, records, e)
      ensures e in singles.related <==> e in g.related || Asked(g, records, e)
      ensures AskedByKept(g, records, e) ==> Asked(g, records, e)
    {
      InOrderLeaves(g, records, gate, e);
      BatchLeaves(g, records, gate, e);
      if AskedByKept(g, records, e) { KeptIsAsked(g, records, e); }
    }
    SameEdgesMeans(g, records);
    if NothingSupersededIsLost(g, records) {
      assert batch.related == singles.related;
    }
  }

  /** Two records of one artist: delivered alone the first leaves its edge, in one batch it does not. */
  lemma SupersededRelationIsLost()
    ensures var g := ArtistGraph(map["3" := Node(map[], None, None, None), "7" := Node(map[], None, None, None)], {});
            var first := ArtistRecord(Number(3), map[], [Relation("teacher", Text("7"), false)]);
            var second := ArtistRecord(Text("3"), map[], []);
            && EnrichBatch(g, [first, second], true).related == {}
            && EnrichInOrder(g, [first, second], true).related == {Edge("TAUGHT", "3", "7")}
  {
    var g := ArtistGraph(map["3" := Node(map[], None, None, None), "7" := Node(map[], None, None, None)], {});
    var relation := Relation("teacher", Text("7"), false);
    var first, second := ArtistRecord(Number(3), map[], [relation]), ArtistRecord(Text("3"), map[], []);
    var records, edge := [first, second], Edge("TAUGHT", "3", "7");
    assert Str(records[1].id) == Str(records[0].id) == "3";
    var jobs := JobsFor("3", [relation]);
    assert jobs == [Job("3", relation)] && JobsFor("3", []) == [];
    assert Resolves(g.artists.Keys, jobs[0]) && EdgeOf(jobs[0]) == edge;
    assert EdgesOf(g.artists.Keys, jobs) == {edge};
    forall e ensures AskedBy(g, records[0], e) <==> e == edge { AskedByMeans(g, records[0], e); }
    assert EdgesOf(g.artists.Keys, []) == {};
    forall e ensures !AskedBy(g, records[1], e) { AskedByMeans(g, records[1], e); }
    FirstOfTwoIsLost(g, first, second, edge);
  }

  lemma FirstOfTwoIsLost(g: ArtistGraph, first: ArtistRecord, second: ArtistRecord, edge: Edge)
    requires RelationsTrue(g) && g.related == {} && Str(first.id) == Str(second.id)
    requires forall e :: (AskedBy(g, first, e) <==> e == edge) && !AskedBy(g, second, e)
    ensures EnrichBatch(g, [first, second], true).related == {}
    ensures EnrichInOrder(g, [first, second], true).related == {edge}
  {
    var records := [first, second];
    assert Superseded(records, 0) by { assert Str(records[1].id) == Str(records[0].id); }
    forall e
      ensures e !in EnrichBatch(g, records, true).related
      ensures e in EnrichInOrder(g, records, true).related <==> e == edge
    {
      BatchLeaves(g, records, true, e);
      InOrderLeaves(g, records, true, e);
      assert AskedBy(g, records[0], edge);
    }
  }
}
