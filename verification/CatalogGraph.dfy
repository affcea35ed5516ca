/**
 The shared catalog graph, and what each media statement does to it.

 A statement's deletes all happen before its prune check. MediaFamily nodes are never pruned.
 */
module CatalogGraph {
  import opened Identifiers
  import opened MediaRows

  datatype Source = MusicBrainz | Catalog(name: string)

  /** One ISSUED_ON edge; its quantity is the value stored for it. */
  datatype Issue = Issue(release: Id, source: Source, medium: Id)

  datatype Value = Null | Word(w: string) | Whole(n: int) | Words(ws: seq<string>)

  /** The MusicBrainz properties one event maps onto a node. */
  type Fields = map<string, Value>

  datatype Relation = Relation(kind: string, target: RawId, backward: bool)

  datatype Summary = Summary(families: seq<Id>, count: nat)

  /** What a record projects besides its fields. */
  datatype Extra = NoExtra | MediaExtra(summary: Summary, rows: seq<Row>) | RelationsExtra(relations: seq<Relation>)

  /** The payload hash, which is taken to be collision free. */
  datatype Digest = Digest(fields: Fields, extra: Extra)

  datatype Node = Node(
    fields: Fields,
    hash: Option<Digest>,
    relationsHash: Option<seq<Relation>>,
    summary: Option<Summary>)

  type Table = map<Id, Node>

  datatype MediumNode = MediumNode(family: Id, caption: string)

  datatype Edge = Edge(kind: string, source: Id, target: Id)

  datatype Graph = Graph(
    releases: Table,
    mediums: map<Id, MediumNode>,
    families: set<Id>,
    inFamily: set<(Id, Id)>,
    issued: map<Issue, int>,
    linked: set<Id>)    // mediums some other relationship touches

  /** What one release's media block asks for. */
  datatype Plan = Plan(summary: Summary, rows: seq<Row>)

  /** The `summaries` dictionary of one write: at most one plan a release. */
  type Plans = map<Id, Plan>

  // ------------------------------------------------------------ vocabulary

  predicate Lists(rows: seq<Row>, medium: Id) {
    exists i | 0 <= i < |rows| :: rows[i].medium == medium
  }

  predicate Wants(plans: Plans, release: Id, medium: Id) {
    release in plans && Lists(plans[release].rows, medium)
  }

  /** A musicbrainz edge that its release's plan no longer lists. */
  predicate Stale(plans: Plans, e: Issue) {
    e.source == MusicBrainz && e.release in plans && !Lists(plans[e.release].rows, e.medium)
  }

  predicate InUse(issued: map<Issue, int>, medium: Id) {
    exists e | e in issued :: e.medium == medium
  }

  /** Some release of the write has a musicbrainz edge to the medium. */
  predicate Held(g: Graph, plans: Plans, medium: Id) {
    exists r | r in plans :: Issue(r, MusicBrainz, medium) in g.issued
  }

  // ------------------------------------------------------------ statements

  function StaleFamilies(g: Graph, plans: Plans): set<Id> {
    set e | e in g.inFamily && Held(g, plans, e.0) :: e.1
  }

  function StaleMediums(g: Graph, plans: Plans): set<Id> {
    set e | e in g.issued && Stale(plans, e) :: e.medium
  }

  /** LOCK_MEDIA_FAMILIES: MERGE every family the write files under or may detach from. */
  function LockFamilies(g: Graph, plans: Plans, families: seq<Id>): Graph {
    g.(families := g.families + (set f | f in families) + StaleFamilies(g, plans))
  }

  function MergeMedium(mediums: map<Id, MediumNode>, row: Row): map<Id, MediumNode> {
    if row.medium in mediums then mediums else mediums[row.medium := MediumNode(row.family, row.caption)]
  }

  function MergeMediums(mediums: map<Id, MediumNode>, items: seq<Row>): map<Id, MediumNode> {
    if items == [] then mediums
    else MergeMedium(MergeMediums(mediums, items[..|items| - 1]), items[|items| - 1])
  }

  /** LOCK_MEDIA_MEDIUMS: MERGE every medium to attach; stale mediums are only touched. */
  function LockMediums(g: Graph, items: seq<Row>): Graph {
    g.(mediums := MergeMediums(g.mediums, items))
  }

  function Summarised(releases: Table, plans: Plans): Table {
    map r | r in releases :: if r in plans then releases[r].(summary := Some(plans[r].summary)) else releases[r]
  }

  /** The mediums PRUNE_ORPHAN_MEDIUM deletes once the stale edges are gone. */
  function Orphaned(g: Graph, plans: Plans): set<Id> {
    set m | m in StaleMediums(g, plans) && !InUse(WithoutStale(g.issued, plans), m) && m !in g.linked
  }

  function WithoutStale(issued: map<Issue, int>, plans: Plans): map<Issue, int> {
    map e | e in issued && !Stale(plans, e) :: issued[e]
  }

  /** RELEASE_MEDIA_SUMMARY: set the summaries, delete the stale edges, prune what they orphaned. */
  function WriteSummaries(g: Graph, plans: Plans): Graph {
    var gone := Orphaned(g, plans);
    g.(releases := Summarised(g.releases, plans),
       issued := WithoutStale(g.issued, plans),
       mediums := map m | m in g.mediums && m !in gone :: g.mediums[m],
       inFamily := set e | e in g.inFamily && e.0 !in gone)
  }

  function MergeIssue(g: Graph, item: (Id, Row)): Graph {
    var (release, row) := item;
    if release !in g.releases then g
    else g.(mediums := MergeMedium(g.mediums, row),
            families := g.families + {row.family},
            inFamily := g.inFamily + {(row.medium, row.family)},
            issued := g.issued[Issue(release, MusicBrainz, row.medium) := row.qty])
  }

  /** RELEASE_MEDIA_EDGES: MERGE each item's medium, family and edges in turn. */
  function WriteIssues(g: Graph, items: seq<(Id, Row)>): Graph {
    if items == [] then g
    else MergeIssue(WriteIssues(g, items[..|items| - 1]), items[|items| - 1])
  }

  // ------------------------------------------------------------ naming assumption

  function Named(v: Vocabulary, fam: Id -> Id, medium: Id): MediumNode {
    MediumNode(fam(medium), MediumLabel(v, medium))
  }

  ghost predicate RowNamed(v: Vocabulary, fam: Id -> Id, row: Row) {
    row.family == fam(row.medium) && row.caption == MediumLabel(v, row.medium)
  }

  ghost predicate OneRowEach(rows: seq<Row>) {
    forall i, j | 0 <= i < j < |rows| :: rows[i].medium != rows[j].medium
  }

  /** One row a medium, each filed under the medium's one family. */
  ghost predicate PlanNamed(v: Vocabulary, fam: Id -> Id, plan: Plan) {
    && (forall i | 0 <= i < |plan.rows| :: RowNamed(v, fam, plan.rows[i]))
    && OneRowEach(plan.rows)
  }

  ghost predicate PlansNamed(v: Vocabulary, fam: Id -> Id, plans: Plans) {
    forall r | r in plans :: PlanNamed(v, fam, plans[r])
  }

  /** Every medium carries its one family and label, and no edge dangles. */
  ghost predicate WellNamed(v: Vocabulary, fam: Id -> Id, g: Graph) {
    && (forall m | m in g.mediums :: g.mediums[m] == Named(v, fam, m))
    && (forall e | e in g.inFamily :: e.1 == fam(e.0) && e.0 in g.mediums && e.1 in g.families)
    && (forall e | e in g.issued :: e.release in g.releases && e.medium in g.mediums)
    && g.linked <= g.mediums.Keys
  }

  /** No medium is left that nothing uses. */
  ghost predicate OrphanFree(g: Graph) {
    forall m | m in g.mediums :: InUse(g.issued, m) || m in g.linked
  }
}
