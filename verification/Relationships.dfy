/**
 Projecting artist relationships, one statement a relation or one statement an edge type.

 Both ways leave the same edges and the same counts.
 */
module Relationships {
  import opened Identifiers
  import opened CatalogGraph
  import opened EntityGate

  const RELATIONSHIP_TYPES: map<string, string> := map[
    "member of band" := "MEMBER_OF",
    "collaboration" := "COLLABORATED_WITH",
    "teacher" := "TAUGHT",
    "tribute" := "TRIBUTE_TO",
    "founder" := "FOUNDED",
    "supporting musician" := "SUPPORTED",
    "subgroup" := "SUBGROUP_OF",
    "artist rename" := "RENAMED_TO"]

  /** One relation to project for one source artist. */
  datatype Job = Job(owner: Id, relation: Relation)

  predicate Supported(r: Relation) { r.kind in RELATIONSHIP_TYPES }

  function EdgeType(r: Relation): string
    requires Supported(r)
  {
    RELATIONSHIP_TYPES[r.kind]
  }

  /** The canonical edge of a relation: a backward relation swaps its ends. */
  function EdgeOf(job: Job): Edge
    requires Supported(job.relation)
  {
    var kind, target := EdgeType(job.relation), Str(job.relation.target);
    if job.relation.backward then Edge(kind, target, job.owner) else Edge(kind, job.owner, target)
  }

  /** The relation has a target, and both artists are in the graph. */
  predicate Resolves(artists: set<Id>, job: Job) {
    && Supported(job.relation) && job.relation.target != Absent
    && EdgeOf(job).source in artists && EdgeOf(job).target in artists
  }

  function EdgesOf(artists: set<Id>, jobs: seq<Job>): set<Edge> {
    set job | job in jobs && Resolves(artists, job) :: EdgeOf(job)
  }

  /** The edge a relation of this owner stands for: from the owner, or to it when the relation is backward. */
  ghost predicate Links(owner: Id, r: Relation, e: Edge) {
    && r.kind in RELATIONSHIP_TYPES && r.target != Absent
    && e == if r.backward then Edge(RELATIONSHIP_TYPES[r.kind], Str(r.target), owner)
            else Edge(RELATIONSHIP_TYPES[r.kind], owner, Str(r.target))
  }

  /** The owner's relation asks for this edge: it stands for it, and both artists are there. */
  ghost predicate AsksFor(artists: set<Id>, owner: Id, r: Relation, e: Edge) {
    Links(owner, r, e) && owner in artists && Str(r.target) in artists
  }

  ghost predicate SomeAsksFor(artists: set<Id>, jobs: seq<Job>, e: Edge) {
    exists i | 0 <= i < |jobs| :: AsksFor(artists, jobs[i].owner, jobs[i].relation, e)
  }

  /** The relations of a supported type. */
  function SupportedAt(jobs: seq<Job>): set<int> {
    set i | 0 <= i < |jobs| && jobs[i].relation.kind in RELATIONSHIP_TYPES
  }

  /** The relations of a supported type that have a target and find both artists. */
  function LinkedAt(artists: set<Id>, jobs: seq<Job>): set<int> {
    set i | 0 <= i < |jobs| && jobs[i].relation.kind in RELATIONSHIP_TYPES && jobs[i].relation.target != Absent
            && jobs[i].owner in artists && Str(jobs[i].relation.target) in artists
  }

  /**
   What a projection leaves and counts: the edges that were there and those that some relation asks for;
   one created for each new edge, one updated for each other relation that found both artists, and one
   missing for each supported relation that did not.
   */
  ghost predicate LinksMade(artists: set<Id>, related: set<Edge>, jobs: seq<Job>, stats: Stats, edges: set<Edge>,
                            counted: Stats) {
    && (forall e :: e in edges <==> e in related || SomeAsksFor(artists, jobs, e))
    && counted.created == stats.created + |edges| - |related|
    && counted.created + counted.updated == stats.created + stats.updated + |LinkedAt(artists, jobs)|
    && counted.missing == stats.missing + |SupportedAt(jobs)| - |LinkedAt(artists, jobs)|
    && counted.enriched == stats.enriched && counted.skipped == stats.skipped && counted.replays == stats.replays
  }

  lemma EdgesAreAskedFor(artists: set<Id>, jobs: seq<Job>, e: Edge)
    ensures e in EdgesOf(artists, jobs) <==> SomeAsksFor(artists, jobs, e)
  {
    if e in EdgesOf(artists, jobs) {
      var job :| job in jobs && Resolves(artists, job) && EdgeOf(job) == e;
      var i :| 0 <= i < |jobs| && jobs[i] == job;
      assert AsksFor(artists, jobs[i].owner, jobs[i].relation, e);
    }
    if SomeAsksFor(artists, jobs, e) {
      var i :| 0 <= i < |jobs| && AsksFor(artists, jobs[i].owner, jobs[i].relation, e);
      assert jobs[i] in jobs && EdgeOf(jobs[i]) == e;
    }
  }

  lemma {:induction false} SupportedCountCounts(jobs: seq<Job>)
    ensures SupportedCount(jobs) == |SupportedAt(jobs)|
  {
    if jobs == [] {
      assert SupportedAt(jobs) == {};
    } else {
      var n := |jobs| - 1;
      SupportedCountCounts(jobs[..n]);
      assert SupportedAt(jobs) == SupportedAt(jobs[..n]) + (if Supported(jobs[n].relation) then {n} else {});
    }
  }

  lemma {:induction false} CountsJoin(artists: set<Id>, a: seq<Job>, b: seq<Job>)
    ensures SupportedCount(a + b) == SupportedCount(a) + SupportedCount(b)
    ensures ResolvedCount(artists, a + b) == ResolvedCount(artists, a) + ResolvedCount(artists, b)
  {
    if b == [] {
      assert a + b == a;
    } else {
      assert (a + b)[..|a + b| - 1] == a + b[..|b| - 1];
      CountsJoin(artists, a, b[..|b| - 1]);
    }
  }

  lemma LinkedMore(artists: set<Id>, jobs: seq<Job>, n: nat)
    requires |jobs| == n + 1
    ensures LinkedAt(artists, jobs) == LinkedAt(artists, jobs[..n]) + (if Resolves(artists, jobs[n]) then {n} else {})
  {
    assert forall i | 0 <= i < n :: jobs[..n][i] == jobs[i];
  }

  lemma {:induction false} ResolvedCountCounts(artists: set<Id>, jobs: seq<Job>)
    ensures ResolvedCount(artists, jobs) == |LinkedAt(artists, jobs)|
  {
    if jobs == [] {
      assert LinkedAt(artists, jobs) == {};
    } else {
      var n := |jobs| - 1;
      ResolvedCountCounts(artists, jobs[..n]);
      LinkedMore(artists, jobs, n);
    }
  }

  function SupportedCount(jobs: seq<Job>): nat {
    if jobs == [] then 0
    else SupportedCount(jobs[..|jobs| - 1]) + (if Supported(jobs[|jobs| - 1].relation) then 1 else 0)
  }

  function ResolvedCount(artists: set<Id>, jobs: seq<Job>): nat {
    if jobs == [] then 0
    else ResolvedCount(artists, jobs[..|jobs| - 1]) + (if Resolves(artists, jobs[|jobs| - 1]) then 1 else 0)
  }

  lemma EdgesOfMore(artists: set<Id>, jobs: seq<Job>)
    requires jobs != []
    ensures var last := jobs[|jobs| - 1];
            EdgesOf(artists, jobs) == EdgesOf(artists, jobs[..|jobs| - 1])
                + (if Resolves(artists, last) then {EdgeOf(last)} else {})
  {
    assert jobs == jobs[..|jobs| - 1] + [jobs[|jobs| - 1]];
  }

  // ------------------------------------------------------------ one by one

  /** One relation's statement and the counter its summary moves. */
  function ProjectOne(artists: set<Id>, related: set<Edge>, job: Job, stats: Stats): (set<Edge>, Stats) {
    if !Supported(job.relation) then (related, stats)
    else if !Resolves(artists, job) then (related, stats.(missing := stats.missing + 1))
    else if EdgeOf(job) !in related then (related + {EdgeOf(job)}, stats.(created := stats.created + 1))
    else (related, stats.(updated := stats.updated + 1))
  }

  function ProjectInOrder(artists: set<Id>, related: set<Edge>, jobs: seq<Job>, stats: Stats): (set<Edge>, Stats) {
    if jobs == [] then (related, stats)
    else
      var (edges, counted) := ProjectInOrder(artists, related, jobs[..|jobs| - 1], stats);
      ProjectOne(artists, edges, jobs[|jobs| - 1], counted)
  }

  /** What a projection must leave and count, whichever way it runs. */
  ghost predicate Projected(artists: set<Id>, related: set<Edge>, jobs: seq<Job>, stats: Stats, edges: set<Edge>,
                            counted: Stats) {
    && edges == related + EdgesOf(artists, jobs)
    && counted.created == stats.created + |edges| - |related|
    && counted.created + counted.updated == stats.created + stats.updated + ResolvedCount(artists, jobs)
    && counted.missing == stats.missing + SupportedCount(jobs) - ResolvedCount(artists, jobs)
    && counted.enriched == stats.enriched && counted.skipped == stats.skipped && counted.replays == stats.replays
  }

  lemma ProjectOneProjects(artists: set<Id>, related: set<Edge>, front: seq<Job>, last: Job, stats: Stats,
                           edges: set<Edge>, counted: Stats)
    requires Projected(artists, related, front, stats, edges, counted)
    ensures var (e, c) := ProjectOne(artists, edges, last, counted);
            Projected(artists, related, front + [last], stats, e, c)
  {
    CountsMore(artists, front, last);
    if Resolves(artists, last) {
      var edge := EdgeOf(last);
      assert edge in edges ==> edges + {edge} == edges;
      assert edge !in edges ==> |edges + {edge}| == |edges| + 1;
      assert edges + {edge} == related + (EdgesOf(artists, front) + {edge});
    }
  }

  lemma CountsMore(artists: set<Id>, front: seq<Job>, last: Job)
    ensures var jobs := front + [last];
            && SupportedCount(jobs) == SupportedCount(front) + (if Supported(last.relation) then 1 else 0)
            && ResolvedCount(artists, jobs) == ResolvedCount(artists, front)
                + (if Resolves(artists, last) then 1 else 0)
            && EdgesOf(artists, jobs) == EdgesOf(artists, front)
                + (if Resolves(artists, last) then {EdgeOf(last)} else {})
  {
    var jobs := front + [last];
    assert jobs[..|jobs| - 1] == front;
    EdgesOfMore(artists, jobs);
  }

  lemma {:induction false} InOrderProjects(artists: set<Id>, related: set<Edge>, jobs: seq<Job>, stats: Stats)
    ensures var (edges, counted) := ProjectInOrder(artists, related, jobs, stats);
            Projected(artists, related, jobs, stats, edges, counted)
  {
    if jobs != [] {
      var front, last := jobs[..|jobs| - 1], jobs[|jobs| - 1];
      InOrderProjects(artists, related, front, stats);
      EdgesOfMore(artists, jobs);
      var (edges, counted) := ProjectInOrder(artists, related, front, stats);
      ProjectOneProjects(artists, related, front, last, stats, edges, counted);
      assert front + [last] == jobs;
    }
  }

  lemma ProjectedLinks(artists: set<Id>, related: set<Edge>, jobs: seq<Job>, stats: Stats, edges: set<Edge>,
                       counted: Stats)
    requires Projected(artists, related, jobs, stats, edges, counted)
    ensures LinksMade(artists, related, jobs, stats, edges, counted)
  {
    forall e { EdgesAreAskedFor(artists, jobs, e); }
    SupportedCountCounts(jobs);
    ResolvedCountCounts(artists, jobs);
  }

  /** Delivered one by one, relations leave the edges they ask for and count each relation once. */
  lemma InOrderLinks(artists: set<Id>, related: set<Edge>, jobs: seq<Job>, stats: Stats)
    ensures var (edges, counted) := ProjectInOrder(artists, related, jobs, stats);
            LinksMade(artists, related, jobs, stats, edges, counted)
  {
    InOrderProjects(artists, related, jobs, stats);
    var (edges, counted) := ProjectInOrder(artists, related, jobs, stats);
    ProjectedLinks(artists, related, jobs, stats, edges, counted);
  }

  /** Lists of relations that ask for the same edges leave the same edges. */
  lemma SameAsksSameEdges(artists: set<Id>, related: set<Edge>, some: seq<Job>, others: seq<Job>, stats: Stats)
    requires forall e :: SomeAsksFor(artists, some, e) <==> SomeAsksFor(artists, others, e)
    ensures ProjectInOrder(artists, related, some, stats).0 == ProjectInOrder(artists, related, others, stats).0
  {
    InOrderLinks(artists, related, some, stats);
    InOrderLinks(artists, related, others, stats);
    assert forall e :: e in ProjectInOrder(artists, related, some, stats).0 <==>
                       e in ProjectInOrder(artists, related, others, stats).0;
  }

  /** The two artists' own records of one relationship, backward on one side, make one and the same edge. */
  lemma BothSidesMakeOneEdge(artists: set<Id>, related: set<Edge>, kind: string, a: Id, b: Id, stats: Stats,
                             from: seq<Job>, to: seq<Job>)
    requires from == [Job(a, Relation(kind, Text(b), false))] && to == [Job(b, Relation(kind, Text(a), true))]
    ensures ProjectInOrder(artists, related, from, stats).0 == ProjectInOrder(artists, related, to, stats).0
    ensures ProjectInOrder(artists, related, from + to, stats).0 == ProjectInOrder(artists, related, from, stats).0
  {
    forall e
      ensures SomeAsksFor(artists, from, e) <==> AsksFor(artists, a, from[0].relation, e)
      ensures SomeAsksFor(artists, to, e) <==> AsksFor(artists, a, from[0].relation, e)
      ensures SomeAsksFor(artists, from + to, e) <==> AsksFor(artists, a, from[0].relation, e)
    {
      assert AsksFor(artists, b, to[0].relation, e) <==> AsksFor(artists, a, from[0].relation, e);
      assert (from + to)[0] == from[0] && (from + to)[1] == to[0];
    }
    SameAsksSameEdges(artists, related, from, to, stats);
    SameAsksSameEdges(artists, related, from + to, from, stats);
  }

  /** The outcome leaves nothing open. */
  lemma ProjectedIsUnique(artists: set<Id>, related: set<Edge>, jobs: seq<Job>, stats: Stats,
                          e1: set<Edge>, s1: Stats, e2: set<Edge>, s2: Stats)
    requires Projected(artists, related, jobs, stats, e1, s1) && Projected(artists, related, jobs, stats, e2, s2)
    ensures e1 == e2 && s1 == s2
  {}

  method CreateRelationshipEdges(artists: set<Id>, related: set<Edge>, owner: Id, relations: seq<Relation>,
                                 stats: Stats)
    returns (edges: set<Edge>, counted: Stats)
    ensures (edges, counted) == ProjectInOrder(artists, related, JobsFor(owner, relations), stats)
    ensures forall e :: e in edges <==> e in related || exists i | 0 <= i < |relations| ::
                                                          AsksFor(artists, owner, relations[i], e)
    ensures LinksMade(artists, related, JobsFor(owner, relations), stats, edges, counted)
  {
    edges, counted := related, stats;
    ghost var jobs := JobsFor(owner, relations);
    for i := 0 to |relations|
      invariant (edges, counted) == ProjectInOrder(artists, related, jobs[..i], stats)
    {
      assert jobs[..i + 1][..i] == jobs[..i];
      var relation := relations[i];
      if relation.kind in RELATIONSHIP_TYPES {
        if relation.target == Absent {
          counted := counted.(missing := counted.missing + 1);
        } else {
          var source, target := owner, Str(relation.target);
          if relation.backward { source, target := target, source; }
          var edge := Edge(RELATIONSHIP_TYPES[relation.kind], source, target);
          if source in artists && target in artists {
            if edge !in edges {
              edges, counted := edges + {edge}, counted.(created := counted.created + 1);
            } else {
              counted := counted.(updated := counted.updated + 1);
            }
          } else {
            counted := counted.(missing := counted.missing + 1);
          }
        }
      }
    }
    assert jobs[..|relations|] == jobs;
    InOrderLinks(artists, related, jobs, stats);
    forall e { OwnersAskFor(artists, owner, relations, e); }
  }

  lemma OwnersAskFor(artists: set<Id>, owner: Id, relations: seq<Relation>, e: Edge)
    ensures SomeAsksFor(artists, JobsFor(owner, relations), e) <==>
              exists i | 0 <= i < |relations| :: AsksFor(artists, owner, relations[i], e)
  {
    var jobs := JobsFor(owner, relations);
    if i :| 0 <= i < |relations| && AsksFor(artists, owner, relations[i], e) {
      assert AsksFor(artists, jobs[i].owner, jobs[i].relation, e);
    }
  }

  function JobsFor(owner: Id, relations: seq<Relation>): (jobs: seq<Job>)
    ensures |jobs| == |relations| && forall i | 0 <= i < |jobs| :: jobs[i] == Job(owner, relations[i])
  {
    seq(|relations|, i requires 0 <= i < |relations| => Job(owner, relations[i]))
  }

  // ------------------------------------------------------------ grouped by edge type

  /** One row of a grouped statement. */
  datatype EdgeRow = EdgeRow(owner: Id, source: Id, target: Id)

  function RowOfJob(job: Job): EdgeRow
    requires Supported(job.relation)
  {
    EdgeRow(job.owner, EdgeOf(job).source, EdgeOf(job).target)
  }

  predicate HasRow(job: Job, kind: string) {
    Supported(job.relation) && job.relation.target != Absent && EdgeType(job.relation) == kind
  }

  function RowsOfKind(jobs: seq<Job>, kind: string): seq<EdgeRow> {
    if jobs == [] then []
    else
      var last := jobs[|jobs| - 1];
      RowsOfKind(jobs[..|jobs| - 1], kind) + (if HasRow(last, kind) then [RowOfJob(last)] else [])
  }

  predicate RowMatches(artists: set<Id>, row: EdgeRow) { row.source in artists && row.target in artists }

  /** UNWIND the rows of one type: MERGE each whose ends exist. */
  function MergeRows(artists: set<Id>, related: set<Edge>, kind: string, rows: seq<EdgeRow>): set<Edge> {
    if rows == [] then related
    else
      var edges, last := MergeRows(artists, related, kind, rows[..|rows| - 1]), rows[|rows| - 1];
      if RowMatches(artists, last) then edges + {Edge(kind, last.source, last.target)} else edges
  }

  /** One more match for an owner in a grouped result. */
  function Bump(counts: seq<(Id, nat)>, owner: Id): seq<(Id, nat)> {
    if counts == [] then [(owner, 1)]
    else if counts[0].0 == owner then [(owner, counts[0].1 + 1)] + counts[1..]
    else [counts[0]] + Bump(counts[1..], owner)
  }

  /** `RETURN row.owner, count(*)`. */
  function CountByOwner(artists: set<Id>, rows: seq<EdgeRow>): seq<(Id, nat)> {
    if rows == [] then []
    else
      var counts, last := CountByOwner(artists, rows[..|rows| - 1]), rows[|rows| - 1];
      if RowMatches(artists, last) then Bump(counts, last.owner) else counts
  }

  function CountFor(counts: seq<(Id, nat)>, owner: Id): nat {
    if counts == [] then 0
    else
      CountFor(counts[..|counts| - 1], owner) + (if counts[|counts| - 1].0 == owner then counts[|counts| - 1].1 else 0)
  }

  function CountAll(counts: seq<(Id, nat)>): nat {
    if counts == [] then 0 else CountAll(counts[..|counts| - 1]) + counts[|counts| - 1].1
  }

  lemma {:induction false} CountsSplit(a: seq<(Id, nat)>, b: seq<(Id, nat)>, owner: Id)
    ensures CountFor(a + b, owner) == CountFor(a, owner) + CountFor(b, owner)
    ensures CountAll(a + b) == CountAll(a) + CountAll(b)
  {
    if b == [] {
      assert a + b == a;
    } else {
      CountsSplit(a, b[..|b| - 1], owner);
      assert (a + b)[..|a + b| - 1] == a + b[..|b| - 1];
    }
  }

  lemma {:induction false} BumpCounts(counts: seq<(Id, nat)>, owner: Id, x: Id)
    ensures CountFor(Bump(counts, owner), x) == CountFor(counts, x) + if x == owner then 1 else 0
    ensures CountAll(Bump(counts, owner)) == CountAll(counts) + 1
  {
    if counts == [] {
      assert [(owner, 1)][..0] == [];
    } else {
      assert counts == [counts[0]] + counts[1..];
      CountsSplit([counts[0]], counts[1..], x);
      CountsSplit([(owner, counts[0].1 + 1)], counts[1..], x);
      CountsSplit([counts[0]], Bump(counts[1..], owner), x);
      if counts[0].0 != owner { BumpCounts(counts[1..], owner, x); }
    }
  }

  function MatchedRows(artists: set<Id>, rows: seq<EdgeRow>): nat {
    if rows == [] then 0
    else MatchedRows(artists, rows[..|rows| - 1]) + (if RowMatches(artists, rows[|rows| - 1]) then 1 else 0)
  }

  function MatchedFor(artists: set<Id>, rows: seq<EdgeRow>, owner: Id): nat {
    if rows == [] then 0
    else
      var last := rows[|rows| - 1];
      MatchedFor(artists, rows[..|rows| - 1], owner)
          + (if last.owner == owner && RowMatches(artists, last) then 1 else 0)
  }

  lemma {:induction false} CountByOwnerCounts(artists: set<Id>, rows: seq<EdgeRow>, owner: Id)
    ensures CountFor(CountByOwner(artists, rows), owner) == MatchedFor(artists, rows, owner)
    ensures CountAll(CountByOwner(artists, rows)) == MatchedRows(artists, rows)
  {
    if rows != [] {
      CountByOwnerCounts(artists, rows[..|rows| - 1], owner);
      BumpCounts(CountByOwner(artists, rows[..|rows| - 1]), rows[|rows| - 1].owner, owner);
    }
  }

  lemma {:induction false} CreatedAtMostMatched(artists: set<Id>, related: set<Edge>, kind: string, rows: seq<EdgeRow>)
    ensures related <= MergeRows(artists, related, kind, rows)
    ensures 0 <= |MergeRows(artists, related, kind, rows)| - |related| <= MatchedRows(artists, rows)
  {
    if rows != [] {
      CreatedAtMostMatched(artists, related, kind, rows[..|rows| - 1]);
      var edges, last := MergeRows(artists, related, kind, rows[..|rows| - 1]), rows[|rows| - 1];
      var edge := Edge(kind, last.source, last.target);
      assert edge in edges ==> edges + {edge} == edges;
    }
  }

  // The same counts, taken over the jobs of a set of edge types.

  predicate ResolvesIn(artists: set<Id>, job: Job, kinds: set<string>) {
    Resolves(artists, job) && EdgeType(job.relation) in kinds
  }

  function EdgesIn(artists: set<Id>, jobs: seq<Job>, kinds: set<string>): set<Edge> {
    set job | job in jobs && ResolvesIn(artists, job, kinds) :: EdgeOf(job)
  }

  function RowsIn(jobs: seq<Job>, kinds: set<string>): nat {
    if jobs == [] then 0
    else
      var last := jobs[|jobs| - 1];
      RowsIn(jobs[..|jobs| - 1], kinds)
      + (if Supported(last.relation) && last.relation.target != Absent
          && EdgeType(last.relation) in kinds then 1 else 0)
  }

  function ResolvedIn(artists: set<Id>, jobs: seq<Job>, kinds: set<string>): nat {
    if jobs == [] then 0
    else
      ResolvedIn(artists, jobs[..|jobs| - 1], kinds)
      + (if ResolvesIn(artists, jobs[|jobs| - 1], kinds) then 1 else 0)
  }

  function ResolvedFor(artists: set<Id>, jobs: seq<Job>, kinds: set<string>, owner: Id): nat {
    if jobs == [] then 0
    else
      var last := jobs[|jobs| - 1];
      ResolvedFor(artists, jobs[..|jobs| - 1], kinds, owner)
      + (if last.owner == owner && ResolvesIn(artists, last, kinds) then 1 else 0)
  }

  function SupportedFor(jobs: seq<Job>, owner: Id): nat {
    if jobs == [] then 0
    else
      var last := jobs[|jobs| - 1];
      SupportedFor(jobs[..|jobs| - 1], owner) + (if last.owner == owner && Supported(last.relation) then 1 else 0)
  }

  function Targetless(jobs: seq<Job>): nat {
    if jobs == [] then 0
    else
      var last := jobs[|jobs| - 1];
      Targetless(jobs[..|jobs| - 1]) + (if Supported(last.relation) && last.relation.target == Absent then 1 else 0)
  }

  /** One type's statement does exactly that type's share. */
  lemma {:induction false} KindShare(artists: set<Id>, related: set<Edge>, jobs: seq<Job>, kind: string, owner: Id)
    ensures var rows := RowsOfKind(jobs, kind);
            && MatchedRows(artists, rows) == ResolvedIn(artists, jobs, {kind})
            && MatchedFor(artists, rows, owner) == ResolvedFor(artists, jobs, {kind}, owner)
            && |rows| == RowsIn(jobs, {kind})
            && MergeRows(artists, related, kind, rows) == related + EdgesIn(artists, jobs, {kind})
  {
    if jobs != [] {
      var front, last := jobs[..|jobs| - 1], jobs[|jobs| - 1];
      KindShare(artists, related, front, kind, owner);
      EdgesInMore(artists, jobs, {kind});
      if HasRow(last, kind) {
        var rows := RowsOfKind(jobs, kind);
        assert rows[..|rows| - 1] == RowsOfKind(front, kind) && rows[|rows| - 1] == RowOfJob(last);
        assert RowMatches(artists, RowOfJob(last)) <==> ResolvesIn(artists, last, {kind});
        assert Edge(kind, RowOfJob(last).source, RowOfJob(last).target) == EdgeOf(last);
      } else {
        assert RowsOfKind(jobs, kind) == RowsOfKind(front, kind);
      }
    }
  }

  lemma EdgesInMore(artists: set<Id>, jobs: seq<Job>, kinds: set<string>)
    requires jobs != []
    ensures var last := jobs[|jobs| - 1];
            EdgesIn(artists, jobs, kinds) ==
              EdgesIn(artists, jobs[..|jobs| - 1], kinds)
                  + (if ResolvesIn(artists, last, kinds) then {EdgeOf(last)} else {})
  {
    assert jobs == jobs[..|jobs| - 1] + [jobs[|jobs| - 1]];
  }

  /** The shares of disjoint sets of types add up. */
  lemma {:induction false} SharesAdd(artists: set<Id>, jobs: seq<Job>, done: set<string>, kind: string, owner: Id)
    requires kind !in done
    ensures ResolvedIn(artists, jobs, done + {kind})
            == ResolvedIn(artists, jobs, done) + ResolvedIn(artists, jobs, {kind})
    ensures ResolvedFor(artists, jobs, done + {kind}, owner)
            == ResolvedFor(artists, jobs, done, owner) + ResolvedFor(artists, jobs, {kind}, owner)
    ensures RowsIn(jobs, done + {kind}) == RowsIn(jobs, done) + RowsIn(jobs, {kind})
    ensures EdgesIn(artists, jobs, done + {kind}) == EdgesIn(artists, jobs, done) + EdgesIn(artists, jobs, {kind})
  {
    if jobs != [] {
      SharesAdd(artists, jobs[..|jobs| - 1], done, kind, owner);
    }
  }

  /** The shares of all the types in use are everything. */
  lemma {:induction false} AllShares(artists: set<Id>, jobs: seq<Job>, kinds: set<string>)
    requires forall kind | RowsOfKind(jobs, kind) != [] :: kind in kinds
    ensures ResolvedIn(artists, jobs, kinds) == ResolvedCount(artists, jobs)
    ensures RowsIn(jobs, kinds) + Targetless(jobs) == SupportedCount(jobs)
    ensures EdgesIn(artists, jobs, kinds) == EdgesOf(artists, jobs)
  {
    if jobs != [] {
      var front, last := jobs[..|jobs| - 1], jobs[|jobs| - 1];
      AllShares(artists, front, kinds);
      if Supported(last.relation) && last.relation.target != Absent {
        assert RowsOfKind(jobs, EdgeType(last.relation)) != [];
      }
      EdgesOfMore(artists, jobs);
      EdgesInMore(artists, jobs, kinds);
    }
  }

  /** Every supported relation of the owner found both its artists. */
  ghost predicate AllResolved(artists: set<Id>, jobs: seq<Job>, owner: Id) {
    forall i | 0 <= i < |jobs| && jobs[i].owner == owner && Supported(jobs[i].relation) :: Resolves(artists, jobs[i])
  }

  lemma {:induction false} CompleteMeansAllResolved(artists: set<Id>, jobs: seq<Job>, kinds: set<string>, owner: Id)
    requires forall kind | RowsOfKind(jobs, kind) != [] :: kind in kinds
    ensures ResolvedFor(artists, jobs, kinds, owner) <= SupportedFor(jobs, owner)
    ensures ResolvedFor(artists, jobs, kinds, owner) == SupportedFor(jobs, owner) <==> AllResolved(artists, jobs, owner)
  {
    if jobs != [] {
      var front, last := jobs[..|jobs| - 1], jobs[|jobs| - 1];
      CompleteMeansAllResolved(artists, front, kinds, owner);
      AllResolvedMore(artists, jobs, owner);
      if Supported(last.relation) && last.relation.target != Absent {
        assert RowsOfKind(jobs, EdgeType(last.relation)) != [];
      }
    }
  }

  lemma AllResolvedMore(artists: set<Id>, jobs: seq<Job>, owner: Id)
    requires jobs != []
    ensures var last := jobs[|jobs| - 1];
            AllResolved(artists, jobs, owner) <==>
              AllResolved(artists, jobs[..|jobs| - 1], owner)
                  && (last.owner == owner && Supported(last.relation) ==> Resolves(artists, last))
  {
    var n := |jobs| - 1;
    assert forall i | 0 <= i < n :: jobs[..n][i] == jobs[i];
  }

  lemma {:induction false} NothingSupported(artists: set<Id>, jobs: seq<Job>, owner: Id)
    ensures SupportedFor(jobs, owner) == 0 ==> AllResolved(artists, jobs, owner)
  {
    if jobs != [] {
      NothingSupported(artists, jobs[..|jobs| - 1], owner);
      AllResolvedMore(artists, jobs, owner);
    }
  }

  type Groups = map<string, seq<EdgeRow>>

  function GroupOf(groups: Groups, kind: string): seq<EdgeRow> {
    if kind in groups then groups[kind] else []
  }

  function Count(counts: map<Id, nat>, owner: Id): nat {
    if owner in counts then counts[owner] else 0
  }

  ghost predicate GroupsMean(jobs: seq<Job>, groups: Groups) {
    forall kind :: GroupOf(groups, kind) == RowsOfKind(jobs, kind)
  }

  ghost predicate ExpectedMeans(jobs: seq<Job>, expected: map<Id, nat>) {
    && (forall owner :: Count(expected, owner) == SupportedFor(jobs, owner))
    && (forall owner | owner in expected :: expected[owner] > 0)
  }

  lemma GroupsMore(front: seq<Job>, job: Job, groups: Groups)
    requires GroupsMean(front, groups)
    ensures !(Supported(job.relation) && job.relation.target != Absent) ==> GroupsMean(front + [job], groups)
    ensures Supported(job.relation) && job.relation.target != Absent ==>
              var kind := EdgeType(job.relation);
              GroupsMean(front + [job], groups[kind := GroupOf(groups, kind) + [RowOfJob(job)]])
  {
    var jobs := front + [job];
    assert jobs[..|jobs| - 1] == front;
    forall kind ensures RowsOfKind(jobs, kind)
        == RowsOfKind(front, kind) + (if HasRow(job, kind) then [RowOfJob(job)] else []) {}
  }

  lemma CountsMoreFor(front: seq<Job>, job: Job, expected: map<Id, nat>)
    requires ExpectedMeans(front, expected)
    ensures ExpectedMeans(front + [job],
              if Supported(job.relation) then expected[job.owner := Count(expected, job.owner) + 1] else expected)
    ensures Targetless(front + [job]) ==
              Targetless(front) + if Supported(job.relation) && job.relation.target == Absent then 1 else 0
  {
    var jobs := front + [job];
    assert jobs[..|jobs| - 1] == front;
    var after := if Supported(job.relation) then expected[job.owner := Count(expected, job.owner) + 1] else expected;
    forall owner ensures Count(after, owner) == SupportedFor(jobs, owner) {
      assert Count(expected, owner) == SupportedFor(front, owner);
    }
  }

  /** The keys of the dictionary, in insertion order. */
  ghost predicate KeysOf(order: seq<string>, groups: Groups) {
    && (forall i, j | 0 <= i < j < |order| :: order[i] != order[j])
    && (forall kind :: kind in groups <==> kind in order)
  }

  lemma KeysMore(order: seq<string>, groups: Groups, kind: string, rows: seq<EdgeRow>)
    requires KeysOf(order, groups)
    ensures KeysOf(if kind in groups then order else order + [kind], groups[kind := rows])
  {}

  /** The grouping loop: rows by edge type in first-seen order, and how many each owner expects. */
  method GroupByType(jobs: seq<Job>)
    returns (order: seq<string>, groups: Groups, expected: map<Id, nat>, targetless: nat)
    ensures GroupsMean(jobs, groups)
    ensures KeysOf(order, groups)
    ensures ExpectedMeans(jobs, expected)
    ensures targetless == Targetless(jobs)
  {
    order, groups, expected, targetless := [], map[], map[], 0;
    for n := 0 to |jobs|
      invariant GroupsMean(jobs[..n], groups)
      invariant KeysOf(order, groups)
      invariant ExpectedMeans(jobs[..n], expected)
      invariant targetless == Targetless(jobs[..n])
    {
      var job := jobs[n];
      GroupsMore(jobs[..n], job, groups);
      CountsMoreFor(jobs[..n], job, expected);
      assert jobs[..n + 1] == jobs[..n] + [job];
      if job.relation.kind in RELATIONSHIP_TYPES {
        expected := expected[job.owner := Count(expected, job.owner) + 1];
        if job.relation.target == Absent {
          targetless := targetless + 1;
        } else {
          var kind := RELATIONSHIP_TYPES[job.relation.kind];
          var rows := GroupOf(groups, kind) + [RowOfJob(job)];
          KeysMore(order, groups, kind, rows);
          if kind !in groups {
            order := order + [kind];
          }
          groups := groups[kind := rows];
        }
      }
    }
    assert jobs[..|jobs|] == jobs;
  }

  /** Reads one statement's grouped result into the per-owner and overall match counts. */
  method ReadCounts(counts: seq<(Id, nat)>, projected: map<Id, nat>) returns (updated: map<Id, nat>, matched: nat)
    ensures forall owner :: Count(updated, owner) == Count(projected, owner) + CountFor(counts, owner)
    ensures matched == CountAll(counts)
  {
    updated, matched := projected, 0;
    for n := 0 to |counts|
      invariant forall owner :: Count(updated, owner) == Count(projected, owner) + CountFor(counts[..n], owner)
      invariant matched == CountAll(counts[..n])
    {
      assert counts[..n + 1][..n] == counts[..n];
      var (owner, count) := counts[n];
      matched := matched + count;
      updated := updated[owner := Count(updated, owner) + count];
    }
    assert counts[..|counts|] == counts;
  }

  /** What the statements for the types in `done` leave and count. */
  ghost predicate Grouped(artists: set<Id>, related: set<Edge>, jobs: seq<Job>, done: set<string>, stats: Stats,
                          edges: set<Edge>, counted: Stats) {
    && edges == related + EdgesIn(artists, jobs, done)
    && counted.created == stats.created + |edges| - |related|
    && counted.created + counted.updated == stats.created + stats.updated + ResolvedIn(artists, jobs, done)
    && counted.missing == stats.missing + RowsIn(jobs, done) - ResolvedIn(artists, jobs, done)
    && counted.enriched == stats.enriched && counted.skipped == stats.skipped && counted.replays == stats.replays
  }

  lemma GroupedNothing(artists: set<Id>, related: set<Edge>, jobs: seq<Job>, stats: Stats)
    ensures Grouped(artists, related, jobs, {}, stats, related, stats)
    ensures forall owner :: ResolvedFor(artists, jobs, {}, owner) == 0
  {
    NothingIn(artists, jobs);
    forall owner ensures ResolvedFor(artists, jobs, {}, owner) == 0 { NothingFor(artists, jobs, owner); }
  }

  lemma {:induction false} NothingIn(artists: set<Id>, jobs: seq<Job>)
    ensures ResolvedIn(artists, jobs, {}) == 0 && RowsIn(jobs, {}) == 0 && EdgesIn(artists, jobs, {}) == {}
  {
    if jobs != [] { NothingIn(artists, jobs[..|jobs| - 1]); }
  }

  lemma {:induction false} NothingFor(artists: set<Id>, jobs: seq<Job>, owner: Id)
    ensures ResolvedFor(artists, jobs, {}, owner) == 0
  {
    if jobs != [] { NothingFor(artists, jobs[..|jobs| - 1], owner); }
  }

  lemma GroupedStep(artists: set<Id>, related: set<Edge>, jobs: seq<Job>, done: set<string>, kind: string, stats: Stats,
                    edges: set<Edge>, counted: Stats)
    requires kind !in done && Grouped(artists, related, jobs, done, stats, edges, counted)
    ensures var rows := RowsOfKind(jobs, kind);
            var after := MergeRows(artists, edges, kind, rows);
            var matched, created := MatchedRows(artists, rows), |after| - |edges|;
            0 <= created <= matched &&
            Grouped(artists, related, jobs, done + {kind}, stats, after,
                    counted.(created := counted.created + created, updated := counted.updated + matched - created,
                             missing := counted.missing + |rows| - matched))
  {
    KindShare(artists, edges, jobs, kind, "");
    SharesAdd(artists, jobs, done, kind, "");
    CreatedAtMostMatched(artists, edges, kind, RowsOfKind(jobs, kind));
  }

  lemma GroupedAll(artists: set<Id>, related: set<Edge>, jobs: seq<Job>, kinds: set<string>, stats: Stats,
                   edges: set<Edge>, counted: Stats)
    requires forall kind | RowsOfKind(jobs, kind) != [] :: kind in kinds
    requires Grouped(artists, related, jobs, kinds, stats.(missing := stats.missing + Targetless(jobs)), edges, counted)
    ensures (edges, counted) == ProjectInOrder(artists, related, jobs, stats)
  {
    AllShares(artists, jobs, kinds);
    InOrderProjects(artists, related, jobs, stats);
    var (e, c) := ProjectInOrder(artists, related, jobs, stats);
    ProjectedIsUnique(artists, related, jobs, stats, edges, counted, e, c);
  }

  ghost predicate ProjectedMeans(artists: set<Id>, jobs: seq<Job>, done: set<string>, projected: map<Id, nat>) {
    forall owner :: Count(projected, owner) == ResolvedFor(artists, jobs, done, owner)
  }

  /** Runs one type's statement and reads its result. */
  method ProjectKind(artists: set<Id>, related: set<Edge>, kind: string, rows: seq<EdgeRow>, projected: map<Id, nat>,
                     stats: Stats,
                     ghost jobs: seq<Job>, ghost done: set<string>, ghost start: set<Edge>, ghost base: Stats)
    returns (edges: set<Edge>, counted: Stats, updated: map<Id, nat>)
    requires rows == RowsOfKind(jobs, kind) && kind !in done
    requires Grouped(artists, start, jobs, done, base, related, stats)
    requires ProjectedMeans(artists, jobs, done, projected)
    ensures Grouped(artists, start, jobs, done + {kind}, base, edges, counted)
    ensures ProjectedMeans(artists, jobs, done + {kind}, updated)
  {
    GroupedStep(artists, start, jobs, done, kind, base, related, stats);
    edges := MergeRows(artists, related, kind, rows);
    var matched: nat;
    updated, matched := ReadCounts(CountByOwner(artists, rows), projected);
    CountByOwnerCounts(artists, rows, "");
    forall owner ensures Count(updated, owner) == ResolvedFor(artists, jobs, done + {kind}, owner) {
      CountByOwnerCounts(artists, rows, owner);
      KindShare(artists, related, jobs, kind, owner);
      SharesAdd(artists, jobs, done, kind, owner);
    }
    var created := |edges| - |related|;
    counted := stats.(created := stats.created + created,
                      updated := stats.updated + (if matched - created > 0 then matched - created else 0),
                      missing := stats.missing + |rows| - matched);
  }

  /**
   The grouped projection: the edges and every count are those of one relation at a time, and an owner
   is complete exactly when all its supported relations resolved.
   */
  method CreateRelationshipEdgesBatch(artists: set<Id>, related: set<Edge>, jobs: seq<Job>, stats: Stats)
    returns (edges: set<Edge>, counted: Stats, complete: map<Id, bool>)
    ensures (edges, counted) == ProjectInOrder(artists, related, jobs, stats)
    ensures LinksMade(artists, related, jobs, stats, edges, counted)
    ensures forall owner :: owner in complete <==> SupportedFor(jobs, owner) > 0
    ensures forall owner | owner in complete :: complete[owner] <==> AllResolved(artists, jobs, owner)
    ensures forall owner :: owner !in complete || complete[owner] <==>
                            forall i | i in SupportedAt(jobs) && jobs[i].owner == owner :: i in LinkedAt(artists, jobs)
  {
    var order, groups, expected, targetless := GroupByType(jobs);
    counted := stats.(missing := stats.missing + targetless);
    var projected: map<Id, nat>;
    ghost var done := set kind | kind in order;
    edges, counted, projected := ProjectKinds(artists, related, order, groups, counted, jobs);
    forall kind | RowsOfKind(jobs, kind) != [] ensures kind in done {
      assert GroupOf(groups, kind) != [];
    }
    GroupedAll(artists, related, jobs, done, stats, edges, counted);
    complete := map owner | owner in expected :: Count(projected, owner) >= expected[owner];
    Completed(artists, jobs, done, projected, expected, complete);
    InOrderLinks(artists, related, jobs, stats);
    CompleteMeansLinked(artists, jobs, complete);
  }

  lemma CompleteMeansLinked(artists: set<Id>, jobs: seq<Job>, complete: map<Id, bool>)
    requires forall owner :: owner in complete <==> SupportedFor(jobs, owner) > 0
    requires forall owner | owner in complete :: complete[owner] <==> AllResolved(artists, jobs, owner)
    ensures forall owner :: owner !in complete || complete[owner] <==>
                            forall i | i in SupportedAt(jobs) && jobs[i].owner == owner :: i in LinkedAt(artists, jobs)
  {
    forall owner
      ensures owner !in complete || complete[owner] <==>
              forall i | i in SupportedAt(jobs) && jobs[i].owner == owner :: i in LinkedAt(artists, jobs)
    {
      NothingSupported(artists, jobs, owner);
      AllResolvedMeans(artists, jobs, owner);
    }
  }

  lemma AllResolvedMeans(artists: set<Id>, jobs: seq<Job>, owner: Id)
    ensures AllResolved(artists, jobs, owner) <==>
              forall i | i in SupportedAt(jobs) && jobs[i].owner == owner :: i in LinkedAt(artists, jobs)
  {
    if forall i | i in SupportedAt(jobs) && jobs[i].owner == owner :: i in LinkedAt(artists, jobs) {
      forall i | 0 <= i < |jobs| && jobs[i].owner == owner && Supported(jobs[i].relation)
        ensures Resolves(artists, jobs[i])
      {
        assert i in SupportedAt(jobs);
      }
    }
  }

  /** One statement per type, in the order the types were first met. */
  method ProjectKinds(artists: set<Id>, related: set<Edge>, order: seq<string>, groups: Groups, stats: Stats,
                      ghost jobs: seq<Job>)
    returns (edges: set<Edge>, counted: Stats, projected: map<Id, nat>)
    requires GroupsMean(jobs, groups) && KeysOf(order, groups)
    ensures var done := (set kind | kind in order);
            Grouped(artists, related, jobs, done, stats, edges, counted)
                && ProjectedMeans(artists, jobs, done, projected)
  {
    edges, counted, projected := related, stats, map[];
    ghost var done: set<string> := {};
    GroupedNothing(artists, related, jobs, stats);
    for n := 0 to |order|
      invariant done == set kind | kind in order[..n]
      invariant Grouped(artists, related, jobs, done, stats, edges, counted)
      invariant ProjectedMeans(artists, jobs, done, projected)
    {
      var kind := order[n];
      assert groups[kind] == GroupOf(groups, kind);
      edges, counted, projected := ProjectKind(artists, edges, kind, groups[kind], projected, counted, jobs, done,
                                               related, stats);
      assert order[..n + 1] == order[..n] + [kind];
      done := done + {kind};
    }
    assert order[..|order|] == order;
  }

  lemma Completed(artists: set<Id>, jobs: seq<Job>, done: set<string>, projected: map<Id, nat>, expected: map<Id, nat>,
                  complete: map<Id, bool>)
    requires forall kind | RowsOfKind(jobs, kind) != [] :: kind in done
    requires ProjectedMeans(artists, jobs, done, projected) && ExpectedMeans(jobs, expected)
    requires complete == map owner | owner in expected :: Count(projected, owner) >= expected[owner]
    ensures forall owner :: owner in complete <==> SupportedFor(jobs, owner) > 0
    ensures forall owner | owner in complete :: complete[owner] <==> AllResolved(artists, jobs, owner)
  {
    forall owner ensures owner in complete <==> SupportedFor(jobs, owner) > 0 {
      assert Count(expected, owner) == SupportedFor(jobs, owner);
    }
    forall owner | owner in complete ensures complete[owner] <==> AllResolved(artists, jobs, owner) {
      assert Count(expected, owner) == SupportedFor(jobs, owner);
      CompleteMeansAllResolved(artists, jobs, done, owner);
    }
  }
}
