/**
 Reconciling the media of one or of many releases.

 `Reconciled` says in closed form what a write leaves. The four statements of a write compute it,
 and writes on different releases compose, so one batch equals its releases one by one in any order.
 */
module MediaReconcile {
  import opened Identifiers
  import opened MediaRows
  import opened CatalogGraph

  // ------------------------------------------------------------ closed form

  function RowOf(rows: seq<Row>, medium: Id): (row: Row)
    requires Lists(rows, medium)
    ensures row in rows && row.medium == medium
  {
    if rows[0].medium == medium then rows[0] else RowOf(rows[1..], medium)
  }

  function WantedIssues(plans: Plans): set<Issue> {
    set r, row | r in plans && row in plans[r].rows :: Issue(r, MusicBrainz, row.medium)
  }

  /** A planned release has exactly the edges its plan lists; every other edge is as it was. */
  function IssuedAfter(issued: map<Issue, int>, plans: Plans): map<Issue, int> {
    map e | e in issued.Keys + WantedIssues(plans) && !Stale(plans, e) ::
      if e.source == MusicBrainz && Wants(plans, e.release, e.medium)
      then RowOf(plans[e.release].rows, e.medium).qty
      else issued[e]
  }

  predicate Attached(plans: Plans, medium: Id) {
    exists r | r in plans :: Lists(plans[r].rows, medium)
  }

  predicate Dropped(issued: map<Issue, int>, plans: Plans, medium: Id) {
    exists r | r in plans :: Issue(r, MusicBrainz, medium) in issued && !Lists(plans[r].rows, medium)
  }

  /** The write took a musicbrainz edge off the medium and nothing at all uses it any more. */
  predicate Pruned(g: Graph, plans: Plans, medium: Id) {
    Dropped(g.issued, plans, medium) && !InUse(IssuedAfter(g.issued, plans), medium) && medium !in g.linked
  }

  function AttachedMediums(plans: Plans): set<Id> {
    set r, row | r in plans && row in plans[r].rows :: row.medium
  }

  function FiledPairs(fam: Id -> Id, plans: Plans): set<(Id, Id)> {
    set m | m in AttachedMediums(plans) :: (m, fam(m))
  }

  function FiledFamilies(fam: Id -> Id, plans: Plans): set<Id> {
    set m | m in AttachedMediums(plans) :: fam(m)
  }

  function Reconciled(v: Vocabulary, fam: Id -> Id, g: Graph, plans: Plans): Graph {
    var kept := map m | m in g.mediums.Keys + AttachedMediums(plans) && !Pruned(g, plans, m) :: Named(v, fam, m);
    var filed := set e | e in g.inFamily + FiledPairs(fam, plans) && !Pruned(g, plans, e.0);
    Graph(Summarised(g.releases, plans), kept, g.families + FiledFamilies(fam, plans), filed,
          IssuedAfter(g.issued, plans), g.linked)
  }

  lemma IssuedAfterHas(issued: map<Issue, int>, plans: Plans, e: Issue)
    ensures e in IssuedAfter(issued, plans) <==>
              if e.source == MusicBrainz && e.release in plans then Lists(plans[e.release].rows, e.medium)
                  else e in issued
  {
    if e.source == MusicBrainz && Wants(plans, e.release, e.medium) {
      var row := RowOf(plans[e.release].rows, e.medium);
      assert e in WantedIssues(plans);
    }
  }

  lemma AttachedHas(plans: Plans, m: Id)
    ensures m in AttachedMediums(plans) <==> Attached(plans, m)
  {
    if Attached(plans, m) {
      var r :| r in plans && Lists(plans[r].rows, m);
      var row := RowOf(plans[r].rows, m);
    }
  }

  lemma AttachedInUse(issued: map<Issue, int>, plans: Plans, m: Id)
    requires Attached(plans, m)
    ensures InUse(IssuedAfter(issued, plans), m)
  {
    var r :| r in plans && Lists(plans[r].rows, m);
    IssuedAfterHas(issued, plans, Issue(r, MusicBrainz, m));
  }

  // ------------------------------------------------------------ writes compose

  /** The union of two writes that share no release. */
  function Joined(a: Plans, b: Plans): Plans { a + b }

  lemma IssuedComposeAt(issued: map<Issue, int>, a: Plans, b: Plans, e: Issue)
    requires a.Keys !! b.Keys
    ensures var two, both := IssuedAfter(IssuedAfter(issued, a), b), IssuedAfter(issued, Joined(a, b));
            (e in two <==> e in both) && (e in two ==> two[e] == both[e])
  {
    var one, joined := IssuedAfter(issued, a), Joined(a, b);
    IssuedAfterHas(issued, a, e);
    IssuedAfterHas(one, b, e);
    IssuedAfterHas(issued, joined, e);
    assert e.release in a ==> joined[e.release] == a[e.release];
    assert e.release in b ==> joined[e.release] == b[e.release];
  }

  lemma IssuedCompose(issued: map<Issue, int>, a: Plans, b: Plans)
    requires a.Keys !! b.Keys
    ensures IssuedAfter(IssuedAfter(issued, a), b) == IssuedAfter(issued, Joined(a, b))
  {
    var two, both := IssuedAfter(IssuedAfter(issued, a), b), IssuedAfter(issued, Joined(a, b));
    forall e ensures (e in two <==> e in both) && (e in two ==> two[e] == both[e]) {
      IssuedComposeAt(issued, a, b, e);
    }
  }

  lemma AttachedCompose(a: Plans, b: Plans, m: Id)
    requires a.Keys !! b.Keys
    ensures Attached(Joined(a, b), m) <==> Attached(a, m) || Attached(b, m)
  {
    if Attached(a, m) {
      var r :| r in a && Lists(a[r].rows, m);
      assert r in Joined(a, b) && Joined(a, b)[r] == a[r];
    }
    if Attached(b, m) {
      var r :| r in b && Lists(b[r].rows, m);
      assert r in Joined(a, b) && Joined(a, b)[r] == b[r];
    }
  }

  lemma DroppedCompose(issued: map<Issue, int>, a: Plans, b: Plans, m: Id)
    requires a.Keys !! b.Keys
    ensures Dropped(issued, Joined(a, b), m) <==> Dropped(issued, a, m) || Dropped(IssuedAfter(issued, a), b, m)
  {
    var both := Joined(a, b);
    forall r { IssuedAfterHas(issued, a, Issue(r, MusicBrainz, m)); }
    if Dropped(issued, a, m) {
      var r :| r in a && Issue(r, MusicBrainz, m) in issued && !Lists(a[r].rows, m);
      assert r in both && both[r] == a[r];
    }
    if Dropped(IssuedAfter(issued, a), b, m) {
      var r :| r in b && Issue(r, MusicBrainz, m) in IssuedAfter(issued, a) && !Lists(b[r].rows, m);
      assert r in both && both[r] == b[r];
    }
  }

  /** A medium that the first write leaves in use and the second does not was dropped by the second. */
  lemma LastUseIsDropped(issued: map<Issue, int>, b: Plans, m: Id)
    requires InUse(issued, m) && !InUse(IssuedAfter(issued, b), m)
    ensures Dropped(issued, b, m)
  {
    var e :| e in issued && e.medium == m;
    IssuedAfterHas(issued, b, e);
  }

  /** What two writes prune between them, save what the second re-attaches, one joint write prunes. */
  lemma PrunedCompose(v: Vocabulary, fam: Id -> Id, g: Graph, a: Plans, b: Plans, m: Id)
    requires a.Keys !! b.Keys
    ensures Pruned(g, Joined(a, b), m) <==>
              (Pruned(g, a, m) && !Attached(b, m)) || Pruned(Reconciled(v, fam, g, a), b, m)
  {
    var one := IssuedAfter(g.issued, a);
    IssuedCompose(g.issued, a, b);
    DroppedCompose(g.issued, a, b, m);
    if Attached(b, m) {
      AttachedInUse(one, b, m);
    } else if InUse(IssuedAfter(one, b), m) {
      var e :| e in IssuedAfter(one, b) && e.medium == m;
      IssuedAfterHas(one, b, e);
      assert e in one;
    } else if InUse(one, m) {
      LastUseIsDropped(one, b, m);
    }
  }

  lemma MediumComposeAt(v: Vocabulary, fam: Id -> Id, g: Graph, a: Plans, b: Plans, m: Id)
    requires a.Keys !! b.Keys
    ensures SameMedium(Reconciled(v, fam, Reconciled(v, fam, g, a), b).mediums,
                       Reconciled(v, fam, g, Joined(a, b)).mediums, m)
  {
    PrunedCompose(v, fam, g, a, b, m);
    AttachedCompose(a, b, m);
    AttachedHas(a, m);
    AttachedHas(b, m);
    AttachedHas(Joined(a, b), m);
  }

  lemma MediumsCompose(v: Vocabulary, fam: Id -> Id, g: Graph, a: Plans, b: Plans)
    requires a.Keys !! b.Keys
    ensures Reconciled(v, fam, Reconciled(v, fam, g, a), b).mediums == Reconciled(v, fam, g, Joined(a, b)).mediums
  {
    var one := Reconciled(v, fam, g, a);
    var two, both := Reconciled(v, fam, one, b), Reconciled(v, fam, g, Joined(a, b));
    forall m ensures SameMedium(two.mediums, both.mediums, m) { MediumComposeAt(v, fam, g, a, b, m); }
    SameMediums(two.mediums, both.mediums);
  }

  lemma FiledPairsHas(fam: Id -> Id, plans: Plans, e: (Id, Id))
    ensures e in FiledPairs(fam, plans) <==> Attached(plans, e.0) && e.1 == fam(e.0)
  {
    AttachedHas(plans, e.0);
  }

  lemma InFamilyComposeAt(v: Vocabulary, fam: Id -> Id, g: Graph, a: Plans, b: Plans, e: (Id, Id))
    requires a.Keys !! b.Keys && WellNamed(v, fam, g)
    ensures e in Reconciled(v, fam, Reconciled(v, fam, g, a), b).inFamily
       <==> e in Reconciled(v, fam, g, Joined(a, b)).inFamily
  {
    PrunedCompose(v, fam, g, a, b, e.0);
    AttachedCompose(a, b, e.0);
    FiledPairsHas(fam, a, e);
    FiledPairsHas(fam, b, e);
    FiledPairsHas(fam, Joined(a, b), e);
  }

  lemma InFamilyCompose(v: Vocabulary, fam: Id -> Id, g: Graph, a: Plans, b: Plans)
    requires a.Keys !! b.Keys && WellNamed(v, fam, g)
    ensures Reconciled(v, fam, Reconciled(v, fam, g, a), b).inFamily == Reconciled(v, fam, g, Joined(a, b)).inFamily
  {
    var two := Reconciled(v, fam, Reconciled(v, fam, g, a), b).inFamily;
    var both := Reconciled(v, fam, g, Joined(a, b)).inFamily;
    forall e ensures e in two <==> e in both { InFamilyComposeAt(v, fam, g, a, b, e); }
  }

  lemma FamiliesCompose(fam: Id -> Id, a: Plans, b: Plans)
    requires a.Keys !! b.Keys
    ensures FiledFamilies(fam, Joined(a, b)) == FiledFamilies(fam, a) + FiledFamilies(fam, b)
  {
    forall m ensures m in AttachedMediums(Joined(a, b)) <==> m in AttachedMediums(a) || m in AttachedMediums(b) {
      AttachedCompose(a, b, m);
      AttachedHas(a, m);
      AttachedHas(b, m);
      AttachedHas(Joined(a, b), m);
    }
    assert AttachedMediums(Joined(a, b)) == AttachedMediums(a) + AttachedMediums(b);
  }

  lemma EdgesAndNodesCompose(v: Vocabulary, fam: Id -> Id, g: Graph, a: Plans, b: Plans)
    requires a.Keys !! b.Keys
    ensures var two, both := Reconciled(v, fam, Reconciled(v, fam, g, a), b), Reconciled(v, fam, g, Joined(a, b));
            two.issued == both.issued && two.families == both.families && two.linked == both.linked
  {
    IssuedCompose(g.issued, a, b);
    FamiliesCompose(fam, a, b);
  }

  lemma SummarisedCompose(releases: Table, a: Plans, b: Plans)
    ensures Summarised(Summarised(releases, a), b) == Summarised(releases, Joined(a, b))
  {}

  lemma SummariesCompose(v: Vocabulary, fam: Id -> Id, g: Graph, a: Plans, b: Plans)
    ensures Reconciled(v, fam, Reconciled(v, fam, g, a), b).releases == Reconciled(v, fam, g, Joined(a, b)).releases
  {
    SummarisedCompose(g.releases, a, b);
  }

  /** Two writes on different releases leave what one write of both leaves. */
  lemma ReconcileComposes(v: Vocabulary, fam: Id -> Id, g: Graph, a: Plans, b: Plans)
    requires a.Keys !! b.Keys && WellNamed(v, fam, g)
    ensures Reconciled(v, fam, Reconciled(v, fam, g, a), b) == Reconciled(v, fam, g, Joined(a, b))
  {
    EdgesAndNodesCompose(v, fam, g, a, b);
    MediumsCompose(v, fam, g, a, b);
    InFamilyCompose(v, fam, g, a, b);
    SummariesCompose(v, fam, g, a, b);
    SameGraph(Reconciled(v, fam, Reconciled(v, fam, g, a), b), Reconciled(v, fam, g, Joined(a, b)));
  }

  lemma SameGraph(a: Graph, b: Graph)
    requires a.releases == b.releases && a.mediums == b.mediums && a.families == b.families
    requires a.inFamily == b.inFamily && a.issued == b.issued && a.linked == b.linked
    ensures a == b
  {}

  /** A write keeps every medium to its one name and leaves no dangling edge. */
  lemma ReconcileKeepsNames(v: Vocabulary, fam: Id -> Id, g: Graph, plans: Plans)
    requires WellNamed(v, fam, g) && plans.Keys <= g.releases.Keys
    ensures WellNamed(v, fam, Reconciled(v, fam, g, plans))
  {
    var after := Reconciled(v, fam, g, plans);
    forall e | e in after.issued ensures e.release in after.releases && e.medium in after.mediums {
      IssuedAfterHas(g.issued, plans, e);
      AttachedHas(plans, e.medium);
      assert InUse(after.issued, e.medium);
    }
  }

  /** Every medium that a release holds by a musicbrainz edge is filed under its family. */
  ghost predicate MusicBrainzFiled(fam: Id -> Id, g: Graph) {
    forall e | e in g.issued && e.source == MusicBrainz :: (e.medium, fam(e.medium)) in g.inFamily
  }

  lemma ReconcileKeepsFiled(v: Vocabulary, fam: Id -> Id, g: Graph, plans: Plans)
    requires MusicBrainzFiled(fam, g)
    ensures MusicBrainzFiled(fam, Reconciled(v, fam, g, plans))
  {
    var after := Reconciled(v, fam, g, plans);
    forall e | e in after.issued && e.source == MusicBrainz ensures (e.medium, fam(e.medium)) in after.inFamily {
      IssuedAfterHas(g.issued, plans, e);
      FiledPairsHas(fam, plans, (e.medium, fam(e.medium)));
      assert InUse(after.issued, e.medium);
      if e.release in plans { assert Attached(plans, e.medium); }
    }
  }

  /** Pruning leaves no orphan behind. */
  lemma ReconcileLeavesNoOrphan(v: Vocabulary, fam: Id -> Id, g: Graph, plans: Plans)
    requires OrphanFree(g)
    ensures OrphanFree(Reconciled(v, fam, g, plans))
  {
    var after := Reconciled(v, fam, g, plans);
    forall m | m in after.mediums ensures InUse(after.issued, m) || m in after.linked {
      AttachedHas(plans, m);
      if Attached(plans, m) {
        AttachedInUse(g.issued, plans, m);
      } else if m !in g.linked && !InUse(after.issued, m) {
        LastUseIsDropped(g.issued, plans, m);
      }
    }
  }

  // ------------------------------------------------------------ the statements compute it

  /** The statement arguments list exactly the planned rows, once each. */
  ghost predicate Covers(items: seq<(Id, Row)>, plans: Plans) {
    && (forall i | 0 <= i < |items| :: items[i].0 in plans && items[i].1 in plans[items[i].0].rows)
    && (forall r, row | r in plans && row in plans[r].rows :: (r, row) in items)
  }

  /** The lock statement's items name every planned medium and no other. */
  ghost predicate LockedItems(items: seq<Row>, plans: Plans) {
    forall m :: Lists(items, m) <==> Attached(plans, m)
  }

  ghost predicate LockedFamilies(families: seq<Id>, items: seq<Row>) {
    forall f :: f in families <==> exists i | 0 <= i < |items| :: items[i].family == f
  }

  lemma {:induction false} MergeMediumsResult(v: Vocabulary, fam: Id -> Id, mediums: map<Id, MediumNode>,
                                              items: seq<Row>)
    requires forall m | m in mediums :: mediums[m] == Named(v, fam, m)
    requires forall i | 0 <= i < |items| :: RowNamed(v, fam, items[i])
    ensures var after := MergeMediums(mediums, items);
            && (forall m :: m in after <==> m in mediums || Lists(items, m))
            && (forall m | m in after :: after[m] == Named(v, fam, m))
  {
    if items != [] {
      var front := items[..|items| - 1];
      assert items == front + [items[|items| - 1]];
      MergeMediumsResult(v, fam, mediums, front);
      forall m { ListsStep(items, m); }
    }
  }

  lemma ListsStep(rows: seq<Row>, m: Id)
    requires rows != []
    ensures Lists(rows, m) <==> Lists(rows[..|rows| - 1], m) || rows[|rows| - 1].medium == m
  {
    var n := |rows| - 1;
    assert rows == rows[..n] + [rows[n]];
    if Lists(rows[..n], m) {
      var i :| 0 <= i < n && rows[..n][i].medium == m;
      assert rows[i].medium == m;
    }
  }

  lemma RowOfDistinct(rows: seq<Row>, row: Row)
    requires OneRowEach(rows) && row in rows
    ensures Lists(rows, row.medium) && RowOf(rows, row.medium) == row
  {
    var k :| 0 <= k < |rows| && rows[k] == row;
    assert Lists(rows, row.medium);
    var k' :| 0 <= k' < |rows| && rows[k'] == RowOf(rows, row.medium);
  }

  predicate Issues(items: seq<(Id, Row)>, e: Issue) {
    e.source == MusicBrainz && exists i | 0 <= i < |items| :: items[i].0 == e.release && items[i].1.medium == e.medium
  }

  lemma IssuesStep(items: seq<(Id, Row)>, e: Issue)
    requires items != []
    ensures var n := |items| - 1;
            Issues(items, e) <==>
              Issues(items[..n], e) || e == Issue(items[n].0, MusicBrainz, items[n].1.medium)
  {
    var n := |items| - 1;
    assert items == items[..n] + [items[n]];
    if Issues(items[..n], e) {
      var i :| 0 <= i < n && items[..n][i].0 == e.release && items[..n][i].1.medium == e.medium;
      assert items[i].0 == e.release;
    }
    if e == Issue(items[n].0, MusicBrainz, items[n].1.medium) {
      assert items[n].0 == e.release;
    }
  }

  /** The edges statement leaves each listed edge, and every other edge as it was. */
  lemma {:induction false} WriteIssuesEdges(g: Graph, items: seq<(Id, Row)>, plans: Plans)
    requires forall i | 0 <= i < |items| :: items[i].0 in g.releases && items[i].0 in plans
               && items[i].1 in plans[items[i].0].rows
    requires forall r | r in plans :: OneRowEach(plans[r].rows)
    ensures var after := WriteIssues(g, items);
            && after.releases == g.releases && after.linked == g.linked
            && (forall e :: e in after.issued <==> e in g.issued || Issues(items, e))
            && (forall e | e in after.issued && !Issues(items, e) :: after.issued[e] == g.issued[e])
            && (forall e | Issues(items, e) :: Wants(plans, e.release, e.medium)
                  && after.issued[e] == RowOf(plans[e.release].rows, e.medium).qty)
  {
    if items != [] {
      var n := |items| - 1;
      WriteIssuesEdges(g, items[..n], plans);
      forall e { IssuesStep(items, e); }
      RowOfDistinct(plans[items[n].0].rows, items[n].1);
    }
  }

  lemma {:induction false} WriteIssuesNodes(v: Vocabulary, fam: Id -> Id, g: Graph, items: seq<(Id, Row)>)
    requires forall i | 0 <= i < |items| :: items[i].0 in g.releases && RowNamed(v, fam, items[i].1)
    requires forall m | m in g.mediums :: g.mediums[m] == Named(v, fam, m)
    ensures var after := WriteIssues(g, items);
            && after.releases == g.releases
            && (forall m :: m in after.mediums <==> m in g.mediums || Touches(items, m))
            && (forall m | m in after.mediums :: after.mediums[m] == Named(v, fam, m))
            && (forall f :: f in after.families <==> f in g.families || exists m | Touches(items, m) :: f == fam(m))
            && (forall p :: p in after.inFamily <==> p in g.inFamily || (Touches(items, p.0) && p.1 == fam(p.0)))
  {
    if items != [] {
      var n := |items| - 1;
      WriteIssuesNodes(v, fam, g, items[..n]);
      forall m { TouchesStep(items, m); }
      assert Touches(items, items[n].1.medium);
    }
  }

  predicate Touches(items: seq<(Id, Row)>, medium: Id) {
    exists i | 0 <= i < |items| :: items[i].1.medium == medium
  }

  lemma TouchesStep(items: seq<(Id, Row)>, medium: Id)
    requires items != []
    ensures Touches(items, medium) <==> Touches(items[..|items| - 1], medium) || items[|items| - 1].1.medium == medium
  {
    var n := |items| - 1;
    assert items == items[..n] + [items[n]];
    if Touches(items[..n], medium) {
      var i :| 0 <= i < n && items[..n][i].1.medium == medium;
      assert items[i].1.medium == medium;
    }
    if items[n].1.medium == medium { assert Touches(items, medium); }
  }

  /** One write's statements: both locks, the summaries with their prune, then the edges. */
  function MediaStatements(g: Graph, plans: Plans, families: seq<Id>, locked: seq<Row>, items: seq<(Id, Row)>): Graph {
    WriteIssues(WriteSummaries(LockMediums(LockFamilies(g, plans, families), locked), plans), items)
  }

  /** The arguments a write may pass: what it locks and lists is what its plans attach. */
  ghost predicate Arguments(v: Vocabulary, fam: Id -> Id, plans: Plans, families: seq<Id>, locked: seq<Row>,
                            items: seq<(Id, Row)>) {
    && PlansNamed(v, fam, plans)
    && Covers(items, plans)
    && LockedItems(locked, plans)
    && (forall i | 0 <= i < |locked| :: RowNamed(v, fam, locked[i]))
    && LockedFamilies(families, locked)
  }

  lemma CoversIssues(items: seq<(Id, Row)>, plans: Plans, e: Issue)
    requires Covers(items, plans)
    ensures Issues(items, e) <==> e.source == MusicBrainz && Wants(plans, e.release, e.medium)
  {
    if e.source == MusicBrainz && Wants(plans, e.release, e.medium) {
      assert (e.release, RowOf(plans[e.release].rows, e.medium)) in items;
    }
  }

  lemma CoversTouches(items: seq<(Id, Row)>, plans: Plans, m: Id)
    requires Covers(items, plans)
    ensures Touches(items, m) <==> Attached(plans, m)
  {
    if Attached(plans, m) {
      var r :| r in plans && Lists(plans[r].rows, m);
      assert (r, RowOf(plans[r].rows, m)) in items;
    }
    if Touches(items, m) {
      var i :| 0 <= i < |items| && items[i].1.medium == m;
      assert Lists(plans[items[i].0].rows, m);
    }
  }

  lemma OrphanedIsPruned(g: Graph, plans: Plans, m: Id)
    ensures m in Orphaned(g, plans) && !Attached(plans, m) <==> Pruned(g, plans, m)
  {
    if Attached(plans, m) {
      AttachedInUse(g.issued, plans, m);
    } else {
      forall e: Issue | e.medium == m ensures e in IssuedAfter(g.issued, plans) <==>
          e in WithoutStale(g.issued, plans) {
        IssuedAfterHas(g.issued, plans, e);
      }
      assert InUse(IssuedAfter(g.issued, plans), m) <==> InUse(WithoutStale(g.issued, plans), m);
      assert m in StaleMediums(g, plans) <==> Dropped(g.issued, plans, m) by {
        if Dropped(g.issued, plans, m) {
          var r :| r in plans && Issue(r, MusicBrainz, m) in g.issued && !Lists(plans[r].rows, m);
          assert Stale(plans, Issue(r, MusicBrainz, m));
        }
      }
    }
  }

  lemma StatementsIssuedAt(g: Graph, plans: Plans, items: seq<(Id, Row)>, e: Issue)
    requires plans.Keys <= g.releases.Keys && Covers(items, plans)
    requires forall r | r in plans :: OneRowEach(plans[r].rows)
    ensures var after, spec := WriteIssues(WriteSummaries(g, plans), items).issued, IssuedAfter(g.issued, plans);
            (e in after <==> e in spec) && (e in after ==> after[e] == spec[e])
  {
    WriteIssuesEdges(WriteSummaries(g, plans), items, plans);
    IssuedAfterHas(g.issued, plans, e);
    CoversIssues(items, plans, e);
  }

  lemma StatementsIssued(g: Graph, plans: Plans, items: seq<(Id, Row)>)
    requires plans.Keys <= g.releases.Keys && Covers(items, plans)
    requires forall r | r in plans :: OneRowEach(plans[r].rows)
    ensures WriteIssues(WriteSummaries(g, plans), items).issued == IssuedAfter(g.issued, plans)
  {
    var after, spec := WriteIssues(WriteSummaries(g, plans), items).issued, IssuedAfter(g.issued, plans);
    forall e ensures SameEdge(after, spec, e) {
      StatementsIssuedAt(g, plans, items, e);
    }
    SameIssued(after, spec);
  }

  ghost predicate SameEdge(a: map<Issue, int>, b: map<Issue, int>, e: Issue) {
    (e in a <==> e in b) && (e in a ==> a[e] == b[e])
  }

  lemma SameIssued(a: map<Issue, int>, b: map<Issue, int>)
    requires forall e :: SameEdge(a, b, e)
    ensures a == b
  {
    forall e ensures (e in a <==> e in b) && (e in a ==> a[e] == b[e]) { assert SameEdge(a, b, e); }
  }

  /** The state after both lock statements: every attached medium is present, nothing else moved. */
  ghost predicate Locked(v: Vocabulary, fam: Id -> Id, g: Graph, held: Graph, plans: Plans) {
    && held.releases == g.releases && held.inFamily == g.inFamily && held.issued == g.issued && held.linked == g.linked
    && (forall m :: m in held.mediums <==> m in g.mediums || Attached(plans, m))
    && (forall m | m in held.mediums :: held.mediums[m] == Named(v, fam, m))
    && (forall f :: f in held.families <==> f in g.families || f in FiledFamilies(fam, plans))
  }

  lemma LocksTaken(v: Vocabulary, fam: Id -> Id, g: Graph, plans: Plans, families: seq<Id>, locked: seq<Row>,
                   items: seq<(Id, Row)>)
    requires WellNamed(v, fam, g) && Arguments(v, fam, plans, families, locked, items)
    ensures Locked(v, fam, g, LockMediums(LockFamilies(g, plans, families), locked), plans)
  {
    var held := LockMediums(LockFamilies(g, plans, families), locked);
    MergeMediumsResult(v, fam, g.mediums, locked);
    forall f ensures f in held.families <==> f in g.families || f in FiledFamilies(fam, plans) {
      LockedFamiliesAre(v, fam, plans, families, locked, f);
    }
  }

  lemma LockedFamiliesAre(v: Vocabulary, fam: Id -> Id, plans: Plans, families: seq<Id>, locked: seq<Row>, f: Id)
    requires LockedItems(locked, plans) && LockedFamilies(families, locked)
    requires forall i | 0 <= i < |locked| :: RowNamed(v, fam, locked[i])
    ensures f in families <==> f in FiledFamilies(fam, plans)
  {
    if f in families {
      var i :| 0 <= i < |locked| && locked[i].family == f;
      assert Lists(locked, locked[i].medium);
      AttachedHas(plans, locked[i].medium);
    }
    if f in FiledFamilies(fam, plans) {
      var m :| m in AttachedMediums(plans) && f == fam(m);
      AttachedHas(plans, m);
      var i :| 0 <= i < |locked| && locked[i].medium == m;
    }
  }

  lemma StatementsMediumAt(v: Vocabulary, fam: Id -> Id, g: Graph, held: Graph, plans: Plans, items: seq<(Id, Row)>,
                           m: Id)
    requires plans.Keys <= g.releases.Keys && PlansNamed(v, fam, plans) && Covers(items, plans)
    requires Locked(v, fam, g, held, plans)
    ensures var after, spec := WriteIssues(WriteSummaries(held, plans), items), Reconciled(v, fam, g, plans);
            (m in after.mediums <==> m in spec.mediums) && (m in after.mediums ==> after.mediums[m] == Named(v, fam, m))
  {
    WriteIssuesNodes(v, fam, WriteSummaries(held, plans), items);
    OrphanedIsPruned(held, plans, m);
    CoversTouches(items, plans, m);
    AttachedHas(plans, m);
    assert Pruned(held, plans, m) <==> Pruned(g, plans, m);
  }

  lemma StatementsFiledAt(v: Vocabulary, fam: Id -> Id, g: Graph, held: Graph, plans: Plans, items: seq<(Id, Row)>,
                          e: (Id, Id))
    requires WellNamed(v, fam, g) && plans.Keys <= g.releases.Keys && PlansNamed(v, fam, plans) && Covers(items, plans)
    requires Locked(v, fam, g, held, plans)
    ensures e in WriteIssues(WriteSummaries(held, plans), items).inFamily <==>
            e in Reconciled(v, fam, g, plans).inFamily
  {
    WriteIssuesNodes(v, fam, WriteSummaries(held, plans), items);
    OrphanedIsPruned(held, plans, e.0);
    CoversTouches(items, plans, e.0);
    FiledPairsHas(fam, plans, e);
    assert Pruned(held, plans, e.0) <==> Pruned(g, plans, e.0);
  }

  lemma StatementsFamilyAt(v: Vocabulary, fam: Id -> Id, g: Graph, held: Graph, plans: Plans, items: seq<(Id, Row)>,
                           f: Id)
    requires plans.Keys <= g.releases.Keys && PlansNamed(v, fam, plans) && Covers(items, plans)
    requires Locked(v, fam, g, held, plans)
    ensures f in WriteIssues(WriteSummaries(held, plans), items).families <==>
            f in Reconciled(v, fam, g, plans).families
  {
    WriteIssuesNodes(v, fam, WriteSummaries(held, plans), items);
    forall m ensures Touches(items, m) ==> m in AttachedMediums(plans) {
      CoversTouches(items, plans, m);
      AttachedHas(plans, m);
    }
  }

  lemma StatementsMediums(v: Vocabulary, fam: Id -> Id, g: Graph, held: Graph, plans: Plans, items: seq<(Id, Row)>)
    requires WellNamed(v, fam, g) && plans.Keys <= g.releases.Keys && PlansNamed(v, fam, plans) && Covers(items, plans)
    requires Locked(v, fam, g, held, plans)
    ensures WriteIssues(WriteSummaries(held, plans), items).mediums == Reconciled(v, fam, g, plans).mediums
  {
    var after, spec := WriteIssues(WriteSummaries(held, plans), items).mediums, Reconciled(v, fam, g, plans).mediums;
    forall m ensures SameMedium(after, spec, m) {
      StatementsMediumAt(v, fam, g, held, plans, items, m);
    }
    SameMediums(after, spec);
  }

  ghost predicate SameMedium(a: map<Id, MediumNode>, b: map<Id, MediumNode>, m: Id) {
    (m in a <==> m in b) && (m in a ==> a[m] == b[m])
  }

  lemma SameMediums(a: map<Id, MediumNode>, b: map<Id, MediumNode>)
    requires forall m :: SameMedium(a, b, m)
    ensures a == b
  {
    forall m ensures (m in a <==> m in b) && (m in a ==> a[m] == b[m]) { assert SameMedium(a, b, m); }
  }

  lemma StatementsFiled(v: Vocabulary, fam: Id -> Id, g: Graph, held: Graph, plans: Plans, items: seq<(Id, Row)>)
    requires WellNamed(v, fam, g) && plans.Keys <= g.releases.Keys && PlansNamed(v, fam, plans) && Covers(items, plans)
    requires Locked(v, fam, g, held, plans)
    ensures WriteIssues(WriteSummaries(held, plans), items).inFamily == Reconciled(v, fam, g, plans).inFamily
  {
    var after, spec := WriteIssues(WriteSummaries(held, plans), items).inFamily, Reconciled(v, fam, g, plans).inFamily;
    forall e ensures e in after <==> e in spec { StatementsFiledAt(v, fam, g, held, plans, items, e); }
  }

  lemma StatementsFamilies(v: Vocabulary, fam: Id -> Id, g: Graph, held: Graph, plans: Plans, items: seq<(Id, Row)>)
    requires WellNamed(v, fam, g) && plans.Keys <= g.releases.Keys && PlansNamed(v, fam, plans) && Covers(items, plans)
    requires Locked(v, fam, g, held, plans)
    ensures WriteIssues(WriteSummaries(held, plans), items).families == Reconciled(v, fam, g, plans).families
  {
    var after, spec := WriteIssues(WriteSummaries(held, plans), items).families, Reconciled(v, fam, g, plans).families;
    forall f ensures f in after <==> f in spec { StatementsFamilyAt(v, fam, g, held, plans, items, f); }
  }

  lemma StatementsRest(v: Vocabulary, fam: Id -> Id, g: Graph, held: Graph, plans: Plans, items: seq<(Id, Row)>)
    requires WellNamed(v, fam, g) && plans.Keys <= g.releases.Keys && PlansNamed(v, fam, plans) && Covers(items, plans)
    requires Locked(v, fam, g, held, plans)
    ensures var after, spec := WriteIssues(WriteSummaries(held, plans), items), Reconciled(v, fam, g, plans);
            after.releases == spec.releases && after.linked == spec.linked && after.issued == spec.issued
  {
    StatementsIssued(held, plans, items);
    WriteIssuesEdges(WriteSummaries(held, plans), items, plans);
  }

  /** The whole sequence of statements leaves exactly the closed form. */
  lemma StatementsReconcile(v: Vocabulary, fam: Id -> Id, g: Graph, plans: Plans, families: seq<Id>, locked: seq<Row>,
                            items: seq<(Id, Row)>)
    requires WellNamed(v, fam, g) && plans.Keys <= g.releases.Keys
    requires Arguments(v, fam, plans, families, locked, items)
    ensures MediaStatements(g, plans, families, locked, items) == Reconciled(v, fam, g, plans)
  {
    var held := LockMediums(LockFamilies(g, plans, families), locked);
    LocksTaken(v, fam, g, plans, families, locked, items);
    StatementsMediums(v, fam, g, held, plans, items);
    StatementsFiled(v, fam, g, held, plans, items);
    StatementsFamilies(v, fam, g, held, plans, items);
    StatementsRest(v, fam, g, held, plans, items);
    SameGraph(MediaStatements(g, plans, families, locked, items), Reconciled(v, fam, g, plans));
  }
}
