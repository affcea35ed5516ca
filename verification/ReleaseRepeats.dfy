/**
 Batches that name a release more than once. Only its last record projects media, so the batch and its
 records one at a time can part; here is exactly when a release's own media come out the same.
 */
module ReleaseRepeats {
  import opened Identifiers
  import opened MediaRows
  import opened CatalogGraph
  import opened MediaReconcile
  import opened EntityGate
  import opened ReleaseProjection
  import opened ReleaseBatches
  import opened ReleaseRuns

  /** The plan of the last record that names the release and has one. */
  function LatestPlan(v: Vocabulary, records: seq<Record>, id: Id): Option<Plan> {
    if records == [] then None
    else
      var x := records[|records| - 1];
      if EntityGate.Names(EntryOf(v, x), id) && PlanOf(v, x).Some? then PlanOf(v, x)
      else LatestPlan(v, records[..|records| - 1], id)
  }

  /** The last record that names the release has a media block. */
  predicate LastHasPlan(v: Vocabulary, records: seq<Record>, id: Id) {
    var last := LastIndex(Entries(v, records), id);
    last.Some? && PlanOf(v, records[last.value]).Some?
  }

  ghost predicate EdgeAgrees(a: Graph, b: Graph, e: Issue) {
    (e in a.issued <==> e in b.issued) && (e in a.issued ==> a.issued[e] == b.issued[e])
  }

  /** The release's media summary and musicbrainz edges are the same in both graphs. */
  ghost predicate SameMedia(a: Graph, b: Graph, id: Id) {
    && id in a.releases && id in b.releases && a.releases[id].summary == b.releases[id].summary
    && forall m :: EdgeAgrees(a, b, Issue(id, MusicBrainz, m))
  }

  ghost predicate EdgeShows(g: Graph, plan: Plan, e: Issue) {
    (e in g.issued <==> Lists(plan.rows, e.medium)) && (e in g.issued ==> g.issued[e] == RowOf(plan.rows, e.medium).qty)
  }

  /** They are exactly the plan's. */
  ghost predicate Shows(g: Graph, id: Id, plan: Plan) {
    && id in g.releases && g.releases[id].summary == Some(plan.summary)
    && forall m :: EdgeShows(g, plan, Issue(id, MusicBrainz, m))
  }

  lemma ShowsIsMedia(a: Graph, b: Graph, id: Id, plan: Plan)
    requires Shows(a, id, plan)
    ensures Shows(b, id, plan) <==> SameMedia(a, b, id)
  {
    if Shows(b, id, plan) {
      forall m ensures EdgeAgrees(a, b, Issue(id, MusicBrainz, m)) {
        assert EdgeShows(a, plan, Issue(id, MusicBrainz, m)) && EdgeShows(b, plan, Issue(id, MusicBrainz, m));
      }
    }
    if SameMedia(a, b, id) {
      forall m ensures EdgeShows(b, plan, Issue(id, MusicBrainz, m)) {
        assert EdgeShows(a, plan, Issue(id, MusicBrainz, m)) && EdgeAgrees(a, b, Issue(id, MusicBrainz, m));
      }
    }
  }

  lemma SameMediaTransitive(a: Graph, b: Graph, c: Graph, id: Id)
    requires SameMedia(a, b, id) && SameMedia(b, c, id)
    ensures SameMedia(a, c, id)
  {
    forall m ensures EdgeAgrees(a, c, Issue(id, MusicBrainz, m)) {
      assert EdgeAgrees(a, b, Issue(id, MusicBrainz, m)) && EdgeAgrees(b, c, Issue(id, MusicBrainz, m));
    }
  }

  lemma SameMediaFlips(a: Graph, b: Graph, id: Id)
    requires SameMedia(a, b, id)
    ensures SameMedia(b, a, id)
  {
    forall m ensures EdgeAgrees(b, a, Issue(id, MusicBrainz, m)) {
      assert EdgeAgrees(a, b, Issue(id, MusicBrainz, m));
    }
  }

  // ------------------------------------------------------------ one write, one release's media

  lemma ReconciledMedia(v: Vocabulary, fam: Id -> Id, g: Graph, plans: Plans, id: Id)
    requires id in g.releases && (id in plans ==> PlanNamed(v, fam, plans[id]))
    ensures var after := Reconciled(v, fam, g, plans);
            if id in plans then Shows(after, id, plans[id]) else SameMedia(after, g, id)
  {
    var after := Reconciled(v, fam, g, plans);
    if id in plans {
      WrittenIsRealised(v, fam, g, plans, id);
      forall m ensures EdgeShows(after, plans[id], Issue(id, MusicBrainz, m)) {}
    } else {
      forall m ensures EdgeAgrees(after, g, Issue(id, MusicBrainz, m)) {
        IssuedAfterHas(g.issued, plans, Issue(id, MusicBrainz, m));
      }
    }
  }

  /** A batch shows the plan of the release's last record, if that has one, and otherwise keeps its media. */
  lemma EnrichedMedia(v: Vocabulary, fam: Id -> Id, g: Graph, records: seq<Record>, id: Id)
    requires id in g.releases && RecordsFiled(fam, records)
    ensures var after := Enriched(v, fam, g, records, false);
            if LastHasPlan(v, records, id) then Shows(after, id, LastPlan(v, records, id)) else SameMedia(after, g, id)
  {
    var start, plans := g.(releases := Rewrites(v, g.releases, records, false)),
        PlansFor(v, g.releases, records, false);
    ProjectsLocally(v, g.releases, records, false, id);
    PlansForNamed(v, fam, g.releases, records, false);
    ReconciledMedia(v, fam, start, plans, id);
    var after := Enriched(v, fam, g, records, false);
    if id !in plans {
      assert SameMedia(start, g, id);
      SameMediaTransitive(after, start, g, id);
    }
  }

  lemma LastOfOneHasPlan(v: Vocabulary, x: Record, id: Id)
    ensures LastHasPlan(v, [x], id) <==> EntityGate.Names(EntryOf(v, x), id) && PlanOf(v, x).Some?
    ensures LastHasPlan(v, [x], id) ==> LastPlan(v, [x], id) == PlanOf(v, x).value
  {
    LastOfOne(v, x, id);
  }

  /** Ungated delivery one at a time keeps the graph good and shows the latest plan each release had. */
  lemma {:induction false} InOrderMedia(v: Vocabulary, fam: Id -> Id, g: Graph, records: seq<Record>, id: Id)
    requires Good(v, fam, g) && RecordsFiled(fam, records) && id in g.releases
    ensures var after := EnrichInOrder(v, g, records, false);
            && Good(v, fam, after) && after.releases.Keys == g.releases.Keys
            && match LatestPlan(v, records, id)
               case None => SameMedia(after, g, id)
               case Some(plan) => Shows(after, id, plan)
  {
    if records != [] {
      var front, x := records[..|records| - 1], records[|records| - 1];
      var mid := EnrichInOrder(v, g, front, false);
      InOrderMedia(v, fam, g, front, id);
      OneIsEnriched(v, fam, mid, x, false);
      BatchKeepsGood(v, fam, mid, [x], false);
      EnrichedKeepsNames(v, fam, mid, [x], false);
      EnrichedMedia(v, fam, mid, [x], id);
      LastOfOneHasPlan(v, x, id);
      var after := Enriched(v, fam, mid, [x], false);
      if !LastHasPlan(v, [x], id) {
        match LatestPlan(v, front, id) {
          case None => SameMediaTransitive(after, mid, g, id);
          case Some(plan) =>
            SameMediaFlips(after, mid, id);
            ShowsIsMedia(mid, after, id, plan);
        }
      }
    }
  }

  // ------------------------------------------------------------ the gate plays no part

  lemma {:induction false} InOrderGateFree(v: Vocabulary, fam: Id -> Id, g: Graph, records: seq<Record>)
    requires Good(v, fam, g) && RecordsFiled(fam, records)
    ensures EnrichInOrder(v, g, records, true) == EnrichInOrder(v, g, records, false)
    ensures Good(v, fam, EnrichInOrder(v, g, records, true))
  {
    if records != [] {
      var front, x := records[..|records| - 1], records[|records| - 1];
      InOrderGateFree(v, fam, g, front);
      DeliverKeepsGood(v, fam, EnrichInOrder(v, g, front, true), Single(x));
    }
  }

  lemma BothUngated(v: Vocabulary, fam: Id -> Id, g: Graph, records: seq<Record>, gate: bool)
    requires Good(v, fam, g) && RecordsFiled(fam, records)
    ensures EnrichMany(v, g, records, gate) == Enriched(v, fam, g, records, false)
    ensures EnrichInOrder(v, g, records, gate) == EnrichInOrder(v, g, records, false)
  {
    ManyIsEnriched(v, fam, g, records, gate);
    if gate {
      GateIsTransparent(v, fam, g, records);
      InOrderGateFree(v, fam, g, records);
    }
  }

  // ------------------------------------------------------------ exactly when a release's media agree

  /**
   No record of the release has a media block, or its last record has one, or the graph already shows
   the latest block that one of them has.
   */
  ghost predicate MediaKept(v: Vocabulary, g: Graph, records: seq<Record>, id: Id) {
    match LatestPlan(v, records, id)
    case None => true
    case Some(plan) => LastHasPlan(v, records, id) || Shows(g, id, plan)
  }

  lemma {:induction false} LatestIsLast(v: Vocabulary, records: seq<Record>, id: Id)
    requires LastHasPlan(v, records, id)
    ensures LatestPlan(v, records, id) == Some(LastPlan(v, records, id))
  {
    var front, x := records[..|records| - 1], records[|records| - 1];
    assert records == front + [x];
    LastOfMore(v, front, x, id);
    if !EntityGate.Names(EntryOf(v, x), id) {
      LatestIsLast(v, front, id);
    }
  }

  /**
   For any batch from a graph whose digests are true, repeated ids or not: a release's media summary and
   musicbrainz edges come out as its records one at a time leave them exactly when `MediaKept`.
   */
  lemma RepeatsKeepMedia(v: Vocabulary, fam: Id -> Id, g: Graph, records: seq<Record>, gate: bool, id: Id)
    requires Good(v, fam, g) && RecordsFiled(fam, records) && id in g.releases
    ensures SameMedia(EnrichMany(v, g, records, gate), EnrichInOrder(v, g, records, gate), id) <==>
            MediaKept(v, g, records, id)
  {
    var batch, singles := Enriched(v, fam, g, records, false), EnrichInOrder(v, g, records, false);
    BothUngated(v, fam, g, records, gate);
    EnrichedMedia(v, fam, g, records, id);
    InOrderMedia(v, fam, g, records, id);
    if LastHasPlan(v, records, id) {
      LatestIsLast(v, records, id);
      ShowsIsMedia(batch, singles, id, LastPlan(v, records, id));
    } else {
      SameMediaFlips(batch, g, id);
      match LatestPlan(v, records, id)
      case None =>
        SameMediaFlips(singles, g, id);
        SameMediaTransitive(batch, g, singles, id);
      case Some(plan) => OnlyIfShown(batch, singles, g, id, plan);
    }
  }

  lemma OnlyIfShown(batch: Graph, singles: Graph, g: Graph, id: Id, plan: Plan)
    requires SameMedia(batch, g, id) && SameMedia(g, batch, id) && Shows(singles, id, plan)
    ensures SameMedia(batch, singles, id) <==> Shows(g, id, plan)
  {
    ShowsIsMedia(singles, batch, id, plan);
    if SameMedia(batch, singles, id) {
      SameMediaFlips(batch, singles, id);
      ShowsIsMedia(batch, g, id, plan);
    }
    if Shows(g, id, plan) {
      ShowsIsMedia(g, batch, id, plan);
      SameMediaFlips(singles, batch, id);
    }
  }

  /**
   Two records of one release, the first with a media block and the second without: one at a time the
   release gets its medium, in one batch it does not.
   */
  lemma SupersededMediaAreLost()
    ensures var g := Graph(map["5" := Node(map[], None, None, None)], map[], {}, {}, map[], {});
            var first := Record(Number(5), map[], Some(Media([Item(Some("cd"), Some("disc"), Count(1))], ["disc"])),
                                None);
            var second := Record(Text("5"), map["mb_status" := Word("official")], None, None);
            !SameMedia(EnrichMany(map[], g, [first, second], true), EnrichInOrder(map[], g, [first, second], true), "5")
  {
    var g := Graph(map["5" := Node(map[], None, None, None)], map[], {}, {}, map[], {});
    var items := [Item(Some("cd"), Some("disc"), Count(1))];
    var first := Record(Number(5), map[], Some(Media(items, ["disc"])), None);
    var second := Record(Text("5"), map["mb_status" := Word("official")], None, None);
    var records, fam := [first, second], (m: Id) => "disc";
    var es := Entries(map[], records);
    assert Str(es[0].id) == "5" && Str(es[1].id) == "5";
    assert records[..1] == [first];
    assert PlanOf(map[], second) == None && PlanOf(map[], first).Some?;
    assert LatestPlan(map[], records, "5") == LatestPlan(map[], [first], "5") == PlanOf(map[], first);
    assert LastIndex(es, "5") == Some(1);
    assert RecordFiled(fam, first) && RecordFiled(fam, second);
    RepeatsKeepMedia(map[], fam, g, records, true, "5");
  }

  // ------------------------------------------------------------ when the whole graph agrees

  /** Records of one release that have media blocks have the same plan. */
  ghost predicate PlansAgree(v: Vocabulary, records: seq<Record>) {
    forall i, j | 0 <= i < |records| && 0 <= j < |records| && records[i].id != Absent && records[j].id != Absent
                  && Str(records[i].id) == Str(records[j].id) && PlanOf(v, records[i]).Some?
                      && PlanOf(v, records[j]).Some? ::
      PlanOf(v, records[i]) == PlanOf(v, records[j])
  }

  /** An earlier record of a release carries no media block, or its last record's plan. */
  ghost predicate RepeatsAgree(v: Vocabulary, records: seq<Record>) {
    forall i | 0 <= i < |records| && records[i].id != Absent && PlanOf(v, records[i]).Some? ::
      LastHasPlan(v, records, Str(records[i].id))
          && LastPlan(v, records, Str(records[i].id)) == PlanOf(v, records[i]).value
  }

  function LatestPlans(v: Vocabulary, table: Table, records: seq<Record>): Plans {
    map id | id in table && LatestPlan(v, records, id).Some? :: LatestPlan(v, records, id).value
  }

  lemma {:induction false} LatestComesFrom(v: Vocabulary, records: seq<Record>, id: Id)
    ensures LatestPlan(v, records, id).Some? ==>
              exists i :: 0 <= i < |records| && EntityGate.Names(EntryOf(v, records[i]), id)
                  && PlanOf(v, records[i]) == LatestPlan(v, records, id)
    ensures LatestPlan(v, records, id).None? ==>
              forall i | 0 <= i < |records| && EntityGate.Names(EntryOf(v, records[i]), id) ::
                  PlanOf(v, records[i]).None?
  {
    if records != [] {
      var front, x := records[..|records| - 1], records[|records| - 1];
      assert records == front + [x];
      LatestComesFrom(v, front, id);
      if LatestPlan(v, records, id).Some? && !(EntityGate.Names(EntryOf(v, x), id) && PlanOf(v, x).Some?) {
        var i :| 0 <= i < |front| && EntityGate.Names(EntryOf(v, front[i]), id)
            && PlanOf(v, front[i]) == LatestPlan(v, front, id);
        assert records[i] == front[i];
      }
    }
  }

  lemma LatestPlansNamed(v: Vocabulary, fam: Id -> Id, table: Table, records: seq<Record>)
    requires RecordsFiled(fam, records)
    ensures PlansNamed(v, fam, LatestPlans(v, table, records)) && LatestPlans(v, table, records).Keys <= table.Keys
  {
    var plans := LatestPlans(v, table, records);
    forall id | id in plans ensures PlanNamed(v, fam, plans[id]) {
      LatestComesFrom(v, records, id);
      var i :| 0 <= i < |records| && EntityGate.Names(EntryOf(v, records[i]), id)
          && PlanOf(v, records[i]) == LatestPlan(v, records, id);
      PlanIsNamed(v, fam, records[i]);
    }
  }

  /** Under `RepeatsAgree` the batch carries out every release's latest plan. */
  lemma BatchHasLatest(v: Vocabulary, table: Table, records: seq<Record>)
    requires RepeatsAgree(v, records)
    ensures PlansFor(v, table, records, false) == LatestPlans(v, table, records)
  {
    forall id | id in table
      ensures LastHasPlan(v, records, id) <==> LatestPlan(v, records, id).Some?
      ensures LastHasPlan(v, records, id) ==> LatestPlan(v, records, id) == Some(LastPlan(v, records, id))
      ensures id in PlansFor(v, table, records, false) <==> LastHasPlan(v, records, id)
    {
      ProjectsLocally(v, table, records, false, id);
      LatestComesFrom(v, records, id);
      if LastHasPlan(v, records, id) { LatestIsLast(v, records, id); }
      if LatestPlan(v, records, id).Some? {
        var i :| 0 <= i < |records| && EntityGate.Names(EntryOf(v, records[i]), id)
            && PlanOf(v, records[i]) == LatestPlan(v, records, id);
        assert LastHasPlan(v, records, Str(records[i].id));
      }
    }
  }

  lemma AgreeingFront(v: Vocabulary, records: seq<Record>)
    requires RepeatsAgree(v, records)
    ensures PlansAgree(v, records)
  {
    forall i, j | 0 <= i < |records| && 0 <= j < |records| && records[i].id != Absent && records[j].id != Absent
                  && Str(records[i].id) == Str(records[j].id) && PlanOf(v, records[i]).Some?
                      && PlanOf(v, records[j]).Some?
      ensures PlanOf(v, records[i]) == PlanOf(v, records[j])
    {
      assert LastPlan(v, records, Str(records[i].id)) == PlanOf(v, records[i]).value;
      assert LastPlan(v, records, Str(records[j].id)) == PlanOf(v, records[j]).value;
    }
  }

  lemma NodeAfterOne(v: Vocabulary, table: Table, front: seq<Record>, x: Record, plans: Plans, id: Id)
    requires id in table
    ensures Rewrites(v, Summarised(Rewrites(v, table, front, false), plans), [x], false)[id]
         == Summarised(Rewrites(v, table, front + [x], false), plans)[id]
  {
    LastOfMore(v, front, x, id);
    LastOfOne(v, x, id);
  }

  lemma SameNodes(a: Table, b: Table)
    requires a.Keys == b.Keys && forall id | id in a :: a[id] == b[id]
    ensures a == b
  {}

  /** Ungated, one more record leaves the nodes that the longer batch would have written. */
  lemma NodesAfterOne(v: Vocabulary, table: Table, front: seq<Record>, x: Record, plans: Plans)
    ensures Rewrites(v, Summarised(Rewrites(v, table, front, false), plans), [x], false)
         == Summarised(Rewrites(v, table, front + [x], false), plans)
  {
    var one := Rewrites(v, Summarised(Rewrites(v, table, front, false), plans), [x], false);
    var all := Summarised(Rewrites(v, table, front + [x], false), plans);
    assert one.Keys == table.Keys == all.Keys;
    forall id | id in table ensures one[id] == all[id] {
      NodeAfterOne(v, table, front, x, plans, id);
    }
    SameNodes(one, all);
  }

  /** How the latest plans grow by one record. */
  lemma LatestOfMore(v: Vocabulary, table: Table, front: seq<Record>, x: Record)
    ensures LatestPlans(v, table, front + [x]) ==
              if WritesMedia(v, table, x, false) then LatestPlans(v, table, front)[Str(x.id) := PlanOf(v, x).value]
              else LatestPlans(v, table, front)
  {
    var all := front + [x];
    assert all[..|front|] == front;
  }

  lemma {:induction false} InOrderCarriesLatest(v: Vocabulary, fam: Id -> Id, g: Graph, records: seq<Record>)
    requires WellNamed(v, fam, g) && RecordsFiled(fam, records) && PlansAgree(v, records)
    ensures EnrichInOrder(v, g, records, false) ==
              Reconciled(v, fam, g.(releases := Rewrites(v, g.releases, records, false)),
                         LatestPlans(v, g.releases, records))
  {
    if records == [] {
      assert LatestPlans(v, g.releases, []) == map[];
      assert Rewrites(v, g.releases, [], false) == g.releases;
      ReconcileNothing(v, fam, g);
    } else {
      var front, x := records[..|records| - 1], records[|records| - 1];
      assert records == front + [x];
      InOrderCarriesLatest(v, fam, g, front);
      CarryOneMore(v, fam, g, front, x);
    }
  }

  /** One more record on top of a write that carried out the latest plans. */
  lemma CarryOneMore(v: Vocabulary, fam: Id -> Id, g: Graph, front: seq<Record>, x: Record)
    requires WellNamed(v, fam, g) && RecordsFiled(fam, front + [x]) && PlansAgree(v, front + [x])
    ensures var mid := Reconciled(v, fam, g.(releases := Rewrites(v, g.releases, front, false)),
                                  LatestPlans(v, g.releases, front));
            EnrichOne(v, mid, x, false) ==
              Reconciled(v, fam, g.(releases := Rewrites(v, g.releases, front + [x], false)),
                         LatestPlans(v, g.releases, front + [x]))
  {
    var a := LatestPlans(v, g.releases, front);
    var start := g.(releases := Rewrites(v, g.releases, front + [x], false));
    var mid := Reconciled(v, fam, g.(releases := Rewrites(v, g.releases, front, false)), a);
    FrontIsFiled(fam, front, x);
    LatestPlansNamed(v, fam, g.releases, front);
    RewriteFirst(v, fam, g, front, x, a);
    NextPlans(v, g.releases, mid.releases, front, x);
    PlansOnTop(v, fam, start, a, PlansFor(v, mid.releases, [x], false));
  }

  /** Plans carried out again, or of other releases. */
  ghost predicate AgainOrApart(a: Plans, b: Plans) {
    a.Keys !! b.Keys || forall id | id in b :: id in a && a[id] == b[id]
  }

  lemma NextPlans(v: Vocabulary, table: Table, later: Table, front: seq<Record>, x: Record)
    requires later.Keys == table.Keys && PlansAgree(v, front + [x])
    ensures var a, b := LatestPlans(v, table, front), PlansFor(v, later, [x], false);
            AgainOrApart(a, b) && LatestPlans(v, table, front + [x]) == Joined(a, b)
  {
    OnePlans(v, later, x, false);
    LatestOfMore(v, table, front, x);
    if WritesMedia(v, later, x, false) && Str(x.id) in LatestPlans(v, table, front) {
      SamePlanAgain(v, table, front, x);
    }
  }

  /** One more record rewrites its node, as the longer batch would, and then carries out its own plan. */
  lemma RewriteFirst(v: Vocabulary, fam: Id -> Id, g: Graph, front: seq<Record>, x: Record, a: Plans)
    requires WellNamed(v, fam, g) && RecordFiled(fam, x) && PlansNamed(v, fam, a) && a.Keys <= g.releases.Keys
    ensures var mid := Reconciled(v, fam, g.(releases := Rewrites(v, g.releases, front, false)), a);
            EnrichOne(v, mid, x, false) ==
              Reconciled(v, fam, Reconciled(v, fam, g.(releases := Rewrites(v, g.releases, front + [x], false)), a),
                         PlansFor(v, mid.releases, [x], false))
  {
    var start := g.(releases := Rewrites(v, g.releases, front, false));
    var mid := Reconciled(v, fam, start, a);
    ReconcileKeepsNames(v, fam, start, a);
    OneIsEnriched(v, fam, mid, x, false);
    NodesAfterOne(v, g.releases, front, x, a);
    ReleasesAside(v, fam, start, Rewrites(v, g.releases, front + [x], false), a);
  }

  lemma FrontIsFiled(fam: Id -> Id, front: seq<Record>, x: Record)
    requires RecordsFiled(fam, front + [x])
    ensures RecordsFiled(fam, front) && RecordFiled(fam, x)
  {
    var all := front + [x];
    assert all[|front|] == x;
    forall i | 0 <= i < |front| ensures RecordFiled(fam, front[i]) { assert all[i] == front[i]; }
  }

  lemma SamePlanAgain(v: Vocabulary, table: Table, front: seq<Record>, x: Record)
    requires PlansAgree(v, front + [x]) && x.id != Absent && PlanOf(v, x).Some?
             && Str(x.id) in LatestPlans(v, table, front)
    ensures LatestPlans(v, table, front)[Str(x.id)] == PlanOf(v, x).value
  {
    var all, id := front + [x], Str(x.id);
    LatestComesFrom(v, front, id);
    var i :| 0 <= i < |front| && EntityGate.Names(EntryOf(v, front[i]), id)
        && PlanOf(v, front[i]) == LatestPlan(v, front, id);
    assert all[i] == front[i] && all[|front|] == x;
  }

  /** Carrying out more plans after a write: those already carried out change nothing, others join. */
  lemma PlansOnTop(v: Vocabulary, fam: Id -> Id, start: Graph, a: Plans, b: Plans)
    requires WellNamed(v, fam, start) && PlansNamed(v, fam, a) && a.Keys <= start.releases.Keys && AgainOrApart(a, b)
    ensures Reconciled(v, fam, Reconciled(v, fam, start, a), b) == Reconciled(v, fam, start, Joined(a, b))
  {
    if a.Keys !! b.Keys {
      ReconcileComposes(v, fam, start, a, b);
    } else {
      PlansAgain(v, fam, start, a, b);
      assert Joined(a, b) == a;
    }
  }

  lemma PlansAgain(v: Vocabulary, fam: Id -> Id, start: Graph, a: Plans, b: Plans)
    requires WellNamed(v, fam, start) && PlansNamed(v, fam, a) && a.Keys <= start.releases.Keys
    requires forall id | id in b :: id in a && a[id] == b[id]
    ensures Reconciled(v, fam, Reconciled(v, fam, start, a), b) == Reconciled(v, fam, start, a)
  {
    var after := Reconciled(v, fam, start, a);
    ReconcileKeepsNames(v, fam, start, a);
    forall id | id in b ensures Realised(v, fam, after, id, b[id]) {
      WrittenIsRealised(v, fam, start, a, id);
    }
    RealisedIsNoop(v, fam, after, b);
  }

  /**
   A batch in which earlier records of a release carry no media block or its last record's plan leaves
   the whole graph that its records leave one at a time, in order.
   */
  lemma AgreeingRepeatsAreHarmless(v: Vocabulary, fam: Id -> Id, g: Graph, records: seq<Record>, gate: bool)
    requires Good(v, fam, g) && RecordsFiled(fam, records) && RepeatsAgree(v, records)
    ensures EnrichMany(v, g, records, gate) == EnrichInOrder(v, g, records, gate)
  {
    BothUngated(v, fam, g, records, gate);
    BatchHasLatest(v, g.releases, records);
    AgreeingFront(v, records);
    InOrderCarriesLatest(v, fam, g, records);
  }
}
