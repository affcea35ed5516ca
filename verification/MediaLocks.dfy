/** The media vocabulary locks of one write: which, in what order, and that they are enough. */
module MediaLocks {
  import opened Identifiers
  import opened MediaRows
  import opened CatalogGraph
  import opened MediaReconcile
  import opened LockOrder
  import opened Sorting

  // ------------------------------------------------------------ the lock arguments

  function MediumsOf(rows: seq<Row>): seq<Id> {
    seq(|rows|, i requires 0 <= i < |rows| => rows[i].medium)
  }

  function FamiliesOf(rows: seq<Row>): seq<Id> {
    seq(|rows|, i requires 0 <= i < |rows| => rows[i].family)
  }

  /** Each medium's first row, in medium order. */
  function LockItems(rows: seq<Row>): (items: seq<Row>)
    ensures MediumsOf(items) == SortIds(MediumsOf(rows))
    ensures forall i | 0 <= i < |items| :: items[i] in rows
  {
    var ids := SortIds(MediumsOf(rows));
    assert forall i | 0 <= i < |ids| :: Lists(rows, ids[i]) by {
      forall i | 0 <= i < |ids| ensures Lists(rows, ids[i]) {
        assert ids[i] in MediumsOf(rows);
      }
    }
    seq(|ids|, i requires 0 <= i < |ids| => RowOf(rows, ids[i]))
  }

  method MediaLockArgs(rows: seq<Row>) returns (items: seq<Row>, ids: seq<Id>, families: seq<Id>)
    ensures items == LockItems(rows)
    ensures ids == SortIds(MediumsOf(rows))
    ensures families == SortIds(FamiliesOf(items))
  {
    var first: map<Id, Row> := map[];
    var keys: seq<Id> := [];
    for i := 0 to |rows|
      invariant forall m :: m in first <==> Lists(rows[..i], m)
      invariant forall m | m in first :: first[m] == RowOf(rows[..i], m)
      invariant forall m :: m in keys <==> m in first
    {
      ghost var before := rows[..i];
      assert rows[..i + 1] == before + [rows[i]];
      forall m ensures Lists(rows[..i + 1], m) <==> Lists(before, m) || m == rows[i].medium {
        ListsStep(rows[..i + 1], m);
        assert rows[..i + 1][..i] == before;
      }
      forall m | Lists(before, m) ensures Lists(rows[..i + 1], m) && RowOf(rows[..i + 1], m) == RowOf(before, m) {
        RowOfPrefix(before, [rows[i]], m);
      }
      if rows[i].medium !in first {
        RowOfLast(before, rows[i]);
        first := first[rows[i].medium := rows[i]];
        keys := keys + [rows[i].medium];
      }
    }
    assert rows[..|rows|] == rows;
    ids := SortIds(keys);
    forall m ensures m in keys <==> m in MediumsOf(rows) {
      if m in MediumsOf(rows) {
        var i :| 0 <= i < |rows| && MediumsOf(rows)[i] == m;
        assert rows[i].medium == m;
      }
      if Lists(rows, m) {
        var i :| 0 <= i < |rows| && rows[i].medium == m;
        assert MediumsOf(rows)[i] == m;
      }
    }
    IncreasingUnique(ids, SortIds(MediumsOf(rows)));
    items := seq(|ids|, i requires 0 <= i < |ids| => first[ids[i]]);
    families := SortIds(FamiliesOf(items));
  }

  lemma {:induction false} RowOfPrefix(rows: seq<Row>, more: seq<Row>, m: Id)
    requires Lists(rows, m)
    ensures Lists(rows + more, m) && RowOf(rows + more, m) == RowOf(rows, m)
  {
    var i :| 0 <= i < |rows| && rows[i].medium == m;
    assert (rows + more)[i].medium == m;
    if rows[0].medium != m {
      assert rows[1..][i - 1].medium == m;
      RowOfPrefix(rows[1..], more, m);
      assert (rows + more)[1..] == rows[1..] + more;
    }
  }

  lemma {:induction false} RowOfLast(rows: seq<Row>, row: Row)
    requires !Lists(rows, row.medium)
    ensures Lists(rows + [row], row.medium) && RowOf(rows + [row], row.medium) == row
  {
    assert (rows + [row])[|rows|].medium == row.medium;
    if rows != [] {
      assert rows[0].medium != row.medium;
      assert forall i | 0 <= i < |rows| - 1 :: rows[1..][i] == rows[i + 1];
      RowOfLast(rows[1..], row);
      assert (rows + [row])[1..] == rows[1..] + [row];
    }
  }

  /** The rows an edges statement would write, whatever releases they belong to. */
  function RowsOf(items: seq<(Id, Row)>): seq<Row> {
    seq(|items|, i requires 0 <= i < |items| => items[i].1)
  }

  /** Lock arguments built from a write's rows are the arguments its statements need. */
  lemma LockArgsFit(v: Vocabulary, fam: Id -> Id, plans: Plans, items: seq<(Id, Row)>)
    requires PlansNamed(v, fam, plans) && Covers(items, plans)
    ensures var locked := LockItems(RowsOf(items));
            Arguments(v, fam, plans, SortIds(FamiliesOf(locked)), locked, items)
  {
    var rows := RowsOf(items);
    var locked := LockItems(rows);
    forall i | 0 <= i < |locked| ensures RowNamed(v, fam, locked[i]) {
      var k :| 0 <= k < |rows| && rows[k] == locked[i];
      var mine := plans[items[k].0].rows;
      var j :| 0 <= j < |mine| && mine[j] == items[k].1;
      assert PlanNamed(v, fam, plans[items[k].0]);
    }
    forall m ensures Lists(locked, m) <==> Attached(plans, m) {
      LockItemsList(rows, m);
      CoversTouches(items, plans, m);
      if Lists(rows, m) {
        var i :| 0 <= i < |rows| && rows[i].medium == m;
        assert items[i].1.medium == m;
      }
      if Touches(items, m) {
        var i :| 0 <= i < |items| && items[i].1.medium == m;
        assert rows[i].medium == m;
      }
    }
    FamiliesListed(locked);
  }

  lemma FamiliesListed(rows: seq<Row>)
    ensures LockedFamilies(SortIds(FamiliesOf(rows)), rows)
  {
    forall f ensures f in FamiliesOf(rows) <==> exists i | 0 <= i < |rows| :: rows[i].family == f {
      if i :| 0 <= i < |rows| && rows[i].family == f {
        assert FamiliesOf(rows)[i] == f;
      }
    }
  }

  lemma LockItemsList(rows: seq<Row>, m: Id)
    ensures Lists(LockItems(rows), m) <==> Lists(rows, m)
  {
    var items := LockItems(rows);
    if Lists(items, m) {
      var i :| 0 <= i < |items| && items[i].medium == m;
      var k :| 0 <= k < |rows| && rows[k] == items[i];
    }
    if Lists(rows, m) {
      var i :| 0 <= i < |rows| && rows[i].medium == m;
      assert MediumsOf(rows)[i] == m;
      assert m in MediumsOf(items);
      var k :| 0 <= k < |items| && MediumsOf(items)[k] == m;
      assert items[k].medium == m;
    }
  }

  // ------------------------------------------------------------ the lock sequence

  /** Families to file under and families of the media the releases now have. */
  function LockedFamilyNames(g: Graph, plans: Plans, families: seq<Id>): set<Id> {
    (set f | f in families) + StaleFamilies(g, plans)
  }

  /** Mediums to attach and mediums to detach from. */
  function LockedMediumIds(g: Graph, plans: Plans, ids: seq<Id>): set<Id> {
    (set m | m in ids) + StaleMediums(g, plans)
  }

  /** A MATCH lists what it finds in any order, an element as often as there are paths to it. */
  ghost predicate ListsAll(matched: seq<Id>, found: set<Id>) {
    forall x :: x in matched <==> x in found
  }

  /** The names LOCK_MEDIA_FAMILIES unwinds: `families + collect(DISTINCT stale)`, DISTINCT, then ORDER BY. */
  function FamilyRows(families: seq<Id>, matched: seq<Id>): seq<Id> {
    SortBy(Distinct(families + Distinct(matched)), Precedes)
  }

  function Without(ids: seq<Id>, known: seq<Id>): seq<Id> {
    if ids == [] then []
    else
      var front, last := Without(ids[..|ids| - 1], known), ids[|ids| - 1];
      if last in known then front else front + [last]
  }

  /** The ids LOCK_MEDIA_MEDIUMS unwinds: the items and the stale ids that are no item, then ORDER BY; no DISTINCT. */
  function MediumRows(ids: seq<Id>, matched: seq<Id>): seq<Id> {
    SortBy(ids + Without(Distinct(matched), ids), Precedes)
  }

  function FamilyLocks(names: seq<Id>): seq<Lock> { seq(|names|, i requires 0 <= i < |names| => FamilyLock(names[i])) }

  function MediumLocks(ids: seq<Id>): seq<Lock> { seq(|ids|, i requires 0 <= i < |ids| => MediumLock(ids[i])) }

  /** What the two lock statements take, in the order they take it. */
  function LockSequence(families: seq<Id>, ids: seq<Id>, staleFamilies: seq<Id>, staleMediums: seq<Id>): seq<Lock> {
    FamilyLocks(FamilyRows(families, staleFamilies)) + MediumLocks(MediumRows(ids, staleMediums))
  }

  lemma {:induction false} WithoutMeans(ids: seq<Id>, known: seq<Id>)
    requires NoRepeats(ids)
    ensures var r := Without(ids, known);
            NoRepeats(r) && forall x :: x in r <==> x in ids && x !in known
  {
    if ids != [] {
      WithoutMeans(ids[..|ids| - 1], known);
      assert ids == ids[..|ids| - 1] + [ids[|ids| - 1]];
    }
  }

  lemma PrecedesIsStrict()
    ensures StrictOrder(Precedes)
  {
    forall x ensures !Precedes(x, x) { PrecedesIrreflexive(x); }
    forall x, y, z | Precedes(x, y) && Precedes(y, z) ensures Precedes(x, z) { PrecedesTransitive(x, y, z); }
  }

  /** Sorting keeps repeats, so only a list without any sorts into a strictly climbing one. */
  lemma DistinctSortsClimbing(ids: seq<Id>)
    requires NoRepeats(ids)
    ensures Increasing(SortBy(ids, Precedes)) && forall x :: x in SortBy(ids, Precedes) <==> x in ids
  {
    var sorted := SortBy(ids, Precedes);
    PrecedesIsStrict();
    SortBySorts(ids, Precedes);
    SortKeepsDistinct(ids, Precedes);
    SortByKeeps(ids, Precedes);
    forall i, j | 0 <= i < j < |sorted| ensures Precedes(sorted[i], sorted[j]) {
      assert sorted[i] != sorted[j] && !Precedes(sorted[j], sorted[i]);
      PrecedesTotal(sorted[i], sorted[j]);
    }
  }

  lemma FamilyRowsClimb(families: seq<Id>, matched: seq<Id>)
    ensures Increasing(FamilyRows(families, matched))
    ensures forall f :: f in FamilyRows(families, matched) <==> f in families || f in matched
  {
    var all := families + Distinct(matched);
    DistinctMeans(matched);
    DistinctMeans(all);
    DistinctSortsClimbing(Distinct(all));
  }

  /** The item ids have no repeats and the filter keeps them out of the stale ones; nothing else removes repeats. */
  lemma MediumRowsClimb(ids: seq<Id>, matched: seq<Id>)
    requires NoRepeats(ids)
    ensures Increasing(MediumRows(ids, matched))
    ensures forall m :: m in MediumRows(ids, matched) <==> m in ids || m in matched
  {
    DistinctMeans(matched);
    WithoutMeans(Distinct(matched), ids);
    JoinWithoutRepeats(ids, Without(Distinct(matched), ids));
    DistinctSortsClimbing(ids + Without(Distinct(matched), ids));
  }

  lemma IncreasingHasNoRepeats(ids: seq<Id>)
    requires Increasing(ids)
    ensures NoRepeats(ids)
  {
    forall i, j | 0 <= i < j < |ids| ensures ids[i] != ids[j] { PrecedesIrreflexive(ids[i]); }
  }

  lemma LocksHave(names: seq<Id>, ids: seq<Id>)
    ensures var locks := FamilyLocks(names) + MediumLocks(ids);
            && (forall f :: FamilyLock(f) in locks <==> f in names)
            && (forall m :: MediumLock(m) in locks <==> m in ids)
  {
    var a, b := FamilyLocks(names), MediumLocks(ids);
    forall f | f in names ensures FamilyLock(f) in a {
      var i :| 0 <= i < |names| && names[i] == f;
      assert a[i] == FamilyLock(f);
    }
    forall m | m in ids ensures MediumLock(m) in b {
      var i :| 0 <= i < |ids| && ids[i] == m;
      assert b[i] == MediumLock(m);
    }
  }

  /**
   With the ids that the lock arguments promise, the two statements take their locks in strictly
   climbing order, so none twice, whatever the stale matches list and how often.
   */
  lemma LockSequenceClimbs(rows: seq<Row>, families: seq<Id>, staleFamilies: seq<Id>, staleMediums: seq<Id>)
    ensures Ordered(LockSequence(families, SortIds(MediumsOf(rows)), staleFamilies, staleMediums))
  {
    var ids := SortIds(MediumsOf(rows));
    IncreasingHasNoRepeats(ids);
    FamilyRowsClimb(families, staleFamilies);
    MediumRowsClimb(ids, staleMediums);
  }

  /** They take exactly the families and mediums to attach and the stale ones. */
  lemma LockSequenceTakes(g: Graph, plans: Plans, families: seq<Id>, rows: seq<Row>, staleFamilies: seq<Id>,
                          staleMediums: seq<Id>)
    requires ListsAll(staleFamilies, StaleFamilies(g, plans)) && ListsAll(staleMediums, StaleMediums(g, plans))
    ensures var ids := SortIds(MediumsOf(rows));
            var locks := LockSequence(families, ids, staleFamilies, staleMediums);
            && (forall f :: FamilyLock(f) in locks <==> f in LockedFamilyNames(g, plans, families))
            && (forall m :: MediumLock(m) in locks <==> m in LockedMediumIds(g, plans, ids))
  {
    var ids := SortIds(MediumsOf(rows));
    IncreasingHasNoRepeats(ids);
    FamilyRowsClimb(families, staleFamilies);
    MediumRowsClimb(ids, staleMediums);
    LocksHave(FamilyRows(families, staleFamilies), MediumRows(ids, staleMediums));
  }

  /** Two item rows for one medium would be locked twice: the deduplication is what makes the list strict. */
  lemma RepeatedItemIsLockedTwice()
    ensures MediumRows(["a", "a"], []) == ["a", "a"] && !Increasing(MediumRows(["a", "a"], []))
  {
    var ids := ["a", "a"];
    assert Distinct<Id>([]) == [] && ids + [] == ids;
    assert ids[..1] == ["a"] && ids[..1][..0] == [];
    assert SortBy<Id>([], Precedes) == [] && InsertBy<Id>([], "a", Precedes) == ["a"];
    assert SortBy(ids[..1], Precedes) == ["a"];
    PrecedesIrreflexive("a");
    assert InsertBy(["a"], "a", Precedes) == ["a", "a"];
    var rows := MediumRows(ids, []);
    assert rows == ids && !Precedes(rows[0], rows[1]);
  }

  // ------------------------------------------------------------ coverage

  /** Two graphs agree on every medium and family outside the given ones, and on the edges there. */
  ghost predicate SameOutside(a: Graph, b: Graph, mediums: set<Id>, families: set<Id>) {
    && (forall m | m !in mediums :: (m in a.mediums <==> m in b.mediums)
          && (m in a.mediums ==> a.mediums[m] == b.mediums[m]))
    && (forall e | e in a.inFamily - b.inFamily || e in b.inFamily - a.inFamily :: e.0 in mediums && e.1 in families)
    && (forall e: Issue | e.medium !in mediums ::
          (e in a.issued <==> e in b.issued) && (e in a.issued ==> a.issued[e] == b.issued[e]))
    && (forall f | f !in families :: f in a.families <==> f in b.families)
  }

  lemma LockingStaysInside(v: Vocabulary, fam: Id -> Id, g: Graph, plans: Plans, families: seq<Id>, locked: seq<Row>,
                           items: seq<(Id, Row)>)
    requires WellNamed(v, fam, g) && Arguments(v, fam, plans, families, locked, items)
    ensures SameOutside(g, LockMediums(LockFamilies(g, plans, families), locked),
                        LockedMediumIds(g, plans, MediumsOf(locked)), LockedFamilyNames(g, plans, families))
  {
    MergeMediumsResult(v, fam, g.mediums, locked);
    forall m | Lists(locked, m) ensures m in LockedMediumIds(g, plans, MediumsOf(locked)) {
      var i :| 0 <= i < |locked| && locked[i].medium == m;
      assert MediumsOf(locked)[i] == m;
    }
  }

  lemma PruningStaysInside(g: Graph, held: Graph, plans: Plans, families: seq<Id>, ids: seq<Id>)
    requires held.inFamily == g.inFamily && held.issued == g.issued
    ensures SameOutside(held, WriteSummaries(held, plans), LockedMediumIds(g, plans, ids),
                        LockedFamilyNames(g, plans, families))
  {
    var mid := WriteSummaries(held, plans);
    assert StaleMediums(held, plans) == StaleMediums(g, plans);
    forall e | e in held.inFamily - mid.inFamily
      ensures e.0 in LockedMediumIds(g, plans, ids) && e.1 in LockedFamilyNames(g, plans, families)
    {
      assert e.0 in StaleMediums(g, plans);
      var i :| i in g.issued && Stale(plans, i) && i.medium == e.0;
      assert Issue(i.release, MusicBrainz, e.0) in g.issued;
      assert Held(g, plans, e.0);
    }
    forall e: Issue | e.medium !in LockedMediumIds(g, plans, ids) ensures e in held.issued <==> e in mid.issued {}
  }

  lemma WritingStaysInside(v: Vocabulary, fam: Id -> Id, g: Graph, mid: Graph, plans: Plans, families: seq<Id>,
                           locked: seq<Row>, items: seq<(Id, Row)>)
    requires Arguments(v, fam, plans, families, locked, items) && plans.Keys <= mid.releases.Keys
    requires forall m | m in mid.mediums :: mid.mediums[m] == Named(v, fam, m)
    ensures SameOutside(mid, WriteIssues(mid, items), LockedMediumIds(g, plans, MediumsOf(locked)),
                        LockedFamilyNames(g, plans, families))
  {
    var after := WriteIssues(mid, items);
    WriteIssuesNodes(v, fam, mid, items);
    WriteIssuesEdges(mid, items, plans);
    forall m | Touches(items, m)
      ensures m in LockedMediumIds(g, plans, MediumsOf(locked)) && fam(m) in LockedFamilyNames(g, plans, families)
    {
      CoversTouches(items, plans, m);
      var i :| 0 <= i < |locked| && locked[i].medium == m;
      assert MediumsOf(locked)[i] == m;
      assert locked[i].family == fam(m);
    }
    forall e | Issues(items, e) ensures e.medium in LockedMediumIds(g, plans, MediumsOf(locked)) {
      var i :| 0 <= i < |items| && items[i].0 == e.release && items[i].1.medium == e.medium;
      assert Touches(items, e.medium);
    }
  }

  /** Everything that taking the locks, the prune and the edges change lies in the set locked beforehand. */
  lemma LocksCoverTheWrite(v: Vocabulary, fam: Id -> Id, g: Graph, plans: Plans, items: seq<(Id, Row)>)
    requires WellNamed(v, fam, g) && plans.Keys <= g.releases.Keys
    requires PlansNamed(v, fam, plans) && Covers(items, plans)
    ensures var locked := LockItems(RowsOf(items));
            var families := SortIds(FamiliesOf(locked));
            var mediumSet, familySet := LockedMediumIds(g, plans, MediumsOf(locked)),
                LockedFamilyNames(g, plans, families);
            var held := LockMediums(LockFamilies(g, plans, families), locked);
            var mid := WriteSummaries(held, plans);
            && SameOutside(g, held, mediumSet, familySet)
            && SameOutside(held, mid, mediumSet, familySet)
            && SameOutside(mid, WriteIssues(mid, items), mediumSet, familySet)
  {
    var locked := LockItems(RowsOf(items));
    var families := SortIds(FamiliesOf(locked));
    var held := LockMediums(LockFamilies(g, plans, families), locked);
    LockArgsFit(v, fam, plans, items);
    LockingStaysInside(v, fam, g, plans, families, locked, items);
    PruningStaysInside(g, held, plans, families, MediumsOf(locked));
    LocksTaken(v, fam, g, plans, families, locked, items);
    WritingStaysInside(v, fam, g, WriteSummaries(held, plans), plans, families, locked, items);
  }

  // ------------------------------------------------------------ concurrent writes

  /**
   One flush's media write: the rows it will write, and the stale families and mediums its two lock
   statements find, each in the graph as it is when that statement runs.
   */
  datatype Flush = Flush(rows: seq<Row>, staleFamilies: seq<Id>, staleMediums: seq<Id>)

  function LockList(f: Flush): seq<Lock> {
    LockSequence(SortIds(FamiliesOf(LockItems(f.rows))), SortIds(MediumsOf(f.rows)), f.staleFamilies, f.staleMediums)
  }

  ghost function LockLists(flushes: seq<Flush>): (wanted: seq<seq<Lock>>)
    ensures |wanted| == |flushes| && forall i | 0 <= i < |flushes| :: wanted[i] == LockList(flushes[i])
  {
    seq(|flushes|, i requires 0 <= i < |flushes| => LockList(flushes[i]))
  }

  /**
   Concurrent media flushes that share vocabulary never deadlock, however they interleave and whatever
   each one's statements read.
   */
  lemma FlushesNeverDeadlock(flushes: seq<Flush>, steps: seq<Step>, s: State)
    requires Run(Begin(LockLists(flushes)), steps, s)
    ensures forall chain | Chain(s, chain) :: chain[0] != chain[|chain| - 1]
    ensures AllEnded(s) || exists step :: Enabled(s, step) && !step.Abort?
    ensures |steps| + Remaining(s) <= Remaining(Begin(LockLists(flushes)))
  {
    forall i | 0 <= i < |flushes| ensures Ordered(LockLists(flushes)[i]) {
      LockSequenceClimbs(flushes[i].rows, SortIds(FamiliesOf(LockItems(flushes[i].rows))),
                         flushes[i].staleFamilies, flushes[i].staleMediums);
    }
    OrderedLocksNeverDeadlock(LockLists(flushes), steps, s);
  }

  /** Every medium a release of the write holds a musicbrainz edge to is filed under its family. */
  ghost predicate HeldAreFiled(fam: Id -> Id, g: Graph, plans: Plans) {
    forall m | Held(g, plans, m) :: (m, fam(m)) in g.inFamily
  }

  lemma HeldFollowFromFiled(fam: Id -> Id, g: Graph, plans: Plans)
    requires MusicBrainzFiled(fam, g)
    ensures HeldAreFiled(fam, g, plans)
  {}

  lemma HeldIsStable(v: Vocabulary, fam: Id -> Id, g: Graph, mine: Plans, other: Plans, m: Id)
    requires mine.Keys !! other.Keys
    ensures var after := Reconciled(v, fam, g, other);
            && (Held(g, mine, m) <==> Held(after, mine, m))
            && (m in StaleMediums(g, mine) <==> m in StaleMediums(after, mine))
            && (Held(g, mine, m) ==> !Pruned(g, other, m))
  {
    var after := Reconciled(v, fam, g, other);
    forall e: Issue | e.source == MusicBrainz && e.release in mine ensures e in g.issued <==> e in after.issued {
      IssuedAfterHas(g.issued, other, e);
    }
    if Held(g, mine, m) {
      var r :| r in mine && Issue(r, MusicBrainz, m) in g.issued;
      assert Issue(r, MusicBrainz, m) in after.issued;
    }
    if m in StaleMediums(g, mine) {
      var e :| e in g.issued && Stale(mine, e) && e.medium == m;
      assert e in after.issued;
    }
    if m in StaleMediums(after, mine) {
      var e :| e in after.issued && Stale(mine, e) && e.medium == m;
      assert e in g.issued;
    }
  }

  lemma StaleMediumsStable(v: Vocabulary, fam: Id -> Id, g: Graph, mine: Plans, other: Plans)
    requires mine.Keys !! other.Keys
    requires WellNamed(v, fam, g) && HeldAreFiled(fam, g, mine)
    ensures StaleMediums(g, mine) == StaleMediums(Reconciled(v, fam, g, other), mine)
  {
    forall m ensures m in StaleMediums(g, mine) <==> m in StaleMediums(Reconciled(v, fam, g, other), mine) {
      HeldIsStable(v, fam, g, mine, other, m);
    }
  }

  lemma StaleFamiliesStable(v: Vocabulary, fam: Id -> Id, g: Graph, mine: Plans, other: Plans)
    requires mine.Keys !! other.Keys
    requires WellNamed(v, fam, g) && HeldAreFiled(fam, g, mine)
    ensures StaleFamilies(g, mine) == StaleFamilies(Reconciled(v, fam, g, other), mine)
  {
    var after := Reconciled(v, fam, g, other);
    forall m ensures Held(g, mine, m) <==> Held(after, mine, m) {
      HeldIsStable(v, fam, g, mine, other, m);
    }
    forall e: (Id, Id) | Held(g, mine, e.0) ensures e in g.inFamily <==> e in after.inFamily {
      HeldIsStable(v, fam, g, mine, other, e.0);
      FiledPairsHas(fam, other, e);
      assert (e.0, fam(e.0)) in g.inFamily;
    }
    SameStaleFamilies(g, after, mine);
  }

  lemma SameStaleFamilies(a: Graph, b: Graph, mine: Plans)
    requires forall m :: Held(a, mine, m) <==> Held(b, mine, m)
    requires forall e: (Id, Id) | Held(a, mine, e.0) :: e in a.inFamily <==> e in b.inFamily
    ensures StaleFamilies(a, mine) == StaleFamilies(b, mine)
  {}

  /**
   While a write holds its releases, another write on other releases may commit: the stale families
   and mediums the first one read, and so its lock list, stay what they were.
   */
  lemma LockListIsStable(v: Vocabulary, fam: Id -> Id, g: Graph, mine: Plans, other: Plans)
    requires mine.Keys !! other.Keys
    requires WellNamed(v, fam, g) && HeldAreFiled(fam, g, mine)
    ensures StaleFamilies(g, mine) == StaleFamilies(Reconciled(v, fam, g, other), mine)
    ensures StaleMediums(g, mine) == StaleMediums(Reconciled(v, fam, g, other), mine)
  {
    StaleFamiliesStable(v, fam, g, mine, other);
    StaleMediumsStable(v, fam, g, mine, other);
  }
}
