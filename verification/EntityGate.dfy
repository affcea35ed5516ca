/**
 The digest gate on one kind of node, and the batch that collapses repeated ids to the last record.
 */
module EntityGate {
  import opened Identifiers
  import opened CatalogGraph

  /** What one record asks of its node: the mapped fields and what else its digest covers. */
  datatype Entry = Entry(id: RawId, fields: Fields, extra: Extra)

  datatype Stats = Stats(enriched: int, skipped: int, created: int, updated: int, missing: int, replays: int)

  const NO_STATS := Stats(0, 0, 0, 0, 0, 0)

  datatype Outcome = Outcome(matched: bool, changed: bool, stored: Option<seq<Relation>>)

  function DigestOf(e: Entry): Digest { Digest(e.fields, e.extra) }

  /** The statement's `changed`: a missing or different digest, or the gate switched off. */
  predicate Changed(node: Node, digest: Digest, gate: bool) {
    !gate || node.hash != Some(digest)
  }

  function Settled(node: Node, e: Entry): Node {
    node.(fields := e.fields, hash := Some(DigestOf(e)))
  }

  function Rewritten(node: Node, e: Entry, gate: bool): Node {
    if Changed(node, DigestOf(e), gate) then Settled(node, e) else node
  }

  predicate Matches(table: Table, e: Entry) {
    e.id != Absent && Str(e.id) in table
  }

  /** One gated statement: match the node, rewrite it when its digest differs. */
  function DeliverOne(table: Table, e: Entry, gate: bool): Table {
    if Matches(table, e) then table[Str(e.id) := Rewritten(table[Str(e.id)], e, gate)] else table
  }

  /** How one record moves the counters. */
  function CountOne(stats: Stats, table: Table, e: Entry, gate: bool): Stats {
    if !Matches(table, e) then stats.(skipped := stats.skipped + 1)
    else if Changed(table[Str(e.id)], DigestOf(e), gate) then stats.(enriched := stats.enriched + 1)
    else stats.(enriched := stats.enriched + 1, replays := stats.replays + 1)
  }

  /** One-at-a-time delivery, in order. */
  function DeliverInOrder(table: Table, entries: seq<Entry>, gate: bool): Table {
    if entries == [] then table
    else DeliverOne(DeliverInOrder(table, entries[..|entries| - 1], gate), entries[|entries| - 1], gate)
  }

  predicate Names(e: Entry, id: Id) { e.id != Absent && Str(e.id) == id }

  /** The last record of a batch that names the id. */
  function LastIndex(entries: seq<Entry>, id: Id): (r: Option<nat>)
    ensures r.Some? ==> r.value < |entries| && Names(entries[r.value], id)
  {
    if entries == [] then None
    else if Names(entries[|entries| - 1], id) then Some(|entries| - 1)
    else LastIndex(entries[..|entries| - 1], id)
  }

  lemma {:induction false} LastIndexMeans(entries: seq<Entry>, id: Id, i: nat)
    requires i < |entries| && Names(entries[i], id)
    ensures LastIndex(entries, id).Some? && i <= LastIndex(entries, id).value
  {
    if !Names(entries[|entries| - 1], id) {
      LastIndexMeans(entries[..|entries| - 1], id, i);
    }
  }

  /** What the batch leaves: each named node meets only the last record that names it. */
  function BatchTable(table: Table, entries: seq<Entry>, gate: bool): Table {
    map id | id in table ::
      var last := LastIndex(entries, id);
      if last.Some? then Rewritten(table[id], entries[last.value], gate) else table[id]
  }

  predicate IsLast(entries: seq<Entry>, i: nat)
    requires i < |entries|
  {
    entries[i].id != Absent && LastIndex(entries, Str(entries[i].id)) == Some(i)
  }

  function OutcomeOf(table: Table, entries: seq<Entry>, gate: bool, relations: bool, i: nat): Outcome
    requires i < |entries|
  {
    var e := entries[i];
    if !Matches(table, e) then Outcome(false, false, None)
    else Outcome(true,
                 IsLast(entries, i) && Changed(table[Str(e.id)], DigestOf(e), gate),
                 if relations then table[Str(e.id)].relationsHash else None)
  }

  function MatchCount(table: Table, entries: seq<Entry>): nat {
    if entries == [] then 0
    else MatchCount(table, entries[..|entries| - 1]) + (if Matches(table, entries[|entries| - 1]) then 1 else 0)
  }

  /** The record stands for its id, is matched, and carries the stored digest already. */
  predicate Unchanged(table: Table, entries: seq<Entry>, gate: bool, i: nat)
    requires i < |entries|
  {
    var e := entries[i];
    IsLast(entries, i) && Matches(table, e) && !Changed(table[Str(e.id)], DigestOf(e), gate)
  }

  /** The unchanged ones of the first `k` records. */
  function UnchangedTo(table: Table, entries: seq<Entry>, gate: bool, k: nat): set<int>
    requires k <= |entries|
  {
    set i | 0 <= i < k && Unchanged(table, entries, gate, i)
  }

  function UnchangedCount(table: Table, entries: seq<Entry>, gate: bool, k: nat): nat
    requires k <= |entries|
  {
    |UnchangedTo(table, entries, gate, k)|
  }

  function Counted(stats: Stats, table: Table, entries: seq<Entry>, gate: bool): Stats {
    stats.(enriched := stats.enriched + MatchCount(table, entries),
           skipped := stats.skipped + |entries| - MatchCount(table, entries),
           replays := stats.replays + UnchangedCount(table, entries, gate, |entries|))
  }

  // ------------------------------------------------------------ the batch, step by step

  /** The dictionary gives each id its last record. */
  ghost predicate Indexed(lastIndex: map<Id, nat>, entries: seq<Entry>) {
    && (forall id :: id in lastIndex <==> LastIndex(entries, id).Some?)
    && (forall id | id in lastIndex :: LastIndex(entries, id) == Some(lastIndex[id]))
  }

  /** The `last_index` dictionary. */
  method IndexLast(entries: seq<Entry>) returns (lastIndex: map<Id, nat>)
    ensures Indexed(lastIndex, entries)
  {
    lastIndex := map[];
    for i := 0 to |entries|
      invariant forall id :: id in lastIndex <==> LastIndex(entries[..i], id).Some?
      invariant forall id | id in lastIndex :: LastIndex(entries[..i], id) == Some(lastIndex[id])
    {
      assert entries[..i + 1][..i] == entries[..i];
      if entries[i].id != Absent {
        lastIndex := lastIndex[Str(entries[i].id) := i];
      }
    }
    assert entries[..|entries|] == entries;
  }

  type Written = map<nat, (bool, Option<seq<Relation>>)>

  /** What the statement returns for the record at `k`, had it been the last one for its id. */
  function WrittenAt(table: Table, entries: seq<Entry>, gate: bool, relations: bool, k: nat): (bool,
                     Option<seq<Relation>>)
    requires k < |entries| && Matches(table, entries[k])
  {
    var node := table[Str(entries[k].id)];
    (Changed(node, DigestOf(entries[k]), gate), if relations then node.relationsHash else None)
  }

  ghost predicate WrittenTo(written: Written, table: Table, entries: seq<Entry>, gate: bool, relations: bool, k: nat)
    requires k <= |entries|
  {
    && (forall j :: j in written <==> 0 <= j < k && IsLast(entries, j) && Matches(table, entries[j]))
    && (forall j | j in written :: written[j] == WrittenAt(table, entries, gate, relations, j))
  }

  lemma LastIsLast(entries: seq<Entry>, id: Id)
    requires LastIndex(entries, id).Some?
    ensures var j := LastIndex(entries, id).value;
            IsLast(entries, j) && Str(entries[j].id) == id && entries[j].id != Absent
  {}

  /** The table once the last records among the first `k` have been written. */
  function PartTable(table: Table, entries: seq<Entry>, gate: bool, k: nat): (t: Table)
    requires k <= |entries|
    ensures t.Keys == table.Keys
  {
    map id | id in table ::
      var last := LastIndex(entries, id);
      if last.Some? && last.value < k then Rewritten(table[id], entries[last.value], gate) else table[id]
  }

  lemma PartEnds(table: Table, entries: seq<Entry>, gate: bool)
    ensures PartTable(table, entries, gate, 0) == table
    ensures PartTable(table, entries, gate, |entries|) == BatchTable(table, entries, gate)
  {}

  lemma PartStep(table: Table, entries: seq<Entry>, gate: bool, k: nat)
    requires k < |entries|
    ensures var before, after := PartTable(table, entries, gate, k), PartTable(table, entries, gate, k + 1);
            if IsLast(entries, k) && Matches(table, entries[k]) then
              var key := Str(entries[k].id);
              before[key] == table[key] && after == before[key := Rewritten(table[key], entries[k], gate)]
            else after == before
  {
    var before, after := PartTable(table, entries, gate, k), PartTable(table, entries, gate, k + 1);
    forall id | id in table && LastIndex(entries, id) == Some(k)
        ensures IsLast(entries, k) && id == Str(entries[k].id) {
      LastIsLast(entries, id);
    }
  }

  lemma IndexFindsLast(lastIndex: map<Id, nat>, entries: seq<Entry>, i: nat)
    requires Indexed(lastIndex, entries) && i < |entries| && entries[i].id != Absent
    ensures Str(entries[i].id) in lastIndex && (lastIndex[Str(entries[i].id)] == i <==> IsLast(entries, i))
  {
    LastIndexMeans(entries, Str(entries[i].id), i);
  }

  lemma OneMore(before: set<int>, x: int, more: bool, after: set<int>)
    requires after == before + (if more then {x} else {}) && x !in before
    ensures |after| == |before| + if more then 1 else 0
  {}

  lemma UnchangedStep(table: Table, entries: seq<Entry>, written: Written, gate: bool, relations: bool, i: nat)
    requires WrittenTo(written, table, entries, gate, relations, |entries|) && i < |entries|
    ensures UnchangedCount(table, entries, gate, i + 1)
         == UnchangedCount(table, entries, gate, i) + (if i in written && !written[i].0 then 1 else 0)
  {
    UnchangedToMore(table, entries, gate, i);
    WrittenUnchanged(table, entries, written, gate, relations, i);
    OneMore(UnchangedTo(table, entries, gate, i), i, Unchanged(table, entries, gate, i),
            UnchangedTo(table, entries, gate, i + 1));
  }

  lemma UnchangedToMore(table: Table, entries: seq<Entry>, gate: bool, i: nat)
    requires i < |entries|
    ensures i !in UnchangedTo(table, entries, gate, i)
    ensures UnchangedTo(table, entries, gate, i + 1) ==
              UnchangedTo(table, entries, gate, i) + (if Unchanged(table, entries, gate, i) then {i} else {})
  {}

  lemma WrittenUnchanged(table: Table, entries: seq<Entry>, written: Written, gate: bool, relations: bool, i: nat)
    requires WrittenTo(written, table, entries, gate, relations, |entries|) && i < |entries|
    ensures i in written && !written[i].0 <==> Unchanged(table, entries, gate, i)
  {}

  lemma WrittenStep(written: Written, table: Table, entries: seq<Entry>, gate: bool, relations: bool, k: nat)
    requires k < |entries| && WrittenTo(written, table, entries, gate, relations, k)
    ensures WrittenTo(if IsLast(entries, k) && Matches(table, entries[k])
                      then written[k := WrittenAt(table, entries, gate, relations, k)] else written,
                      table, entries, gate, relations, k + 1)
  {}

  /** The one gated statement over the last record of each id, in index order. */
  method WriteLast(table: Table, entries: seq<Entry>, lastIndex: map<Id, nat>, gate: bool, relations: bool)
    returns (after: Table, written: Written)
    requires Indexed(lastIndex, entries)
    ensures after == BatchTable(table, entries, gate)
    ensures WrittenTo(written, table, entries, gate, relations, |entries|)
  {
    after, written := table, map[];
    PartEnds(table, entries, gate);
    for i := 0 to |entries|
      invariant after == PartTable(table, entries, gate, i)
      invariant WrittenTo(written, table, entries, gate, relations, i)
    {
      var e := entries[i];
      PartStep(table, entries, gate, i);
      WrittenStep(written, table, entries, gate, relations, i);
      if e.id != Absent {
        IndexFindsLast(lastIndex, entries, i);
        var key := Str(e.id);
        if lastIndex[key] == i && key in after {
          var node := after[key];
          var changed := Changed(node, DigestOf(e), gate);
          written := written[i := (changed, if relations then node.relationsHash else None)];
          if changed {
            after := after[key := node.(fields := e.fields, hash := Some(DigestOf(e)))];
          }
        }
      }
    }
  }

  /** `sum(not changed for changed, _ in written.values())`. */
  method CountReplays(table: Table, entries: seq<Entry>, written: Written, gate: bool, relations: bool)
    returns (replays: int)
    requires WrittenTo(written, table, entries, gate, relations, |entries|)
    ensures replays == UnchangedCount(table, entries, gate, |entries|)
  {
    replays := 0;
    assert UnchangedTo(table, entries, gate, 0) == {};
    for i := 0 to |entries|
      invariant replays == UnchangedCount(table, entries, gate, i)
    {
      UnchangedStep(table, entries, written, gate, relations, i);
      if i in written && !written[i].0 {
        replays := replays + 1;
      }
    }
  }

  /** `sum(outcome.matched for outcome in outcomes)`. */
  method CountMatched(table: Table, entries: seq<Entry>, outcomes: seq<Outcome>) returns (matched: int)
    requires |outcomes| == |entries|
    requires forall i | 0 <= i < |entries| :: outcomes[i].matched == Matches(table, entries[i])
    ensures matched == MatchCount(table, entries)
  {
    matched := 0;
    for i := 0 to |outcomes|
      invariant matched == MatchCount(table, entries[..i])
    {
      assert entries[..i + 1][..i] == entries[..i];
      if outcomes[i].matched {
        matched := matched + 1;
      }
    }
    assert entries[..|entries|] == entries;
  }

  /** Each record's outcome can be read off what was written for the last record of its id. */
  lemma ReportsOutcome(table: Table, entries: seq<Entry>, lastIndex: map<Id, nat>, written: Written, gate: bool,
                       relations: bool, i: nat)
    requires Indexed(lastIndex, entries) && WrittenTo(written, table, entries, gate, relations, |entries|)
    requires i < |entries|
    ensures entries[i].id == Absent ==> OutcomeOf(table, entries, gate, relations, i) == Outcome(false, false, None)
    ensures entries[i].id != Absent ==>
              && Str(entries[i].id) in lastIndex
              && var last := lastIndex[Str(entries[i].id)];
                 OutcomeOf(table, entries, gate, relations, i) ==
                   if last in written then Outcome(true, written[last].0 && i == last, written[last].1)
                   else Outcome(false, false, None)
  {
    if entries[i].id != Absent {
      LastIndexMeans(entries, Str(entries[i].id), i);
      LastIsLast(entries, Str(entries[i].id));
    }
  }

  method Report(table: Table, entries: seq<Entry>, lastIndex: map<Id, nat>, written: Written, gate: bool,
                relations: bool)
    returns (outcomes: seq<Outcome>)
    requires Indexed(lastIndex, entries)
    requires WrittenTo(written, table, entries, gate, relations, |entries|)
    ensures |outcomes| == |entries|
    ensures forall i | 0 <= i < |entries| :: outcomes[i] == OutcomeOf(table, entries, gate, relations, i)
  {
    outcomes := [];
    for i := 0 to |entries|
      invariant |outcomes| == i
      invariant forall k | 0 <= k < i :: outcomes[k] == OutcomeOf(table, entries, gate, relations, k)
    {
      var e := entries[i];
      ReportsOutcome(table, entries, lastIndex, written, gate, relations, i);
      if e.id == Absent || lastIndex[Str(e.id)] !in written {
        outcomes := outcomes + [Outcome(false, false, None)];
      } else {
        var representative := lastIndex[Str(e.id)];
        var (changed, stored) := written[representative];
        outcomes := outcomes + [Outcome(true, changed && i == representative, stored)];
      }
    }
  }

  method RunEntityBatch(table: Table, entries: seq<Entry>, gate: bool, relations: bool, stats: Stats)
    returns (after: Table, outcomes: seq<Outcome>, counted: Stats)
    ensures after == BatchTable(table, entries, gate)
    ensures |outcomes| == |entries|
    ensures forall i | 0 <= i < |entries| :: outcomes[i] == OutcomeOf(table, entries, gate, relations, i)
    ensures counted == Counted(stats, table, entries, gate)
  {
    var lastIndex := IndexLast(entries);
    var written: Written;
    after, written := WriteLast(table, entries, lastIndex, gate, relations);
    outcomes := Report(table, entries, lastIndex, written, gate, relations);
    var matched := CountMatched(table, entries, outcomes);
    var replays := CountReplays(table, entries, written, gate, relations);
    counted := stats.(enriched := stats.enriched + matched,
                      skipped := stats.skipped + |outcomes| - matched,
                      replays := stats.replays + replays);
  }

  // ------------------------------------------------------------ the last record wins

  /** A stored digest tells the node's fields. */
  ghost predicate Consistent(table: Table) {
    forall id | id in table && table[id].hash.Some? :: table[id].fields == table[id].hash.value.fields
  }

  /** No later record of the list names the node this one names. */
  ghost predicate StandsLast(entries: seq<Entry>, i: nat)
    requires i < |entries|
  {
    entries[i].id != Absent
    && forall j | i < j < |entries| && entries[j].id != Absent :: Str(entries[j].id) != Str(entries[i].id)
  }

  lemma IsLastMeans(entries: seq<Entry>, i: nat)
    requires i < |entries|
    ensures IsLast(entries, i) <==> StandsLast(entries, i)
  {
    if entries[i].id != Absent {
      var id := Str(entries[i].id);
      LastIndexMeans(entries, id, i);
      var last := LastIndex(entries, id).value;
      forall j | i < j < |entries| && Names(entries[j], id) ensures last > i { LastIndexMeans(entries, id, j); }
    }
  }

  /** A node whose fields and digest are these; the digest carries the fields and whatever else it covers. */
  ghost predicate Holds(node: Node, fields: Fields, extra: Extra) {
    node.fields == fields && node.hash == Some(Digest(fields, extra))
  }

  /** What one batch leaves on the nodes: each holds its last record's payload, and the others are as they were. */
  lemma BatchLeavesLast(table: Table, entries: seq<Entry>, gate: bool, id: Id)
    requires id in table && (gate ==> Consistent(table))
    ensures forall i | 0 <= i < |entries| && StandsLast(entries, i) && Str(entries[i].id) == id ::
              Holds(BatchTable(table, entries, gate)[id], entries[i].fields, entries[i].extra)
    ensures (forall i | 0 <= i < |entries| && entries[i].id != Absent :: Str(entries[i].id) != id) ==>
              BatchTable(table, entries, gate)[id] == table[id]
  {
    forall i | 0 <= i < |entries| && StandsLast(entries, i) && Str(entries[i].id) == id
      ensures Holds(BatchTable(table, entries, gate)[id], entries[i].fields, entries[i].extra)
    {
      IsLastMeans(entries, i);
    }
  }

  /** The records that find their node. */
  ghost function MatchedAt(table: Table, entries: seq<Entry>): set<int> {
    set i | 0 <= i < |entries| && entries[i].id != Absent && Str(entries[i].id) in table
  }

  lemma MatchedMore(table: Table, entries: seq<Entry>, n: nat)
    requires |entries| == n + 1
    ensures var before := MatchedAt(table, entries[..n]);
            MatchedAt(table, entries) == before + (if Matches(table, entries[n]) then {n} else {}) && n !in before
  {
    assert forall i | 0 <= i < n :: entries[..n][i] == entries[i];
  }

  /** The record is the last for its node, and the node's digest is its payload's already. */
  ghost predicate Repeats(table: Table, entries: seq<Entry>, gate: bool, i: nat)
    requires i < |entries|
  {
    && StandsLast(entries, i) && gate && Str(entries[i].id) in table
    && table[Str(entries[i].id)].hash == Some(Digest(entries[i].fields, entries[i].extra))
  }

  ghost function UnchangedAt(table: Table, entries: seq<Entry>, gate: bool, k: nat): set<int>
    requires k <= |entries|
  {
    set i | 0 <= i < k && Repeats(table, entries, gate, i)
  }

  lemma {:induction false} MatchCountCounts(table: Table, entries: seq<Entry>)
    ensures MatchCount(table, entries) == |MatchedAt(table, entries)|
  {
    if entries == [] {
      assert MatchedAt(table, entries) == {};
    } else {
      var n := |entries| - 1;
      MatchCountCounts(table, entries[..n]);
      MatchedMore(table, entries, n);
    }
  }

  lemma UnchangedMeans(table: Table, entries: seq<Entry>, gate: bool)
    ensures UnchangedTo(table, entries, gate, |entries|) == UnchangedAt(table, entries, gate, |entries|)
  {
    forall i | 0 <= i < |entries| ensures Unchanged(table, entries, gate, i) <==> Repeats(table, entries, gate, i) {
      IsLastMeans(entries, i);
    }
  }

  /** A batch counts every record that finds its node, every one that does not, and every unchanged last one. */
  lemma BatchCounts(stats: Stats, table: Table, entries: seq<Entry>, gate: bool)
    ensures var counted := Counted(stats, table, entries, gate);
            && counted.enriched == stats.enriched + |MatchedAt(table, entries)|
            && counted.enriched + counted.skipped == stats.enriched + stats.skipped + |entries|
            && counted.replays == stats.replays + |UnchangedAt(table, entries, gate, |entries|)|
            && counted.created == stats.created && counted.updated == stats.updated
            && counted.missing == stats.missing
  {
    MatchCountCounts(table, entries);
    UnchangedMeans(table, entries, gate);
  }

  /** Delivered again, a payload that its node holds writes nothing and counts as one replay. */
  lemma SecondDeliveryReplays(table: Table, e: Entry, stats: Stats)
    requires Consistent(table) && e.id != Absent && Str(e.id) in table
    ensures var after := DeliverOne(table, e, true);
            && DeliverOne(after, e, true) == after
            && CountOne(stats, after, e, true) ==
               stats.(enriched := stats.enriched + 1, replays := stats.replays + 1)
            && CountOne(stats, table, e, false) == stats.(enriched := stats.enriched + 1)
  {
    RewrittenSettles(table[Str(e.id)], e, true);
  }

  lemma RewrittenSettles(node: Node, e: Entry, gate: bool)
    requires node.hash.Some? ==> node.fields == node.hash.value.fields
    ensures Rewritten(node, e, gate) == Settled(node, e)
  {}

  lemma {:induction false} InOrderLeavesLast(table: Table, entries: seq<Entry>, gate: bool)
    requires Consistent(table)
    ensures var after := DeliverInOrder(table, entries, gate);
            && after.Keys == table.Keys && Consistent(after)
            && forall id | id in table :: after[id] ==
                 var last := LastIndex(entries, id);
                 if last.Some? then Settled(table[id], entries[last.value]) else table[id]
  {
    if entries != [] {
      var front, last := entries[..|entries| - 1], entries[|entries| - 1];
      InOrderLeavesLast(table, front, gate);
      DeliveredOne(DeliverInOrder(table, front, gate), last, gate);
    }
  }

  /** One delivery settles the node it names and leaves the others. */
  lemma DeliveredOne(table: Table, e: Entry, gate: bool)
    requires Consistent(table)
    ensures var after := DeliverOne(table, e, gate);
            && after.Keys == table.Keys && Consistent(after)
            && forall id | id in table :: after[id] == if Names(e, id) then Settled(table[id], e) else table[id]
  {
    if Matches(table, e) { RewrittenSettles(table[Str(e.id)], e, gate); }
  }

  /**
   For any batch, repeated ids or not, the nodes end as gated one-at-a-time delivery leaves them:
   same mapped fields, same digest. The set of matched ids never moves, so neither do matched flags.
   */
  lemma LastRecordWins(table: Table, entries: seq<Entry>, gate: bool)
    requires Consistent(table)
    ensures BatchTable(table, entries, gate) == DeliverInOrder(table, entries, gate)
    ensures Consistent(BatchTable(table, entries, gate))
    ensures forall i | 0 <= i < |entries| ::
              Matches(DeliverInOrder(table, entries[..i], gate), entries[i]) <==>
                  OutcomeOf(table, entries, gate, false, i).matched
  {
    InOrderLeavesLast(table, entries, gate);
    forall i | 0 <= i < |entries|
      ensures Matches(DeliverInOrder(table, entries[..i], gate), entries[i]) <==>
              OutcomeOf(table, entries, gate, false, i).matched
    {
      InOrderLeavesLast(table, entries[..i], gate);
    }
  }
}
