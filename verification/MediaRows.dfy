/** Collapsing a release's media items into one edge row per canonical medium. */
module MediaRows {
  import opened Identifiers

  type Vocabulary = map<Id, string>

  /** The vocabulary's label, or the id itself when the vocabulary lacks the medium. */
  function MediumLabel(v: Vocabulary, medium: Id): string {
    if medium in v then v[medium] else medium
  }

  /** A quantity as the event carries it; anything but an integer is `NotACount`. */
  datatype Quantity = Count(n: int) | NotACount

  /** One entry of the block's `items`; `None` stands for a missing or non-string field. */
  datatype Item = NotAMapping | Item(medium: Option<Id>, family: Option<Id>, qty: Quantity)

  /** A media block: its items and its family summary, which a library function derives. */
  datatype Media = Media(items: seq<Item>, families: seq<Id>)

  datatype Row = Row(medium: Id, family: Id, caption: string, qty: int)

  predicate Names(item: Item) {
    item.Item? && item.medium.Some? && item.family.Some?
  }

  predicate NamesMedium(item: Item, medium: Id) {
    Names(item) && item.medium.value == medium
  }

  /** Every medium counts at least once, whatever the event says. */
  function Normalised(q: Quantity): (n: int)
    ensures n >= 1
  {
    if q.Count? && q.n >= 1 then q.n else 1
  }

  /** `len([item for item in items if isinstance(item, dict)])`. */
  function MappingCount(items: seq<Item>): nat {
    if items == [] then 0
    else MappingCount(items[..|items| - 1]) + (if items[|items| - 1].Item? then 1 else 0)
  }

  // ------------------------------------------------------- what the rows mean

  /** The distinct mediums that items name, in first-seen order. */
  function FirstSeen(items: seq<Item>): (r: seq<Id>)
    ensures forall i, j | 0 <= i < j < |r| :: r[i] != r[j]
    ensures forall m :: m in r <==> exists i | 0 <= i < |items| :: NamesMedium(items[i], m)
  {
    if items == [] then []
    else
      var last := items[|items| - 1];
      var seen := FirstSeen(items[..|items| - 1]);
      assert items == items[..|items| - 1] + [last];
      if Names(last) && last.medium.value !in seen then seen + [last.medium.value] else seen
  }

  /** How many of a medium the items hold altogether. */
  function Total(items: seq<Item>, medium: Id): int {
    if items == [] then 0
    else
      var last := items[|items| - 1];
      Total(items[..|items| - 1], medium) + (if NamesMedium(last, medium) then Normalised(last.qty) else 0)
  }

  /** How many media of any kind the items that name one hold. */
  function GrandTotal(items: seq<Item>): int {
    if items == [] then 0
    else
      var last := items[|items| - 1];
      GrandTotal(items[..|items| - 1]) + (if Names(last) then Normalised(last.qty) else 0)
  }

  /** The family under which a medium was first named. */
  function FirstFamily(items: seq<Item>, medium: Id): Id
    requires medium in FirstSeen(items)
  {
    var last := items[|items| - 1];
    if medium in FirstSeen(items[..|items| - 1]) then FirstFamily(items[..|items| - 1], medium)
    else last.family.value
  }

  function RowFor(v: Vocabulary, items: seq<Item>, medium: Id): Row
    requires medium in FirstSeen(items)
  {
    Row(medium, FirstFamily(items, medium), MediumLabel(v, medium), Total(items, medium))
  }

  /** One row per medium, in first-seen order. */
  function EdgeRows(v: Vocabulary, items: seq<Item>): (rows: seq<Row>)
    ensures |rows| == |FirstSeen(items)|
    ensures forall i | 0 <= i < |rows| :: rows[i] == RowFor(v, items, FirstSeen(items)[i])
  {
    var order := FirstSeen(items);
    seq(|order|, i requires 0 <= i < |order| => RowFor(v, items, order[i]))
  }

  /** Where the mappings stand among the items. */
  function Mappings(items: seq<Item>): set<int> { set i | 0 <= i < |items| && items[i].Item? }

  lemma {:induction false} MappingCountCounts(items: seq<Item>)
    ensures MappingCount(items) == |Mappings(items)|
  {
    if items == [] {
      assert Mappings(items) == {};
    } else {
      var n := |items| - 1;
      MappingCountCounts(items[..n]);
      assert Mappings(items) == Mappings(items[..n]) + (if items[n].Item? then {n} else {});
    }
  }

  lemma {:induction false} TotalsAdd(a: seq<Item>, b: seq<Item>, medium: Id)
    ensures Total(a + b, medium) == Total(a, medium) + Total(b, medium)
  {
    if b == [] {
      assert a + b == a;
    } else {
      assert (a + b)[..|a + b| - 1] == a + b[..|b| - 1];
      TotalsAdd(a, b[..|b| - 1], medium);
    }
  }

  /** An item stands for the quantity it states when that is a whole number of at least one, else for one. */
  lemma SingleItemRow(v: Vocabulary, medium: Id, family: Id, qty: Quantity)
    ensures EdgeRows(v, [Item(Some(medium), Some(family), qty)]) ==
              [Row(medium, family, if medium in v then v[medium] else medium,
                   match qty case Count(n) => (if n < 1 then 1 else n) case NotACount => 1)]
  {
    var items := [Item(Some(medium), Some(family), qty)];
    assert items[..0] == [];
    assert FirstSeen(items[..0]) == [];
    assert FirstSeen(items) == [medium];
    assert Total(items[..0], medium) == 0;
    assert EdgeRows(v, items)[0] == RowFor(v, items, medium);
  }

  /** The first item that names the medium. */
  predicate FirstNamed(items: seq<Item>, medium: Id, i: nat) {
    i < |items| && NamesMedium(items[i], medium) && forall j | 0 <= j < i :: !NamesMedium(items[j], medium)
  }

  lemma {:induction false} FirstFamilyIsFirst(items: seq<Item>, medium: Id, i: nat)
    requires FirstNamed(items, medium, i)
    ensures medium in FirstSeen(items) && FirstFamily(items, medium) == items[i].family.value
  {
    var n := |items| - 1;
    if i < n {
      assert items[..n][i] == items[i];
      FirstFamilyIsFirst(items[..n], medium, i);
    } else {
      assert forall j | 0 <= j < n :: items[..n][j] == items[j];
    }
  }

  lemma {:induction false} FirstSeenInOrder(items: seq<Item>, p: nat, q: nat, i: nat, j: nat)
    requires p < q < |FirstSeen(items)|
    requires FirstNamed(items, FirstSeen(items)[p], i) && FirstNamed(items, FirstSeen(items)[q], j)
    ensures i < j
  {
    var n := |items| - 1;
    var order, before := FirstSeen(items), FirstSeen(items[..n]);
    assert forall k | 0 <= k < n :: items[..n][k] == items[k];
    assert order[p] == before[p] && order[p] in before;
    var k :| 0 <= k < n && NamesMedium(items[..n][k], order[p]);
    assert i <= k;
    if q < |before| {
      assert order[q] in before;
      var k' :| 0 <= k' < n && NamesMedium(items[..n][k'], order[q]);
      assert j <= k';
      FirstSeenInOrder(items[..n], p, q, i, j);
    }
  }

  /** Rows come in the order in which their mediums were first named, each under the family named there. */
  lemma RowsFollowItems(v: Vocabulary, items: seq<Item>, p: nat, q: nat, i: nat, j: nat)
    requires p <= q < |EdgeRows(v, items)|
    requires FirstNamed(items, EdgeRows(v, items)[p].medium, i) && FirstNamed(items, EdgeRows(v, items)[q].medium, j)
    ensures EdgeRows(v, items)[p].family == items[i].family.value
    ensures if p < q then i < j else i == j
  {
    FirstFamilyIsFirst(items, FirstSeen(items)[p], i);
    if p < q {
      FirstSeenInOrder(items, p, q, i, j);
    }
  }

  // ------------------------------------------------------- the dictionary loop

  /** The dictionary after some items, and the order its keys came in. */
  ghost predicate Collected(v: Vocabulary, items: seq<Item>, order: seq<Id>, rows: map<Id, Row>) {
    && order == FirstSeen(items)
    && (forall m :: m in rows <==> m in order)
    && (forall m | m in order :: rows[m] == RowFor(v, items, m))
  }

  lemma CollectedSkip(v: Vocabulary, items: seq<Item>, item: Item, order: seq<Id>, rows: map<Id, Row>)
    requires Collected(v, items, order, rows) && !Names(item)
    ensures Collected(v, items + [item], order, rows)
  {
    assert (items + [item])[..|items|] == items;
  }

  lemma CollectedMore(v: Vocabulary, items: seq<Item>, item: Item, order: seq<Id>, rows: map<Id, Row>)
    requires Collected(v, items, order, rows) && Names(item) && item.medium.value in rows
    ensures var medium := item.medium.value;
            Collected(v, items + [item], order,
                      rows[medium := rows[medium].(qty := rows[medium].qty + Normalised(item.qty))])
  {
    assert (items + [item])[..|items|] == items;
  }

  lemma CollectedNew(v: Vocabulary, items: seq<Item>, item: Item, order: seq<Id>, rows: map<Id, Row>)
    requires Collected(v, items, order, rows) && Names(item) && item.medium.value !in rows
    ensures var medium := item.medium.value;
            Collected(v, items + [item], order + [medium],
                      rows[medium := Row(medium, item.family.value, MediumLabel(v, medium), Normalised(item.qty))])
  {
    assert (items + [item])[..|items|] == items;
    TotalOfUnseen(items);
  }

  method CollectEdgeRows(v: Vocabulary, items: seq<Item>) returns (result: seq<Row>)
    ensures result == EdgeRows(v, items)
  {
    var order: seq<Id> := [];
    var rows: map<Id, Row> := map[];
    for i := 0 to |items|
      invariant Collected(v, items[..i], order, rows)
    {
      var item := items[i];
      assert items[..i + 1] == items[..i] + [item];
      if item.Item? && item.medium.Some? && item.family.Some? {
        var medium, family := item.medium.value, item.family.value;
        var quantity := if item.qty.Count? && item.qty.n >= 1 then item.qty.n else 1;
        if medium !in rows {
          CollectedNew(v, items[..i], item, order, rows);
          order := order + [medium];
          rows := rows[medium := Row(medium, family, MediumLabel(v, medium), quantity)];
        } else {
          CollectedMore(v, items[..i], item, order, rows);
          rows := rows[medium := rows[medium].(qty := rows[medium].qty + quantity)];
        }
      } else {
        CollectedSkip(v, items[..i], item, order, rows);
      }
    }
    assert items[..|items|] == items;
    result := seq(|order|, i requires 0 <= i < |order| => rows[order[i]]);
  }

  lemma {:induction false} TotalOfUnseen(items: seq<Item>)
    ensures forall m | m !in FirstSeen(items) :: Total(items, m) == 0
  {
    if items != [] {
      TotalOfUnseen(items[..|items| - 1]);
    }
  }

  // ------------------------------------------------------- quantity is conserved

  function SumTotals(order: seq<Id>, items: seq<Item>): int {
    if order == [] then 0
    else SumTotals(order[..|order| - 1], items) + Total(items, order[|order| - 1])
  }

  function SumQuantities(rows: seq<Row>): int {
    if rows == [] then 0 else SumQuantities(rows[..|rows| - 1]) + rows[|rows| - 1].qty
  }

  /** One more item raises the sum by its quantity exactly when its medium is in the (distinct) list. */
  lemma {:induction false} SumTotalsStep(order: seq<Id>, items: seq<Item>, last: Item)
    requires forall i, j | 0 <= i < j < |order| :: order[i] != order[j]
    ensures SumTotals(order, items + [last])
         == SumTotals(order, items) + if Names(last) && last.medium.value in order then Normalised(last.qty) else 0
  {
    assert (items + [last])[..|items|] == items;
    if order != [] {
      var front := order[..|order| - 1];
      assert order == front + [order[|order| - 1]];
      SumTotalsStep(front, items, last);
    }
  }

  lemma {:induction false} SumTotalsIsGrandTotal(items: seq<Item>)
    ensures SumTotals(FirstSeen(items), items) == GrandTotal(items)
  {
    if items != [] {
      var front, last := items[..|items| - 1], items[|items| - 1];
      assert items == front + [last];
      SumTotalsIsGrandTotal(front);
      SumTotalsStep(FirstSeen(front), front, last);
      if FirstSeen(items) != FirstSeen(front) {
        TotalOfUnseen(front);
        assert FirstSeen(items)[..|FirstSeen(front)|] == FirstSeen(front);
      }
    }
  }

  lemma {:induction false} SumOfPrefix(v: Vocabulary, items: seq<Item>, k: nat)
    requires k <= |EdgeRows(v, items)|
    ensures SumQuantities(EdgeRows(v, items)[..k]) == SumTotals(FirstSeen(items)[..k], items)
  {
    var rows, order := EdgeRows(v, items), FirstSeen(items);
    if k > 0 {
      SumOfPrefix(v, items, k - 1);
      assert rows[..k][..k - 1] == rows[..k - 1];
      assert order[..k][..k - 1] == order[..k - 1];
    }
  }

  /** The rows hold exactly the media the valid items hold. */
  lemma RowsConserveQuantity(v: Vocabulary, items: seq<Item>)
    ensures SumQuantities(EdgeRows(v, items)) == GrandTotal(items)
  {
    var n := |EdgeRows(v, items)|;
    assert EdgeRows(v, items)[..n] == EdgeRows(v, items);
    assert FirstSeen(items)[..n] == FirstSeen(items);
    SumOfPrefix(v, items, n);
    SumTotalsIsGrandTotal(items);
  }

  // ------------------------------------------------------- item order does not matter

  lemma {:induction false} TotalWithout(items: seq<Item>, k: nat, medium: Id)
    requires k < |items|
    ensures Total(items, medium)
         == Total(items[..k] + items[k + 1..], medium) + if NamesMedium(items[k], medium) then Normalised(items[k].qty)
             else 0
  {
    var n := |items| - 1;
    var rest := items[..k] + items[k + 1..];
    if k == n {
      assert rest == items[..n];
    } else {
      TotalWithout(items[..n], k, medium);
      assert items[..n][..k] + items[..n][k + 1..] == rest[..|rest| - 1];
    }
  }

  lemma {:induction false} TotalOfPermutation(a: seq<Item>, b: seq<Item>, medium: Id)
    requires multiset(a) == multiset(b)
    ensures Total(a, medium) == Total(b, medium)
  {
    assert |a| == |multiset(a)| == |multiset(b)| == |b|;
    if a != [] {
      var n := |a| - 1;
      assert a == a[..n] + [a[n]];
      assert a[n] in multiset(b);
      var k :| 0 <= k < |b| && b[k] == a[n];
      assert b == b[..k] + [b[k]] + b[k + 1..];
      assert multiset(a) == multiset(a[..n]) + multiset{a[n]};
      assert multiset(b) == multiset(b[..k] + b[k + 1..]) + multiset{b[k]};
      assert multiset(a[..n]) == multiset(a) - multiset{a[n]};
      assert multiset(b[..k] + b[k + 1..]) == multiset(b) - multiset{a[n]};
      TotalOfPermutation(a[..n], b[..k] + b[k + 1..], medium);
      TotalWithout(b, k, medium);
    }
  }

  /** Items file each medium under the one family `fam` names. */
  ghost predicate Filed(fam: Id -> Id, items: seq<Item>) {
    forall i | 0 <= i < |items| && Names(items[i]) :: items[i].family.value == fam(items[i].medium.value)
  }

  lemma {:induction false} FirstFamilyIsFiled(fam: Id -> Id, items: seq<Item>, medium: Id)
    requires Filed(fam, items) && medium in FirstSeen(items)
    ensures FirstFamily(items, medium) == fam(medium)
  {
    if medium in FirstSeen(items[..|items| - 1]) {
      FirstFamilyIsFiled(fam, items[..|items| - 1], medium);
    } else {
      assert items == items[..|items| - 1] + [items[|items| - 1]];
    }
  }

  /** When one medium names one family, reordering the items only reorders the rows. */
  lemma ReorderingKeepsRows(v: Vocabulary, fam: Id -> Id, a: seq<Item>, b: seq<Item>, row: Row)
    requires multiset(a) == multiset(b) && Filed(fam, a)
    requires row in EdgeRows(v, a)
    ensures row in EdgeRows(v, b)
  {
    var i :| 0 <= i < |EdgeRows(v, a)| && EdgeRows(v, a)[i] == row;
    var m := FirstSeen(a)[i];
    var k :| 0 <= k < |a| && NamesMedium(a[k], m);
    assert a[k] in multiset(b);
    var k' :| 0 <= k' < |b| && b[k'] == a[k];
    assert m in FirstSeen(b);
    forall j | 0 <= j < |b| && Names(b[j])
      ensures b[j].family.value == fam(b[j].medium.value)
    {
      assert b[j] in multiset(a);
    }
    FirstFamilyIsFiled(fam, a, m);
    FirstFamilyIsFiled(fam, b, m);
    TotalOfPermutation(a, b, m);
    var j :| 0 <= j < |FirstSeen(b)| && FirstSeen(b)[j] == m;
    assert EdgeRows(v, b)[j] == row;
  }
}
