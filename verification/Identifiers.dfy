/** Node ids, their normal form, and the one order in which shared vocabulary is visited. */
module Identifiers {
  type Id = string

  datatype Option<+T> = None | Some(value: T)

  /** A Discogs id as an event carries it: missing, a JSON number, or a JSON string. */
  datatype RawId = Absent | Number(n: int) | Text(s: string)

  function Digits(n: nat): string {
    var last := [('0' as int + n % 10) as char];
    if n < 10 then last else Digits(n / 10) + last
  }

  /** The string form every graph node is keyed on; a missing id reads "None". */
  function Str(id: RawId): Id {
    match id
    case Absent => "None"
    case Number(n) => if n < 0 then "-" + Digits(-n) else Digits(n)
    case Text(s) => s
  }

  /** The number that decimal digits read as. */
  function Reads(s: string): int {
    if s == "" then 0 else 10 * Reads(s[..|s| - 1]) + (s[|s| - 1] as int - '0' as int)
  }

  predicate AllDigits(s: string) { forall i | 0 <= i < |s| :: '0' <= s[i] <= '9' }

  /** The digits of a number are its decimal numeral, without a leading zero. */
  lemma {:induction false} DigitsRead(n: nat)
    ensures var s := Digits(n);
            s != "" && AllDigits(s) && Reads(s) == n && (s[0] == '0' <==> n == 0) && (n == 0 ==> s == "0")
  {
    if n >= 10 {
      DigitsRead(n / 10);
      assert Digits(n)[..|Digits(n)| - 1] == Digits(n / 10);
    } else {
      assert Digits(n)[..0] == "";
    }
  }

  /** A number keys the node its decimal numeral keys, so different numbers key different nodes. */
  lemma NumbersKeyApart(m: int, n: int)
    ensures n >= 0 ==> AllDigits(Str(Number(n))) && Reads(Str(Number(n))) == n
    ensures n < 0 ==> Str(Number(n)) == "-" + Str(Number(-n))
    ensures Str(Number(m)) == Str(Number(n)) ==> m == n
    ensures Str(Text(Str(Number(n)))) == Str(Number(n)) != Str(Absent)
  {
    DigitsRead(if m < 0 then -m else m);
    DigitsRead(if n < 0 then -n else n);
    var a, b := Str(Number(m)), Str(Number(n));
    assert m < 0 ==> a[0] == '-' && a[1..] == Digits(-m);
    assert n < 0 ==> b[0] == '-' && b[1..] == Digits(-n);
  }

  // ---------------------------------------------------------------- order

  /** Strict code-point order on strings. */
  predicate Precedes(a: string, b: string) {
    if b == "" then false
    else if a == "" then true
    else a[0] < b[0] || (a[0] == b[0] && Precedes(a[1..], b[1..]))
  }

  /** The strings part at `k`, where the first ends or has the smaller character. */
  ghost predicate PartsAt(a: string, b: string, k: nat) {
    k <= |a| && k < |b| && a[..k] == b[..k] && (k == |a| || a[k] < b[k])
  }

  lemma {:induction false} PartedPrecedes(a: string, b: string, k: nat)
    requires PartsAt(a, b, k)
    ensures Precedes(a, b)
  {
    if k > 0 {
      assert a[..k][0] == a[0] && b[..k][0] == b[0];
      assert a[1..][..k - 1] == a[..k][1..] && b[1..][..k - 1] == b[..k][1..];
      PartedPrecedes(a[1..], b[1..], k - 1);
    }
  }

  /** One string precedes another exactly when it is a proper prefix or smaller where they first differ. */
  lemma {:induction false} PrecedesMeans(a: string, b: string)
    ensures Precedes(a, b) <==> exists k: nat :: PartsAt(a, b, k)
  {
    if k: nat :| PartsAt(a, b, k) { PartedPrecedes(a, b, k); }
    if Precedes(a, b) {
      if a == "" || a[0] < b[0] {
        assert PartsAt(a, b, 0);
      } else {
        PrecedesMeans(a[1..], b[1..]);
        var k: nat :| PartsAt(a[1..], b[1..], k);
        assert a[..k + 1] == [a[0]] + a[1..][..k] && b[..k + 1] == [b[0]] + b[1..][..k];
        assert PartsAt(a, b, k + 1);
      }
    }
  }

  lemma {:induction false} PrecedesIrreflexive(a: string)
    ensures !Precedes(a, a)
  {
    if a != "" { PrecedesIrreflexive(a[1..]); }
  }

  lemma {:induction false} PrecedesTransitive(a: string, b: string, c: string)
    requires Precedes(a, b) && Precedes(b, c)
    ensures Precedes(a, c)
  {
    if a != "" && a[0] == b[0] && b[0] == c[0] {
      PrecedesTransitive(a[1..], b[1..], c[1..]);
    }
  }

  lemma {:induction false} PrecedesTotal(a: string, b: string)
    ensures a == b || Precedes(a, b) || Precedes(b, a)
  {
    if a != "" && b != "" && a[0] == b[0] {
      PrecedesTotal(a[1..], b[1..]);
      assert a == [a[0]] + a[1..] && b == [b[0]] + b[1..];
    }
  }

  ghost predicate Increasing(s: seq<Id>) {
    forall i, j | 0 <= i < j < |s| :: Precedes(s[i], s[j])
  }

  /** Adds one id to a sorted list, keeping a single copy. */
  function Insert(s: seq<Id>, x: Id): (r: seq<Id>)
    requires Increasing(s)
    ensures Increasing(r)
    ensures forall y :: y in r <==> y == x || y in s
  {
    if s == [] then [x]
    else if x == s[0] then s
    else if Precedes(x, s[0]) then
      assert forall j | 0 <= j < |s| :: Precedes(x, s[j]) by {
        forall j | 0 < j < |s| ensures Precedes(x, s[j]) { PrecedesTransitive(x, s[0], s[j]); }
      }
      [x] + s
    else
      PrecedesTotal(x, s[0]);
      var rest := Insert(s[1..], x);
      assert forall y | y in rest :: Precedes(s[0], y);
      [s[0]] + rest
  }

  /** `sorted(set(ids))`. */
  function SortIds(ids: seq<Id>): (r: seq<Id>)
    ensures Increasing(r)
    ensures forall y :: y in r <==> y in ids
  {
    if ids == [] then [] else Insert(SortIds(ids[1..]), ids[0])
  }

  /** A set in sorted order. */
  ghost function SortedSet(ids: set<Id>): (r: seq<Id>)
    ensures Increasing(r)
    ensures forall y :: y in r <==> y in ids
  {
    if ids == {} then [] else
      var x :| x in ids;
      Insert(SortedSet(ids - {x}), x)
  }

  /** A set has one sorted listing, so the lock order cannot depend on arrival order. */
  lemma {:induction false} IncreasingUnique(a: seq<Id>, b: seq<Id>)
    requires Increasing(a) && Increasing(b)
    requires forall y :: y in a <==> y in b
    ensures a == b
  {
    assert a != [] ==> a[0] in b;
    assert b != [] ==> b[0] in a;
    if a != [] {
      assert a[0] in b && b[0] in a;
      if a[0] != b[0] {
        var i :| 0 <= i < |b| && b[i] == a[0];
        var j :| 0 <= j < |a| && a[j] == b[0];
        PrecedesTransitive(a[0], b[0], a[0]);
        PrecedesIrreflexive(a[0]);
        assert false;
      }
      forall y ensures y in a[1..] <==> y in b[1..] {
        PrecedesIrreflexive(a[0]);
        if y in a[1..] { assert y in a && y != a[0] && y in b; }
        if y in b[1..] { assert y in b && y != b[0] && y in a; }
      }
      IncreasingUnique(a[1..], b[1..]);
      assert a == [a[0]] + a[1..] && b == [b[0]] + b[1..];
    }
  }
}
