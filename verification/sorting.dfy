/**
 Sorting one partition's rows by several keys, each ascending or descending,
 nulls always last (minispark/physical/operators.py, `_sort_rows`,
 `_null_last_sort_key`, `_composite_sort_key`).

 Three forms are related here: StableSort, the specification (one stable sort);
 SortRows, the repeated stable passes, last key first; and the composite key the
 external merge compares by.
 */
module Sorting {
  import opened Values
  import opened Expressions

  datatype SortKey = SortKey(expr: Expr, ascending: bool)

  /** A row tagged with the order in which it arrived. */
  datatype Tagged = Tagged(arrival: nat, rec: Record)

  // ---- the specification ---------------------------------------------------

  /** Must a come before b under this one key?  Nulls last in both directions. */
  predicate KeyBefore(k: SortKey, a: Record, b: Record) {
    var va, vb := Eval(k.expr, a), Eval(k.expr, b);
    if va.Null? || vb.Null? then !va.Null? && vb.Null?
    else if k.ascending then ValueLt(va, vb)
    else ValueLt(vb, va)
  }

  predicate KeyTied(k: SortKey, a: Record, b: Record) {
    Eval(k.expr, a) == Eval(k.expr, b)
  }

  /** The lexicographic order of the whole key list. */
  predicate Before(ks: seq<SortKey>, a: Record, b: Record) {
    ks != [] && (KeyBefore(ks[0], a, b) || (KeyTied(ks[0], a, b) && Before(ks[1..], a, b)))
  }

  predicate Tied(ks: seq<SortKey>, a: Record, b: Record) {
    ks == [] || (KeyTied(ks[0], a, b) && Tied(ks[1..], a, b))
  }

  /** Puts x, which arrived before everything in `sorted`, in its place. */
  function InsertStable(ks: seq<SortKey>, x: Record, sorted: seq<Record>): seq<Record> {
    if sorted == [] || !Before(ks, sorted[0], x) then [x] + sorted
    else [sorted[0]] + InsertStable(ks, x, sorted[1..])
  }

  /** The stable sort of the rows by the key list. */
  function StableSort(ks: seq<SortKey>, rows: seq<Record>): seq<Record> {
    if rows == [] then [] else InsertStable(ks, rows[0], StableSort(ks, rows[1..]))
  }

  /** Key order with arrival order as the last key. */
  predicate CompositeBefore(ks: seq<SortKey>, x: Tagged, y: Tagged) {
    Before(ks, x.rec, y.rec) || (Tied(ks, x.rec, y.rec) && x.arrival < y.arrival)
  }

  ghost predicate Sorted(ks: seq<SortKey>, s: seq<Tagged>) {
    forall i, j :: 0 <= i < j < |s| ==> CompositeBefore(ks, s[i], s[j])
  }

  function Records(s: seq<Tagged>): (r: seq<Record>)
    ensures |r| == |s|
    ensures forall i :: 0 <= i < |s| ==> r[i] == s[i].rec
  {
    seq(|s|, i requires 0 <= i < |s| => s[i].rec)
  }

  /** Rows numbered from `start` in arrival order (itertools.count). */
  function Tag(rows: seq<Record>, start: nat): (s: seq<Tagged>)
    ensures |s| == |rows|
    ensures forall i :: 0 <= i < |rows| ==> s[i] == Tagged(start + i, rows[i])
  {
    seq(|rows|, i requires 0 <= i < |rows| => Tagged(start + i, rows[i]))
  }

  // ---- order laws ----------------------------------------------------------

  lemma KeyLaws(k: SortKey, a: Record, b: Record)
    ensures KeyBefore(k, a, b) || KeyBefore(k, b, a) || KeyTied(k, a, b)
    ensures !(KeyBefore(k, a, b) && KeyBefore(k, b, a))
    ensures KeyTied(k, a, b) ==> !KeyBefore(k, a, b)
  {
    ValueLtTotal(Eval(k.expr, a), Eval(k.expr, b));
  }

  lemma KeyTransitive(k: SortKey, a: Record, b: Record, c: Record)
    requires KeyBefore(k, a, b) && KeyBefore(k, b, c)
    ensures KeyBefore(k, a, c)
  {
    var va, vb, vc := Eval(k.expr, a), Eval(k.expr, b), Eval(k.expr, c);
    if !vc.Null? {
      if k.ascending { ValueLtTransitive(va, vb, vc); } else { ValueLtTransitive(vc, vb, va); }
    }
  }

  lemma {:induction false} BeforeLaws(ks: seq<SortKey>, a: Record, b: Record)
    ensures Before(ks, a, b) || Before(ks, b, a) || Tied(ks, a, b)
    ensures !(Before(ks, a, b) && Before(ks, b, a))
    ensures Tied(ks, a, b) ==> !Before(ks, a, b)
    ensures Tied(ks, a, b) == Tied(ks, b, a)
  {
    if ks != [] {
      KeyLaws(ks[0], a, b);
      KeyLaws(ks[0], b, a);
      BeforeLaws(ks[1..], a, b);
    }
  }

  lemma {:induction false} BeforeTransitive(ks: seq<SortKey>, a: Record, b: Record, c: Record)
    requires Before(ks, a, b) || Tied(ks, a, b)
    requires Before(ks, b, c) || Tied(ks, b, c)
    ensures Before(ks, a, c) || Tied(ks, a, c)
    ensures Tied(ks, a, c) ==> Tied(ks, a, b) && Tied(ks, b, c)
  {
    if ks != [] {
      KeyLaws(ks[0], a, b);
      KeyLaws(ks[0], b, c);
      KeyLaws(ks[0], a, c);
      if KeyTied(ks[0], a, b) && KeyTied(ks[0], b, c) {
        BeforeTransitive(ks[1..], a, b, c);
      } else if KeyBefore(ks[0], a, b) && KeyBefore(ks[0], b, c) {
        KeyTransitive(ks[0], a, b, c);
      }
    }
  }

  lemma CompositeTransitive(ks: seq<SortKey>, x: Tagged, y: Tagged, z: Tagged)
    requires CompositeBefore(ks, x, y) && CompositeBefore(ks, y, z)
    ensures CompositeBefore(ks, x, z)
  {
    BeforeTransitive(ks, x.rec, y.rec, z.rec);
    BeforeLaws(ks, x.rec, y.rec);
    BeforeLaws(ks, y.rec, z.rec);
    BeforeLaws(ks, x.rec, z.rec);
  }

  lemma CompositeAsymmetric(ks: seq<SortKey>, x: Tagged, y: Tagged)
    requires CompositeBefore(ks, x, y)
    ensures !CompositeBefore(ks, y, x)
  {
    BeforeLaws(ks, x.rec, y.rec);
    BeforeLaws(ks, y.rec, x.rec);
  }

  lemma SortedHead(ks: seq<SortKey>, s: seq<Tagged>, t: seq<Tagged>)
    requires Sorted(ks, s) && Sorted(ks, t)
    requires s != [] && t != [] && s[0] in t && t[0] in s
    ensures s[0] == t[0]
  {
    if s[0] != t[0] {
      var i :| 0 <= i < |t| && t[i] == s[0];
      var j :| 0 <= j < |s| && s[j] == t[0];
      assert CompositeBefore(ks, t[0], t[i]) && CompositeBefore(ks, s[0], s[j]);
      CompositeAsymmetric(ks, s[0], t[0]);
    }
  }

  lemma HeadTail(s: seq<Tagged>)
    requires s != []
    ensures multiset(s[1..]) == multiset(s) - multiset{s[0]}
    ensures s[0] in multiset(s)
  {
    assert s == [s[0]] + s[1..];
  }

  /** Two sorted sequences of the same tagged rows are the same sequence. */
  lemma {:induction false} SortedUnique(ks: seq<SortKey>, s: seq<Tagged>, t: seq<Tagged>)
    requires Sorted(ks, s) && Sorted(ks, t)
    requires multiset(s) == multiset(t)
    ensures s == t
  {
    assert |s| == |multiset(s)| == |multiset(t)| == |t|;
    if s != [] {
      HeadTail(s);
      HeadTail(t);
      assert s[0] in multiset(t) && t[0] in multiset(s);
      SortedHead(ks, s, t);
      SortedUnique(ks, s[1..], t[1..]);
      assert s == [s[0]] + s[1..] && t == [t[0]] + t[1..];
    }
  }

  // ---- StableSort on tagged rows -------------------------------------------

  function InsertTagged(ks: seq<SortKey>, x: Tagged, sorted: seq<Tagged>): (r: seq<Tagged>)
    ensures multiset(r) == multiset{x} + multiset(sorted)
  {
    if sorted == [] || !Before(ks, sorted[0].rec, x.rec) then [x] + sorted
    else
      assert sorted == [sorted[0]] + sorted[1..];
      [sorted[0]] + InsertTagged(ks, x, sorted[1..])
  }

  function SortTagged(ks: seq<SortKey>, s: seq<Tagged>): (r: seq<Tagged>)
    ensures multiset(r) == multiset(s)
  {
    if s == [] then []
    else
      assert s == [s[0]] + s[1..];
      InsertTagged(ks, s[0], SortTagged(ks, s[1..]))
  }

  lemma {:induction false} InsertTaggedRecords(ks: seq<SortKey>, x: Tagged, s: seq<Tagged>)
    ensures Records(InsertTagged(ks, x, s)) == InsertStable(ks, x.rec, Records(s))
  {
    if s != [] {
      assert Records(s)[1..] == Records(s[1..]);
      if Before(ks, s[0].rec, x.rec) { InsertTaggedRecords(ks, x, s[1..]); }
    }
  }

  /** Sorting ignores the tags. */
  lemma {:induction false} SortTaggedRecords(ks: seq<SortKey>, s: seq<Tagged>)
    ensures Records(SortTagged(ks, s)) == StableSort(ks, Records(s))
  {
    if s != [] {
      assert Records(s)[1..] == Records(s[1..]);
      SortTaggedRecords(ks, s[1..]);
      InsertTaggedRecords(ks, s[0], SortTagged(ks, s[1..]));
    }
  }

  /** Wherever two rows tie on every key, the earlier one has the smaller tag. */
  ghost predicate TiesInOrder(ks: seq<SortKey>, s: seq<Tagged>) {
    forall i, j :: 0 <= i < j < |s| && Tied(ks, s[i].rec, s[j].rec) ==> s[i].arrival < s[j].arrival
  }

  lemma {:induction false} InsertTaggedSorted(ks: seq<SortKey>, x: Tagged, s: seq<Tagged>)
    requires Sorted(ks, s)
    requires forall y :: y in s && Tied(ks, x.rec, y.rec) ==> x.arrival < y.arrival
    ensures Sorted(ks, InsertTagged(ks, x, s))
  {
    if s != [] && Before(ks, s[0].rec, x.rec) {
      InsertTaggedSorted(ks, x, s[1..]);
      var r := InsertTagged(ks, x, s[1..]);
      forall j | 0 <= j < |r| ensures CompositeBefore(ks, s[0], r[j]) {
        assert r[j] in multiset(r);
        assert r[j] == x || r[j] in s[1..];
      }
    } else if s != [] {
      BeforeLaws(ks, s[0].rec, x.rec);
      BeforeLaws(ks, x.rec, s[0].rec);
      assert s[0] in s;
      assert CompositeBefore(ks, x, s[0]);
      forall j | 1 <= j < |s| ensures CompositeBefore(ks, x, s[j]) {
        CompositeTransitive(ks, x, s[0], s[j]);
      }
    }
  }

  /** Stability: a sort of rows whose ties arrive in tag order is sorted by key
      and, among ties, by tag. */
  lemma {:induction false} SortTaggedSorted(ks: seq<SortKey>, s: seq<Tagged>)
    requires TiesInOrder(ks, s)
    ensures Sorted(ks, SortTagged(ks, s))
  {
    if s != [] {
      SortTaggedSorted(ks, s[1..]);
      var t := SortTagged(ks, s[1..]);
      forall y | y in t && Tied(ks, s[0].rec, y.rec) ensures s[0].arrival < y.arrival {
        assert y in multiset(t);
        assert y in s[1..];
      }
      InsertTaggedSorted(ks, s[0], t);
    }
  }

  /** What a stable sort is: a permutation, in key order, ties in input order. */
  lemma StableSortMeaning(ks: seq<SortKey>, rows: seq<Record>)
    ensures multiset(StableSort(ks, rows)) == multiset(rows)
    ensures exists s: seq<Tagged> ::
              Records(s) == StableSort(ks, rows) && multiset(s) == multiset(Tag(rows, 0)) && Sorted(ks, s)
  {
    var t := Tag(rows, 0);
    var s := SortTagged(ks, t);
    SortTaggedSorted(ks, t);
    SortTaggedRecords(ks, t);
    assert Records(t) == rows;
    StableSortPermutes(ks, rows);
  }

  /** And it is the only such arrangement. */
  lemma StableSortUnique(ks: seq<SortKey>, rows: seq<Record>, s: seq<Tagged>)
    requires Sorted(ks, s) && multiset(s) == multiset(Tag(rows, 0))
    ensures Records(s) == StableSort(ks, rows)
  {
    var t := Tag(rows, 0);
    SortTaggedSorted(ks, t);
    SortedUnique(ks, s, SortTagged(ks, t));
    SortTaggedRecords(ks, t);
    assert Records(t) == rows;
  }

  lemma {:induction false} InsertStablePermutes(ks: seq<SortKey>, x: Record, s: seq<Record>)
    ensures multiset(InsertStable(ks, x, s)) == multiset{x} + multiset(s)
  {
    if s != [] && Before(ks, s[0], x) {
      InsertStablePermutes(ks, x, s[1..]);
      assert s == [s[0]] + s[1..];
    }
  }

  lemma {:induction false} StableSortPermutes(ks: seq<SortKey>, rows: seq<Record>)
    ensures multiset(StableSort(ks, rows)) == multiset(rows)
  {
    if rows != [] {
      StableSortPermutes(ks, rows[1..]);
      InsertStablePermutes(ks, rows[0], StableSort(ks, rows[1..]));
      assert rows == [rows[0]] + rows[1..];
    }
  }

  // ---- the repeated stable passes of _sort_rows ----------------------------

  /** _null_last_sort_key: (sentinel, value or 0). */
  datatype PassKey = PassKey(sentinel: bool, value: Value)

  function NullLastSortKey(k: SortKey, r: Record): PassKey {
    var v := Eval(k.expr, r);
    PassKey(if k.ascending then v.Null? else !v.Null?, if v.Null? then Num(0.0) else v)
  }

  /** Tuple comparison of two pass keys. */
  predicate PassLess(a: PassKey, b: PassKey) {
    (!a.sentinel && b.sentinel) || (a.sentinel == b.sentinel && ValueLt(a.value, b.value))
  }

  function InsertByKey(k: SortKey, x: Tagged, s: seq<Tagged>): (r: seq<Tagged>)
    ensures multiset(r) == multiset{x} + multiset(s)
  {
    if s == [] || !PassLess(NullLastSortKey(k, s[0].rec), NullLastSortKey(k, x.rec)) then [x] + s
    else
      assert s == [s[0]] + s[1..];
      [s[0]] + InsertByKey(k, x, s[1..])
  }

  /** list.sort(key=...): Python's stable sort, by its contract. */
  function ListSort(k: SortKey, s: seq<Tagged>): (r: seq<Tagged>)
    ensures multiset(r) == multiset(s)
  {
    if s == [] then []
    else
      assert s == [s[0]] + s[1..];
      InsertByKey(k, s[0], ListSort(k, s[1..]))
  }

  function Reverse(s: seq<Tagged>): (r: seq<Tagged>)
    ensures |r| == |s|
    ensures forall i :: 0 <= i < |s| ==> r[i] == s[|s| - 1 - i]
    ensures multiset(r) == multiset(s)
  {
    if s == [] then []
    else
      assert s == s[..|s| - 1] + [s[|s| - 1]];
      [s[|s| - 1]] + Reverse(s[..|s| - 1])
  }

  /** list.sort(key=..., reverse=not ascending): reverse keeps ties in order, as
      CPython does it, by reversing before and after. */
  function StablePass(k: SortKey, s: seq<Tagged>): (r: seq<Tagged>)
    ensures multiset(r) == multiset(s)
  {
    if k.ascending then ListSort(k, s) else Reverse(ListSort(k, Reverse(s)))
  }

  /** _sort_rows, as a function: the passes over ks, last key first. */
  function SortPasses(ks: seq<SortKey>, s: seq<Tagged>): (r: seq<Tagged>)
    ensures multiset(r) == multiset(s)
  {
    if ks == [] then s else StablePass(ks[0], SortPasses(ks[1..], s))
  }

  /** The raw pass order of an ascending key is KeyBefore; of a descending key,
      because the sentinel is flipped too, it is KeyBefore reversed. */
  lemma PassLessIsKeyBefore(k: SortKey, a: Record, b: Record)
    ensures k.ascending ==> (PassLess(NullLastSortKey(k, a), NullLastSortKey(k, b)) <==> KeyBefore(k, a, b))
    ensures !k.ascending ==> (PassLess(NullLastSortKey(k, a), NullLastSortKey(k, b)) <==> KeyBefore(k, b, a))
  {
    ValueLtTotal(Num(0.0), Num(0.0));
  }

  /** The order a pass works in: CompositeBefore, backwards inside a reversing pass. */
  predicate Ordered(ks: seq<SortKey>, reversed: bool, x: Tagged, y: Tagged) {
    if reversed then CompositeBefore(ks, y, x) else CompositeBefore(ks, x, y)
  }

  ghost predicate SortedPass(ks: seq<SortKey>, reversed: bool, s: seq<Tagged>) {
    forall i, j :: 0 <= i < j < |s| ==> Ordered(ks, reversed, s[i], s[j])
  }

  lemma {:induction false} InsertByKeySorted(ks: seq<SortKey>, x: Tagged, s: seq<Tagged>)
    requires ks != []
    requires SortedPass(ks, !ks[0].ascending, s)
    requires forall y :: y in s ==> Ordered(ks[1..], !ks[0].ascending, x, y)
    ensures SortedPass(ks, !ks[0].ascending, InsertByKey(ks[0], x, s))
  {
    var k, rev := ks[0], !ks[0].ascending;
    if s != [] {
      PassLessIsKeyBefore(k, s[0].rec, x.rec);
      KeyLaws(k, s[0].rec, x.rec);
      KeyLaws(k, x.rec, s[0].rec);
      if PassLess(NullLastSortKey(k, s[0].rec), NullLastSortKey(k, x.rec)) {
        assert forall y :: y in s[1..] ==> y in s;
        InsertByKeySorted(ks, x, s[1..]);
        var r := InsertByKey(k, x, s[1..]);
        forall j | 0 <= j < |r| ensures Ordered(ks, rev, s[0], r[j]) {
          assert r[j] in multiset(r);
          assert r[j] == x || r[j] in s[1..];
        }
      } else {
        assert s[0] in s;
        assert Ordered(ks, rev, x, s[0]);
        forall j | 1 <= j < |s| ensures Ordered(ks, rev, x, s[j]) {
          if rev { CompositeTransitive(ks, s[j], s[0], x); } else { CompositeTransitive(ks, x, s[0], s[j]); }
        }
      }
    }
  }

  lemma {:induction false} ListSortSorted(ks: seq<SortKey>, s: seq<Tagged>)
    requires ks != []
    requires SortedPass(ks[1..], !ks[0].ascending, s)
    ensures SortedPass(ks, !ks[0].ascending, ListSort(ks[0], s))
  {
    if s != [] {
      ListSortSorted(ks, s[1..]);
      var t := ListSort(ks[0], s[1..]);
      forall y | y in t ensures Ordered(ks[1..], !ks[0].ascending, s[0], y) {
        assert y in multiset(t);
        assert y in s[1..];
      }
      InsertByKeySorted(ks, s[0], t);
    }
  }

  /** Last-key-first stable passes sort by the whole key list, mixed directions
      and nulls last included, ties in arrival order. */
  lemma {:induction false} SortPassesSorted(ks: seq<SortKey>, s: seq<Tagged>)
    requires Sorted([], s)
    ensures Sorted(ks, SortPasses(ks, s))
  {
    if ks != [] {
      SortPassesSorted(ks[1..], s);
      var t := SortPasses(ks[1..], s);
      if ks[0].ascending {
        ListSortSorted(ks, t);
      } else {
        ListSortSorted(ks, Reverse(t));
      }
    }
  }

  /** The repeated passes are exactly one stable sort. */
  lemma SortPassesIsStableSort(ks: seq<SortKey>, rows: seq<Record>, start: nat)
    ensures Records(SortPasses(ks, Tag(rows, start))) == StableSort(ks, rows)
  {
    var t := Tag(rows, start);
    SortPassesSorted(ks, t);
    SortTaggedSorted(ks, t);
    SortedUnique(ks, SortPasses(ks, t), SortTagged(ks, t));
    SortTaggedRecords(ks, t);
    assert Records(t) == rows;
  }

  // ---- the composite key of the external merge -----------------------------

  /** One component of _composite_sort_key's tuple; Descending is `_Desc`. */
  datatype Part = Flag(isNull: bool) | Ascending(v: Value) | Descending(v: Value) | Arrival(n: nat)

  predicate PartLess(a: Part, b: Part) {
    match (a, b)
    case (Flag(x), Flag(y)) => !x && y
    case (Ascending(x), Ascending(y)) => ValueLt(x, y)
    case (Descending(x), Descending(y)) => ValueLt(y, x)
    case (Arrival(x), Arrival(y)) => x < y
    case _ => false
  }

  /** Python's tuple comparison. */
  predicate TupleLess(a: seq<Part>, b: seq<Part>) {
    b != [] && (a == [] || (if a[0] == b[0] then TupleLess(a[1..], b[1..]) else PartLess(a[0], b[0])))
  }

  function CompositeSortKey(ks: seq<SortKey>, x: Tagged): seq<Part> {
    if ks == [] then [Arrival(x.arrival)]
    else
      var v := Eval(ks[0].expr, x.rec);
      var placeholder := if v.Null? then Num(0.0) else v;
      [Flag(v.Null?), if ks[0].ascending then Ascending(placeholder) else Descending(placeholder)]
      + CompositeSortKey(ks[1..], x)
  }

  /** Comparing composite keys is comparing by key list, then arrival: the order
      the merge uses is the order the passes sort by. */
  lemma {:induction false} CompositeKeyOrder(ks: seq<SortKey>, x: Tagged, y: Tagged)
    ensures TupleLess(CompositeSortKey(ks, x), CompositeSortKey(ks, y)) <==> CompositeBefore(ks, x, y)
  {
    if ks != [] {
      CompositeKeyOrder(ks[1..], x, y);
      var a, b := CompositeSortKey(ks, x), CompositeSortKey(ks, y);
      assert a[1..][1..] == CompositeSortKey(ks[1..], x) && b[1..][1..] == CompositeSortKey(ks[1..], y);
      KeyLaws(ks[0], x.rec, y.rec);
    } else {
      assert CompositeSortKey(ks, x)[1..] == [] == CompositeSortKey(ks, y)[1..];
    }
  }

  /** StableSort only looks at the sort expressions' columns. */
  function KeyColumns(ks: seq<SortKey>): set<string> {
    if ks == [] then {} else ReferencedColumns(ks[0].expr) + KeyColumns(ks[1..])
  }

  lemma {:induction false} BeforeAgree(ks: seq<SortKey>, a: Record, b: Record, a': Record, b': Record)
    requires Agree(KeyColumns(ks), a, a') && Agree(KeyColumns(ks), b, b')
    ensures Before(ks, a, b) == Before(ks, a', b')
  {
    if ks != [] {
      EvalAgree(ks[0].expr, a, a');
      EvalAgree(ks[0].expr, b, b');
      BeforeAgree(ks[1..], a, b, a', b');
    }
  }
}
