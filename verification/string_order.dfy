/**
 What sorted means of numbers and strings themselves: the order of values, and the order in
 which order_by returns keys (minispark/physical/operators.py, `_sort_rows`,
 `_null_last_sort_key`).
 */
module StringOrder {
  import opened Values
  import opened Expressions
  import opened Sorting

  /** a comes before b in the dictionary: up to some place they read the same, and there a
      ends or has the lower character. */
  ghost predicate DictionaryBefore(a: string, b: string) {
    exists i :: BreaksAt(a, b, i)
  }

  predicate BreaksAt(a: string, b: string, i: int) {
    0 <= i <= |a| && i < |b| && a[..i] == b[..i] && (i == |a| || a[i] < b[i])
  }

  lemma {:induction false} StringLtBreaks(a: string, b: string) returns (i: nat)
    requires StringLt(a, b)
    ensures BreaksAt(a, b, i)
  {
    if a == "" || a[0] < b[0] {
      i := 0;
    } else {
      var j := StringLtBreaks(a[1..], b[1..]);
      i := j + 1;
      assert a[..i] == [a[0]] + a[1..][..j] && b[..i] == [b[0]] + b[1..][..j];
    }
  }

  lemma {:induction false} BreaksStringLt(a: string, b: string, i: nat)
    requires BreaksAt(a, b, i)
    ensures StringLt(a, b)
  {
    if i > 0 {
      assert a[0] == a[..i][0] == b[..i][0] == b[0];
      assert a[1..][..i - 1] == a[..i][1..] && b[1..][..i - 1] == b[..i][1..];
      BreaksStringLt(a[1..], b[1..], i - 1);
    }
  }

  /** The order of values is that of numbers on numbers and the dictionary's on strings. */
  lemma ValueLtIs(v: Value, w: Value)
    ensures v.Num? && w.Num? ==> (ValueLt(v, w) <==> v.n < w.n)
    ensures v.Str? && w.Str? ==> (ValueLt(v, w) <==> DictionaryBefore(v.s, w.s))
    ensures v.Bool? && w.Bool? ==> (ValueLt(v, w) <==> v == Bool(false) && w == Bool(true))
  {
    if v.Str? && w.Str? {
      if StringLt(v.s, w.s) { var i := StringLtBreaks(v.s, w.s); }
      if i: nat :| BreaksAt(v.s, w.s, i) { BreaksStringLt(v.s, w.s, i); }
    }
  }

  /** `<` on strings and numbers, wherever it occurs. */
  lemma LessThanIs(a: Expr, b: Expr, r: Record)
    ensures Eval(a, r).Str? && Eval(b, r).Str? ==>
              (Eval(Binary(Lt, a, b), r) == Bool(true) <==> DictionaryBefore(Eval(a, r).s, Eval(b, r).s))
    ensures Eval(a, r).Num? && Eval(b, r).Num? ==>
              (Eval(Binary(Lt, a, b), r) == Bool(true) <==> Eval(a, r).n < Eval(b, r).n)
  {
    ValueLtIs(Eval(a, r), Eval(b, r));
  }

  // ---- sorted rows ---------------------------------------------------------

  /** v comes before w on its own terms; null comes before nothing, and after everything. */
  ghost predicate ComesBefore(v: Value, w: Value) {
    match (v, w)
    case (Num(x), Num(y)) => x < y
    case (Str(x), Str(y)) => DictionaryBefore(x, y)
    case (_, Null) => !v.Null?
    case _ => false
  }

  /** Up or down the key, but nulls last either way. */
  ghost predicate InKeyOrder(v: Value, w: Value, ascending: bool) {
    if v.Null? || w.Null? then ComesBefore(v, w)
    else if ascending then ComesBefore(v, w)
    else ComesBefore(w, v)
  }

  /** Row a may come ahead of row b: by the first key in which they differ. */
  ghost predicate MayPrecede(ks: seq<SortKey>, a: Record, b: Record) {
    ks == [] ||
    var v, w := Eval(ks[0].expr, a), Eval(ks[0].expr, b);
    InKeyOrder(v, w, ks[0].ascending) || (v == w && MayPrecede(ks[1..], a, b))
  }

  /** Each key is null or of one kind, number or string, throughout. */
  ghost predicate PlainKeys(ks: seq<SortKey>, rows: seq<Record>) {
    forall i :: 0 <= i < |ks| ==> PlainKey(ks[i].expr, rows)
  }

  ghost predicate PlainKey(e: Expr, rows: seq<Record>) {
    || (forall r :: r in rows ==> Eval(e, r).Null? || Eval(e, r).Num?)
    || (forall r :: r in rows ==> Eval(e, r).Null? || Eval(e, r).Str?)
  }

  lemma KeyBeforeIs(k: SortKey, rows: seq<Record>, a: Record, b: Record)
    requires PlainKey(k.expr, rows) && a in rows && b in rows
    ensures KeyBefore(k, a, b) <==> InKeyOrder(Eval(k.expr, a), Eval(k.expr, b), k.ascending)
  {
    hide ValueLt, DictionaryBefore, Eval;
    ValueLtIs(Eval(k.expr, a), Eval(k.expr, b));
    ValueLtIs(Eval(k.expr, b), Eval(k.expr, a));
  }

  lemma {:induction false} NotBeforeIs(ks: seq<SortKey>, rows: seq<Record>, a: Record, b: Record)
    requires PlainKeys(ks, rows) && a in rows && b in rows && !Before(ks, b, a)
    ensures MayPrecede(ks, a, b)
  {
    hide KeyBefore, InKeyOrder, PlainKey, Eval;
    if ks != [] {
      KeyBeforeIs(ks[0], rows, a, b);
      KeyLaws(ks[0], b, a);
      assert PlainKeys(ks[1..], rows) by {
        forall i | 0 <= i < |ks[1..]| ensures PlainKey(ks[1..][i].expr, rows) { assert ks[1..][i] == ks[i + 1]; }
      }
      if KeyTied(ks[0], b, a) { NotBeforeIs(ks[1..], rows, a, b); }
    }
  }

  /** What a sort puts earlier may come earlier: going by the first key in which two rows
      differ, numbers rise and strings go through the dictionary under an ascending key,
      the other way under a descending one, and nulls come last. */
  lemma SortedRowsRise(ks: seq<SortKey>, rows: seq<Record>, i: nat, j: nat)
    requires PlainKeys(ks, rows) && i < j < |StableSort(ks, rows)|
    ensures MayPrecede(ks, StableSort(ks, rows)[i], StableSort(ks, rows)[j])
  {
    hide MayPrecede, PlainKey, Before, StableSort;
    var out := StableSort(ks, rows);
    StableSortMeaning(ks, rows);
    StableSortPermutes(ks, rows);
    var s: seq<Tagged> :| Records(s) == out && multiset(s) == multiset(Tag(rows, 0)) && Sorted(ks, s);
    assert CompositeBefore(ks, s[i], s[j]);
    BeforeLaws(ks, out[i], out[j]);
    BeforeLaws(ks, out[j], out[i]);
    assert out[i] in multiset(out) && out[j] in multiset(out);
    assert out[i] in rows && out[j] in rows;
    NotBeforeIs(ks, rows, out[i], out[j]);
  }

  /** One string key, ascending: no later string comes before an earlier one; descending: no
      earlier one before a later. */
  lemma SortedStrings(e: Expr, ascending: bool, rows: seq<Record>, i: nat, j: nat)
    requires (forall r :: r in rows ==> Eval(e, r).Str?) && i < j < |StableSort([SortKey(e, ascending)], rows)|
    ensures var out := StableSort([SortKey(e, ascending)], rows);
            var v, w := Eval(e, out[i]), Eval(e, out[j]);
            v.Str? && w.Str? && if ascending then !DictionaryBefore(w.s, v.s) else !DictionaryBefore(v.s, w.s)
  {
    hide StableSort, DictionaryBefore;
    var ks := [SortKey(e, ascending)];
    var out := StableSort(ks, rows);
    StableSortPermutes(ks, rows);
    assert out[i] in multiset(out) && out[j] in multiset(out);
    assert out[i] in rows && out[j] in rows;
    assert PlainKey(ks[0].expr, rows);
    SortedRowsRise(ks, rows, i, j);
    var v, w := Eval(e, out[i]), Eval(e, out[j]);
    ValueLtIs(v, w);
    ValueLtIs(w, v);
    ValueLtTotal(v, w);
    assert MayPrecede(ks[1..], out[i], out[j]);
  }
}
