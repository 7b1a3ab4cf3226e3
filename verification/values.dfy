/**
 Cell values and rows.

 A row is a Python dict, modelled as a map from column name to value (dict
 order never matters to a reader of a row).  Numbers are exact: int and float
 are one kind here, and True is not 1.
 */
module Values {

  /** Two values are not scalars.  SumCount is the running (total, count) state of an
      average, and only ever sits in a partial row.  Raised is what an aggregate's state
      is once a step of it has raised: the task that computes it fails. */
  datatype Value =
    | Null
    | Bool(b: bool)
    | Num(n: real)
    | Str(s: string)
    | SumCount(total: real, count: int)
    | Raised

  type Record = map<string, Value>

  /** Python's bool(v). */
  predicate Truthy(v: Value) {
    match v
    case Null => false
    case Bool(b) => b
    case Num(n) => n != 0.0
    case Str(s) => s != ""
    case SumCount(_, _) => true
    case Raised => true
  }

  function Rank(v: Value): nat {
    match v
    case Null => 0
    case Bool(_) => 1
    case Num(_) => 2
    case Str(_) => 3
    case SumCount(_, _) => 4
    case Raised => 5
  }

  predicate StringLt(a: string, b: string) {
    b != "" && (a == "" || a[0] < b[0] || (a[0] == b[0] && StringLt(a[1..], b[1..])))
  }

  /** The order of values.  Within one kind it is the language's own `<`; across
      kinds, where the language raises, kinds are ranked so the order is total. */
  predicate ValueLt(a: Value, b: Value) {
    if Rank(a) != Rank(b) then Rank(a) < Rank(b)
    else match a
      case Null => false
      case Bool(x) => !x && b.b
      case Num(x) => x < b.n
      case Str(x) => StringLt(x, b.s)
      case SumCount(x, c) => x < b.total || (x == b.total && c < b.count)
      case Raised => false
  }

  lemma {:induction false} StringLtTotal(a: string, b: string)
    ensures StringLt(a, b) || StringLt(b, a) || a == b
    ensures !(StringLt(a, b) && StringLt(b, a))
  {
    if a != "" && b != "" && a[0] == b[0] {
      StringLtTotal(a[1..], b[1..]);
      assert a == [a[0]] + a[1..] && b == [b[0]] + b[1..];
    }
  }

  lemma {:induction false} StringLtTransitive(a: string, b: string, c: string)
    requires StringLt(a, b) && StringLt(b, c)
    ensures StringLt(a, c)
  {
    if a != "" && a[0] == b[0] && b[0] == c[0] {
      StringLtTransitive(a[1..], b[1..], c[1..]);
    }
  }

  /** ValueLt is a strict total order. */
  lemma ValueLtTotal(a: Value, b: Value)
    ensures ValueLt(a, b) || ValueLt(b, a) || a == b
    ensures !(ValueLt(a, b) && ValueLt(b, a))
    ensures !ValueLt(a, a)
  {
    if a.Str? {
      StringLtTotal(a.s, a.s);
      if b.Str? { StringLtTotal(a.s, b.s); }
    }
  }

  lemma ValueLtTransitive(a: Value, b: Value, c: Value)
    requires ValueLt(a, b) && ValueLt(b, c)
    ensures ValueLt(a, c)
  {
    if a.Str? && b.Str? && c.Str? { StringLtTransitive(a.s, b.s, c.s); }
  }

  function Lesser(a: Value, b: Value): Value {
    if ValueLt(a, b) then a else b
  }

  function Greater(a: Value, b: Value): Value {
    if ValueLt(b, a) then a else b
  }

  lemma LesserAssociates(a: Value, b: Value, c: Value)
    ensures Lesser(Lesser(a, b), c) == Lesser(a, Lesser(b, c))
  {
    ValueLtTotal(a, b);
    ValueLtTotal(b, c);
    ValueLtTotal(a, c);
    if ValueLt(a, b) && ValueLt(b, c) { ValueLtTransitive(a, b, c); }
    if ValueLt(c, b) && ValueLt(b, a) { ValueLtTransitive(c, b, a); }
  }

  lemma GreaterAssociates(a: Value, b: Value, c: Value)
    ensures Greater(Greater(a, b), c) == Greater(a, Greater(b, c))
  {
    ValueLtTotal(a, b);
    ValueLtTotal(b, c);
    ValueLtTotal(a, c);
    if ValueLt(a, b) && ValueLt(b, c) { ValueLtTransitive(a, b, c); }
    if ValueLt(c, b) && ValueLt(b, a) { ValueLtTransitive(c, b, a); }
  }
}
