/**
 What SQL text spells: the number a numeral denotes, keywords in any case, blanks and
 comments (minispark/sql/parser.py, `_parse_primary`; minispark/sql/tokenizer.py).
 */
module SqlNumerals {
  import opened Arithmetic
  import opened Options
  import opened Values
  import opened Expressions
  import opened GroupTables
  import opened TextLines
  import opened SqlTokenizer
  import opened SqlParser
  import opened SqlPrinter
  import opened SqlRoundTrip

  // ---- digits --------------------------------------------------------------

  predicate AllDigits(s: string) {
    forall i :: 0 <= i < |s| ==> IsDigit(s[i])
  }

  function PowerOfTen(k: nat): nat {
    if k == 0 then 1 else 10 * PowerOfTen(k - 1)
  }

  lemma {:induction false} IntegerSnoc(so: nat, s: string, c: char)
    requires AllDigits(s) && IsDigit(c)
    ensures IntegerFrom(so, s + [c]) == 10 * IntegerFrom(so, s) + DigitValue(c)
    decreases |s|
  {
    if s == "" {
      assert (s + [c])[1..] == "";
    } else {
      assert (s + [c])[1..] == s[1..] + [c];
      IntegerSnoc(10 * so + DigitValue(s[0]), s[1..], c);
    }
  }

  lemma {:induction false} DecimalDigits(n: nat)
    ensures AllDigits(Decimal(n)) && Decimal(n) != ""
  {
    if n >= 10 { DecimalDigits(n / 10); }
  }

  lemma {:induction false} IntegerOfDecimal(n: nat)
    ensures IntegerFrom(0, Decimal(n)) == n
  {
    var c := "0123456789"[n % 10];
    assert IsDigit(c) && DigitValue(c) == n % 10;
    if n < 10 {
      IntegerSnoc(0, "", c);
      assert "" + [c] == Decimal(n);
    } else {
      DecimalDigits(n / 10);
      IntegerOfDecimal(n / 10);
      IntegerSnoc(0, Decimal(n / 10), c);
    }
  }

  lemma {:induction false} NoDot(s: string)
    requires AllDigits(s)
    ensures AfterDot(s) == ""
  {
    if s != "" { NoDot(s[1..]); }
  }

  /** A natural number written in decimal is that number. */
  lemma NumeralIs(n: nat)
    ensures NumberValue(Decimal(n)) == n as real
  {
    DecimalDigits(n);
    IntegerOfDecimal(n);
    NoDot(Decimal(n));
  }

  // ---- fractions -----------------------------------------------------------

  /** Products, kept out of sight of the solver's nonlinear arithmetic. */
  function Scaled(x: real, p: nat): real {
    x * (p as real)
  }

  lemma {:induction false} IntegerShift(so: nat, s: string)
    requires AllDigits(s)
    ensures IntegerFrom(so, s) == Times(so, PowerOfTen(|s|)) + IntegerFrom(0, s)
    decreases |s|
  {
    if s != "" {
      var d, p := DigitValue(s[0]), PowerOfTen(|s| - 1);
      IntegerShift(10 * so + d, s[1..]);
      IntegerShift(d, s[1..]);
      Regroup(so, d, p);
      hide Times;
    }
  }

  lemma Regroup(so: nat, d: nat, p: nat)
    ensures Times(10 * so + d, p) == Times(so, 10 * p) + Times(d, p)
  {
  }

  lemma {:induction false} FractionShift(s: string)
    requires AllDigits(s)
    ensures Scaled(FractionOf(s), PowerOfTen(|s|)) == IntegerFrom(0, s) as real
  {
    hide Scaled, Times;
    if s == "" {
      NothingScaled(PowerOfTen(0));
    } else {
      var d, p := DigitValue(s[0]), PowerOfTen(|s| - 1);
      FractionShift(s[1..]);
      IntegerShift(d, s[1..]);
      FractionStep(d, FractionOf(s[1..]), p, IntegerFrom(0, s[1..]));
      assert PowerOfTen(|s|) == 10 * p && IntegerFrom(0, s) == IntegerFrom(d, s[1..]);
    }
  }

  lemma NothingScaled(p: nat)
    ensures Scaled(0.0, p) == 0.0
  {
  }

  lemma FractionStep(d: nat, f: real, p: nat, z: nat)
    requires Scaled(f, p) == z as real
    ensures Scaled((d as real + f) / 10.0, 10 * p) == (Times(d, p) + z) as real
  {
    var q := p as real;
    assert (10 * p) as real == 10.0 * q;
    TenTimes(d as real, f, q);
    assert (d * p) as real == (d as real) * q;
  }

  lemma TenTimes(d: real, f: real, p: real)
    ensures ((d + f) / 10.0) * (10.0 * p) == d * p + f * p
  {
  }

  lemma {:induction false} IntegerOfParts(so: nat, a: string, b: string)
    requires AllDigits(a) && AllDigits(b)
    ensures IntegerFrom(so, a + "." + b) == IntegerFrom(so, a)
    ensures IntegerFrom(so, a + b) == IntegerFrom(IntegerFrom(so, a), b)
    ensures AfterDot(a + "." + b) == b
    decreases |a|
  {
    if a == "" {
      assert a + "." + b == "." + b && a + b == b && ("." + b)[1..] == b;
    } else {
      assert (a + "." + b)[1..] == a[1..] + "." + b && (a + b)[1..] == a[1..] + b;
      IntegerOfParts(10 * so + DigitValue(a[0]), a[1..], b);
    }
  }

  lemma AddProducts(x: nat, y: real, z: nat, p: nat)
    requires Scaled(y, p) == z as real
    ensures Scaled(x as real + y, p) == (Times(x, p) + z) as real
  {
    assert (x as real) * (p as real) == (x * p) as real;
  }

  /** A point before the last k digits divides by ten to the k. */
  lemma PointDivides(a: string, b: string)
    requires AllDigits(a) && AllDigits(b)
    ensures Scaled(NumberValue(a + "." + b), PowerOfTen(|b|)) == NumberValue(a + b)
  {
    hide Scaled, Times, IntegerFrom, FractionOf, AfterDot, PowerOfTen;
    var x, p := IntegerFrom(0, a), PowerOfTen(|b|);
    var pointed := a + "." + b;
    assert IntegerFrom(0, pointed) == x && AfterDot(pointed) == b && IntegerFrom(0, a + b) == IntegerFrom(x, b) by {
      IntegerOfParts(0, a, b);
    }
    IntegerShift(x, b);
    FractionShift(b);
    AddProducts(x, FractionOf(b), IntegerFrom(0, b), p);
    WholeValue(a + b);
  }

  lemma WholeValue(s: string)
    requires forall i :: 0 <= i < |s| ==> IsDigit(s[i])
    ensures NumberValue(s) == IntegerFrom(0, s) as real
  {
    NoDot(s);
  }

  // ---- numerals in a query -------------------------------------------------

  lemma {:induction false} DigitsLength(s: string, sawDot: bool)
    requires AllDigits(s)
    ensures NumberLength(s, sawDot) == |s|
  {
    if s != "" { DigitsLength(s[1..], sawDot); }
  }

  lemma {:induction false} PointedLength(a: string, b: string)
    requires AllDigits(a) && AllDigits(b)
    ensures NumberLength(a + "." + b, false) == |a| + 1 + |b|
  {
    if a == "" {
      assert (a + "." + b)[1..] == b;
      DigitsLength(b, true);
    } else {
      assert (a + "." + b)[1..] == a[1..] + "." + b;
      PointedLength(a[1..], b);
    }
  }

  lemma LexNumeral(s: string)
    requires IsNumberText(s)
    ensures Lex(s, 0) == Tokens([Token(Number, s, |s|), Token(Eof, "", |s|)])
  {
    hide StringBody, NameLength, LineLength, SqlTokenizer.Word, NumberLength;
    assert s[..|s|] == s && s[|s|..] == "";
    assert FirstStep(s, 0) == Take(Token(Number, s, |s|), |s|) by { FirstStepNumeral(s); }
    assert Lex("", |s|) == Tokens([Token(Eof, "", |s|)]);
    assert [Token(Number, s, |s|)] + [Token(Eof, "", |s|)] == [Token(Number, s, |s|), Token(Eof, "", |s|)];
  }

  lemma FirstStepNumeral(s: string)
    requires IsNumberText(s)
    ensures FirstStep(s, 0) == Take(Token(Number, s, |s|), |s|)
  {
    hide StringBody, NameLength, LineLength, SqlTokenizer.Word;
    assert s[..|s|] == s;
  }

  /** A query that is a numeral is the literal it denotes. */
  lemma ParseNumeral(s: string)
    requires IsNumberText(s)
    ensures ParseText(s) == Some(Literal(Num(NumberValue(s))))
  {
    hide IsNumberText, NumberValue;
    LexNumeral(s);
    var ts := [Token(Number, s, |s|), Token(Eof, "", |s|)];
    assert ParseAt(PRIMARY, ts, 0) == Parsed(Literal(Num(NumberValue(s))), 1);
    Lift(OR, PRIMARY, ts, 0, Literal(Num(NumberValue(s))), 1);
  }

  /** So 10 is ten, and 1.25 a hundredth of 125. */
  lemma ParseDecimal(n: nat, a: string, b: string)
    ensures ParseText(Decimal(n)) == Some(Literal(Num(n as real)))
    ensures AllDigits(a) && AllDigits(b) && b != "" ==>
              exists x :: ParseText(a + "." + b) == Some(Literal(Num(x))) && Scaled(x, PowerOfTen(|b|)) == NumberValue(a + b)
  {
    hide Lex, ParseAt, NumberValue, PowerOfTen, Scaled, ParseText;
    DecimalDigits(n);
    DigitsLength(Decimal(n), false);
    ParseNumeral(Decimal(n));
    NumeralIs(n);
    if AllDigits(a) && AllDigits(b) && b != "" {
      var s := a + "." + b;
      PointedLength(a, b);
      assert if a == "" then s[0] == '.' && s[1] == b[0] else s[0] == a[0];
      ParseNumeral(s);
      PointDivides(a, b);
      assert ParseText(s) == Some(Literal(Num(NumberValue(s)))) && Scaled(NumberValue(s), PowerOfTen(|b|)) == NumberValue(a + b);
    }
  }

  // ---- words, blanks and comments ------------------------------------------

  /** The small letter of a capital. */
  function Small(c: char): char {
    if 'A' <= c <= 'Z' then (c as int - 'A' as int + 'a' as int) as char else c
  }

  /** A word with some letters made small, each as the caller likes. */
  function Respelled(word: string, small: nat -> bool): (s: string)
    ensures |s| == |word|
  {
    seq(|word|, i requires 0 <= i < |word| => if small(i) then Small(word[i]) else word[i])
  }

  lemma SmallUpper(c: char)
    requires 'A' <= c <= 'Z'
    ensures UpperChar(Small(c)) == c && UpperChar(c) == c
  {
  }

  /** A keyword is that keyword however its letters are spelled. */
  lemma KeywordInAnyCase(word: string, small: nat -> bool, at: nat)
    requires word in KEYWORDS && forall i :: 0 <= i < |word| ==> 'A' <= word[i] <= 'Z'
    ensures SqlTokenizer.Word(Respelled(word, small), at) == Token(Keyword, word, at)
  {
    var s := Respelled(word, small);
    forall i | 0 <= i < |word| ensures Upper(s)[i] == word[i] { SmallUpper(word[i]); }
    assert Upper(s) == word;
  }

  /** Blanks and comments before a text are passed over. */
  lemma BlanksAreSkipped(c: char, text: string, at: nat)
    requires c == ' ' || c == '\t' || c == '\n' || c == '\r'
    ensures Lex([c] + text, at) == Lex(text, at + 1)
  {
    assert ([c] + text)[1..] == text;
    hide StringBody, NumberLength, NameLength, LineLength, SqlTokenizer.Word;
  }

  lemma {:induction false} LineEnds(line: string, text: string)
    requires '\n' !in line
    ensures LineLength(line + "\n" + text) == |line| + 1
  {
    if line != "" {
      assert (line + "\n" + text)[1..] == line[1..] + "\n" + text;
      assert line[0] in line && forall c :: c in line[1..] ==> c in line;
      LineEnds(line[1..], text);
    } else {
      assert line + "\n" + text == "\n" + text;
    }
  }

  lemma CommentsAreSkipped(comment: string, text: string, at: nat)
    requires '\n' !in comment
    ensures Lex("--" + comment + "\n" + text, at) == Lex(text, at + |comment| + 3)
  {
    hide Lex, FirstStep, LineLength;
    var all, n := "--" + comment + "\n" + text, |comment| + 3;
    assert StartsComment(all) && LineLength(all) == n && all[n..] == text by {
      assert all == ("--" + comment) + "\n" + text;
      assert forall c :: c in "--" + comment ==> c == '-' || c in comment;
      LineEnds("--" + comment, text);
    }
    CommentStep(all, at);
    SkipStep(all, at);
  }

  lemma CommentStep(text: string, at: nat)
    requires StartsComment(text)
    ensures FirstStep(text, at) == Skip(LineLength(text))
  {
    hide StringBody, NumberLength, NameLength, LineLength, SqlTokenizer.Word;
  }

  lemma SkipStep(text: string, at: nat)
    requires text != "" && FirstStep(text, at).Skip?
    ensures Lex(text, at) == Lex(text[FirstStep(text, at).used..], at + FirstStep(text, at).used)
  {
    hide FirstStep;
  }

  /** Both ways to write inequality mean the same. */
  lemma NotEqualTwoWays()
    ensures ComparisonOf("<>") == ComparisonOf("!=") == Ne
  {
  }
}
