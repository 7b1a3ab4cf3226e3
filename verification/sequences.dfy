/** Concatenation of a list of lists, and its laws. */
module Sequences {

  function Flatten<T>(ss: seq<seq<T>>): seq<T> {
    if ss == [] then [] else ss[0] + Flatten(ss[1..])
  }

  lemma {:induction false} FlattenAppend<T>(a: seq<seq<T>>, b: seq<seq<T>>)
    ensures Flatten(a + b) == Flatten(a) + Flatten(b)
  {
    if a == [] {
      assert a + b == b;
    } else {
      assert (a + b)[1..] == a[1..] + b;
      FlattenAppend(a[1..], b);
    }
  }

  lemma FlattenSnoc<T>(a: seq<seq<T>>, x: seq<T>)
    ensures Flatten(a + [x]) == Flatten(a) + x
  {
    FlattenAppend(a, [x]);
    assert Flatten([x]) == x + Flatten([]);
  }

  lemma {:induction false} InFlatten<T>(ss: seq<seq<T>>, x: T)
    ensures x in Flatten(ss) <==> exists i :: 0 <= i < |ss| && x in ss[i]
  {
    if ss != [] {
      InFlatten(ss[1..], x);
      if x in Flatten(ss[1..]) {
        var i :| 0 <= i < |ss[1..]| && x in ss[1..][i];
        assert x in ss[i + 1];
      }
      if i :| 0 <= i < |ss| && x in ss[i] && i > 0 {
        assert x in ss[1..][i - 1];
      }
    }
  }

  /** Dropping the head of one inner list drops one element of the whole. */
  lemma {:induction false} FlattenDropHead<T>(ss: seq<seq<T>>, i: nat) returns (p: nat)
    requires i < |ss| && ss[i] != []
    ensures p < |Flatten(ss)| && Flatten(ss)[p] == ss[i][0]
    ensures Flatten(ss[i := ss[i][1..]]) == Flatten(ss)[..p] + Flatten(ss)[p + 1..]
  {
    if i == 0 {
      p := 0;
      assert ss[0 := ss[0][1..]] == [ss[0][1..]] + ss[1..];
    } else {
      var q := FlattenDropHead(ss[1..], i - 1);
      p := |ss[0]| + q;
      assert ss[i := ss[i][1..]][1..] == ss[1..][i - 1 := ss[i][1..]];
    }
  }

  lemma RemoveOne<T>(s: seq<T>, p: nat)
    requires p < |s|
    ensures multiset(s) == multiset(s[..p] + s[p + 1..]) + multiset{s[p]}
  {
    assert s == s[..p] + [s[p]] + s[p + 1..];
  }

  lemma {:induction false} FlattenAllEmpty<T>(ss: seq<seq<T>>)
    requires forall i :: 0 <= i < |ss| ==> ss[i] == []
    ensures Flatten(ss) == []
  {
    if ss != [] { FlattenAllEmpty(ss[1..]); }
  }

  /** Equal multisets have the same members. */
  lemma SameMembers<T>(a: seq<T>, b: seq<T>, x: T)
    requires multiset(a) == multiset(b)
    ensures x in a <==> x in b
  {
    assert x in a <==> x in multiset(a);
  }

  lemma Twice<T>(s: seq<T>, i: nat, j: nat)
    requires i < j < |s| && s[i] == s[j]
    ensures multiset(s)[s[i]] >= 2
  {
    assert s == s[..i] + [s[i]] + s[i + 1..j] + [s[j]] + s[j + 1..];
  }

  /** Takes one occurrence of x out of a sequence. */
  lemma SplitAt<T>(s: seq<T>, x: T) returns (front: seq<T>, back: seq<T>)
    requires x in s
    ensures s == front + [x] + back
  {
    var i :| 0 <= i < |s| && s[i] == x;
    front, back := s[..i], s[i + 1..];
  }

  /** Cancelling one occurrence on each side. */
  lemma CancelOne<T>(a: seq<T>, x: T, front: seq<T>, back: seq<T>)
    requires multiset(a + [x]) == multiset(front + [x] + back)
    ensures multiset(a) == multiset(front + back)
  {
    assert multiset(a + [x]) == multiset(a) + multiset{x};
    assert multiset(front + [x] + back) == multiset(front) + multiset{x} + multiset(back);
    assert multiset(front + back) == multiset(front) + multiset(back);
    assert multiset(a) == multiset(a + [x]) - multiset{x};
    assert multiset(front + back) == multiset(front + [x] + back) - multiset{x};
  }

  lemma SameConcat<T>(a: seq<T>, a': seq<T>, b: seq<T>, b': seq<T>)
    requires multiset(a) == multiset(a') && multiset(b) == multiset(b')
    ensures multiset(a + b) == multiset(a' + b')
  {
  }

  /** One inner list gains elements at its end: so does the whole. */
  lemma {:induction false} FlattenGain<T>(ss: seq<seq<T>>, i: nat, xs: seq<T>)
    requires i < |ss|
    ensures multiset(Flatten(ss[i := ss[i] + xs])) == multiset(Flatten(ss)) + multiset(xs)
  {
    var after := ss[i := ss[i] + xs];
    if i == 0 {
      assert after[1..] == ss[1..];
      MiddleOut(ss[0], xs, Flatten(ss[1..]));
    } else {
      assert after[1..] == ss[1..][i - 1 := ss[i] + xs];
      FlattenGain(ss[1..], i - 1, xs);
      ConcatGain(ss[0], Flatten(ss[1..]), Flatten(after[1..]), xs);
    }
  }

  lemma MiddleOut<T>(a: seq<T>, xs: seq<T>, b: seq<T>)
    ensures multiset(a + xs + b) == multiset(a + b) + multiset(xs)
  {
  }

  lemma ConcatGain<T>(a: seq<T>, b: seq<T>, b': seq<T>, xs: seq<T>)
    requires multiset(b') == multiset(b) + multiset(xs)
    ensures multiset(a + b') == multiset(a + b) + multiset(xs)
  {
  }

  /** Permuting each inner list permutes the whole. */
  lemma {:induction false} FlattenPermutes<T>(ss: seq<seq<T>>, tt: seq<seq<T>>)
    requires |ss| == |tt|
    requires forall i :: 0 <= i < |ss| ==> multiset(ss[i]) == multiset(tt[i])
    ensures multiset(Flatten(ss)) == multiset(Flatten(tt))
  {
    if ss != [] {
      FlattenPermutes(ss[1..], tt[1..]);
      SameConcat(ss[0], tt[0], Flatten(ss[1..]), Flatten(tt[1..]));
    }
  }
}
