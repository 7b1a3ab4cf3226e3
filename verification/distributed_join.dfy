/**
 A join split over partitions: shuffled on both sides, or broadcast on one
 (minispark/physical/planner.py, `_plan_join`).
 */
module DistributedJoin {
  import opened Values
  import opened Expressions
  import opened Sequences
  import opened Joins
  import opened Shuffle

  /** Rows of equal key reach the same target. */
  ghost predicate KeyPartitioned(j: JoinSpec, pl: Partitioning, pr: Partitioning) {
    && Legal(pl) && Legal(pr) && pl.num == pr.num
    && pl == Partitioning(j.leftKeys, pl.num, Hashed) && pr == Partitioning(j.rightKeys, pr.num, Hashed)
  }

  /** Partition t of the shuffle hash join. */
  function JoinPart(rt: Runtime, j: JoinSpec, pl: Partitioning, pr: Partitioning, left: seq<Record>, right: seq<Record>,
                    t: nat): seq<Record>
    requires Legal(pl) && Legal(pr)
  {
    JoinRows(j, BucketRows(rt, pl, t, left), BucketRows(rt, pr, t, right))
  }

  function JoinParts(rt: Runtime, j: JoinSpec, pl: Partitioning, pr: Partitioning, left: seq<Record>, right: seq<Record>)
    : (ps: seq<seq<Record>>)
    requires Legal(pl) && Legal(pr)
    ensures |ps| == pl.num
    ensures forall t :: 0 <= t < pl.num ==> ps[t] == JoinPart(rt, j, pl, pr, left, right, t)
  {
    seq(pl.num, t requires 0 <= t < pl.num => JoinPart(rt, j, pl, pr, left, right, t))
  }

  /** A target holds every left row of each key it owns. */
  lemma {:induction false} MatchesInBucket(rt: Runtime, j: JoinSpec, pl: Partitioning, left: seq<Record>, k: Key)
    requires Legal(pl) && pl == Partitioning(j.leftKeys, pl.num, Hashed)
    ensures LeftMatches(j, k, BucketRows(rt, pl, rt.hash(k) % pl.num, left)) == LeftMatches(j, k, left)
  {
    if left != [] {
      var front, x := left[..|left| - 1], left[|left| - 1];
      var t := rt.hash(k) % pl.num;
      assert left == front + [x];
      MatchesInBucket(rt, j, pl, front, k);
      BucketSnoc(rt, pl, t, front, x);
      MatchesSnoc(j, k, front, x);
      if TargetOf(rt, pl, x) == t {
        MatchesSnoc(j, k, BucketRows(rt, pl, t, front), x);
      } else {
        assert BucketRows(rt, pl, t, front) + [] == BucketRows(rt, pl, t, front);
        assert LeftMatches(j, k, front) + [] == LeftMatches(j, k, front);
      }
    }
  }

  /** One more right row adds its pairs to its target's part and to no other. */
  lemma JoinPartsSnoc(rt: Runtime, j: JoinSpec, pl: Partitioning, pr: Partitioning, left: seq<Record>, right: seq<Record>,
                      x: Record)
    requires KeyPartitioned(j, pl, pr)
    ensures var ps, t := JoinParts(rt, j, pl, pr, left, right), TargetOf(rt, pr, x);
            JoinParts(rt, j, pl, pr, left, right + [x]) == ps[t := ps[t] + Pairs(j, left, x)]
  {
    var ps, ps' := JoinParts(rt, j, pl, pr, left, right), JoinParts(rt, j, pl, pr, left, right + [x]);
    var t := TargetOf(rt, pr, x);
    forall m | 0 <= m < pl.num ensures ps'[m] == ps[t := ps[t] + Pairs(j, left, x)][m] {
      BucketSnoc(rt, pr, m, right, x);
      if m == t {
        JoinSnoc(j, BucketRows(rt, pl, m, left), BucketRows(rt, pr, m, right), x);
        MatchesInBucket(rt, j, pl, left, EvalAll(j.rightKeys, x));
      } else {
        assert BucketRows(rt, pr, m, right) + [] == BucketRows(rt, pr, m, right);
      }
    }
  }

  /** The shuffle hash join, over all targets, is the inner join of the whole inputs. */
  lemma {:induction false} ShuffleJoinIsJoin(rt: Runtime, j: JoinSpec, pl: Partitioning, pr: Partitioning,
                                             left: seq<Record>, right: seq<Record>)
    requires KeyPartitioned(j, pl, pr)
    ensures multiset(Flatten(JoinParts(rt, j, pl, pr, left, right))) == multiset(JoinRows(j, left, right))
  {
    if right == [] {
      FlattenAllEmpty(JoinParts(rt, j, pl, pr, left, right));
    } else {
      var front, x := right[..|right| - 1], right[|right| - 1];
      assert right == front + [x];
      ShuffleJoinIsJoin(rt, j, pl, pr, left, front);
      JoinPartsSnoc(rt, j, pl, pr, left, front, x);
      JoinSnoc(j, left, front, x);
      FlattenGain(JoinParts(rt, j, pl, pr, left, front), TargetOf(rt, pr, x), Pairs(j, left, x));
    }
  }

  /** Each left partition joined with a full copy of the right side. */
  function BroadcastParts(j: JoinSpec, lefts: seq<seq<Record>>, right: seq<Record>): (ps: seq<seq<Record>>)
    ensures |ps| == |lefts|
    ensures forall i :: 0 <= i < |lefts| ==> ps[i] == JoinRows(j, lefts[i], right)
  {
    seq(|lefts|, i requires 0 <= i < |lefts| => JoinRows(j, lefts[i], right))
  }

  /** The broadcast join, over all left partitions, is the inner join. */
  lemma {:induction false} BroadcastJoinIsJoin(j: JoinSpec, lefts: seq<seq<Record>>, right: seq<Record>)
    ensures multiset(Flatten(BroadcastParts(j, lefts, right))) == multiset(JoinRows(j, Flatten(lefts), right))
  {
    var ps := BroadcastParts(j, lefts, right);
    if lefts == [] {
      JoinNothing(j, right);
    } else {
      assert ps[1..] == BroadcastParts(j, lefts[1..], right);
      BroadcastJoinIsJoin(j, lefts[1..], right);
      JoinLeftAppend(j, lefts[0], Flatten(lefts[1..]), right);
      assert multiset(Flatten(ps)) == multiset(ps[0]) + multiset(Flatten(ps[1..]));
    }
  }

  lemma {:induction false} JoinNothing(j: JoinSpec, right: seq<Record>)
    ensures JoinRows(j, [], right) == []
  {
    if right != [] { JoinNothing(j, right[..|right| - 1]); }
  }
}
