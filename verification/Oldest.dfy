/**
 "ORDER BY key LIMIT n": the query shape of the outbox relay and of the expiry sweeper.
 Ties may come in any order, and in a different one each time.
 */
module Oldest {
  import opened Common

  /** `batch` is an answer of the query over the candidate rows and their sort keys. */
  ghost predicate IsOldest(cands: map<Id, int>, limit: nat, batch: seq<Id>) {
    && |batch| == (if |cands| < limit then |cands| else limit)
    && (forall i :: 0 <= i < |batch| ==> batch[i] in cands)
    && (forall i, j :: 0 <= i < j < |batch| ==> batch[i] != batch[j] && cands[batch[i]] <= cands[batch[j]])
    && (forall i, k :: 0 <= i < |batch| && k in cands && k !in batch ==> cands[batch[i]] <= cands[k])
  }

  /** The candidates left once the rows of `ids` no longer qualify. */
  function Without(cands: map<Id, int>, ids: seq<Id>): map<Id, int> {
    map k | k in cands && k !in ids :: cands[k]
  }

  lemma {:induction false} WithoutSize(cands: map<Id, int>, ids: seq<Id>)
    requires forall i :: 0 <= i < |ids| ==> ids[i] in cands
    requires forall i, j :: 0 <= i < j < |ids| ==> ids[i] != ids[j]
    ensures |Without(cands, ids)| == |cands| - |ids|
  {
    if ids == [] {
      assert Without(cands, ids) == cands;
    } else {
      var front, last := ids[..|ids| - 1], ids[|ids| - 1];
      WithoutSize(cands, front);
      assert Without(cands, front).Keys == Without(cands, ids).Keys + {last};
      assert |Without(cands, front).Keys| == |Without(cands, ids).Keys| + 1;
      assert |Without(cands, front)| == |Without(cands, front).Keys|;
      assert |Without(cands, ids)| == |Without(cands, ids).Keys|;
    }
  }

  lemma WithoutMore(cands: map<Id, int>, ids: seq<Id>, id: Id)
    ensures Without(cands, []) == cands
    ensures Without(Without(cands, ids), [id]) == Without(cands, ids + [id])
    ensures id in cands && id !in ids ==> id in Without(cands, ids)
  {
  }

  lemma {:induction false} MinExists(cands: map<Id, int>, left: set<Id>)
    requires left != {} && left <= cands.Keys
    ensures exists k :: k in left && forall j :: j in left ==> cands[k] <= cands[j]
    decreases |left|
  {
    var k :| k in left;
    if left == {k} {
      assert forall j :: j in left ==> j == k;
    } else {
      var rest := left - {k};
      MinExists(cands, rest);
      var m :| m in rest && forall j :: j in rest ==> cands[m] <= cands[j];
      if cands[k] <= cands[m] {
        assert forall j :: j in left ==> j == k || j in rest;
      } else {
        assert forall j :: j in left ==> j == k || j in rest;
      }
    }
  }

  /** A candidate is left out only by a full answer, whose rows are no younger. */
  lemma LeftOutByFull(cands: map<Id, int>, limit: nat, batch: seq<Id>, k: Id)
    requires IsOldest(cands, limit, batch) && k in cands && k !in batch
    ensures |batch| == limit && forall i :: 0 <= i < |batch| ==> cands[batch[i]] <= cands[k]
  {
    WithoutSize(cands, batch);
    assert k in Without(cands, batch);
  }

  /** `batch` is the sorted beginning of an answer; `left` are the candidates not yet taken. */
  ghost predicate Picked(cands: map<Id, int>, left: set<Id>, batch: seq<Id>) {
    && (forall k :: k in cands <==> k in left || k in batch)
    && (forall k :: k in left ==> k !in batch)
    && |left| + |batch| == |cands|
    && (forall i, j :: 0 <= i < j < |batch| ==> batch[i] != batch[j] && cands[batch[i]] <= cands[batch[j]])
    && (forall i, k :: 0 <= i < |batch| && k in left ==> cands[batch[i]] <= cands[k])
  }

  lemma PickNext(cands: map<Id, int>, left: set<Id>, batch: seq<Id>, next: Id)
    requires Picked(cands, left, batch) && next in left
    requires forall j :: j in left ==> cands[next] <= cands[j]
    ensures Picked(cands, left - {next}, batch + [next])
  {
    var batch' := batch + [next];
    forall i, j | 0 <= i < j < |batch'| ensures batch'[i] != batch'[j] && cands[batch'[i]] <= cands[batch'[j]] {
      assert batch'[i] == batch[i] && batch'[i] in batch;
    }
    forall k ensures k in batch' <==> k in batch || k == next {
      if k in batch {
        var i :| 0 <= i < |batch| && batch[i] == k;
        assert batch'[i] == k;
      }
      assert batch'[|batch|] == next;
    }
    assert |left - {next}| == |left| - 1;
  }

  /** Answers the query, ties broken arbitrarily. */
  method Pick(cands: map<Id, int>, limit: nat) returns (batch: seq<Id>)
    ensures IsOldest(cands, limit, batch)
  {
    batch := [];
    var left := cands.Keys;
    assert |cands| == |cands.Keys|;
    while |batch| < limit && left != {}
      invariant Picked(cands, left, batch) && |batch| <= limit
      decreases left
    {
      assert left <= cands.Keys;
      MinExists(cands, left);
      var next :| next in left && forall j :: j in left ==> cands[next] <= cands[j];
      PickNext(cands, left, batch, next);
      batch := batch + [next];
      left := left - {next};
    }
  }

  /** Successive answers, each over what the earlier ones left behind. */
  ghost predicate Rounds(cands: map<Id, int>, limit: nat, batches: seq<seq<Id>>)
    decreases |batches|
  {
    batches == [] || (IsOldest(cands, limit, batches[0]) && Rounds(Without(cands, batches[0]), limit, batches[1..]))
  }

  ghost function Left(cands: map<Id, int>, batches: seq<seq<Id>>): map<Id, int>
    decreases |batches|
  {
    if batches == [] then cands else Left(Without(cands, batches[0]), batches[1..])
  }

  /** Each round takes `limit` candidates, or the rest. */
  lemma {:induction false} RoundsTake(cands: map<Id, int>, limit: nat, batches: seq<seq<Id>>)
    requires Rounds(cands, limit, batches)
    ensures |Left(cands, batches)| == Remaining(|cands|, limit, |batches|)
    decreases |batches|
  {
    if batches != [] {
      WithoutSize(cands, batches[0]);
      RoundsTake(Without(cands, batches[0]), limit, batches[1..]);
    }
  }

  function Remaining(n: nat, limit: nat, rounds: nat): nat {
    if rounds == 0 then n else Remaining(if n < limit then 0 else n - limit, limit, rounds - 1)
  }

  lemma {:induction false} RemainingIs(n: nat, limit: nat, rounds: nat)
    ensures Remaining(n, limit, rounds) == if rounds * limit >= n then 0 else n - rounds * limit
    decreases rounds
  {
    if rounds > 0 {
      RemainingIs(if n < limit then 0 else n - limit, limit, rounds - 1);
      assert rounds * limit == limit + (rounds - 1) * limit;
      assert (rounds - 1) * limit >= 0;
    }
  }

  lemma RemainingSnoc(n: nat, limit: nat, rounds: nat)
    ensures Remaining(Remaining(n, limit, rounds), limit, 1) == Remaining(n, limit, rounds + 1)
  {
    RemainingIs(n, limit, rounds);
    RemainingIs(n, limit, rounds + 1);
    RemainingIs(Remaining(n, limit, rounds), limit, 1);
    assert (rounds + 1) * limit == rounds * limit + limit;
  }

  /** n candidates are gone after ceil(n / limit) rounds, and not before. */
  lemma RoundsDrain(cands: map<Id, int>, limit: nat, batches: seq<seq<Id>>)
    requires limit > 0 && Rounds(cands, limit, batches)
    ensures |Left(cands, batches)| == if |batches| * limit >= |cands| then 0 else |cands| - |batches| * limit
    ensures Left(cands, batches) == map[] <==> |batches| >= CeilDiv(|cands|, limit)
  {
    RoundsTake(cands, limit, batches);
    RemainingIs(|cands|, limit, |batches|);
    CeilDivLeast(|cands|, limit, |batches|);
  }

  lemma CeilDivLeast(n: nat, d: nat, k: nat)
    requires d > 0
    ensures k >= CeilDiv(n, d) <==> k * d >= n
  {
    var q := CeilDiv(n, d);
    if k >= q {
      MulMonotone(q, k, d);
    } else {
      MulMonotone(k, q - 1, d);
    }
  }
}
