/** Vote-count maps shared by both ledgers.
    A poll's `votes` object maps an option index to a counter; a key that is
    absent reads as 0 (`votes[index] || 0` in the source). Totals are the sum
    of all values of the map, whatever its keys are. */
module Tally {

  /** The count recorded for `index`, 0 when the key is absent. */
  function Get(votes: map<int, nat>, index: int): nat
  {
    if index in votes then votes[index] else 0
  }

  /** An arbitrary element of a non-empty set of keys. */
  ghost function Pick(keys: set<int>): (k: int)
    requires |keys| > 0
    ensures k in keys
  {
    NonEmptyHasElement(keys);
    var k :| k in keys; k
  }

  lemma NonEmptyHasElement(keys: set<int>)
    requires |keys| > 0
    ensures exists k :: k in keys
  {
    if forall k :: k !in keys {
      assert false;
    }
  }

  /** Sum of all values of a vote map (`Object.values(votes).reduce(+, 0)`). */
  ghost function Sum(votes: map<int, nat>): nat
    decreases |votes|
  {
    if |votes| == 0 then 0
    else
      var k := Pick(votes.Keys);
      assert k in votes.Keys;
      votes[k] + Sum(votes - {k})
  }

  /** Taking out any one key takes its value out of the sum. */
  lemma {:induction false} SumRemove(votes: map<int, nat>, k: int)
    requires k in votes
    ensures Sum(votes) == votes[k] + Sum(votes - {k})
    decreases |votes|
  {
    var j := Pick(votes.Keys);
    if j != k {
      var rest := votes - {j};
      assert |rest| < |votes| by { assert j in votes.Keys; }
      SumRemove(rest, k);
      assert rest - {k} == (votes - {k}) - {j};
      var without := votes - {k};
      assert j in without;
      SumRemove(without, j);
    }
  }

  /** Setting one key to `v` changes the sum by `v` minus what the key held. */
  lemma SumUpdate(votes: map<int, nat>, k: int, v: nat)
    ensures Sum(votes[k := v]) + Get(votes, k) == Sum(votes) + v
  {
    var updated := votes[k := v];
    SumRemove(updated, k);
    assert updated - {k} == votes - {k};
    if k in votes {
      SumRemove(votes, k);
    } else {
      assert votes - {k} == votes;
    }
  }

  /** A map whose values are all 0 sums to 0. */
  lemma {:induction false} SumAllZero(votes: map<int, nat>)
    requires forall k :: k in votes ==> votes[k] == 0
    ensures Sum(votes) == 0
    decreases |votes|
  {
    if |votes| != 0 {
      var k := Pick(votes.Keys);
      SumRemove(votes, k);
      SumAllZero(votes - {k});
    }
  }

  /** The fresh tally of a poll: one zero counter for each option index. */
  function ZeroVotes(count: nat): (votes: map<int, nat>)
    ensures forall i :: i in votes <==> 0 <= i < count
    ensures forall i :: i in votes ==> votes[i] == 0
  {
    if count == 0 then map[] else ZeroVotes(count - 1)[count - 1 := 0]
  }

  /** `options.forEach((_, index) => votes[index] = 0)`, starting from `{}`. */
  method InitVotes(options: seq<string>) returns (votes: map<int, nat>)
    ensures votes == ZeroVotes(|options|)
    ensures Sum(votes) == 0
  {
    votes := map[];
    var index := 0;
    while index < |options|
      invariant 0 <= index <= |options|
      invariant votes == ZeroVotes(index)
    {
      votes := votes[index := 0];
      index := index + 1;
    }
    SumAllZero(votes);
  }

  /** The `reduce` that adds up every value of a vote map. */
  method TotalVotes(votes: map<int, nat>) returns (total: nat)
    ensures total == Sum(votes)
  {
    total := 0;
    var rest := votes;
    while rest != map[]
      invariant total + Sum(rest) == Sum(votes)
      decreases |rest|
    {
      var k :| k in rest;
      SumRemove(rest, k);
      total := total + rest[k];
      rest := rest - {k};
    }
  }

  /** Applies `votes[index] = (votes[index] || 0) + 1` once per element of
      `indices`, in order: a repeated index is counted once per occurrence. */
  function CountEach(votes: map<int, nat>, indices: seq<int>): map<int, nat>
    decreases |indices|
  {
    if indices == [] then votes
    else CountEach(votes[indices[0] := Get(votes, indices[0]) + 1], indices[1..])
  }

  /** Each key gains exactly the number of times it occurs in `indices`. */
  lemma {:induction false} CountEachCounts(votes: map<int, nat>, indices: seq<int>, i: int)
    ensures Get(CountEach(votes, indices), i) == Get(votes, i) + multiset(indices)[i]
    ensures (i in CountEach(votes, indices)) <==> (i in votes || i in indices)
    decreases |indices|
  {
    if indices != [] {
      var next := votes[indices[0] := Get(votes, indices[0]) + 1];
      CountEachCounts(next, indices[1..], i);
      assert indices == [indices[0]] + indices[1..];
      assert multiset(indices) == multiset{indices[0]} + multiset(indices[1..]);
    }
  }

  /** The total grows by the length of `indices`. */
  lemma {:induction false} CountEachSum(votes: map<int, nat>, indices: seq<int>)
    ensures Sum(CountEach(votes, indices)) == Sum(votes) + |indices|
    decreases |indices|
  {
    if indices != [] {
      var k := indices[0];
      var next := votes[k := Get(votes, k) + 1];
      assert CountEach(votes, indices) == CountEach(next, indices[1..]);
      SumUpdate(votes, k, Get(votes, k) + 1);
      assert Sum(next) == Sum(votes) + 1;
      CountEachSum(next, indices[1..]);
    }
  }

  /** The pairs one vote `$set`s on the server: each distinct index becomes
      its pre-vote count plus 1, read from the same snapshot. */
  function Bumped(votes: map<int, nat>, indices: seq<int>): map<int, nat>
  {
    map i | i in indices :: Get(votes, i) + 1
  }

  /** One more index in the `forEach` adds its one pair to the snapshot map. */
  lemma BumpedSnoc(votes: map<int, nat>, indices: seq<int>, i: int)
    ensures Bumped(votes, indices + [i]) == Bumped(votes, indices)[i := Get(votes, i) + 1]
  {
    var longer := indices + [i];
    assert forall j :: j in longer <==> j in indices || j == i;
  }

  /** After `$set` of the bumped pairs every distinct index has gained exactly 1
      and every other key is as it was. */
  lemma BumpedCounts(votes: map<int, nat>, indices: seq<int>, i: int)
    ensures Get(votes + Bumped(votes, indices), i) == Get(votes, i) + (if i in indices then 1 else 0)
  {
  }

  /** Overwriting keys with their value plus 1 adds one per overwritten key. */
  lemma {:induction false} SumOverride(votes: map<int, nat>, updates: map<int, nat>)
    requires forall k :: k in updates ==> updates[k] == Get(votes, k) + 1
    ensures Sum(votes + updates) == Sum(votes) + |updates|
    decreases |updates|
  {
    if |updates| == 0 {
      assert updates == map[];
      assert votes + updates == votes;
    } else {
      var k := Pick(updates.Keys);
      OverrideOneMore(votes, updates, k);
      SumOverride(votes, updates - {k});
    }
  }

  /** Of the overriding pairs, the one for `k` adds exactly 1 to the total. */
  lemma OverrideOneMore(votes: map<int, nat>, updates: map<int, nat>, k: int)
    requires k in updates && updates[k] == Get(votes, k) + 1
    ensures Sum(votes + updates) == Sum(votes + (updates - {k})) + 1
    ensures |updates - {k}| == |updates| - 1
  {
    var before := votes + (updates - {k});
    MergeOneMore(votes, updates, k);
    assert Get(before, k) == Get(votes, k);
    SumUpdate(before, k, updates[k]);
  }

  lemma MergeOneMore(votes: map<int, nat>, updates: map<int, nat>, k: int)
    requires k in updates
    ensures votes + updates == (votes + (updates - {k}))[k := updates[k]]
    ensures |updates - {k}| == |updates| - 1
  {
    assert updates.Keys - {k} == (updates - {k}).Keys;
  }

  /** The set of distinct elements of a sequence. */
  function Distinct(indices: seq<int>): set<int>
  {
    set i | i in indices
  }

  /** One server vote raises the total by the number of distinct indices. */
  lemma BumpedSum(votes: map<int, nat>, indices: seq<int>)
    ensures Sum(votes + Bumped(votes, indices)) == Sum(votes) + |Distinct(indices)|
  {
    var updates := Bumped(votes, indices);
    assert updates.Keys == Distinct(indices);
    SumOverride(votes, updates);
  }

  /** The two ledgers part ways on a repeated index: the server's snapshot
      update counts it once, the browser's running update once per occurrence. */
  lemma RepeatedIndex(votes: map<int, nat>, i: int)
    ensures Get(votes + Bumped(votes, [i, i]), i) == Get(votes, i) + 1
    ensures Get(CountEach(votes, [i, i]), i) == Get(votes, i) + 2
  {
    CountEachCounts(votes, [i, i], i);
    assert multiset([i, i])[i] == 2;
  }
}
