/**
 * rdb_distribution_get: the B-tree reports how many keys it holds and a list
 * of split keys sampled at a given depth; the response assigns every bucket
 * (the one starting at the shard's left key, and one per split key) the same
 * estimated key count.
 */
module Distribution {
  import opened Keys

  /**
   * keys_per_bucket: the whole count when there are no splits, otherwise the
   * count divided evenly among the splits (rounded down) but never below one.
   * The count is non-negative, so the source's truncating int64 division is
   * floor division here.
   */
  function KeysPerBucket(keyCount: nat, splits: nat): (r: nat)
    ensures splits == 0 ==> r == keyCount
    ensures splits > 0 ==> r >= 1
    ensures splits > 0 && keyCount >= splits ==> r * splits <= keyCount < (r + 1) * splits
    ensures splits > 0 && keyCount < splits ==> r == 1
  {
    if splits == 0 then keyCount
    else if keyCount / splits < 1 then 1
    else keyCount / splits
  }

  /** rdb_distribution_get: fill the response's key counts from the tree's count and split keys. */
  method DistributionGet(keyCount: nat, keySplits: seq<Key>, leftKey: Key) returns (keyCounts: map<Key, nat>)
    ensures keyCounts.Keys == {leftKey} + set k | k in keySplits
    ensures forall k :: k in keyCounts ==> keyCounts[k] == KeysPerBucket(keyCount, |keySplits|)
  {
    var perBucket := KeysPerBucket(keyCount, |keySplits|);
    keyCounts := map[leftKey := perBucket];
    var i := 0;
    while i < |keySplits|
      invariant 0 <= i <= |keySplits|
      invariant keyCounts.Keys == {leftKey} + set k | k in keySplits[..i]
      invariant forall k :: k in keyCounts ==> keyCounts[k] == perBucket
    {
      assert keySplits[..i + 1] == keySplits[..i] + [keySplits[i]];
      keyCounts := keyCounts[keySplits[i] := perBucket];
      i := i + 1;
    }
    assert keySplits[..|keySplits|] == keySplits;
  }
}
