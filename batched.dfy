/**
 * rdb_batched_replace, by its sequential effect: the per-key replaces run
 * against the primary store in submission order (the superblock is handed
 * from one key's task to the next), and their modification reports reach the
 * secondary indexes in that order (the FIFO exit token of each per-key task
 * admits on_mod_report only after every earlier key's). The source merges
 * each response into the statistics before waiting on that token, so in
 * completion order; the model fixes one schedule and merges in submission
 * order.
 */
module Batched {
  import opened Wrappers
  import opened Keys
  import opened Documents
  import opened Modification
  import opened PointOps
  import opened PointProperties
  import opened Sindex

  /** one_replace_t: the batch's replace function, bound to the key's position. */
  function OneReplace(replacer: (Datum, nat) -> Eval, index: nat): Datum -> Eval {
    d => replacer(d, index)
  }

  datatype BatchOut = BatchOut(store: Store, stats: Response, reports: seq<ModReport>)

  /** The sequential effect of replacing keys[0], keys[1], ... in order, each with a fresh report. */
  function BatchSpec(t: Table, s: Store, keys: seq<Key>, replacer: (Datum, nat) -> Eval, returnVals: bool,
                     merge: (Response, Response) -> Response): BatchOut
    decreases |keys|
  {
    if keys == [] then BatchOut(s, map[], [])
    else
      var n := |keys| - 1;
      var prev := BatchSpec(t, s, keys[..n], replacer, returnVals, merge);
      var o := ReplaceSpec(t, prev.store, keys[n], OneReplace(replacer, n), returnVals, EmptyInfo);
      BatchOut(o.store, merge(prev.stats, o.resp), prev.reports + [ModReport(keys[n], o.info)])
  }

  /** An index after the given reports, applied in order. */
  function ApplyReports(c: KeyCodec, def: IndexDef, m: map<Key, Bytes>, reports: seq<ModReport>): map<Key, Bytes>
    decreases |reports|
  {
    if reports == [] then m
    else ApplyReport(c, def, ApplyReports(c, def, m, reports[..|reports| - 1]), reports[|reports| - 1])
  }

  /** Report i of a batch is the report of keys[i]: indexes see the modifications in submission order. */
  lemma {:induction false} BatchReportsInSubmissionOrder(t: Table, s: Store, keys: seq<Key>, replacer: (Datum, nat) -> Eval,
                                                         returnVals: bool, merge: (Response, Response) -> Response)
    ensures var b := BatchSpec(t, s, keys, replacer, returnVals, merge);
      |b.reports| == |keys| && forall i :: 0 <= i < |keys| ==> b.reports[i].primaryKey == keys[i]
  {
    if keys != [] {
      var n := |keys| - 1;
      BatchReportsInSubmissionOrder(t, s, keys[..n], replacer, returnVals, merge);
    }
  }

  /** Report i of a batch is exactly what replacing keys[i] alone did to the store left by keys[..i]. */
  lemma {:induction false} BatchIsSequentialFold(t: Table, s: Store, keys: seq<Key>, replacer: (Datum, nat) -> Eval,
                                                 returnVals: bool, merge: (Response, Response) -> Response, i: nat)
    requires i < |keys|
    ensures var before := BatchSpec(t, s, keys[..i], replacer, returnVals, merge).store;
      var o := ReplaceSpec(t, before, keys[i], OneReplace(replacer, i), returnVals, EmptyInfo);
      && |BatchSpec(t, s, keys, replacer, returnVals, merge).reports| == |keys|
      && BatchSpec(t, s, keys, replacer, returnVals, merge).reports[i] == ModReport(keys[i], o.info)
    decreases |keys|
  {
    var n := |keys| - 1;
    BatchReportsInSubmissionOrder(t, s, keys, replacer, returnVals, merge);
    var prev := BatchSpec(t, s, keys[..n], replacer, returnVals, merge);
    var last := ReplaceSpec(t, prev.store, keys[n], OneReplace(replacer, n), returnVals, EmptyInfo);
    assert BatchSpec(t, s, keys, replacer, returnVals, merge).reports == prev.reports + [ModReport(keys[n], last.info)];
    if i < n {
      assert keys[..n][..i] == keys[..i];
      BatchIsSequentialFold(t, s, keys[..n], replacer, returnVals, merge, i);
    } else {
      assert keys[..n] == keys[..i];
    }
  }

  /** Every report of a batch over a well-formed store is sound, and the store stays well-formed. */
  lemma {:induction false} BatchReportsSound(t: Table, s: Store, keys: seq<Key>, replacer: (Datum, nat) -> Eval,
                                             returnVals: bool, merge: (Response, Response) -> Response)
    requires EncodingFits(t) && SlotsEncoded(t, s)
    ensures var b := BatchSpec(t, s, keys, replacer, returnVals, merge);
      SlotsEncoded(t, b.store) && forall i :: 0 <= i < |b.reports| ==> InfoSound(b.reports[i].info)
    decreases |keys|
  {
    if keys != [] {
      var n := |keys| - 1;
      BatchReportsSound(t, s, keys[..n], replacer, returnVals, merge);
      var prev := BatchSpec(t, s, keys[..n], replacer, returnVals, merge);
      ReplaceReportSound(t, prev.store, keys[n], OneReplace(replacer, n), returnVals);
      ReplaceKeepsSlotsEncoded(t, prev.store, keys[n], OneReplace(replacer, n), returnVals, EmptyInfo);
    }
  }

  /** One per-key task of the batch: the replace, then its report handed to every index. */
  method ReplaceAndReport(store: PrimaryStore, sindexes: seq<SecondaryIndex>, key: Key, replacer: Datum -> Eval, returnVals: bool)
    returns (resp: Response, report: ModReport)
    requires store.Valid() && RowsHavePrimaryKey(store.table, store.entries)
    requires |key| != 0
    requires forall i, j :: 0 <= i < j < |sindexes| ==> sindexes[i] != sindexes[j]
    modifies store, set ix | ix in sindexes
    ensures store.Valid() && RowsHavePrimaryKey(store.table, store.entries)
    ensures var o := ReplaceSpec(store.table, old(store.entries), key, replacer, returnVals, EmptyInfo);
      store.entries == o.store && resp == o.resp && report == ModReport(key, o.info)
    ensures forall j :: 0 <= j < |sindexes| ==>
      sindexes[j].entries == ApplyReport(sindexes[j].codec, sindexes[j].def, old(sindexes[j].entries), report)
  {
    ghost var before := store.entries;
    var info;
    resp, info := store.Replace(key, replacer, returnVals, EmptyInfo);
    ReplaceReportSound(store.table, before, key, replacer, returnVals);
    ReplaceKeepsPrimaryKeys(store.table, before, key, replacer, returnVals, EmptyInfo);
    report := ModReport(key, info);
    var _ := UpdateSindexes(sindexes, report);
  }

  /** rdb_batched_replace, with sindex_cb->on_mod_report applying each report to the indexes; returns the statistics, merged in submission order, and the reports in the order they were applied. */
  method BatchedReplace(store: PrimaryStore, sindexes: seq<SecondaryIndex>, keys: seq<Key>,
                        replacer: (Datum, nat) -> Eval, returnVals: bool,
                        merge: (Response, Response) -> Response)
    returns (stats: Response, applied: seq<ModReport>)
    requires store.Valid() && RowsHavePrimaryKey(store.table, store.entries)
    requires forall i :: 0 <= i < |keys| ==> |keys[i]| != 0
    requires forall i, j :: 0 <= i < j < |sindexes| ==> sindexes[i] != sindexes[j]
    modifies store, set ix | ix in sindexes
    ensures store.Valid()
    ensures BatchOut(store.entries, stats, applied) == BatchSpec(store.table, old(store.entries), keys, replacer, returnVals, merge)
    ensures forall j :: 0 <= j < |sindexes| ==>
      sindexes[j].entries == ApplyReports(sindexes[j].codec, sindexes[j].def, old(sindexes[j].entries), applied)
  {
    stats := map[];
    applied := [];
    var i := 0;
    while i < |keys|
      invariant 0 <= i <= |keys|
      invariant store.Valid() && RowsHavePrimaryKey(store.table, store.entries)
      invariant BatchOut(store.entries, stats, applied) == BatchSpec(store.table, old(store.entries), keys[..i], replacer, returnVals, merge)
      invariant forall j :: 0 <= j < |sindexes| ==>
        sindexes[j].entries == ApplyReports(sindexes[j].codec, sindexes[j].def, old(sindexes[j].entries), applied)
    {
      var resp, report := ReplaceAndReport(store, sindexes, keys[i], OneReplace(replacer, i), returnVals);
      stats := merge(stats, resp);
      assert (applied + [report])[..|applied|] == applied;
      applied := applied + [report];
      assert keys[..i + 1][..i] == keys[..i];
      i := i + 1;
    }
    assert keys[..|keys|] == keys;
  }
}
