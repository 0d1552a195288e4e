/**
 * Secondary-index maintenance: deriving index keys from a document
 * (compute_keys), applying a modification report to one index
 * (rdb_update_single_sindex) and to all of them (rdb_update_sindexes), and the
 * key tester that decides which index entries a primary range erase removes
 * (sindex_key_range_tester_t).
 *
 * An index is a B-tree from index key to the raw slot bytes of the primary
 * row. The query evaluator and the key printers are supplied as functions.
 */
module Sindex {
  import opened Wrappers
  import opened Keys
  import opened Documents
  import opened Modification

  /** How index keys are printed and taken apart (datum_t's key helpers). */
  datatype KeyCodec = KeyCodec(
    printSecondary: (Datum, Key, Option<nat>) -> Result<Key, string>,  // datum_t::print_secondary
    extractPrimary: Key -> Key,                                          // datum_t::extract_primary
    extractTag: Key -> Option<nat>)                                      // datum_t::extract_tag

  /**
   * The relation the code assumes between the printer and the extractors: a
   * printed index key gives back the primary key and the tag it was printed with.
   */
  ghost predicate Coherent(c: KeyCodec) {
    forall v, pk, tag :: c.printSecondary(v, pk, tag).Success? ==>
      && c.extractPrimary(c.printSecondary(v, pk, tag).value) == pk
      && c.extractTag(c.printSecondary(v, pk, tag).value) == tag
  }

  /** A secondary index descriptor: its compiled mapping function and the multi flag. */
  datatype IndexDef = IndexDef(mapping: Datum -> Result<Datum, string>, multi: bool)

  // ---------------------------------------------------------------------------
  // Key derivation

  /** The index keys of the first n array elements, each tagged with its position; the first failure wins. */
  function TaggedKeys(c: KeyCodec, pk: Key, items: seq<Datum>, n: nat): Result<seq<Key>, string>
    requires n <= |items|
    decreases n
  {
    if n == 0 then Success([])
    else
      match TaggedKeys(c, pk, items, n - 1)
      case Failure(e) => Failure(e)
      case Success(ks) =>
        match c.printSecondary(items[n - 1], pk, Some(n - 1))
        case Failure(e) => Failure(e)
        case Success(k) => Success(ks + [k])
  }

  /** The index keys of a document: one per element for a multi index over an array, otherwise one. */
  function DerivedKeys(c: KeyCodec, def: IndexDef, pk: Key, doc: Datum): Result<seq<Key>, string> {
    match def.mapping(doc)
    case Failure(e) => Failure(e)
    case Success(v) =>
      if def.multi && v.Arr? then TaggedKeys(c, pk, v.items, |v.items|)
      else
        match c.printSecondary(v, pk, None)
        case Failure(e) => Failure(e)
        case Success(k) => Success([k])
  }

  lemma {:induction false} TaggedKeysShape(c: KeyCodec, pk: Key, items: seq<Datum>, n: nat)
    requires n <= |items|
    ensures TaggedKeys(c, pk, items, n).Success?
        <==> forall i :: 0 <= i < n ==> c.printSecondary(items[i], pk, Some(i)).Success?
    ensures TaggedKeys(c, pk, items, n).Success? ==>
      var ks := TaggedKeys(c, pk, items, n).value;
      |ks| == n && forall i :: 0 <= i < n ==> ks[i] == c.printSecondary(items[i], pk, Some(i)).value
  {
    if n > 0 {
      TaggedKeysShape(c, pk, items, n - 1);
    }
  }

  lemma {:induction false} TaggedKeysFailureSticks(c: KeyCodec, pk: Key, items: seq<Datum>, n: nat, m: nat)
    requires n <= m <= |items|
    requires TaggedKeys(c, pk, items, n).Failure?
    ensures TaggedKeys(c, pk, items, m) == TaggedKeys(c, pk, items, n)
    decreases m
  {
    if m > n {
      TaggedKeysFailureSticks(c, pk, items, n, m - 1);
    }
  }

  /**
   * compute_keys: for a multi index whose value is an array of n elements,
   * exactly n keys in order, key i printed from element i with tag i;
   * otherwise exactly one key printed from the value without a tag. A failing
   * mapping or printer fails the whole derivation.
   */
  lemma DerivedKeysShape(c: KeyCodec, def: IndexDef, pk: Key, doc: Datum)
    ensures def.mapping(doc).Failure? ==> DerivedKeys(c, def, pk, doc) == Failure(def.mapping(doc).error)
    ensures def.mapping(doc).Success? && def.multi && def.mapping(doc).value.Arr? ==>
      var items := def.mapping(doc).value.items;
      && (DerivedKeys(c, def, pk, doc).Success? <==> forall i :: 0 <= i < |items| ==> c.printSecondary(items[i], pk, Some(i)).Success?)
      && (DerivedKeys(c, def, pk, doc).Success? ==>
            var ks := DerivedKeys(c, def, pk, doc).value;
            |ks| == |items| && forall i :: 0 <= i < |items| ==> ks[i] == c.printSecondary(items[i], pk, Some(i)).value)
    ensures def.mapping(doc).Success? && !(def.multi && def.mapping(doc).value.Arr?) ==>
      var p := c.printSecondary(def.mapping(doc).value, pk, None);
      DerivedKeys(c, def, pk, doc) == (if p.Success? then Success([p.value]) else Failure(p.error))
  {
    if def.mapping(doc).Success? && def.multi && def.mapping(doc).value.Arr? {
      var items := def.mapping(doc).value.items;
      TaggedKeysShape(c, pk, items, |items|);
    }
  }

  /** compute_keys: derive the keys into an initially empty vector. */
  method ComputeKeys(c: KeyCodec, pk: Key, doc: Datum, def: IndexDef) returns (keys: Result<seq<Key>, string>)
    ensures keys == DerivedKeys(c, def, pk, doc)
  {
    var keysOut: seq<Key> := [];
    var index := def.mapping(doc);
    if index.Failure? {
      return Failure(index.error);
    }
    var v := index.value;
    assert def.mapping(doc) == Success(v);
    if def.multi && v.Arr? {
      assert DerivedKeys(c, def, pk, doc) == TaggedKeys(c, pk, v.items, |v.items|);
      var i := 0;
      while i < |v.items|
        invariant 0 <= i <= |v.items|
        invariant TaggedKeys(c, pk, v.items, i) == Success(keysOut)
      {
        var k := c.printSecondary(v.items[i], pk, Some(i));
        if k.Failure? {
          assert TaggedKeys(c, pk, v.items, i + 1) == Failure(k.error);
          TaggedKeysFailureSticks(c, pk, v.items, i + 1, |v.items|);
          return Failure(k.error);
        }
        keysOut := keysOut + [k.value];
        i := i + 1;
      }
    } else {
      var k := c.printSecondary(v, pk, None);
      if k.Failure? {
        return Failure(k.error);
      }
      keysOut := keysOut + [k.value];
      assert keysOut == [k.value];
    }
    keys := Success(keysOut);
  }

  // ---------------------------------------------------------------------------
  // Applying a modification report to one index

  /** The keys one half of a report touches: none if it has no document or its derivation fails. */
  function SideKeys(c: KeyCodec, def: IndexDef, pk: Key, doc: Option<Datum>): seq<Key> {
    if doc.None? then []
    else
      match DerivedKeys(c, def, pk, doc.value)
      case Success(ks) => ks
      case Failure(_) => []
  }

  function RemoveAll(m: map<Key, Bytes>, ks: seq<Key>): map<Key, Bytes> {
    m - (set k | k in ks)
  }

  function SetAll(m: map<Key, Bytes>, ks: seq<Key>, v: Bytes): map<Key, Bytes> {
    m + (map k | k in ks :: v)
  }

  lemma SetAllSnoc(m: map<Key, Bytes>, ks: seq<Key>, k: Key, v: Bytes)
    ensures SetAll(m, ks + [k], v) == SetAll(m, ks, v)[k := v]
  {
    var a := SetAll(m, ks + [k], v);
    var b := SetAll(m, ks, v)[k := v];
    assert a.Keys == b.Keys;
    forall x | x in a ensures a[x] == b[x] {
      if x !in ks + [k] {
        assert x !in ks;
      }
    }
  }

  lemma RemoveAllSnoc(m: map<Key, Bytes>, ks: seq<Key>, k: Key)
    ensures RemoveAll(m, ks + [k]) == RemoveAll(m, ks) - {k}
  {
    assert (set x | x in ks + [k]) == (set x | x in ks) + {k};
  }

  /** rdb_update_single_sindex: drop the old document's keys, then point the new document's keys at its slot bytes. */
  function ApplyReport(c: KeyCodec, def: IndexDef, m: map<Key, Bytes>, r: ModReport): map<Key, Bytes> {
    var deletedKeys := SideKeys(c, def, r.primaryKey, r.info.deleted.doc);
    var addedKeys := SideKeys(c, def, r.primaryKey, r.info.added.doc);
    SetAll(RemoveAll(m, deletedKeys), addedKeys, r.info.added.raw)
  }

  /**
   * What an index holds after a report, key by key: every added key holds
   * the added bytes; every deleted key that is not re-added is gone; every
   * other key is as it was.
   */
  lemma ApplyReportContents(c: KeyCodec, def: IndexDef, m: map<Key, Bytes>, r: ModReport, k: Key)
    ensures var res := ApplyReport(c, def, m, r);
      var deletedKeys := SideKeys(c, def, r.primaryKey, r.info.deleted.doc);
      var addedKeys := SideKeys(c, def, r.primaryKey, r.info.added.doc);
      && (k in addedKeys ==> k in res && res[k] == r.info.added.raw)
      && (k in deletedKeys && k !in addedKeys ==> k !in res)
      && (k !in deletedKeys && k !in addedKeys ==> (k in res <==> k in m) && (k in m ==> res[k] == m[k]))
  {
  }

  /**
   * When the old and new documents derive the same keys, each of those keys
   * ends with exactly one entry, holding the new bytes, and no other key changes.
   */
  lemma SameKeysLeaveOneEntry(c: KeyCodec, def: IndexDef, m: map<Key, Bytes>, r: ModReport, ks: seq<Key>)
    requires r.info.deleted.doc.Some? && r.info.added.doc.Some?
    requires DerivedKeys(c, def, r.primaryKey, r.info.deleted.doc.value) == Success(ks)
    requires DerivedKeys(c, def, r.primaryKey, r.info.added.doc.value) == Success(ks)
    ensures var res := ApplyReport(c, def, m, r);
      && res.Keys == m.Keys + (set k | k in ks)
      && (forall k :: k in ks ==> res[k] == r.info.added.raw)
      && (forall k :: k in m && k !in ks ==> res[k] == m[k])
  {
  }

  /** A derivation error on the deleted side deletes nothing; on the added side it adds nothing. */
  lemma DerivationErrorSkipsSide(c: KeyCodec, def: IndexDef, m: map<Key, Bytes>, r: ModReport)
    ensures r.info.deleted.doc.Some? && DerivedKeys(c, def, r.primaryKey, r.info.deleted.doc.value).Failure? ==>
      ApplyReport(c, def, m, r) == SetAll(m, SideKeys(c, def, r.primaryKey, r.info.added.doc), r.info.added.raw)
    ensures r.info.added.doc.Some? && DerivedKeys(c, def, r.primaryKey, r.info.added.doc.value).Failure? ==>
      ApplyReport(c, def, m, r) == RemoveAll(m, SideKeys(c, def, r.primaryKey, r.info.deleted.doc))
  {
    if r.info.deleted.doc.Some? && DerivedKeys(c, def, r.primaryKey, r.info.deleted.doc.value).Failure? {
      assert RemoveAll(m, []) == m;
    }
    if r.info.added.doc.Some? && DerivedKeys(c, def, r.primaryKey, r.info.added.doc.value).Failure? {
      var d := RemoveAll(m, SideKeys(c, def, r.primaryKey, r.info.deleted.doc));
      assert SetAll(d, [], r.info.added.raw) == d;
    }
  }

  /** A report that names no document (a skipped or unchanged replace) leaves the index as it was. */
  lemma EmptyReportChangesNothing(c: KeyCodec, def: IndexDef, m: map<Key, Bytes>, pk: Key)
    ensures ApplyReport(c, def, m, ModReport(pk, EmptyInfo)) == m
  {
    assert RemoveAll(m, []) == m;
    assert SetAll(m, [], []) == m;
  }

  // ---------------------------------------------------------------------------
  // Range-erase key tester

  /** sindex_key_range_tester_t::key_should_be_erased: test the primary key embedded in the index key. */
  function KeyShouldBeErased(c: KeyCodec, range: KeyRange, key: Key): bool {
    range.Contains(c.extractPrimary(key))
  }

  /** An index key derived for a row is erased exactly when the row's primary key is in the erased range. */
  lemma ErasureFollowsPrimaryKey(c: KeyCodec, def: IndexDef, pk: Key, doc: Datum, range: KeyRange, k: Key)
    requires Coherent(c)
    requires DerivedKeys(c, def, pk, doc).Success?
    requires k in DerivedKeys(c, def, pk, doc).value
    ensures KeyShouldBeErased(c, range, k) <==> range.Contains(pk)
  {
    DerivedKeysShape(c, def, pk, doc);
    var ks := DerivedKeys(c, def, pk, doc).value;
    var i :| 0 <= i < |ks| && ks[i] == k;
    var v := def.mapping(doc).value;
    if def.multi && v.Arr? {
      assert k == c.printSecondary(v.items[i], pk, Some(i)).value;
    } else {
      assert k == c.printSecondary(v, pk, None).value;
    }
  }

  // ---------------------------------------------------------------------------
  // Blob reference release

  /** The deleted slot bytes zero-padded to a full blob reference, as handed to the value deleter. */
  function PadRef(raw: Bytes): (r: Bytes)
    requires |raw| <= MaxRefLen
    ensures |r| == MaxRefLen
    ensures r[..|raw|] == raw
    ensures forall i :: |raw| <= i < MaxRefLen ==> r[i] == 0
  {
    raw + seq(MaxRefLen - |raw|, _ => 0)
  }

  // ---------------------------------------------------------------------------
  // The index B-trees

  class SecondaryIndex {
    const def: IndexDef
    const codec: KeyCodec
    var entries: map<Key, Bytes>

    constructor (d: IndexDef, c: KeyCodec)
      ensures def == d && codec == c && entries == map[]
    {
      def := d;
      codec := c;
      entries := map[];
    }

    /** rdb_update_single_sindex */
    method UpdateSingle(report: ModReport)
      requires |report.primaryKey| != 0
      requires report.info.deleted.doc.Some? ==> report.info.deleted.raw != []
      modifies this
      ensures entries == ApplyReport(codec, def, old(entries), report)
    {
      var pk := report.primaryKey;
      if report.info.deleted.doc.Some? {
        var keys := ComputeKeys(codec, pk, report.info.deleted.doc.value, def);
        if keys.Success? {
          DeleteEach(keys.value);
        } else {
          assert RemoveAll(old(entries), []) == old(entries);
        }
      } else {
        assert RemoveAll(old(entries), []) == old(entries);
      }
      ghost var afterDelete := entries;
      assert afterDelete == RemoveAll(old(entries), SideKeys(codec, def, pk, report.info.deleted.doc));

      if report.info.added.doc.Some? {
        var keys := ComputeKeys(codec, pk, report.info.added.doc.value, def);
        if keys.Success? {
          SetEach(keys.value, report.info.added.raw);
        } else {
          assert SetAll(afterDelete, [], report.info.added.raw) == afterDelete;
        }
      } else {
        assert SetAll(afterDelete, [], report.info.added.raw) == afterDelete;
      }
    }

    /** The deleting loop: remove each key that is present (kv_location_delete without a report). */
    method DeleteEach(keys: seq<Key>)
      modifies this
      ensures entries == RemoveAll(old(entries), keys)
    {
      var i := 0;
      while i < |keys|
        invariant 0 <= i <= |keys|
        invariant entries == RemoveAll(old(entries), keys[..i])
      {
        var k := keys[i];
        if k in entries {
          entries := entries - {k};
        }
        assert keys[..i + 1] == keys[..i] + [k];
        RemoveAllSnoc(old(entries), keys[..i], k);
        i := i + 1;
      }
      assert keys[..|keys|] == keys;
    }

    /** The setting loop: point each key at the given slot bytes (kv_location_set with raw bytes). */
    method SetEach(keys: seq<Key>, raw: Bytes)
      modifies this
      ensures entries == SetAll(old(entries), keys, raw)
    {
      var i := 0;
      while i < |keys|
        invariant 0 <= i <= |keys|
        invariant entries == SetAll(old(entries), keys[..i], raw)
      {
        var k := keys[i];
        entries := entries[k := raw];
        assert keys[..i + 1] == keys[..i] + [k];
        SetAllSnoc(old(entries), keys[..i], k, raw);
        i := i + 1;
      }
      assert keys[..|keys|] == keys;
    }
  }

  /** The precondition rdb_update_single_sindex's guarantees place on a report. */
  predicate ReportReady(r: ModReport) {
    && |r.primaryKey| != 0
    && (r.info.deleted.doc.Some? ==> r.info.deleted.raw != [])
    && |r.info.deleted.raw| <= MaxRefLen
  }

  /**
   * rdb_update_sindexes: apply the report to every index, then hand the
   * deleted slot's reference, zero-padded, to the value deleter (returned here).
   */
  method UpdateSindexes(sindexes: seq<SecondaryIndex>, report: ModReport) returns (released: Option<Bytes>)
    requires forall i, j :: 0 <= i < j < |sindexes| ==> sindexes[i] != sindexes[j]
    requires ReportReady(report)
    modifies set ix | ix in sindexes
    ensures forall i :: 0 <= i < |sindexes| ==>
      sindexes[i].entries == ApplyReport(sindexes[i].codec, sindexes[i].def, old(sindexes[i].entries), report)
    ensures released == if report.info.deleted.doc.Some? then Some(PadRef(report.info.deleted.raw)) else None
  {
    var n := 0;
    while n < |sindexes|
      invariant 0 <= n <= |sindexes|
      invariant forall i :: 0 <= i < n ==>
        sindexes[i].entries == ApplyReport(sindexes[i].codec, sindexes[i].def, old(sindexes[i].entries), report)
      invariant forall i :: n <= i < |sindexes| ==> sindexes[i].entries == old(sindexes[i].entries)
    {
      sindexes[n].UpdateSingle(report);
      n := n + 1;
    }

    released := None;
    if report.info.deleted.doc.Some? {
      var refCopy := report.info.deleted.raw;
      refCopy := refCopy + seq(MaxRefLen - |refCopy|, _ => 0);
      assert |refCopy| == MaxRefLen;
      released := Some(refCopy);
    }
  }
}
