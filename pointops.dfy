/**
 * Point operations on the primary B-tree: rdb_get, rdb_set, rdb_delete,
 * kv_location_set / kv_location_delete, and the compare-and-replace executor
 * rdb_replace_and_return_superblock.
 *
 * The B-tree is a map from key to the stored document together with the raw
 * bytes of its value slot. The blob layer, the document printer and the
 * primary-key printer are supplied by a Table value.
 */
module PointOps {
  import opened Wrappers
  import opened Keys
  import opened Documents
  import opened Modification

  /** The table's collaborators that this file only calls. */
  datatype Table = Table(
    primaryKey: string,             // name of the primary-key field
    printPrimary: Datum -> Result<Key, string>,  // datum_t::print_primary, as a store key, or the query error it raises
    render: Datum -> string,        // datum_t::print
    encode: Datum -> Bytes)         // serialize_onto_blob: the slot's inline bytes

  /** Every encoded value occupies a non-empty slot of at most a blob reference. */
  ghost predicate EncodingFits(t: Table) {
    forall d :: 0 < |t.encode(d)| <= MaxRefLen
  }

  datatype Entry = Entry(doc: Datum, raw: Bytes)

  type Store = map<Key, Entry>

  /** Every slot holds the encoding of its document. */
  ghost predicate SlotsEncoded(t: Table, s: Store) {
    forall k :: k in s ==> s[k].raw == t.encode(s[k].doc)
  }

  /** Every stored row is an object with a primary-key field (what the replace executor checks of an existing row). */
  ghost predicate RowsHavePrimaryKey(t: Table, s: Store) {
    forall k :: k in s ==> HasField(s[k].doc, t.primaryKey)
  }

  /** Every stored row is an object whose primary-key field prints to its own key. */
  ghost predicate RowsKeyed(t: Table, s: Store) {
    forall k :: k in s ==> HasField(s[k].doc, t.primaryKey) && t.printPrimary(s[k].doc.fields[t.primaryKey]) == Success(k)
  }

  // ---------------------------------------------------------------------------
  // Specifications of the point operations.

  /** A store together with the modification info an operation filled in. */
  datatype Located = Located(store: Store, info: ModInfo)

  /** kv_location_set: write the encoded document, record the new (and any old) slot bytes. */
  function LocationSet(t: Table, s: Store, key: Key, data: Datum, info: ModInfo): (r: Located)
    requires info.added.raw == []
    requires key in s ==> info.deleted.raw == []
    ensures r.store.Keys == s.Keys + {key}
    ensures r.store[key] == Entry(data, t.encode(data))
    ensures forall k :: k in s && k != key ==> r.store[k] == s[k]
    ensures r.info.added == info.added.(raw := t.encode(data))
    ensures r.info.deleted == if key in s then info.deleted.(raw := s[key].raw) else info.deleted
  {
    var bytes := t.encode(data);
    var info1 := info.(added := info.added.(raw := bytes));
    var info2 := if key in s then info1.(deleted := info1.deleted.(raw := s[key].raw)) else info1;
    Located(s[key := Entry(data, bytes)], info2)
  }

  /** kv_location_delete with a report: drop the key, record the old slot bytes. */
  function LocationDelete(s: Store, key: Key, info: ModInfo): (r: Located)
    requires key in s
    requires info.deleted.raw == []
    ensures r.store.Keys == s.Keys - {key}
    ensures forall k :: k in r.store ==> r.store[k] == s[k]
    ensures r.info == info.(deleted := info.deleted.(raw := s[key].raw))
  {
    Located(s - {key}, info.(deleted := info.deleted.(raw := s[key].raw)))
  }

  /** point_write_result_t */
  datatype WriteResult = Stored | Duplicate

  /** point_delete_result_t */
  datatype DeleteResult = Deleted | Missing

  datatype SetOut = SetOut(store: Store, result: WriteResult, info: ModInfo)

  /** The precondition kv_location_set's guarantees place on rdb_set's report. */
  predicate SetReportReady(s: Store, key: Key, overwrite: bool, info: ModInfo) {
    (overwrite || key !in s) ==> info.added.raw == [] && info.deleted.raw == []
  }

  /** rdb_set */
  function SetSpec(t: Table, s: Store, key: Key, data: Datum, overwrite: bool, info: ModInfo): SetOut
    requires SetReportReady(s, key, overwrite, info)
  {
    var hadValue := key in s;
    var info1 := info.(deleted := if hadValue then info.deleted.(doc := Some(s[key].doc)) else info.deleted);
    var info2 := info1.(added := info1.added.(doc := Some(data)));
    var result := if hadValue then Duplicate else Stored;
    if overwrite || !hadValue then
      var l := LocationSet(t, s, key, data, info2);
      SetOut(l.store, result, l.info)
    else
      SetOut(s, result, info2)
  }

  datatype DeleteOut = DeleteOut(store: Store, result: DeleteResult, info: ModInfo)

  /** rdb_delete with its closing check relaxed to what can hold (see RdbDelete). */
  function DeleteSpec(s: Store, key: Key, info: ModInfo): DeleteOut
    requires key in s ==> info.deleted.raw == []
  {
    if key in s then
      var info1 := info.(deleted := info.deleted.(doc := Some(s[key].doc)));
      var l := LocationDelete(s, key, info1);
      DeleteOut(l.store, Deleted, l.info)
    else
      DeleteOut(s, Missing, info)
  }

  /** The closing guarantee of rdb_delete as written. */
  predicate DeleteGuaranteeAsWritten(info: ModInfo) {
    info.deleted.raw != [] && info.added.raw == []
  }

  // ---------------------------------------------------------------------------
  // Compare-and-replace.

  /** What the replace function did: produced a document, threw a query error, or was interrupted. */
  datatype Eval = Value(d: Datum) | Threw(msg: string) | WasInterrupted

  /** The response object of a replace: field name to value. */
  type Response = map<string, Datum>

  /** The five outcome counters a successful replace records one of. */
  datatype Transition = Skip | Insert | Delete | Keep | Change

  function StatusName(tr: Transition): string {
    match tr
    case Skip => "skipped"
    case Insert => "inserted"
    case Delete => "deleted"
    case Keep => "unchanged"
    case Change => "replaced"
  }

  const StatusNames: set<string> := {"skipped", "inserted", "deleted", "unchanged", "replaced"}

  /** The status counters present in a response. */
  function Statuses(resp: Response): set<string> {
    set n | n in StatusNames && n in resp
  }

  const InterruptedMsg: string := "interrupted (src/rdb_protocol/btree.cc:271)"

  function NotObjectMsg(t: Table, v: Datum): string {
    "Inserted value must be an OBJECT (got " + TypeName(v) + "):\n" + t.render(v)
  }

  function PrimaryKeyChangedMsg(t: Table, startedEmpty: bool, oldVal: Datum, newVal: Datum): string {
    if startedEmpty then
      "Primary key `" + t.primaryKey + "` cannot be changed (null -> " + t.render(newVal) + ")"
    else
      "Primary key `" + t.primaryKey + "` cannot be changed (" + t.render(oldVal) + " -> " + t.render(newVal) + ")"
  }

  function MissingPrimaryKeyMsg(t: Table, newVal: Datum): string {
    "Inserted object must have primary key `" + t.primaryKey + "`:\n" + t.render(newVal)
  }

  /**
   * datum_t::rcheck_valid_replace, reduced to the two facts the replace code
   * relies on afterwards: the new object has the primary-key field, and a row
   * that existed keeps its primary-key value.
   */
  function ValidReplaceError(t: Table, oldVal: Datum, newVal: Datum): (r: Option<string>)
    requires newVal.Obj?
    ensures r.None? ==> HasField(newVal, t.primaryKey)
    ensures r.None? && HasField(oldVal, t.primaryKey) ==> oldVal.fields[t.primaryKey] == newVal.fields[t.primaryKey]
  {
    if t.primaryKey !in newVal.fields then Some(MissingPrimaryKeyMsg(t, newVal))
    else if HasField(oldVal, t.primaryKey) && oldVal.fields[t.primaryKey] != newVal.fields[t.primaryKey] then
      Some(PrimaryKeyChangedMsg(t, false, oldVal, newVal))
    else None
  }

  /**
   * The validation and classification of a replace, before anything is
   * written: the transition, or the error message the replace reports.
   */
  function Classify(t: Table, key: Key, startedEmpty: bool, oldVal: Datum, newVal: Datum): (r: Result<Transition, string>)
    ensures r == Success(Skip) <==> startedEmpty && newVal.Null?
    ensures r == Success(Delete) <==> !startedEmpty && newVal.Null?
    ensures r.Failure? ==> !newVal.Null?
    ensures r.Success? && newVal.Obj? ==> HasField(newVal, t.primaryKey) && t.printPrimary(newVal.fields[t.primaryKey]) == Success(key)
    ensures newVal.Obj? && ValidReplaceError(t, oldVal, newVal).None? && t.printPrimary(newVal.fields[t.primaryKey]).Failure? ==>
      r == Failure(t.printPrimary(newVal.fields[t.primaryKey]).error)
    ensures r.Success? && !newVal.Null? ==> newVal.Obj? && (r.value == Insert <==> startedEmpty)
    ensures r == Success(Keep) <==> !startedEmpty && newVal.Obj? && r.Success? && oldVal == newVal
  {
    if newVal.Null? then
      Success(if startedEmpty then Skip else Delete)
    else if newVal.Obj? then
      match ValidReplaceError(t, oldVal, newVal)
      case Some(msg) => Failure(msg)
      case None =>
        match t.printPrimary(newVal.fields[t.primaryKey])
        case Failure(msg) => Failure(msg)
        case Success(printed) =>
          if printed != key then
            Failure(PrimaryKeyChangedMsg(t, startedEmpty, oldVal, newVal))
          else if startedEmpty then Success(Insert)
          else if oldVal == newVal then Success(Keep)
          else Success(Change)
    else
      Failure(NotObjectMsg(t, newVal))
  }

  /**
   * datum_ptr_t::add_error on a response that has no error yet: one error,
   * and its message as the first error.
   */
  function AddError(resp: Response, msg: string): (r: Response)
    ensures r.Keys == resp.Keys + {"errors", "first_error"}
    ensures r["errors"] == Num(1) && r["first_error"] == Str(msg)
    ensures forall n :: n in resp && n != "errors" && n != "first_error" ==> r[n] == resp[n]
  {
    resp["errors" := Num(1)]["first_error" := Str(msg)]
  }

  datatype ReplaceOut = ReplaceOut(store: Store, resp: Response, info: ModInfo)

  /** The response before the replace function runs: old_val and new_val both the old value, when asked for. */
  function InitialResponse(returnVals: bool, oldVal: Datum): Response {
    if returnVals then map["old_val" := oldVal, "new_val" := oldVal] else map[]
  }

  /** rdb_replace_and_return_superblock */
  function ReplaceSpec(t: Table, s: Store, key: Key, replacer: Datum -> Eval, returnVals: bool, info: ModInfo): ReplaceOut
    requires info.deleted.raw == [] && info.added.raw == []
  {
    var startedEmpty := key !in s;
    var oldVal := if startedEmpty then Null else s[key].doc;
    var resp0 := InitialResponse(returnVals, oldVal);
    match replacer(oldVal)
    case Threw(msg) => ReplaceOut(s, AddError(resp0, msg), info)
    case WasInterrupted => ReplaceOut(s, AddError(resp0, InterruptedMsg), info)
    case Value(newVal) =>
      var resp1 := if returnVals then resp0["new_val" := newVal] else resp0;
      match Classify(t, key, startedEmpty, oldVal, newVal)
      case Failure(msg) => ReplaceOut(s, AddError(resp1, msg), info)
      case Success(tr) =>
        var l := Commit(t, s, key, tr, oldVal, newVal, info);
        ReplaceOut(l.store, resp1[StatusName(tr) := Num(1)], l.info)
  }

  /** The write a classified replace performs, and the report it fills. */
  function Commit(t: Table, s: Store, key: Key, tr: Transition, oldVal: Datum, newVal: Datum, info: ModInfo): Located
    requires info.deleted.raw == [] && info.added.raw == []
    requires tr == Delete ==> key in s
  {
    match tr
    case Skip => Located(s, info)
    case Keep => Located(s, info)
    case Insert =>
      var l := LocationSet(t, s, key, newVal, info);
      l.(info := l.info.(added := l.info.added.(doc := Some(newVal))))
    case Delete =>
      var l := LocationDelete(s, key, info);
      l.(info := l.info.(deleted := l.info.deleted.(doc := Some(oldVal))))
    case Change =>
      var l := LocationSet(t, s, key, newVal, info);
      l.(info := ModInfo(l.info.deleted.(doc := Some(oldVal)), l.info.added.(doc := Some(newVal))))
  }

  // ---------------------------------------------------------------------------
  // The primary B-tree and the operations that change it in place.

  class PrimaryStore {
    const table: Table
    var entries: Store

    ghost predicate Valid()
      reads this
    {
      EncodingFits(table) && SlotsEncoded(table, entries)
    }

    constructor (t: Table)
      requires EncodingFits(t)
      ensures Valid() && table == t && entries == map[]
    {
      table := t;
      entries := map[];
    }

    /** rdb_get: the stored document, or a null document for an absent key. */
    method RdbGet(key: Key) returns (d: Datum)
      ensures key !in entries ==> d == Null
      ensures key in entries ==> d == entries[key].doc
    {
      if key !in entries {
        d := Null;
      } else {
        d := entries[key].doc;
      }
    }

    /** kv_location_set (the document overload). */
    method KvLocationSet(key: Key, data: Datum, info: ModInfo) returns (info': ModInfo)
      requires Valid()
      requires info.added.raw == []
      requires key in entries ==> info.deleted.raw == []
      modifies this
      ensures Valid()
      ensures Located(entries, info') == LocationSet(table, old(entries), key, data, info)
    {
      var newValue := table.encode(data);
      info' := info.(added := info.added.(raw := newValue));
      if key in entries {
        info' := info'.(deleted := info'.deleted.(raw := entries[key].raw));
      }
      entries := entries[key := Entry(data, newValue)];
    }

    /** kv_location_delete with a report. */
    method KvLocationDelete(key: Key, info: ModInfo) returns (info': ModInfo)
      requires Valid()
      requires key in entries
      requires info.deleted.raw == []
      modifies this
      ensures Valid()
      ensures Located(entries, info') == LocationDelete(old(entries), key, info)
    {
      info' := info.(deleted := info.deleted.(raw := entries[key].raw));
      entries := entries - {key};
    }

    /** rdb_set */
    method RdbSet(key: Key, data: Datum, overwrite: bool, info: ModInfo) returns (result: WriteResult, info': ModInfo)
      requires Valid()
      requires SetReportReady(entries, key, overwrite, info)
      modifies this
      ensures Valid()
      ensures SetOut(entries, result, info') == SetSpec(table, old(entries), key, data, overwrite, info)
    {
      var hadValue := key in entries;
      info' := info;
      if key in entries {
        info' := info'.(deleted := info'.deleted.(doc := Some(entries[key].doc)));
      }
      info' := info'.(added := info'.added.(doc := Some(data)));
      if overwrite || !hadValue {
        info' := KvLocationSet(key, data, info');
        assert (info'.deleted.raw == []) == !hadValue && info'.added.raw != [];
      }
      result := if hadValue then Duplicate else Stored;
    }

    /**
     * rdb_delete as written: its closing guarantee demands deleted bytes, so
     * it only passes when the key is present, or when the report already held
     * deleted bytes before the call (which kv_location_delete forbids for a
     * present key).
     */
    method RdbDeleteAsWritten(key: Key, info: ModInfo) returns (result: DeleteResult, info': ModInfo)
      requires Valid()
      requires key in entries ==> info.deleted.raw == []
      requires key !in entries ==> info.deleted.raw != []
      requires info.added.raw == []
      modifies this
      ensures Valid()
      ensures DeleteOut(entries, result, info') == DeleteSpec(old(entries), key, info)
      ensures DeleteGuaranteeAsWritten(info')
    {
      var present := key in entries;
      info' := info;
      if present {
        info' := info'.(deleted := info'.deleted.(doc := Some(entries[key].doc)));
        info' := KvLocationDelete(key, info');
      }
      assert info'.deleted.raw != [] && info'.added.raw == [];
      result := if present then Deleted else Missing;
    }

    /**
     * rdb_delete with the closing guarantee stated as it can hold: deleted
     * bytes are present exactly when the key existed, and nothing was added.
     */
    method RdbDelete(key: Key, info: ModInfo) returns (result: DeleteResult, info': ModInfo)
      requires Valid()
      requires info.deleted.raw == [] && info.added.raw == []
      modifies this
      ensures Valid()
      ensures DeleteOut(entries, result, info') == DeleteSpec(old(entries), key, info)
      ensures (info'.deleted.raw != []) == (result == Deleted) && info'.added.raw == []
    {
      var present := key in entries;
      info' := info;
      if present {
        info' := info'.(deleted := info'.deleted.(doc := Some(entries[key].doc)));
        info' := KvLocationDelete(key, info');
      }
      assert (info'.deleted.raw != []) == present && info'.added.raw == [];
      result := if present then Deleted else Missing;
    }

    /** rdb_replace_and_return_superblock */
    method Replace(key: Key, replacer: Datum -> Eval, returnVals: bool, info: ModInfo) returns (resp: Response, info': ModInfo)
      requires Valid()
      requires info.deleted.raw == [] && info.added.raw == []
      requires key in entries ==> HasField(entries[key].doc, table.primaryKey)
      modifies this
      ensures Valid()
      ensures ReplaceOut(entries, resp, info') == ReplaceSpec(table, old(entries), key, replacer, returnVals, info)
    {
      info' := info;
      var startedEmpty: bool;
      var oldVal: Datum;
      if key !in entries {
        startedEmpty := true;
        oldVal := Null;
      } else {
        startedEmpty := false;
        oldVal := entries[key].doc;
      }
      resp := map[];
      if returnVals {
        resp := resp["old_val" := oldVal]["new_val" := oldVal];
      }

      var outcome := replacer(oldVal);
      if outcome.Threw? {
        resp := AddError(resp, outcome.msg);
        return;
      } else if outcome.WasInterrupted? {
        resp := AddError(resp, InterruptedMsg);
        return;
      }
      var newVal := outcome.d;
      if returnVals {
        assert "new_val" in resp;
        resp := resp["new_val" := newVal];
      }

      var endedEmpty: bool;
      if newVal.Null? {
        endedEmpty := true;
      } else if newVal.Obj? {
        endedEmpty := false;
        var invalid := ValidReplaceError(table, oldVal, newVal);
        if invalid.Some? {
          resp := AddError(resp, invalid.value);
          return;
        }
        var printed := table.printPrimary(newVal.fields[table.primaryKey]);
        if printed.Failure? {
          resp := AddError(resp, printed.error);
          return;
        } else if printed.value != key {
          resp := AddError(resp, PrimaryKeyChangedMsg(table, startedEmpty, oldVal, newVal));
          return;
        }
      } else {
        resp := AddError(resp, NotObjectMsg(table, newVal));
        return;
      }

      // Figure out which transition this is, record it (no status counter is
      // in the response yet, so recording one never conflicts) and perform it.
      var tr: Transition;
      if startedEmpty {
        tr := if endedEmpty then Skip else Insert;
      } else if endedEmpty {
        tr := Delete;
      } else {
        assert oldVal.fields[table.primaryKey] == newVal.fields[table.primaryKey];
        tr := if oldVal == newVal then Keep else Change;
      }
      assert StatusName(tr) !in resp;
      resp := resp[StatusName(tr) := Num(1)];
      info' := CommitTransition(key, tr, oldVal, newVal, info');
    }

    /** The writing half of the replace executor, for an already classified transition. */
    method CommitTransition(key: Key, tr: Transition, oldVal: Datum, newVal: Datum, info: ModInfo) returns (info': ModInfo)
      requires Valid()
      requires info.deleted.raw == [] && info.added.raw == []
      requires (tr == Skip || tr == Insert) <==> key !in entries
      modifies this
      ensures Valid()
      ensures Located(entries, info') == Commit(table, old(entries), key, tr, oldVal, newVal, info)
    {
      info' := info;
      match tr
      case Skip =>
      case Keep =>
      case Insert =>
        assert 0 < |table.encode(newVal)|;
        info' := KvLocationSet(key, newVal, info');
        assert info'.deleted.raw == [] && info'.added.raw != [];
        info' := info'.(added := info'.added.(doc := Some(newVal)));
      case Delete =>
        assert 0 < |table.encode(entries[key].doc)|;
        info' := KvLocationDelete(key, info');
        assert info'.deleted.raw != [] && info'.added.raw == [];
        info' := info'.(deleted := info'.deleted.(doc := Some(oldVal)));
      case Change =>
        assert 0 < |table.encode(newVal)| && 0 < |table.encode(entries[key].doc)|;
        info' := KvLocationSet(key, newVal, info');
        assert info'.deleted.raw != [] && info'.added.raw != [];
        info' := info'.(added := info'.added.(doc := Some(newVal)));
        info' := info'.(deleted := info'.deleted.(doc := Some(oldVal)));
    }
  }
}
