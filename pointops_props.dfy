/**
 * What the point operations promise, stated over their specifications:
 * rdb_set's overwrite/duplicate rule, rdb_delete on present and missing keys,
 * and the five-way transition table of the replace executor with its failures.
 */
module PointProperties {
  import opened Wrappers
  import opened Keys
  import opened Documents
  import opened Modification
  import opened PointOps

  // ---------------------------------------------------------------------------
  // rdb_set

  /** rdb_set writes exactly when overwriting is allowed or the key is absent, and answers DUPLICATE iff a value existed. */
  lemma SetWritesIffAllowed(t: Table, s: Store, key: Key, data: Datum, overwrite: bool, info: ModInfo)
    requires SetReportReady(s, key, overwrite, info)
    ensures var o := SetSpec(t, s, key, data, overwrite, info);
      && (o.result == Duplicate <==> key in s)
      && (overwrite || key !in s ==> o.store == s[key := Entry(data, t.encode(data))])
      && (!overwrite && key in s ==> o.store == s)
  {
  }

  /** Two non-overwriting sets of an absent key: the first stores, the second answers DUPLICATE and keeps the first document. */
  lemma SetTwiceKeepsFirst(t: Table, s: Store, key: Key, d1: Datum, d2: Datum)
    requires key !in s
    ensures var o1 := SetSpec(t, s, key, d1, false, EmptyInfo);
      var o2 := SetSpec(t, o1.store, key, d2, false, EmptyInfo);
      && o1.result == Stored && o2.result == Duplicate
      && o2.store == o1.store && o2.store[key].doc == d1
  {
  }

  /** A set that writes fills a consistent report: the new document and bytes, and the old ones iff a value existed. */
  lemma SetReportOnWrite(t: Table, s: Store, key: Key, data: Datum, overwrite: bool)
    requires EncodingFits(t) && SlotsEncoded(t, s)
    requires overwrite || key !in s
    ensures var o := SetSpec(t, s, key, data, overwrite, EmptyInfo);
      && InfoSound(o.info)
      && o.info.added == Half(Some(data), t.encode(data))
      && o.info.deleted == (if key in s then Half(Some(s[key].doc), s[key].raw) else NoHalf)
  {
  }

  /**
   * A non-overwriting set of an existing key writes nothing but still names
   * both documents in the report, with no slot bytes behind them.
   */
  lemma DuplicateSetReportHasNoBytes(t: Table, s: Store, key: Key, data: Datum)
    requires key in s
    ensures var o := SetSpec(t, s, key, data, false, EmptyInfo);
      && o.store == s && o.result == Duplicate
      && o.info == ModInfo(Half(Some(s[key].doc), []), Half(Some(data), []))
      && !InfoSound(o.info)
  {
  }

  // ---------------------------------------------------------------------------
  // rdb_delete

  /** Deleting a present key removes it and reports its document and slot bytes as deleted, nothing as added. */
  lemma DeletePresentReportsDeleted(s: Store, key: Key)
    requires key in s
    ensures var o := DeleteSpec(s, key, EmptyInfo);
      && o.result == Deleted
      && o.store == s - {key}
      && o.info == ModInfo(Half(Some(s[key].doc), s[key].raw), NoHalf)
  {
  }

  /** Deleting a missing key answers MISSING, changes nothing and leaves the report as it was. */
  lemma DeleteMissingReportsNothing(s: Store, key: Key, info: ModInfo)
    requires key !in s
    ensures DeleteSpec(s, key, info) == DeleteOut(s, Missing, info)
  {
  }

  /** rdb_delete's closing guarantee fails whenever a fresh report meets a missing key. */
  lemma MissingDeleteFailsGuarantee(s: Store, key: Key, info: ModInfo)
    requires key !in s
    requires info.deleted.raw == []
    ensures DeleteSpec(s, key, info).result == Missing
    ensures !DeleteGuaranteeAsWritten(DeleteSpec(s, key, info).info)
  {
  }

  // ---------------------------------------------------------------------------
  // Replace: the transition table.

  function Apply(t: Table, s: Store, key: Key, replacer: Datum -> Eval, returnVals: bool): ReplaceOut {
    ReplaceSpec(t, s, key, replacer, returnVals, EmptyInfo)
  }

  /** Absent key and a null result: only "skipped" is recorded and nothing is written. */
  lemma AbsentToNullSkips(t: Table, s: Store, key: Key, replacer: Datum -> Eval, returnVals: bool)
    requires key !in s && replacer(Null) == Value(Null)
    ensures var o := Apply(t, s, key, replacer, returnVals);
      && o.store == s && o.info == EmptyInfo
      && Statuses(o.resp) == {"skipped"} && o.resp["skipped"] == Num(1) && "errors" !in o.resp
  {
    var o := Apply(t, s, key, replacer, returnVals);
    assert Statuses(o.resp) == {"skipped"};
  }

  /** An object whose primary-key field is present and prints to the key. */
  predicate KeyedObject(t: Table, key: Key, d: Datum) {
    HasField(d, t.primaryKey) && t.printPrimary(d.fields[t.primaryKey]) == Success(key)
  }

  /** Absent key and a keyed object: the key is written and only the added half is reported. */
  lemma AbsentToObjectInserts(t: Table, s: Store, key: Key, replacer: Datum -> Eval, returnVals: bool, d: Datum)
    requires key !in s && replacer(Null) == Value(d) && KeyedObject(t, key, d)
    ensures var o := Apply(t, s, key, replacer, returnVals);
      && o.store == s[key := Entry(d, t.encode(d))]
      && o.info == ModInfo(NoHalf, Half(Some(d), t.encode(d)))
      && Statuses(o.resp) == {"inserted"} && "errors" !in o.resp
  {
    var o := Apply(t, s, key, replacer, returnVals);
    assert Statuses(o.resp) == {"inserted"};
  }

  /** Present key and a null result: the key is removed and only the deleted half is reported. */
  lemma PresentToNullDeletes(t: Table, s: Store, key: Key, replacer: Datum -> Eval, returnVals: bool)
    requires key in s && replacer(s[key].doc) == Value(Null)
    ensures var o := Apply(t, s, key, replacer, returnVals);
      && o.store == s - {key}
      && o.info == ModInfo(Half(Some(s[key].doc), s[key].raw), NoHalf)
      && Statuses(o.resp) == {"deleted"} && "errors" !in o.resp
  {
    var o := Apply(t, s, key, replacer, returnVals);
    assert Statuses(o.resp) == {"deleted"};
  }

  /** Present key and an equal object: "unchanged", no write, empty report. */
  lemma PresentToEqualUnchanged(t: Table, s: Store, key: Key, replacer: Datum -> Eval, returnVals: bool)
    requires key in s && replacer(s[key].doc) == Value(s[key].doc) && KeyedObject(t, key, s[key].doc)
    ensures var o := Apply(t, s, key, replacer, returnVals);
      && o.store == s && o.info == EmptyInfo
      && Statuses(o.resp) == {"unchanged"} && "errors" !in o.resp
  {
    var o := Apply(t, s, key, replacer, returnVals);
    assert Statuses(o.resp) == {"unchanged"};
  }

  /** Present key and a different object with the same primary key: written, both halves reported. */
  lemma PresentToOtherReplaces(t: Table, s: Store, key: Key, replacer: Datum -> Eval, returnVals: bool, d: Datum)
    requires key in s && replacer(s[key].doc) == Value(d) && d != s[key].doc
    requires KeyedObject(t, key, d)
    requires HasField(s[key].doc, t.primaryKey) && s[key].doc.fields[t.primaryKey] == d.fields[t.primaryKey]
    ensures var o := Apply(t, s, key, replacer, returnVals);
      && o.store == s[key := Entry(d, t.encode(d))]
      && o.info == ModInfo(Half(Some(s[key].doc), s[key].raw), Half(Some(d), t.encode(d)))
      && Statuses(o.resp) == {"replaced"} && "errors" !in o.resp
  {
    var o := Apply(t, s, key, replacer, returnVals);
    assert Statuses(o.resp) == {"replaced"};
  }

  // ---------------------------------------------------------------------------
  // Replace: failures.

  /** A result that is neither null nor an object is refused with the OBJECT message, before any write. */
  lemma NonObjectIsRefused(t: Table, s: Store, key: Key, replacer: Datum -> Eval, returnVals: bool, d: Datum)
    requires replacer(if key in s then s[key].doc else Null) == Value(d)
    requires !d.Null? && !d.Obj?
    ensures var o := Apply(t, s, key, replacer, returnVals);
      && o.store == s && o.info == EmptyInfo
      && o.resp["first_error"] == Str(NotObjectMsg(t, d)) && o.resp["errors"] == Num(1)
      && Statuses(o.resp) == {}
  {
    var o := Apply(t, s, key, replacer, returnVals);
    assert Statuses(o.resp) == {};
  }

  /** An object whose primary key prints to another key is refused with the "cannot be changed" message, before any write. */
  lemma ChangedPrimaryKeyIsRefused(t: Table, s: Store, key: Key, replacer: Datum -> Eval, returnVals: bool, d: Datum)
    requires replacer(if key in s then s[key].doc else Null) == Value(d)
    requires HasField(d, t.primaryKey) && t.printPrimary(d.fields[t.primaryKey]) != Success(key)
    requires t.printPrimary(d.fields[t.primaryKey]).Success?
    ensures var o := Apply(t, s, key, replacer, returnVals);
      var oldVal := if key in s then s[key].doc else Null;
      && o.store == s && o.info == EmptyInfo
      && o.resp["first_error"] == Str(PrimaryKeyChangedMsg(t, key !in s, oldVal, d))
      && Statuses(o.resp) == {}
  {
    var o := Apply(t, s, key, replacer, returnVals);
    assert Statuses(o.resp) == {};
  }

  /**
   * A primary-key value that cannot be printed as a key (print_primary raises
   * a query error) is reported with that error, before any write, once the
   * replace validity check has passed.
   */
  lemma UnprintablePrimaryKeyIsReported(t: Table, s: Store, key: Key, replacer: Datum -> Eval, returnVals: bool, d: Datum, msg: string)
    requires replacer(if key in s then s[key].doc else Null) == Value(d)
    requires HasField(d, t.primaryKey) && t.printPrimary(d.fields[t.primaryKey]) == Failure(msg)
    requires key in s && HasField(s[key].doc, t.primaryKey) ==> s[key].doc.fields[t.primaryKey] == d.fields[t.primaryKey]
    ensures var o := Apply(t, s, key, replacer, returnVals);
      && o.store == s && o.info == EmptyInfo
      && o.resp["errors"] == Num(1) && o.resp["first_error"] == Str(msg)
      && Statuses(o.resp) == {}
  {
    var o := Apply(t, s, key, replacer, returnVals);
    assert Statuses(o.resp) == {};
  }

  /** An error or interruption in the replace function becomes an error entry; the store and report stay as they were. */
  lemma EvaluationFailureIsReported(t: Table, s: Store, key: Key, replacer: Datum -> Eval, returnVals: bool)
    requires !replacer(if key in s then s[key].doc else Null).Value?
    ensures var o := Apply(t, s, key, replacer, returnVals);
      var e := replacer(if key in s then s[key].doc else Null);
      && o.store == s && o.info == EmptyInfo
      && o.resp["errors"] == Num(1)
      && o.resp["first_error"] == Str(if e.Threw? then e.msg else InterruptedMsg)
      && Statuses(o.resp) == {}
  {
    var o := Apply(t, s, key, replacer, returnVals);
    assert Statuses(o.resp) == {};
  }

  /**
   * Every replace either records exactly one status counter (set to one) and
   * no error, or records an error, no status, and leaves store and report untouched.
   */
  lemma ReplaceRecordsOneOutcome(t: Table, s: Store, key: Key, replacer: Datum -> Eval, returnVals: bool, info: ModInfo)
    requires info.deleted.raw == [] && info.added.raw == []
    ensures var o := ReplaceSpec(t, s, key, replacer, returnVals, info);
      || ("errors" in o.resp && Statuses(o.resp) == {} && o.store == s && o.info == info)
      || ("errors" !in o.resp && |Statuses(o.resp)| == 1 && forall n :: n in Statuses(o.resp) ==> o.resp[n] == Num(1))
  {
    var oldVal := if key in s then s[key].doc else Null;
    var resp0 := InitialResponse(returnVals, oldVal);
    assert Statuses(resp0) == {} && "errors" !in resp0;
    match replacer(oldVal)
    case Threw(msg) =>
      ErrorLeavesNoStatus(resp0, msg);
    case WasInterrupted =>
      ErrorLeavesNoStatus(resp0, InterruptedMsg);
    case Value(newVal) =>
      var resp1 := if returnVals then resp0["new_val" := newVal] else resp0;
      assert Statuses(resp1) == {} && "errors" !in resp1;
      match Classify(t, key, key !in s, oldVal, newVal)
      case Failure(msg) =>
        ErrorLeavesNoStatus(resp1, msg);
      case Success(tr) =>
        StatusIsTheOnlyOne(resp1, tr);
  }

  lemma ErrorLeavesNoStatus(resp: Response, msg: string)
    requires Statuses(resp) == {}
    ensures "errors" in AddError(resp, msg) && Statuses(AddError(resp, msg)) == {}
  {
    assert Statuses(AddError(resp, msg)) == {};
  }

  lemma StatusIsTheOnlyOne(resp: Response, tr: Transition)
    requires Statuses(resp) == {} && "errors" !in resp
    ensures var r := resp[StatusName(tr) := Num(1)];
      && "errors" !in r && Statuses(r) == {StatusName(tr)} && r[StatusName(tr)] == Num(1)
  {
    assert Statuses(resp[StatusName(tr) := Num(1)]) == {StatusName(tr)};
  }

  /** Replace keeps every row an object keyed by its own primary key. */
  lemma ReplaceKeepsRowsKeyed(t: Table, s: Store, key: Key, replacer: Datum -> Eval, returnVals: bool, info: ModInfo)
    requires info.deleted.raw == [] && info.added.raw == []
    requires RowsKeyed(t, s)
    ensures RowsKeyed(t, ReplaceSpec(t, s, key, replacer, returnVals, info).store)
  {
  }

  /** Replace keeps every row an object with a primary-key field. */
  lemma ReplaceKeepsPrimaryKeys(t: Table, s: Store, key: Key, replacer: Datum -> Eval, returnVals: bool, info: ModInfo)
    requires info.deleted.raw == [] && info.added.raw == []
    requires RowsHavePrimaryKey(t, s)
    ensures RowsHavePrimaryKey(t, ReplaceSpec(t, s, key, replacer, returnVals, info).store)
  {
  }

  /** Replace keeps every slot the encoding of its document. */
  lemma ReplaceKeepsSlotsEncoded(t: Table, s: Store, key: Key, replacer: Datum -> Eval, returnVals: bool, info: ModInfo)
    requires info.deleted.raw == [] && info.added.raw == []
    requires SlotsEncoded(t, s)
    ensures SlotsEncoded(t, ReplaceSpec(t, s, key, replacer, returnVals, info).store)
  {
  }

  /** The report of a replace on a fresh info is sound: a document in a half iff slot bytes, all within a blob reference. */
  lemma ReplaceReportSound(t: Table, s: Store, key: Key, replacer: Datum -> Eval, returnVals: bool)
    requires EncodingFits(t) && SlotsEncoded(t, s)
    ensures InfoSound(ReplaceSpec(t, s, key, replacer, returnVals, EmptyInfo).info)
  {
  }
}
