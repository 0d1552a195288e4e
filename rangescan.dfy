/**
 * The range-scan callback (rdb_rget_depth_first_traversal_callback_t): the
 * B-tree traversal hands it one (key, row) pair at a time, in key order or
 * reverse key order, and it answers whether the traversal should go on.
 * The callback keeps the furthest key considered so far, filters out rows that
 * belong to another shard (oversharded secondary scans), evaluates the
 * secondary-index function, runs the transform pipeline and then either
 * appends to the response stream or folds into a terminal's accumulator.
 *
 * The query evaluator (index function, transforms, terminal) and the key
 * decoders are supplied as functions; the batcher is a row-count budget.
 */
module RangeScan {
  import opened Wrappers
  import opened Keys
  import opened Documents

  datatype Sorting = Unordered | Ascending | Descending

  /** reversed(sorting): the scan runs from the right end of the range to the left. */
  predicate Reversed(s: Sorting) {
    s == Descending
  }

  /** rget_item_t: the row's B-tree key, the index value it was found under (ordered secondary scans only) and the datum. */
  datatype RgetItem = RgetItem(key: Key, sindexValue: Option<Datum>, data: Datum)

  /** The response's result: a stream of items, a terminal's accumulator, or the evaluation error that ended the scan. */
  datatype ScanResult = Stream(items: seq<RgetItem>) | Accumulated(acc: Datum) | Failed(msg: string)

  /** A terminal (reduce, count, ...): its initial accumulator, and how it absorbs one datum. */
  datatype Terminal = Terminal(init: Result<Datum, string>, apply: (Datum, Datum) -> Result<Datum, string>)

  /** A transform stage maps one datum to any number of datums (map, filter, concat-map). */
  type Stage = Datum -> Result<seq<Datum>, string>

  /** What only a secondary-index scan has. */
  datatype SindexScan = SindexScan(
    primaryKeyRange: KeyRange,
    fn: Datum -> Result<Datum, string>,
    multi: bool,
    inRange: Datum -> bool,
    extractPrimary: Key -> Key,
    extractTag: Key -> Option<nat>)

  datatype ScanConfig = ScanConfig(
    transform: seq<Stage>,
    terminal: Option<Terminal>,
    sorting: Sorting,
    sindex: Option<SindexScan>,
    budget: nat)

  /**
   * The callback's mutable state: bad_init, whether init installed the
   * profiling sampler, response->last_considered_key, response->result, and
   * the rows noted by the batcher.
   */
  datatype ScanState = ScanState(badInit: bool, samplerSet: bool, lastConsideredKey: Key, result: ScanResult, rows: nat)

  // ---------------------------------------------------------------------------
  // Specification
  // ---------------------------------------------------------------------------

  /**
   * init: seed last_considered_key at the end the scan starts from, then
   * initialise the terminal, then install the sampler. A terminal that throws
   * skips the sampler.
   */
  function InitState(cfg: ScanConfig, range: KeyRange): ScanState {
    if cfg.terminal.None? then ScanState(false, true, StartKey(cfg.sorting, range), Stream([]), 0)
    else match cfg.terminal.value.init
      case Success(acc) => ScanState(false, true, StartKey(cfg.sorting, range), Accumulated(acc), 0)
      case Failure(msg) => ScanState(true, false, StartKey(cfg.sorting, range), Failed(msg), 0)
  }

  /** The end of the range the scan starts from. */
  function StartKey(sorting: Sorting, range: KeyRange): Key {
    if !Reversed(sorting) then range.left
    else if range.right.Bounded? then range.right.key
    else MaxKey()
  }

  /** The result has the shape the next call needs: a stream without a terminal, an accumulator with one. */
  predicate Ready(cfg: ScanConfig, st: ScanState) {
    st.badInit || (if cfg.terminal.None? then st.result.Stream? else st.result.Accumulated?)
  }

  /** Oversharding filter: a secondary scan drops rows whose primary key lies outside this shard. */
  predicate PassesPrimaryFilter(cfg: ScanConfig, key: Key) {
    cfg.sindex.None? || cfg.sindex.value.primaryKeyRange.Contains(cfg.sindex.value.extractPrimary(key))
  }

  /** The guarantees on a multi index: the key names a tag, and the tag indexes the array the function returned. */
  predicate TagGuarantee(cfg: ScanConfig, key: Key, doc: Datum) {
    PassesPrimaryFilter(cfg, key) && cfg.sindex.Some? && cfg.sindex.value.multi ==>
      match cfg.sindex.value.fn(doc)
        case Success(Arr(items)) =>
          cfg.sindex.value.extractTag(key).Some? && cfg.sindex.value.extractTag(key).value < |items|
        case _ => true
  }

  /** Move the last considered key to `key` when that is further along in the scan direction. */
  function Advance(sorting: Sorting, last: Key, key: Key): Key {
    if (KeyLess(last, key) && !Reversed(sorting)) || (KeyLess(key, last) && Reversed(sorting)) then key else last
  }

  /** The index value a row was found under: None on a primary scan; on a multi index, the array element the key's tag names. */
  function SindexValue(cfg: ScanConfig, key: Key, doc: Datum): Result<Option<Datum>, string>
    requires TagGuarantee(cfg, key, doc) && PassesPrimaryFilter(cfg, key)
  {
    if cfg.sindex.None? then Success(None)
    else
      var ix := cfg.sindex.value;
      match ix.fn(doc)
        case Failure(msg) => Failure(msg)
        case Success(v) =>
          if ix.multi && v.Arr? then Success(Some(v.items[ix.extractTag(key).value]))
          else Success(Some(v))
  }

  /** One transform stage over the whole data vector: concatenation of the stage's outputs, or the first error. */
  function FlatMap(f: Stage, data: seq<Datum>): Result<seq<Datum>, string>
    decreases |data|
  {
    if data == [] then Success([])
    else
      match FlatMap(f, data[..|data| - 1])
        case Failure(msg) => Failure(msg)
        case Success(prefix) =>
          match f(data[|data| - 1])
            case Failure(msg) => Failure(msg)
            case Success(out) => Success(prefix + out)
  }

  /** The transform pipeline: the stages in order, each over the previous one's output. */
  function Pipeline(stages: seq<Stage>, data: seq<Datum>): Result<seq<Datum>, string>
    decreases |stages|
  {
    if stages == [] then Success(data)
    else
      match Pipeline(stages[..|stages| - 1], data)
        case Failure(msg) => Failure(msg)
        case Success(mid) => FlatMap(stages[|stages| - 1], mid)
  }

  /** The terminal absorbing the data in order, or the first error. */
  function Fold(apply: (Datum, Datum) -> Result<Datum, string>, acc: Datum, data: seq<Datum>): Result<Datum, string>
    decreases |data|
  {
    if data == [] then Success(acc)
    else
      match Fold(apply, acc, data[..|data| - 1])
        case Failure(msg) => Failure(msg)
        case Success(a) => apply(a, data[|data| - 1])
  }

  /** The stream items for one row's surviving data. */
  function StreamItems(key: Key, sv: Option<Datum>, data: seq<Datum>): (items: seq<RgetItem>)
    ensures |items| == |data|
    ensures forall i :: 0 <= i < |data| ==> items[i] == RgetItem(key, sv, data[i])
  {
    seq(|data|, i requires 0 <= i < |data| => RgetItem(key, sv, data[i]))
  }

  /** handle_pair: the callback's new state, and whether the traversal should continue. */
  function HandlePairStep(cfg: ScanConfig, st: ScanState, key: Key, doc: Datum): (ScanState, bool)
    requires Ready(cfg, st)
    requires st.badInit || TagGuarantee(cfg, key, doc)
  {
    if st.badInit then (st, false)
    else if !PassesPrimaryFilter(cfg, key) then (st, true)
    else
      var st1 := st.(lastConsideredKey := Advance(cfg.sorting, st.lastConsideredKey, key));
      match SindexValue(cfg, key, doc)
        case Failure(msg) => (st1.(result := Failed(msg)), false)
        case Success(sv) =>
          if sv.Some? && !cfg.sindex.value.inRange(sv.value) then (st1, true)
          else EmitStep(cfg, st1, key, sv, doc)
  }

  /** The rest of handle_pair for a row that passed every filter: transform it, then stream or fold the result. */
  function EmitStep(cfg: ScanConfig, st: ScanState, key: Key, sv: Option<Datum>, doc: Datum): (ScanState, bool)
    requires Ready(cfg, st) && !st.badInit
  {
    match Pipeline(cfg.transform, [doc])
      case Failure(msg) => (st.(result := Failed(msg)), false)
      case Success(data) =>
        if cfg.terminal.None? then
          var tagged := if cfg.sorting != Unordered then sv else None;
          var rows := st.rows + |data|;
          (st.(result := Stream(st.result.items + StreamItems(key, tagged, data)), rows := rows),
           rows < cfg.budget)
        else
          match Fold(cfg.terminal.value.apply, st.result.acc, data)
            case Success(acc) => (st.(result := Accumulated(acc)), true)
            case Failure(msg) => (st.(result := Failed(msg)), false)
  }

  // ---------------------------------------------------------------------------
  // Properties of the specification
  // ---------------------------------------------------------------------------

  /** init seeds the last considered key at the left end going forward, at the right end (or the maximum key) going backward. */
  lemma InitSeedsLastConsidered(cfg: ScanConfig, range: KeyRange)
    ensures !Reversed(cfg.sorting) ==> InitState(cfg, range).lastConsideredKey == range.left
    ensures Reversed(cfg.sorting) && range.right.Bounded? ==> InitState(cfg, range).lastConsideredKey == range.right.key
    ensures Reversed(cfg.sorting) && range.right.Unbounded? ==> InitState(cfg, range).lastConsideredKey == MaxKey()
    ensures Reversed(cfg.sorting) && range.right.Unbounded? ==>
      forall k: Key :: |k| <= MaxKeySize ==> KeyLe(k, InitState(cfg, range).lastConsideredKey)
    ensures Ready(cfg, InitState(cfg, range))
    ensures InitState(cfg, range).badInit <==> cfg.terminal.Some? && cfg.terminal.value.init.Failure?
  {
    forall k: Key | |k| <= MaxKeySize
      ensures KeyLe(k, MaxKey())
    {
      MaxKeyIsGreatest(k);
    }
  }

  /** The advanced key is the further of the two in the scan direction. */
  lemma AdvanceIsFurthest(sorting: Sorting, last: Key, key: Key)
    ensures var next := Advance(sorting, last, key);
      && (next == last || next == key)
      && (!Reversed(sorting) ==> KeyLe(last, next) && KeyLe(key, next))
      && (Reversed(sorting) ==> KeyLe(next, last) && KeyLe(next, key))
  {
    KeyLessTotal(last, key);
  }

  /** handle_pair never moves the last considered key backward. */
  lemma LastConsideredNeverRetreats(cfg: ScanConfig, st: ScanState, key: Key, doc: Datum)
    requires Ready(cfg, st) && (st.badInit || TagGuarantee(cfg, key, doc))
    ensures var next := HandlePairStep(cfg, st, key, doc).0.lastConsideredKey;
      && (!Reversed(cfg.sorting) ==> KeyLe(st.lastConsideredKey, next))
      && (Reversed(cfg.sorting) ==> KeyLe(next, st.lastConsideredKey))
  {
    AdvanceIsFurthest(cfg.sorting, st.lastConsideredKey, key);
  }

  /**
   * init installs the sampler exactly when it succeeds: a throwing terminal
   * initialisation leaves bad_init set and the sampler empty.
   */
  lemma SamplerInstalledIffInitSucceeds(cfg: ScanConfig, range: KeyRange)
    ensures InitState(cfg, range).samplerSet <==> !InitState(cfg, range).badInit
    ensures InitState(cfg, range).badInit <==> cfg.terminal.Some? && cfg.terminal.value.init.Failure?
  {
  }

  /** handle_pair never installs or removes the sampler. */
  lemma HandlePairKeepsSampler(cfg: ScanConfig, st: ScanState, key: Key, doc: Datum)
    requires Ready(cfg, st) && (st.badInit || TagGuarantee(cfg, key, doc))
    ensures HandlePairStep(cfg, st, key, doc).0.samplerSet == st.samplerSet
    ensures HandlePairStep(cfg, st, key, doc).0.badInit == st.badInit
  {
  }

  /**
   * handle_pair as written starts with sampler->new_sample(), before it looks
   * at bad_init: a call is well defined only on a state with the sampler.
   */
  predicate SampleCallDefinedAsWritten(st: ScanState) {
    st.samplerSet
  }

  /**
   * As written, after a terminal whose initialisation throws, the first
   * handle_pair call dereferences the empty sampler instead of returning false.
   */
  lemma FailedInitReachesEmptySampler(cfg: ScanConfig, range: KeyRange)
    requires cfg.terminal.Some? && cfg.terminal.value.init.Failure?
    ensures InitState(cfg, range).badInit
    ensures !SampleCallDefinedAsWritten(InitState(cfg, range))
  {
  }

  /** After a failed init every call stops the traversal and changes nothing. */
  lemma BadInitStops(cfg: ScanConfig, st: ScanState, key: Key, doc: Datum)
    requires Ready(cfg, st) && st.badInit
    ensures HandlePairStep(cfg, st, key, doc) == (st, false)
  {
  }

  /** A row of another shard is skipped: the traversal continues and nothing changes, not even the last considered key. */
  lemma ForeignShardRowSkipped(cfg: ScanConfig, st: ScanState, key: Key, doc: Datum)
    requires Ready(cfg, st) && !st.badInit
    requires cfg.sindex.Some? && !cfg.sindex.value.primaryKeyRange.Contains(cfg.sindex.value.extractPrimary(key))
    ensures HandlePairStep(cfg, st, key, doc) == (st, true)
  {
  }

  /**
   * A row whose index value falls outside the index range is skipped once its
   * key has been considered. On a multi index the value tested is the array
   * element the key's tag selects.
   */
  lemma OutOfIndexRangeSkipped(cfg: ScanConfig, st: ScanState, key: Key, doc: Datum, v: Datum)
    requires Ready(cfg, st) && !st.badInit && TagGuarantee(cfg, key, doc) && PassesPrimaryFilter(cfg, key)
    requires cfg.sindex.Some? && SindexValue(cfg, key, doc) == Success(Some(v))
    requires !cfg.sindex.value.inRange(v)
    ensures HandlePairStep(cfg, st, key, doc) ==
      (st.(lastConsideredKey := Advance(cfg.sorting, st.lastConsideredKey, key)), true)
  {
  }

  /** On a multi index the row is tested and streamed under the array element its key's tag selects. */
  lemma MultiIndexUsesTaggedElement(cfg: ScanConfig, key: Key, doc: Datum, items: seq<Datum>)
    requires cfg.sindex.Some? && cfg.sindex.value.multi && PassesPrimaryFilter(cfg, key)
    requires cfg.sindex.value.fn(doc) == Success(Arr(items)) && TagGuarantee(cfg, key, doc)
    ensures SindexValue(cfg, key, doc) == Success(Some(items[cfg.sindex.value.extractTag(key).value]))
  {
  }

  /** A plain primary-key scan with no transforms streams the row itself, and continues while the budget is not spent. */
  lemma PrimaryRowStreamed(cfg: ScanConfig, st: ScanState, key: Key, doc: Datum)
    requires cfg.sindex.None? && cfg.transform == [] && cfg.terminal.None?
    requires Ready(cfg, st) && !st.badInit
    ensures var (st', more) := HandlePairStep(cfg, st, key, doc);
      && st'.result == Stream(st.result.items + [RgetItem(key, None, doc)])
      && st'.rows == st.rows + 1
      && (more <==> st.rows + 1 < cfg.budget)
  {
    var items := StreamItems(key, None, [doc]);
    assert items == [RgetItem(key, None, doc)];
  }

  /** A call that lets the traversal go on leaves the callback ready for the next pair. */
  lemma ContinuingKeepsReady(cfg: ScanConfig, st: ScanState, key: Key, doc: Datum)
    requires Ready(cfg, st) && (st.badInit || TagGuarantee(cfg, key, doc))
    ensures var (st', more) := HandlePairStep(cfg, st, key, doc);
      (more ==> Ready(cfg, st') && !st'.badInit) && (!more ==> st'.badInit || st'.result.Failed? || st'.rows >= cfg.budget)
  {
  }

  /** Once a stage fails the whole pipeline fails with the same error. */
  lemma {:induction false} PipelineFailureSticks(stages: seq<Stage>, data: seq<Datum>, n: nat, msg: string)
    requires n <= |stages| && Pipeline(stages[..n], data) == Failure(msg)
    ensures Pipeline(stages, data) == Failure(msg)
    decreases |stages| - n
  {
    if n < |stages| {
      assert stages[..n + 1][..n] == stages[..n];
      PipelineFailureSticks(stages, data, n + 1, msg);
    } else {
      assert stages[..n] == stages;
    }
  }

  /** Once a datum fails the stage fails with the same error. */
  lemma {:induction false} FlatMapFailureSticks(f: Stage, data: seq<Datum>, n: nat, msg: string)
    requires n <= |data| && FlatMap(f, data[..n]) == Failure(msg)
    ensures FlatMap(f, data) == Failure(msg)
    decreases |data| - n
  {
    if n < |data| {
      assert data[..n + 1][..n] == data[..n];
      FlatMapFailureSticks(f, data, n + 1, msg);
    } else {
      assert data[..n] == data;
    }
  }

  /** Once the terminal fails on a datum the fold fails with the same error. */
  lemma {:induction false} FoldFailureSticks(apply: (Datum, Datum) -> Result<Datum, string>, acc: Datum, data: seq<Datum>, n: nat, msg: string)
    requires n <= |data| && Fold(apply, acc, data[..n]) == Failure(msg)
    ensures Fold(apply, acc, data) == Failure(msg)
    decreases |data| - n
  {
    if n < |data| {
      assert data[..n + 1][..n] == data[..n];
      FoldFailureSticks(apply, acc, data, n + 1, msg);
    } else {
      assert data[..n] == data;
    }
  }

  /** The traversal driving the callback: pairs in scan order until a call answers false. */
  function Traverse(cfg: ScanConfig, st: ScanState, pairs: seq<(Key, Datum)>): (ScanState, bool)
    requires Ready(cfg, st)
    requires forall i :: 0 <= i < |pairs| ==> TagGuarantee(cfg, pairs[i].0, pairs[i].1)
    decreases |pairs|
  {
    if pairs == [] then (st, true)
    else
      var step := HandlePairStep(cfg, st, pairs[0].0, pairs[0].1);
      if !step.1 then step
      else
        ContinuingKeepsReady(cfg, st, pairs[0].0, pairs[0].1);
        Traverse(cfg, step.0, pairs[1..])
  }

  /** Over a whole traversal the last considered key never moves backward in the scan direction. */
  lemma {:induction false} TraversalNeverRetreats(cfg: ScanConfig, st: ScanState, pairs: seq<(Key, Datum)>)
    requires Ready(cfg, st)
    requires forall i :: 0 <= i < |pairs| ==> TagGuarantee(cfg, pairs[i].0, pairs[i].1)
    ensures var fin := Traverse(cfg, st, pairs).0.lastConsideredKey;
      && (!Reversed(cfg.sorting) ==> KeyLe(st.lastConsideredKey, fin))
      && (Reversed(cfg.sorting) ==> KeyLe(fin, st.lastConsideredKey))
    decreases |pairs|
  {
    if pairs != [] {
      var (key, doc) := pairs[0];
      LastConsideredNeverRetreats(cfg, st, key, doc);
      var step := HandlePairStep(cfg, st, key, doc);
      if step.1 {
        ContinuingKeepsReady(cfg, st, key, doc);
        TraversalNeverRetreats(cfg, step.0, pairs[1..]);
        var fin := Traverse(cfg, step.0, pairs[1..]).0.lastConsideredKey;
        if Reversed(cfg.sorting) {
          KeyLeTransitive(fin, step.0.lastConsideredKey, st.lastConsideredKey);
        } else {
          KeyLeTransitive(st.lastConsideredKey, step.0.lastConsideredKey, fin);
        }
      }
    }
  }

  /** The rows of a plain primary-key scan, as the stream shows them. */
  function PlainItems(pairs: seq<(Key, Datum)>): (items: seq<RgetItem>)
    ensures |items| == |pairs|
    ensures forall i :: 0 <= i < |pairs| ==> items[i] == RgetItem(pairs[i].0, None, pairs[i].1)
  {
    seq(|pairs|, i requires 0 <= i < |pairs| => RgetItem(pairs[i].0, None, pairs[i].1))
  }

  /**
   * A plain primary-key scan with room for `budget - rows` more rows streams
   * the first that many pairs, in scan order, and the response is truncated
   * (should_send_batch) exactly when the pairs did not all fit under the budget.
   */
  lemma {:induction false} PlainScanFillsBatch(cfg: ScanConfig, st: ScanState, pairs: seq<(Key, Datum)>)
    requires cfg.sindex.None? && cfg.transform == [] && cfg.terminal.None?
    requires !st.badInit && st.result.Stream? && st.rows < cfg.budget
    ensures var n := if |pairs| < cfg.budget - st.rows then |pairs| else cfg.budget - st.rows;
      var fin := Traverse(cfg, st, pairs).0;
      && fin.result == Stream(st.result.items + PlainItems(pairs[..n]))
      && fin.rows == st.rows + n
      && (fin.rows >= cfg.budget <==> |pairs| >= cfg.budget - st.rows)
    decreases |pairs|
  {
    if pairs == [] {
      assert pairs[..0] == [];
    } else {
      var (key, doc) := pairs[0];
      PrimaryRowStreamed(cfg, st, key, doc);
      var step := HandlePairStep(cfg, st, key, doc);
      var n := if |pairs| < cfg.budget - st.rows then |pairs| else cfg.budget - st.rows;
      if step.1 {
        ContinuingKeepsReady(cfg, st, key, doc);
        PlainScanFillsBatch(cfg, step.0, pairs[1..]);
        assert pairs[..n] == [pairs[0]] + pairs[1..][..n - 1];
        assert PlainItems(pairs[..n]) == [RgetItem(key, None, doc)] + PlainItems(pairs[1..][..n - 1]);
      } else {
        assert n == 1 && pairs[..n] == [pairs[0]];
        assert PlainItems(pairs[..n]) == [RgetItem(key, None, doc)];
      }
    }
  }

  // ---------------------------------------------------------------------------
  // The transform and terminal loops
  // ---------------------------------------------------------------------------

  /** One transform stage, as the callback runs it: push each datum's outputs into a fresh vector. */
  method ApplyStage(f: Stage, data: seq<Datum>) returns (r: Result<seq<Datum>, string>)
    ensures r == FlatMap(f, data)
  {
    var tmp: seq<Datum> := [];
    var j := 0;
    while j < |data|
      invariant 0 <= j <= |data|
      invariant FlatMap(f, data[..j]) == Success(tmp)
    {
      assert data[..j + 1][..j] == data[..j];
      var out := f(data[j]);
      if out.Failure? {
        FlatMapFailureSticks(f, data, j + 1, out.error);
        return Failure(out.error);
      }
      tmp := tmp + out.value;
      j := j + 1;
    }
    assert data[..|data|] == data;
    r := Success(tmp);
  }

  /** The transform loop of handle_pair: every stage in order, stopping at the first error. */
  method RunTransforms(stages: seq<Stage>, doc: Datum) returns (r: Result<seq<Datum>, string>)
    ensures r == Pipeline(stages, [doc])
  {
    var data := [doc];
    var i := 0;
    while i < |stages|
      invariant 0 <= i <= |stages|
      invariant Pipeline(stages[..i], [doc]) == Success(data)
    {
      assert stages[..i + 1][..i] == stages[..i];
      var next := ApplyStage(stages[i], data);
      if next.Failure? {
        PipelineFailureSticks(stages, [doc], i + 1, next.error);
        return Failure(next.error);
      }
      data := next.value;
      i := i + 1;
    }
    assert stages[..|stages|] == stages;
    r := Success(data);
  }

  /** The terminal loop of handle_pair: absorb each datum in order, stopping at the first error. */
  method ApplyTerminal(apply: (Datum, Datum) -> Result<Datum, string>, acc: Datum, data: seq<Datum>) returns (r: Result<Datum, string>)
    ensures r == Fold(apply, acc, data)
  {
    var a := acc;
    var j := 0;
    while j < |data|
      invariant 0 <= j <= |data|
      invariant Fold(apply, acc, data[..j]) == Success(a)
    {
      assert data[..j + 1][..j] == data[..j];
      var next := apply(a, data[j]);
      if next.Failure? {
        FoldFailureSticks(apply, acc, data, j + 1, next.error);
        return Failure(next.error);
      }
      a := next.value;
      j := j + 1;
    }
    assert data[..|data|] == data;
    r := Success(a);
  }

  // ---------------------------------------------------------------------------
  // The callback object
  // ---------------------------------------------------------------------------

  class RgetCallback {
    const cfg: ScanConfig
    var badInit: bool
    var samplerSet: bool
    var lastConsideredKey: Key
    var result: ScanResult
    var rows: nat

    function State(): ScanState
      reads this
    {
      ScanState(badInit, samplerSet, lastConsideredKey, result, rows)
    }

    /** Both constructors end by calling init on the traversal range; the response starts as an empty stream. */
    constructor (cfg: ScanConfig, range: KeyRange)
      ensures this.cfg == cfg
      ensures State() == InitState(cfg, range)
    {
      this.cfg := cfg;
      rows := 0;
      badInit := false;
      samplerSet := false;
      result := Stream([]);
      if !Reversed(cfg.sorting) {
        lastConsideredKey := range.left;
      } else if range.right.Bounded? {
        lastConsideredKey := range.right.key;
      } else {
        lastConsideredKey := MaxKey();
      }
      var initFailed := false;
      if cfg.terminal.Some? {
        match cfg.terminal.value.init {
          case Success(acc) =>
            result := Accumulated(acc);
          case Failure(msg) =>
            result := Failed(msg);
            initFailed := true;
        }
      }
      if initFailed {
        badInit := true;
      } else {
        samplerSet := true;
      }
    }

    /** The no-terminal branch: push one stream item per datum and note it with the batcher. */
    method PushItems(key: Key, sv: Option<Datum>, data: seq<Datum>)
      requires result.Stream?
      modifies this
      ensures result == Stream(old(result.items) + StreamItems(key, sv, data))
      ensures rows == old(rows) + |data|
      ensures badInit == old(badInit) && samplerSet == old(samplerSet) && lastConsideredKey == old(lastConsideredKey)
    {
      var j := 0;
      while j < |data|
        invariant 0 <= j <= |data|
        invariant result == Stream(old(result.items) + StreamItems(key, sv, data[..j]))
        invariant rows == old(rows) + j
        invariant badInit == old(badInit) && samplerSet == old(samplerSet) && lastConsideredKey == old(lastConsideredKey)
      {
        assert StreamItems(key, sv, data[..j + 1]) == StreamItems(key, sv, data[..j]) + [RgetItem(key, sv, data[j])];
        result := Stream(result.items + [RgetItem(key, sv, data[j])]);
        rows := rows + 1;
        j := j + 1;
      }
      assert data[..|data|] == data;
    }

    /** handle_pair: consume one (key, row) pair and say whether the traversal should go on. */
    method HandlePair(key: Key, doc: Datum) returns (more: bool)
      requires Ready(cfg, State())
      requires badInit || TagGuarantee(cfg, key, doc)
      modifies this
      ensures (State(), more) == HandlePairStep(cfg, old(State()), key, doc)
    {
      if badInit {
        return false;
      }
      if cfg.sindex.Some? && !cfg.sindex.value.primaryKeyRange.Contains(cfg.sindex.value.extractPrimary(key)) {
        return true;
      }
      if (KeyLess(lastConsideredKey, key) && !Reversed(cfg.sorting)) || (KeyLess(key, lastConsideredKey) && Reversed(cfg.sorting)) {
        lastConsideredKey := key;
      }
      var sv: Option<Datum> := None;
      if cfg.sindex.Some? {
        var ix := cfg.sindex.value;
        var v := ix.fn(doc);
        if v.Failure? {
          result := Failed(v.error);
          return false;
        }
        var value := v.value;
        if ix.multi && value.Arr? {
          value := value.items[ix.extractTag(key).value];
        }
        if !ix.inRange(value) {
          return true;
        }
        sv := Some(value);
      }
      more := Emit(key, sv, doc);
    }

    /** The transform-and-emit tail of handle_pair. */
    method Emit(key: Key, sv: Option<Datum>, doc: Datum) returns (more: bool)
      requires Ready(cfg, State()) && !badInit
      modifies this
      ensures (State(), more) == EmitStep(cfg, old(State()), key, sv, doc)
    {
      var data := RunTransforms(cfg.transform, doc);
      if data.Failure? {
        result := Failed(data.error);
        return false;
      }
      if cfg.terminal.None? {
        PushItems(key, if cfg.sorting != Unordered then sv else None, data.value);
        more := rows < cfg.budget;
      } else {
        var acc := ApplyTerminal(cfg.terminal.value.apply, result.acc, data.value);
        if acc.Failure? {
          result := Failed(acc.error);
          return false;
        }
        result := Accumulated(acc.value);
        more := true;
      }
    }
  }
}
