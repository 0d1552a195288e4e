/**
 * Modification info and report (rdb_modification_info_t, rdb_modification_report_t)
 * and their tagged present/absent wire format.
 *
 * Each half of a modification is a pair: the document (absent when the half is
 * unused) and the raw bytes of the B-tree value slot the document lived in.
 */
module Modification {
  import opened Wrappers
  import opened Keys
  import opened Documents

  /** blob::btree_maxreflen: the size of a value slot's blob reference. */
  const MaxRefLen: nat := 251

  datatype Half = Half(doc: Option<Datum>, raw: Bytes)

  /** A default-constructed half: no document, no bytes. */
  const NoHalf: Half := Half(None, [])

  datatype ModInfo = ModInfo(deleted: Half, added: Half)

  /** A default-constructed modification info. */
  const EmptyInfo: ModInfo := ModInfo(NoHalf, NoHalf)

  datatype ModReport = ModReport(primaryKey: Key, info: ModInfo)

  /**
   * A half that a transition filled consistently: a document iff slot bytes, and
   * the bytes fit a blob reference.
   */
  predicate HalfSound(h: Half) {
    (h.doc.Some? <==> h.raw != []) && |h.raw| <= MaxRefLen
  }

  predicate InfoSound(m: ModInfo) {
    HalfSound(m.deleted) && HalfSound(m.added)
  }

  // ---------------------------------------------------------------------------
  // Wire format. The pair serializer and the int8 serializer belong to the
  // archive layer; a message is therefore modelled as a sequence of already
  // framed items: one-byte tags and serialized (document, bytes) pairs.

  type Int8 = x: int | -128 <= x < 128

  const HasValue: Int8 := 0
  const HasNoValue: Int8 := 1

  datatype Token = Tag(tag: Int8) | Pair(doc: Datum, raw: Bytes)

  /** archive_result_t failures: the stream ended, or held the wrong kind of item. */
  datatype ArchiveError = SockEof | RangeError

  /** The guarantee rdb_serialize places on an absent half: it has no bytes. */
  predicate Serializable(h: Half) {
    h.doc.None? ==> h.raw == []
  }

  function SerializeHalf(h: Half): (s: seq<Token>)
    requires Serializable(h)
    ensures h.doc.None? ==> s == [Tag(HasNoValue)]
    ensures h.doc.Some? ==> s == [Tag(HasValue), Pair(h.doc.value, h.raw)]
  {
    if h.doc.None? then [Tag(HasNoValue)] else [Tag(HasValue), Pair(h.doc.value, h.raw)]
  }

  /** rdb_modification_info_t::rdb_serialize: deleted half, then added half. */
  function Serialize(m: ModInfo): (s: seq<Token>)
    requires Serializable(m.deleted) && Serializable(m.added)
    ensures s == SerializeHalf(m.deleted) + SerializeHalf(m.added)
    ensures s[0] == Tag(if m.deleted.doc.Some? then HasValue else HasNoValue)
    ensures |s| == (if m.deleted.doc.Some? then 2 else 1) + (if m.added.doc.Some? then 2 else 1)
  {
    SerializeHalf(m.deleted) + SerializeHalf(m.added)
  }

  /**
   * One tag and, when the tag is HAS_VALUE, the pair after it. Any other tag
   * leaves the half as it was before reading.
   */
  function DeserializeHalf(s: seq<Token>, prior: Half): Result<(Half, seq<Token>), ArchiveError> {
    if s == [] then Failure(SockEof)
    else if !s[0].Tag? then Failure(RangeError)
    else if s[0].tag == HasValue then
      if |s| < 2 then Failure(SockEof)
      else if !s[1].Pair? then Failure(RangeError)
      else Success((Half(Some(s[1].doc), s[1].raw), s[2..]))
    else Success((prior, s[1..]))
  }

  /** rdb_modification_info_t::rdb_deserialize, reading into `prior`. */
  function Deserialize(s: seq<Token>, prior: ModInfo): Result<(ModInfo, seq<Token>), ArchiveError> {
    match DeserializeHalf(s, prior.deleted)
    case Failure(e) => Failure(e)
    case Success((deleted, rest)) =>
      match DeserializeHalf(rest, prior.added)
      case Failure(e) => Failure(e)
      case Success((added, rest')) => Success((ModInfo(deleted, added), rest'))
  }

  lemma HalfRoundTrip(h: Half, rest: seq<Token>, prior: Half)
    requires Serializable(h)
    ensures DeserializeHalf(SerializeHalf(h) + rest, prior)
         == Success((if h.doc.Some? then h else prior, rest))
  {
    var s := SerializeHalf(h) + rest;
    if h.doc.Some? {
      assert s[0] == Tag(HasValue) && s[1] == Pair(h.doc.value, h.raw) && s[2..] == rest;
    } else {
      assert s[0] == Tag(HasNoValue) && s[1..] == rest;
    }
  }

  /**
   * Reading what rdb_serialize wrote, into a default-constructed info, gives
   * back the same presence, documents and bytes, and stops exactly where the
   * serialized info ends.
   */
  lemma RoundTrip(m: ModInfo, rest: seq<Token>)
    requires Serializable(m.deleted) && Serializable(m.added)
    ensures Deserialize(Serialize(m) + rest, EmptyInfo) == Success((m, rest))
  {
    var tail := SerializeHalf(m.added) + rest;
    assert Serialize(m) + rest == SerializeHalf(m.deleted) + tail;
    HalfRoundTrip(m.deleted, tail, NoHalf);
    HalfRoundTrip(m.added, rest, NoHalf);
  }

  /** Reading into an info that already holds data keeps its halves wherever the stream says "absent". */
  lemma RoundTripOverPrior(m: ModInfo, rest: seq<Token>, prior: ModInfo)
    requires Serializable(m.deleted) && Serializable(m.added)
    ensures Deserialize(Serialize(m) + rest, prior)
         == Success((ModInfo(if m.deleted.doc.Some? then m.deleted else prior.deleted,
                             if m.added.doc.Some? then m.added else prior.added), rest))
  {
    var tail := SerializeHalf(m.added) + rest;
    assert Serialize(m) + rest == SerializeHalf(m.deleted) + tail;
    HalfRoundTrip(m.deleted, tail, prior.deleted);
    HalfRoundTrip(m.added, rest, prior.added);
  }

  /** Only tag 0 announces a value: every other tag reads as "absent". */
  lemma NonZeroTagReadsAbsent(t: Int8, rest: seq<Token>, prior: Half)
    requires t != HasValue
    ensures DeserializeHalf([Tag(t)] + rest, prior) == Success((prior, rest))
  {
    assert ([Tag(t)] + rest)[1..] == rest;
  }

  /** A stream that ends after a HAS_VALUE tag is a read error, not an absent half. */
  lemma TruncatedPairFails(prior: ModInfo)
    ensures Deserialize([Tag(HasValue)], prior) == Failure(SockEof)
  {
  }
}
