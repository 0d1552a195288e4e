/**
 * B-tree keys (store_key_t) and key ranges (key_range_t).
 * Keys are byte strings ordered as the engine orders them: byte-wise, and a
 * proper prefix before any of its extensions.
 */
module Keys {

  type Byte = b: int | 0 <= b < 256
  type Bytes = seq<Byte>
  type Key = Bytes

  /** MAX_KEY_SIZE: the longest key the B-tree stores. */
  const MaxKeySize: nat := 250

  /** store_key_t::max(): MAX_KEY_SIZE bytes of 0xFF, the greatest storable key. */
  function MaxKey(): Key { seq(MaxKeySize, _ => 255) }

  /** Strict key order (sized_strcmp(a, b) < 0). */
  predicate KeyLess(a: Key, b: Key)
    decreases |a|
  {
    if |a| == 0 then |b| > 0
    else if |b| == 0 then false
    else if a[0] != b[0] then a[0] < b[0]
    else KeyLess(a[1..], b[1..])
  }

  predicate KeyLe(a: Key, b: Key) {
    a == b || KeyLess(a, b)
  }

  lemma {:induction false} KeyLessTransitive(a: Key, b: Key, c: Key)
    requires KeyLess(a, b) && KeyLess(b, c)
    ensures KeyLess(a, c)
  {
    if |a| > 0 && |b| > 0 && |c| > 0 && a[0] == b[0] && b[0] == c[0] {
      KeyLessTransitive(a[1..], b[1..], c[1..]);
    }
  }

  lemma KeyLeTransitive(a: Key, b: Key, c: Key)
    requires KeyLe(a, b) && KeyLe(b, c)
    ensures KeyLe(a, c)
  {
    if a != b && b != c {
      KeyLessTransitive(a, b, c);
    }
  }

  lemma {:induction false} KeyLessTotal(a: Key, b: Key)
    ensures a == b || KeyLess(a, b) || KeyLess(b, a)
  {
    if |a| > 0 && |b| > 0 && a[0] == b[0] {
      KeyLessTotal(a[1..], b[1..]);
      if a[1..] == b[1..] {
        assert a == [a[0]] + a[1..] && b == [b[0]] + b[1..];
      }
    }
  }

  /** Every storable key is at most store_key_t::max(). */
  lemma MaxKeyIsGreatest(k: Key)
    requires |k| <= MaxKeySize
    ensures KeyLe(k, MaxKey())
  {
    AllOnesBound(k, MaxKey());
  }

  lemma {:induction false} AllOnesBound(k: Key, m: Key)
    requires |k| <= |m|
    requires forall i :: 0 <= i < |m| ==> m[i] == 255
    ensures KeyLe(k, m)
  {
    if |k| > 0 {
      AllOnesBound(k[1..], m[1..]);
      if k[0] == m[0] && k[1..] == m[1..] {
        assert k == [k[0]] + k[1..] && m == [m[0]] + m[1..];
      }
    }
  }

  /** The right end of a key range: open-ended, or an exclusive bound. */
  datatype RightBound = Unbounded | Bounded(key: Key)

  /** key_range_t: left inclusive, right exclusive or unbounded. */
  datatype KeyRange = KeyRange(left: Key, right: RightBound) {
    /** key_range_t::contains_key */
    predicate Contains(k: Key) {
      KeyLe(left, k) && (right.Unbounded? || KeyLess(k, right.key))
    }
  }
}
