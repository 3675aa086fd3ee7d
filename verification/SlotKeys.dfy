/** The keys of the slot map, which also travel on the wire, and lists of them. */
module SlotKeys {
  import opened Base
  import opened VarInt

  datatype Key = Key(index: nat, generation: nat)

  /// Both fields are `u32` values.
  predicate Fits(k: Key) {
    k.index < U32 && k.generation < U32
  }

  function EncodeKey(k: Key): Bytes {
    Encode(k.index) + Encode(k.generation)
  }

  function DecodeKey(s: Bytes): (r: Decoded<Key>)
    ensures r.Got? ==> |r.rest| < |s|
  {
    match Decode(s, 32)
    case Got(index, rest) => (
      match Decode(rest, 32)
      case Got(generation, rest') => Got(Key(index, generation), rest')
      case Short => Short
      case Overlong => Overlong)
    case Short => Short
    case Overlong => Overlong
  }

  function EncodeKeys(ks: seq<Key>): Bytes {
    if ks == [] then [] else EncodeKey(ks[0]) + EncodeKeys(ks[1..])
  }

  /// The keys read by a decoding loop that stops at the first key it cannot read.
  function DecodeKeys(s: Bytes): seq<Key>
    decreases |s|
  {
    match DecodeKey(s)
    case Got(k, rest) => [k] + DecodeKeys(rest)
    case _ => []
  }

  /// Whether that loop stops at the end of the input rather than at an overlong integer.
  predicate KeysEnd(s: Bytes)
    decreases |s|
  {
    match DecodeKey(s)
    case Got(_, rest) => KeysEnd(rest)
    case Short => true
    case Overlong => false
  }

  lemma KeyRoundTrip(k: Key, s: Bytes)
    requires Fits(k)
    ensures DecodeKey(EncodeKey(k) + s) == Got(k, s)
  {
    assert EncodeKey(k) + s == Encode(k.index) + (Encode(k.generation) + s);
    RoundTrip32(k.index, Encode(k.generation) + s);
    RoundTrip32(k.generation, s);
  }

  lemma KeyLength(k: Key)
    requires Fits(k)
    ensures 2 <= |EncodeKey(k)| <= 10
  {
    EncodeAtMost5(k.index);
    EncodeAtMost5(k.generation);
  }

  /// Reading a written list of keys gives the list, to the last byte.
  lemma {:induction false} KeysRoundTrip(ks: seq<Key>)
    requires forall k :: k in ks ==> Fits(k)
    ensures DecodeKeys(EncodeKeys(ks)) == ks && KeysEnd(EncodeKeys(ks))
  {
    if ks != [] {
      KeyRoundTrip(ks[0], EncodeKeys(ks[1..]));
      KeysRoundTrip(ks[1..]);
    }
  }

  lemma {:induction false} EncodeKeysAppend(a: seq<Key>, b: seq<Key>)
    ensures EncodeKeys(a + b) == EncodeKeys(a) + EncodeKeys(b)
  {
    if a == [] {
      assert a + b == b;
    } else {
      assert (a + b)[1..] == a[1..] + b;
      EncodeKeysAppend(a[1..], b);
    }
  }

  lemma EncodeKeysSnoc(ks: seq<Key>, k: Key)
    ensures EncodeKeys(ks + [k]) == EncodeKeys(ks) + EncodeKey(k)
  {
    EncodeKeysAppend(ks, [k]);
    assert EncodeKeys([k]) == EncodeKey(k) + EncodeKeys([]);
  }
}
