/** Length-prefixed strings of bounded length. Strings are their bytes. */
module Strings {
  import opened Base
  import opened VarInt

  /// `None` is the refusal of a string over the limit.
  function EncodeStr(s: Bytes, max: nat): Option<Bytes> {
    if |s| > max then None else Some(Encode(|s|) + s)
  }

  /// `Got(None, _)` is the refusal of a length over the limit.
  function DecodeStr(input: Bytes, max: nat): Decoded<Option<Bytes>> {
    match Decode(input, 32)
    case Short => Short
    case Overlong => Overlong
    case Got(len, rest) =>
      if len > max then Got(None, rest)
      else if len > |rest| then Short
      else Got(Some(rest[..len]), rest[len..])
  }

  lemma StrRoundTrip(s: Bytes, max: nat, suffix: Bytes)
    requires |s| <= max < U32
    ensures DecodeStr(EncodeStr(s, max).value + suffix, max) == Got(Some(s), suffix)
  {
    RoundTrip32(|s|, s + suffix);
    assert EncodeStr(s, max).value + suffix == Encode(|s|) + (s + suffix);
    assert (s + suffix)[..|s|] == s && (s + suffix)[|s|..] == suffix;
  }
}
