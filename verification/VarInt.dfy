/** Variable-length integers (unsigned LEB128, section 7.6 of the DWARF Version 5 standard). */
module VarInt {
  import opened Base

  function Pow2(n: nat): (p: nat)
    ensures p >= 1
  {
    if n == 0 then 1 else 2 * Pow2(n - 1)
  }

  /// The bytes of `v`: seven bits each, least significant first, bit 7 set on all but the last.
  function Encode(v: nat): (b: Bytes)
    ensures |b| >= 1
  {
    if v < 128 then [v] else [128 + v % 128] + Encode(v / 128)
  }

  /// `Short` is the decoder's error at the end of the input. `Overlong` is a shift by at least the
  /// width, which is outside the decoder's contract (Rust panics on it in checked builds).
  datatype Decoded<+T> = Got(value: T, rest: Bytes) | Short | Overlong

  /// Bitwise or.
  function Or(a: nat, b: nat): nat
    decreases a + b
  {
    if a == 0 then b
    else (if a % 2 == 1 || b % 2 == 1 then 1 else 0) + 2 * Or(a / 2, b / 2)
  }

  /// Shift to the left.
  function Shl(a: nat, k: nat): nat {
    if k == 0 then a else 2 * Shl(a, k - 1)
  }

  /// The low bits only.
  function Low(a: nat, bits: nat): nat {
    if bits == 0 then 0 else a % 2 + 2 * Low(a / 2, bits - 1)
  }

  /// The seven low bits of a byte, shifted within a width.
  function Shifted(byte: Byte, shift: nat, bits: nat): nat {
    Low(Shl(byte % 128, shift), bits)
  }

  /// Decoding with `shift` bits already gathered in `acc`.
  function DecodeFrom(s: Bytes, bits: nat, shift: nat, acc: nat): (r: Decoded<nat>)
    ensures r.Got? ==> |r.rest| < |s|
  {
    if s == [] then Short
    else if shift >= bits then Overlong
    else
      var next := Or(acc, Shifted(s[0], shift, bits));
      if s[0] < 128 then Got(next, s[1..]) else DecodeFrom(s[1..], bits, shift + 7, next)
  }

  function Decode(s: Bytes, bits: nat): (r: Decoded<nat>)
    ensures r.Got? ==> |r.rest| < |s|
  {
    DecodeFrom(s, bits, 0, 0)
  }

  /// There are more than `n` bytes, and the first `n` of them ask for another one.
  predicate AsksOn(s: Bytes, n: nat) {
    n < |s| && forall i :: 0 <= i < n ==> s[i] >= 128
  }

  lemma {:induction false} FromFails(s: Bytes, bits: nat, shift: nat, acc: nat)
    ensures DecodeFrom(s, bits, shift, acc).Short?
       <==> (forall i :: 0 <= i < |s| ==> s[i] >= 128) && (s == [] || shift + 7 * (|s| - 1) < bits)
    ensures DecodeFrom(s, bits, shift, acc).Overlong? <==> exists n: nat :: AsksOn(s, n) && shift + 7 * n >= bits
    decreases |s|
  {
    hide Or, Shifted;
    if s != [] && shift >= bits {
      assert AsksOn(s, 0);
    } else if s != [] && s[0] >= 128 {
      FromFails(s[1..], bits, shift + 7, Or(acc, Shifted(s[0], shift, bits)));
      if n: nat :| AsksOn(s, n) && shift + 7 * n >= bits {
        assert AsksOn(s[1..], n - 1);
      }
      if n: nat :| AsksOn(s[1..], n) && shift + 7 + 7 * n >= bits {
        assert forall i :: 0 < i < |s| ==> s[i] == s[1..][i - 1];
        assert AsksOn(s, n + 1);
      }
    }
  }

  /// When a number cannot be read: the input ends while every byte still asks for another one, an error;
  /// or so many bytes do that the next one would be shifted out of the width, a panic.
  lemma DecodeFails(s: Bytes, bits: nat)
    requires bits > 0
    ensures Decode(s, bits).Short? <==> (forall i :: 0 <= i < |s| ==> s[i] >= 128) && 7 * |s| < bits + 7
    ensures Decode(s, bits).Overlong? <==> exists n: nat :: AsksOn(s, n) && 7 * n >= bits
  {
    FromFails(s, bits, 0, 0);
  }

  lemma {:induction false} Pow2Add(a: nat, b: nat)
    ensures Pow2(a + b) == Pow2(a) * Pow2(b)
  {
    if a > 0 {
      Pow2Add(a - 1, b);
    }
  }

  lemma Pow2Widths()
    ensures Pow2(7) == 128 && Pow2(16) == U16 && Pow2(32) == U32
    ensures Pow2(14) == 128 * 128 && Pow2(21) == 128 * 128 * 128
    ensures Pow2(35) == 8 * U32
  {
    assert Pow2(7) == 128;
    Pow2Add(7, 7);
    Pow2Add(7, 14);
    assert Pow2(2) == 4;
    Pow2Add(2, 14);
    Pow2Add(16, 16);
    assert Pow2(3) == 8;
    Pow2Add(3, 32);
  }

  lemma {:induction false} Pow2Grows(a: nat, b: nat)
    requires a <= b
    ensures Pow2(a) <= Pow2(b)
  {
    if a < b {
      Pow2Grows(a, b - 1);
    }
  }

  lemma {:induction false} ShlAdds(a: nat, b: nat, k: nat)
    ensures Shl(a + b, k) == Shl(a, k) + Shl(b, k)
  {
    if k > 0 {
      ShlAdds(a, b, k - 1);
    }
  }

  lemma {:induction false} ShlGrows(a: nat, b: nat, k: nat)
    requires a <= b
    ensures Shl(a, k) <= Shl(b, k)
  {
    if k > 0 {
      ShlGrows(a, b, k - 1);
    }
  }

  lemma {:induction false} ShlSeven(a: nat, k: nat)
    ensures Shl(128 * a, k) == Shl(a, k + 7)
  {
    if k == 0 {
      assert Shl(a, 1) == 2 * a;
      assert Shl(a, 2) == 4 * a;
      assert Shl(a, 3) == 8 * a;
      assert Shl(a, 4) == 16 * a;
      assert Shl(a, 5) == 32 * a;
      assert Shl(a, 6) == 64 * a;
    } else {
      ShlSeven(a, k - 1);
    }
  }

  lemma {:induction false} ShlOne(k: nat)
    ensures Shl(1, k) == Pow2(k)
  {
    if k > 0 {
      ShlOne(k - 1);
    }
  }

  lemma {:induction false} LowAll(a: nat, bits: nat)
    ensures Low(a, bits) <= a
    ensures a < Pow2(bits) ==> Low(a, bits) == a
  {
    if bits > 0 {
      LowAll(a / 2, bits - 1);
    }
  }

  /// Truncation to the width leaves a multiple of the shift.
  lemma {:induction false} LowOfShl(a: nat, k: nat, bits: nat)
    requires k <= bits
    ensures Low(Shl(a, k), bits) == Shl(Low(a, bits - k), k)
  {
    if k > 0 {
      LowOfShl(a, k - 1, bits - 1);
    }
  }

  /// Bits above those gathered so far are added to them.
  lemma {:induction false} OrAdds(a: nat, b: nat, k: nat)
    requires a < Pow2(k)
    ensures Or(a, Shl(b, k)) == a + Shl(b, k)
  {
    if a > 0 {
      OrAdds(a / 2, b, k - 1);
    }
  }

  lemma Gathered(acc: nat, byte: Byte, shift: nat, bits: nat)
    requires acc < Pow2(shift) && shift < bits
    ensures Or(acc, Shifted(byte, shift, bits)) < Pow2(shift + 7)
    ensures Shl(byte % 128, shift) < Pow2(bits) ==>
              Or(acc, Shifted(byte, shift, bits)) == acc + Shl(byte % 128, shift)
  {
    hide Or, Shl, Low, Pow2;
    var low := byte % 128;
    LowOfShl(low, shift, bits);
    OrAdds(acc, Low(low, bits - shift), shift);
    LowAll(Shl(low, shift), bits);
    LowAll(low, bits - shift);
    ShlGrows(Low(low, bits - shift), 127, shift);
    ShlAdds(127, 1, shift);
    ShlSeven(1, shift);
    ShlOne(shift);
    ShlOne(shift + 7);
  }

  /// A value is its seven low bits and the rest, shifted by seven more.
  lemma Split(v: nat, shift: nat)
    ensures Shl(v, shift) == Shl(v % 128, shift) + Shl(v / 128, shift + 7)
  {
    hide Shl;
    ShlAdds(v % 128, 128 * (v / 128), shift);
    ShlSeven(v / 128, shift);
  }

  lemma NotYetWide(v: nat, shift: nat, bits: nat)
    requires v > 0 && Shl(v, shift) < Pow2(bits)
    ensures shift < bits
  {
    ShlGrows(1, v, shift);
    ShlOne(shift);
    if shift >= bits {
      Pow2Grows(bits, shift);
    }
  }

  lemma {:induction false} DecodeFromEncode(v: nat, s: Bytes, bits: nat, shift: nat, acc: nat)
    requires shift < bits && Shl(v, shift) < Pow2(bits) && acc < Pow2(shift)
    ensures DecodeFrom(Encode(v) + s, bits, shift, acc) == Got(acc + Shl(v, shift), s)
    decreases v
  {
    hide Pow2, Or, Shl, Shifted;
    var input := Encode(v) + s;
    Gathered(acc, input[0], shift, bits);
    if v < 128 {
      assert input[0] == v && input[1..] == s;
    } else {
      assert input[0] == 128 + v % 128 && input[1..] == Encode(v / 128) + s;
      assert input[0] % 128 == v % 128;
      Split(v, shift);
      NotYetWide(v / 128, shift + 7, bits);
      DecodeFromEncode(v / 128, s, bits, shift + 7, acc + Shl(v % 128, shift));
    }
  }

  /// Decoding an encoded value of the width returns it and stops at its last byte.
  lemma RoundTrip(v: nat, s: Bytes, bits: nat)
    requires bits > 0 && v < Pow2(bits)
    ensures Decode(Encode(v) + s, bits) == Got(v, s)
  {
    assert Pow2(0) == 1 && Shl(v, 0) == v;
    DecodeFromEncode(v, s, bits, 0, 0);
  }

  lemma RoundTrip32(v: nat, s: Bytes)
    requires v < U32
    ensures Decode(Encode(v) + s, 32) == Got(v, s)
  {
    Pow2Widths();
    RoundTrip(v, s, 32);
  }

  lemma RoundTrip16(v: nat, s: Bytes)
    requires v < U16
    ensures Decode(Encode(v) + s, 16) == Got(v, s)
  {
    Pow2Widths();
    RoundTrip(v, s, 16);
  }

  /// `n` bytes are enough for `v` exactly when `v` has at most `7 * n` bits.
  lemma {:induction false} EncodeLength(v: nat, n: nat)
    requires n >= 1
    ensures |Encode(v)| <= n <==> v < Pow2(7 * n)
  {
    assert Pow2(7 * n) == 128 * Pow2(7 * (n - 1)) by {
      Pow2Add(7, 7 * (n - 1));
      Pow2Widths();
    }
    if v >= 128 && n > 1 {
      EncodeLength(v / 128, n - 1);
      var p := Pow2(7 * (n - 1));
      assert v / 128 < p <==> v < 128 * p;
    } else if v >= 128 {
      assert Pow2(0) == 1;
    }
  }

  lemma EncodeAtMost5(v: nat)
    requires v < U32
    ensures |Encode(v)| <= 5
  {
    Pow2Widths();
    EncodeLength(v, 5);
  }

  lemma EncodeAtMost3(v: nat)
    requires v < U16
    ensures |Encode(v)| <= 3
  {
    Pow2Widths();
    EncodeLength(v, 3);
  }

  /// What a successful decode consumed: a non-empty front of the input with enough bits for the value.
  lemma {:induction false} DecodeFromConsumes(s: Bytes, bits: nat, shift: nat, acc: nat)
    requires acc < Pow2(shift)
    requires DecodeFrom(s, bits, shift, acc).Got?
    ensures var r := DecodeFrom(s, bits, shift, acc);
            |r.rest| < |s| && r.rest == s[|s| - |r.rest|..]
            && r.value < Pow2(shift + 7 * (|s| - |r.rest|))
    decreases |s|
  {
    hide Pow2, Or, Shifted;
    Gathered(acc, s[0], shift, bits);
    if s[0] >= 128 {
      var next, r := Or(acc, Shifted(s[0], shift, bits)), DecodeFrom(s, bits, shift, acc);
      DecodeFromConsumes(s[1..], bits, shift + 7, next);
      assert shift + 7 + 7 * (|s[1..]| - |r.rest|) == shift + 7 * (|s| - |r.rest|);
    }
  }

  /// No byte string that decodes to `v` is shorter than the encoding of `v`.
  lemma EncodeShortest(s: Bytes, bits: nat)
    requires Decode(s, bits).Got?
    ensures var r := Decode(s, bits);
            |r.rest| < |s| && r.rest == s[|s| - |r.rest|..] && |Encode(r.value)| <= |s| - |r.rest|
  {
    DecodeFromConsumes(s, bits, 0, 0);
    var r := Decode(s, bits);
    EncodeLength(r.value, |s| - |r.rest|);
  }

  lemma {:induction false} OrFits(a: nat, b: nat, bits: nat)
    requires a < Pow2(bits) && b < Pow2(bits)
    ensures Or(a, b) < Pow2(bits)
  {
    if a > 0 {
      OrFits(a / 2, b / 2, bits - 1);
    }
  }

  lemma {:induction false} LowFits(a: nat, bits: nat)
    ensures Low(a, bits) < Pow2(bits)
  {
    if bits > 0 {
      LowFits(a / 2, bits - 1);
    }
  }

  lemma {:induction false} DecodeFromFits(s: Bytes, bits: nat, shift: nat, acc: nat)
    requires acc < Pow2(bits) && DecodeFrom(s, bits, shift, acc).Got?
    ensures DecodeFrom(s, bits, shift, acc).value < Pow2(bits)
    decreases |s|
  {
    LowFits(Shl(s[0] % 128, shift), bits);
    OrFits(acc, Shifted(s[0], shift, bits), bits);
    if s[0] >= 128 {
      DecodeFromFits(s[1..], bits, shift + 7, Or(acc, Shifted(s[0], shift, bits)));
    }
  }

  /// A decoded value fits the width, whatever the input.
  lemma DecodedFits(s: Bytes, bits: nat)
    requires Decode(s, bits).Got?
    ensures Decode(s, bits).value < Pow2(bits)
  {
    DecodeFromFits(s, bits, 0, 0);
  }

  /// The cast of a signed value to the unsigned type of the same width, and the cast back.
  function ToUnsigned(v: int, bits: nat): nat
    requires bits > 0 && 0 - Pow2(bits - 1) as int <= v < Pow2(bits - 1)
  {
    if v < 0 then v + Pow2(bits) else v
  }

  function ToSigned(u: nat, bits: nat): int
    requires bits > 0
  {
    if u < Pow2(bits - 1) then u else u - Pow2(bits)
  }

  lemma SignedRoundTrip(v: int, s: Bytes, bits: nat)
    requires bits > 0 && 0 - Pow2(bits - 1) as int <= v < Pow2(bits - 1)
    ensures Decode(Encode(ToUnsigned(v, bits)) + s, bits).Got?
    ensures ToSigned(Decode(Encode(ToUnsigned(v, bits)) + s, bits).value, bits) == v
    ensures Decode(Encode(ToUnsigned(v, bits)) + s, bits).rest == s
  {
    assert Pow2(bits) == 2 * Pow2(bits - 1);
    RoundTrip(ToUnsigned(v, bits), s, bits);
  }

  /// The encoder's loop, writing into a growing buffer.
  method EncodeInto(v: nat, buffer: Bytes) returns (result: Bytes)
    ensures result == buffer + Encode(v)
  {
    var left := v;
    result := buffer;
    while true
      invariant result + Encode(left) == buffer + Encode(v)
      decreases left
    {
      var toWrite := left % 128;
      var shifted := left / 128;
      if shifted != 0 {
        toWrite := toWrite + 128;
      }
      assert Encode(left) == [toWrite] + (if shifted == 0 then [] else Encode(shifted));
      assert result + Encode(left) == (result + [toWrite]) + (if shifted == 0 then [] else Encode(shifted));
      result := result + [toWrite];
      if shifted == 0 {
        break;
      }
      left := shifted;
    }
  }

  /// The decoder's loop, advancing over the input one byte at a time.
  method DecodeFront(input: Bytes, bits: nat) returns (r: Decoded<nat>)
    ensures r == Decode(input, bits)
  {
    var rest := input;
    var gathered: nat, shift: nat := 0, 0;
    while true
      invariant DecodeFrom(rest, bits, shift, gathered) == Decode(input, bits)
      decreases |rest|
    {
      if rest == [] {
        return Short;
      }
      if shift >= bits {
        return Overlong;
      }
      var byte := rest[0];
      rest := rest[1..];
      gathered := Or(gathered, Shifted(byte, shift, bits));
      if byte < 128 {
        return Got(gathered, rest);
      }
      shift := shift + 7;
    }
  }
}
