/** Types and constants shared by every module. */
module Base {
  type Byte = b: int | 0 <= b < 256
  type Bytes = seq<Byte>

  /// One past the largest value of each unsigned integer width of the program.
  const U16 := 0x1_0000
  const U32 := 0x1_0000_0000
  const USIZE := 0x1_0000_0000_0000_0000

  datatype Option<+T> = None | Some(value: T)

  /// `wrapping_add(1)` on a `u32`.
  function Next32(n: nat): nat {
    (n + 1) % U32
  }

  ghost predicate IsPrefix<T>(a: seq<T>, b: seq<T>) {
    |a| <= |b| && a == b[..|a|]
  }

  ghost predicate Distinct<T>(s: seq<T>) {
    forall i, j :: 0 <= i < j < |s| ==> s[i] != s[j]
  }

  /// The concatenation of a list of byte strings.
  function Flat(parts: seq<Bytes>): Bytes {
    if parts == [] then [] else parts[0] + Flat(parts[1..])
  }

  lemma {:induction false} FlatAppend(a: seq<Bytes>, b: seq<Bytes>)
    ensures Flat(a + b) == Flat(a) + Flat(b)
  {
    if a == [] {
      assert a + b == b;
    } else {
      assert (a + b)[1..] == a[1..] + b;
      FlatAppend(a[1..], b);
    }
  }
}
