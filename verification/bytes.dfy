/** Byte strings and the prefix test of Rust's `<[u8]>::starts_with`. */
module Bytes {

  type Bytes = seq<bv8>

  /** `s` begins with all of `prefix`; false whenever `s` is shorter. */
  predicate StartsWith(s: Bytes, prefix: Bytes) {
    |prefix| <= |s| && s[..|prefix|] == prefix
  }

  /** Byte-by-byte prefix comparison, the way the slice method runs it. It
      is not called by the model: it shows that this loop decides exactly
      the `StartsWith` predicate that `Deserialize` uses for the magic check. */
  method CheckStartsWith(s: Bytes, prefix: Bytes) returns (b: bool)
    ensures b <==> StartsWith(s, prefix)
  {
    if |s| < |prefix| {
      return false;
    }
    var i := 0;
    while i < |prefix|
      invariant i <= |prefix|
      invariant s[..i] == prefix[..i]
    {
      if s[i] != prefix[i] {
        assert s[..|prefix|][i] != prefix[i];
        return false;
      }
      assert s[..i+1] == s[..i] + [s[i]];
      assert prefix[..i+1] == prefix[..i] + [prefix[i]];
      i := i + 1;
    }
    assert prefix[..i] == prefix;
    return true;
  }

  /** A concatenation starts with its left operand. */
  lemma StartsWithConcat(p: Bytes, q: Bytes)
    ensures StartsWith(p + q, p)
  {
  }
}
