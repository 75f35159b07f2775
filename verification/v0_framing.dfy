/** The v0 blob: `[magic][version 0][payload]`, written by
    `SerializeFormat::serialize` and read by `DeserializeFormat::deserialize`.

    The magic constant is defined outside the v0 format file; every operation
    here takes it as a parameter and works for any byte string. */
module V0Framing {
  import opened Errors
  import opened Bytes
  import opened V0Schema
  import opened Codec

  /** The schema revision byte written after the magic. */
  const Version: bv8 := 0

  /** `s` opens with the v0 header: the magic, then the version byte. */
  predicate HasHeader(s: Bytes, magic: Bytes) {
    StartsWith(s, magic) && |magic| < |s| && s[|magic|] == Version
  }

  /** `SerializeFormat::serialize`: the magic, the version byte, then the
      encoded record and nothing more; the encoder's error if it fails. */
  function Serialize<L, N, R, H, S>(magic: Bytes, enc: Encoder<L, N, R, H, S>, f: Format<L, N, R, H, S>): (r: Result<Bytes, SerializationError>)
    ensures r.Success? <==> enc(Fields(f)).Success?
    ensures r.Failure? ==> r.error == enc(Fields(f)).error
    ensures r.Success? ==> HasHeader(r.value, magic)
    ensures r.Success? ==> |r.value| == |magic| + 1 + |enc(Fields(f)).value|
    ensures r.Success? ==> r.value[|magic| + 1..] == enc(Fields(f)).value
  {
    var payload :- enc(Fields(f));
    StartsWithConcat(magic, [Version] + payload);
    assert magic + [Version] + payload == magic + ([Version] + payload);
    Success(magic + [Version] + payload)
  }

  /** `rmps::decode::from_read` of the payload into a `DeserializeFormat`:
      the codec's error, or the derived visitor's result on the decoded
      elements. */
  function DecodePayload<L, N, R, H, S>(dec: Decoder<L, N, R, H, S>, payload: Bytes): (r: Result<Format<L, N, R, H, S>, DeserializationError>)
    ensures dec(payload).Failure? ==> r == Failure(DecodeError(dec(payload).error))
    ensures r.Success? ==> dec(payload).Success?
    ensures r.Success? ==> |Schema| <= |dec(payload).value| && dec(payload).value[..|Schema|] == Fields(r.value)
    ensures r.Failure? ==> r.error.DecodeError?
  {
    match dec(payload)
    case Failure(e) => Failure(DecodeError(e))
    case Success(vs) =>
      var r := FromFields(vs);
      if r.Success? then DecodedFieldsAreEncoding(vs); r else r
  }

  /** The payload decodes to `f` exactly when the codec hands over elements
      that begin with the writer's elements of `f`; elements after the
      seventeenth are not read by the derived visitor. */
  lemma DecodePayloadAcceptsExactlyEncodings<L, N, R, H, S>(dec: Decoder<L, N, R, H, S>, payload: Bytes, f: Format<L, N, R, H, S>)
    ensures DecodePayload(dec, payload) == Success(f) <==>
              dec(payload).Success? && |Schema| <= |dec(payload).value| && dec(payload).value[..|Schema|] == Fields(f)
  {
    if dec(payload).Success? {
      FromFieldsAcceptsExactlyEncodings(dec(payload).value, f);
    }
  }

  /** `DeserializeFormat::deserialize` as written: the two header checks are
      `assert!`s and an index, so a bad header panics (unwinding the calling
      thread, or aborting under `panic = "abort"`) rather than returning an
      error. With a good header, exactly the bytes after it are
      decoded. */
  function Deserialize<L, N, R, H, S>(magic: Bytes, dec: Decoder<L, N, R, H, S>, input: Bytes): (r: Outcome<Format<L, N, R, H, S>, DeserializationError>)
    ensures r.Abort? <==> !HasHeader(input, magic)
    ensures HasHeader(input, magic) ==> r == Lift(DecodePayload(dec, input[|magic| + 1..]))
  {
    if !StartsWith(input, magic) then Abort(MissingMagic)
    else if |input| <= |magic| then Abort(IndexOutOfBounds(|magic|, |input|))
    else if input[|magic|] != Version then Abort(BadVersion(input[|magic|]))
    else Lift(DecodePayload(dec, input[|magic| + 1..]))
  }

  /** Which panic a bad header raises: a missing magic (which includes every
      input shorter than it), an index one past the end when the input is the
      magic alone, or a failed version assertion. */
  lemma HeaderPanics<L, N, R, H, S>(magic: Bytes, dec: Decoder<L, N, R, H, S>, input: Bytes)
    ensures |input| < |magic| ==> Deserialize(magic, dec, input) == Abort(MissingMagic)
    ensures !StartsWith(input, magic) ==> Deserialize(magic, dec, input) == Abort(MissingMagic)
    ensures StartsWith(input, magic) && |input| == |magic| ==>
              Deserialize(magic, dec, input) == Abort(IndexOutOfBounds(|magic|, |magic|))
    ensures StartsWith(input, magic) && |magic| < |input| && input[|magic|] != Version ==>
              Deserialize(magic, dec, input) == Abort(BadVersion(input[|magic|]))
  {
  }

  /** Inputs with a good header and the same payload deserialize alike: the
      header is checked and then skipped, and nothing else is read. */
  lemma DeserializeReadsOnlyPayload<L, N, R, H, S>(magic: Bytes, dec: Decoder<L, N, R, H, S>, a: Bytes, b: Bytes)
    requires HasHeader(a, magic) && HasHeader(b, magic)
    requires a[|magic| + 1..] == b[|magic| + 1..]
    ensures Deserialize(magic, dec, a) == Deserialize(magic, dec, b)
  {
  }

  /** `DeserializeFormat::deserialize` with the header checks returning an
      error instead of panicking. It differs from `Deserialize` only where
      that one panics. */
  function DeserializeChecked<L, N, R, H, S>(magic: Bytes, dec: Decoder<L, N, R, H, S>, input: Bytes): (r: Result<Format<L, N, R, H, S>, DeserializationError>)
    ensures r == Failure(FramingError) <==> Deserialize(magic, dec, input).Abort?
    ensures !Deserialize(magic, dec, input).Abort? ==> Lift(r) == Deserialize(magic, dec, input)
  {
    if HasHeader(input, magic) then DecodePayload(dec, input[|magic| + 1..])
    else Failure(FramingError)
  }

  /** The blob that is the magic alone, with no version byte, makes the
      source index past the end of the slice; the corrected reader reports a
      framing error for it. */
  lemma MagicAloneAborts<L, N, R, H, S>(magic: Bytes, dec: Decoder<L, N, R, H, S>)
    ensures Deserialize(magic, dec, magic) == Abort(IndexOutOfBounds(|magic|, |magic|))
    ensures DeserializeChecked(magic, dec, magic) == Failure(FramingError)
  {
  }
}
