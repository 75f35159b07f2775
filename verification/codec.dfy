/** The MessagePack payload codec, which lives in a library outside this
    layer. It is a pair of functions over the serde data model of the
    record: the ordered sequence of its field values (the library writes a
    struct as an array of its fields). Stabilised set and map encodings,
    MessagePack byte layout and trailing-byte handling are all inside these
    functions; the model never looks at them. */
module Codec {
  import opened Errors
  import opened Bytes
  import opened V0Schema

  /** `rmps::encode::write` of a record's elements. */
  type Encoder<!L, !N, !R, !H, !S> = seq<FieldValue<L, N, R, H, S>> -> Result<Bytes, SerializationError>

  /** `rmps::decode::from_read` down to the record's elements. */
  type Decoder<!L, !N, !R, !H, !S> = Bytes -> Result<seq<FieldValue<L, N, R, H, S>>, DecodeFailure>

  /** The codec's round-trip promise, taken as a hypothesis: whatever the
      encoder accepts, the decoder gives back unchanged. */
  ghost predicate RoundTrips<L(!new), N(!new), R(!new), H(!new), S(!new)>(enc: Encoder<L, N, R, H, S>, dec: Decoder<L, N, R, H, S>) {
    forall vs :: enc(vs).Success? ==> dec(enc(vs).value) == Success(vs)
  }
}
