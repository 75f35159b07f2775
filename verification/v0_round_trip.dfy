/** Properties of the whole v0 path, engine state to blob and back, under the
    codec's round-trip hypothesis. */
module V0RoundTrip {
  import opened Errors
  import opened Bytes
  import opened Engine
  import opened V0Schema
  import opened Codec
  import opened V0Conversions
  import opened V0Framing

  /** A serialized record deserializes to the same record, field for field,
      by the source's reader and by the corrected one. */
  lemma SerializeThenDeserialize<L(!new), N(!new), R(!new), H(!new), S(!new)>(
    magic: Bytes, enc: Encoder<L, N, R, H, S>, dec: Decoder<L, N, R, H, S>, f: Format<L, N, R, H, S>)
    requires RoundTrips(enc, dec)
    requires Serialize(magic, enc, f).Success?
    ensures Deserialize(magic, dec, Serialize(magic, enc, f).value) == Ok(f)
    ensures DeserializeChecked(magic, dec, Serialize(magic, enc, f).value) == Success(f)
  {
    DecodeEncodedFields(f, []);
    assert Fields(f) + [] == Fields(f);
  }

  /** Saving engine state and loading it back gives the same state with the
      runtime tag set reset: every persisted field survives. */
  lemma EngineRoundTrip<L(!new), N(!new), R(!new), H(!new), S(!new)>(
    magic: Bytes, enc: Encoder<L, N, R, H, S>, dec: Decoder<L, N, R, H, S>,
    b: Blocker<L, N, R>, c: CosmeticFilterCache<H, S>)
    requires RoundTrips(enc, dec)
    requires Serialize(magic, enc, ToFormat(b, c)).Success?
    ensures Deserialize(magic, dec, Serialize(magic, enc, ToFormat(b, c)).value).Ok?
    ensures FromFormat(Deserialize(magic, dec, Serialize(magic, enc, ToFormat(b, c)).value).value) == (WithDefaultRuntime(b), c)
  {
    SerializeThenDeserialize(magic, enc, dec, ToFormat(b, c));
    EngineFormatEngine(b, c);
  }

  /** Cutting a blob anywhere inside its header leaves an input the source
      panics on, however the payload looks. */
  lemma TruncatedHeaderAborts<L, N, R, H, S>(
    magic: Bytes, enc: Encoder<L, N, R, H, S>, dec: Decoder<L, N, R, H, S>, f: Format<L, N, R, H, S>, k: nat)
    requires Serialize(magic, enc, f).Success?
    requires k <= |magic|
    ensures Deserialize(magic, dec, Serialize(magic, enc, f).value[..k]).Abort?
    ensures DeserializeChecked(magic, dec, Serialize(magic, enc, f).value[..k]) == Failure(FramingError)
  {
  }

  /** A small engine state: one csp rule, a flag, one simple class selector
      and one complex id selector with an ordered selector list. Filter lists
      are lists of rule strings here; the other opaque parts are `()`. */
  function SampleBlocker(): Blocker<seq<string>, string, ()> {
    Blocker(["R1"], [], [], [], [], [], [], NoTags, [], true, ())
  }

  function SampleCosmetics(): CosmeticFilterCache<(), ()> {
    CosmeticFilterCache({"ad-banner"}, {}, map[], map["id1" := ["sel-a", "sel-b"]], (), {}, ())
  }

  /** The sample state comes back with its rules, flag, set membership and
      selector order intact, behind a blob that starts with the header. */
  lemma SampleRoundTrip(
    magic: Bytes,
    enc: Encoder<seq<string>, string, (), (), ()>,
    dec: Decoder<seq<string>, string, (), (), ()>)
    requires RoundTrips(enc, dec)
    requires Serialize(magic, enc, ToFormat(SampleBlocker(), SampleCosmetics())).Success?
    ensures HasHeader(Serialize(magic, enc, ToFormat(SampleBlocker(), SampleCosmetics())).value, magic)
    ensures var r := Deserialize(magic, dec, Serialize(magic, enc, ToFormat(SampleBlocker(), SampleCosmetics())).value);
            && r.Ok?
            && FromFormat(r.value).0.csp == ["R1"]
            && FromFormat(r.value).0.exceptions == []
            && FromFormat(r.value).0.enableOptimizations
            && FromFormat(r.value).1.simpleClassRules == {"ad-banner"}
            && FromFormat(r.value).1.complexIdRules == map["id1" := ["sel-a", "sel-b"]]
  {
    EngineRoundTrip(magic, enc, dec, SampleBlocker(), SampleCosmetics());
  }
}
