# adblock-rust v0 engine-state format, in Dafny

This project models the version-0 persistence format of the adblock engine
(`src/data_format/v0.rs`). That format turns the live `Blocker` and
`CosmeticFilterCache` into one binary blob and turns the blob back into them.

- **Framing.** `SerializeFormat::serialize` writes the magic constant, then
  the version byte `0`, then the MessagePack encoding of a 17-field record.
  `DeserializeFormat::deserialize` checks the magic and the version byte,
  then decodes only the bytes that follow. In the source the two checks are
  `assert!`s plus an index, so a bad header panics instead of returning an
  error. By default the panic unwinds the calling thread, and under
  `panic = "abort"` it ends the process. The model gives this its own
  outcome, `Abort(Panic)`. That keeps it apart from a
  returned `DeserializationError`.
- **Record.** `SerializeFormat` borrows and `DeserializeFormat` owns, but
  both declare the same 17 fields in the same order. Dafny has no borrowing,
  so both become the one datatype `V0Schema.Format`. `Schema` lists the
  canonical field order. `Fields` is the positional element sequence that the
  serializer hands to the codec, since MessagePack writes a struct as an
  array. `FromFields` is the derived positional visitor on the read side.
- **Codec.** The MessagePack library cannot be seen. It is a pair of function
  parameters, `Codec.Encoder` and `Codec.Decoder`. Its round-trip promise is
  the predicate `Codec.RoundTrips`, and it appears only as a hypothesis of the
  lemmas that need it.
- **Conversions.** `V0Conversions.ToFormat` and `V0Conversions.FromFormat`
  are the two `From` impls. They copy every persisted field to the slot of the
  same name. On the way back they reset the runtime-only `tags_enabled` set to
  its default, the empty set.
- **Opaque types.** The magic constant is a parameter and may be any byte
  string. `NetworkFilterList`, `NetworkFilter`, `RedirectResourceStorage`,
  `HostnameRuleDb` and `ScriptletResourceStorage` are the type parameters
  `L`, `N`, `R`, `H` and `S`. Hash sets and hash maps are Dafny `set` and
  `map` values.

Modules: `Errors` (results, panics, error constructors), `Bytes` (byte
strings and `starts_with`), `Engine` (the engine components' fields), `V0Schema`,
`Codec`, `V0Conversions`, `V0Framing` and `V0RoundTrip`.

## Model

| member | source | states |
|---|---|---|
| Bytes.CheckStartsWith | src/data_format/v0.rs:96 | The byte-by-byte prefix test returns true exactly when the input is at least as long as the magic and its first bytes equal the magic. Nothing calls it: it shows that the loop decides the same `StartsWith` predicate that `Deserialize` uses. |
| Engine.WithDefaultRuntime | src/data_format/v0.rs:146 | Resetting the runtime state empties the tag set and keeps the other ten fields unchanged. So the blocker is unchanged exactly when its tag set was already empty. |
| V0Schema.Position | src/data_format/v0.rs:67-92 | Every field name has a slot below 17, and the schema lists that name in that slot. |
| V0Schema.Fields | src/data_format/v0.rs:22-53 | The serializer's element sequence has exactly one element per schema slot: 17. |
| V0Schema.SchemaSlotsAreFields | src/data_format/v0.rs:24-52 | The schema has 17 slots, and each slot's field maps back to that slot, so no field appears twice. The same list of fields is declared again, in the same order, at v0.rs:68-91. |
| V0Schema.FieldsFollowSchema | src/data_format/v0.rs:23-53 | Element i of the serialized record is the field that the schema names at slot i. |
| V0Schema.NetworkSlotsFilled | src/data_format/v0.rs:68-80 | Reading the serializer's elements (anything may be appended) gives the ten network-filter fields back from their slots. |
| V0Schema.CosmeticSlotsFilled | src/data_format/v0.rs:82-91 | Reading the serializer's elements (anything may be appended) gives the seven cosmetic fields back from their slots. |
| V0Schema.FieldsFillSlots | src/data_format/v0.rs:23-92 | Writing and reading declare the same fields in the same order: every reader step finds its field where the writer put it. |
| V0Schema.DecodeEncodedFields | src/data_format/v0.rs:5 | Reading the serializer's elements gives the record back, even when more elements follow, because the derived visitor stops after the seventeenth element. Whether the codec passes on or rejects left-over array elements is up to the abstract `Decoder`. |
| V0Schema.DecodedFieldsAreEncoding | src/data_format/v0.rs:66-92 | When the reader succeeds, the input has at least 17 elements, and its first 17 are exactly the serializer's elements of the decoded record. |
| V0Schema.FromFieldsAcceptsExactlyEncodings | src/data_format/v0.rs:66-92 | The derived reader returns record f exactly when the input has at least 17 elements and its first 17 are the serializer's elements of f. Anything after them is not read. |
| V0Schema.FromFieldsFollowsSchema | src/data_format/v0.rs:67-92 | The derived reader returns record f exactly when, for every one of the 17 slots, the element in that slot is the field of f that the schema names there. |
| V0Conversions.ToFormat | src/data_format/v0.rs:103-133 | For every field name, the record's field holds the engine field of the same name. |
| V0Conversions.FromFormat | src/data_format/v0.rs:135-168 | Every engine field holds the record field of the same name, and the tag set is empty. |
| V0Conversions.EngineFormatEngine | src/data_format/v0.rs:103-168 | Engine to record to engine gives back the blocker with its tag set reset and the cosmetic cache unchanged. The result equals the input exactly when the tag set was empty. |
| V0Conversions.FormatEngineFormat | src/data_format/v0.rs:103-168 | Record to engine to record is the identity. |
| V0Conversions.ToFormatForgetsOnlyTags | src/data_format/v0.rs:103-133 | Two engine states give the same record exactly when they are equal once their tag sets are reset. |
| V0Framing.Serialize | src/data_format/v0.rs:56-61 | The output exists exactly when the encoder succeeds, and otherwise carries the encoder's error. A successful output begins with the magic and then the version byte 0, is magic length + 1 + payload length long, and after that header holds exactly the encoded record. |
| V0Framing.DecodePayload | src/data_format/v0.rs:98 | A codec failure is passed on as a decode error. On success the decoded elements begin with exactly the record's 17 serialized elements. |
| V0Framing.DecodePayloadAcceptsExactlyEncodings | src/data_format/v0.rs:98 | The payload decodes to record f exactly when the codec succeeds and hands over elements that begin with the serializer's 17 elements of f. |
| V0Framing.Deserialize | src/data_format/v0.rs:95-100 | The reader panics (the `Abort` outcome) exactly when the input lacks the magic-plus-version header. With the header, the result is the decoding of exactly the bytes from offset magic length + 1. |
| V0Framing.HeaderPanics | src/data_format/v0.rs:96-97 | An input shorter than the magic, or not starting with it, fails the magic assertion. The magic alone indexes one past the end. A wrong byte after the magic fails the version assertion. |
| V0Framing.DeserializeReadsOnlyPayload | src/data_format/v0.rs:98 | Two inputs with a valid header and the same bytes after it deserialize to the same outcome. |
| V0Framing.DeserializeChecked | src/data_format/v0.rs:95-100 | The corrected reader returns a framing error exactly where the source panics, and agrees with the source everywhere else. |
| V0Framing.MagicAloneAborts | src/data_format/v0.rs:97 | On the input that is the magic alone, the source panics with an out-of-bounds index, while the corrected reader returns a framing error. |
| V0RoundTrip.SerializeThenDeserialize | src/data_format/v0.rs:56-100 | If the codec round-trips, deserializing a serialized record gives that record back. This holds for the source reader and for the corrected one. |
| V0RoundTrip.EngineRoundTrip | src/data_format/v0.rs:56-168 | If the codec round-trips, saving and loading engine state keeps every persisted field and resets only the tag set. |
| V0RoundTrip.TruncatedHeaderAborts | src/data_format/v0.rs:96-97 | A serialized blob cut at any offset up to the magic length makes the source panic and the corrected reader return a framing error. |
| V0RoundTrip.SampleRoundTrip | src/data_format/v0.rs:56-168 | A sample state makes the full trip with its header in place, and comes back with the csp bucket ["R1"], no exceptions, the flag true, the class set {"ad-banner"} and the id map {"id1": ["sel-a", "sel-b"]}. |

## Findings

| source | as written | input that shows it | evidently intended | confidence | as-written member | corrected member |
|---|---|---|---|---|---|---|
| src/data_format/v0.rs:96-97 | The header is checked with `assert!` and with `serialized[MAGIC.len()]`, inside a function that returns `Result<Self, DeserializationError>`. | The magic alone, with no version byte: the index is one past the end and the call panics. Any input without the magic panics too. | A bad header returns a recoverable error, like every other failure of this function. | medium (the panic is certain; the intent is read from the return type), not executed | V0Framing.MagicAloneAborts | V0Framing.DeserializeChecked |

## Left out

- The `object-pooling` `pool` field of `Blocker` (v0.rs:152-153) is not modelled. It exists only under a cargo feature, its type is defined elsewhere, and it is reset to its default like `tags_enabled`.
- MessagePack encoding and decoding (`rmp_serde`) are not modelled. They belong to a library and are the abstract `Codec.Encoder` and `Codec.Decoder`. Also left to those functions: trailing bytes after the payload, extra elements after the seventeenth, and the effect of a truncated payload.
- `stabilize_hashset_serialization` and `stabilize_hashmap_serialization` are not part of this model. They act inside the abstract encoder. No sorting or byte-stability claim is made, beyond `Serialize` being a function of a value in which sets and maps have no order.
- No forward-compatibility defaults are modelled. The record declares no serde defaults, so a record with fewer than 17 elements is rejected with `MissingField`, and the model follows the code.
- The internals of `NetworkFilterList`, `NetworkFilter`, `RedirectResourceStorage`, `ScriptletResourceStorage` and `HostnameRuleDb` are not modelled. They are type parameters.
- The value of `ADBLOCK_RUST_DAT_MAGIC` is not modelled. It is defined outside this file, so it is a parameter, and every result holds for any byte string.
- The contents of `SerializationError` and `DeserializationError` are not modelled. They are defined elsewhere and are collapsed into a few constructors. `FramingError` exists only for the corrected reader.
- Panics are not modelled as control flow. Unwinding or aborting is not modelled. A panic is the value `Abort(panic)`, whose constructor names the failed check. `BadVersion` also carries the byte that was found, although the `assert!` message prints only the asserted expression.
- The derived `Deserialize` of `DeserializeFormat` is not shown in the source. `V0Schema.FromFields` assumes how serde's derived sequence visitor behaves: it reads the fields in declaration order, the first element of the wrong shape gives `WrongType` at its position, a record that ends early gives `MissingField` with the number of elements found, and elements after the seventeenth are not read.
