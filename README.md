# srclient in Dafny

A model of the Go Schema Registry client `srclient`, with proofs about the model. It covers four parts of the library.

- **Protobuf wire framing** (`examples/protobuf/lib`). Every record starts with a wire header:
  - the version byte `0`;
  - the schema id as four big-endian bytes;
  - the length of the message-index path as a ZigZag varint;
  - each path element as a ZigZag varint.

  The serializer works out a message's index path from its descriptor and caches the header under (schema id, message full name). It then writes the header in front of the Protobuf payload. The deserializer reads the header back, walks the path down the registered schema file, and picks the registered Go message type of that name.
- **The in-memory mock registry** (`mockSchemaRegistryClient.go`). It is a class with three fields, which its methods update in place:
  - an id counter;
  - subject → version → schema;
  - id → schema.
- **The HTTP client's caches and request rules** (`schemaRegistryClient.go`):
  - the id cache and the `cacheKey(subject, version)` cache;
  - the newline normalisation of Avro and JSON texts;
  - the `schemaType` spelling;
  - the choice of `Authorization` header;
  - the status check.

  The network is a `Server` object. It answers each request through a function and records every request it receives.
- **Shared vocabulary** (`registry.dfy`): schema types, normalisation, `strconv.Itoa` and the cache key.

Files:
- `common.dfy`: bytes, `int64` bounds, `Option`, the library's errors, and `Outcome` (`Ok | Err | Panic`, where `Panic` stands for a Go runtime panic).
- `binary.dfy`: `encoding/binary` big-endian and varints.
- `descriptors.dfy`: descriptors, index paths and their resolution.
- `header.dfy`: the header encoder and decoder.
- `serializer.dfy` and `deserializer.dfy`: the two Protobuf classes.
- `aliasing.dfy`: Go slice sharing in `Marshal`.
- `registry.dfy`, `mock.dfy` and `client.dfy`: the registry clients.

Go panics are modelled as an explicit outcome, never as preconditions:
- `decodeHeader` on fewer than five bytes, or with a decoded length that is negative or longer than the `[]int` that `make` can allocate on a 64-bit platform (`MaxIntSliceLen`, 2^45);
- `resolveDescriptorByIndexes` with an out-of-range nested index.

Where the code and its documentation disagree, the model follows the code. For example, a decoded path length of 0 yields an empty path: the `[0]` appended at deserializer.go:188-190 is discarded by the `make` at line 193. Likewise, `SchemaType.String` gives `""` for Avro as in schemaRegistryClient.go. schema.go, which spells it `"AVRO"`, is not part of this model.

## Model

| member | source | states |
|---|---|---|
| Binary.Uint32OfPutUint32 | examples/protobuf/lib/serializer.go:294 | Reading back the four big-endian bytes of a `uint32` gives the same value. |
| Binary.PutUint32OfUint32 | examples/protobuf/lib/deserializer.go:180 | Writing back a decoded `uint32` gives the same four bytes. |
| Binary.ZigZagBounds | examples/protobuf/lib/serializer.go:298-303 | Every `int64` has a ZigZag value below 2^64 that maps back to it. |
| Binary.UnZigZagBounds | examples/protobuf/lib/deserializer.go:183-197 | Every 64-bit ZigZag value decodes to an `int64` that encodes back to it. |
| Binary.UvarintFrom | examples/protobuf/lib/deserializer.go:183-197 | The `binary.Uvarint` byte count: positive and at most 10 when complete, with value 0 on a truncated or overflowing input. The value fits in what is left of 64 bits. |
| Binary.VarintRoundTrip | examples/protobuf/lib/serializer.go:298-303 | `Varint` reads back what `PutVarint` wrote, whatever follows. The count is the encoding's width, and that width is at most `MaxVarintLen64`. |
| Descriptors.ComputeMessageIndexes | examples/protobuf/lib/serializer.go:254-279 | The path's length is the nesting depth, and its last element is the descriptor's own index. |
| Descriptors.ComputedPathAddressesDecl | examples/protobuf/lib/serializer.go:254-279 | For a descriptor from a real file, the computed path is valid in that file and addresses exactly the descriptor's declaration, root first. |
| Descriptors.ComputeMessageIndexesOfDescriptorAt | examples/protobuf/lib/serializer.go:254-279 | Converse: for every valid path, the descriptor found there is well formed and lies in the file, and its computed path is that path. |
| Descriptors.ResolveDescriptorByIndexes | examples/protobuf/lib/deserializer.go:207-230 | An empty path returns the node itself. A non-empty path can only succeed with a message. Any other kind of node with path left is `ErrTypeUndefinedInSchemaRegistry`. |
| Descriptors.ResolveFromFile | examples/protobuf/lib/deserializer.go:207-219 | From a file, resolution succeeds exactly on valid paths and yields the addressed message. A top-level index past the end is `ErrTypeUndefinedInSchemaRegistry`. |
| Descriptors.ResolveFromMessage | examples/protobuf/lib/deserializer.go:220-226 | Below a message, a valid path yields the addressed message, and any invalid path panics. |
| Descriptors.ComputedPathResolves | examples/protobuf/lib/serializer.go:215-218 | The path the serializer computes always resolves, in the message's own file, to the message itself. |
| Descriptors.TestFixturePaths | examples/protobuf/lib/deserializer_test.go:54-60 | In the test schema, `[0,2,1]` resolves to `MessageG` and `[1,0]` to `MessageI`. An index past the top level is an error, and a nested index out of range panics. |
| Header.PutVarint | examples/protobuf/lib/serializer.go:298-303 | Writes exactly `PutVarint`'s bytes at the offset, reports their number, and leaves every other byte alone. |
| Header.BigEndianPutUint32 | examples/protobuf/lib/serializer.go:294 | Writes the four big-endian bytes at the offset and leaves the rest alone. |
| Header.EncodePayloadHeader | examples/protobuf/lib/serializer.go:285-306 | The header is byte 0, then `uint32(schemaId)` big-endian, then the varint of the path length and of each element in order. It is never longer than the `5+(1+n)*10` bytes allocated. |
| Header.WriteHeaderStart | examples/protobuf/lib/serializer.go:288-298 | The first bytes of the buffer become the version byte 0, `uint32(schemaId)` big-endian and the varint of the path length, 5 to 15 bytes in all. |
| Header.EncodePayloadHeaderBuffer | examples/protobuf/lib/serializer.go:285-306 | The returned slice is a prefix of a fresh buffer whose length is the whole allocation. |
| Header.HeaderPrefix | examples/protobuf/lib/serializer.go:291-294 | Byte 0 of every header is 0, and bytes 1..4 read back as `uint32(schemaId)`. |
| Header.ReadIndexes | examples/protobuf/lib/deserializer.go:194-203 | The loop's reading stays within the input, reads at most `count` values, and says whether all were read. |
| Header.DecodeHeader | examples/protobuf/lib/deserializer.go:171-205 | The loop-based decoder returns exactly `ParseHeader` of its input, including the error and panic cases. It panics on an empty input, on a version byte 0 followed by fewer than four bytes, and on a decoded length that is negative or above `make`'s limit for `[]int`. |
| Header.FillMessageIndexes | examples/protobuf/lib/deserializer.go:192-204 | The element loop fills a zeroed array of `arrayLen` entries and stops at the first unreadable varint with `ErrUnableToDecodeValueInMessageIndexArray`. |
| Header.HeaderRoundTrip | examples/protobuf/lib/deserializer.go:171-205 | Decoding an encoded header, followed by any payload, gives the header's length, `uint32(schemaId)` and the same path (the empty path too), without error. |
| Header.TruncatedHeaderFails | examples/protobuf/lib/deserializer.go:174-200 | No strict prefix of a header decodes cleanly: it panics or returns one of the decoding errors. |
| Serializer.ConstructSubjectInjective | examples/protobuf/lib/serializer.go:75-80 | Subjects are `topic-key` for keys and `topic-value` otherwise. Two subjects are equal iff the topics are equal and both or neither are keys. |
| Serializer.Marshal | examples/protobuf/lib/serializer.go:117-131 | On success the record is the header verbatim followed by the payload. An encoding error is passed on unchanged. |
| Serializer.LookupStore | examples/protobuf/lib/serializer.go:227-252 | A stored header is found under its own (id, full name), and every other key is unchanged. |
| Serializer.HeaderCache.Get | examples/protobuf/lib/serializer.go:227-238 | Found iff a header is stored for (id, full name), in which case it is that header; otherwise `(nil, false)`. |
| Serializer.HeaderCache.Put | examples/protobuf/lib/serializer.go:240-252 | The cache afterwards is the old one with that single entry stored. |
| Serializer.GeneratedHeaderForOwnSchema | examples/protobuf/lib/serializer.go:205-225 | A message from the file the registry holds under the id always gets a header, which decodes to its own path. |
| Serializer.ProtobufSerializer.GenerateHeader | examples/protobuf/lib/serializer.go:205-225 | A cache hit returns the cached header without asking the resolver. A miss builds the header, and caches it only when lookup and resolution succeed. Every cached header stays one that resolves. |
| Serializer.ProtobufSerializer.Serialize | examples/protobuf/lib/serializer.go:155-203 | Nil gives nil. A non-Protobuf value and a missing resolver are errors. A schema lookup error is returned with the message untouched. Otherwise `initialize` runs, then the header is generated and the message marshalled behind it. A cached header is used without a schema lookup. A generated header is stored in the cache only when it was built, and every other outcome leaves the cache and the lookup count as they were. |
| Serializer.SerializeTwice | examples/protobuf/lib/serializer.go:205-225 | When the first of two serializations of the same message for a topic succeeds, the second uses the same header, and the schema file is looked up at most once. |
| Serializer.HeaderForParses | examples/protobuf/lib/serializer.go:205-225 | Any header the serializer can produce decodes cleanly, ends where the payload starts, and has a path that resolves. |
| Deserializer.FirstNamed | examples/protobuf/lib/deserializer.go:82-88 | The position of the first registered type with the name, with no earlier match; the end position when none matches. |
| Deserializer.SchemaRegistryProtobufResolver.ResolveProtobuf | examples/protobuf/lib/deserializer.go:66-94 | The callback loop keeps the first type whose name matches the resolved message and stops there. It returns `ErrMissingMessageTypeInSchema` when none matches, and passes lookup and resolution errors on. |
| Deserializer.ProtobufDeserializer.Deserialize | examples/protobuf/lib/deserializer.go:147-168 | Nil is `ErrNothingToDeserialize`. Otherwise the header is read (its error dropped), the type resolved, and the bytes after the header unmarshalled. |
| Deserializer.SerializedRecordDeserializes | examples/protobuf/lib/deserializer.go:147-168 | A record behind any header the serializer can hold deserializes, from exactly the payload, into the first registered type named like the message that the header's path addresses in the writer's file. |
| Deserializer.GeneratedRecordDeserializes | examples/protobuf/lib/deserializer.go:147-168 | A record whose header was generated for a message, under the id of that message's own file and read against the same file, deserializes from exactly the payload into the first registered type named like that message. |
| Aliasing.Append | examples/protobuf/lib/serializer.go:128 | Go `append`: the result holds the old slice followed by the tail. It writes into the same buffer when the tail fits in the capacity, and into a fresh one otherwise. |
| Aliasing.SecondRecordOverwritesFirst | examples/protobuf/lib/serializer.go:127-129 | As written, a second `Marshal` for the same message type changes the bytes of the record the first call returned. |
| Aliasing.MarshalIntoFreshBuffer | examples/protobuf/lib/serializer.go:121-125 | Corrected `Marshal`: a fresh buffer holding the header then the payload, with the cached header only read. |
| Aliasing.SecondRecordKeepsFirst | examples/protobuf/lib/serializer.go:117-131 | With fresh buffers, the first record is unchanged by the second. |
| Registry.SchemaTypeStringOmitsOnlyAvro | schemaRegistryClient.go:89-97 | The `schemaType` field is empty, and so omitted, exactly for Avro (or an empty type name). Distinct non-Avro types are spelled differently. |
| Registry.Normalized | schemaRegistryClient.go:464-469 | The normalised text has no line feed and is never longer than the input. |
| Registry.NormalizedIdentity | mockSchemaRegistryClient.go:68-75 | A text without line feeds is left unchanged. |
| Registry.NormalizedIdempotent | mockSchemaRegistryClient.go:68-75 | Normalising twice is normalising once. |
| Registry.NormalizedSchema | schemaRegistryClient.go:464-476 | An error (`InvalidSchemaType`) iff the type is none of Avro, JSON and Protobuf. Protobuf text is sent verbatim; Avro and JSON text is normalised. |
| Registry.ItoaRoundTrip | schemaRegistryClient.go:455-457 | The decimal string of a version reads back as the same integer. |
| Registry.CacheKeyInjective | schemaRegistryClient.go:890-892 | Two subject/version keys are equal only for the same subject and version, even when subjects contain dashes. |
| Registry.LatestKeyIsNotAVersionKey | schemaRegistryClient.go:319-321 | The `latest` key of a subject never collides with a numbered version's key. |
| Mock.MaxOf | mockSchemaRegistryClient.go:282-289 | The largest version of a non-empty set of versions. |
| Mock.NextVersion | mockSchemaRegistryClient.go:282-292 | The next version is above every existing one, and 1 for a subject without versions. |
| Mock.RegisterConsistent | mockSchemaRegistryClient.go:297-307 | Registering a normalised schema under its own version and an id not above the counter keeps every stored schema under its version and id. |
| Mock.SortInts | mockSchemaRegistryClient.go:323 | An ascending permutation of its input. |
| Mock.MockSchemaRegistryClient.constructor | mockSchemaRegistryClient.go:41-49 | Empty maps, counter 0, and the URL kept. |
| Mock.MockSchemaRegistryClient.CreateSchema | mockSchemaRegistryClient.go:55-58 | The counter goes up by one and the schema is registered under the new counter, which no schema used before, at the next version. |
| Mock.MockSchemaRegistryClient.SetSchema | mockSchemaRegistryClient.go:63-95 | The counter is raised to `id`, never lowered, even when the call fails. An unknown type is `errInvalidSchemaType`, and a normalised text already under the subject is a POST `errSchemaAlreadyRegistered`; both leave the maps unchanged. Otherwise the schema is registered. |
| Mock.MockSchemaRegistryClient.GenerateVersion | mockSchemaRegistryClient.go:278-310 | Version -1 takes the next version and keeps the others. An explicit version replaces the subject's versions with just that one. The new schema is stored under its version and its id. |
| Mock.MockSchemaRegistryClient.AllVersions | mockSchemaRegistryClient.go:313-326 | The subject's versions, ascending, each once. There are none for an unknown subject. |
| Mock.MockSchemaRegistryClient.GetSchemaVersions | mockSchemaRegistryClient.go:129-132 | The same ascending version list. |
| Mock.MockSchemaRegistryClient.GetSchema | mockSchemaRegistryClient.go:98-110 | The schema under the id, or a GET `errSchemaNotFound` on `/schemas/ids/<id>`. |
| Mock.MockSchemaRegistryClient.GetSchemaByVersion | mockSchemaRegistryClient.go:135-162 | The schema at that version. An unknown subject is `errSubjectNotFound`, and an unknown version `errSchemaNotFound`. Both are GET errors on the version URL. |
| Mock.MockSchemaRegistryClient.GetLatestSchema | mockSchemaRegistryClient.go:113-126 | The schema at the largest version, or `errSchemaNotFound` when there are no versions. |
| Mock.MockSchemaRegistryClient.GetSubjects | mockSchemaRegistryClient.go:165-173 | Every subject exactly once. |
| Mock.MockSchemaRegistryClient.DeleteSubject | mockSchemaRegistryClient.go:181-184 | The subject is forgotten, and the id map and counter are untouched. |
| Mock.MockSchemaRegistryClient.DeleteSubjectByVersion | mockSchemaRegistryClient.go:187-211 | Removes just that version. An unknown subject is a DELETE `errSubjectNotFound`, and an unknown version a GET `errSchemaNotFound`; both leave the map unchanged. |
| Mock.LastIsMax | mockSchemaRegistryClient.go:120-125 | The last of the ascending versions is the largest one. |
| Mock.SuccessiveCreates | mockSchemaRegistryClient.go:55-58 | Three creates on a new mock get ids 1, 2, 3 and versions 1, 2, 3. |
| Client.Authorize | schemaRegistryClient.go:758-768 | Basic credentials iff a username and password are both set. Otherwise a non-empty token goes in the header with scheme `Basic` when the target names `confluent.cloud` (any case), and `Bearer` when it does not. |
| Client.CloudHostGetsBasicScheme | schemaRegistryClient.go:762-764 | Corrected rule: a registry URL on the Confluent Cloud domain gets the `Basic` scheme on every path. |
| Client.CloudTokenSentAsBearer | schemaRegistryClient.go:762-766 | As written, the rule looks at the path, so a Confluent Cloud token is sent as `Bearer`; the corrected rule sends `Basic`. |
| Client.StatusOutcome | schemaRegistryClient.go:787-789 | Success iff the status is in 200..299, with the body passed on. A network failure and any other status are errors. |
| Client.SchemaById | schemaRegistryClient.go:285-306 | A decoded reply becomes a schema carrying the id that was asked for. |
| Client.SchemaOfReply | schemaRegistryClient.go:712-728 | A decoded reply becomes a schema with the registry's id, version and text. |
| Client.Server.Do | schemaRegistryClient.go:779-782 | The request is recorded and answered. |
| Client.SchemaRegistryClient.constructor | schemaRegistryClient.go:222-237 | Caching on, no credentials, empty caches. |
| Client.SchemaRegistryClient.HttpRequest | schemaRegistryClient.go:751-792 | Exactly one request, with the content type and the authorization that the corrected rule (`Client.Authorize` on the full URL) gives, and its status checked. |
| Client.SchemaRegistryClient.ResetCache | schemaRegistryClient.go:260-267 | Both caches are empty, and nothing else changes. |
| Client.SchemaRegistryClient.CachingEnabled | schemaRegistryClient.go:672-676 | Sets the flag only. |
| Client.SchemaRegistryClient.SetCredentials | schemaRegistryClient.go:645-650 | Takes effect only when both parts are non-empty. |
| Client.SchemaRegistryClient.SetBearerToken | schemaRegistryClient.go:655-660 | A non-empty token replaces any credentials. An empty one changes nothing. |
| Client.SchemaRegistryClient.GetSchema | schemaRegistryClient.go:270-315 | With caching on, a hit answers without a request. A miss sends one GET and caches a success under the id. With caching off, the cache is neither read nor written. A result always carries the id asked for. |
| Client.SchemaRegistryClient.GetVersion | schemaRegistryClient.go:695-749 | A hit on `cacheKey(subject, version)` answers without a request. A miss sends one GET and caches a success under the key and under the schema's id. |
| Client.SchemaRegistryClient.GetLatestSchema | schemaRegistryClient.go:319-321 | `getVersion` with the token `latest`. |
| Client.SchemaRegistryClient.GetSchemaByVersion | schemaRegistryClient.go:455-457 | `getVersion` with the decimal version. |
| Client.SchemaRegistryClient.CreateSchema | schemaRegistryClient.go:462-517 | An unknown type fails before any request and changes nothing. Otherwise it POSTs the normalised text with the type's spelling, and a failed or undecodable POST is returned with the caches unchanged. On success it re-reads the schema by the answered id, through the id cache when caching is on, so the requests are the POST and at most one GET. The result is that re-read schema, with the POST's id. With caching on, a successful result is stored under its version key and its id, and nothing else in the caches changes. |
| Client.SchemaRegistryClient.LookupSchema | schemaRegistryClient.go:520-585 | An unknown type fails before any request. Otherwise it sends one POST of the normalised text to the subject and caches the answer under its version key and its id. |
| Client.RepeatedVersionLookup | schemaRegistryClient_test.go:418-464 | Two identical version lookups send one request when the first succeeds. |

## Left out

- HTTP transport, JSON encoding and decoding, `url.PathEscape`, the weighted semaphore, timeouts, `preReqFn` and `createError`'s body parsing (schemaRegistryClient.go:751-792, 905-914). The transport is a `Server` whose replies come from a function, a body that does not decode is `None`, and any status error is `RegistryStatus`.
- All mutexes and locks (the cache locks, `HeaderCache.mu`, `cachingEnabledLock`): the model is single-threaded.
- The Avro codec and the JSON-schema validator (`getCodecForSchema`, `Schema.Codec`, `Schema.JsonSchema`, and the codec in `generateVersion`): these are foreign libraries, so `Schema` carries no codec.
- The Protobuf runtime: `proto.Marshal`/`Unmarshal`, the `VTMarshal`/`VTUnmarshal` fast paths and `protoreflect` internals. Payload encoding and decoding are function parameters, and descriptors are plain datatypes.
- examples/protobuf/lib/schemaregistryclient.go (the `protoparse` wrapper and its cache) and examples/protobuf/cmd/producer/main.go (Kafka I/O) are not part of this model. The schema file is what the resolver function returns.
- schema.go, option.go, interfaceSchemaRegistryClient.go and the benchmark files are not part of this model. Where they disagree with schemaRegistryClient.go, the latter is followed.
- The remaining HTTP calls (compatibility levels, subject listing, deletion, `IsSchemaCompatible`, `GetSubjectVersionsById`) and the mock's not-implemented stubs (mockSchemaRegistryClient.go:175-178, 213-266) are outside the modelled core.
- Go's `nil` versus empty slices and maps are not told apart. Examples are `GetSubjects` on an empty mock and nil references becoming an empty list.
- Client.ToLower: only ASCII letters are lowered, where `strings.ToLower` folds all of Unicode.
- Mock.MockSchemaRegistryClient.SetSchema, Mock.MockSchemaRegistryClient.CreateSchema: the `int` counter and `version + 1` are unbounded, so 64-bit wrap-around is not modelled.
- Mock.MockSchemaRegistryClient.GetSubjects: Go's map order is unspecified, so only the multiset of subjects is stated.
- Header.PutVarint: Go panics when the slice is too short. Here room is required, which `encodePayloadHeader` always leaves.
- Header.EncodePayloadHeader: path elements must fit in `int64` and the path length in `int`, which Go's `int` on 64-bit platforms guarantees.
- Client.SchemaRegistryClient.HttpRequest: the `Authorization` header follows the corrected rule, which looks for `confluent.cloud` in the full URL. The code at schemaRegistryClient.go:762 looks in the request path, so Go sends a Confluent Cloud token as `Bearer`. That as-written rule is `Client.AuthorizationAsWritten`, and `Client.CloudTokenSentAsBearer` shows the difference.
- Header.DecodeHeader: a decoded length within `MaxIntSliceLen` that the machine still cannot allocate ends a Go program with a fatal out-of-memory error. The model returns the zero-filled result there instead.
- Serializer.Marshal: the serializer's records use the corrected value semantics, in which each record is the header followed by the payload and shares nothing. In the code as written at serializer.go:127-129, the records share the cached header's buffer. That sharing is modelled separately, in `Aliasing`.

## Findings

| source | as written | input that shows it | evidently intended | confidence | as-written member | corrected member |
|---|---|---|---|---|---|---|
| examples/protobuf/lib/serializer.go:127-129 | `append(header, bytes...)` onto the cached header slice, which has spare capacity (`buf[0:length]` of a `5+(1+n)*10`-byte buffer), so the payload is written into the cache's buffer and every record of one message type shares it | schema id 1, path `[0]`: header of 7 bytes, capacity 25; serializing payload `[8,1]` and then `[8,2]` turns the first returned record into `... 8,2` | a record of its own, as the `VTMarshal` branch makes (header copied into a fresh buffer) | high; not executed | Aliasing.SecondRecordOverwritesFirst | Aliasing.MarshalIntoFreshBuffer |
| schemaRegistryClient.go:762 | the `confluent.cloud` test is applied to `uri`, the request path, which never contains the registry's host | bearer token `key`, registry `https://psrc-1.confluent.cloud`, request `/schemas/ids/1`: the header is `Bearer key` | the test applied to the full `url` built at line 753, giving `Basic key` for Confluent Cloud | medium; not executed | Client.CloudTokenSentAsBearer | Client.CloudHostGetsBasicScheme |
