/** The Protobuf serializer (examples/protobuf/lib/serializer.go): the topic-name subject
    strategy, the header cache keyed by schema id and message full name, header generation
    and `Serialize`, which prefixes the Protobuf payload with the wire header. */
module Serializer {
  import opened Common
  import opened Binary
  import opened Descriptors
  import opened Header

  // ---------------------------------------------------------------- subject names

  /** `SerializationType`: a Go `int`, of which `KeySerialization` is 0. */
  const KeySerialization: int := 0
  const ValueSerialization: int := 1

  /** `TopicNameSchemaResolver.constructSubject`: the subject under which the schema of a key or
      of a value of `topic` is registered. */
  function ConstructSubject(topic: string, serializationType: int): (subject: string)
  {
    if serializationType == KeySerialization then topic + "-key" else topic + "-value"
  }

  /** Two topics, or the key and the value of one topic, never share a subject: the subject gives
      back the topic and whether it is for keys. Every type other than `KeySerialization` gives
      the value subject. */
  lemma ConstructSubjectInjective(topic1: string, type1: int, topic2: string, type2: int)
    ensures ConstructSubject(topic1, type1) == ConstructSubject(topic2, type2)
        <==> topic1 == topic2 && (type1 == KeySerialization <==> type2 == KeySerialization)
  {
    var s1, s2 := ConstructSubject(topic1, type1), ConstructSubject(topic2, type2);
    if s1 == s2 {
      assert s1[|s1| - 1] == (if type1 == KeySerialization then 'y' else 'e');
      assert s2[|s2| - 1] == (if type2 == KeySerialization then 'y' else 'e');
      assert topic1 == s1[..|topic1|];
      assert topic2 == s2[..|topic2|];
    }
  }

  // ---------------------------------------------------------------- messages and collaborators

  /** A generated Protobuf message: its descriptor, and the field values that `proto.Marshal`
      encodes and the `initialize` hook may change. */
  class ProtoMessage {
    const descriptor: MessageDescriptor
    var fields: seq<int>

    constructor (descriptor: MessageDescriptor, fields: seq<int>)
      ensures this.descriptor == descriptor && this.fields == fields
    {
      this.descriptor := descriptor;
      this.fields := fields;
    }
  }

  /** The value a message holds at one moment, as the payload encoder sees it. */
  datatype MessageValue = MessageValue(descriptor: MessageDescriptor, fields: seq<int>)

  /** The `interface{}` handed to `Serialize`: nil, a value that is not a Protobuf message, or one. */
  datatype Thing = NilThing | NotProto | Proto(msg: ProtoMessage)

  /** A `SchemaResolver`: `ResolveSchema(topic)` gives the id of the schema to write with, and
      `ResolveProtoSchema(id)` the parsed schema file registered under an id. */
  datatype SchemaResolver = SchemaResolver(
    resolveSchema: string -> Outcome<int>,
    resolveProtoSchema: int -> Outcome<FileDecl>)

  /** The `SerializationFunc` in use: the package's `Marshal` over the given `proto.Marshal`, or
      one supplied to `NewProtobufSerializer`. */
  datatype Marshaller =
    | DefaultMarshal(protoMarshal: MessageValue -> Outcome<seq<Byte>>)
    | CustomMarshal(serialize: (seq<Byte>, MessageValue) -> Outcome<seq<Byte>>)

  /** `Marshal` on the `proto.Marshal` path: the header bytes verbatim, then the payload. An
      encoding error is returned as is. */
  function Marshal(header: seq<Byte>, msg: MessageValue, protoMarshal: MessageValue -> Outcome<seq<Byte>>): (r: Outcome<seq<Byte>>)
    ensures protoMarshal(msg).Ok? <==> r.Ok?
    ensures r.Ok? ==> (|r.value| == |header| + |protoMarshal(msg).value|
                       && r.value[..|header|] == header && r.value[|header|..] == protoMarshal(msg).value)
    ensures protoMarshal(msg).Err? ==> r == Err(protoMarshal(msg).error)
  {
    match protoMarshal(msg)
    case Ok(payload) => Ok(header + payload)
    case Err(e) => Err(e)
    case Panic => Panic
  }

  function MarshalWith(marshal: Marshaller, header: seq<Byte>, msg: MessageValue): Outcome<seq<Byte>>
  {
    match marshal
    case DefaultMarshal(protoMarshal) => Marshal(header, msg, protoMarshal)
    case CustomMarshal(serialize) => serialize(header, msg)
  }

  // ---------------------------------------------------------------- the header cache

  type HeaderMap = map<int, map<string, seq<Byte>>>

  /** The header cached for (`schemaId`, `name`), if any. */
  function Lookup(m: HeaderMap, schemaId: int, name: string): Option<seq<Byte>>
  {
    if schemaId in m && name in m[schemaId] then Some(m[schemaId][name]) else None
  }

  /** The cache after storing `header` for (`schemaId`, `name`), creating the inner map on demand. */
  function Store(m: HeaderMap, schemaId: int, name: string, header: seq<Byte>): HeaderMap
  {
    m[schemaId := (if schemaId in m then m[schemaId] else map[])[name := header]]
  }

  /** A stored header is found again under its own key, and storing changes no other key. */
  lemma LookupStore(m: HeaderMap, schemaId: int, name: string, header: seq<Byte>, id2: int, name2: string)
    ensures Lookup(Store(m, schemaId, name, header), id2, name2)
         == if id2 == schemaId && name2 == name then Some(header) else Lookup(m, id2, name2)
  {
  }

  /** `HeaderCache`: headers by schema id, then by message full name. Go creates the nested maps
      lazily; a nil map reads as an empty one, so the model starts from the empty map. */
  class HeaderCache {
    var m: HeaderMap

    constructor ()
      ensures m == map[]
    {
      m := map[];
    }

    /** `Get`: the header stored for the schema id and the message's full name; `(nil, false)`
        when there is none. */
    method Get(schemaId: int, msg: ProtoMessage) returns (header: seq<Byte>, ok: bool)
      ensures ok <==> Lookup(m, schemaId, FullName(msg.descriptor)).Some?
      ensures header == if ok then Lookup(m, schemaId, FullName(msg.descriptor)).value else []
    {
      if schemaId !in m {
        return [], false;
      }
      var name := FullName(msg.descriptor);
      ok := name in m[schemaId];
      header := if ok then m[schemaId][name] else [];
    }

    /** `Put`: stores `header` for the schema id and the message's full name. */
    method Put(schemaId: int, msg: ProtoMessage, header: seq<Byte>)
      modifies this
      ensures m == Store(old(m), schemaId, FullName(msg.descriptor), header)
    {
      var inner := if schemaId in m then m[schemaId] else map[];
      m := m[schemaId := inner[FullName(msg.descriptor) := header]];
    }
  }

  // ---------------------------------------------------------------- header generation

  /** The header `generateHeader` builds on a cache miss: the schema file is fetched, the
      message's index path must resolve in it, and the header carries that path. */
  function GeneratedHeader(resolver: SchemaResolver, schemaId: int, d: MessageDescriptor): Outcome<seq<Byte>>
  {
    var path := ComputeMessageIndexes(d);
    match resolver.resolveProtoSchema(schemaId)
    case Err(e) => Err(e)
    case Panic => Panic
    case Ok(file) =>
      match ResolveDescriptorByIndexes(path, FileNode(file))
      case Err(e) => Err(e)
      case Panic => Panic
      case Ok(_) => Ok(HeaderBytes(schemaId, path))
  }

  /** A message generated from the very file the registry holds under `schemaId` always gets a
      header, and that header decodes, after any payload, to the message's own index path. */
  lemma GeneratedHeaderForOwnSchema(resolver: SchemaResolver, schemaId: int, d: MessageDescriptor, payload: seq<Byte>)
    requires WellFormed(d) && Depth(d) <= MaxIntSliceLen
    requires resolver.resolveProtoSchema(schemaId) == Ok(RootFile(d))
    ensures GeneratedHeader(resolver, schemaId, d).Ok?
    ensures ParseHeader(GeneratedHeader(resolver, schemaId, d).value + payload)
         == Returned(|GeneratedHeader(resolver, schemaId, d).value|, schemaId % TwoTo32, ComputeMessageIndexes(d), None)
  {
    ComputedPathResolves(d);
    HeaderRoundTrip(schemaId, ComputeMessageIndexes(d), payload);
  }

  /** What the cache may hold for `schemaId`: the header of an index path that resolves in the
      file the resolver gives for that id. */
  ghost predicate HeaderFor(resolver: SchemaResolver, schemaId: int, header: seq<Byte>)
  {
    resolver.resolveProtoSchema(schemaId).Ok?
    && exists path: seq<Index> ::
         |path| <= MaxIntSliceLen && header == HeaderBytes(schemaId, path)
         && ResolveDescriptorByIndexes(path, FileNode(resolver.resolveProtoSchema(schemaId).value)).Ok?
  }

  /** `Serialize`'s result once the header step has produced `header`: marshalling errors are
      returned as they are, and a success is the marshalled record. */
  function SerializedRecord(header: Outcome<seq<Byte>>, marshal: Marshaller, msg: MessageValue): Outcome<Option<seq<Byte>>>
  {
    match header
    case Err(e) => Err(e)
    case Panic => Panic
    case Ok(h) =>
      match MarshalWith(marshal, h, msg)
      case Ok(bytes) => Ok(Some(bytes))
      case Err(e) => Err(e)
      case Panic => Panic
  }

  /** The fields after the optional `initialize` hook has run. */
  function Initialized(initialize: Option<seq<int> -> seq<int>>, fields: seq<int>): seq<int>
  {
    if initialize.Some? then initialize.value(fields) else fields
  }

  /** `ProtobufSerializer`. The header cache belongs to the serializer alone. */
  class ProtobufSerializer {
    const schemaResolver: Option<SchemaResolver>
    const headerCache: HeaderCache
    const marshal: Marshaller
    const initialize: Option<seq<int> -> seq<int>>
    /** How many times the resolver has been asked for a schema file. */
    ghost var protoSchemaLookups: nat

    /** Every cached header is one that `generateHeader` could have built with this resolver. */
    ghost predicate Valid()
      reads this, headerCache
    {
      forall schemaId, name :: Lookup(headerCache.m, schemaId, name).Some? ==>
        schemaResolver.Some? && HeaderFor(schemaResolver.value, schemaId, Lookup(headerCache.m, schemaId, name).value)
    }

    /** `NewProtobufSerializer`: marshals with the first `serializationFunc`, if one is given, and
        with `Marshal` otherwise; starts with an empty header cache. */
    constructor (schemaResolver: Option<SchemaResolver>, initialize: Option<seq<int> -> seq<int>>,
                 protoMarshal: MessageValue -> Outcome<seq<Byte>>,
                 serializationFunc: seq<(seq<Byte>, MessageValue) -> Outcome<seq<Byte>>>)
      ensures Valid() && fresh(headerCache) && headerCache.m == map[]
      ensures this.schemaResolver == schemaResolver && this.initialize == initialize
      ensures marshal == if |serializationFunc| > 0 then CustomMarshal(serializationFunc[0]) else DefaultMarshal(protoMarshal)
    {
      this.schemaResolver := schemaResolver;
      this.initialize := initialize;
      marshal := if |serializationFunc| > 0 then CustomMarshal(serializationFunc[0]) else DefaultMarshal(protoMarshal);
      headerCache := new HeaderCache();
      protoSchemaLookups := 0;
    }

    /** `generateHeader`: a cached header is returned without asking the resolver; otherwise the
        header is built, and cached only when the schema file was found and the message's path
        resolves in it. */
    method GenerateHeader(schemaId: int, msg: ProtoMessage) returns (r: Outcome<seq<Byte>>)
      requires Valid() && schemaResolver.Some?
      requires Depth(msg.descriptor) <= MaxIntSliceLen
      modifies this, headerCache
      ensures Valid()
      ensures var cached := Lookup(old(headerCache.m), schemaId, FullName(msg.descriptor));
        if cached.Some? then
          r == Ok(cached.value) && headerCache.m == old(headerCache.m)
          && protoSchemaLookups == old(protoSchemaLookups)
        else
          r == GeneratedHeader(schemaResolver.value, schemaId, msg.descriptor)
          && headerCache.m == (if r.Ok? then Store(old(headerCache.m), schemaId, FullName(msg.descriptor), r.value)
                               else old(headerCache.m))
          && protoSchemaLookups == old(protoSchemaLookups) + 1
      ensures r.Ok? ==> HeaderFor(schemaResolver.value, schemaId, r.value)
    {
      var header, ok := headerCache.Get(schemaId, msg);
      if ok {
        return Ok(header);
      }
      var msgIndexes := ComputeMessageIndexes(msg.descriptor);
      var resolver := schemaResolver.value;
      var fileDescriptor := resolver.resolveProtoSchema(schemaId);
      protoSchemaLookups := protoSchemaLookups + 1;
      if !fileDescriptor.Ok? {
        return if fileDescriptor.Err? then Err(fileDescriptor.error) else Panic;
      }
      var resolved := ResolveDescriptorByIndexes(msgIndexes, FileNode(fileDescriptor.value));
      if !resolved.Ok? {
        return if resolved.Err? then Err(resolved.error) else Panic;
      }
      var buf := EncodePayloadHeader(schemaId, msgIndexes);
      ghost var before := headerCache.m;
      headerCache.Put(schemaId, msg, buf);
      forall id, name | Lookup(headerCache.m, id, name).Some?
        ensures HeaderFor(resolver, id, Lookup(headerCache.m, id, name).value)
      {
        LookupStore(before, schemaId, FullName(msg.descriptor), buf, id, name);
      }
      return Ok(buf);
    }

    /** `Serialize`: nil serializes to nil; anything but a Protobuf message, or a missing resolver,
        is an error; a failed schema lookup is returned before the message is touched; otherwise
        the `initialize` hook runs first, then the header is generated and the message marshalled
        behind it. */
    method Serialize(topic: string, thing: Thing) returns (r: Outcome<Option<seq<Byte>>>, ghost header: seq<Byte>)
      requires Valid()
      requires thing.Proto? ==> Depth(thing.msg.descriptor) <= MaxIntSliceLen
      modifies this, headerCache, if thing.Proto? then {thing.msg} else {}
      ensures Valid()
      ensures thing.NilThing? ==> r == Ok(None)
      ensures thing.NotProto? ==> r == Err(NonProtobufSerializationTarget)
      ensures thing.Proto? && schemaResolver.None? ==> r == Err(SchemaResolverUndefined)
      ensures thing.Proto? && schemaResolver.Some? ==>
        var msg := thing.msg;
        match schemaResolver.value.resolveSchema(topic)
        case Err(e) => r == Err(e) && msg.fields == old(msg.fields)
        case Panic => r == Panic
        case Ok(schemaId) =>
          msg.fields == Initialized(initialize, old(msg.fields))
          && var cached := Lookup(old(headerCache.m), schemaId, FullName(msg.descriptor));
             var generated := if cached.Some? then Ok(cached.value)
                              else GeneratedHeader(schemaResolver.value, schemaId, msg.descriptor);
             r == SerializedRecord(generated, marshal, MessageValue(msg.descriptor, msg.fields))
             && (generated.Ok? ==> header == generated.value && HeaderFor(schemaResolver.value, schemaId, header))
             && headerCache.m == (if cached.None? && generated.Ok?
                                  then Store(old(headerCache.m), schemaId, FullName(msg.descriptor), generated.value)
                                  else old(headerCache.m))
             && protoSchemaLookups == old(protoSchemaLookups) + (if cached.Some? then 0 else 1)
      ensures !(thing.Proto? && schemaResolver.Some? && schemaResolver.value.resolveSchema(topic).Ok?) ==>
        headerCache.m == old(headerCache.m) && protoSchemaLookups == old(protoSchemaLookups)
    {
      header := [];
      if thing.NilThing? {
        return Ok(None), header;
      }
      if thing.NotProto? {
        return Err(NonProtobufSerializationTarget), header;
      }
      var msg := thing.msg;
      if schemaResolver.None? {
        return Err(SchemaResolverUndefined), header;
      }
      var schema := schemaResolver.value.resolveSchema(topic);
      if !schema.Ok? {
        return if schema.Err? then Err(schema.error) else Panic, header;
      }
      if initialize.Some? {
        msg.fields := initialize.value(msg.fields);
      }
      var generated := GenerateHeader(schema.value, msg);
      if !generated.Ok? {
        return if generated.Err? then Err(generated.error) else Panic, header;
      }
      var h := generated.value;
      header := h;
      var bytes := MarshalWith(marshal, h, MessageValue(msg.descriptor, msg.fields));
      if !bytes.Ok? {
        return if bytes.Err? then Err(bytes.error) else Panic, header;
      }
      return Ok(Some(bytes.value)), header;
    }
  }

  /** Two records of one message type for one topic: when the first succeeds, the second is
      written behind the very header the first got, taken from the cache without asking the
      resolver again. */
  method SerializeTwice(serializer: ProtobufSerializer, topic: string, msg: ProtoMessage)
    returns (first: Outcome<Option<seq<Byte>>>, second: Outcome<Option<seq<Byte>>>,
             ghost firstHeader: seq<Byte>, ghost secondHeader: seq<Byte>)
    requires serializer.Valid() && serializer.schemaResolver.Some?
    requires Depth(msg.descriptor) <= MaxIntSliceLen
    modifies serializer, serializer.headerCache, msg
    ensures first.Ok? ==> secondHeader == firstHeader
    ensures first.Ok? ==> serializer.protoSchemaLookups <= old(serializer.protoSchemaLookups) + 1
  {
    first, firstHeader := serializer.Serialize(topic, Proto(msg));
    second, secondHeader := serializer.Serialize(topic, Proto(msg));
  }

  /** What a cached or freshly generated header guarantees the reader: after any payload it
      decodes without error to the schema id as a `uint32`, a path that resolves in the schema
      file, and the payload right behind the header. */
  lemma HeaderForParses(resolver: SchemaResolver, schemaId: int, header: seq<Byte>, payload: seq<Byte>)
    requires HeaderFor(resolver, schemaId, header)
    ensures var d := ParseHeader(header + payload);
      d.Returned? && d.err == None && d.schemaId == schemaId % TwoTo32 && d.totalBytesRead == |header|
      && (header + payload)[d.totalBytesRead..] == payload
      && ResolveDescriptorByIndexes(d.msgIndexes, FileNode(resolver.resolveProtoSchema(schemaId).value)).Ok?
  {
    var path: seq<Index> :| |path| <= MaxIntSliceLen && header == HeaderBytes(schemaId, path)
      && ResolveDescriptorByIndexes(path, FileNode(resolver.resolveProtoSchema(schemaId).value)).Ok?;
    HeaderRoundTrip(schemaId, path, payload);
  }
}
