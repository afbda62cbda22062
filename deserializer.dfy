/** The Protobuf deserializer (examples/protobuf/lib/deserializer.go): the registry-backed
    resolver that finds the generated message type for a header, and `Deserialize`, which reads
    the header and unmarshals the rest of the record. */
module Deserializer {
  import opened Common
  import opened Descriptors
  import opened Header
  import opened Binary
  import Serializer

  /** A generated message type known to the Protobuf runtime, by its short `Name()`. */
  datatype MessageType = MessageType(name: string)

  /** A message instance after unmarshalling: its type and the decoded field values. */
  datatype Hydrated = Hydrated(messageType: MessageType, fields: seq<int>)

  /** The position of the first type called `name`, or `|types|` when there is none. */
  function FirstNamed(types: seq<MessageType>, name: string): (k: nat)
    ensures k <= |types|
    ensures k < |types| ==> types[k].name == name
    ensures forall j :: 0 <= j < k ==> types[j].name != name
  {
    if |types| == 0 then 0
    else if types[0].name == name then 0
    else 1 + FirstNamed(types[1..], name)
  }

  /** What `ResolveProtobuf` returns: the schema file's lookup error, the path's resolution error
      or panic, or else the first registered type whose short name is the resolved declaration's
      name, and `ErrMissingMessageTypeInSchema` when there is none. */
  function ResolvedType(getProtoSchema: int -> Outcome<FileDecl>, types: seq<MessageType>,
                        schemaId: int, msgIndexes: seq<int>): Outcome<MessageType>
  {
    match getProtoSchema(schemaId)
    case Err(e) => Err(e)
    case Panic => Panic
    case Ok(file) =>
      match ResolveDescriptorByIndexes(msgIndexes, FileNode(file))
      case Err(e) => Err(e)
      case Panic => Panic
      case Ok(node) =>
        var k := FirstNamed(types, node.Name());
        if k < |types| then Ok(types[k]) else Err(MissingMessageTypeInSchema)
  }

  /** `SchemaRegistryProtobufResolver`: the registry client's `GetProtoSchema` and the message
      types of the Protobuf registry, in the order its `RangeMessages` visits them. */
  class SchemaRegistryProtobufResolver {
    const getProtoSchema: int -> Outcome<FileDecl>
    const protobufRegistry: seq<MessageType>

    constructor (getProtoSchema: int -> Outcome<FileDecl>, protobufRegistry: seq<MessageType>)
      ensures this.getProtoSchema == getProtoSchema && this.protobufRegistry == protobufRegistry
    {
      this.getProtoSchema := getProtoSchema;
      this.protobufRegistry := protobufRegistry;
    }

    /** `ResolveProtobuf`: the callback given to `RangeMessages` keeps the first type whose name
        matches and stops the walk. */
    method ResolveProtobuf(schemaId: int, msgIndexes: seq<int>) returns (r: Outcome<MessageType>)
      ensures r == ResolvedType(getProtoSchema, protobufRegistry, schemaId, msgIndexes)
    {
      var fileDescriptor := getProtoSchema(schemaId);
      if !fileDescriptor.Ok? {
        return if fileDescriptor.Err? then Err(fileDescriptor.error) else Panic;
      }
      var msg := ResolveDescriptorByIndexes(msgIndexes, FileNode(fileDescriptor.value));
      if !msg.Ok? {
        return if msg.Err? then Err(msg.error) else Panic;
      }
      var name := msg.value.Name();
      var mt: Option<MessageType> := None;
      var i := 0;
      while i < |protobufRegistry|
        invariant 0 <= i <= |protobufRegistry|
        invariant mt.None? ==> forall j :: 0 <= j < i ==> protobufRegistry[j].name != name
        invariant mt.Some? ==> i == |protobufRegistry| && FirstNamed(protobufRegistry, name) < i
                               && mt.value == protobufRegistry[FirstNamed(protobufRegistry, name)]
      {
        if protobufRegistry[i].name == name {
          mt := Some(protobufRegistry[i]);
          FirstNamedIs(protobufRegistry, name, i);
          i := |protobufRegistry|;
        } else {
          i := i + 1;
        }
      }
      if mt.Some? {
        return Ok(mt.value);
      }
      FirstNamedNone(protobufRegistry, name);
      return Err(MissingMessageTypeInSchema);
    }
  }

  lemma {:induction false} FirstNamedIs(types: seq<MessageType>, name: string, i: nat)
    requires i < |types| && types[i].name == name
    requires forall j :: 0 <= j < i ==> types[j].name != name
    ensures FirstNamed(types, name) == i
    decreases i
  {
    if i > 0 {
      FirstNamedIs(types[1..], name, i - 1);
    }
  }

  lemma {:induction false} FirstNamedNone(types: seq<MessageType>, name: string)
    requires forall j :: 0 <= j < |types| ==> types[j].name != name
    ensures FirstNamed(types, name) == |types|
    decreases |types|
  {
    if |types| > 0 {
      FirstNamedNone(types[1..], name);
    }
  }

  /** What `Deserialize` returns for `bytes` (`None` is a nil slice). The header's own error is
      dropped: whatever `decodeHeader` returned is handed to the resolver, and the payload starts
      where the header reading stopped. */
  function Deserialized(resolver: SchemaRegistryProtobufResolver,
                        unmarshal: (seq<Byte>, MessageType) -> Outcome<seq<int>>,
                        bytes: Option<seq<Byte>>): Outcome<Hydrated>
  {
    if bytes.None? then Err(NothingToDeserialize)
    else
      match ParseHeader(bytes.value)
      case Panicked => Panic
      case Returned(bytesRead, schemaId, msgIndexes, _) =>
        match ResolvedType(resolver.getProtoSchema, resolver.protobufRegistry, schemaId, msgIndexes)
        case Err(e) => Err(e)
        case Panic => Panic
        case Ok(pb) =>
          match unmarshal(bytes.value[bytesRead..], pb)
          case Ok(fields) => Ok(Hydrated(pb, fields))
          case Err(e) => Err(e)
          case Panic => Panic
  }

  /** `ProtobufDeserializer`, over the registry-backed resolver. `unmarshal` is the
      `DeserializationFunc` in use, giving the field values it decodes into an empty message. */
  class ProtobufDeserializer {
    const protobufResolver: SchemaRegistryProtobufResolver
    const unmarshal: (seq<Byte>, MessageType) -> Outcome<seq<int>>

    constructor (protobufResolver: SchemaRegistryProtobufResolver,
                 unmarshal: (seq<Byte>, MessageType) -> Outcome<seq<int>>)
      ensures this.protobufResolver == protobufResolver && this.unmarshal == unmarshal
    {
      this.protobufResolver := protobufResolver;
      this.unmarshal := unmarshal;
    }

    /** `Deserialize`. */
    method Deserialize(bytes: Option<seq<Byte>>) returns (r: Outcome<Hydrated>)
      ensures r == Deserialized(protobufResolver, unmarshal, bytes)
    {
      if bytes.None? {
        return Err(NothingToDeserialize);
      }
      var header := DecodeHeader(bytes.value);
      if header.Panicked? {
        return Panic;
      }
      var pb := protobufResolver.ResolveProtobuf(header.schemaId, header.msgIndexes);
      if !pb.Ok? {
        return if pb.Err? then Err(pb.error) else Panic;
      }
      var fields := unmarshal(bytes.value[header.totalBytesRead..], pb.value);
      if !fields.Ok? {
        return if fields.Err? then Err(fields.error) else Panic;
      }
      return Ok(Hydrated(pb.value, fields.value));
    }
  }

  /** The header of such a record names the schema id itself (it fits a `uint32`) and stops
      where the payload starts. */
  lemma RecordHeaderParses(writer: Serializer.SchemaResolver, schemaId: int, header: seq<Byte>,
                           payload: seq<Byte>)
    requires Serializer.HeaderFor(writer, schemaId, header)
    requires 0 <= schemaId < TwoTo32
    ensures var d := ParseHeader(header + payload);
      d.Returned? && d.schemaId == schemaId && (header + payload)[d.totalBytesRead..] == payload
      && ResolveDescriptorByIndexes(d.msgIndexes, FileNode(writer.resolveProtoSchema(schemaId).value)).Ok?
  {
    Uint32Identity(schemaId);
    Serializer.HeaderForParses(writer, schemaId, header, payload);
  }

  /** A record written by the serializer reads back: when the reader's registry gives, for the
      schema id, the same file the writer resolved against, the header is consumed exactly, the
      path resolves, and the outcome is that of unmarshalling the writer's payload into the first
      registered type named like the resolved message. */
  lemma SerializedRecordDeserializes(writer: Serializer.SchemaResolver, schemaId: int, header: seq<Byte>,
                                     payload: seq<Byte>, reader: SchemaRegistryProtobufResolver,
                                     unmarshal: (seq<Byte>, MessageType) -> Outcome<seq<int>>)
    requires Serializer.HeaderFor(writer, schemaId, header)
    requires 0 <= schemaId < TwoTo32
    requires reader.getProtoSchema(schemaId) == writer.resolveProtoSchema(schemaId)
    ensures ParseHeader(header + payload).Returned?
    ensures var file := writer.resolveProtoSchema(schemaId).value;
      var path := ParseHeader(header + payload).msgIndexes;
      ResolveDescriptorByIndexes(path, FileNode(file)).Ok?
      && var k := FirstNamed(reader.protobufRegistry, ResolveDescriptorByIndexes(path, FileNode(file)).value.Name());
         Deserialized(reader, unmarshal, Some(header + payload))
           == if k == |reader.protobufRegistry| then Err(MissingMessageTypeInSchema)
              else match unmarshal(payload, reader.protobufRegistry[k])
                   case Ok(fields) => Ok(Hydrated(reader.protobufRegistry[k], fields))
                   case Err(e) => Err(e)
                   case Panic => Panic
  {
    RecordHeaderParses(writer, schemaId, header, payload);
    var d := ParseHeader(header + payload);
    var file := writer.resolveProtoSchema(schemaId).value;
    assert reader.getProtoSchema(schemaId) == Ok(file);
    var node := ResolveDescriptorByIndexes(d.msgIndexes, FileNode(file)).value;
    var k := FirstNamed(reader.protobufRegistry, node.Name());
    assert ResolvedType(reader.getProtoSchema, reader.protobufRegistry, d.schemaId, d.msgIndexes)
      == if k < |reader.protobufRegistry| then Ok(reader.protobufRegistry[k]) else Err(MissingMessageTypeInSchema);
  }

  /** The record-level round trip: a record whose header the serializer generated for the
      message `d`, written under the id of `d`'s own file and read back against that same file,
      deserializes by unmarshalling exactly the payload into the first registered type named
      like `d`'s message. */
  lemma GeneratedRecordDeserializes(writer: Serializer.SchemaResolver, schemaId: int, d: MessageDescriptor,
                                    payload: seq<Byte>, reader: SchemaRegistryProtobufResolver,
                                    unmarshal: (seq<Byte>, MessageType) -> Outcome<seq<int>>)
    requires WellFormed(d) && Depth(d) <= MaxIntSliceLen
    requires 0 <= schemaId < TwoTo32
    requires writer.resolveProtoSchema(schemaId) == Ok(RootFile(d))
    requires reader.getProtoSchema(schemaId) == Ok(RootFile(d))
    ensures Serializer.GeneratedHeader(writer, schemaId, d).Ok?
    ensures var header := Serializer.GeneratedHeader(writer, schemaId, d).value;
      var k := FirstNamed(reader.protobufRegistry, d.decl.name);
      Deserialized(reader, unmarshal, Some(header + payload))
        == if k == |reader.protobufRegistry| then Err(MissingMessageTypeInSchema)
           else match unmarshal(payload, reader.protobufRegistry[k])
                case Ok(fields) => Ok(Hydrated(reader.protobufRegistry[k], fields))
                case Err(e) => Err(e)
                case Panic => Panic
  {
    Serializer.GeneratedHeaderForOwnSchema(writer, schemaId, d, payload);
    Uint32Identity(schemaId);
    ComputedPathResolves(d);
    var header := Serializer.GeneratedHeader(writer, schemaId, d).value;
    assert (header + payload)[|header|..] == payload;
  }
}
