/** Types shared by every part of the model: Go's fixed-width integers, bytes,
    the sentinel errors the library defines and the outcome of a Go call that
    returns `(value, error)` or panics. */
module Common {

  /** A Go `byte`. */
  type Byte = x: int | 0 <= x < 256

  const MinInt64: int := -0x8000_0000_0000_0000
  const MaxInt64: int := 0x7fff_ffff_ffff_ffff
  const TwoTo32: int := 0x1_0000_0000
  const TwoTo64: int := 0x1_0000_0000_0000_0000

  /** Go's `int64`, and `int` on the 64-bit platforms the library targets. */
  type Int64 = x: int | MinInt64 <= x <= MaxInt64

  /** A position among sibling declarations (`Descriptor.Index()`): a non-negative Go `int`. */
  type Index = x: int | 0 <= x <= MaxInt64

  datatype Option<+T> = None | Some(value: T)

  /** The errors the library returns. The sentinel values of the Protobuf helpers and of the
      mock registry keep their Go names; `UrlError` is Go's `url.Error{Op, URL, Err}` wrapper. */
  datatype Error =
    | TypeUndefinedInSchemaRegistry
    | UnableToDecodeValueInMessageIndexArray
    | UnableToDecodeMessageIndexArray
    | InvalidProtobufWireProtocolVersion
    | MissingMessageTypeInSchema
    | NothingToDeserialize
    | NonProtobufSerializationTarget
    | SchemaResolverUndefined
    | InvalidSchemaType
    | SchemaAlreadyRegistered
    | SchemaNotFound
    | SubjectNotFound
    | UrlError(op: string, url: string, cause: Error)
    | RegistryStatus(statusCode: int)
    | MalformedResponse
    | NetworkFailure(reason: string)
    | Collaborator(reason: string)

  /** What a Go call does: returns a value, returns an error, or panics at run time. */
  datatype Outcome<+T> = Ok(value: T) | Err(error: Error) | Panic
}
