/** The in-memory description of a tracing provider that every backend of the
    tracepoint generator reads (the Provider, Tracepoint, Argument and Field
    records of provider.h). It is built and validated upstream and is only read
    here. */
module Tracegen {

  /** How a field is encoded on the wire; `Unknown` means that no encoding
      could be deduced for the argument's type. */
  datatype BackendType =
    | Array
    | Sequence
    | Integer
    | IntegerHex
    | Pointer
    | Float
    | String
    | QtString
    | QtByteArray
    | QtUrl
    | QtRect
    | QtSize
    | Unknown

  /** One encoded field of a tracepoint. `arrayLen` is the element count of an
      `Array`; `seqLen` is the expression giving the element count of a
      `Sequence`. */
  datatype Field = Field(
    backendType: BackendType,
    paramType: string,
    name: string,
    arrayLen: int,
    seqLen: string)

  /** One call-site parameter of a tracepoint: its declared type and name. */
  datatype Argument = Argument(typeName: string, name: string)

  /** A tracepoint: its parameters in call order and its fields in the order
      they are declared in the event. */
  datatype Tracepoint = Tracepoint(name: string, args: seq<Argument>, fields: seq<Field>)

  /** A provider: its name, its tracepoints in declaration order and the raw
      prefix lines its author wants in front of the generated declarations. */
  datatype Provider = Provider(name: string, tracepoints: seq<Tracepoint>, prefixText: seq<string>)
}
