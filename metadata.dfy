/** The external types the metadata core is written against: the `KotlinMetadata`
    envelope read from a class file's `@kotlin.Metadata` annotation, the name resolver
    the protobuf codec hands back with each decoded record, and the exceptions that
    can leave a read. None of them has behaviour of its own. */
module Metadata {
  import opened Wrappers

  /** Kind codes of the envelope (`KotlinMetadata.*_KIND`). The model relies only on
      their being five distinct values. */
  const CLASS_KIND: int := 1
  const FILE_FACADE_KIND: int := 2
  const SYNTHETIC_CLASS_KIND: int := 3
  const MULTI_FILE_CLASS_FACADE_KIND: int := 4
  const MULTI_FILE_CLASS_PART_KIND: int := 5

  predicate IsKnownKind(kind: int) {
    kind in {CLASS_KIND, FILE_FACADE_KIND, SYNTHETIC_CLASS_KIND, MULTI_FILE_CLASS_FACADE_KIND, MULTI_FILE_CLASS_PART_KIND}
  }

  /** The kind-tagged envelope: immutable once built. */
  datatype KotlinMetadata = KotlinMetadata(
    kind: int,
    metadataVersion: seq<int>,
    bytecodeVersion: seq<int>,
    data1: seq<string>,
    data2: seq<string>,
    extraString: string,
    packageName: string,
    extraInt: int)

  /** Resolves the integer ids used on the wire to strings and qualified class names. */
  datatype NameResolver = NameResolver(getString: int -> string, getQualifiedClassName: int -> string)

  /** What can be thrown out of a read or a write. */
  datatype Throwable =
    | InconsistentKotlinMetadataException(message: string, cause: Option<Throwable>)
    | IllegalStateException(message: string)
    | OtherThrowable(description: string)
}
