/** The descriptors the `FromSqlRow` derive builds from a struct's `#[row(...)]`
    attributes before validating them: the container's attributes and one
    `Property` per field, in declaration order. */
module Descriptor {
  import opened Wrappers

  /** A compiler source position, used only to place a diagnostic. The validator
      never inspects a span; it only copies spans into errors (and joins two). */
  datatype Span = Span(lo: nat, hi: nat)

  /** The compiler's `Span::join`: the span covering both, when the compiler can
      form one. It is foreign to this model, so every operation that joins spans
      takes it as a parameter and assumes nothing about it. */
  type SpanJoin = (Span, Span) -> Option<Span>

  /** `#[row(split)]` or `#[row(exact)]` on the container. */
  datatype PartitionKind = Split | Exact

  /** `#[row(group)]` or `#[row(hash)]` on the container. */
  datatype MergeKind = Group | Hash

  /** The container's merge attribute: its kind and where it was written. */
  datatype MergeAttr = MergeAttr(kind: MergeKind, span: Span)

  datatype ContainerAttributes = ContainerAttributes(
    partition: Option<PartitionKind>,
    merge: Option<MergeAttr>)

  /** A field's attributes; each present attribute is known by its span.
      A field may carry several `split` attributes, the others at most once. */
  datatype PropertyAttrs = PropertyAttrs(
    splits: seq<Span>,
    stride: Option<Span>,
    key: Option<Span>,
    merge: Option<Span>)

  /** One field of the container; `span` is the field's own position. */
  datatype Property = Property(span: Span, attrs: PropertyAttrs)

  predicate HasSplit(p: Property) { p.attrs.splits != [] }

  predicate HasStride(p: Property) { p.attrs.stride.Some? }

  predicate HasKey(p: Property) { p.attrs.key.Some? }

  predicate HasMerge(p: Property) { p.attrs.merge.Some? }

  predicate HasKeyAndMerge(p: Property) { HasKey(p) && HasMerge(p) }

  /** Which rule a rejected descriptor broke; one kind per diagnostic of the validator. */
  datatype ErrorKind =
    | SplitNotAllowed   // `split` in a container without `#[row(split)]`
    | StrideNotAllowed  // `stride` in a container without `#[row(exact)]`
    | NeedKey           // merging container with no `key` field
    | NeedMerge         // merging container with no `merge` field
    | KeyNotAllowed     // `key` in a container without `#[row(group)]`/`#[row(hash)]`
    | MergeNotAllowed   // `merge` in a container without `#[row(group)]`/`#[row(hash)]`
    | KeyAndMerge       // one field is both `key` and `merge`

  /** A diagnostic: the rule broken and the span it is reported at. */
  datatype Error = Error(kind: ErrorKind, span: Span)
}
