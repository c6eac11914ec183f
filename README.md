# FromSqlRow attribute validator

This project models `validate_properties` in `postgres_query_macro`. The
`FromSqlRow` derive macro runs it on a struct's `#[row(...)]` attributes before
it generates any decoding code. Its input is a container descriptor and the
ordered list of field descriptors:

- The container may carry `#[row(split)]` or `#[row(exact)]`, which is its
  partition kind.
- The container may carry `#[row(group)]` or `#[row(hash)]`, which is its
  merge attribute.
- Each field may carry any number of `split` attributes.
- Each field may carry at most one each of `stride`, `key` and `merge`.

The validator either accepts the descriptor or rejects it with one diagnostic at
one source span. It runs four checks fail-fast, in this order:

1. `split` is only allowed in a split container.
2. `stride` is only allowed in an exact container.
3. A merging container must have a key field and a merge field. Any other
   container may have neither.
4. No field may be both key and merge.

Files:

- `wrappers.dfy` (module `Wrappers`): `Option`, and `Outcome`, which stands for
  Rust's `Result<()>`. `Outcome` is failure-compatible, so `:- check; rest`
  does what Rust's `check?; rest` does.
- `iter.dfy` (module `Iter`): the Rust iterator combinators the checks use.
  These are `flat_map`, `find_map`, `find`, `any` and `try_for_each`. `Find`
  and `Any` are proved against the reference predicates `IsFirst` and
  `NoneSatisfy`. `FindMap`, `FlatMap`, `FlatMapHead` and `TryForEach` state the
  same "first element that ..." property with the quantifiers written out.
- `descriptor.dfy` (module `Descriptor`): the descriptors, the error kinds, and
  the foreign span join expressed as a function type.
- `validate.dfy` (module `Validate`): the rules as ghost predicates, the four
  checks, `ValidateProperties`, and lemmas. The lemmas say which check wins and
  where its error is placed.

Spans are treated as opaque tokens. Rust's `Span::join` is a call into the
compiler, so every member that needs it takes it as a parameter
`join: (Span, Span) -> Option<Span>`, and nothing is assumed about it.

Together, the lemmas in `Validate` determine the validator's result for every
input:

- `ValidateProperties` is `Ok` exactly when `Valid` holds.
- When it fails, the lemma for the first broken rule gives the exact error kind
  and span.

Split and stride errors are reported at the attribute's own span
(validate.rs:37, :61). The `key`-outside-merging and `merge`-outside-merging
errors are reported at the field's span (validate.rs:94, :103). The key+merge
error is reported at `key.span.join(merge.span).unwrap_or(key.span)`
(validate.rs:115).

## Model

| member | source | states |
|---|---|---|
| `Iter.Find` | postgres_query_macro/src/from_sql_row/validate.rs:90 | the position returned is that of the first element satisfying the predicate; `None` exactly when no element satisfies it |
| `Iter.Any` | postgres_query_macro/src/from_sql_row/validate.rs:73-74 | true exactly when some element satisfies the predicate |
| `Iter.FindMap` | postgres_query_macro/src/from_sql_row/validate.rs:56 | `None` exactly when the mapping yields `None` everywhere; otherwise returns what the mapping yields at the first element where it yields `Some` |
| `Iter.FlatMap` | postgres_query_macro/src/from_sql_row/validate.rs:29-32 | the flattened sequence is empty exactly when every element maps to the empty sequence |
| `Iter.FlatMapHead` | postgres_query_macro/src/from_sql_row/validate.rs:29-32 | `.next()` on the flat map yields the first item produced by the first element that produces any item |
| `Iter.TryForEach` | postgres_query_macro/src/from_sql_row/validate.rs:111-119 | `Ok` exactly when the step succeeds on every element; otherwise returns the step's error at the first element where it fails |
| `Validate.CheckSplit` | postgres_query_macro/src/from_sql_row/validate.rs:17-42 | passes exactly when the container is split or no field has a `split`; any failure is `SplitNotAllowed` |
| `Validate.CheckStride` | postgres_query_macro/src/from_sql_row/validate.rs:44-66 | passes exactly when the container is exact or no field has a `stride`; any failure is `StrideNotAllowed` |
| `Validate.CheckMerging` | postgres_query_macro/src/from_sql_row/validate.rs:68-108 | passes exactly when the merge shape is consistent; a merging container fails only with `NeedKey`/`NeedMerge` at its merge attribute's span; any other container fails only with `KeyNotAllowed`/`MergeNotAllowed` |
| `Validate.CheckFieldNotKeyAndMerge` | postgres_query_macro/src/from_sql_row/validate.rs:113-118 | one field passes exactly when it does not carry both `key` and `merge`; its error is `KeyAndMerge` |
| `Validate.CheckNotKeyAndMerge` | postgres_query_macro/src/from_sql_row/validate.rs:110-120 | passes exactly when no field is both key and merge; any failure is `KeyAndMerge` |
| `Validate.ValidateProperties` | postgres_query_macro/src/from_sql_row/validate.rs:4-15 | accepts exactly the descriptors satisfying all four rules (`Valid`) |
| `Validate.SplitErrorAtFirstSplit` | postgres_query_macro/src/from_sql_row/validate.rs:21-40 | outside a split container, the error is at the first `split` attribute of the first field that has one |
| `Validate.StrideErrorAtFirstStride` | postgres_query_macro/src/from_sql_row/validate.rs:48-65 | outside an exact container, the error is at the `stride` span of the first field that has one |
| `Validate.MergeErrorsAtContainer` | postgres_query_macro/src/from_sql_row/validate.rs:72-88 | in a merging container, no key gives `NeedKey` whether or not a merge field exists; a key with no merge field gives `NeedMerge`; both are at the merge attribute's span |
| `Validate.KeyErrorAtFirstKeyField` | postgres_query_macro/src/from_sql_row/validate.rs:90-97 | without a merge attribute, the first key field gives `KeyNotAllowed` at that field's span, before merge fields are examined |
| `Validate.MergeErrorAtFirstMergeField` | postgres_query_macro/src/from_sql_row/validate.rs:99-106 | without a merge attribute and with no key field, the first merge field gives `MergeNotAllowed` at that field's span |
| `Validate.KeyAndMergeErrorAtFirstSuchField` | postgres_query_macro/src/from_sql_row/validate.rs:110-119 | the error is at the joined key and merge spans of the first field that has both, or at its key span when the join fails |
| `Validate.SplitViolationWins` | postgres_query_macro/src/from_sql_row/validate.rs:8 | a stray `split` is reported first, whatever else is wrong |
| `Validate.StrideViolationNext` | postgres_query_macro/src/from_sql_row/validate.rs:8-9 | with splits in order, a stray `stride` is reported at the first stride, whatever else is wrong |
| `Validate.MissingKeyReported` | postgres_query_macro/src/from_sql_row/validate.rs:72-80 | with splits and strides in order, a merging container without a key field is rejected with `NeedKey` at its merge attribute |
| `Validate.MissingMergeReported` | postgres_query_macro/src/from_sql_row/validate.rs:81-85 | with splits and strides in order, a merging container with a key field but no merge field is rejected with `NeedMerge` at its merge attribute |
| `Validate.KeyOutsideMergingReported` | postgres_query_macro/src/from_sql_row/validate.rs:90-97 | with splits and strides in order, a non-merging container is rejected with `KeyNotAllowed` at its first key field |
| `Validate.MergeOutsideMergingReported` | postgres_query_macro/src/from_sql_row/validate.rs:99-106 | with splits, strides and keys in order, a non-merging container is rejected with `MergeNotAllowed` at its first merge field |
| `Validate.KeyAndMergeReported` | postgres_query_macro/src/from_sql_row/validate.rs:11-12 | once the first three rules hold, the first field that is both key and merge is reported at its joined span |
| `Validate.KeyAndMergeNeverReportedWithoutMerging` | postgres_query_macro/src/from_sql_row/validate.rs:89-97 | without a merge attribute, a key+merge field always causes rejection, but never with `KeyAndMerge`: the error is a split, stride or `KeyNotAllowed` error, and it is `KeyNotAllowed` at the first key field once splits and strides are in order |
| `Validate.MergeKindIrrelevant` | postgres_query_macro/src/from_sql_row/validate.rs:72 | group and hash containers are validated identically |
| `Validate.JoinOnlyPlacesKeyAndMerge` | postgres_query_macro/src/from_sql_row/validate.rs:115 | the span join never changes whether a descriptor is accepted, and it changes no diagnostic other than the key+merge one |

## Left out

- The diagnostic texts given to `err!` and the construction of `syn::Error` are not modelled. A diagnostic is an `ErrorKind` plus a span.
- `Span::join` is a foreign compiler call, so it is a parameter with no properties assumed.
- `Iter.Find`: Rust's `find` returns the element, but the model returns the element's position. The caller reads the element at that position, as `CheckMerging` does.
- The partition attribute's own span, and any attribute values the validator never reads, are not modelled. This includes the stride width.
- The `is_match!` macro and `syn::Result` plumbing are written as plain pattern matches and `Outcome`.
- The front end that parses `#[row(...)]` attributes into descriptors is not part of this model.
- The row partitioner, the per-row decoder and the multi-row merger are not part of this model, because their source is not among the modelled files.
- postgres_query/tests/deadpool.rs is an async integration test. It uses environment variables, a connection pool and a live database, and has nothing to model.
