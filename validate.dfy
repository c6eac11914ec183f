/** `validate_properties` of the `FromSqlRow` derive: the four checks a container's
    attributes and its fields' attributes must pass, run fail-fast in a fixed order. */
module Validate {
  import opened Wrappers
  import opened Iter
  import opened Descriptor

  // ---------------------------------------------------------------------------
  // The rules, stated independently of how the checks compute them.

  /** Only a `#[row(split)]` container may have `split` fields. */
  ghost predicate SplitsPermitted(c: ContainerAttributes, props: seq<Property>) {
    c.partition == Some(Split) || NoneSatisfy(props, HasSplit)
  }

  /** Only a `#[row(exact)]` container may have `stride` fields. */
  ghost predicate StridesPermitted(c: ContainerAttributes, props: seq<Property>) {
    c.partition == Some(Exact) || NoneSatisfy(props, HasStride)
  }

  /** A merging container has at least one `key` and at least one `merge` field;
      any other container has neither. */
  ghost predicate MergeShapeConsistent(c: ContainerAttributes, props: seq<Property>) {
    if c.merge.Some? then !NoneSatisfy(props, HasKey) && !NoneSatisfy(props, HasMerge)
    else NoneSatisfy(props, HasKey) && NoneSatisfy(props, HasMerge)
  }

  /** No field is both `key` and `merge`. */
  ghost predicate KeyMergeExclusive(props: seq<Property>) {
    NoneSatisfy(props, HasKeyAndMerge)
  }

  /** A descriptor the derive accepts. */
  ghost predicate Valid(c: ContainerAttributes, props: seq<Property>) {
    SplitsPermitted(c, props) && StridesPermitted(c, props)
    && MergeShapeConsistent(c, props) && KeyMergeExclusive(props)
  }

  // ---------------------------------------------------------------------------
  // The checks.

  /** `check_split_in_non_split_container`: outside a split container, the first
      `split` attribute of all fields, taken field by field, is an error. */
  function CheckSplit(c: ContainerAttributes, props: seq<Property>): (r: Outcome<Error>)
    ensures r.Ok? <==> SplitsPermitted(c, props)
    ensures r.Err? ==> r.error.kind == SplitNotAllowed
  {
    if c.partition == Some(Split) then Ok
    else
      var splits := FlatMap(props, (p: Property) => p.attrs.splits);
      if splits == [] then Ok else Err(Error(SplitNotAllowed, splits[0]))
  }

  /** `check_stride_in_non_exact_container`: outside an exact container, the first
      field's `stride` attribute is an error. */
  function CheckStride(c: ContainerAttributes, props: seq<Property>): (r: Outcome<Error>)
    ensures r.Ok? <==> StridesPermitted(c, props)
    ensures r.Err? ==> r.error.kind == StrideNotAllowed
  {
    if c.partition == Some(Exact) then Ok
    else
      match FindMap(props, (p: Property) => p.attrs.stride)
      case None => Ok
      case Some(stride) => Err(Error(StrideNotAllowed, stride))
  }

  /** `check_merging_container_attributes`: a merging container needs a key and a
      merge field (reported at the container's merge attribute); any other container
      may have neither (reported at the first offending field, keys before merges). */
  function CheckMerging(c: ContainerAttributes, props: seq<Property>): (r: Outcome<Error>)
    ensures r.Ok? <==> MergeShapeConsistent(c, props)
    ensures c.merge.Some? && r.Err? ==>
      r.error.span == c.merge.value.span && r.error.kind in {NeedKey, NeedMerge}
    ensures c.merge.None? && r.Err? ==> r.error.kind in {KeyNotAllowed, MergeNotAllowed}
  {
    match c.merge
    case Some(merge) =>
      if !Any(props, HasKey) then Err(Error(NeedKey, merge.span))
      else if !Any(props, HasMerge) then Err(Error(NeedMerge, merge.span))
      else Ok
    case None =>
      match Find(props, HasKey)
      case Some(i) => Err(Error(KeyNotAllowed, props[i].span))
      case None =>
        match Find(props, HasMerge)
        case None => Ok
        case Some(i) => Err(Error(MergeNotAllowed, props[i].span))
  }

  /** `key.span.join(merge.span).unwrap_or(key.span)`. */
  function KeyAndMergeSpan(key: Span, merge: Span, join: SpanJoin): Span {
    match join(key, merge)
    case Some(joined) => joined
    case None => key
  }

  /** Where the key+merge diagnostic for field `p` is placed. */
  function KeyAndMergeSpanOf(p: Property, join: SpanJoin): Span
    requires HasKeyAndMerge(p)
  {
    KeyAndMergeSpan(p.attrs.key.value, p.attrs.merge.value, join)
  }

  /** The per-field step of `check_not_key_and_merge`. */
  function CheckFieldNotKeyAndMerge(p: Property, join: SpanJoin): (r: Outcome<Error>)
    ensures r.Ok? <==> !HasKeyAndMerge(p)
    ensures r.Err? ==> r.error.kind == KeyAndMerge
  {
    match (p.attrs.key, p.attrs.merge)
    case (Some(key), Some(merge)) => Err(Error(KeyAndMerge, KeyAndMergeSpan(key, merge, join)))
    case _ => Ok
  }

  /** `check_not_key_and_merge`: the first field that is both `key` and `merge` is an error. */
  function CheckNotKeyAndMerge(props: seq<Property>, join: SpanJoin): (r: Outcome<Error>)
    ensures r.Ok? <==> KeyMergeExclusive(props)
    ensures r.Err? ==> r.error.kind == KeyAndMerge
  {
    TryForEach(props, (p: Property) => CheckFieldNotKeyAndMerge(p, join))
  }

  /** `validate_properties`: the four checks, fail-fast, in this order. */
  function ValidateProperties(
    c: ContainerAttributes, props: seq<Property>, join: SpanJoin): (r: Outcome<Error>)
    ensures r.Ok? <==> Valid(c, props)
  {
    var split := CheckSplit(c, props);
    if split.Err? then split else
    var stride := CheckStride(c, props);
    if stride.Err? then stride else
    var merging := CheckMerging(c, props);
    if merging.Err? then merging else
    CheckNotKeyAndMerge(props, join)
  }

  // ---------------------------------------------------------------------------
  // Where each check reports its error: always the first offender in declaration order.

  lemma SplitErrorAtFirstSplit(c: ContainerAttributes, props: seq<Property>, i: nat)
    requires c.partition != Some(Split) && IsFirst(props, i, HasSplit)
    ensures CheckSplit(c, props) == Err(Error(SplitNotAllowed, props[i].attrs.splits[0]))
  {
    FlatMapHead(props, (p: Property) => p.attrs.splits, i);
  }

  lemma StrideErrorAtFirstStride(c: ContainerAttributes, props: seq<Property>, i: nat)
    requires c.partition != Some(Exact) && IsFirst(props, i, HasStride)
    ensures CheckStride(c, props) == Err(Error(StrideNotAllowed, props[i].attrs.stride.value))
  {
  }

  lemma MergeErrorsAtContainer(c: ContainerAttributes, props: seq<Property>)
    requires c.merge.Some?
    ensures NoneSatisfy(props, HasKey) ==>
      CheckMerging(c, props) == Err(Error(NeedKey, c.merge.value.span))
    ensures !NoneSatisfy(props, HasKey) && NoneSatisfy(props, HasMerge) ==>
      CheckMerging(c, props) == Err(Error(NeedMerge, c.merge.value.span))
  {
  }

  lemma KeyErrorAtFirstKeyField(c: ContainerAttributes, props: seq<Property>, i: nat)
    requires c.merge.None? && IsFirst(props, i, HasKey)
    ensures CheckMerging(c, props) == Err(Error(KeyNotAllowed, props[i].span))
  {
  }

  lemma MergeErrorAtFirstMergeField(c: ContainerAttributes, props: seq<Property>, i: nat)
    requires c.merge.None? && NoneSatisfy(props, HasKey) && IsFirst(props, i, HasMerge)
    ensures CheckMerging(c, props) == Err(Error(MergeNotAllowed, props[i].span))
  {
  }

  lemma KeyAndMergeErrorAtFirstSuchField(props: seq<Property>, join: SpanJoin, i: nat)
    requires IsFirst(props, i, HasKeyAndMerge)
    ensures CheckNotKeyAndMerge(props, join)
      == Err(Error(KeyAndMerge, KeyAndMergeSpanOf(props[i], join)))
  {
  }

  // ---------------------------------------------------------------------------
  // What `validate_properties` reports: the error of the earliest failing check,
  // placed at that check's first offender.

  lemma SplitViolationWins(c: ContainerAttributes, props: seq<Property>, join: SpanJoin, i: nat)
    requires c.partition != Some(Split) && IsFirst(props, i, HasSplit)
    ensures ValidateProperties(c, props, join)
      == Err(Error(SplitNotAllowed, props[i].attrs.splits[0]))
  {
    SplitErrorAtFirstSplit(c, props, i);
  }

  lemma StrideViolationNext(c: ContainerAttributes, props: seq<Property>, join: SpanJoin, i: nat)
    requires SplitsPermitted(c, props)
    requires c.partition != Some(Exact) && IsFirst(props, i, HasStride)
    ensures ValidateProperties(c, props, join)
      == Err(Error(StrideNotAllowed, props[i].attrs.stride.value))
  {
    StrideErrorAtFirstStride(c, props, i);
  }

  /** A merging container without a key field is reported as missing a key,
      whether or not it has a merge field. */
  lemma MissingKeyReported(c: ContainerAttributes, props: seq<Property>, join: SpanJoin)
    requires SplitsPermitted(c, props) && StridesPermitted(c, props)
    requires c.merge.Some? && NoneSatisfy(props, HasKey)
    ensures ValidateProperties(c, props, join) == Err(Error(NeedKey, c.merge.value.span))
  {
    MergeErrorsAtContainer(c, props);
  }

  lemma MissingMergeReported(c: ContainerAttributes, props: seq<Property>, join: SpanJoin)
    requires SplitsPermitted(c, props) && StridesPermitted(c, props)
    requires c.merge.Some? && !NoneSatisfy(props, HasKey) && NoneSatisfy(props, HasMerge)
    ensures ValidateProperties(c, props, join) == Err(Error(NeedMerge, c.merge.value.span))
  {
    MergeErrorsAtContainer(c, props);
  }

  lemma KeyOutsideMergingReported(c: ContainerAttributes, props: seq<Property>, join: SpanJoin, i: nat)
    requires SplitsPermitted(c, props) && StridesPermitted(c, props)
    requires c.merge.None? && IsFirst(props, i, HasKey)
    ensures ValidateProperties(c, props, join) == Err(Error(KeyNotAllowed, props[i].span))
  {
    KeyErrorAtFirstKeyField(c, props, i);
  }

  lemma MergeOutsideMergingReported(c: ContainerAttributes, props: seq<Property>, join: SpanJoin, i: nat)
    requires SplitsPermitted(c, props) && StridesPermitted(c, props)
    requires c.merge.None? && NoneSatisfy(props, HasKey) && IsFirst(props, i, HasMerge)
    ensures ValidateProperties(c, props, join) == Err(Error(MergeNotAllowed, props[i].span))
  {
    MergeErrorAtFirstMergeField(c, props, i);
  }

  lemma KeyAndMergeReported(c: ContainerAttributes, props: seq<Property>, join: SpanJoin, i: nat)
    requires SplitsPermitted(c, props) && StridesPermitted(c, props)
    requires MergeShapeConsistent(c, props) && IsFirst(props, i, HasKeyAndMerge)
    ensures ValidateProperties(c, props, join)
      == Err(Error(KeyAndMerge, KeyAndMergeSpanOf(props[i], join)))
  {
    KeyAndMergeErrorAtFirstSuchField(props, join, i);
  }

  /** On a container without a merge attribute the key+merge diagnostic can never
      be produced: a field that is both key and merge is caught earlier, as a key
      outside a merging container (or by an earlier split or stride error). */
  lemma KeyAndMergeNeverReportedWithoutMerging(
    c: ContainerAttributes, props: seq<Property>, join: SpanJoin, i: nat)
    requires c.merge.None? && i < |props| && HasKeyAndMerge(props[i])
    ensures ValidateProperties(c, props, join).Err?
    ensures ValidateProperties(c, props, join).error.kind
      in {SplitNotAllowed, StrideNotAllowed, KeyNotAllowed}
    ensures SplitsPermitted(c, props) && StridesPermitted(c, props) ==>
      exists k :: IsFirst(props, k, HasKey)
        && ValidateProperties(c, props, join) == Err(Error(KeyNotAllowed, props[k].span))
  {
  }

  /** Group and hash containers are validated alike. */
  lemma MergeKindIrrelevant(c: ContainerAttributes, props: seq<Property>, join: SpanJoin, kind: MergeKind)
    requires c.merge.Some?
    ensures ValidateProperties(c.(merge := Some(c.merge.value.(kind := kind))), props, join)
      == ValidateProperties(c, props, join)
  {
  }

  /** How spans are joined only moves the key+merge diagnostic; it never changes
      whether a descriptor is accepted, nor any other diagnostic. */
  lemma JoinOnlyPlacesKeyAndMerge(c: ContainerAttributes, props: seq<Property>, join1: SpanJoin, join2: SpanJoin)
    ensures ValidateProperties(c, props, join1).Ok? == ValidateProperties(c, props, join2).Ok?
    ensures ValidateProperties(c, props, join1).Err?
      && ValidateProperties(c, props, join1).error.kind != KeyAndMerge
      ==> ValidateProperties(c, props, join1) == ValidateProperties(c, props, join2)
  {
  }
}
