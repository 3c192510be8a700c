/**
  Properties of the packing model that relate several calls or pin down what
  the operations' contracts leave implicit: the packed sizes are exactly the
  ceiling quotients, the addressing law determines the uniform record, when
  the four offsets are distinct, that the record's block and offsets do not
  wrap while `plane < 2^31`, and unpacking a packed tensor back to
  its original sizes reuses the pack's record with the bindings reversed.
*/
module PackingProperties {
  import opened Arith
  import opened Vulkan
  import opened Packing

  /** No two of the four offsets coincide. */
  predicate Distinct(v: UVec4) {
    forall i, j :: 0 <= i < 4 && 0 <= j < 4 && i != j ==> v.At(i) != v.At(j)
  }

  /** The same resource seen from the other direction: what was read is
      written and what belonged to the source belongs to the destination. */
  function Reverse(b: Binding): (r: Binding)
    ensures r.Uniform? <==> b.Uniform?
    ensures !b.Uniform? ==> r.role != b.role && r.access != b.access
  {
    match b
    case Image(role, access) => Image(Other(role), Flip(access))
    case Buffer(role, access) => Buffer(Other(role), Flip(access))
    case Uniform => Uniform
  }

  function Other(r: Role): Role {
    if r == Source then Destination else Source
  }

  function Flip(a: Access): Access {
    if a == Read then Write else Read
  }

  /** The pack contract fixes the destination sizes: four channels, then the
      ceiling quotients of the height (1 for a rank-1 source) and of the row
      length by the block factor. */
  lemma PackedSizesAreCeilings(scheme: Scheme, src: Tensor, extents: Extents, r: Result<Launch>)
    requires PackPromise(scheme, src, extents, r)
    requires r.Ok? && FitsU32(src.sizes)
    ensures r.value.output.sizes ==
      [CHANNELS,
       if |src.sizes| == 2 then DivUp(src.sizes[HEIGHT], scheme.Factor()) else 1,
       DivUp(Last(src.sizes), scheme.Factor())]
  {
  }

  /** The addressing law determines every field of a blocked record except
      its extents, and that record is the literal one the source builds:
      `{0, 1, plane, plane + 1}` with block `2 * plane` and stride 2 for
      h2w2, `{0, 1, 2, 3}` with block `plane` and stride 4 for hw4. */
  lemma AddressesIsSourceRecord(p: Params, plane: u32)
    requires Addresses(p, plane)
    ensures p == BlockParams(p.scheme, plane, p.extents)
  {
    var q := BlockParams(p.scheme, plane, p.extents);
    assert p.offset.At(0) == q.offset.At(0);
    assert p.offset.At(1) == q.offset.At(1);
    assert p.offset.At(2) == q.offset.At(2);
    assert p.offset.At(3) == q.offset.At(3);
  }

  /** hw4 offsets are always distinct; h2w2 offsets are distinct exactly when
      a row has at least two elements and `plane + 1` does not wrap to 0. */
  lemma OffsetsDistinctIff(p: Params, plane: u32)
    requires Addresses(p, plane)
    ensures Distinct(p.offset) <==> (p.scheme == HW4 || 2 <= plane < TWO_TO_32 - 1)
  {
    AddressesIsSourceRecord(p, plane);
    if p.scheme == H2W2 && !(2 <= plane < TWO_TO_32 - 1) {
      if plane == TWO_TO_32 - 1 {
        assert p.offset.At(3) == p.offset.At(0);
      } else if plane == 1 {
        assert p.offset.At(2) == p.offset.At(1);
      } else {
        assert p.offset.At(2) == p.offset.At(0);
      }
    }
  }

  /** Below 2^31 the record's 32-bit block and offsets equal their unbounded
      values. */
  lemma BoundPreventsWrap(p: Params, plane: u32)
    requires Addresses(p, plane)
    requires plane < TWO_TO_31
    ensures p.block == p.scheme.Rows() * plane
    ensures forall c :: 0 <= c < 4 ==>
      p.offset.At(c) == (c / p.scheme.Cols()) * plane + c % p.scheme.Cols()
  {
    forall c | 0 <= c < 4
      ensures (c / p.scheme.Cols()) * plane + c % p.scheme.Cols() < TWO_TO_32
    {
      assert c / p.scheme.Cols() <= 1;
      MulMonotone(c / p.scheme.Cols(), 1, plane);
    }
  }

  /** The bound is tight: an h2w2 row of 2^31 elements wraps the block to 0. */
  lemma H2W2BlockWrapsAtBound(p: Params)
    requires Addresses(p, TWO_TO_31) && p.scheme == H2W2
    ensures p.block == 0
  {
  }

  /** No tensor passes the rank checks of both directions. */
  lemma PackUnpackExclusive(packScheme: Scheme, unpackScheme: Scheme, src: Tensor, outputSizes: seq<nat>, extents: Extents)
    ensures !(Pack(packScheme, src, extents).Ok? && Unpack(unpackScheme, src, outputSizes, extents).Ok?)
  {
  }

  /** Unpacking a freshly packed tensor (once it has its image) back to the
      original sizes passes the unpack checks, allocates exactly those sizes,
      reuses the pack's uniform record and work extent unchanged, and binds
      the same two resources in the same order with roles and accesses
      reversed. */
  lemma UnpackMirrorsPack(scheme: Scheme, src: Tensor, extents: Extents)
    requires Pack(scheme, src, extents).Ok?
    ensures
      var l := Pack(scheme, src, extents).value;
      var packed := Tensor(l.output.sizes, true, l.output.options);
      var u := Unpack(scheme, packed, src.sizes, extents);
      && u.Ok?
      && u.value.output.sizes == src.sizes
      && u.value.output.options == src.options
      && u.value.dispatch.params == l.dispatch.params
      && u.value.dispatch.workExtent == l.dispatch.workExtent
      && |u.value.dispatch.bindings| == |l.dispatch.bindings|
      && forall i :: 0 <= i < |l.dispatch.bindings| ==>
           u.value.dispatch.bindings[i] == Reverse(l.dispatch.bindings[i])
  {
  }

  /** The pack contract fixes the binding list: the new image written, the
      source's buffer read, then the uniform record. */
  lemma PackBindingsFixed(scheme: Scheme, src: Tensor, extents: Extents, l: Launch)
    requires PackPromise(scheme, src, extents, Ok(l))
    ensures l.dispatch.bindings == [Image(Destination, Write), Buffer(Source, Read), Uniform]
  {
  }

  /** Every unpack contract fixes the binding list: the source's image read,
      the new tensor's buffer written, then the uniform record. */
  lemma UnpackBindingsFixed(k: Kernel, src: Tensor, outputSizes: seq<nat>, extents: Extents, l: Launch)
    requires UnpackedLaunch(k, src, outputSizes, extents, l)
    ensures l.dispatch.bindings == [Image(Source, Read), Buffer(Destination, Write), Uniform]
  {
  }

  /** The rank check of both pack entry points, as written: at most two dimensions. */
  predicate PackRankCheckAsWritten(sizes: seq<nat>) {
    |sizes| <= 2
  }

  /** A rank-0 source passes that check, yet the derivation that follows reads
      its height entry, which does not exist; the model rejects it instead. */
  lemma ScalarPassesPackRankCheck(scheme: Scheme, options: Options, extents: Extents)
    ensures var none: seq<nat> := []; PackRankCheckAsWritten(none) && HEIGHT >= |none|
    ensures Pack(scheme, Tensor([], true, options), extents) == Err(EmptyShape)
  {
  }

  /** The checks of both blocked unpack entry points, as written: the source
      has an image and more than two dimensions. Nothing checks the request. */
  predicate UnpackChecksAsWritten(src: Tensor) {
    src.hasImage && |src.sizes| > 2
  }

  /** An empty request passes those checks, yet `plane` is then read at index
      `size() - 1` of it, and no index of an empty list exists; the model
      rejects it instead. */
  lemma EmptyRequestPassesUnpackChecks(scheme: Scheme, options: Options, extents: Extents)
    ensures
      var src := Tensor([4, 1, 1], true, options);
      var none: seq<nat> := [];
      && UnpackChecksAsWritten(src)
      && |none| == 0
      && Unpack(scheme, src, none, extents) == Err(EmptyShape)
  {
  }

  /** Worked shapes: (4, 6) packs by hw4 into (4, 1, 2) with a row length of
      6, and (5, 5) packs by h2w2 into (4, 3, 3) with block 10 and offsets
      {0, 1, 5, 6}; hw4 packs (4, 2^32) into (4, 1, 2^30): the packed sizes
      do not wrap, but `plane` narrows to 0 and so does the block; a 1x1
      unpack to (4) allocates exactly (4). */
  lemma WorkedShapes(options: Options, extents: Extents)
    ensures
      var l := PackHW4(Tensor([4, 6], true, options), extents).value;
      l.output.sizes == [4, 1, 2] && l.dispatch.params.block == 6
    ensures
      var l := PackH2W2(Tensor([5, 5], true, options), extents).value;
      && l.output.sizes == [4, 3, 3]
      && l.dispatch.params.block == 10
      && l.dispatch.params.offset == UVec4(0, 1, 5, 6)
    ensures
      && PackGeometry(4, [4, TWO_TO_32]).sizes == [4, 1, 0x4000_0000]
      && !ShapeLaw(4, [4, TWO_TO_32], [4, 1, 0])
      && PackGeometry(4, [4, TWO_TO_32]).plane == 0
      && PackHW4(Tensor([4, TWO_TO_32], true, options), extents).value.dispatch.params.block == 0
    ensures Unpack1x1(Tensor([1, 1, 4], true, options), [4], extents).output.sizes == [4]
  {
  }
}
