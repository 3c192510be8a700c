/**
  Layout-parameter derivation of the Vulkan pack/unpack operations
  (aten/src/ATen/native/vulkan/ops/Packing.cpp).

  Each operation turns a source tensor's shape into a freshly allocated
  tensor's size list, a uniform parameter record describing how the kernel
  addresses the linear side, and the binding contract of its one dispatch.
  Nothing here moves tensor data: the kernels that do are outside the model.

  Assumption: `Layout::Parameter::height` is 0 and `Layout::Parameter::width`
  is 1 (the header that defines them is not part of this model).
*/
module Packing {
  import opened Arith
  import opened Vulkan

  /** Position of the height entry in a size list. */
  const HEIGHT: nat := 0
  /** Position of the width entry in a size list. */
  const WIDTH: nat := 1
  /** Channel count of every packed image: one per texel component. */
  const CHANNELS: nat := 4

  /** The two blocked layouts, h2w2 and hw4. */
  datatype Scheme = H2W2 | HW4 {
    /** Divisor applied to the source's dimensions when sizing the packed image. */
    function Factor(): nat {
      if H2W2? then 2 else 4
    }

    /** Multiple of `plane` the record's `block` holds. */
    function Rows(): nat {
      if H2W2? then 2 else 1
    }

    /** The record's `stride`, and the divisor that splits an offset's
        index into a multiple of `plane` and a remainder. */
    function Cols(): nat {
      if H2W2? then 2 else 4
    }
  }

  /** Dtype and memory-format options: opaque here, only ever copied. */
  datatype Options = Options(id: nat)

  /** The parts of a `vTensor` the operations consult. */
  datatype Tensor = Tensor(sizes: seq<nat>, hasImage: bool, options: Options)

  /** A tensor the operation allocates and hands back to its caller. */
  datatype Allocation = Allocation(sizes: seq<nat>, options: Options)

  /** `vTensor::extents()`: computed from the sizes by code outside this model. */
  type Extents = seq<nat> -> UVec3

  /** The uniform record bound as the dispatch's last descriptor, one variant per layout. */
  datatype Params =
    | Blocked(scheme: Scheme, extents: UVec3, block: u32, offset: UVec4, stride: u32)
    | ExtentsOnly(extents: UVec3)

  /** The one compute dispatch an operation records. */
  datatype Dispatch = Dispatch(
    descriptors: seq<DescriptorKind>,
    kernel: Kernel,
    workExtent: UVec3,
    bindings: seq<Binding>,
    params: Params)

  /** What an operation produces: the new tensor and the dispatch that fills it. */
  datatype Launch = Launch(output: Allocation, dispatch: Dispatch)

  /** Why an operation refuses its input. `EmptyShape` marks a size list the
      operation would index past its end. */
  datatype Error = MissingImage | RankTooLarge | RankTooSmall | EmptyShape

  datatype Result<T> = Ok(value: T) | Err(error: Error)

  function Last(s: seq<nat>): nat
    requires |s| > 0
  {
    s[|s| - 1]
  }

  /** Every size is representable as a `uint32_t`. */
  predicate FitsU32(sizes: seq<nat>) {
    forall i :: 0 <= i < |sizes| ==> sizes[i] < TWO_TO_32
  }

  // ---------------------------------------------------------------------------
  // Sizes and the uniform record
  // ---------------------------------------------------------------------------

  /** The packed size list for a rank-1 or rank-2 source and block factor `f`:
      four channels, then a height and a width, each a 32-bit value congruent
      to its ceiling quotient. Whenever that quotient fits in 32 bits, the
      height covers the source's rows and the width its row length exactly; a
      rank-1 source is one row. */
  predicate ShapeLaw(f: nat, sizes: seq<nat>, packed: seq<nat>)
    requires f > 0 && 1 <= |sizes| <= 2
  {
    && |packed| == 3
    && packed[0] == CHANNELS
    && packed[1] < TWO_TO_32 && packed[2] < TWO_TO_32
    && (|sizes| == 1 ==> packed[1] == 1)
    && (DivUp(Last(sizes), f) - packed[2]) % TWO_TO_32 == 0
    && (DivUp(Last(sizes), f) < TWO_TO_32 ==> Covers(packed[2], Last(sizes), f))
    && (|sizes| == 2 ==> (DivUp(sizes[HEIGHT], f) - packed[1]) % TWO_TO_32 == 0)
    && (|sizes| == 2 && DivUp(sizes[HEIGHT], f) < TWO_TO_32 ==> Covers(packed[1], sizes[HEIGHT], f))
  }

  /** The arithmetic a blocked record obeys for a row length `plane`, in
      32-bit arithmetic: `block` is `Rows() * plane`, `stride` is `Cols()`,
      and offset `c` is `(c / Cols()) * plane + c % Cols()`. */
  predicate Addresses(p: Params, plane: u32) {
    && p.Blocked?
    && p.block == Wrap32(p.scheme.Rows() * plane)
    && p.stride == p.scheme.Cols()
    && forall c :: 0 <= c < 4 ==>
         p.offset.At(c) == Wrap32((c / p.scheme.Cols()) * plane + c % p.scheme.Cols())
  }

  /** Sizes of the packed image and the row length of the linear source. */
  datatype Geometry = Geometry(sizes: seq<nat>, plane: u32)

  /** Destination sizes and `plane` for a pack with block factor `f`. */
  function PackGeometry(f: nat, sizes: seq<nat>): (g: Geometry)
    requires f > 0 && 1 <= |sizes| <= 2
    ensures ShapeLaw(f, sizes, g.sizes)
    ensures g.plane == Wrap32(Last(sizes))
  {
    if |sizes| == 2 then
      Geometry([CHANNELS, Wrap32(DivUp(sizes[HEIGHT], f)), Wrap32(DivUp(sizes[WIDTH], f))],
               Wrap32(sizes[WIDTH]))
    else
      Geometry([CHANNELS, 1, Wrap32(DivUp(sizes[HEIGHT], f))], Wrap32(sizes[HEIGHT]))
  }

  /** The uniform record of a blocked layout. */
  function BlockParams(scheme: Scheme, plane: u32, extents: UVec3): (p: Params)
    ensures Addresses(p, plane)
    ensures p.scheme == scheme && p.extents == extents
  {
    match scheme
    case H2W2 => Blocked(H2W2, extents, Wrap32(2 * plane), UVec4(0, 1, plane, Wrap32(plane + 1)), 2)
    case HW4 => Blocked(HW4, extents, plane, UVec4(0, 1, 2, 3), 4)
  }

  // ---------------------------------------------------------------------------
  // What each direction promises
  // ---------------------------------------------------------------------------

  /** A pack's dispatch: the kernel writes the new image and reads the
      source's buffer, and the new image's extents size both the work and the record. */
  predicate PackedLaunch(scheme: Scheme, src: Tensor, extents: Extents, l: Launch)
    requires 1 <= |src.sizes| <= 2
  {
    var d := l.dispatch;
    && ShapeLaw(scheme.Factor(), src.sizes, l.output.sizes)
    && l.output.options == src.options
    && d.kernel == HwToImage2d
    && BindsAsDeclared(d.kernel, d.descriptors, d.bindings)
    && SourceToDestination(d.bindings)
    && d.bindings[0].role == Destination
    && d.bindings[1].role == Source
    && d.workExtent == extents(l.output.sizes)
    && d.params.extents == d.workExtent
    && Addresses(d.params, Wrap32(Last(src.sizes)))
    && d.params.scheme == scheme
  }

  /** An unpack's dispatch: kernel `k` reads the source image and writes the
      new buffer of the requested sizes, and the source's extents size both the
      work and the record. */
  predicate UnpackedLaunch(k: Kernel, src: Tensor, outputSizes: seq<nat>, extents: Extents, l: Launch) {
    var d := l.dispatch;
    && l.output == Allocation(outputSizes, src.options)
    && d.kernel == k
    && BindsAsDeclared(d.kernel, d.descriptors, d.bindings)
    && SourceToDestination(d.bindings)
    && d.bindings[0].role == Source
    && d.bindings[1].role == Destination
    && d.workExtent == extents(src.sizes)
    && d.params.extents == d.workExtent
  }

  /** The contract of both pack entry points. */
  predicate PackPromise(scheme: Scheme, src: Tensor, extents: Extents, r: Result<Launch>) {
    && (r.Ok? <==> src.hasImage && 1 <= |src.sizes| <= 2)
    && (!src.hasImage ==> r == Err(MissingImage))
    && (src.hasImage && |src.sizes| > 2 ==> r == Err(RankTooLarge))
    && (src.hasImage && |src.sizes| == 0 ==> r == Err(EmptyShape))
    && (r.Ok? ==> 1 <= |src.sizes| <= 2 && PackedLaunch(scheme, src, extents, r.value))
  }

  /** The contract of both blocked unpack entry points. */
  predicate UnpackPromise(scheme: Scheme, src: Tensor, outputSizes: seq<nat>, extents: Extents, r: Result<Launch>) {
    && (r.Ok? <==> src.hasImage && |src.sizes| > 2 && |outputSizes| > 0)
    && (!src.hasImage ==> r == Err(MissingImage))
    && (src.hasImage && |src.sizes| <= 2 ==> r == Err(RankTooSmall))
    && (src.hasImage && |src.sizes| > 2 && |outputSizes| == 0 ==> r == Err(EmptyShape))
    && (r.Ok? ==>
          && |outputSizes| > 0
          && UnpackedLaunch(Image2dToHw, src, outputSizes, extents, r.value)
          && Addresses(r.value.dispatch.params, Wrap32(Last(outputSizes)))
          && r.value.dispatch.params.scheme == scheme)
  }

  // ---------------------------------------------------------------------------
  // The operations
  // ---------------------------------------------------------------------------

  /** Shared body of the two pack entry points. A rank-0 source passes the
      rank check and then has its first size read; the model reports that
      read as `EmptyShape` instead of inventing a value. */
  function Pack(scheme: Scheme, src: Tensor, extents: Extents): Result<Launch> {
    if !src.hasImage then Err(MissingImage)
    else if |src.sizes| > 2 then Err(RankTooLarge)
    else if |src.sizes| == 0 then Err(EmptyShape)
    else
      var g := PackGeometry(scheme.Factor(), src.sizes);
      var ext := extents(g.sizes);
      Ok(Launch(
        Allocation(g.sizes, src.options),
        Dispatch(
          [StorageImage, StorageBuffer, UniformBuffer],
          HwToImage2d,
          ext,
          [Image(Destination, Write), Buffer(Source, Read), Uniform],
          BlockParams(scheme, g.plane, ext))))
  }

  /** Shared body of the two blocked unpack entry points. `plane` is the last
      requested size; an empty request would be indexed out of range, and
      the model reports that as `EmptyShape`. */
  function Unpack(scheme: Scheme, src: Tensor, outputSizes: seq<nat>, extents: Extents): Result<Launch> {
    if !src.hasImage then Err(MissingImage)
    else if |src.sizes| <= 2 then Err(RankTooSmall)
    else if |outputSizes| == 0 then Err(EmptyShape)
    else
      var plane := Wrap32(Last(outputSizes));
      var ext := extents(src.sizes);
      Ok(Launch(
        Allocation(outputSizes, src.options),
        Dispatch(
          [CombinedImageSampler, StorageBuffer, UniformBuffer],
          Image2dToHw,
          ext,
          [Image(Source, Read), Buffer(Destination, Write), Uniform],
          BlockParams(scheme, plane, ext))))
  }

  /** `pack_image2d_h2w2`. */
  function PackH2W2(src: Tensor, extents: Extents): (r: Result<Launch>)
    ensures PackPromise(H2W2, src, extents, r)
  {
    Pack(H2W2, src, extents)
  }

  /** `unpack_image2d_h2w2`. */
  function UnpackH2W2(src: Tensor, outputSizes: seq<nat>, extents: Extents): (r: Result<Launch>)
    ensures UnpackPromise(H2W2, src, outputSizes, extents, r)
  {
    Unpack(H2W2, src, outputSizes, extents)
  }

  /** `pack_image2d_hw4`. */
  function PackHW4(src: Tensor, extents: Extents): (r: Result<Launch>)
    ensures PackPromise(HW4, src, extents, r)
  {
    Pack(HW4, src, extents)
  }

  /** `unpack_image2d_hw4`. */
  function UnpackHW4(src: Tensor, outputSizes: seq<nat>, extents: Extents): (r: Result<Launch>)
    ensures UnpackPromise(HW4, src, outputSizes, extents, r)
  {
    Unpack(HW4, src, outputSizes, extents)
  }

  /** `unpack_image1x1`: no checks, and a record that carries only the extents. */
  function Unpack1x1(src: Tensor, outputSizes: seq<nat>, extents: Extents): (l: Launch)
    ensures UnpackedLaunch(Image1x1ToBuffer, src, outputSizes, extents, l)
    ensures l.dispatch.params.ExtentsOnly?
  {
    var ext := extents(src.sizes);
    Launch(
      Allocation(outputSizes, src.options),
      Dispatch(
        [CombinedImageSampler, StorageBuffer, UniformBuffer],
        Image1x1ToBuffer,
        ext,
        [Image(Source, Read), Buffer(Destination, Write), Uniform],
        ExtentsOnly(ext)))
  }
}
