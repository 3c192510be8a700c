/**
  The vocabulary of one compute dispatch: descriptor kinds, resource bindings
  with their access modes, and the kernels the packing operations name. Each
  kernel is always dispatched with one fixed descriptor list; a dispatch is
  well bound when it passes that list and every resource it binds has the
  kind and access its descriptor slot calls for.
*/
module Vulkan {
  import opened Arith

  /** A `uvec3`, used for image extents. */
  datatype UVec3 = UVec3(x: u32, y: u32, z: u32)

  /** A `uvec4`, used for the four per-channel offsets. */
  datatype UVec4 = UVec4(x: u32, y: u32, z: u32, w: u32) {
    /** Component `c`, counting from 0. */
    function At(c: nat): u32
      requires c < 4
    {
      if c == 0 then x else if c == 1 then y else if c == 2 then z else w
    }
  }

  datatype DescriptorKind = StorageImage | CombinedImageSampler | StorageBuffer | UniformBuffer

  datatype Access = Read | Write

  /** Which tensor of the operation a resource belongs to. */
  datatype Role = Source | Destination

  /** One resource handed to a dispatch, in binding order. */
  datatype Binding =
    | Image(role: Role, access: Access)
    | Buffer(role: Role, access: Access)
    | Uniform

  datatype Kernel = HwToImage2d | Image2dToHw | Image1x1ToBuffer

  /** The descriptor list each call site passes with a kernel: the kernel that
      writes an image gets it as a storage image, the kernels that read one get
      a combined image sampler. */
  function Signature(k: Kernel): seq<DescriptorKind> {
    match k
    case HwToImage2d => [StorageImage, StorageBuffer, UniformBuffer]
    case Image2dToHw => [CombinedImageSampler, StorageBuffer, UniformBuffer]
    case Image1x1ToBuffer => [CombinedImageSampler, StorageBuffer, UniformBuffer]
  }

  /** Whether a resource may sit in a descriptor slot of the given kind: a storage
      image is written, a combined image sampler is read. */
  predicate Fits(d: DescriptorKind, b: Binding) {
    match d
    case StorageImage => b.Image? && b.access == Write
    case CombinedImageSampler => b.Image? && b.access == Read
    case StorageBuffer => b.Buffer?
    case UniformBuffer => b.Uniform?
  }

  /** The descriptors passed are the kernel's list, and each binding fits its slot. */
  predicate BindsAsDeclared(k: Kernel, descriptors: seq<DescriptorKind>, bindings: seq<Binding>) {
    && descriptors == Signature(k)
    && |bindings| == |descriptors|
    && forall i :: 0 <= i < |bindings| ==> Fits(descriptors[i], bindings[i])
  }

  /** Data moves one way: every source resource is read and every destination resource written. */
  predicate SourceToDestination(bindings: seq<Binding>) {
    forall i :: 0 <= i < |bindings| && !bindings[i].Uniform? ==>
      (bindings[i].role == Source <==> bindings[i].access == Read)
  }
}
