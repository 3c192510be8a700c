# Vulkan layout packing: parameter derivation

This project models the layout-parameter derivation in the Vulkan backend's
`Packing.cpp`. That file moves a tensor between a linear buffer and a
four-channel 2D image. It has five entry points:

- `pack_image2d_h2w2` and `pack_image2d_hw4` turn a rank-1 or rank-2 tensor
  into an image.
- `unpack_image2d_h2w2` and `unpack_image2d_hw4` turn the image back into a
  buffer of caller-given sizes.
- `unpack_image1x1` unpacks a single texel.

Each of the four blocked entry points checks its source; `unpack_image1x1`
checks nothing. Every entry point then does two things:

1. It allocates a new tensor.
2. It records one compute dispatch, made of a descriptor list, a kernel name,
   a work extent, an image binding, a buffer binding, and a uniform
   parameter record.

The uniform record has the fields `extents`, `block`, `offset[4]` and
`stride`. For the 1x1 case it has `extents` only.

The model is a set of pure functions, in four modules:

- `Arith`: the `uint32_t` type, narrowing to 32 bits (`Wrap32`), and ceiling
  division (`DivUp`).
- `Vulkan`: descriptor kinds, bindings and kernels. It also holds the
  descriptor list each call site passes with each kernel (`Signature`), and
  says when a binding fits a descriptor slot.
- `Packing`: the tensor record, the tagged parameter record (`Blocked` for
  h2w2 and hw4, `ExtentsOnly` for the 1x1 case), and the five operations. The
  operations are `PackH2W2`, `UnpackH2W2`, `PackHW4`, `UnpackHW4` and
  `Unpack1x1`. Each pack returns a `Result` holding the new tensor's sizes and
  the dispatch, or the check that failed.
- `PackingProperties`: lemmas that relate several calls.

Integer widths are written out. The code narrows sizes and `plane` to
`uint32_t`, and computes `2u * plane` and `plane + 1` in 32 bits. The model
wraps at 2^32 in the same places (`Wrap32`). Lemmas show that the record's
block and offsets do not wrap while `plane < 2^31`, and that for h2w2 this
bound is tight; the hw4 record never wraps. A packed height or width wraps
exactly when its ceiling quotient reaches 2^32, whatever the row length.

The layout header is not part of this model. The model assumes
`Layout::Parameter::height` is 0 and `Layout::Parameter::width` is 1.
`vTensor::extents()` is computed outside this file, so every operation takes
it as a function parameter (`extents: seq<nat> -> UVec3`). `div_up` is also
defined outside this file. The model takes it as `(a + b - 1) / b` on
non-negative sizes.

Two reads in the code are undefined for some inputs. Whether either is
reachable is decided outside this file:

- A rank-0 pack source passes the `<= 2` rank check. The code then reads
  `sizes()[height]`, which does not exist. This is reachable only if
  `has_image()` can be true for a rank-0 tensor.
- An unpack with an empty `output_sizes` reads `output_sizes[size() - 1]`.
  In `size_t` that index is the largest value, so the read is out of range.
  This is reachable only if the `vTensor` constructor that allocates the
  result (`Packing.cpp` lines 78-82) accepts an empty size list.

The model cannot invent a value for either read. It returns
`Err(EmptyShape)` in both places.

## Model

| member | source | states |
|---|---|---|
| `Arith.Wrap32` | aten/src/ATen/native/vulkan/ops/Packing.cpp:14-19 | The narrowing to `uint32_t` keeps values below 2^32 unchanged. Otherwise it returns the 32-bit value congruent to the input. |
| `Arith.DivUp` | aten/src/ATen/native/vulkan/ops/Packing.cpp:17-18 | `div_up(a, b)` gives a number of blocks of `b` that covers `a` elements (`q*b >= a`). Dropping one block would no longer cover them (`(q-1)*b < a`). |
| `Arith.DivUpUnique` | aten/src/ATen/native/vulkan/ops/Packing.cpp:130-131 | Any block count with that covering property equals `div_up`, so covering characterises the ceiling quotient. |
| `Packing.PackGeometry` | aten/src/ATen/native/vulkan/ops/Packing.cpp:14-35 | The packed sizes are `[4, h, w]`, each below 2^32. `w` is congruent mod 2^32 to the ceiling quotient of the source's last dimension, and covers that dimension whenever the quotient is below 2^32. For rank 2 the same holds of `h` and the height; for rank 1, `h` is 1. `plane` is the source's last dimension, narrowed to 32 bits. |
| `Packing.BlockParams` | aten/src/ATen/native/vulkan/ops/Packing.cpp:36-51 | The record obeys the addressing law, in 32-bit arithmetic: block = Rows*plane, stride = Cols, and offset `c` = `(c/Cols)*plane + c%Cols`. Rows and Cols are 2 and 2 for h2w2, 1 and 4 for hw4. |
| `Packing.PackH2W2` | aten/src/ATen/native/vulkan/ops/Packing.cpp:10-72 | The result fails with MissingImage when the source has no image. Otherwise it fails with RankTooLarge above rank 2 and with EmptyShape at rank 0. It succeeds exactly for a rank-1 or rank-2 source with an image. On success: the sizes obey the factor-2 shape law and the options are copied. The dispatch is `hw_to_image2d` with the descriptor list of that call site. Slot 0 is the new tensor's image, written; slot 1 is the source's buffer, read; slot 2 is the uniform record. The new image's extents give both the work extent and the record's extents. The record follows the h2w2 addressing law for `plane` = last source dimension. |
| `Packing.UnpackH2W2` | aten/src/ATen/native/vulkan/ops/Packing.cpp:74-121 | The result fails with MissingImage when the source has no image. Otherwise it fails with RankTooSmall at rank 2 or below, and with EmptyShape when `output_sizes` is empty. It succeeds exactly otherwise. On success: the allocation is `output_sizes` with the source's options. The dispatch is `image2d_to_hw` with the descriptor list of that call site. Slot 0 is the source's image, read; slot 1 is the new tensor's buffer, written; slot 2 is the uniform record. The source's extents give both the work extent and the record's extents. The record follows the h2w2 law for `plane` = last requested size. |
| `Packing.PackHW4` | aten/src/ATen/native/vulkan/ops/Packing.cpp:123-185 | Same checks and binding contract as the h2w2 pack: the new image in slot 0 is written and the source's buffer in slot 1 is read. The sizes use factor 4, and the record follows the hw4 law: block = plane, offsets 0..3, stride 4. |
| `Packing.UnpackHW4` | aten/src/ATen/native/vulkan/ops/Packing.cpp:187-234 | Same checks and binding contract as the h2w2 unpack: the source's image in slot 0 is read and the new tensor's buffer in slot 1 is written. The record follows the hw4 law for `plane` = last requested size. |
| `Packing.Unpack1x1` | aten/src/ATen/native/vulkan/ops/Packing.cpp:236-268 | It never fails. The allocation is `output_sizes` with the source's options. The dispatch is `image1x1_to_buffer`. Slot 0 is the source's image, read; slot 1 is the new tensor's buffer, written. The record holds only the extents, and these equal the work extent and come from the source. |
| `PackingProperties.PackedSizesAreCeilings` | aten/src/ATen/native/vulkan/ops/Packing.cpp:129-147 | Any result meeting the pack contract has sizes exactly `[4, ceil(H/f), ceil(W/f)]` for rank 2 and `[4, 1, ceil(L/f)]` for rank 1, when the sizes fit in 32 bits. |
| `PackingProperties.AddressesIsSourceRecord` | aten/src/ATen/native/vulkan/ops/Packing.cpp:148-164 | The addressing law pins down the whole record apart from its extents. That record is the literal one in the code: `{0,1,plane,plane+1}`, block `2*plane`, stride 2 for h2w2; `{0,1,2,3}`, block `plane`, stride 4 for hw4. |
| `PackingProperties.OffsetsDistinctIff` | aten/src/ATen/native/vulkan/ops/Packing.cpp:41-51 | The four offsets are pairwise distinct in two cases, and only these. For hw4 they always are. For h2w2 they are exactly when `2 <= plane < 2^32 - 1`. |
| `PackingProperties.BoundPreventsWrap` | aten/src/ATen/native/vulkan/ops/Packing.cpp:84-100 | Below 2^31 the 32-bit block and offsets equal their unbounded values. |
| `PackingProperties.H2W2BlockWrapsAtBound` | aten/src/ATen/native/vulkan/ops/Packing.cpp:43 | At `plane = 2^31` the h2w2 block `2u * plane` wraps to 0, so the 2^31 bound cannot be raised. |
| `PackingProperties.PackBindingsFixed` | aten/src/ATen/native/vulkan/ops/Packing.cpp:53-69 | Any launch meeting the pack contract binds exactly the new tensor's image for writing, then the source's buffer for reading, then the uniform record. |
| `PackingProperties.UnpackBindingsFixed` | aten/src/ATen/native/vulkan/ops/Packing.cpp:102-118 | Any launch meeting the unpack contract, blocked or 1x1, binds exactly the source's image for reading, then the new tensor's buffer for writing, then the uniform record. |
| `PackingProperties.PackUnpackExclusive` | aten/src/ATen/native/vulkan/ops/Packing.cpp:74-76 | No source passes both the pack rank check and the unpack rank check. |
| `PackingProperties.UnpackMirrorsPack` | aten/src/ATen/native/vulkan/ops/Packing.cpp:197-231 | Take a successful pack, give its image to the unpack of the same scheme, and request the original sizes. The unpack then succeeds and allocates exactly those sizes and options. It reuses the pack's record and work extent unchanged. It binds the same resources in the same order with role and access reversed. |
| `PackingProperties.ScalarPassesPackRankCheck` | aten/src/ATen/native/vulkan/ops/Packing.cpp:10-24 | An empty size list passes the rank check as written, although index `height` is out of range. The model's pack rejects it with EmptyShape. |
| `PackingProperties.EmptyRequestPassesUnpackChecks` | aten/src/ATen/native/vulkan/ops/Packing.cpp:74-84 | A source with an image and three dimensions passes the unpack checks as written with an empty request, although index `size() - 1` of that request is out of range. The model's unpack rejects it with EmptyShape. |
| `PackingProperties.WorkedShapes` | aten/src/ATen/native/vulkan/ops/Packing.cpp:123-164 | hw4 packs `(4, 6)` into `(4, 1, 2)` with block 6. h2w2 packs `(5, 5)` into `(4, 3, 3)` with block 10 and offsets `{0, 1, 5, 6}`. hw4 packs `(4, 2^32)` into `(4, 1, 2^30)`, and `[4, 1, 0]` does not meet the shape law there. The packed sizes do not wrap, but `plane` narrows to 0 and so does the block. A 1x1 unpack to `(4)` allocates `(4)`. |

## Left out

- The Vulkan dispatch machinery is not modelled: command buffers, the pipeline stage and barriers, and the uniform pool. Each dispatch appears only as the returned `Dispatch` record. Every resource in the code is requested for the compute stage, so the model drops the stage.
- The kernel bodies (`hw_to_image2d`, `image2d_to_hw`, `image1x1_to_buffer`) are not part of this model. So the model does not state the element-level round trip, which channel holds which element, or the padding for sizes that are not a multiple of the factor. Only the arithmetic in this file is stated.
- How `vTensor` computes `extents()`, `has_image()` and `options()` is outside this file. Extents are an uninterpreted function of sizes. `has_image` is a field of the source. Options are an opaque value that is only copied.
- Sizes are `nat`, so the model does not bound them to int64. Only the narrowing to `uint32_t` is modelled.
- Entries of `output_sizes` are taken as non-negative. The code does not check them; an `int64_t` entry below zero is left to the `vTensor` constructor, which is outside this file. A negative last entry would give `plane = 2^32 + x` at lines 84 and 197, and the model does not represent it.
- Whether the newly packed tensor has an image is decided by `vTensor`. `PackingProperties.UnpackMirrorsPack` takes it as given.
- The error message strings are not modelled, only which check fails. The messages at lines 76 and 189 describe the wrong condition.
- `PackingProperties.UnpackMirrorsPack` is stated about the uniform record and bindings only. It does not state that unpack restores the data, because the kernels are not part of this model.

## Findings

| source | as written | input that shows it | evidently intended | confidence | as-written member | corrected member |
|---|---|---|---|---|---|---|
| aten/src/ATen/native/vulkan/ops/Packing.cpp:12-24 | The rank check `sizes().size() <= 2` admits rank 0. The else branch then reads `sizes()[height]` of an empty list. | A source with an image and sizes `[]` | Reject rank 0: only rank 1 or 2 can be packed | medium, not executed | `PackingProperties.ScalarPassesPackRankCheck` | `Packing.PackH2W2` |
| aten/src/ATen/native/vulkan/ops/Packing.cpp:125-137 | The hw4 pack has the same `<= 2` check and the same read of `sizes()[height]`. | A source with an image and sizes `[]` | Reject rank 0: only rank 1 or 2 can be packed | medium, not executed | `PackingProperties.ScalarPassesPackRankCheck` | `Packing.PackHW4` |
| aten/src/ATen/native/vulkan/ops/Packing.cpp:75-84 | Nothing checks `output_sizes`. `plane` is read at `output_sizes[output_sizes.size() - 1]`, which is out of range for an empty list. | A source with an image and sizes `[4, 1, 1]`, and `output_sizes` = `[]` | Reject an empty request | low, not executed | `PackingProperties.EmptyRequestPassesUnpackChecks` | `Packing.UnpackH2W2` |
| aten/src/ATen/native/vulkan/ops/Packing.cpp:188-197 | The hw4 unpack reads `plane` from the empty request in the same way. | A source with an image and sizes `[4, 1, 1]`, and `output_sizes` = `[]` | Reject an empty request | low, not executed | `PackingProperties.EmptyRequestPassesUnpackChecks` | `Packing.UnpackHW4` |
