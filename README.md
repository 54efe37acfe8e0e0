# ConvPowerVR weight and bias upload, in Dafny

This project models how TensorFlow Lite's OpenCL delegate uploads the weights and biases of its
PowerVR-tuned convolution, `ConvPowerVR`, declared in
`tensorflow/lite/delegates/gpu/cl/kernels/conv_powervr.h`.

- `UploadWeights` groups the output and input channels of an OHWI weight tensor into 4-channel
  slices. The number of output slices is rounded up to a multiple of the tiling's `block_size.z`.
  The packed buffer holds `h * w * src_depth * dst_depth_aligned * 4` four-lane vectors. They are
  `float4` (16 bytes) unless the precision is F16, and `half4` (8 bytes) under F16. The buffer is
  filled by the weight rearrangement and handed to a read-only buffer allocation.
- `UploadData` uploads the weights first and returns at once if that fails. It then requests a
  linear buffer storage for the biases. Its data type follows the same precision rule, and its
  aligned size is the raw output-channel count.
- `ConvParams` and `WeightsUploadType` are plain datatypes.

Layout:

- `util.dfy` (module `GpuUtil`): `IntegralDivideRoundUp` and `AlignByN`, a block-by-block reference
  definition of rounding up (`RoundUpToMultiple`), and their ceiling and
  alignment laws.
- `opencl.dfy` (module `OpenCL`): status values, data types, device buffers and linear storages,
  and the two allocation calls. A `CLContext` keeps a log of every allocation requested of it.
  It answers each request through `answer`, a function of that log, which stands in for the device.
- `conv_powervr.dfy` (module `ConvPowerVRKernel`): the configuration datatypes and the sizing
  functions with their lemmas. It also holds the class `ConvPowerVR` with `UploadWeights` and
  `UploadData`.

`util.h` is not part of this model. Its two helpers are defined here by their usual meaning,
`IntegralDivideRoundUp(n, d) = (n + d - 1) / d` and `AlignByN(n, N) = IntegralDivideRoundUp(n, N) * N`.

With O=8, H=W=3, I=4 and block 4, `dst_depth` is 2 and `AlignByN(2, 4)` is 4, so 144 vectors are
packed (`ExampleEightByFour`). The bias storage's aligned size is `weights.shape.o` itself, not the
aligned depth (`BiasStorageIsUnalignedBuffer`).

## Model

| member | source | states |
|---|---|---|
| `GpuUtil.DivideRoundUpIsCeiling` | tensorflow/lite/delegates/gpu/cl/kernels/conv_powervr.h:139-140 | the rounded-up quotient `q` is the least with `q * d >= n`: `q * d >= n` and `(q - 1) * d < n` |
| `GpuUtil.RoundUpToMultiple` | tensorflow/lite/delegates/gpu/cl/kernels/conv_powervr.h:145 | reference definition of rounding up, one block per started block: its result is a multiple of the block, at least `n` and less than `n + N` |
| `GpuUtil.AlignByNMatchesRoundUp` | tensorflow/lite/delegates/gpu/cl/kernels/conv_powervr.h:145 | `AlignByN(n, N)` equals the reference `RoundUpToMultiple(n, N)` for every `n` and every `N > 0` |
| `GpuUtil.AlignByNBounds` | tensorflow/lite/delegates/gpu/cl/kernels/conv_powervr.h:145 | `AlignByN(n, N)` is a multiple of `N`, at least `n`, and less than `n + N` |
| `GpuUtil.AlignByNFixesMultiples` | tensorflow/lite/delegates/gpu/cl/kernels/conv_powervr.h:145 | `AlignByN(n, N) == n` exactly when `n % N == 0`, in both directions |
| `GpuUtil.AlignByNIdempotent` | tensorflow/lite/delegates/gpu/cl/kernels/conv_powervr.h:145 | aligning an aligned count again changes nothing |
| `ConvPowerVRKernel.DstDepth` | tensorflow/lite/delegates/gpu/cl/kernels/conv_powervr.h:139 | `dst_depth` is the ceiling of `o / 4`: `4 * dst_depth >= o` and `4 * (dst_depth - 1) < o` |
| `ConvPowerVRKernel.SrcDepth` | tensorflow/lite/delegates/gpu/cl/kernels/conv_powervr.h:140 | `src_depth` is the ceiling of `i / 4`, with the same two bounds |
| `ConvPowerVRKernel.DstDepthAligned` | tensorflow/lite/delegates/gpu/cl/kernels/conv_powervr.h:145 | `dst_depth_aligned` is a multiple of `block_size.z`, with `dst_depth <= dst_depth_aligned < dst_depth + block_size.z`; it equals `dst_depth` exactly when `dst_depth` is a multiple of `block_size.z` |
| `ConvPowerVRKernel.ElementsCountCoversTensor` | tensorflow/lite/delegates/gpu/cl/kernels/conv_powervr.h:146-147 | the vector lanes of the packed buffer are `h * w * (4 * src_depth) * (4 * dst_depth_aligned)`, which is at least `h * w * i * o`, so every weight has a slot |
| `ConvPowerVRKernel.ElementsCountIsWholeBlocks` | tensorflow/lite/delegates/gpu/cl/kernels/conv_powervr.h:145-147 | `elements_count` is a multiple of `4 * block_size.z`: the buffer is made of whole output blocks |
| `ConvPowerVRKernel.ElementsCountZero` | tensorflow/lite/delegates/gpu/cl/kernels/conv_powervr.h:146-147 | `elements_count` is zero exactly when one of `o`, `h`, `w`, `i` is zero |
| `ConvPowerVRKernel.WeightsByteSizeByPrecision` | tensorflow/lite/delegates/gpu/cl/kernels/conv_powervr.h:142-160 | the weight buffer's byte size is `16 * elements_count` when precision is not F16 and `8 * elements_count` under F16 |
| `ConvPowerVRKernel.BiasPrecisionMatchesWeights` | tensorflow/lite/delegates/gpu/cl/kernels/conv_powervr.h:128-143 | the bias data type is FLOAT16 exactly when the weights are packed as `half4`; a packed vector is four values of the bias data type |
| `ConvPowerVRKernel.BiasStorageIsUnalignedBuffer` | tensorflow/lite/delegates/gpu/cl/kernels/conv_powervr.h:127-131 | the bias storage is a BUFFER and its aligned size is the raw `weights.shape.o` |
| `ConvPowerVRKernel.ExampleEightByFour` | tensorflow/lite/delegates/gpu/cl/kernels/conv_powervr.h:139-147 | o=8, i=4, h=w=3, block 4 gives dst_depth 2, src_depth 1, aligned 4, 144 vectors, 2304 bytes in F32 and 1152 in F16 |
| `ConvPowerVRKernel.ExampleFiveOutputs` | tensorflow/lite/delegates/gpu/cl/kernels/conv_powervr.h:139-145 | five output channels give two slices, padded to four by a block of 4, and a bias storage of size 5 |
| `ConvPowerVRKernel.RearrangeWeightsToOHWIOGroupI4O4` | tensorflow/lite/delegates/gpu/cl/kernels/conv_powervr.h:151-152 | every slot of the target span, and no other, receives the remapped vector for its position |
| `ConvPowerVRKernel.ConvPowerVR.UploadWeights` | tensorflow/lite/delegates/gpu/cl/kernels/conv_powervr.h:137-162 | exactly one read-only buffer request is made, of `Float4Size * elements_count` bytes with `elements_count` host vectors. Its status is returned unchanged. On success the buffer holds exactly the `elements_count` rearranged vectors, and on failure it is untouched |
| `ConvPowerVRKernel.ConvPowerVR.UploadData` | tensorflow/lite/delegates/gpu/cl/kernels/conv_powervr.h:121-134 | if the weight upload fails, its status is returned unchanged, no bias storage is requested and nothing else changes. Otherwise exactly one bias request follows, with the precision's data type, BUFFER storage and aligned size `o`, and its status is returned. The result is Ok exactly when both requests succeeded. The bias storage holds the biases only on success |
| `OpenCL.CreateReadOnlyBuffer` | tensorflow/lite/delegates/gpu/cl/kernels/conv_powervr.h:153-154 | the request is logged with its byte size and element count, and the device's answer is returned. On success the buffer holds the size and the host data; on failure it is unchanged |
| `OpenCL.CreateLinearStorage` | tensorflow/lite/delegates/gpu/cl/kernels/conv_powervr.h:132 | the request is logged with its description and value count, and the device's answer is returned. On success the storage holds the description and the values; on failure it is unchanged |

## Left out

- `GuessBestParams`, `GetGridSize`, `BindArguments`, `Tune`, `Compile` and `AddToQueue` are only declared in the header, with no body to model.
- `RearrangeWeightsToOHWIOGroupI4O4`: its element remap is not in the header. The model takes it as the parameter `remap`, a call into code outside this model. The contract says only that the whole target span of `elements_count` vectors is written with the remap's output.
- `OpenCL.CreateReadOnlyBuffer` and `OpenCL.CreateLinearStorage` are OpenCL device allocation. Their success or failure is the context's `answer` function, not device memory.
- The float and half value conversion is floating point. Packed vectors are an opaque type `V`, and the two precision branches of `UploadWeights` become one path that differs only in the byte width.
- `ConvPowerVRKernel.ConvPowerVR.UploadWeights` does not model C++ 32-bit `int` overflow of `elements_count` or of the byte size, because the model's integers are unbounded.
- Tensor extents are natural numbers. For them C++'s truncating division and Dafny's Euclidean division agree.
- The move-only constructors and assignment are C++ ownership mechanics. The model gives each `ConvPowerVR` its own freshly allocated buffer and storage objects.
- `stride_padding_`, `kernel_dilation_` and `kernel_` are not read or written by `UploadData` or `UploadWeights`, so the class leaves them out.
- The kernel source generator `GenerateConvPowerVR1x1`, the `CreateConvPowerVR` factories and the two attribute constructors are declared without bodies.
