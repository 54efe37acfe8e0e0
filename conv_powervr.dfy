/** The weight and bias upload path of the PowerVR-tuned convolution kernel.
    The OHWI weight tensor is packed into groups of 4 input by 4 output
    channels, the output-channel groups padded to whole blocks of the tiling's
    `block_size.z`, and copied into a read-only device buffer whose element
    width follows the calculation precision; the biases go into a linear
    buffer storage of the same precision. */
module ConvPowerVRKernel {
  import opened GpuUtil
  import opened OpenCL

  /** A triple of integers (OpenCL's `int3`). */
  datatype Int3 = Int3(x: int, y: int, z: int)

  /** How the kernel brings weights close to the compute units. */
  datatype WeightsUploadType =
    | LocalMemAsyncSubgroup  // used for PowerVR with work-group size 32
    | LocalMemByThreads
    | GlobalMem

  /** The tiling chosen for one convolution. */
  datatype ConvParams = ConvParams(
    blockSize: Int3,
    workGroupSize: Int3,
    workGroupLaunchOrder: Int3,
    srcDepthLoopSize: int,
    weightsUploadType: WeightsUploadType,
    xKernelIs1: bool,
    yKernelIs1: bool)

  /** Precision the operation computes in. */
  datatype CalculationsPrecision = F32 | F32_F16 | F16

  /** The part of an operation's definition the upload path reads. */
  datatype OperationDef = OperationDef(precision: CalculationsPrecision)

  /** Extents of a weight tensor in OHWI order: output channels, height, width, input channels. */
  datatype Ohwi = Ohwi(o: nat, h: nat, w: nat, i: nat)

  /** A host weight tensor in OHWI layout. */
  datatype OhwiTensor<S> = OhwiTensor(shape: Ohwi, data: seq<S>)

  /** `sizeof(float4)` and `sizeof(half4)` in bytes. */
  const SizeOfFloat4: nat := 16
  const SizeOfHalf4: nat := 8

  /** Output channels in 4-channel groups: the ceiling of `o / 4`, enough groups for every
      output channel and no spare group. */
  function DstDepth(shape: Ohwi): (r: nat)
    ensures 4 * r >= shape.o
    ensures 4 * (r - 1) < shape.o
  {
    DivideRoundUpIsCeiling(shape.o, 4);
    IntegralDivideRoundUp(shape.o, 4)
  }

  /** Input channels in 4-channel groups: the ceiling of `i / 4`. */
  function SrcDepth(shape: Ohwi): (r: nat)
    ensures 4 * r >= shape.i
    ensures 4 * (r - 1) < shape.i
  {
    DivideRoundUpIsCeiling(shape.i, 4);
    IntegralDivideRoundUp(shape.i, 4)
  }

  /** Output-channel groups rounded up to whole blocks of `blockZ`: a multiple of `blockZ`
      that covers `DstDepth`, pads by less than one block, and is `DstDepth` itself exactly
      when no padding is needed. */
  function DstDepthAligned(shape: Ohwi, blockZ: int): (r: nat)
    requires blockZ > 0
    ensures r % blockZ == 0
    ensures DstDepth(shape) <= r < DstDepth(shape) + blockZ
    ensures r == DstDepth(shape) <==> DstDepth(shape) % blockZ == 0
  {
    AlignByNBounds(DstDepth(shape), blockZ);
    AlignByNFixesMultiples(DstDepth(shape), blockZ);
    AlignByN(DstDepth(shape), blockZ)
  }

  /** Number of 4-lane vectors in the packed weight buffer. */
  function ElementsCount(shape: Ohwi, blockZ: int): nat
    requires blockZ > 0
  {
    var s, d := SrcDepth(shape), DstDepthAligned(shape, blockZ);
    ProductIsNat(shape.h, shape.w, s, d);
    shape.h * shape.w * s * d * 4
  }

  lemma ProductIsNat(h: nat, w: nat, s: nat, d: nat)
    ensures h * w * s * d * 4 >= 0
  {
  }

  /** Weights are packed as 32-bit floats unless the precision is F16. */
  predicate F32Weights(precision: CalculationsPrecision)
  {
    precision != F16
  }

  /** Bytes of one packed 4-lane vector. */
  function Float4Size(precision: CalculationsPrecision): nat
  {
    if F32Weights(precision) then SizeOfFloat4 else SizeOfHalf4
  }

  /** Bytes of the packed weight buffer. */
  function WeightsByteSize(shape: Ohwi, blockZ: int, precision: CalculationsPrecision): int
    requires blockZ > 0
  {
    Float4Size(precision) * ElementsCount(shape, blockZ)
  }

  /** Bytes of one value of a device data type. */
  function SizeOf(t: DataType): nat
  {
    match t
    case Float16 => 2
    case Float32 => 4
  }

  /** The bias storage description built for a precision and a weight shape. */
  function BiasCreateInfo(precision: CalculationsPrecision, shape: Ohwi): LinearStorageCreateInfo
  {
    LinearStorageCreateInfo(
      BufferStorage,
      if precision == F16 then Float16 else Float32,
      shape.o)
  }

  /** The allocation `UploadWeights` asks of the device. */
  function WeightsRequest(shape: Ohwi, blockZ: int, precision: CalculationsPrecision): Request
    requires blockZ > 0
  {
    ReadOnlyBufferRequest(WeightsByteSize(shape, blockZ, precision), ElementsCount(shape, blockZ))
  }

  /** The allocation `UploadData` asks of the device for the biases. */
  function BiasRequest<S>(precision: CalculationsPrecision, shape: Ohwi, biases: LinearTensor<S>): Request
  {
    LinearStorageRequest(BiasCreateInfo(precision, shape), |biases.data|)
  }

  /** The OHWI-to-blocked remap is not part of this model: `remap(weights, outGroupSize, k)`
      stands for the vector it places at position `k` of the packed buffer. */
  type Remap<!S, V> = (OhwiTensor<S>, int, nat) -> V

  /** The first `n` vectors the remap produces. */
  function Rearranged<S, V>(weights: OhwiTensor<S>, outGroupSize: int, remap: Remap<S, V>, n: nat): seq<V>
  {
    seq(n, k requires 0 <= k < n => remap(weights, outGroupSize, k))
  }

  /** Fills the whole target span with the remapped weights; the span's length is the caller's choice. */
  method RearrangeWeightsToOHWIOGroupI4O4<S, V>(weights: OhwiTensor<S>, outGroupSize: int, remap: Remap<S, V>,
                                                dst: array<V>)
    modifies dst
    ensures dst[..] == Rearranged(weights, outGroupSize, remap, dst.Length)
  {
    forall k | 0 <= k < dst.Length {
      dst[k] := remap(weights, outGroupSize, k);
    }
  }

  /** The convolution operation: its definition, its tiling, and the device
      buffer and storage it owns for weights and biases. */
  class ConvPowerVR<S, V(0)> {
    const definition: OperationDef
    const convParams: ConvParams
    const weightsBuffer: Buffer<V>
    const biasStorage: LinearStorage<S>

    /** The tiling always has a positive output-channel block. */
    predicate Valid()
    {
      convParams.blockSize.z > 0
    }

    constructor (definition: OperationDef, convParams: ConvParams)
      requires convParams.blockSize.z > 0
      ensures Valid()
      ensures this.definition == definition && this.convParams == convParams
      ensures fresh(weightsBuffer) && weightsBuffer.sizeInBytes == 0 && weightsBuffer.contents == []
      ensures fresh(biasStorage) && biasStorage.values == []
    {
      this.definition := definition;
      this.convParams := convParams;
      weightsBuffer := new Buffer();
      biasStorage := new LinearStorage();
    }

    /** Packs `weights` and uploads them: one read-only buffer request whose size
        and element count follow the precision and the aligned depth; on success
        the buffer holds exactly the packed vectors, on failure it is untouched. */
    method UploadWeights(weights: OhwiTensor<S>, remap: Remap<S, V>, context: CLContext) returns (status: Status)
      requires Valid()
      modifies context, weightsBuffer
      ensures context.requests
           == old(context.requests) + [WeightsRequest(weights.shape, convParams.blockSize.z, definition.precision)]
      ensures status == context.answer(context.requests)
      ensures status.OkStatus? ==>
        weightsBuffer.sizeInBytes == WeightsByteSize(weights.shape, convParams.blockSize.z, definition.precision) &&
        weightsBuffer.contents
          == Rearranged(weights, convParams.blockSize.z, remap, ElementsCount(weights.shape, convParams.blockSize.z))
      ensures !status.OkStatus? ==> unchanged(weightsBuffer)
    {
      var dstDepth := IntegralDivideRoundUp(weights.shape.o, 4);
      var srcDepth := IntegralDivideRoundUp(weights.shape.i, 4);

      var f32Weights := definition.precision != F16;
      var float4Size := if f32Weights then SizeOfFloat4 else SizeOfHalf4;

      var dstDepthAligned := AlignByN(dstDepth, convParams.blockSize.z);
      var elementsCount := weights.shape.h * weights.shape.w * srcDepth * dstDepthAligned * 4;

      // The float4 and half4 branches differ only in the host vector type,
      // which this model leaves opaque, and in `float4Size`.
      var gpuData := new V[elementsCount];
      RearrangeWeightsToOHWIOGroupI4O4(weights, convParams.blockSize.z, remap, gpuData);
      status := CreateReadOnlyBuffer(float4Size * elementsCount, gpuData, context, weightsBuffer);
    }

    /** Uploads weights, then biases. A failed weight upload is returned as it
        is and no bias storage is requested; otherwise the bias storage is
        requested with the precision's data type and the raw output-channel
        count, and the result is Ok only when both allocations succeeded. */
    method UploadData(weights: OhwiTensor<S>, biases: LinearTensor<S>, remap: Remap<S, V>, context: CLContext)
      returns (status: Status)
      requires Valid()
      modifies context, weightsBuffer, biasStorage
      ensures var w := old(context.requests) + [WeightsRequest(weights.shape, convParams.blockSize.z, definition.precision)];
        var weightsStatus := context.answer(w);
        && (!weightsStatus.OkStatus? ==>
              status == weightsStatus && context.requests == w &&
              unchanged(weightsBuffer) && unchanged(biasStorage))
        && (weightsStatus.OkStatus? ==>
              context.requests == w + [BiasRequest(definition.precision, weights.shape, biases)] &&
              status == context.answer(context.requests) &&
              weightsBuffer.sizeInBytes == WeightsByteSize(weights.shape, convParams.blockSize.z, definition.precision) &&
              weightsBuffer.contents
                == Rearranged(weights, convParams.blockSize.z, remap, ElementsCount(weights.shape, convParams.blockSize.z)))
        && (status.OkStatus? <==> weightsStatus.OkStatus? && context.answer(context.requests).OkStatus?)
      ensures status.OkStatus? ==>
        biasStorage.info == BiasCreateInfo(definition.precision, weights.shape) && biasStorage.values == biases.data
      ensures !status.OkStatus? ==> unchanged(biasStorage)
    {
      status := UploadWeights(weights, remap, context);
      if !status.OkStatus? {
        return;
      }
      var createInfo := LinearStorageCreateInfo(
        BufferStorage,
        if definition.precision == F16 then Float16 else Float32,
        weights.shape.o);
      status := CreateLinearStorage(createInfo, biases, context, biasStorage);
      if !status.OkStatus? {
        return;
      }
      status := OkStatus;
    }
  }

  // ---------------------------------------------------------------------------
  // Properties of the sizing arithmetic

  /** Ring rearrangement of the element count, on plain numbers. */
  lemma LanesRegroup(h: nat, w: nat, s: nat, d: nat)
    ensures 4 * (h * w * s * d * 4) == h * w * (4 * s) * (4 * d)
  {
  }

  /** Larger factors give a larger product of four, on plain numbers. */
  lemma LanesCover(h: nat, w: nat, s: nat, d: nat, i: nat, o: nat)
    requires i <= s && o <= d
    ensures h * w * i * o <= h * w * s * d
  {
  }

  /** The packed buffer has a lane for every weight of the tensor: its `4 * ElementsCount` vector
      lanes hold `h * w * (4 * SrcDepth) * (4 * DstDepthAligned)` slots. */
  lemma ElementsCountCoversTensor(shape: Ohwi, blockZ: int)
    requires blockZ > 0
    ensures 4 * ElementsCount(shape, blockZ)
         == shape.h * shape.w * (4 * SrcDepth(shape)) * (4 * DstDepthAligned(shape, blockZ))
    ensures 4 * ElementsCount(shape, blockZ) >= shape.h * shape.w * shape.i * shape.o
  {
    var s, d := SrcDepth(shape), DstDepthAligned(shape, blockZ);
    LanesRegroup(shape.h, shape.w, s, d);
    LanesCover(shape.h, shape.w, 4 * s, 4 * d, shape.i, shape.o);
  }

  /** The packed buffer is made of whole output blocks: its length is a multiple of `4 * blockZ`. */
  lemma ElementsCountIsWholeBlocks(shape: Ohwi, blockZ: int)
    requires blockZ > 0
    ensures ElementsCount(shape, blockZ) % (4 * blockZ) == 0
  {
    var d := DstDepthAligned(shape, blockZ);
    var q := d / blockZ;
    assert d == q * blockZ;
    var k := shape.h * shape.w * SrcDepth(shape) * q;
    assert ElementsCount(shape, blockZ) == k * (4 * blockZ);
    DivModUnique(ElementsCount(shape, blockZ), 4 * blockZ, k, 0);
  }

  /** The packed buffer is empty exactly when the weight tensor has an empty extent. */
  lemma ElementsCountZero(shape: Ohwi, blockZ: int)
    requires blockZ > 0
    ensures ElementsCount(shape, blockZ) == 0 <==> shape.o == 0 || shape.h == 0 || shape.w == 0 || shape.i == 0
  {
    var s, d := SrcDepth(shape), DstDepthAligned(shape, blockZ);
    assert s == 0 <==> shape.i == 0;
    assert d == 0 <==> DstDepth(shape) == 0;
    assert DstDepth(shape) == 0 <==> shape.o == 0;
    if ElementsCount(shape, blockZ) == 0 {
      assert shape.h * shape.w * s * d == 0;
    }
  }

  /** The weight buffer takes 16 bytes per vector unless the precision is F16, and 8 bytes under F16. */
  lemma WeightsByteSizeByPrecision(shape: Ohwi, blockZ: int, precision: CalculationsPrecision)
    requires blockZ > 0
    ensures precision != F16 ==> WeightsByteSize(shape, blockZ, precision) == 16 * ElementsCount(shape, blockZ)
    ensures precision == F16 ==> WeightsByteSize(shape, blockZ, precision) == 8 * ElementsCount(shape, blockZ)
  {
  }

  /** Weights and biases use the same precision rule: the bias storage is FLOAT16 exactly when the
      weights are packed as half4, and a packed vector is four values of the bias data type. */
  lemma BiasPrecisionMatchesWeights(precision: CalculationsPrecision, shape: Ohwi)
    ensures BiasCreateInfo(precision, shape).dataType == Float16 <==> !F32Weights(precision)
    ensures Float4Size(precision) == 4 * SizeOf(BiasCreateInfo(precision, shape).dataType)
  {
  }

  /** The bias storage is a plain buffer sized by the raw output-channel count, not by the aligned depth. */
  lemma BiasStorageIsUnalignedBuffer(precision: CalculationsPrecision, shape: Ohwi)
    ensures BiasCreateInfo(precision, shape).storageType == BufferStorage
    ensures BiasCreateInfo(precision, shape).alignedSize == shape.o
  {
  }

  /** Eight output and four input channels on a 3x3 kernel with blocks of 4 output groups:
      2 output groups, padded to 4, give 144 vectors. */
  lemma ExampleEightByFour()
    ensures DstDepth(Ohwi(8, 3, 3, 4)) == 2
    ensures SrcDepth(Ohwi(8, 3, 3, 4)) == 1
    ensures DstDepthAligned(Ohwi(8, 3, 3, 4), 4) == 4
    ensures ElementsCount(Ohwi(8, 3, 3, 4), 4) == 144
    ensures WeightsByteSize(Ohwi(8, 3, 3, 4), 4, F32) == 2304
    ensures WeightsByteSize(Ohwi(8, 3, 3, 4), 4, F16) == 1152
  {
  }

  /** Five output channels still need two groups; with blocks of 4 they are padded to 4. */
  lemma ExampleFiveOutputs()
    ensures DstDepth(Ohwi(5, 1, 1, 4)) == 2
    ensures DstDepthAligned(Ohwi(5, 1, 1, 4), 4) == 4
    ensures BiasCreateInfo(F32, Ohwi(5, 1, 1, 4)).alignedSize == 5
  {
  }
}
