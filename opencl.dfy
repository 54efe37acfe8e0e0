/** The slice of the OpenCL runtime that the convolution's upload path talks to:
    status values, the data types and storage kinds of a linear storage, device
    buffers, and the two allocation calls. The allocations themselves are device
    work outside this model; a context answers each request through `answer`, a
    function of every request made of it so far, and keeps that request log. */
module OpenCL {

  /** The status every upload step returns. */
  datatype Status = OkStatus | ErrorStatus(message: string)

  /** Element data types a linear storage can hold on the device. */
  datatype DataType = Float16 | Float32

  /** Where a linear storage lives on the device. */
  datatype LinearStorageType = BufferStorage | Texture2DStorage

  /** How a linear storage is to be created. */
  datatype LinearStorageCreateInfo = LinearStorageCreateInfo(
    storageType: LinearStorageType,
    dataType: DataType,
    alignedSize: int)

  /** A one-dimensional host tensor, such as a bias vector. */
  datatype LinearTensor<S> = LinearTensor(data: seq<S>)

  /** One allocation asked of the device: its kind, its size in bytes or its
      description, and how many host elements were handed over with it. */
  datatype Request =
    | ReadOnlyBufferRequest(sizeInBytes: int, elements: nat)
    | LinearStorageRequest(info: LinearStorageCreateInfo, elements: nat)

  /** An OpenCL context. */
  class CLContext {
    /** Every allocation requested through this context, oldest first. */
    var requests: seq<Request>
    /** The device's status for the newest request, given the whole log. */
    const answer: seq<Request> -> Status

    constructor (answer: seq<Request> -> Status)
      ensures requests == [] && this.answer == answer
    {
      requests := [];
      this.answer := answer;
    }
  }

  /** A read-only device buffer; `contents` is the host data copied into it. */
  class Buffer<V> {
    var sizeInBytes: int
    var contents: seq<V>

    constructor ()
      ensures sizeInBytes == 0 && contents == []
    {
      sizeInBytes := 0;
      contents := [];
    }
  }

  /** A device-side linear storage and the values copied into it. */
  class LinearStorage<S> {
    var info: LinearStorageCreateInfo
    var values: seq<S>

    constructor ()
      ensures info == LinearStorageCreateInfo(BufferStorage, Float32, 0) && values == []
    {
      info := LinearStorageCreateInfo(BufferStorage, Float32, 0);
      values := [];
    }
  }

  /** Requests a read-only buffer of `sizeInBytes` initialised from `data`. On
      success `result` holds the new buffer; on failure it is left as it was. */
  method CreateReadOnlyBuffer<V>(sizeInBytes: int, data: array<V>, context: CLContext, result: Buffer<V>)
    returns (status: Status)
    modifies context, result
    ensures context.requests == old(context.requests) + [ReadOnlyBufferRequest(sizeInBytes, data.Length)]
    ensures status == context.answer(context.requests)
    ensures status.OkStatus? ==> result.sizeInBytes == sizeInBytes && result.contents == data[..]
    ensures !status.OkStatus? ==> unchanged(result)
  {
    context.requests := context.requests + [ReadOnlyBufferRequest(sizeInBytes, data.Length)];
    status := context.answer(context.requests);
    if status.OkStatus? {
      result.sizeInBytes := sizeInBytes;
      result.contents := data[..];
    }
  }

  /** Requests a linear storage described by `info` and filled from `tensor`. On
      success `result` holds the new storage; on failure it is left as it was. */
  method CreateLinearStorage<S>(info: LinearStorageCreateInfo, tensor: LinearTensor<S>, context: CLContext,
                                result: LinearStorage<S>)
    returns (status: Status)
    modifies context, result
    ensures context.requests == old(context.requests) + [LinearStorageRequest(info, |tensor.data|)]
    ensures status == context.answer(context.requests)
    ensures status.OkStatus? ==> result.info == info && result.values == tensor.data
    ensures !status.OkStatus? ==> unchanged(result)
  {
    context.requests := context.requests + [LinearStorageRequest(info, |tensor.data|)];
    status := context.answer(context.requests);
    if status.OkStatus? {
      result.info := info;
      result.values := tensor.data;
    }
  }
}
