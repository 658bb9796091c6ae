/** The part of the Tensor container the Dense layer touches: a host buffer and, for the GPU
    path, whether a GL texture mirror exists, its shape, and how often it was read back. */
module Tensors {
  import opened LinAlg

  /** A one-dimensional tensor (an input, the bias, or a working buffer). */
  class Tensor {
    const data: array<int>
    var glTexture: bool
    var glTextureShape: seq<nat>
    var transfers: nat

    /** `new Tensor([], [n])`: a zero-filled buffer of n elements, host only. */
    constructor Zeros(n: nat)
      ensures fresh(data) && data[..] == LinAlg.Zeros(n)
      ensures !glTexture && glTextureShape == [] && transfers == 0
    {
      data := new int[n](_ => 0);
      glTexture, glTextureShape, transfers := false, [], 0;
    }

    /** `new Tensor(values, [|values|])`. */
    constructor FromValues(values: seq<int>)
      ensures fresh(data) && data[..] == values
      ensures !glTexture && glTextureShape == [] && transfers == 0
    {
      data := new int[|values|](k requires 0 <= k < |values| => values[k]);
      glTexture, glTextureShape, transfers := false, [], 0;
    }

    /** `createGLTexture()`: creates the GPU mirror; a vector is laid out as one row. */
    method CreateGLTexture()
      modifies this
      ensures glTexture && glTextureShape == [1, data.Length] && transfers == old(transfers)
    {
      glTexture, glTextureShape := true, [1, data.Length];
    }

    /** `transferFromGLTexture()`: one readback of the GPU mirror into the host buffer. The values
        the GPU computed are not modelled, so the host contents afterwards are left unknown; the
        readback itself is recorded. */
    method TransferFromGLTexture()
      requires glTexture
      modifies this, data
      ensures glTexture && glTextureShape == old(glTextureShape)
      ensures transfers == old(transfers) + 1
    {
      transfers := transfers + 1;
    }
  }

  /** A two-dimensional tensor: the kernel, stored as `[input_dim, units]`. */
  class Matrix {
    const data: array2<int>
    var glTexture: bool
    var glTextureShape: seq<nat>

    constructor (data: array2<int>)
      ensures this.data == data && !glTexture && glTextureShape == []
    {
      this.data := data;
      glTexture, glTextureShape := false, [];
    }

    /** `createGLTexture()` on a matrix: the mirror has the matrix's own shape. */
    method CreateGLTexture()
      modifies this
      ensures glTexture && glTextureShape == [data.Length0, data.Length1]
    {
      glTexture, glTextureShape := true, [data.Length0, data.Length1];
    }
  }
}
