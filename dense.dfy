/** The Dense (fully-connected) layer: output = activation(bias + kernelᵀ·x), computed either on
    the CPU with ndarray operations or on the GPU with two WebGL programs. */
module Dense {
  import opened Wrappers
  import opened LinAlg
  import opened NdArray
  import opened Activations
  import opened Tensors
  import opened WebGL

  /** The layer's config attributes; `None` is an attribute left undefined (or, for
      `input_dim`, given as null). */
  datatype Attrs = Attrs(units: Option<nat>, activation: Option<string>, inputDim: Option<int>, useBias: Option<bool>)

  const MatMulSource := "matMul.glsl"

  /** The shader source of an activation, looked up by its name. */
  function ActivationSource(activation: string): string {
    "activations/" + activation + ".glsl"
  }

  /** JavaScript truthiness of `input_dim`: null and 0 are falsy. */
  predicate Truthy(d: Option<int>) {
    d.Some? && d.value != 0
  }

  /** Some input named `name` binds `texture` as a 2d texture. */
  predicate Binds(inputs: seq<TextureInput>, name: string, texture: object?) {
    exists k :: 0 <= k < |inputs| && inputs[k] == TextureInput(texture, "2d", name)
  }

  /** Some input is named `name`. */
  predicate HasInput(inputs: seq<TextureInput>, name: string) {
    exists k :: 0 <= k < |inputs| && inputs[k].name == name
  }

  /** Entry j of a CPU call's result: the activation of the seed's entry j plus column j of
      kernelᵀx. With the bias as seed that is `act(bias[j] + Σ_i kernel[i][j]·x[i])`; without,
      the seed is what the buffer held before the call. */
  lemma CpuOutputAt(f: int -> int, K: seq<seq<int>>, x: seq<int>, seed: seq<int>, j: nat)
    requires Shaped(K, |x|, |seed|) && j < |seed|
    ensures |Apply(f, Gemv(1, K, x, 1, seed))| == |seed|
    ensures Apply(f, Gemv(1, K, x, 1, seed))[j] == f(seed[j] + Dot(K, x, j, |x|))
  {
  }

  /** With a bias, a CPU call's result is the activation of `bias + kernelᵀx`, whatever the
      buffer held; with `linear` it is `bias + kernelᵀx` itself. */
  lemma BiasedCpuOutput(f: int -> int, K: seq<seq<int>>, x: seq<int>, bias: seq<int>)
    requires Shaped(K, |x|, |bias|)
    ensures Apply(f, Gemv(1, K, x, 1, bias)) == Apply(f, Add(bias, MatTVec(K, x, |bias|)))
    ensures (forall v :: f(v) == v) ==> Apply(f, Gemv(1, K, x, 1, bias)) == Add(bias, MatTVec(K, x, |bias|))
  {
    GemvSeeded(K, x, bias);
    if forall v :: f(v) == v {
      LinearIsIdentity(f, Add(bias, MatTVec(K, x, |bias|)));
    }
  }

  class Dense {
    const layerClass: string
    const activation: string
    const activationFunc: int -> int
    const units: nat
    const inputDim: Option<int>
    const useBias: bool
    const params: seq<string>
    const inputShape: Option<seq<int>>
    const gpu: bool
    const gl: WebGL2
    const matMulProgram: Option<Program>
    const activationProgram: Option<Program>
    const outputPreactiv: Tensor
    var output: Tensor
    // Supplied by the layer base class and the model's graph wiring.
    var outbound: seq<string>
    var kernel: Matrix?
    var bias: Tensor?

    ghost predicate Valid()
      reads this, output, outputPreactiv
    {
      output.data.Length == units && outputPreactiv.data.Length == units &&
      (activation == "linear" ==> forall v :: activationFunc(v) == v) &&
      (gpu <==> matMulProgram.Some?) && (gpu <==> activationProgram.Some?) &&
      (gpu ==> output.glTexture && outputPreactiv.glTexture) &&
      (output == outputPreactiv ==> gpu && activation == "linear") &&
      (output != outputPreactiv ==> output.data != outputPreactiv.data)
    }

    /** What a call on x needs: weights loaded with the configured shapes (and their GPU
        mirrors on the GPU path), an input as wide as the kernel, and an input that is not one
        of the layer's own buffers. */
    ghost predicate Ready(x: Tensor)
      reads this, x, kernel, bias
    {
      kernel != null && kernel.data.Length0 == x.data.Length && kernel.data.Length1 == units &&
      x != output && x != outputPreactiv && x.data != output.data &&
      (useBias ==> bias != null && bias.data.Length == units &&
                   bias != output && bias != outputPreactiv && bias.data != output.data) &&
      (gpu ==> kernel.glTexture && |kernel.glTextureShape| == 2 && (useBias ==> bias != null && bias.glTexture) &&
               (x.glTexture ==> |x.glTextureShape| == 2))
    }

    /** Resolves the attributes' defaults (units 1, activation linear, input_dim null,
        use_bias true), allocates the two `[units]` buffers and, on the GPU, compiles the two
        programs once and gives both buffers a texture. */
    constructor (attrs: Attrs, gpu: bool, outbound: seq<string>, activations: string -> (int -> int), gl: WebGL2)
      requires forall v :: activations("linear")(v) == v
      modifies gl
      ensures Valid()
      ensures layerClass == "Dense"
      ensures units == attrs.units.GetOr(1) && activation == attrs.activation.GetOr("linear")
      ensures inputDim == attrs.inputDim && useBias == attrs.useBias.GetOr(true)
      ensures activationFunc == activations(activation)
      ensures params == if useBias then ["kernel", "bias"] else ["kernel"]
      ensures inputShape == if Truthy(inputDim) then Some([inputDim.value]) else None
      ensures fresh(output) && fresh(outputPreactiv) && fresh(output.data) && fresh(outputPreactiv.data)
      ensures output != outputPreactiv && output.data != outputPreactiv.data
      ensures output.data[..] == LinAlg.Zeros(units) && outputPreactiv.data[..] == LinAlg.Zeros(units)
      ensures output.transfers == 0 && outputPreactiv.transfers == 0
      ensures this.gpu == gpu && this.outbound == outbound && this.gl == gl
      ensures kernel == null && bias == null
      ensures gl.runs == old(gl.runs)
      ensures gpu ==> matMulProgram == Some(Program(MatMulSource)) &&
                      activationProgram == Some(Program(ActivationSource(activation))) &&
                      gl.programs == old(gl.programs) + [matMulProgram.value, activationProgram.value] &&
                      output.glTexture && outputPreactiv.glTexture
      ensures !gpu ==> gl.programs == old(gl.programs) && !output.glTexture && !outputPreactiv.glTexture
    {
      layerClass := "Dense";
      var act := attrs.activation.GetOr("linear");
      activation := act;
      activationFunc := activations(act);
      var n := attrs.units.GetOr(1);
      units := n;
      inputDim := attrs.inputDim;
      var withBias := attrs.useBias.GetOr(true);
      useBias := withBias;
      params := if withBias then ["kernel", "bias"] else ["kernel"];
      inputShape := if Truthy(attrs.inputDim) then Some([attrs.inputDim.value]) else None;
      var pre := new Tensor.Zeros(n);
      outputPreactiv := pre;
      output := new Tensor.Zeros(n);
      this.gpu := gpu;
      this.gl := gl;
      this.outbound := outbound;
      kernel, bias := null, null;
      if gpu {
        var mm := gl.CompileProgram(MatMulSource);
        var ap := gl.CompileProgram(ActivationSource(act));
        matMulProgram, activationProgram := Some(mm), Some(ap);
      } else {
        matMulProgram, activationProgram := None, None;
      }
      new;
      if gpu {
        outputPreactiv.CreateGLTexture();
        output.CreateGLTexture();
      }
    }

    /** The pre-activation values of a CPU call on x, starting from the buffer contents `seed`. */
    ghost function Preactivation(x: Tensor, seed: seq<int>): seq<int>
      requires kernel != null && kernel.data.Length0 == x.data.Length && kernel.data.Length1 == |seed|
      reads this, kernel, kernel.data, x, x.data
    {
      Gemv(1, Rows(kernel.data), x.data[..], 1, seed)
    }

    /** `call(x)`: runs exactly one of the two paths, chosen by `gpu`, and returns the current
        output tensor (after the GPU path, possibly the pre-activation tensor). */
    method Call(x: Tensor) returns (r: Tensor)
      requires Valid() && Ready(x)
      modifies this`output, output, output.data, outputPreactiv, outputPreactiv.data, x, gl
      ensures Valid() && r == output
      ensures !gpu ==> output == old(output) && unchanged(x, gl, output, outputPreactiv) &&
                       outputPreactiv.data[..] == old(outputPreactiv.data[..]) &&
                       output.data[..] == Apply(activationFunc, Preactivation(x, if useBias then bias.data[..] else old(output.data[..])))
      ensures gpu ==> CalledGPU(x, old(output))
    {
      if gpu {
        CallGPU(x);
      } else {
        CallCPU(x);
      }
      r := output;
    }

    /** `_callCPU(x)`: seeds the output buffer with the bias when there is one, accumulates
        kernelᵀx into it, then applies the activation in place. Without bias the buffer is not
        reset, so the previous call's result is the seed. Only the output buffer changes. */
    method CallCPU(x: Tensor)
      requires Valid() && Ready(x)
      modifies output.data
      ensures Valid()
      ensures output.data[..] == Apply(activationFunc, Preactivation(x, if useBias then bias.data[..] else old(output.data[..])))
      ensures x.data[..] == old(x.data[..]) && (useBias ==> bias.data[..] == old(bias.data[..]))
    {
      if useBias {
        Assign(output.data, bias.data);
      }
      GemvTransposed(1, kernel.data, x.data, 1, output.data);
      ApplyInPlace(activationFunc, output.data);
    }

    /** The bindings of the matrix-multiply program: A is x's texture and B the kernel's, plus
        C the bias's exactly when the layer has a bias. */
    function MatMulInputs(x: Tensor): (r: seq<TextureInput>)
      reads this
      ensures Binds(r, "A", x) && Binds(r, "B", kernel)
      ensures HasInput(r, "C") <==> useBias
      ensures useBias ==> Binds(r, "C", bias)
      ensures |r| == if useBias then 3 else 2
    {
      var inputs := [TextureInput(x, "2d", "A"), TextureInput(kernel, "2d", "B")];
      assert inputs[0].name == "A" && inputs[1].name == "B";
      if useBias then
        var r := inputs + [TextureInput(bias, "2d", "C")];
        assert r[0] == inputs[0] && r[1] == inputs[1] && r[2].name == "C";
        r
      else
        inputs
    }

    /** The uniforms of the matrix-multiply program: `addC` is 1 exactly when the layer has a
        bias; M, K, N are the rows of x's texture and the two sides of the kernel's texture. */
    function MatMulUniforms(x: Tensor): (u: seq<Uniform>)
      requires kernel != null && |x.glTextureShape| >= 1 && |kernel.glTextureShape| == 2
      reads this, x, kernel
      ensures |u| == 4 && u[0].name == "addC" && u[0].kind == "bool"
      ensures u[0].value == 1 <==> useBias
      ensures u[0].value == 0 <==> !useBias
      ensures u[1] == Uniform(x.glTextureShape[0], "int", "M")
      ensures u[2] == Uniform(kernel.glTextureShape[0], "int", "K")
      ensures u[3] == Uniform(kernel.glTextureShape[1], "int", "N")
    {
      [ Uniform(if useBias then 1 else 0, "bool", "addC"),
        Uniform(x.glTextureShape[0], "int", "M"),
        Uniform(kernel.glTextureShape[0], "int", "K"),
        Uniform(kernel.glTextureShape[1], "int", "N") ]
    }

    /** What `_callGPU(x)` leaves behind: x has a texture (created now if it had none); the
        backend ran the matrix multiply into the pre-activation tensor and then, unless the
        activation is linear, the activation program into the output tensor; with a linear
        activation the output field now is the pre-activation tensor; and the output was read
        back to the host exactly when the layer has no outbound connection. */
    twostate predicate CalledGPU(x: Tensor, was: Tensor)
      reads this, x, gl, output, outputPreactiv, outputPreactiv.data, kernel, was, was.data
    {
      var n := |old(gl.runs)|;
      x.glTexture && x.transfers == old(x.transfers) && |x.glTextureShape| == 2 &&
      (old(x.glTexture) ==> x.glTextureShape == old(x.glTextureShape)) &&
      (!old(x.glTexture) ==> x.glTextureShape == [1, x.data.Length]) &&
      gl.programs == old(gl.programs) &&
      |gl.runs| == n + (if activation == "linear" then 1 else 2) && gl.runs[..n] == old(gl.runs) &&
      matMulProgram.Some? && activationProgram.Some? && kernel != null && |kernel.glTextureShape| == 2 &&
      gl.runs[n] == Run(matMulProgram.value, outputPreactiv, MatMulInputs(x), MatMulUniforms(x)) &&
      (activation == "linear" ==> output == outputPreactiv) &&
      (activation != "linear" ==>
         output == old(output) &&
         gl.runs[n + 1] == Run(activationProgram.value, output, [TextureInput(outputPreactiv, "2d", "x")], [])) &&
      var o := output;
      o.transfers == old(o.transfers) + (if |outbound| == 0 then 1 else 0) &&
      // The pre-activation tensor and the tensor that was the output before the call keep their
      // textures; each is read back, and its host buffer changed, only if it is now the output
      // and the layer has no outbound connection.
      var readP, readW := o == outputPreactiv && |outbound| == 0, o == was && |outbound| == 0;
      outputPreactiv.glTexture == old(outputPreactiv.glTexture) &&
      outputPreactiv.glTextureShape == old(outputPreactiv.glTextureShape) &&
      outputPreactiv.transfers == old(outputPreactiv.transfers) + (if readP then 1 else 0) &&
      (!readP ==> outputPreactiv.data[..] == old(outputPreactiv.data[..])) &&
      was.glTexture == old(was.glTexture) && was.glTextureShape == old(was.glTextureShape) &&
      was.transfers == old(was.transfers) + (if readW then 1 else 0) &&
      (!readW ==> was.data[..] == old(was.data[..]))
    }

    /** `_callGPU(x)`. */
    method CallGPU(x: Tensor)
      requires Valid() && Ready(x) && gpu
      modifies this`output, output, output.data, outputPreactiv, outputPreactiv.data, x, gl
      ensures Valid() && CalledGPU(x, old(output))
    {
      if !x.glTexture {
        x.CreateGLTexture();
      }
      gl.RunProgram(matMulProgram.value, outputPreactiv, MatMulInputs(x), MatMulUniforms(x));
      if activation == "linear" {
        output := outputPreactiv;
      } else {
        gl.RunProgram(activationProgram.value, output, [TextureInput(outputPreactiv, "2d", "x")], []);
      }
      if |outbound| == 0 {
        output.TransferFromGLTexture();
      }
    }
  }
}
