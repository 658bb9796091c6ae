# Dense layer of keras-js, modelled in Dafny

This project models the `Dense` (fully-connected) layer of keras-js, `src/layers/core/Dense.js`.
A Dense layer maps an input vector `x` of width `input_dim` to `units` outputs,
`output = activation(bias + kernelᵀ·x)`. It runs on one of two backends:

- **CPU path** (`_callCPU`). When `use_bias` is set, the output buffer is first overwritten with the
  bias (`ops.assign`). Then `gemv(1, kernelᵀ, x, 1, output)` (BLAS level-2 xGEMV, `y := αAx + βy`,
  with α = β = 1) accumulates `Σ_i kernel[i][j]·x[i]` into every `output[j]`. Finally the activation
  is applied element-wise, in place.
- **GPU path** (`_callGPU`). It gives `x` a GL texture if it has none. It runs the matrix-multiply
  program into `outputPreactiv`, with inputs A = x and B = kernel, plus C = bias and uniform
  `addC = 1` exactly when `use_bias` is set. With the `linear` activation it rebinds `this.output`
  to `outputPreactiv`, and that alias persists; otherwise it runs the activation program into
  `output`. It reads `output` back to host memory exactly when the layer has no outbound
  connection.

`call` runs exactly one of the two paths, chosen by `gpu`, and returns the current `this.output`.

Layout:

- `linalg.dfy` (`LinAlg`): the exact integer semantics. `Dot` is one column of `kernelᵀx`,
  `Gemv` is BLAS xGEMV with the transposed kernel, and `Repeat` is n bias-free accumulations into
  one buffer (n calls when the activation is `linear`).
  The lemmas state what a call computes, with and without a bias seed, and how calls accumulate.
- `ndarray.dfy` (`NdArray`): `ops.assign` and the transposed `gemv` as loop methods over arrays,
  each proved against `LinAlg`.
- `activations.dfy` (`Activations`): an activation is any function `int -> int`. `ApplyInPlace`
  is the in-place element-wise application. `linear` is the identity.
- `tensors.dfy` (`Tensors`): the part of `Tensor` the layer touches. That is a host buffer, whether
  a GL texture exists, the texture's shape, and a count of host readbacks.
- `webgl.dfy` (`WebGL`): the WebGL2 backend, seen only through its calls. It records each compiled
  program and each `runProgram` call with its inputs and uniforms.
- `dense.dfy` (`Dense`): the layer as a class with the constructor, `Call`, `CallCPU` and `CallGPU`.
- `scenarios.dfy` (`Scenarios`): whole-layer examples built through the constructor, with the
  weights attached afterwards.

A reader might expect the output buffer to be cleared when there is no bias. `_callCPU` does not
do that: with `use_bias` false nothing resets the buffer, and because β = 1 each call adds `kernelᵀx` onto whatever the
previous call left there. `CallCPU` states this behaviour. With the `linear` activation,
`LinAlg.RepeatedCalls` and `Scenarios.BiasOffTwice` show the consequence: the same input gives
`[2,2]` on the first call and `[4,4]` on the second. `LinAlg.GemvIsPlainProductIff` shows that the
pre-activation of a bias-free call equals the plain product `kernelᵀx` exactly when the buffer held
zeros beforehand. With another activation the accumulation happens before the activation, so these
statements hold of the pre-activation values and not of the call's result.

## Model

| member | source | states |
|---|---|---|
| Dense.Dense.constructor | src/layers/core/Dense.js:18-49 | Attribute defaults are units 1, activation `linear`, input_dim null and use_bias true. `params` is `['kernel','bias']` with a bias and `['kernel']` without. `inputShape` is `[input_dim]` exactly when input_dim is truthy, so 0 and null leave it unset. `output` and `outputPreactiv` are two distinct tensors with distinct zero `[units]` host buffers. On the GPU both programs are compiled once (matMul, then the activation's shader) and both buffers get a texture. On the CPU nothing is compiled. |
| Dense.Dense.Call | src/layers/core/Dense.js:57-64 | Runs the GPU path exactly when `gpu` holds, otherwise the CPU path, and returns the current `output` field. On the CPU the output is `act(kernelᵀx + seed)`, where the seed is the bias or else the old buffer contents. Nothing else changes, including the pre-activation buffer. On the GPU, `CalledGPU` holds (see `CallGPU`). |
| Dense.Dense.CallCPU | src/layers/core/Dense.js:71-77 | The output buffer becomes the activation, element by element, of `Gemv(1, kernel, x, 1, seed)`. The seed is the bias when use_bias holds and otherwise the buffer's own old contents, which are never reset. Only the output buffer changes; x and the bias keep their contents. |
| Dense.CpuOutputAt | src/layers/core/Dense.js:72-76 | Entry j of a CPU call's result is `act(seed[j] + Σ_i kernel[i][j]·x[i])`. With a bias that is `act(bias[j] + …)`. Without one it is `act(old output[j] + …)`. |
| Dense.BiasedCpuOutput | src/layers/core/Dense.js:72-76 | With a bias, a CPU call yields `act(bias + kernelᵀx)` whatever the buffer held. With the identity (`linear`) activation it yields `bias + kernelᵀx` itself. |
| Dense.Dense.MatMulInputs | src/layers/core/Dense.js:90-96 | The matMul inputs bind A to x and B to the kernel. They have an input named C exactly when use_bias holds, and then C is bound to the bias. There are 3 inputs with a bias and 2 without. |
| Dense.Dense.MatMulUniforms | src/layers/core/Dense.js:101-106 | `addC` is 1 exactly when use_bias holds and 0 exactly when it does not. M is the first dimension of x's texture shape. K and N are the two dimensions of the kernel's texture shape. |
| Dense.Dense.CallGPU | src/layers/core/Dense.js:84-124 | Afterwards x has a texture: a new `[1, n]` one if it had none, otherwise the old one. The backend ran matMul into `outputPreactiv` with exactly those inputs and uniforms. With `linear`, the `output` field is now `outputPreactiv` and no second program ran. Otherwise `output` is unchanged and the activation program ran from `outputPreactiv` into it. `output` was read back once exactly when `outbound` is empty, and not otherwise. No program was compiled. `outputPreactiv` and the tensor that was `output` before the call keep their textures and texture shapes. Each is read back, and its host buffer changed, only when it is now `output` and `outbound` is empty; otherwise its readback count and host contents stay as they were. |
| NdArray.Assign | src/layers/core/Dense.js:73 | Afterwards the destination buffer holds exactly the source's elements. |
| NdArray.GemvTransposed | src/layers/core/Dense.js:75 | `y` becomes `α·aᵀx + β·old y` (the `Gemv` specification), with `a` stored as `[|x|, |y|]` and read transposed. |
| Activations.ApplyInPlace | src/layers/core/Dense.js:76 | Each element of the buffer is replaced by the activation of its old value. |
| Activations.LinearIsIdentity | src/layers/core/Dense.js:110-112 | Applying the `linear` activation leaves a buffer unchanged. This is why the GPU path may alias `output` to `outputPreactiv`. |
| LinAlg.GemvSeeded | src/layers/core/Dense.js:72-75 | Seeding the buffer with the bias and accumulating gives `bias + kernelᵀx`. |
| LinAlg.GemvAccumulates | src/layers/core/Dense.js:75 | Two bias-free accumulations of x1 and then x2 leave the same buffer as one accumulation of x1 + x2. |
| LinAlg.RepeatedCalls | src/layers/core/Dense.js:72-75 | After n bias-free accumulations of the same x, entry j has grown by n times its dot product. That is n calls when the activation is `linear`. |
| LinAlg.GemvIsPlainProductIff | src/layers/core/Dense.js:72-75 | The pre-activation of a bias-free call equals the plain product `kernelᵀx` if and only if the buffer held zeros beforehand. |
| LinAlg.GemvOfZeroInput | src/layers/core/Dense.js:75 | An all-zero input leaves the buffer as it was. |
| LinAlg.DotAdditive | src/layers/core/Dense.js:75 | Each output's dot product is additive in the input vector. |
| LinAlg.WorkedExample | src/layers/core/Dense.js:72-75 | Kernel `[[1,0],[0,1],[1,1]]` with zero bias and input `[1,2,3]` accumulates to `[4,5]`. |
| LinAlg.BiasOffScenario | src/layers/core/Dense.js:72-75 | Without a bias and with input `[1,1,1]`, a zeroed buffer becomes `[2,2]`, and a second call makes it `[4,4]`. |
| Tensors.Tensor.CreateGLTexture | src/layers/core/Dense.js:85-87 | After `createGLTexture` the tensor has a texture laid out as one row of its length. Its readback count is unchanged. |
| Tensors.Tensor.TransferFromGLTexture | src/layers/core/Dense.js:121-123 | A readback increments the tensor's readback count by one and keeps its texture. It may rewrite the host buffer, whose new contents are left unknown. |
| WebGL.WebGL2.CompileProgram | src/layers/core/Dense.js:44-45 | Compiling appends the program, named by its source, to the backend's compiled programs. It runs nothing. |
| WebGL.WebGL2.RunProgram | src/layers/core/Dense.js:97-107 | Running appends exactly one record of the program, its output, inputs and uniforms. It compiles nothing. |
| Scenarios.LinearWithBias | src/layers/core/Dense.js:57-77 | A CPU layer with kernel `[[1,0],[0,1],[1,1]]`, zero bias and `linear` returns `[4,5]` for input `[1,2,3]`. |
| Scenarios.ReluWithBias | src/layers/core/Dense.js:57-77 | The same layer with a ReLU activation returns `[0,0]` for input `[-1,-2,-3]`, whose pre-activation is `[-4,-5]`. |
| Scenarios.ReluScenario | src/layers/core/Dense.js:72-76 | With kernel `[[1,0],[0,1],[1,1]]`, zero bias and input `[-1,-2,-3]`, the pre-activation is `[-4,-5]` and ReLU turns it into `[0,0]`. |
| Scenarios.BiasOffTwice | src/layers/core/Dense.js:72-76 | Without a bias, two calls with input `[1,1,1]` return `[2,2]` and then `[4,4]`: the buffer accumulates. |
| Scenarios.GpuLinear | src/layers/core/Dense.js:109-123 | Two GPU calls with `linear` and no outbound connection each run only matMul (2 runs in total). The returned tensor is `outputPreactiv` after both calls. It was read back twice. |
| Scenarios.GpuReluChained | src/layers/core/Dense.js:109-123 | A GPU call with ReLU and one outbound connection runs both programs. It returns the layer's own output tensor, not `outputPreactiv`, and reads nothing back, so that tensor's host buffer still holds the zeros it was created with. |

## Left out

- Shader results: what `matMul.glsl` and the activation shaders compute is not modelled. `runProgram` only records its call, so nothing relates GPU values to the CPU values. CPU/GPU numeric agreement therefore stays unstated.
- Float32 arithmetic: values are exact integers, so rounding, overflow and NaN are not modelled.
- Activation formulas: the activation library is not part of this model. The constructor takes a table from activation names to functions on one element and requires only that `linear` maps to the identity. The JavaScript lookup `activations[name]` can be undefined for an unknown name. This model has no such case.
- Weight loading: `this.weights` is filled by the model loader, which is not part of this model. The model keeps `kernel` and `bias` as fields that start empty and are attached afterwards. Each call requires them to be attached with the configured shapes and, on the GPU, to have textures.
- Input aliasing: a call requires an input that is neither one of the layer's working tensors nor shares a host buffer with them. The source accepts `this.output` as input: with a bias, `ops.assign` overwrites it before `gemv` reads it, and without one `gemv` reads the buffer it is writing. What the source computes in that case is not modelled.
- Input shape checking: the `Layer` base class is not part of this model. A call requires an input as wide as the kernel; a mismatch is not modelled as an error.
- `Layer` base class: `gpu` and `outbound` are passed to the constructor instead of being read from the base class. The base class's own constructor work (name, inbound and outbound wiring) is not modelled.
- Tensor internals: `Tensor.js` is not part of this model. A vector's texture is assumed to be laid out as one row, shape `[1, n]`. The texture shapes of the kernel and bias are whatever they were created with.
- GPU resource lifetime: `webgl2` is a shared global in the source, but here it is a parameter of the constructor. Texture deletion and program release are not modelled.
- Dense.Dense.Call: on the GPU path, when the output is read back, its contract does not say which values arrive in that host buffer. The GPU computes them, and that is not modelled; the contract leaves them unknown.
- Tensors.Tensor.TransferFromGLTexture: does not say which values the readback writes into the host buffer, for the same reason.
