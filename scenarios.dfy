/** Whole-layer scenarios on the CPU path: a three-input, two-unit layer with kernel
    [[1,0],[0,1],[1,1]], its weights attached after construction as the model loader does. */
module Scenarios {
  import opened Wrappers
  import opened LinAlg
  import opened Activations
  import opened Tensors
  import opened WebGL
  import opened NdArray
  import Dense

  /** The activation table of these scenarios: `relu` clamps negatives to zero, every other
      name (in particular `linear`) is the identity. */
  function Table(name: string): int -> int {
    if name == "relu" then (v: int) => if v < 0 then 0 else v else (v: int) => v
  }

  /** Builds the example kernel as a `[3, 2]` matrix. */
  method ExampleKernelMatrix() returns (m: Matrix)
    ensures fresh(m) && fresh(m.data) && m.data.Length0 == 3 && m.data.Length1 == 2
    ensures Rows(m.data) == ExampleKernel()
  {
    var a := new int[3, 2];
    a[0, 0], a[0, 1] := 1, 0;
    a[1, 0], a[1, 1] := 0, 1;
    a[2, 0], a[2, 1] := 1, 1;
    m := new Matrix(a);
    assert Rows(m.data)[0] == [1, 0] && Rows(m.data)[1] == [0, 1] && Rows(m.data)[2] == [1, 1];
  }

  /** A CPU layer built from `attrs` with the example kernel and a zero bias attached. */
  method ExampleLayer(attrs: Dense.Attrs) returns (layer: Dense.Dense)
    requires attrs.units == Some(2)
    ensures fresh(layer) && fresh(layer.output) && fresh(layer.output.data) && fresh(layer.outputPreactiv)
    ensures fresh(layer.outputPreactiv.data)
    ensures layer.Valid() && !layer.gpu && layer.units == 2 && fresh(layer.gl)
    ensures layer.output != layer.outputPreactiv
    ensures layer.activation == attrs.activation.GetOr("linear") && layer.useBias == attrs.useBias.GetOr(true)
    ensures layer.activationFunc == Table(layer.activation)
    ensures layer.kernel != null && fresh(layer.kernel) && fresh(layer.kernel.data)
    ensures Rows(layer.kernel.data) == ExampleKernel()
    ensures layer.kernel.data.Length0 == 3 && layer.kernel.data.Length1 == 2
    ensures layer.bias != null && fresh(layer.bias) && fresh(layer.bias.data) && layer.bias.data[..] == [0, 0]
    ensures layer.bias != layer.output && layer.bias != layer.outputPreactiv
    ensures layer.bias.data != layer.output.data && layer.bias.data != layer.outputPreactiv.data
    ensures layer.output.data[..] == [0, 0]
  {
    var gl := new WebGL2();
    layer := new Dense.Dense(attrs, false, [], Table, gl);
    layer.kernel := ExampleKernelMatrix();
    layer.bias := new Tensor.FromValues([0, 0]);
    assert layer.output.data[..] == LinAlg.Zeros(2) == [0, 0];
  }

  /** Linear activation, zero bias, input [1,2,3]: the layer returns [4,5]. */
  method LinearWithBias() returns (out: seq<int>)
    ensures out == [4, 5]
  {
    var layer := ExampleLayer(Dense.Attrs(Some(2), None, Some(3), None));
    var x := new Tensor.FromValues([1, 2, 3]);
    var r := layer.Call(x);
    assert r.data[..] == Apply(layer.activationFunc, Gemv(1, ExampleKernel(), [1, 2, 3], 1, [0, 0]));
    out := r.data[..];
    WorkedExample();
    LinearIsIdentity(layer.activationFunc, [4, 5]);
  }

  /** With the example kernel, zero bias and input [-1,-2,-3] the pre-activation is [-4,-5], which
      ReLU clamps to [0,0]. */
  lemma ReluScenario()
    ensures Gemv(1, ExampleKernel(), [-1, -2, -3], 1, [0, 0]) == [-4, -5]
    ensures Apply(Table("relu"), Gemv(1, ExampleKernel(), [-1, -2, -3], 1, [0, 0])) == [0, 0]
  {
    var K := ExampleKernel();
    assert Dot(K, [-1, -2, -3], 0, 3) == -4 && Dot(K, [-1, -2, -3], 1, 3) == -5;
    assert Gemv(1, K, [-1, -2, -3], 1, [0, 0]) == [-4, -5];
  }

  /** ReLU activation, zero bias, input [-1,-2,-3]: the layer returns [0,0]. */
  method ReluWithBias() returns (out: seq<int>)
    ensures out == [0, 0]
  {
    var layer := ExampleLayer(Dense.Attrs(Some(2), Some("relu"), Some(3), None));
    var x := new Tensor.FromValues([-1, -2, -3]);
    var r := layer.Call(x);
    assert r.data[..] == Apply(layer.activationFunc, Gemv(1, ExampleKernel(), [-1, -2, -3], 1, [0, 0]));
    out := r.data[..];
    ReluScenario();
  }

  /** Bias disabled, input [1,1,1], called twice on the same layer: the first call returns [2,2];
      the second returns [4,4], because nothing resets the output buffer between calls. */
  method BiasOffTwice() returns (first: seq<int>, second: seq<int>)
    ensures first == [2, 2] && second == [4, 4]
  {
    var layer := ExampleLayer(Dense.Attrs(Some(2), None, Some(3), Some(false)));
    var x := new Tensor.FromValues([1, 1, 1]);
    BiasOffScenario();
    var K := ExampleKernel();
    var r := layer.Call(x);
    first := r.data[..];
    LinearIsIdentity(layer.activationFunc, [2, 2]);
    assert first == [2, 2];
    r := layer.Call(x);
    second := r.data[..];
    assert Repeat(K, [1, 1, 1], [0, 0], 2) == Gemv(1, K, [1, 1, 1], 1, [2, 2]);
    LinearIsIdentity(layer.activationFunc, [4, 4]);
  }

  /** A GPU layer built from `attrs` and `outbound`, with the example kernel and a zero bias
      attached and given their textures, as the model loader does. */
  method ExampleGpuLayer(attrs: Dense.Attrs, outbound: seq<string>) returns (layer: Dense.Dense)
    requires attrs.units == Some(2)
    ensures fresh(layer) && fresh(layer.output) && fresh(layer.output.data) && fresh(layer.outputPreactiv)
    ensures fresh(layer.outputPreactiv.data) && fresh(layer.gl) && layer.gl.runs == []
    ensures layer.Valid() && layer.gpu && layer.units == 2 && layer.outbound == outbound
    ensures layer.output != layer.outputPreactiv
    ensures layer.activation == attrs.activation.GetOr("linear") && layer.useBias == attrs.useBias.GetOr(true)
    ensures layer.output.transfers == 0 && layer.outputPreactiv.transfers == 0
    ensures layer.output.data[..] == [0, 0]
    ensures layer.kernel != null && fresh(layer.kernel) && layer.kernel.glTexture && |layer.kernel.glTextureShape| == 2
    ensures layer.kernel.data.Length0 == 3 && layer.kernel.data.Length1 == 2
    ensures layer.bias != null && fresh(layer.bias) && fresh(layer.bias.data) && layer.bias.glTexture
    ensures layer.bias.data.Length == 2
    ensures layer.bias != layer.output && layer.bias != layer.outputPreactiv
    ensures layer.bias.data != layer.output.data && layer.bias.data != layer.outputPreactiv.data
  {
    var gl := new WebGL2();
    layer := new Dense.Dense(attrs, true, outbound, Table, gl);
    var k := ExampleKernelMatrix();
    k.CreateGLTexture();
    var b := new Tensor.FromValues([0, 0]);
    b.CreateGLTexture();
    layer.kernel, layer.bias := k, b;
  }

  /** GPU path, linear activation, no outbound connection, called twice: the matrix multiply is
      the only program run (once per call), the returned tensor is the pre-activation tensor
      itself and stays so, and each call reads it back to the host once. */
  method GpuLinear() returns (aliased: bool, runs: nat, readbacks: nat)
    ensures aliased && runs == 2 && readbacks == 2
  {
    var layer := ExampleGpuLayer(Dense.Attrs(Some(2), None, Some(3), None), []);
    var x := new Tensor.FromValues([1, 2, 3]);
    var r := layer.Call(x);
    r := layer.Call(x);
    aliased := r == layer.outputPreactiv;
    runs := |layer.gl.runs|;
    readbacks := r.transfers;
  }

  /** GPU path, ReLU activation, one outbound connection: both programs run, the returned tensor
      is the layer's own output tensor, and nothing is read back to the host, so its host buffer
      still holds the zeros it was created with. */
  method GpuReluChained() returns (separate: bool, runs: nat, readbacks: nat, host: seq<int>)
    ensures separate && runs == 2 && readbacks == 0 && host == [0, 0]
  {
    var layer := ExampleGpuLayer(Dense.Attrs(Some(2), Some("relu"), Some(3), None), ["next"]);
    var x := new Tensor.FromValues([-1, -2, -3]);
    var r := layer.Call(x);
    separate := r != layer.outputPreactiv;
    runs := |layer.gl.runs|;
    readbacks := r.transfers;
    host := r.data[..];
  }
}
