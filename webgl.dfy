/** The WebGL2 backend, seen only through its calls: programs are compiled from a source name
    and run with bound textures and uniforms. What a shader computes is not modelled; the
    backend records each compilation and each run. */
module WebGL {

  datatype Program = Program(source: string)

  /** A texture bound to a program input: the tensor that owns the texture, its kind, and the
      input's name in the shader. */
  datatype TextureInput = TextureInput(texture: object?, kind: string, name: string)

  datatype Uniform = Uniform(value: int, kind: string, name: string)

  /** One `runProgram` call. */
  datatype Run = Run(program: Program, output: object, inputs: seq<TextureInput>, uniforms: seq<Uniform>)

  class WebGL2 {
    var programs: seq<Program>
    var runs: seq<Run>

    constructor ()
      ensures programs == [] && runs == []
    {
      programs, runs := [], [];
    }

    method CompileProgram(source: string) returns (p: Program)
      modifies this
      ensures p == Program(source)
      ensures programs == old(programs) + [p] && runs == old(runs)
    {
      p := Program(source);
      programs := programs + [p];
    }

    method RunProgram(program: Program, output: object, inputs: seq<TextureInput>, uniforms: seq<Uniform>)
      modifies this
      ensures runs == old(runs) + [Run(program, output, inputs, uniforms)]
      ensures programs == old(programs)
    {
      runs := runs + [Run(program, output, inputs, uniforms)];
    }
  }
}
