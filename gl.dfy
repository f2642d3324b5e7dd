/**
 * The part of the OpenGL driver and of the file system that the shader
 * registry talks to, as an oracle. Every query the registry makes is a total
 * function of a `Driver`; every call that changes driver state is recorded
 * as a `Call` in an effect log.
 */
module Gl {
  /** A GLuint object name; 0 names no object. */
  type Handle = nat

  /** A name glCreateProgram hands out (never 0 in this model). */
  type ProgramObject = h: Handle | h > 0 witness 1

  datatype Stage = VertexStage | FragmentStage

  datatype Vec3 = Vec3(x: real, y: real, z: real)

  /** A glm::mat4, column by column. */
  type Mat4 = m: seq<real> | |m| == 16 witness seq(16, _ => 0.0)

  /** The GL calls that bind, delete or write into GL objects. */
  datatype Call =
    | UseProgram(program: Handle)
    | DeleteProgram(program: Handle)
    | DeleteShader(shader: Handle)
    | UniformMatrix4fv(location: int, matrix: Mat4)
    | Uniform3fv(location: int, vector: Vec3)
    | Uniform1f(location: int, x: real)
    | Uniform1i(location: int, n: int)

  /**
   * readSource: the text loadShaderSource reads from a path ("" when the file
   *   cannot be read);
   * compile: the object compileShader returns for a stage's source text (0
   *   when compilation fails, the failed object already deleted);
   * createProgram: the program object that the two stage objects are
   *   attached to;
   * linkStatus: GL_LINK_STATUS after linking those two stages;
   * uniformLocation: glGetUniformLocation (-1 for a uniform the program lacks).
   */
  datatype Driver = Driver(
    readSource: string -> string,
    compile: (Stage, string) -> Handle,
    createProgram: (Handle, Handle) -> ProgramObject,
    linkStatus: (Handle, Handle) -> bool,
    uniformLocation: (Handle, string) -> int)
}
