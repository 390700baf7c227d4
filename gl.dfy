/** The abstract OpenGL context the renderer talks to.

    The driver itself is foreign code. What the renderer can observe of it is
    modelled as one object: the pending error flags, the three bindings the
    draw path sets, a log of every command issued (including each error
    query), the lines written to the diagnostic stream, and the stream's
    sticky number base. */
module Gl {

  type GLenum = x: int | 0 <= x < 0x1_0000_0000
  type GLuint = x: int | 0 <= x < 0x1_0000_0000
  type GLbitfield = x: int | 0 <= x < 0x1_0000_0000
  /** Signed 32-bit integer: C++ `int` and `GLsizei`. */
  type GLint = x: int | -0x8000_0000 <= x < 0x8000_0000

  const NO_ERROR: GLenum := 0
  const INVALID_ENUM: GLenum := 0x0500
  const INVALID_VALUE: GLenum := 0x0501
  const INVALID_OPERATION: GLenum := 0x0502
  const STACK_OVERFLOW: GLenum := 0x0503
  const STACK_UNDERFLOW: GLenum := 0x0504
  const OUT_OF_MEMORY: GLenum := 0x0505

  const TRIANGLES: GLenum := 0x0004
  const UNSIGNED_INT: GLenum := 0x1405
  const ELEMENT_ARRAY_BUFFER: GLenum := 0x8893
  const COLOR_BUFFER_BIT: GLbitfield := 0x0000_4000

  /** One command as it reaches the driver. */
  datatype Command =
    | GetErrorCall
    | UseProgram(program: GLuint)
    | BindVertexArray(array: GLuint)
    | BindBuffer(target: GLenum, buffer: GLuint)
    | DrawElements(mode: GLenum, count: GLint, indexType: GLenum, offset: nat)
    | Clear(mask: GLbitfield)
  {
    /** The commands that draw into the framebuffer and change no binding. */
    predicate IsRenderCommand() {
      DrawElements? || Clear?
    }
  }

  /** `n` consecutive error queries. */
  function ErrorQueries(n: nat): seq<Command>
  {
    if n == 0 then [] else ErrorQueries(n - 1) + [GetErrorCall]
  }

  class Context {
    /** Recorded error flags, oldest first; the error query reports them in this order. */
    var errors: seq<GLenum>
    /** Current program, vertex array and element-array buffer; 0 is "none". */
    var program: GLuint
    var vertexArray: GLuint
    var elementBuffer: GLuint
    var commands: seq<Command>
    /** Lines written to the diagnostic stream. */
    var output: seq<string>
    /** Whether the diagnostic stream has been switched to base 16. */
    var hexBase: bool

    /** A recorded flag is never the "no error" code. */
    ghost predicate Valid()
      reads this
    {
      NO_ERROR !in errors
    }

    constructor (pending: seq<GLenum>)
      requires NO_ERROR !in pending
      ensures Valid() && errors == pending
      ensures program == 0 && vertexArray == 0 && elementBuffer == 0
      ensures commands == [] && output == [] && !hexBase
    {
      errors := pending;
      program, vertexArray, elementBuffer := 0, 0, 0;
      commands, output, hexBase := [], [], false;
    }

    /** glGetError: returns and clears one recorded flag, or reports NO_ERROR
        when none is recorded. */
    method GetError() returns (code: GLenum)
      requires Valid()
      modifies this`errors, this`commands
      ensures Valid()
      ensures code == NO_ERROR <==> old(errors) == []
      ensures old(errors) == [] ==> errors == []
      ensures old(errors) != [] ==> code == old(errors)[0] && errors == old(errors)[1..]
      ensures commands == old(commands) + [GetErrorCall]
    {
      commands := commands + [GetErrorCall];
      if errors == [] {
        code := NO_ERROR;
      } else {
        code := errors[0];
        errors := errors[1..];
      }
    }

    method UseProgram(id: GLuint)
      modifies this`program, this`commands
      ensures program == id
      ensures commands == old(commands) + [Command.UseProgram(id)]
    {
      program := id;
      commands := commands + [Command.UseProgram(id)];
    }

    method BindVertexArray(id: GLuint)
      modifies this`vertexArray, this`commands
      ensures vertexArray == id
      ensures commands == old(commands) + [Command.BindVertexArray(id)]
    {
      vertexArray := id;
      commands := commands + [Command.BindVertexArray(id)];
    }

    method BindElementBuffer(id: GLuint)
      modifies this`elementBuffer, this`commands
      ensures elementBuffer == id
      ensures commands == old(commands) + [BindBuffer(ELEMENT_ARRAY_BUFFER, id)]
    {
      elementBuffer := id;
      commands := commands + [BindBuffer(ELEMENT_ARRAY_BUFFER, id)];
    }

    /** Issues a draw or clear command; `raised` are the flags the driver
        records while executing it. */
    method Issue(cmd: Command, raised: seq<GLenum>)
      requires Valid() && cmd.IsRenderCommand() && NO_ERROR !in raised
      modifies this`errors, this`commands
      ensures Valid()
      ensures errors == old(errors) + raised
      ensures commands == old(commands) + [cmd]
    {
      commands := commands + [cmd];
      errors := errors + raised;
    }

    /** `std::hex`: every later number written to the stream is in base 16. */
    method SetHexBase()
      modifies this`hexBase
      ensures hexBase
    {
      hexBase := true;
    }

    method WriteLine(line: string)
      modifies this`output
      ensures output == old(output) + [line]
    {
      output := output + [line];
    }
  }
}
