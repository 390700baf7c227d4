/** The three resources a draw uses, reduced to what the renderer sees of
    them: a driver handle, and for the index buffer its element count.
    Binding one makes it the context's current resource of its kind. */
module Resources {
  import opened Gl

  datatype Shader = Shader(rendererId: GLuint)
  {
    method Bind(ctx: Context)
      modifies ctx`program, ctx`commands
      ensures ctx.program == rendererId
      ensures ctx.commands == old(ctx.commands) + [UseProgram(rendererId)]
    {
      ctx.UseProgram(rendererId);
    }
  }

  datatype VertexArray = VertexArray(rendererId: GLuint)
  {
    method Bind(ctx: Context)
      modifies ctx`vertexArray, ctx`commands
      ensures ctx.vertexArray == rendererId
      ensures ctx.commands == old(ctx.commands) + [BindVertexArray(rendererId)]
    {
      ctx.BindVertexArray(rendererId);
    }
  }

  datatype IndexBuffer = IndexBuffer(rendererId: GLuint, count: GLuint)
  {
    method Bind(ctx: Context)
      modifies ctx`elementBuffer, ctx`commands
      ensures ctx.elementBuffer == rendererId
      ensures ctx.commands == old(ctx.commands) + [BindBuffer(ELEMENT_ARRAY_BUFFER, rendererId)]
    {
      ctx.BindElementBuffer(rendererId);
    }

    /** The number of indices the buffer was created with. */
    function GetCount(): GLuint
    {
      count
    }
  }
}
