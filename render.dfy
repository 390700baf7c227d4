/** The error-check layer and the draw dispatch built on it.

    Every wrapped call runs as: drain the pending error flags, issue the
    call, query the flags once more, and trap if that query found one. A
    trap ends the program; here it is the `Trap` outcome, after which the
    caller does nothing more. */
module Render {
  import opened Gl
  import opened ErrorText
  import opened Resources

  datatype Outcome = Continue | Trap

  /** ASSERT(x): traps exactly when `x` is false, and touches nothing. */
  method Assert(x: bool) returns (o: Outcome)
    ensures o == Trap <==> !x
  {
    if !x {
      o := Trap;
    } else {
      o := Continue;
    }
  }

  /** GlClearError: queries until the driver reports no error; each query
      that reports one removes it, so all `k` pending flags take `k + 1`
      queries. */
  method GlClearError(ctx: Context)
    requires ctx.Valid()
    modifies ctx`errors, ctx`commands
    ensures ctx.Valid() && ctx.errors == []
    ensures ctx.commands == old(ctx.commands) + ErrorQueries(|old(ctx.errors)| + 1)
  {
    ghost var drained := 0;
    while true
      invariant ctx.Valid()
      invariant 0 <= drained <= |old(ctx.errors)|
      invariant ctx.errors == old(ctx.errors)[drained..]
      invariant ctx.commands == old(ctx.commands) + ErrorQueries(drained)
      decreases |ctx.errors|
    {
      var code := ctx.GetError();
      if code == NO_ERROR {
        break;
      }
      drained := drained + 1;
    }
  }

  /** GlLogCall: reports the first pending error, if any, and says whether
      there was none. At most one flag is consumed; any others stay pending.
      A code outside the known range switches the stream to base 16 for
      good, the line number included. */
  method GlLogCall(ctx: Context, call: string, file: string, line: GLint) returns (ok: bool)
    requires ctx.Valid()
    modifies ctx`errors, ctx`commands, ctx`output, ctx`hexBase
    ensures ctx.Valid()
    ensures ok <==> old(ctx.errors) == []
    ensures ctx.commands == old(ctx.commands) + [GetErrorCall]
    ensures ok ==> ctx.errors == [] && ctx.output == old(ctx.output) && ctx.hexBase == old(ctx.hexBase)
    ensures !ok ==>
      var error := old(ctx.errors)[0];
      && ctx.errors == old(ctx.errors)[1..]
      && ctx.hexBase == (old(ctx.hexBase) || !IsKnownError(error))
      && ctx.output == old(ctx.output) + [ReportLine(ErrorLabel(error), call, file, line, ctx.hexBase)]
  {
    var error := ctx.GetError();
    // GlLogCall's C++ `while` returns on its first pass, so it is a single test.
    if error != NO_ERROR {
      if error > 1279 && error < 1286 {
        ctx.WriteLine(ReportLine(ErrorName(error), call, file, line, ctx.hexBase));
      } else {
        ctx.SetHexBase();
        ctx.WriteLine(ReportLine("0x" + Numeral(error, 16), call, file, line, ctx.hexBase));
      }
      return false;
    }
    return true;
  }

  /** The commands one wrapped call `x` issues when `pending` flags are
      recorded on entry: the drain's queries, `x`, then the check's query. */
  function CallTrace(pending: nat, x: Command): seq<Command>
  {
    ErrorQueries(pending + 1) + [x, GetErrorCall]
  }

  lemma {:induction false} ErrorQueriesOnly(n: nat)
    ensures |ErrorQueries(n)| == n
    ensures forall i | 0 <= i < n :: ErrorQueries(n)[i] == GetErrorCall
  {
    if n > 0 {
      ErrorQueriesOnly(n - 1);
    }
  }

  /** A wrapped call issues `x` exactly once, after every query of the drain
      and before the one query of the check. */
  lemma CallTraceOrder(pending: nat, x: Command)
    requires x != GetErrorCall
    ensures var t := CallTrace(pending, x);
      && |t| == pending + 3
      && (forall i | 0 <= i < pending + 1 :: t[i] == GetErrorCall)
      && t[pending + 1] == x
      && t[pending + 2] == GetErrorCall
      && multiset(t)[x] == 1
  {
    var t := CallTrace(pending, x);
    var drain := ErrorQueries(pending + 1);
    ErrorQueriesOnly(pending + 1);
    assert x !in drain;
    assert multiset(drain)[x] == 0;
    assert multiset(t) == multiset(drain) + multiset{x, GetErrorCall};
  }

  /** GLCall(x): drain, issue `x` (which makes the driver record `raised`),
      check. Traps exactly when `x` raised something; the report names the
      first flag `x` raised, never an older one, with the call's text and
      site. Without a trap no flag is left pending. */
  method GLCall(ctx: Context, x: Command, raised: seq<GLenum>, text: string, file: string, line: GLint)
    returns (o: Outcome)
    requires ctx.Valid() && x.IsRenderCommand() && NO_ERROR !in raised
    modifies ctx`errors, ctx`commands, ctx`output, ctx`hexBase
    ensures ctx.Valid()
    ensures o == Trap <==> raised != []
    ensures ctx.commands == old(ctx.commands) + CallTrace(|old(ctx.errors)|, x)
    ensures o == Continue ==> ctx.errors == [] && ctx.output == old(ctx.output) && ctx.hexBase == old(ctx.hexBase)
    ensures o == Trap ==>
      && ctx.errors == raised[1..]
      && ctx.hexBase == (old(ctx.hexBase) || !IsKnownError(raised[0]))
      && ctx.output == old(ctx.output) + [ReportLine(ErrorLabel(raised[0]), text, file, line, ctx.hexBase)]
  {
    ghost var before := ctx.commands;
    GlClearError(ctx);
    ctx.Issue(x, raised);
    assert ctx.errors == raised;
    var ok := GlLogCall(ctx, text, file, line);
    assert ctx.commands == before + ErrorQueries(|old(ctx.errors)| + 1) + [x] + [GetErrorCall];
    if !ok {
      o := Trap;
    } else {
      o := Continue;
    }
  }

  /** Where the renderer's own GL calls sit, as `__FILE__` and `__LINE__` give them. */
  const RenderFile := "src/Render.cpp"
  const DrawLine: GLint := 39
  const ClearLine: GLint := 44

  /** The index count as `glDrawElements` receives it: the unsigned count
      converted to the signed `GLsizei`, keeping its 32-bit pattern. */
  function AsSizei(n: GLuint): (r: GLint)
    ensures (r - n) % 0x1_0000_0000 == 0
    ensures r >= 0 <==> n < 0x8000_0000
  {
    if n < 0x8000_0000 then n else n - 0x1_0000_0000
  }

  /** The draw command for an index buffer: triangles, 32-bit unsigned
      indices read from offset 0 of the bound buffer. */
  function DrawCommand(ib: IndexBuffer): (cmd: Command)
    ensures cmd.DrawElements? && cmd.mode == TRIANGLES && cmd.indexType == UNSIGNED_INT
    ensures ib.GetCount() < 0x8000_0000 ==> cmd.count == ib.GetCount()
  {
    DrawElements(TRIANGLES, AsSizei(ib.GetCount()), UNSIGNED_INT, 0)
  }

  class Renderer {
    constructor ()
    {
    }

    /** Binds program, vertex array and index buffer, in that order, then
        draws the index buffer's triangles through the error check. */
    method Draw(ctx: Context, va: VertexArray, ib: IndexBuffer, shader: Shader, raised: seq<GLenum>)
      returns (o: Outcome)
      requires ctx.Valid() && NO_ERROR !in raised
      modifies ctx
      ensures ctx.Valid()
      ensures ctx.program == shader.rendererId
      ensures ctx.vertexArray == va.rendererId
      ensures ctx.elementBuffer == ib.rendererId
      ensures ctx.commands == old(ctx.commands)
        + [UseProgram(shader.rendererId), BindVertexArray(va.rendererId), BindBuffer(ELEMENT_ARRAY_BUFFER, ib.rendererId)]
        + CallTrace(|old(ctx.errors)|, DrawCommand(ib))
      ensures o == Trap <==> raised != []
      ensures o == Continue ==> ctx.errors == [] && ctx.output == old(ctx.output) && ctx.hexBase == old(ctx.hexBase)
      ensures o == Trap ==>
        && ctx.errors == raised[1..]
        && ctx.hexBase == (old(ctx.hexBase) || !IsKnownError(raised[0]))
        && ctx.output == old(ctx.output)
             + [ReportLine(ErrorLabel(raised[0]), "glDrawElements(GL_TRIANGLES, ib.GetCount(), GL_UNSIGNED_INT, nullptr)",
                           RenderFile, DrawLine, ctx.hexBase)]
    {
      shader.Bind(ctx);
      va.Bind(ctx);
      ib.Bind(ctx);
      o := GLCall(ctx, DrawCommand(ib), raised,
                  "glDrawElements(GL_TRIANGLES, ib.GetCount(), GL_UNSIGNED_INT, nullptr)", RenderFile, DrawLine);
    }

    /** Clears the colour buffer, and nothing else, through the error check;
        no binding changes. */
    method Clear(ctx: Context, raised: seq<GLenum>) returns (o: Outcome)
      requires ctx.Valid() && NO_ERROR !in raised
      modifies ctx`errors, ctx`commands, ctx`output, ctx`hexBase
      ensures ctx.Valid()
      ensures ctx.program == old(ctx.program) && ctx.vertexArray == old(ctx.vertexArray)
      ensures ctx.elementBuffer == old(ctx.elementBuffer)
      ensures ctx.commands == old(ctx.commands) + CallTrace(|old(ctx.errors)|, Command.Clear(COLOR_BUFFER_BIT))
      ensures o == Trap <==> raised != []
      ensures o == Continue ==> ctx.errors == [] && ctx.output == old(ctx.output) && ctx.hexBase == old(ctx.hexBase)
      ensures o == Trap ==>
        && ctx.errors == raised[1..]
        && ctx.hexBase == (old(ctx.hexBase) || !IsKnownError(raised[0]))
        && ctx.output == old(ctx.output)
             + [ReportLine(ErrorLabel(raised[0]), "glClear(GL_COLOR_BUFFER_BIT)", RenderFile, ClearLine, ctx.hexBase)]
    {
      o := GLCall(ctx, Command.Clear(COLOR_BUFFER_BIT), raised, "glClear(GL_COLOR_BUFFER_BIT)", RenderFile, ClearLine);
    }
  }
}
