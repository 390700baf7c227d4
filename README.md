# OpenGL error check and draw dispatch

This project models the error-check layer and the renderer of a small OpenGL
rendering scaffold, written in Dafny. Every GL call the renderer makes is
wrapped by `GLCall`, which runs four steps:

1. Drain the pending error flags.
2. Issue the call.
3. Query the flags once more.
4. If that query reports an error, write one diagnostic line and trap.

`Renderer::Draw` binds a shader program, a vertex array and an index buffer,
in that order, and issues one wrapped indexed triangle draw. `Renderer::Clear`
issues one wrapped clear of the colour buffer.

The graphics driver is foreign code, so it is modelled as an explicit context
object, `Gl.Context`. It holds:

- the recorded error flags, as a sequence of nonzero codes;
- the current program, vertex array and element-array buffer;
- a log of every command issued, including each error query;
- the lines written to the diagnostic stream;
- whether the stream has been switched to base 16.

`glGetError` returns and clears one recorded flag per call (section 2.5, "GL
Errors", of the OpenGL 3.3 Core Profile specification). The model returns the
oldest flag first. The specification leaves that order open.

Modules:

- `Gl` (`gl.dfy`): the context, the GL constants and the command log.
- `ErrorText` (`error_text.dfy`): the error-name table, hexadecimal and
  decimal numerals with their inverse, the text between the braces of a
  report, and the report line.
- `Resources` (`resources.dfy`): the shader, vertex array and index buffer,
  reduced to their handles and the index count.
- `Render` (`render.dfy`): `GlClearError`, `GlLogCall`, the `GLCall` and
  `ASSERT` macros, and `Renderer`.

A trap ends the program. Here it is the `Trap` outcome, and callers do
nothing after it. The errors a wrapped call makes the driver record are a
parameter, `raised`, because they come from foreign code.

## Model

| member | source | states |
|---|---|---|
| `ErrorText.ErrorName` | src/Render.cpp:5-11 | Requires a code in 0x0500..0x0505, so the six-entry table is indexed in bounds. Maps 0x0500..0x0505 to GL_INVALID_ENUM, GL_INVALID_VALUE, GL_INVALID_OPERATION, GL_STACK_OVERFLOW, GL_STACK_UNDERFLOW and GL_OUT_OF_MEMORY. |
| `ErrorText.ErrorNamesDistinct` | src/Render.cpp:7-8 | Every table name starts with "GL_". Distinct codes get distinct names. |
| `ErrorText.IsKnownError` | src/Render.cpp:22 | The guard 1279 < code < 1286 holds exactly when the code is in 0x0500..0x0505, so the table index it leads to lies within the six names. |
| `ErrorText.Numeral` | src/Render.cpp:26 | An unsigned number written in a base from 2 to 16, as the stream writes it: at least one character, only that base's lower-case digits, and a leading '0' exactly when the number is zero. |
| `ErrorText.NumeralRoundTrip` | src/Render.cpp:26 | Reading a numeral back gives the number it was written from. |
| `ErrorText.NumeralInjective` | src/Render.cpp:26 | Different numbers are written as different numerals. |
| `ErrorText.NumeralDigits` | src/Render.cpp:26 | An unsigned number is written as digit characters only, with no sign. |
| `ErrorText.ErrorLabel` | src/Render.cpp:22-27 | For a code that passes the 1279 < code < 1286 guard, the text between the braces is exactly that code's table name. It starts with "GL_" exactly when the code passes the guard. Otherwise it is "0x" followed by a hexadecimal numeral that reads back as the code. |
| `ErrorText.ErrorLabelDigits` | src/Render.cpp:26 | For a code that fails the guard, every character after "0x" is a hexadecimal digit. The first of them is '0' exactly when the code is zero, so there are no leading zeros. |
| `ErrorText.ErrorLabelInjective` | src/Render.cpp:22-27 | Distinct error codes always produce distinct report labels, so a report identifies its error. |
| `ErrorText.LineNumeral` | src/Render.cpp:23-27 | The line number reads back as itself: in base 10 with a minus sign when negative, or in base 16 as its 32-bit pattern once the stream is in hex. |
| `ErrorText.LineNumeralDigits` | src/Render.cpp:23-27 | The line number has a minus sign exactly when it is negative and written in decimal. The rest is digits only, starting with '0' exactly when the line is zero. |
| `ErrorText.ReportLine` | src/Render.cpp:23-27 | The diagnostic line starts with "[OpenGL Error] {". The error text, the call text and the file each sit at a fixed position in it. It ends with the line number. |
| `ErrorText.ReportLineSeparators` | src/Render.cpp:23-27 | Between those parts the line holds exactly "}: " after the error text, one space after the call text, and ":" before the line number. |
| `Gl.Context.GetError` | src/Render.cpp:15 | The glGetError query returns NO_ERROR exactly when no flag is recorded. Otherwise it returns the first flag and removes it. Either way it logs one query. |
| `Gl.Context.Issue` | src/Render.h:13 | Issuing the wrapped call appends it to the command log and appends the flags it raised to the pending flags. |
| `Gl.Context.SetHexBase` | src/Render.cpp:26 | `std::hex` puts the stream in base 16 and leaves it there. |
| `Gl.Context.WriteLine` | src/Render.cpp:23-24 | A diagnostic appends exactly one line to the stream. |
| `Render.GlClearError` | src/Render.cpp:13-16 | Terminates and leaves no flag pending. Each iteration removes exactly one flag, so k pending flags take k + 1 queries. |
| `Render.GlLogCall` | src/Render.cpp:18-31 | Returns true exactly when no flag was pending. In that case it consumes nothing, writes nothing and leaves the base unchanged. Otherwise it consumes only the first flag and leaves the rest pending. It writes one report line with the call text, file and line. An unknown code switches the stream to hex before the line number is written. |
| `Render.Assert` | src/Render.h:9-10 | ASSERT traps exactly when its condition is false. It changes no state. |
| `Render.CallTraceOrder` | src/Render.h:11-14 | In a wrapped call's command trace, the call appears exactly once. It comes after all the drain's queries and before the single check query. |
| `Render.GLCall` | src/Render.h:11-14 | Drains first, so older flags are never reported. Traps exactly when the call raised a flag. The report names the first flag the call raised, with the call text, file and line. Without a trap, no flag is left pending and nothing is written. |
| `Render.AsSizei` | src/Render.cpp:39 | The unsigned index count, converted to GLsizei, keeps its 32-bit pattern. It is non-negative exactly when the count is below 2^31. |
| `Render.DrawCommand` | src/Render.cpp:39 | The draw is GL_TRIANGLES with GL_UNSIGNED_INT indices. Its count equals the index buffer's count whenever that count fits in a GLsizei. |
| `Render.Renderer.Draw` | src/Render.cpp:33-40 | Leaves the shader's program, the vertex array and the index buffer bound. Logs their three binds in that order, then one wrapped indexed draw sized by the buffer. Traps exactly as GLCall does, reporting the draw call's text at line 39. |
| `Render.Renderer.Clear` | src/Render.cpp:42-45 | Issues exactly one wrapped clear of GL_COLOR_BUFFER_BIT and changes no binding. Traps exactly as GLCall does, reporting the clear call's text at line 44. |
| `Resources.Shader.Bind` | src/Render.cpp:35 | Makes the shader's program current and logs one program bind. |
| `Resources.VertexArray.Bind` | src/Render.cpp:36 | Makes the vertex array current and logs one vertex-array bind. |
| `Resources.IndexBuffer.Bind` | src/Render.cpp:37 | Makes the index buffer the current element-array buffer and logs one buffer bind. |

## Left out

- `GlLogCall`'s `while` loop always returns during its first pass, so it is modelled as the single `if` it amounts to.
- `Shader::Bind`, `VertexArray::Bind`, `IndexBuffer::Bind` and `IndexBuffer::GetCount`: VertexArray.cpp, IndexBuffer.cpp and Shader.cpp are not part of this model. Each bind sets one binding of the context and logs one bind command. `GetCount` returns a stored count.
- Shader parsing, compiling and linking, the uniform cache, vertex layouts and buffer creation are not modelled, because their implementations are not part of this model.
- The driver's own behaviour is not modelled. The errors a wrapped call makes the driver record are a parameter. A draw or clear changes nothing else in the context.
- The process-level effect of `__builtin_trap` is not modelled. It is the `Trap` outcome.
- `__FILE__` depends on how the file is compiled. It is modelled as the constant "src/Render.cpp".
- Stream flushing (`std::endl`) and locale are not modelled. Each diagnostic is one line in the context's output.
- The window, the frame loop, buffer swapping and the colour animation in main.cpp are not modelled. They are platform I/O and floating point.
- `Render.AsSizei`: IndexBuffer.h is not part of this model. `GetCount` is assumed to return a 32-bit `unsigned int`, so a count of 2^31 or more wraps to a negative GLsizei.
- `Gl.Context.GetError`: the GL specification does not fix which recorded flag one query returns. The model returns the oldest flag first, so "the first flag" in the `GetError`, `GlLogCall` and `GLCall` rows is that choice.
- `Render.GLCall` is modelled only for the two calls this core wraps: the indexed draw and the clear.
