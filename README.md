# rust-mandelbrot: the GPU resource layer, modelled in Dafny

The Mandelbrot viewer draws one full-screen quad and lets a fragment shader compute
the fractal. Around the OpenGL calls it puts a thin resource layer:

- vertex arrays, vertex buffers and element buffers;
- an interleaved vertex layout (`VertexAttribDescriptor`);
- shader programs, their uniforms, and 2D textures.

Each wrapper keeps a cached "bound" flag, so that a bind it believes redundant is not
issued. This project models that layer, plus the keyboard flags and the iteration-count
rule of the viewer's event manager.

**The driver.** OpenGL is modelled by one object, `Gl.Driver`. It holds:

- `log`, the sequence of calls issued so far;
- `issued`, a counter from which every `Gen*`/`Create*` call takes the next fresh name.

Every operation is specified by the exact calls it appends to `log`, and by the new
values of the cached flags.

**Driver answers are inputs.** What the driver answers becomes a parameter:

- the bytes a shader file holds, or the I/O error from reading it (`Shaders.Stage`);
- the compile status of each stage and the link status of the program;
- the location returned for a uniform name;
- the result of decoding a PNG file (`Textures.Image`, or the decoder's error text).

**Modules**, one per source file:

| module | source | flavour |
|---|---|---|
| `Gl` | the driver | call log and fresh names |
| `Buffers` | `src/buffer.rs` | classes, plus the layout as pure functions |
| `Shaders` | `src/shader.rs` | the compile/link pipeline as pure functions over `Outcome`, a `Shader` class |
| `Uniforms` | `src/uniform.rs` | a datatype with setter methods |
| `Textures` | `src/texture.rs` | a `Texture` class and the call sequences it issues |
| `Input` | `src/main.rs` (`EvtManager`) | a class with the key flags, and the iteration-count rule |

`Scenarios` runs the layer on a fresh driver the way the viewer's setup uses it.

**The model follows the code as written**, in the places where it departs from what the
layer evidently means to do:

- `VertexBuffer::bind` and `ElementBuffer::bind` write `false` to their flag. So every
  bind of those buffers is issued, and their `unbind` never issues anything.
- `ElementBuffer`'s drop deletes the buffer without unbinding it.
- `Texture::bind` always activates texture unit 0, whatever unit the texture was created for.
- `MapType::REPEAT` is translated to the enumerant `LINEAR`, which is not a wrap mode.
  So a new texture's "repeat" wrapping passes `LINEAR` to both wrap parameters.
- A failed compile or link leaks the shader objects already created.

## Model

| member | source | states |
|---|---|---|
| Gl.AsU32 | src/texture.rs:87 | the `as GLenum` cast: a value that fits a `u32` is kept, and a negative value down to -2^32 wraps to 2^32 above it |
| Gl.AsI32 | src/texture.rs:100-101 | the `as GLsizei` cast loses nothing: casting the result back to `u32` gives the argument |
| Gl.AsI32Unique | src/texture.rs:100-101 | the result is the only `i32` whose bits are the argument |
| Buffers.ByteSize | src/buffer.rs:74-81 | no contract; defines the bytes an item advances the running offset by: count times 4 |
| Buffers.AttribType | src/buffer.rs:74-81 | no contract; defines the scalar type an item is linked with, `FLOAT` or `INT` |
| Buffers.StrideSum | src/buffer.rs:61-67 | no contract; defines the stride fold over a list of slots |
| Buffers.Stride | src/buffer.rs:61-67 | no contract; defines the stride as the fold over the layout's slots in ascending order (see StrideIsTotalBytes) |
| Buffers.AttributeCalls | src/buffer.rs:108-119 | no contract; defines the calls of one `link_attribute` |
| Buffers.AttribCalls | src/buffer.rs:70-83 | no contract; defines the calls of the loop over a list of slots (see AttribCallsStep) |
| Buffers.LinkCalls | src/buffer.rs:59-84 | no contract; defines the calls of `link` (see LinkPointers) |
| Buffers.StrideTerm | src/buffer.rs:63-66 | the stride fold's term for an item equals the item's byte size, even though the source names the other scalar type's size (both are 4 bytes) |
| Buffers.Slots | src/buffer.rs:71 | no contract; defines the layout's slots in the ascending order the ordered map iterates them (see SlotsBelowAscending, SlotsBelowComplete) |
| Buffers.SumBytes | src/buffer.rs:70-82 | no contract; defines the running offset `offset_pointer` after a list of slots (see SumBytesBelow) |
| Buffers.SlotsBelow | src/buffer.rs:71 | every slot listed is a key of the layout and lies below the bound |
| Buffers.SlotsBelowAscending | src/buffer.rs:71 | the slots come in strictly ascending order, as the ordered map iterates them |
| Buffers.SlotsBelowComplete | src/buffer.rs:71 | every key of the layout below the bound is listed |
| Buffers.AttribCallsStep | src/buffer.rs:71-82 | one more loop iteration appends exactly that slot's attribute calls at the running offset, and advances the offset by the slot's byte size |
| Buffers.PointersOfAttributeCalls | src/buffer.rs:108-119 | one `link_attribute` issues exactly one attribute pointer, with the given slot, count, type, stride and offset, and normalisation off |
| Buffers.AttribPointersSnoc | src/buffer.rs:70-83 | linking one more slot appends that slot's pointer, at the offset the earlier slots add up to |
| Buffers.AttribPointersLength | src/buffer.rs:70-83 | linking a list of slots issues one pointer per slot |
| Buffers.AttribPointerAt | src/buffer.rs:70-83 | the i-th pointer describes the i-th slot, at the byte size of the slots before it |
| Buffers.SlotsBelowPrefix | src/buffer.rs:71 | the slots before position i are exactly the layout's keys below the i-th slot |
| Buffers.SumBytesBelow | src/buffer.rs:70-83 | summing byte sizes in iteration order gives the total size of all keys below the bound |
| Buffers.StrideSumIsSumBytes | src/buffer.rs:61-67 | the stride fold and the running offset add up the same sizes |
| Buffers.StrideIsTotalBytes | src/buffer.rs:61-67 | the stride is the byte size of every item of the layout together |
| Buffers.BytesBelowBound | src/buffer.rs:75 | the bytes of n slots are at most n * 255 * 4 |
| Buffers.StrideFitsI32 | src/buffer.rs:75 | the stride (and so every offset) fits the `i32` it is cast to, so the cast is exact |
| Buffers.LinkPointers | src/buffer.rs:59-84 | `link` issues one attribute pointer per slot, in ascending slot order. Slot k's pointer has its own count and type, the layout's stride, and the byte size of all lower slots as offset |
| Buffers.SlotOffset | src/buffer.rs:70-83 | the running offset at the i-th slot equals the byte size of all lower slots |
| Buffers.SlotsBelowGap | src/buffer.rs:71 | a range without keys adds no slots |
| Buffers.QuadAttribs | src/main.rs:107-109 | no contract; defines the quad's layout: slots 0 and 1, both two floats |
| Buffers.QuadSlots | src/main.rs:107-109 | the quad layout's slots are 0 and 1 |
| Buffers.QuadStride | src/main.rs:107-109 | the quad layout's stride is 16 bytes |
| Buffers.QuadLayout | src/main.rs:107-110 | the quad's pointers are slot 0 at offset 0 and slot 1 at offset 8, both two floats with stride 16 |
| Buffers.VertexAttribDescriptor.constructor | src/buffer.rs:50-52 | a new layout has no slots |
| Buffers.VertexAttribDescriptor.Layout | src/buffer.rs:54-57 | `layout` sets slot `id` to the item, replacing any item there, keeps every other slot, and returns the same descriptor |
| Buffers.VertexAttribDescriptor.Link | src/buffer.rs:59-84 | `link` appends exactly the calls `LinkCalls` describes: bind the array once if unbound, then each slot in ascending order with the whole stride and the running offset. The array ends bound iff it was bound or there was a slot; the buffer's flag and the names are unchanged |
| Buffers.VertexAttribDescriptor.LinkSlots | src/buffer.rs:70-83 | the loop over a given list of slots issues that list's attribute calls, in order, with the running offset kept as the byte sum of the slots done |
| Buffers.VertexArray.constructor | src/buffer.rs:88-97 | a new array takes the next fresh name, issues `GenVertexArrays` for it, and starts unbound |
| Buffers.VertexArray.LinkAttribute | src/buffer.rs:99-121 | binds the array (if unbound) and the buffer (if its flag says so), then issues the pointer and the enable for the slot; the array ends bound |
| Buffers.VaoBind | src/buffer.rs:123-130 | no contract; defines the calls of `VertexArray::bind`: the bind only when the flag is false |
| Buffers.VaoUnbind | src/buffer.rs:132-139 | no contract; defines the calls of `VertexArray::unbind`: the bind of array 0 only when the flag is true |
| Buffers.VertexArray.Bind | src/buffer.rs:123-130 | issues `BindVertexArray(id)` exactly when the flag was false; the flag ends true, so a second bind issues nothing |
| Buffers.VertexArray.Unbind | src/buffer.rs:132-139 | issues `BindVertexArray(0)` exactly when the flag was true; the flag ends false |
| Buffers.VertexArray.Drop | src/buffer.rs:142-149 | unbinds if bound, then deletes the array |
| Buffers.VertexBuffer.constructor | src/buffer.rs:152-163 | binds the owning array first, then generates the buffer under the next fresh name; the buffer starts unbound |
| Buffers.VertexBuffer.SetData | src/buffer.rs:165-172 | issues the bind (if the flag says unbound) and then a `BufferData` of the floats' bytes, four bytes each; the flag is unchanged |
| Buffers.VertexBuffer.Bind | src/buffer.rs:174-181 | issues `BindBuffer(ARRAY_BUFFER, id)` when the flag is false, and leaves the flag as it was, so it never becomes true |
| Buffers.VertexBuffer.Unbind | src/buffer.rs:183-190 | issues the unbind exactly when the flag was true; the flag ends false |
| Buffers.VertexBuffer.Drop | src/buffer.rs:193-200 | unbinds if bound, then deletes the buffer |
| Buffers.ElementBuffer.constructor | src/buffer.rs:203-215 | generates the buffer under the next fresh name, then binds it, which binds the owning array first; the array ends bound and the buffer's flag false |
| Buffers.ElementBuffer.SetData | src/buffer.rs:217-224 | binds (array first), then issues a `BufferData` of the indices' bytes, four bytes each |
| Buffers.ElementBuffer.Bind | src/buffer.rs:226-234 | binds the array, then issues the element-buffer bind when the flag is false, leaving the flag unchanged |
| Buffers.ElementBuffer.Unbind | src/buffer.rs:236-244 | unbinds the array, then the element buffer if its flag is true; both flags end false |
| Buffers.ElementBuffer.Drop | src/buffer.rs:247-253 | deletes the buffer and issues no unbind |
| Shaders.FirstNul | src/shader.rs:50 | the position `CString::new` rejects: none iff the bytes hold no zero, else the first zero's index |
| Shaders.Decimal | src/shader.rs:50 | the position formatted in decimal: non-empty, digits only, one digit exactly for values below 10 |
| Shaders.NulMessage | src/shader.rs:50 | no contract; defines the text of the error `CString::new` reports for a NUL byte |
| Shaders.LinkSteps | src/shader.rs:71-77 | no contract; defines the five calls from creating the program to querying its link status |
| Shaders.DecimalRoundTrip | src/shader.rs:50 | reading the formatted position back gives the position |
| Shaders.Compiles | src/shader.rs:46-60 | no contract; defines a stage that compiles: readable, without NUL, reported `TRUE` |
| Shaders.Compile | src/shader.rs:45-63 | one shader object is created first, whatever happens. `ShaderSource`, `CompileShader` and the status query `GetShaderiv` follow, in that order, iff the file was read and holds no NUL. The result is the shader's name iff moreover the status is `TRUE`. Otherwise the error is the I/O error text, the NUL message for the first NUL's position, or the compile failure with the file name |
| Shaders.CompileCreatesNoProgram | src/shader.rs:45-63 | compiling a stage never creates, links or deletes anything else |
| Shaders.Link | src/shader.rs:69-86 | a program is created, both shaders attached, linked and its status queried. The result is the program iff the status is `TRUE`. The two `DeleteShader` calls follow iff it succeeded, and nothing follows otherwise. A failure reports "Shader linking failed: " with both file names |
| Shaders.Pipeline | src/shader.rs:65-87 | vertex first, fragment second, then link. The result is the program (the third fresh name) iff both stages compile and the link succeeds; one to three names are taken |
| Shaders.VertexFailureStops | src/shader.rs:66 | a vertex stage that fails gives the vertex error; no fragment shader and no program is created |
| Shaders.VertexCompileError | src/shader.rs:58-60 | a vertex stage that reaches the compiler and fails reports "Shader compilation failed: " and the vertex file name |
| Shaders.UnreadableLeaks | src/shader.rs:46-51 | an unreadable file gives the I/O error text after its shader object was created, and nothing deletes that object |
| Shaders.DeletesOnlyOnSuccess | src/shader.rs:75-83 | `DeleteShader` is issued only when the pipeline succeeds, and then as the last two calls, right after the link status is queried |
| Shaders.FragmentFailureStops | src/shader.rs:67 | a fragment stage that fails after a vertex stage that compiled gives the fragment stage's error. Two names were taken, and no program is created and no shader deleted |
| Shaders.FragmentCompileError | src/shader.rs:58-60 | a fragment stage that reaches the compiler and fails reports "Shader compilation failed: " and the fragment file name, and its status query is the last call |
| Shaders.LinkFailureMessage | src/shader.rs:78-80 | a failed link reports both file names, and the status query is the last call: no shader is deleted |
| Shaders.Shader.Init | src/shader.rs:32-35 | a program wrapper with the given name, not in use |
| Shaders.Shader.Default | src/shader.rs:21 | the derived default: program 0, not in use |
| Shaders.Shader.CompileShader | src/shader.rs:45-63 | the method returns what `Compile` describes, and appends those calls with the next fresh name |
| Shaders.Shader.CreateShader | src/shader.rs:65-87 | the method returns what `Pipeline` describes, and appends those calls using as many fresh names as `Pipeline` takes |
| Shaders.Shader.LinkStages | src/shader.rs:69-86 | the link half: returns and appends what `Link` describes, with the next fresh name as the program |
| Shaders.Shader.New | src/shader.rs:30-38 | on failure, the pipeline's error and calls. On success, a new wrapper for the built program, already in use, having issued one `UseProgram` after the pipeline |
| Shaders.Shader.Bind | src/shader.rs:89-96 | issues `UseProgram(id)` exactly when the flag was false; the flag ends true |
| Shaders.Shader.Unbind | src/shader.rs:98-105 | issues `UseProgram(0)` exactly when the flag was true; the flag ends false |
| Shaders.UseCall | src/shader.rs:89-96 | no contract; defines the calls of `Shader::bind`: `UseProgram(id)` only when the flag is false |
| Shaders.Shader.Id | src/shader.rs:107-109 | no contract; returns the stored program name |
| Shaders.Shader.Drop | src/shader.rs:112-117 | deletes the program whether or not it is in use |
| Uniforms.Uniform.New | src/uniform.rs:28-37 | puts the program in use if needed, looks the name up, takes the program out of use; the location kept is the driver's answer, unchanged |
| Uniforms.Uniform.Setf | src/uniform.rs:39-44 | puts the program in use if its flag says not, then uploads one float to the location |
| Uniforms.Uniform.Seti | src/uniform.rs:46-51 | the same, for one integer |
| Uniforms.Uniform.SetM4f | src/uniform.rs:53-58 | the same, for one 4x4 float matrix, count 1, not transposed |
| Uniforms.Uniform.Set3f | src/uniform.rs:60-65 | the same, for three floats |
| Uniforms.Uniform.Set4f | src/uniform.rs:67-72 | the same, for four floats |
| Uniforms.Uniform.SetV4f | src/uniform.rs:74-79 | the same, for a 4-vector, component by component |
| Uniforms.Uniform.SetV3f | src/uniform.rs:81-86 | the same, for a 3-vector, component by component |
| Uniforms.Uniform.SetM2f | src/uniform.rs:88-93 | the same, for one 2x2 float matrix |
| Uniforms.Uniform.SetM3f | src/uniform.rs:95-100 | the same, for one 3x3 float matrix |
| Uniforms.Uniform.SetM3d | src/uniform.rs:102-107 | the same, for one 3x3 double matrix |
| Uniforms.Uniform.Upload | src/uniform.rs:39-44 | the shape all setters share: bind if not in use, then the single upload call |
| Uniforms.UploadReachesProgram | src/uniform.rs:39-44 | after any setter, the program in use is the uniform's own program, provided its flag was truthful beforehand |
| Textures.GlToEnumInter | src/texture.rs:111-116 | always a valid filter value; `LINEAR` exactly for `Linear` |
| Textures.GlToEnumMap | src/texture.rs:118-123 | a valid wrap mode exactly for `Mirrored`; `Repeat` gives the filter value `LINEAR` |
| Textures.InterInjective | src/texture.rs:111-116 | different interpolation types give different filter values |
| Textures.GenerateCalls | src/texture.rs:84-109 | no contract; defines the calls of `generate` (see GenerateActivations, UploadFormat) |
| Textures.BindCalls | src/texture.rs:142-150 | no contract; defines the calls of `bind` (see BindActivations) |
| Textures.SettingsCalls | src/texture.rs:125-139 | no contract; defines the calls of `settings` (see SettingsShape) |
| Textures.NewCalls | src/texture.rs:51-66 | no contract; defines the calls of a successful `new` (see NewActivations) |
| Textures.Format | src/texture.rs:90-93 | no contract; defines the declared pixel format, `RGB` or `RGBA` (see UploadFormat) |
| Textures.GenerateUnit | src/texture.rs:87 | no contract; defines the unit `generate` activates, `TEXTURE0 + unit` cast to `u32` (see GenerateActivations) |
| Textures.ParameterCalls | src/texture.rs:128-136 | no contract; defines the four parameter calls of `settings` (see SettingsShape) |
| Textures.SettingsShape | src/texture.rs:125-139 | `settings` issues its bind, exactly four 2D-texture parameter calls, and then the unbind |
| Textures.BindActivations | src/texture.rs:142-150 | a bind activates unit 0 and nothing else, or nothing when already bound |
| Textures.SettingsActivations | src/texture.rs:125-139 | `settings` activates only what its bind activates |
| Textures.GenerateActivations | src/texture.rs:84-89 | the upload activates the texture's own unit, `TEXTURE0 + unit` |
| Textures.NewActivations | src/texture.rs:51-66 | a new texture activates its own unit once, then unit 0 twice, so it ends bound on unit 0 |
| Textures.UploadFormat | src/texture.rs:90-105 | the upload declares `RGB` exactly for an `Rgb` image and `RGBA` exactly for an `Rgba` one. It always requests RGBA storage, and passes the image's bytes |
| Textures.Texture.Init | src/texture.rs:58-62 | a texture with the given name and unit, not bound |
| Textures.Texture.New | src/texture.rs:51-66 | a decoder error is returned before any driver call, for any unit. Otherwise the texture takes the next fresh name and runs generate, settings (nearest, nearest, repeat, repeat) and bind; it ends bound |
| Textures.Texture.Generate | src/texture.rs:84-109 | activates `TEXTURE0 + unit`, binds, uploads and builds the mipmaps |
| Textures.Texture.Link | src/texture.rs:68-73 | looks the sampler up, puts the program in use, writes the texture's unit to the sampler, and takes the program out of use |
| Textures.Texture.Settings | src/texture.rs:125-139 | bind, the four parameters, unbind; the texture always ends unbound |
| Textures.Texture.Bind | src/texture.rs:142-150 | when the flag is false, activates unit 0 and binds (whatever the texture's unit); the flag ends true |
| Textures.Texture.Unbind | src/texture.rs:152-159 | unbinds the 2D target exactly when the flag was true; the flag ends false |
| Textures.Texture.Drop | src/texture.rs:162-167 | deletes the texture without unbinding |
| Input.FlagOf | src/main.rs:232-250 | no flag exactly for a missing key code or a key outside W, S, A, D, Q, E, Space, LShift |
| Input.FlagOfInjective | src/main.rs:236-245 | each flag is driven by exactly one key |
| Input.FlagOfOnto | src/main.rs:236-245 | every flag has a key that drives it |
| Input.IterStep | src/main.rs:326-333 | no contract; defines the iteration-count rule: double below 1024, then halve above 2 (see IterStepFlags, IterStepKeepsInv) |
| Input.IterStepFlags | src/main.rs:326-333 | `inc` is cleared exactly when the count doubles, and `dec` exactly when the doubled count halves |
| Input.IncThenDec | src/main.rs:326-333 | with both flags set and the count in [2, 1024), the count comes back unchanged and both flags clear |
| Input.IterInvValues | src/main.rs:326-333 | the counts the rule can reach are exactly 2, 4, ..., 1024 |
| Input.IterStepKeepsInv | src/main.rs:326-333 | one update keeps the count a power of two in [2, 1024], whatever the flags |
| Input.Run | src/main.rs:144-190 | no contract; defines the count after a run of frames, each applying one `update_pos` step with the flags its key events left (see RunKeepsInv) |
| Input.RunKeepsInv | src/main.rs:326-333 | starting from the initial count 2 (line 136), the count stays a power of two in [2, 1024] over any run of frames |
| Input.EvtManager.constructor | src/main.rs:214-230 | all flags clear, the mouse released at offset zero |
| Input.EvtManager.KeyStateSet | src/main.rs:232-250 | the flag the key drives gets the state; every other flag and the mouse state are kept |
| Input.EvtManager.KeyUp | src/main.rs:252-254 | clears the key's flag and keeps everything else |
| Input.EvtManager.KeyDown | src/main.rs:256-258 | sets the key's flag and keeps everything else |
| Input.EvtManager.UpdatePos | src/main.rs:326-333 | the new count and the `inc`/`dec` flags are one step of the rule; the movement flags and the mouse are kept |
| Scenarios.VertexArrayBindTwice | src/buffer.rs:123-130 | binding a vertex array twice issues one bind |
| Scenarios.VertexBufferBindTwice | src/buffer.rs:174-190 | binding a vertex buffer twice issues two binds, and the unbind after them issues nothing |
| Scenarios.QuadSetup | src/main.rs:102-110 | the viewer's quad setup describes slot 0 at offset 0 and slot 1 at offset 8 with stride 16, on the buffer it created. The element buffer of lines 105-106 is left out; it issues no attribute pointer and leaves the vertex buffer's flag false |
| Scenarios.IterUniform | src/main.rs:136-138 | the iteration-count uniform set right after the shader is built reaches that shader's program |

## Left out

- Floating point: `f32`/`f64` values are opaque bit patterns; no arithmetic on them is modelled.
- Input.EvtManager.UpdatePos: models only the iteration count. The position and magnification updates, and the clamp of the magnification, are float arithmetic and are left out.
- The mouse methods (`mouse_up`, `mouse_down`, `mouse_movement`) and `update_camera` are left out. They call the SDL mouse utility and the camera, which are not part of this model.
- The event loop, the SDL window and context, `viewport`, the draw calls, `src/camera.rs`, `src/mesh.rs` and the GLSL shaders are not part of this model.
- Reading shader files (`load_src`) and decoding PNG files (`read_png`) are inputs, not modelled. That covers UTF-8 validation, the PNG decoder, and the `next_frame(..).unwrap()` panic.
- The driver is idealised. `Gen*`/`Create*` always return the next fresh name from one counter shared by all object kinds, never 0. No call fails. Deleted names are not reused.
- Argument details the driver call ignores here are not recorded: the count 1 of `Gen*`/`Delete*`, and the pointer and length arguments of `ShaderSource`.
- Rust panics are preconditions, not modelled paths:
  - `&data[0]` on an empty slice (`SetData`, `Generate`);
  - the `unwrap` of a uniform name holding NUL (`Uniform.New`, `Texture.Link`);
  - the `i32` overflow of `TEXTURE0 + unit` for a decoded image (`Texture.New`, `Texture.Generate`);
  - doubling the iteration count past `i32` (`UpdatePos`).
- Object names are `nat`, not `GLuint`. `usize` offsets and the `GLsizeiptr` byte counts of `set_data` are unbounded integers; only the `i32` stride cast is shown to be exact (`StrideFitsI32`).
- Rust ownership and scope-end drop: each `Drop` is a method the caller invokes. When Rust runs it, and that it runs exactly once, is not modelled.
- `Shaders.Shader.Id` is modelled as a plain getter without a contract of its own.
- The `Debug` derive on `Shader` and the `#[allow(unused)]` markers are left out.
