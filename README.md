# lua_sandbox core: a Dafny model

This project models the private core of the Lua sandbox (`src/lua_sandbox_private.c`). The model covers:

- the allocator hook that charges every engine allocation to a memory ledger with a ceiling and a peak;
- the output buffer into which scripts write, with its three write primitives and its growth rule;
- the script-facing `output(...)` dispatcher that turns Lua values into bytes;
- teardown, the output counters and the instruction counter;
- the capability loader: `load_library` and the script-facing `require(name)`, which resolves a name through the `package.loaded` cache, a fixed set of built-in libraries with deny-lists, or a script under a configured root directory.

Modules:

- `Common` (`common.dfy`): bytes, `Option`, `Result` and `UpToNul`, the C-string view of a sequence (everything before its first NUL). The model truncates at NUL wherever the source hands a buffer to a C string routine (`strlen`, `%s`, `strcmp`, `lua_setfield`).
- `Memory` (`memory.dfy`): the usage row `Usage(current, peak, limit)`, where a limit of 0 means unlimited. `Allocate` is the pure rule of `memory_manager`. `Replay` runs a whole trace of engine requests against a table of live blocks and proves that the ledger always equals the sum of the live blocks.
- `OutputBuffer` (`output_buffer.dfy`): class `Buffer`, holding an `array<byte>`, `size`, `pos` and `maxsize`, with `Realloc` (`realloc_output`), `Appends`, `Appendc` and `AppendFormatted` (`appendf` with the format `"%s"`). The doubling loop shared by `realloc_output` and `appendf` is the method `GrowSize`, specified by the function `Doubling`.
- `SandboxCore` (`sandbox.dfy`): class `Sandbox`, holding the memory and output usage rows, the state, whether the engine is open, the require root, the error slot and the output buffer. Its methods are `MemoryManager`, `Terminate`, `UpdateOutputStats` and `Output`. Beside the class are `InstructionUsage` and the pure specification `Emitted` of what `output` writes.
- `Loader` (`loader.dfy`): Lua values, the deny-lists and the built-in `strcmp` chain. The pure function `Require` specifies `require_library`, and class `Interpreter` carries `LoadLibrary` and `RequireLibrary`, the step-by-step methods proved equal to it.

Host effects treated as parameters or choices:

- Each `malloc`/`realloc` in a method is a nondeterministic choice (`var hostOk: bool :| true`), so every contract holds whether the host memory allocation succeeds or not. The pure functions take that outcome as a parameter.
- The engine is visible only through its values. A library loader is a function `open` from name to table. Running a script file is a function `dofile` from path to `Chunk`, which is either the values returned or a diagnostic.
- The external serialisers of numbers, tables and circular buffers are given as an `Encoding`: either the bytes they write or a failure with a diagnostic.

Where the code and the written design differ, the model follows the code:

- Strings are written up to their first NUL, not verbatim.
- A failed `appendf` leaves the truncated copy written by its first `vsnprintf` past `pos`. The visible contents `data[..pos]` and `pos` are unchanged, but the bytes after `pos` do change.
- A `require` that fails after the placeholder step leaves `true` in `package.loaded`, so a later `require` of that name returns `true`.
- An external chunk that returns nothing makes `require` store and return the `package.loaded` table itself. The loader takes the top of the stack after `luaL_dofile` keeps every returned value, and the model has the value `LoadedTable` for this reference. `luaL_dofile` lives in the engine's auxiliary library, which is not part of this model.
- `output()` does not clear the error slot on entry. A failure is therefore reported with whatever message the slot holds, and "output_limit exceeded" only when the slot is empty.

## Model

| member | source | states |
|---|---|---|
| Memory.Allocate | src/lua_sandbox_private.c:62-89 | Freeing (`nsize` 0) always succeeds and subtracts `osize`. A request is granted exactly when `nsize > 0`, the host allocation succeeds and the new total is within a non-zero limit (or the limit is 0); it then sets the total and raises the peak to the total when exceeded. A refusal changes nothing. The limit never changes, staying within the limit and `current <= peak` are preserved, and the peak never drops. |
| Memory.SumUpdate | src/lua_sandbox_private.c:62-89 | Resizing one live block changes the sum of all live blocks by exactly the old and new sizes, which is the arithmetic `memory_manager` applies with `osize` and `nsize`. |
| Memory.Replay | src/lua_sandbox_private.c:62-89 | Over any trace of engine requests and host outcomes, the ledger's current value always equals the sum of the live block sizes. The limit never changes, staying within the limit and `current <= peak` are preserved, and the peak never drops. |
| SandboxCore.Sandbox.MemoryManager | src/lua_sandbox_private.c:62-89 | The in-place allocator hook updates the memory row exactly as `Allocate` does for the host outcome it met: freeing subtracts `osize`, over-limit requests are refused unchanged, and grants set the total and the peak. |
| SandboxCore.InstructionUsage | src/lua_sandbox_private.c:100-103 | The instructions used plus those remaining equal the configured hook count; usage never exceeds the count. |
| SandboxCore.Sandbox.Terminate | src/lua_sandbox_private.c:106-114 | After teardown the engine is closed, the state is terminated and the current memory is 0. The peak, the limit and every other field are unchanged. |
| SandboxCore.Sandbox.UpdateOutputStats | src/lua_sandbox_private.c:117-125 | The output counter equals the write position, and the peak becomes the larger of the old peak and the position, so it never drops. |
| OutputBuffer.DoublingBounds | src/lua_sandbox_private.c:185-187 | The doubling loop stops at a size that is at least where it started, leaves room for `needed` bytes past `pos`, and is either the starting size or at most twice `pos + needed`. |
| OutputBuffer.GrowSize | src/lua_sandbox_private.c:184-190 | The loop computes `Doubling` from twice the old size, clamped to a non-zero ceiling. The result never exceeds that ceiling, never shrinks a valid buffer, and leaves room for the request except when clamped exactly to it. |
| OutputBuffer.Buffer.Realloc | src/lua_sandbox_private.c:180-198 | The limit fails exactly when a non-zero ceiling is below `needed + pos`. Any failure keeps the region and the size. Success gives a region of the doubled, clamped size with `needed` bytes free past `pos`, keeps every old byte, and keeps the buffer invariant. |
| OutputBuffer.Buffer.AppendBytes | src/lua_sandbox_private.c:201-210 | Success appends exactly the given bytes, re-terminates, and keeps the same region when they fit. A failure changes nothing at all. The limit fails exactly when the bytes do not fit and their length plus 1 plus `pos` passes a non-zero ceiling. |
| OutputBuffer.Buffer.Appends | src/lua_sandbox_private.c:201-210 | The same as `AppendBytes`, for the C string: success appends exactly the string's bytes before its first NUL. |
| OutputBuffer.Buffer.Copy | src/lua_sandbox_private.c:207-208 | The copy step of `appends`: when the bytes and a terminator fit, the contents gain exactly those bytes, `pos` moves past them and the byte at `pos` is the NUL. |
| OutputBuffer.Buffer.Appendc | src/lua_sandbox_private.c:213-222 | Success appends exactly the one byte and re-terminates; a failure changes nothing. The limit fails exactly when fewer than 2 bytes are free and `pos + 2` passes a non-zero ceiling. |
| OutputBuffer.Buffer.Vsnprintf | src/lua_sandbox_private.c:136-138 | `vsnprintf` with `"%s"` returns the full string length. It writes the string and a NUL when it fits, and otherwise the longest prefix that fits followed by a NUL in the last byte. It never touches bytes before `pos`. |
| OutputBuffer.Buffer.Regrow | src/lua_sandbox_private.c:147-169 | The grow step of `appendf` fails at the limit exactly when a non-zero ceiling is already reached or `pos + needed` reaches it. Otherwise it moves to a fresh region of the doubled, clamped size, with room for the text past `pos` and the first `pos` bytes copied. |
| OutputBuffer.Buffer.FormatBytes | src/lua_sandbox_private.c:128-177 | The loop ends: success appends exactly the text and re-terminates, in place when it fits and otherwise in a fresh region of the doubled, clamped size. A failure keeps `pos`, the region, the size and `data[..pos]`, but leaves the truncated copy and a final NUL past `pos`. The limit fails exactly when the text does not fit and a non-zero ceiling is reached by the size or by `pos + len`. |
| OutputBuffer.Buffer.AppendFormatted | src/lua_sandbox_private.c:128-177 | `appendf(output, "%s", s)` behaves as `FormatBytes` on the C string view of `s`. |
| SandboxCore.Render | src/lua_sandbox_private.c:241-297 | One argument's bytes hold no NUL, so no argument can cut the output string short. A skipped argument (other userdata, unsupported types) writes nothing, and a table's text always ends in a newline. |
| SandboxCore.Emitted | src/lua_sandbox_private.c:240-297 | The bytes of a whole argument list, the arguments' renderings in order, hold no NUL. |
| SandboxCore.EmittedConcat | src/lua_sandbox_private.c:240-302 | The dispatcher adds no separators: writing two argument lists in one call writes the same bytes as writing them one after the other. |
| SandboxCore.EmittedExample | src/lua_sandbox_private.c:241-262 | `output(nil, true, <number>, "x")` writes "nil", then "true", then the number's text, then "x", with nothing in between. |
| SandboxCore.Sandbox.Format | src/lua_sandbox_private.c:247-262 | `appendf(&lsb->output, "%s", s)` seen from the dispatcher: success adds the C string of `s` and re-terminates; failure leaves the visible contents unchanged. The ceiling never changes and the region never shrinks. |
| SandboxCore.Sandbox.Put | src/lua_sandbox_private.c:252-256 | `appends(&lsb->output, s)` seen from the dispatcher: success adds the C string of `s` and re-terminates; failure leaves the contents unchanged. The ceiling never changes and the region never shrinks. |
| SandboxCore.Sandbox.EmitText | src/lua_sandbox_private.c:247-262 | A string adds its C string; nil adds "nil" with `appends`; a boolean adds "true" or "false". A failure writes nothing visible. |
| SandboxCore.Sandbox.Delegate | src/lua_sandbox_private.c:242-246 | A value handed to an external serialiser adds exactly the serialiser's text on success. On failure nothing is written. The error slot keeps its message, unless the serialiser is handed the sandbox (only the JSON serialiser is), in which case it may take the serialiser's non-empty diagnostic. |
| SandboxCore.Sandbox.EmitTable | src/lua_sandbox_private.c:263-286 | A table adds its JSON text followed by a newline. A failure leaves either nothing or exactly the JSON text. On success the error slot is unchanged. On failure it keeps its message, takes "json table serialization out of memory", or takes the serialiser's non-empty diagnostic, and it can change only when nothing was written. So the out-of-memory message never follows a written JSON text, and a newline that does not fit after a non-empty JSON text leaves the slot as it was. The ceiling never changes and the region never shrinks. |
| SandboxCore.Sandbox.EmitEncoded | src/lua_sandbox_private.c:241-246 | A number or circular buffer adds exactly its serialiser's text, and a table adds its JSON text and a newline. A failure leaves a prefix of that. A number or circular buffer never touches the error slot. A table changes it only on a failure that wrote nothing, and then only to the out-of-memory message or the JSON serialiser's non-empty diagnostic. The ceiling never changes and the region never shrinks. |
| SandboxCore.Sandbox.EmitOne | src/lua_sandbox_private.c:241-297 | One argument adds exactly its rendering. Other userdata and unsupported types write nothing and cannot fail. A failure leaves the buffer between the old contents and the old contents plus the rendering. The error slot is unchanged on success and on any failure that wrote something. Otherwise it changes only for a table, to the out-of-memory message or the JSON serialiser's diagnostic. No other type ever touches it. The ceiling never changes and the region never shrinks. |
| SandboxCore.Sandbox.Dispatch | src/lua_sandbox_private.c:240-297 | The arguments are written in order. With no failure, the buffer gains exactly `Emitted(args)` and the error slot is unchanged. On the first failure, at argument `k`, the buffer holds everything before `k` and a prefix of argument `k`'s rendering. `k` is not a skipped argument and nothing after `k` is attempted. The slot changes only when `k` is a table that wrote nothing, and then only to the out-of-memory message or the JSON serialiser's diagnostic. The ceiling never changes and the region never shrinks. |
| SandboxCore.Sandbox.Output | src/lua_sandbox_private.c:225-307 | With no arguments it raises "output() must have at least one argument" and changes nothing, neither the fields nor the buffer's bytes. Otherwise the dispatch runs and the output counters are refreshed. On success exactly `Emitted(args)` is added and the error slot is unchanged. On failure it raises the slot's message, or "output_limit exceeded" when the slot is empty, with the partial-write bounds of `Dispatch`. The slot changes only when the failing argument is a table. Any other failing argument is reported with the slot's message from before the call, so with an empty slot a failing nil, boolean, number, string or circular buffer always raises "output_limit exceeded". A failing argument that wrote part of its rendering, such as a table whose newline did not fit, is reported with the slot's message from before the call, or "output_limit exceeded" when that was empty. The ceiling never changes and the region never shrinks. |
| Loader.Interpreter.LoadLibrary | src/lua_sandbox_private.c:38-59 | For the base table "" every deny-listed name is removed from the globals and the library table is returned unmarked. Otherwise the globals are untouched and the returned table lacks exactly the deny-listed members and carries the marker. |
| Loader.CheckModuleName | src/lua_sandbox_private.c:371-377 | The character loop accepts a name exactly when every character is an ASCII letter, a digit or an underscore. |
| Loader.ModulePath | src/lua_sandbox_private.c:378-383 | A path exists exactly when `root + "/" + name + ".lua"` is shorter than 255 characters. It is then exactly the root, the delimiter, the name and ".lua". |
| Loader.ModulePathStaysInRoot | src/lua_sandbox_private.c:371-383 | For a validated name, the path holds no delimiter after the root and no dot before the extension, so it cannot leave the root directory. |
| Loader.Store | src/lua_sandbox_private.c:392-393 | `lua_setfield`: afterwards the key reads the stored value, and a nil value removes the key. No other key changes. |
| Loader.BuiltinDenyList | src/lua_sandbox_private.c:333-359 | The `strcmp` chain recognises exactly the ten built-in names. It opens `os` with its six-name deny-list, `cjson` with its six-name deny-list, and every other built-in with none. Every built-in name would also pass the external name check. |
| Loader.Claim | src/lua_sandbox_private.c:329-331 | The placeholder step sets the name's cache entry to `true`. It changes no other entry, no global and no file log. |
| Loader.RequireBuiltin | src/lua_sandbox_private.c:333-360 | The built-in branch returns a marked table whose members are exactly the loader's members minus the deny-list. It caches that table and runs no file. |
| Loader.RequireExternal | src/lua_sandbox_private.c:360-393 | The external branch leaves the globals alone. On failure it leaves the cache as it found it (holding the placeholder); on success it caches the returned value. It runs either no file or exactly `root + "/" + name + ".lua"`, for a valid name and a path that fits. |
| Loader.Require | src/lua_sandbox_private.c:313-395 | `require` keeps the `package` table present or absent as it was. A successful result is what the cache then holds under the name. The globals change only on success, and then only by setting the result under `cjson`. At most one file is added to the log. |
| Loader.Interpreter.LoadBuiltin | src/lua_sandbox_private.c:333-360 | The built-in branch leaves the state and result exactly as `RequireBuiltin`: the stripped, marked table is cached and returned, and for `cjson` it is also set as a global. |
| Loader.Interpreter.LoadExternal | src/lua_sandbox_private.c:360-391 | The external branch leaves the state and result exactly as `RequireExternal`. It checks the root, the name and the path length in that order, logs the one file it runs, passes a failing chunk's diagnostic through, and caches the chunk's last value (marked when it is a table) or the `package.loaded` table when the chunk returns nothing. |
| Loader.Interpreter.RequireLibrary | src/lua_sandbox_private.c:313-395 | The step-by-step `require_library` leaves the globals, the package table and the log of files run exactly as `Require` says, and returns exactly what `Require` returns or raises. |
| Loader.RequireWithoutCache | src/lua_sandbox_private.c:316-323 | Without a `package` table, or without `package.loaded`, `require` raises the matching "... table is missing" message and changes nothing. |
| Loader.RequireCached | src/lua_sandbox_private.c:324-327 | A name whose cache entry is non-nil is answered with that entry, and nothing is loaded, run or changed. |
| Loader.SelfRequireSeesPlaceholder | src/lua_sandbox_private.c:329-331 | Once the placeholder is installed, a nested `require` of the same name returns `true` without loading, so a dependency loop ends. |
| Loader.RequireTwice | src/lua_sandbox_private.c:313-395 | A second `require` of a name changes nothing and returns what the first returned, unless that was nil. After a failed first `require` it returns the `true` placeholder. |
| Loader.BuiltinLoaded | src/lua_sandbox_private.c:333-360 | A built-in not yet cached yields a marked table whose members are exactly the loader's members minus the deny-list, with the loader's values. The cache then holds that table and no file runs. Only `cjson` is also published as a global. |
| Loader.ExternalLoaded | src/lua_sandbox_private.c:360-393 | A valid external name, not cached and not built-in, whose path fits runs exactly `root + "/" + name + ".lua"` and leaves the globals alone. A failing chunk raises its own diagnostic, and the `true` placeholder stays cached. Otherwise the chunk's last value is returned and cached, marked when it is a table; a chunk that returns nothing yields the `package.loaded` table itself. |
| Loader.OsMembersRemoved | src/lua_sandbox_private.c:339-342 | The `os` table a script receives holds no `execute`, `exit`, `remove`, `rename`, `setlocale` or `tmpname`. |
| Loader.CjsonMembersRemoved | src/lua_sandbox_private.c:353-359 | The `cjson` table a script receives holds none of the six encoder members, keeps `decode`, and is also installed as the global `cjson`. |
| Loader.ExternalGuards | src/lua_sandbox_private.c:360-387 | With no root configured, with an invalid name, or with a path of 255 characters or more, `require` raises and runs no file. Without a root the message is "require_library() external modules are disabled"; for a valid name whose path is too long it is "require_path exceeded 255". Otherwise at most one file runs, `root + "/" + name + ".lua"`, shorter than 255 characters. |
| Loader.InvalidNameRefused | src/lua_sandbox_private.c:371-377 | Whatever the root, a name that fails the character check raises "invalid module name '<name>'", runs no file and keeps the `true` placeholder. |
| Loader.TraversalNameInvalid | src/lua_sandbox_private.c:371-377 | "../etc/passwd" is its own C string and fails the name check. |
| Common.UpToNul | src/lua_sandbox_private.c:203 | The C-string view is the longest prefix without a NUL: it is a prefix, holds no NUL, and is followed by a NUL when shorter than the sequence. |

## Left out

- Memory.Allocate: the source computes the proposed total in 32-bit unsigned arithmetic (`(unsigned)(current + nsize - osize)`) and subtracts in a `size_t` counter; integers here are unbounded, so wrap-around of the ledger is not modelled.
- Memory.Allocate, SandboxCore.Sandbox.MemoryManager: both require `osize <= current`. The engine's allocator interface guarantees that, because `osize` is the size of a block it was granted, and `Replay` proves the ledger invariant behind it, but the hook itself does not check.
- SandboxCore.InstructionUsage: requires the remaining count not to exceed the hook count, as the engine maintains. The `size_t` wrap-around of the source's subtraction is not modelled.
- OutputBuffer.GrowSize: `size_t` overflow of the doubling and the `(int)` casts of `remaining` and `needed` in `appendf` are not modelled.
- OutputBuffer.Buffer.AppendFormatted: only the format `"%s"` and the non-Windows build are modelled. There, `vsnprintf` with `"%s"` on a NUL-terminated string shorter than INT_MAX bytes returns the full length and never -1, so the format-error meaning of the `needed == -1` branch (lines 140-146) cannot arise. On Windows, as the source's comment says, -1 reports every overflow whatever the format. `needed = remaining` then drives grow-and-retry rounds, each doubling the region, until the text fits; those rounds are not modelled.
- OutputBuffer.Buffer.Valid: `pos < size` rules out a zero-sized buffer. The source does not: with `size == 0` the doubling loops at lines 153-156 and 185-187 never end, because `0 * 2 == 0`. The host always creates the buffer with a non-zero initial size, which the constructor here requires. The constructors here (`OutputBuffer.Buffer` and `SandboxCore.Sandbox`) also require the initial size to be at most a non-zero ceiling. A host starting above the ceiling would have its buffer shrunk to the ceiling by the clamp at lines 189-190 on the first growth; that case is not modelled.
- OutputBuffer.Buffer.Realloc: `realloc` is modelled as a fresh region holding the old bytes; whether the host moves the block is not observable here.
- The light-userdata `NULL` checks at the start of `output()` and of the external branch of `require_library` are left out; the host always installs the upvalue.
- `instruction_manager` (the hook that raises "instruction_limit exceeded") is engine-driven control flow and is not modelled.
- `serialize_double`, `serialize_kvp_as_json` and `output_circular_buffer` are external code. They appear only as an `Encoding`: the bytes they write on success, or a failure that writes nothing. Only `serialize_kvp_as_json` is handed the sandbox (line 279), so only its failure may leave a diagnostic in the error slot; `serialize_double` (line 243) and `output_circular_buffer` (lines 291-292) receive just the output buffer and cannot reach it. Partial writes by a failing serialiser are not modelled.
- `userdata_type` is an external type check; the model receives userdata already classified as a circular buffer or other userdata.
- The names `lsb_circular_buffer_table`, `lsb_bloom_filter_table` and `lsb_hyperloglog_table` come from headers that are not part of this model. They are taken to be "circular_buffer", "bloom_filter" and "hyperloglog".
- `PATH_DELIMITER` is the non-Windows `'/'`.
- The side effects of the `luaopen_*` functions (global registration and metatables of their own) are not modelled; a library is the table its loader returns.
- Loader.ExternalLoaded: `lua_setmetatable` on a value that is not a table (userdata, or the per-type metatable of another type, including the `package.loaded` table in the no-result case) is not tracked.
- Loader.Require: a chunk run by `luaL_dofile` may itself change the engine state (the globals, the cache, nested `require` calls); `dofile` here produces only its values or diagnostic. A non-string error object of a failing chunk is not distinguished from a string diagnostic.
- Loader.Require: Lua's coercion of a number argument to a string by `luaL_checkstring`, and its error for other argument types, are not modelled; the argument is the byte string.
- SandboxCore.Sandbox.UpdateOutputStats: the source stores `(unsigned)lsb->output.pos`, a 32-bit truncation of the position, in the counter (line 119). The counter here is the unbounded position.
- SandboxCore.Sandbox.Output: the source raises with `luaL_error(lua, lsb->error_message)` (line 304), which uses the slot's text as a format string, so a `%` in a serialiser's diagnostic is expanded rather than shown. The model keeps the raised message equal to the slot's text.
- SandboxCore.Sandbox.Output: the type switch reads `lua_type(lua, i)` on the calling stack, but the boolean and table cases read from `lsb->lua`, the sandbox's main stack (lines 259, 276-279). Under a coroutine these are different stacks. `Arg` describes one value seen the same way by every case, so the model assumes a single stack.
- SandboxCore.Sandbox.Output: `snprintf` into the error slot truncates a message to `LSB_ERROR_SIZE` bytes; the slot here holds the whole message.
- Loader.ModulePath: module names, the root and paths are `string`s, and each character stands for one byte of the C string, so lengths compared with MAX_PATH are byte counts. Characters that would take several bytes in the engine's encoding are not modelled.
- Loader.CheckModuleName: `isalnum` is taken in the C locale on ASCII; locale-dependent classification is not modelled.
