# busybox line reader, modelled in Dafny

This project models the byte-at-a-time chunk reader of busybox's
`libbb/get_line_from_file.c` and the two line readers built on it:

- `bb_get_chunk_from_file(file, end)` reads bytes with `getc` into a heap
  buffer that it grows 80 bytes at a time. It stops after a NUL byte. It also
  stops after a `'\n'` when the `end` pointer is not null. Otherwise it stops
  at end of stream. It then resizes the buffer to exactly `idx + 1` bytes
  and NUL-terminates it. This usually shrinks the buffer. When `idx` is a
  positive multiple of 80 the buffer is exactly full, and it grows by one byte. It returns null when no byte was read, and stores the
  count in `*end` when `end` is given.
- `xmalloc_fgets(file)` is the reader with newline detection on. The line
  keeps its trailing `'\n'`.
- `xmalloc_fgetline(file)` overwrites a trailing `'\n'` with NUL in place.

Files:

- `libc.dfy` (module `Libc`) holds what the reader uses from outside the file.
  A byte type and EOF. A `Stream` class for `FILE *`: a constant byte
  sequence and a read position that `Getc` advances. An `IntRef` class for
  the `int *end` out-parameter. `XRealloc` for `xrealloc`: a fresh block of
  the requested size that keeps the old block's leading bytes.
- `chunk_spec.dfy` (module `ChunkSpec`) defines what a chunk is, independently
  of the loop. `ChunkLen(s, detectNewline)` is the number of bytes consumed
  from remaining bytes `s`. `Chunks` is the sequence of chunks that
  successive reads return. `StripNewline` is the line `xmalloc_fgetline`
  yields. The lemmas about them are here.
- `get_line_from_file.dfy` (module `GetLineFromFile`) holds the three C
  functions as imperative methods over a reallocated `array`, proved against
  `ChunkSpec`. The `while` loop of `bb_get_chunk_from_file` (lines 26-35) is
  its own method, `ReadChunkBytes`. `GetChunkFromFile` calls it and then
  does the tail of the C function (lines 36-48). Two client methods,
  `ScenarioTwoLines` and `ScenarioEmbeddedNul`, read the streams `"ab\ncd"`
  and `"ab\0cd\n"` call by call. A third client, `ReadAllLines`, calls
  `XmallocFgets` in a loop until it returns null.

Newline detection is not a separate flag. As in the C code, it is on exactly
when `end` is not null.

## Model

| member | source | states |
|---|---|---|
| `Libc.Stream.Getc` | libbb/get_line_from_file.c:26 | `getc` returns the next byte as a value in 0..255 and advances the position by one. At end of stream it returns EOF (-1) and leaves the position unchanged. A 0xFF byte is never confused with EOF. |
| `Libc.XRealloc` | libbb/get_line_from_file.c:30 | `xrealloc(p, size)` gives a block of exactly `size` bytes. Every prefix of length up to `min(old size, size)` equals the old block's prefix. A null `p` is a plain allocation. |
| `ChunkSpec.ChunkLen` | libbb/get_line_from_file.c:26-35 | The bytes consumed from remaining stream `s`: at most `|s|`, zero exactly when `s` is empty, no terminator before the last consumed byte, and the last consumed byte is a terminator unless the whole stream was consumed. |
| `ChunkSpec.ChunkLenUnique` | libbb/get_line_from_file.c:26-35 | Any length that meets the stopping rule (at least one byte, no earlier terminator, ends on a terminator or at end of stream) equals `ChunkLen`. So the stopping rule fixes the length. |
| `ChunkSpec.ChunkLenAdvance` | libbb/get_line_from_file.c:32-34 | One more byte read inside the chunk: if it is a terminator the chunk ends right after it. If the chunk ends right after it, it was a terminator or the last byte of the stream. |
| `ChunkSpec.NulTerminates` | libbb/get_line_from_file.c:33-34 | A NUL at offset `k` ends the chunk no later than `k + 1` bytes, with or without newline detection. |
| `ChunkSpec.NoNulReadsToEnd` | libbb/get_line_from_file.c:14-17 | Without newline detection `'\n'` is an ordinary byte: a stream with no NUL is returned whole, newlines included. |
| `ChunkSpec.NewlineChunkIsPrefix` | libbb/get_line_from_file.c:33 | Turning newline detection on can only end the chunk earlier. The chunk read with it is a prefix of the chunk read without it. |
| `ChunkSpec.ChunksFlatten` | libbb/get_line_from_file.c:26-35 | Concatenating the chunks of successive reads gives back the whole stream. |
| `ChunkSpec.ChunksAreChunking` | libbb/get_line_from_file.c:26-35 | Every chunk of successive reads is non-empty and has no terminator before its last byte. Every chunk but the last ends on a terminator. |
| `ChunkSpec.ChunkingUnique` | libbb/get_line_from_file.c:26-35 | The split into chunks is unique. Any split with the properties above is the sequence of chunks the reader returns. |
| `ChunkSpec.ChunkCount` | libbb/get_line_from_file.c:26-35 | Successive reads return exactly one non-null chunk per terminator in the stream, plus one more when the stream ends in bytes that no terminator closes. |
| `ChunkSpec.StripNewlineRestores` | libbb/get_line_from_file.c:65-66 | Stripping drops nothing but one trailing `'\n'`. It shortens the line exactly when the line ends in `'\n'`. |
| `ChunkSpec.LineHasNoNewline` | libbb/get_line_from_file.c:59-68 | A line read with newline detection holds no `'\n'` at all once its trailing newline is stripped. Stripping it again changes nothing. |
| `GetLineFromFile.ReadAllLines` | libbb/get_line_from_file.c:52-57 | Calling `xmalloc_fgets` until it returns null yields exactly the chunks of the stream, in order. Their concatenation is the whole stream, and the stream ends up fully consumed. |
| `GetLineFromFile.CapacityStep` | libbb/get_line_from_file.c:28-32 | Growing by 80 when full, then storing one byte, keeps the capacity a multiple of 80 that holds every stored byte and wastes fewer than 80 bytes. |
| `GetLineFromFile.ReadChunkBytes` | libbb/get_line_from_file.c:26-35 | The read loop consumes exactly `ChunkLen` bytes and stores exactly those bytes in order in `linebuf[..idx]`. On exit the capacity invariant holds (a multiple of 80, `idx <= linebufsz < idx + 80`, zero and no buffer when nothing was read). Every store `linebuf[idx]` is proved to be within the array. |
| `GetLineFromFile.GetChunkFromFile` | libbb/get_line_from_file.c:19-49 | The stream advances by exactly the chunk length. The result is null exactly when no byte was read. A non-null result is a fresh block of exactly `n + 1` bytes: the chunk, then a NUL at index `n`. `*end == n` when `end` is given. |
| `GetLineFromFile.XmallocFgets` | libbb/get_line_from_file.c:52-57 | The chunk read with newline detection on, trailing `'\n'` kept and NUL-terminated. Null exactly at end of stream. |
| `GetLineFromFile.XmallocFgetline` | libbb/get_line_from_file.c:60-69 | Null exactly at end of stream, and never dereferenced then. Otherwise the buffer keeps the chunk's size `n + 1`. It starts with the chunk minus a trailing `'\n'`, and every byte after that is NUL. So a trailing newline is overwritten in place and any other last byte is left alone. |

## Left out

- The real `FILE *` and `getc`: a stream is a constant byte sequence plus a read position.
- Read errors: `getc` reports an error as EOF, so an error ends the loop like end of stream. The `ferror` check at lines 39-44 is commented out in the source.
- `xrealloc` failure: the suite's allocate-or-die policy is not modelled, and allocation always succeeds.
- Libc.XRealloc: always returns a fresh block, so the model does not capture `realloc` handing back the same pointer. Bytes beyond the copied prefix are left unspecified.
- GetLineFromFile.ReadChunkBytes / GetLineFromFile.GetChunkFromFile: `idx` and `linebufsz` are unbounded, so the signed overflow of `linebufsz += 80` (line 29) on chunks longer than 2147483600 bytes is not modelled. 2147483600 is `INT_MAX` rounded down to a multiple of 80.
- The cast `(char) ch`: stored bytes are kept as values 0..255, so a signed `char` representation is not modelled.
- The fast variants `xmalloc_fgets_internal` and `xmalloc_fgetline_fast` (lines 71-119): they are unused, and they rely on the C library's `fgets` and `strlen`, which are not part of this model.
- The `#if 0` block (lines 121-139): it is dead code.
- The `FAST_FUNC` calling-convention attribute: it has no effect on behaviour.
- `libbb.h` is not part of this model.
