/**
 * libbb/get_line_from_file.c: read a chunk of a stream byte by byte into a
 * growing heap buffer, and the two line readers built on it.
 */
module GetLineFromFile {
  import opened Libc
  import opened ChunkSpec

  /** The step by which the line buffer grows. */
  const GROWTH: nat := 80

  /**
   * The capacity the buffer has after `idx` bytes were stored in it: zero
   * before the first byte, then the least multiple of GROWTH that holds
   * them. So the buffer never holds more than GROWTH - 1 unused bytes.
   */
  ghost predicate CapacityFits(idx: nat, linebufsz: nat)
  {
    linebufsz % GROWTH == 0 &&
    idx <= linebufsz &&
    (idx == 0 ==> linebufsz == 0) &&
    (idx > 0 ==> linebufsz < idx + GROWTH)
  }

  /**
   * Storing one more byte, after growing the buffer by GROWTH when it is
   * full, keeps the capacity fitted to the bytes stored.
   */
  lemma CapacityStep(idx: nat, linebufsz: nat)
    requires CapacityFits(idx, linebufsz)
    ensures CapacityFits(idx + 1, if idx >= linebufsz then linebufsz + GROWTH else linebufsz)
  {
  }

  /**
   * The read loop of `bb_get_chunk_from_file`: `getc` until EOF or a
   * terminator, storing every byte read, the terminator included, into a
   * buffer grown by GROWTH bytes whenever it is full. It consumes exactly the
   * chunk at the front of the stream and leaves it in `linebuf[..idx]`.
   */
  method ReadChunkBytes(file: Stream, detectNewline: bool)
    returns (linebuf: array?<byte>, linebufsz: nat, idx: nat)
    requires file.Valid()
    modifies file
    ensures file.Valid()
    ensures idx == ChunkLen(old(file.Remaining()), detectNewline)
    ensures file.pos == old(file.pos) + idx
    ensures CapacityFits(idx, linebufsz)
    ensures linebuf == null <==> linebufsz == 0
    ensures linebuf != null ==>
              fresh(linebuf) && linebuf.Length == linebufsz &&
              linebuf[..idx] == Chunk(old(file.Remaining()), detectNewline)
  {
    ghost var rem := file.Remaining();
    idx := 0;
    linebuf := null;
    linebufsz := 0;

    while true
      invariant file.Valid() && file.pos == old(file.pos) + idx
      invariant idx <= ChunkLen(rem, detectNewline)
      invariant idx == ChunkLen(rem, detectNewline) ==> idx == |rem|
      invariant CapacityFits(idx, linebufsz)
      invariant linebuf == null <==> linebufsz == 0
      invariant linebuf != null ==> fresh(linebuf) && linebuf.Length == linebufsz
      invariant linebuf != null ==> linebuf[..idx] == rem[..idx]
      decreases |rem| - idx
    {
      var ch := file.Getc();
      if ch == EOF {
        break;
      }
      assert ch == rem[idx] as int;
      ChunkLenAdvance(rem, detectNewline, idx);
      CapacityStep(idx, linebufsz);
      // full: make room for GROWTH more bytes
      if idx >= linebufsz {
        linebufsz := linebufsz + GROWTH;
        linebuf := XRealloc(linebuf, linebufsz);
      }
      assert linebuf[..idx] == rem[..idx];
      linebuf[idx] := ch as byte;
      assert linebuf[..idx + 1] == rem[..idx] + [rem[idx]] == rem[..idx + 1];
      idx := idx + 1;
      if ch == 0 || (detectNewline && ch == NEWLINE as int) {
        break;
      }
    }
    assert Chunk(rem, detectNewline) == rem[..idx];
  }

  /**
   * `bb_get_chunk_from_file(file, end)`: reads bytes with `getc` until a
   * NUL, a '\n' when `end` is not null, or the end of the stream. Every byte
   * read is stored, the terminator included. A non-null result holds exactly
   * the bytes read followed by a NUL; null means no byte was read. When `end`
   * is not null it receives the number of bytes read.
   */
  method GetChunkFromFile(file: Stream, end: IntRef?) returns (linebuf: array?<byte>)
    requires file.Valid()
    modifies file, end
    ensures file.Valid()
    ensures var n := ChunkLen(old(file.Remaining()), end != null);
            && file.pos == old(file.pos) + n
            && file.Remaining() == old(file.Remaining())[n..]
            && (linebuf == null <==> n == 0)
            && (linebuf != null ==>
                  fresh(linebuf) && linebuf.Length == n + 1 &&
                  linebuf[..n] == Chunk(old(file.Remaining()), end != null) &&
                  linebuf[n] == 0)
            && (end != null ==> end.value == n)
  {
    var linebufsz, idx;
    linebuf, linebufsz, idx := ReadChunkBytes(file, end != null);
    if end != null {
      end.value := idx;
    }
    if linebuf != null {
      ghost var stored := linebuf[..idx];
      linebuf := XRealloc(linebuf, idx + 1);
      assert linebuf[..idx] == stored;
      linebuf[idx] := 0;
      assert linebuf[..idx] == stored;
    }
  }

  /**
   * `xmalloc_fgets(file)`: the next line, its trailing '\n' kept; null at
   * the end of the stream.
   */
  method XmallocFgets(file: Stream) returns (line: array?<byte>)
    requires file.Valid()
    modifies file
    ensures file.Valid()
    ensures var c := Chunk(old(file.Remaining()), true);
            && file.Remaining() == old(file.Remaining())[|c|..]
            && (line == null <==> c == [])
            && (line != null ==>
                  fresh(line) && line.Length == |c| + 1 &&
                  line[..|c|] == c && line[|c|] == 0)
  {
    var i := new IntRef();
    line := GetChunkFromFile(file, i);
  }

  /**
   * `xmalloc_fgetline(file)`: the next line with a trailing '\n' overwritten
   * in place by NUL; null at the end of the stream. The buffer keeps the size
   * the chunk reader gave it, so everything after the line is NUL.
   */
  method XmallocFgetline(file: Stream) returns (c: array?<byte>)
    requires file.Valid()
    modifies file
    ensures file.Valid()
    ensures var chunk := Chunk(old(file.Remaining()), true);
            var line := StripNewline(chunk);
            && file.Remaining() == old(file.Remaining())[|chunk|..]
            && (c == null <==> chunk == [])
            && (c != null ==>
                  fresh(c) && c.Length == |chunk| + 1 &&
                  c[..|line|] == line &&
                  forall k :: |line| <= k < c.Length ==> c[k] == 0)
  {
    var i := new IntRef();
    c := GetChunkFromFile(file, i);

    ghost var chunk := Chunk(old(file.Remaining()), true);
    var n := i.value;
    if n != 0 {
      n := n - 1;
      if c[n] == NEWLINE {
        c[n] := 0;
      }
    }
    assert c != null ==> c[..|StripNewline(chunk)|] == StripNewline(chunk);
  }

  /**
   * A caller that reads lines with `xmalloc_fgets` until it returns null. It
   * sees exactly the chunks of the stream, in order. Concatenated, they give
   * back everything the stream held.
   */
  method ReadAllLines(file: Stream) returns (lines: seq<seq<byte>>)
    requires file.Valid()
    modifies file
    ensures file.Valid() && file.Remaining() == []
    ensures lines == Chunks(old(file.Remaining()), true)
    ensures Flatten(lines) == old(file.Remaining())
  {
    ghost var start := file.Remaining();
    lines := [];
    while true
      invariant file.Valid()
      invariant lines + Chunks(file.Remaining(), true) == Chunks(start, true)
      decreases |file.Remaining()|
    {
      ghost var rem := file.Remaining();
      var line := XmallocFgets(file);
      if line == null {
        break;
      }
      var n := line.Length - 1;
      assert rem[..n] == line[..n];
      assert Chunks(rem, true) == [line[..n]] + Chunks(rem[n..], true);
      lines := lines + [line[..n]];
    }
    ChunksFlatten(start, true);
  }

  /** "ab\ncd": a line with its newline, a last line without one, then null. */
  method ScenarioTwoLines()
  {
    var file := new Stream([97, 98, 10, 99, 100]);
    assert ChunkLen(file.Remaining(), true) == 3;
    var a := XmallocFgets(file);
    assert a != null && a[..3] == [97, 98, 10] && a[3] == 0;
    assert ChunkLen(file.Remaining(), true) == 2;
    var b := XmallocFgets(file);
    assert b != null && b[..2] == [99, 100] && b[2] == 0;
    var c := XmallocFgets(file);
    assert c == null;
  }

  /** "ab\0cd\n": the NUL ends the first chunk and is part of it. */
  method ScenarioEmbeddedNul()
  {
    var file := new Stream([97, 98, 0, 99, 100, 10]);
    assert ChunkLen(file.Remaining(), true) == 3;
    var a := XmallocFgets(file);
    assert a != null && a.Length == 4 && a[..3] == [97, 98, 0];
    assert ChunkLen(file.Remaining(), true) == 3;
    assert Chunk(file.Remaining(), true) == [99, 100, 10];
    assert StripNewline([99, 100, 10]) == [99, 100];
    var b := XmallocFgetline(file);
    assert b != null && b.Length == 4 && b[..2] == [99, 100] && b[2] == 0 && b[3] == 0;
  }
}
