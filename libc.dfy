/**
 * The pieces of the C library and of libbb's allocation helpers that the
 * line reader leans on: bytes, `getc` on a `FILE *`, an `int *` out-parameter
 * and `xrealloc`.
 */
module Libc {

  /** One byte of a stream, as `getc` hands it out (an `unsigned char`). */
  newtype byte = x: int | 0 <= x < 256

  /** The value `getc` returns at end of stream or on a read error. */
  const EOF: int := -1

  /** The byte value of '\n'. */
  const NEWLINE: byte := 10

  /**
   * A readable stream (`FILE *`): the bytes it will deliver and a read
   * position. Only the position changes as the stream is read.
   */
  class Stream {
    const data: seq<byte>
    var pos: nat

    ghost predicate Valid()
      reads this
    {
      pos <= |data|
    }

    /** The bytes that the following calls to `getc` will deliver, in order. */
    ghost function Remaining(): seq<byte>
      reads this
      requires Valid()
    {
      data[pos..]
    }

    constructor (data: seq<byte>)
      ensures Valid()
      ensures this.data == data && pos == 0
    {
      this.data := data;
      pos := 0;
    }

    /**
     * `getc`: the next byte as a non-negative `int`, or EOF once the stream
     * is exhausted. A byte 0xFF comes back as 255 and is never mistaken for
     * EOF. A read error is not distinguished from the end of the stream.
     */
    method Getc() returns (ch: int)
      requires Valid()
      modifies this
      ensures Valid()
      ensures old(pos) == |data| ==> ch == EOF && pos == old(pos)
      ensures old(pos) < |data| ==> ch == data[old(pos)] as int && pos == old(pos) + 1
    {
      if pos == |data| {
        ch := EOF;
      } else {
        ch := data[pos] as int;
        pos := pos + 1;
      }
    }
  }

  /** An `int` that a callee writes through a pointer (`int *end`). */
  class IntRef {
    var value: int

    constructor ()
      ensures value == 0
    {
      value := 0;
    }
  }

  /**
   * `xrealloc(p, size)`: a block of exactly `size` bytes whose first
   * `min(old size, size)` bytes are those of `p` (`p == null` is a plain
   * allocation). Running out of memory is not modelled: the allocation
   * always succeeds.
   */
  method XRealloc(p: array?<byte>, size: nat) returns (q: array<byte>)
    ensures fresh(q) && q.Length == size
    ensures p != null ==> forall k :: 0 <= k <= size && k <= p.Length ==> q[..k] == p[..k]
  {
    q := new byte[size];
    if p != null {
      var i := 0;
      while i < size && i < p.Length
        invariant 0 <= i <= size && i <= p.Length
        invariant forall j :: 0 <= j < i ==> q[j] == p[j]
      {
        q[i] := p[i];
        i := i + 1;
      }
      forall k | 0 <= k <= size && k <= p.Length
        ensures q[..k] == p[..k]
      {
        assert forall j :: 0 <= j < k ==> q[..k][j] == p[..k][j];
      }
    }
  }
}
