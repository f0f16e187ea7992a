/**
 * The silent stereo input stream the audio adapter's test feeds it: `length`
 * frames of silence, read as interleaved stereo samples.
 */
module SilentStream {
  import opened Common

  class SilentSource {
    const hz: int
    /** Frames of silence; the stream holds twice as many stereo samples. */
    const length: int
    /** Samples delivered so far. */
    var position: int

    constructor(hz: int, seconds: real)
      ensures this.hz == hz && length == Trunc(seconds * hz as real) && position == 0
    {
      this.hz := hz;
      length := Trunc(seconds * hz as real);
      position := 0;
    }

    /** The samples still to come; negative once the position has been put past the end. */
    function Remaining(): int
      reads this
    {
      length * 2 - position
    }

    /**
     * Clears `buffer[offset .. offset + count)` and reports as read the
     * smaller of `count` and what remains, moving the position on by that.
     */
    method Read(buffer: array<real>, offset: int, count: int) returns (readCount: int)
      requires 0 <= offset && 0 <= count && offset + count <= buffer.Length
      modifies this, buffer
      ensures forall i :: 0 <= i < buffer.Length ==>
        buffer[i] == if offset <= i < offset + count then 0.0 else old(buffer[i])
      ensures readCount == if count <= old(Remaining()) then count else old(Remaining())
      ensures position == old(position) + readCount
      ensures old(position) <= 2 * length ==> 0 <= readCount <= count
    {
      forall i | offset <= i < offset + count {
        buffer[i] := 0.0;
      }
      var remaining := length * 2 - position;
      readCount := if count <= remaining then count else remaining;
      position := position + readCount;
    }

    /** Seek by frames: the position counts stereo samples. */
    method Seek(frames: int)
      modifies this
      ensures position == 2 * frames
    {
      position := frames * 2;
    }

    /** Seek by time: whole frames at `hz`, then stereo samples. */
    method SeekTime(seconds: real)
      modifies this
      ensures position == 2 * Trunc(seconds * hz as real)
    {
      position := Trunc(seconds * hz as real) * 2;
    }
  }
}
