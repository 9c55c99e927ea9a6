/**
 The bounded tail of a container log: an in-place window over the last bytes of a
 stream, the simpler buffer it must match, and what is kept of a truncated window.
 */
module TailWriter {
  import opened Common

  const NEWLINE: byte := 10
  const RETURN: byte := 13

  /** The last bytes of a stream, at most `n` of them. */
  function Tail(stream: seq<byte>, n: nat): seq<byte> {
    if |stream| <= n then stream else stream[|stream| - n..]
  }

  /** Forgetting all but a tail early does not change any later tail. */
  lemma TailOfTail(stream: seq<byte>, data: seq<byte>, n: nat)
    ensures Tail(Tail(stream, n) + data, n) == Tail(stream + data, n)
  { }

  lemma TailOfLong(buffer: seq<byte>, data: seq<byte>, n: nat)
    requires n <= |data|
    ensures Tail(buffer + data, n) == Tail(data, n)
  { }

  lemma TailOfNothing(data: seq<byte>)
    ensures Tail(data, 0) == []
  { }

  lemma TailSlides(buffer: seq<byte>, data: seq<byte>, n: nat)
    requires |buffer| <= n && |data| <= n
    ensures Tail(buffer + data, n) ==
            if |buffer| + |data| <= n then buffer + data else buffer[|buffer| + |data| - n..] + data
  { }

  function Concat(chunks: seq<seq<byte>>): seq<byte> {
    if chunks == [] then [] else Concat(chunks[..|chunks| - 1]) + chunks[|chunks| - 1]
  }

  // ---------------------------------------------------------------- boundedBuffer

  class BoundedBuffer {
    const max: nat
    var buf: seq<byte>

    constructor (requested: int)
      ensures max == (if requested <= 0 then 8192 else requested) && buf == []
    {
      max := if requested <= 0 then 8192 else requested;
      buf := [];
    }

    method Write(data: seq<byte>) returns (written: nat)
      modifies this
      ensures written == |data| && buf == Tail(old(buf) + data, max)
    {
      buf := buf + data;
      if |buf| > max {
        var overflow := |buf| - max;
        buf := buf[overflow..];
      }
      return |data|;
    }
  }

  // ---------------------------------------------------------------- boundedTailWriter

  class BoundedTailWriter {
    const limit: nat
    const store: array<byte>   // allocated once, with capacity `limit`
    var length: nat
    var truncated: bool

    ghost predicate Valid()
      reads this
    {
      store.Length == limit && length <= limit
    }

    ghost function Contents(): seq<byte>
      requires Valid()
      reads this, store
    {
      store[..length]
    }

    constructor (requested: int)
      ensures Valid() && fresh(store) && limit == (if requested < 0 then 0 else requested) && Contents() == []
      ensures !truncated
    {
      limit := if requested < 0 then 0 else requested;
      store := new byte[if requested < 0 then 0 else requested];
      length, truncated := 0, false;
    }

    method Write(data: seq<byte>) returns (written: nat)
      requires Valid()
      modifies this, store
      ensures Valid() && written == |data|
      ensures Contents() == Tail(old(Contents()) + data, limit)
      ensures truncated <==> old(truncated) || |old(Contents())| + |data| > limit
    {
      hide Tail;
      written := |data|;
      ghost var was := Contents();
      if limit == 0 {
        TailOfLong(was, data, limit);
        TailOfNothing(data);
        truncated := truncated || |data| > 0;
        return;
      }
      if |data| >= limit {
        TailOfLong(was, data, limit);
        truncated := truncated || length > 0 || |data| > limit;
        Overwrite(data);
        return;
      }
      TailSlides(was, data, limit);
      if length + |data| > limit {
        Slide(length + |data| - limit);
        truncated := true;
      }
      Append(data);
    }

    /** The window is filled with the end of data that is longer than itself. */
    method Overwrite(data: seq<byte>)
      requires Valid() && limit <= |data|
      modifies this`length, store
      ensures Valid() && Contents() == Tail(data, limit)
    {
      length := limit;
      forall i | 0 <= i < limit { store[i] := data[|data| - limit + i]; }
    }

    /** copy(buffer, buffer[overflow:]) and the reslice after it. */
    method Slide(overflow: nat)
      requires Valid() && overflow <= length
      modifies this`length, store
      ensures Valid() && Contents() == old(Contents())[overflow..]
    {
      forall i | 0 <= i < length - overflow { store[i] := store[overflow + i]; }
      length := length - overflow;
    }

    /** append within the capacity. */
    method Append(data: seq<byte>)
      requires Valid() && length + |data| <= limit
      modifies this`length, store
      ensures Valid() && Contents() == old(Contents()) + data
    {
      forall i | 0 <= i < |data| { store[length + i] := data[i]; }
      length := length + |data|;
    }

    method Output() returns (data: seq<byte>, cut: bool)
      requires Valid()
      ensures data == Contents() && cut == truncated
    {
      return store[..length], truncated;
    }
  }

  /** Contents and truncation after a list of writes, as both classes compute them. */
  function After(chunks: seq<seq<byte>>, limit: nat): (seq<byte>, bool) {
    if chunks == [] then ([], false)
    else
      var (buffer, cut) := After(chunks[..|chunks| - 1], limit);
      var data := chunks[|chunks| - 1];
      (Tail(buffer + data, limit), cut || |buffer| + |data| > limit)
  }

  /** However the stream was cut into writes, the window is its last bytes, and it is
      truncated exactly when there were more. */
  lemma {:induction false} WindowIsTail(chunks: seq<seq<byte>>, limit: nat)
    ensures After(chunks, limit) == (Tail(Concat(chunks), limit), |Concat(chunks)| > limit)
  {
    if chunks != [] {
      var before := chunks[..|chunks| - 1];
      WindowIsTail(before, limit);
      TailOfTail(Concat(before), chunks[|chunks| - 1], limit);
    }
  }

  /** Feeds the same chunks to both. */
  method WriteBoth(chunks: seq<seq<byte>>, limit: nat) returns (window: seq<byte>, cut: bool, simple: seq<byte>)
    ensures window == Tail(Concat(chunks), limit) && (cut <==> |Concat(chunks)| > limit)
    ensures 0 < limit ==> simple == window
  {
    hide Tail, Concat;
    var writer := new BoundedTailWriter(limit);
    var buffer := new BoundedBuffer(limit);
    for i := 0 to |chunks|
      invariant writer.Valid() && writer.limit == limit && fresh(writer) && fresh(writer.store) && fresh(buffer)
      invariant (writer.Contents(), writer.truncated) == After(chunks[..i], limit)
      invariant 0 < limit ==> buffer.max == limit && buffer.buf == writer.Contents()
    {
      var n := writer.Write(chunks[i]);
      n := buffer.Write(chunks[i]);
      assert chunks[..i + 1][..i] == chunks[..i];
    }
    assert chunks[..|chunks|] == chunks;
    WindowIsTail(chunks, limit);
    window, cut := writer.Output();
    simple := buffer.buf;
  }

  // ---------------------------------------------------------------- capture

  /** A line of the stream starts at `p`: at its start, after a newline, or after a
      return that no newline follows. */
  predicate LineStart(stream: seq<byte>, p: nat)
    requires p <= |stream|
  {
    || p == 0
    || stream[p - 1] == NEWLINE
    || (stream[p - 1] == RETURN && (p < |stream| ==> stream[p] != NEWLINE))
  }

  predicate Breaks(b: byte) { b == NEWLINE || b == RETURN }

  /** Drops the first, potentially partial, line of a window and keeps nothing when
      the window holds no line break. */
  method DiscardPotentiallyPartialLogLine(data: seq<byte>) returns (rest: seq<byte>)
    ensures |rest| <= |data| && rest == data[|data| - |rest|..]
    ensures forall stream, start :: 0 <= start <= |stream| && data == stream[start..] ==>
          FirstLine(stream, start, |stream| - |rest|)
  {
    for index := 0 to |data|
      invariant forall i :: 0 <= i < index ==> !Breaks(data[i])
    {
      var value := data[index];
      if value != NEWLINE && value != RETURN { continue; }
      var next := index + 1;
      if next < |data| && value == RETURN && data[next] == NEWLINE { next := next + 1; }
      forall stream, start | 0 <= start <= |stream| && data == stream[start..]
        ensures FirstLine(stream, start, start + next)
      {
        assert forall i :: 0 <= i < |data| ==> data[i] == stream[start + i];
      }
      return data[next..];
    }
    forall stream, start | 0 <= start <= |stream| && data == stream[start..]
      ensures FirstLine(stream, start, |stream|)
    {
      assert forall i :: 0 <= i < |data| ==> data[i] == stream[start + i];
    }
    return [];
  }

  /** `p` is the first line start of the stream after `start`, or its end if there is none. */
  ghost predicate FirstLine(stream: seq<byte>, start: nat, p: nat) {
    && start <= p <= |stream| && (p < |stream| ==> start < p && LineStart(stream, p))
    && forall q :: start < q < p ==> !LineStart(stream, q)
  }

  datatype Capture = Capture(tail: seq<byte>, truncated: bool)

  /** The capture cleans the stream from `p`: its start if the window held it all,
      otherwise its first line start inside the window. */
  ghost predicate Captured(
      stream: seq<byte>, limit: nat, failed: bool, clean: seq<byte> -> (seq<byte>, bool), capture: Capture, p: nat)
  {
    && p <= |stream| && capture.tail == clean(stream[p..]).0
    && (if |stream| <= limit then p == 0 else FirstLine(stream, |stream| - limit, p))
    && (capture.truncated <==> failed || |stream| > limit || clean(stream[p..]).1)
  }

  lemma OneChunk(stream: seq<byte>)
    ensures Concat([stream]) == stream
  {
    assert [stream][..0] == [] && Concat([]) == [];
  }

  lemma TailIsSuffix(stream: seq<byte>, n: nat)
    ensures Tail(stream, n) == stream[if |stream| <= n then 0 else |stream| - n..]
  { }

  /** captureContainerLogTail over the window of a finished command; `clean` stands
      for SanitizeLogTail. */
  method CaptureContainerLogTail(stream: seq<byte>, limit: nat, failed: bool, clean: seq<byte> -> (seq<byte>, bool))
    returns (capture: Option<Capture>)
    ensures capture.None? <==> failed && Tail(stream, limit) == []
    ensures capture.Some? ==> exists p :: Captured(stream, limit, failed, clean, capture.value, p)
    ensures capture.Some? && !capture.value.truncated ==> !failed && capture.value.tail == clean(stream).0
  {
    hide FirstLine, Tail, Concat;
    OneChunk(stream);
    TailIsSuffix(stream, limit);
    var data, cut, simple := WriteBoth([stream], limit);
    if failed && data == [] { return None; }
    ghost var start := |stream| - |data|;
    assert data == stream[start..];
    if cut { data := DiscardPotentiallyPartialLogLine(data); }
    ghost var p := |stream| - |data|;
    assert stream[p..] == data;
    var (tail, truncated) := clean(data);
    capture := Some(Capture(tail, failed || cut || truncated));
    assert Captured(stream, limit, failed, clean, capture.value, p);
  }
}
