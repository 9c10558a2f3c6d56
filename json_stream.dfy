/**
 * The JSON stream framer (`JsonStream`) over the chunk source that the
 * framer's tests use (`MockedStreamReader`).
 *
 * The framer keeps a buffer across calls. Each call of `ReadJsonObject`
 * first looks for a complete object in the buffer; while there is none
 * it reads one more chunk and appends it; when the source has no more
 * chunks it answers None and keeps the partial bytes. Chunks are text
 * here: the reader's UTF-8 encoding and the framer's decoding are taken
 * to cancel out.
 */
module JsonStreaming {
  import opened Wrappers
  import opened Framing

  /** A test source that hands out a fixed list of chunks, one per read. */
  class MockedStreamReader {
    var messageList: seq<string>

    constructor (messageList: seq<string>)
      ensures this.messageList == messageList
    {
      this.messageList := messageList;
    }

    /**
     * Pops the head chunk, whatever the requested size `n`; answers None
     * once the list is empty.
     */
    method Read(n: int) returns (data: Option<string>)
      modifies this
      ensures old(messageList) == [] ==> data == None && messageList == []
      ensures old(messageList) != [] ==>
                data == Some(old(messageList)[0]) && messageList == old(messageList)[1..]
    {
      if messageList == [] {
        data := None;
      } else {
        data := Some(messageList[0]);
        messageList := messageList[1..];
      }
    }
  }

  /** Everything the source will still hand out, in order. */
  function Concat(chunks: seq<string>): string
  {
    if chunks == [] then [] else chunks[0] + Concat(chunks[1..])
  }

  /** The text the framer has yet to deliver: its buffer, then the unread chunks. */
  function Pending(buffer: string, chunks: seq<string>): string
  {
    buffer + Concat(chunks)
  }

  /** What one call of `ReadJsonObject` answers and leaves behind. */
  datatype Outcome = Outcome(result: Option<string>, buffer: string, chunks: seq<string>)

  /**
   * One call of `ReadJsonObject` as a function of the buffer and of the
   * chunks the source still holds.
   */
  function Pull(buffer: string, chunks: seq<string>): Outcome
    decreases |chunks|
  {
    match FirstObjectEnd(buffer)
    case Some(k) => Outcome(Some(buffer[..k]), buffer[k..], chunks)
    case None =>
      if chunks == [] then Outcome(None, buffer, [])
      else Pull(buffer + chunks[0], chunks[1..])
  }

  /**
   * How chunks are cut does not matter: a call answers the first complete
   * object of the pending text and leaves exactly the rest of it pending;
   * when there is none, it drains the source and keeps everything buffered.
   */
  lemma {:induction false} PullConsumesPrefix(buffer: string, chunks: seq<string>)
    ensures var o := Pull(buffer, chunks);
            var s := Pending(buffer, chunks);
            match o.result
            case None =>
              o.chunks == [] && o.buffer == s && FirstObjectEnd(s) == None
            case Some(x) =>
              FirstObjectEnd(s) == Some(|x|) && x == s[..|x|] &&
              Pending(o.buffer, o.chunks) == s[|x|..]
    decreases |chunks|
  {
    var s := Pending(buffer, chunks);
    match FirstObjectEnd(buffer)
    case Some(k) =>
      FirstObjectEndExtends(buffer, Concat(chunks));
      assert s[..k] == buffer[..k];
      assert s[k..] == buffer[k..] + Concat(chunks);
    case None =>
      if chunks == [] {
        assert s == buffer;
      } else {
        assert Pending(buffer + chunks[0], chunks[1..]) == s;
        PullConsumesPrefix(buffer + chunks[0], chunks[1..]);
      }
  }

  /**
   * Each call answers the next object of the whole input and nothing
   * else: None exactly when no complete object is pending, otherwise the
   * first pending frame, after which the remaining frames are still
   * pending in order. A None leaves the partial tail buffered.
   */
  lemma ReadYieldsNextFrame(buffer: string, chunks: seq<string>)
    ensures var o := Pull(buffer, chunks);
            var s := Pending(buffer, chunks);
            && (o.result == None <==> Frames(s) == [])
            && (o.result == None ==> o.buffer == s && o.chunks == [])
            && (o.result.Some? ==>
                  o.result.value == Frames(s)[0] &&
                  Frames(Pending(o.buffer, o.chunks)) == Frames(s)[1..])
  {
    PullConsumesPrefix(buffer, chunks);
  }

  /**
   * A call that answered None loses nothing: if the source later hands
   * out more chunks, the next call behaves as if they had been there all
   * along, so a partial object can still be completed.
   */
  lemma {:induction false} PullResumes(buffer: string, chunks: seq<string>, more: seq<string>)
    requires Pull(buffer, chunks).result == None
    ensures Pull(Pull(buffer, chunks).buffer, more) == Pull(buffer, chunks + more)
    decreases |chunks|
  {
    if chunks != [] {
      assert (chunks + more)[0] == chunks[0];
      assert (chunks + more)[1..] == chunks[1..] + more;
      PullResumes(buffer + chunks[0], chunks[1..], more);
    } else {
      assert chunks + more == more;
    }
  }

  /**
   * The index just past the first complete object in `s`, found by one
   * left-to-right scan that tracks the brace depth.
   */
  method FindObjectEnd(s: string) returns (end: Option<nat>)
    ensures end == FirstObjectEnd(s)
  {
    var i, depth := 0, 0;
    while i < |s|
      invariant i <= |s| && depth == Depth(s[..i])
      invariant Scan(s, i, depth) == FirstObjectEnd(s)
    {
      DepthStep(s, i);
      depth := depth + Delta(s[i]);
      if s[i] == '}' && depth == 0 {
        return Some(i + 1);
      }
      i := i + 1;
    }
    return None;
  }

  /** Extracts whole JSON objects, one per call, from a chunked source. */
  class JsonStream {
    const reader: MockedStreamReader
    const bufferSize: nat
    var buffer: string

    constructor (reader: MockedStreamReader, bufferSize: nat)
      requires bufferSize > 0
      ensures this.reader == reader && this.bufferSize == bufferSize
      ensures buffer == []
    {
      this.reader := reader;
      this.bufferSize := bufferSize;
      buffer := [];
    }

    /**
     * Answers at most one complete object: the first one of the buffered
     * and still unread text, reading chunks of up to `bufferSize` bytes
     * only while none is complete; None when the source runs dry first.
     */
    method ReadJsonObject() returns (r: Option<string>)
      modifies this, reader
      ensures Pull(old(buffer), old(reader.messageList)) == Outcome(r, buffer, reader.messageList)
    {
      var end := FindObjectEnd(buffer);
      while end.None?
        invariant Pull(buffer, reader.messageList) == Pull(old(buffer), old(reader.messageList))
        invariant end == FirstObjectEnd(buffer)
        decreases |reader.messageList|
      {
        var data := reader.Read(bufferSize);
        if data.None? {
          return None;
        }
        buffer := buffer + data.value;
        end := FindObjectEnd(buffer);
      }
      r := Some(buffer[..end.value]);
      buffer := buffer[end.value..];
    }
  }
}
