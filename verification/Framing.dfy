/** The two length-prefixed stream codecs: agents and executors speak big-endian
    lengths, the browser's native messaging little-endian ones. */
module Framing {
  import opened ByteStrings
  import opened Wrappers

  const HEADER: nat := 4
  const AGENT_LIMIT: nat := 0x10_0000
  const EXECUTOR_LIMIT: nat := 0x40_0000
  const CHROME_LIMIT: nat := 0x10_0000

  datatype Codec = Codec(maxPayload: nat, bigEndian: bool)

  datatype Stream = Agent | Executor | Chrome

  function CodecFor(stream: Stream): Codec {
    match stream
    case Agent => Codec(AGENT_LIMIT, true)
    case Executor => Codec(EXECUTOR_LIMIT, true)
    case Chrome => Codec(CHROME_LIMIT, false)
  }

  datatype FrameError = MessageTooLarge(limit: nat, actual: nat)

  /** `put_u32`: the length is cut to 32 bits. */
  function Header(codec: Codec, length: nat): (h: Bytes)
    ensures |h| == HEADER
  {
    if codec.bigEndian then BigEndian(length, 4) else LittleEndian(length, 4)
  }

  function LengthOf(codec: Codec, header: Bytes): nat {
    if codec.bigEndian then FromBigEndian(header) else FromLittleEndian(header)
  }

  lemma HeaderValue(codec: Codec, length: nat)
    ensures LengthOf(codec, Header(codec, length)) == length % TWO_32
  {
    Pow256Values();
    BigEndianValue(length, 4);
    LittleEndianValue(length, 4);
  }

  // ----------------------------------------------------------------- one step

  datatype Step = NeedMore | Frame(data: Bytes, rest: Bytes) | Refused(error: FrameError)

  function DecodeStep(codec: Codec, src: Bytes): Step {
    if |src| < HEADER then NeedMore
    else
      var length := LengthOf(codec, src[..HEADER]);
      if length > codec.maxPayload then Refused(MessageTooLarge(codec.maxPayload, length))
      else if |src| < HEADER + length then NeedMore
      else Frame(src[HEADER..HEADER + length], src[HEADER + length..])
  }

  function Encoded(codec: Codec, item: Bytes): Result<Bytes, FrameError> {
    if |item| > codec.maxPayload then Failure(MessageTooLarge(codec.maxPayload, |item|))
    else Success(Header(codec, |item|) + item)
  }

  /** All complete frames at the front, what is left, and the refusal if any. */
  datatype Drained = Drained(frames: seq<Bytes>, rest: Bytes, error: Option<FrameError>)

  function Drain(codec: Codec, src: Bytes): Drained
    decreases |src|
  {
    match DecodeStep(codec, src)
    case NeedMore => Drained([], src, None)
    case Refused(error) => Drained([], src, Some(error))
    case Frame(data, rest) =>
      var d := Drain(codec, rest);
      d.(frames := [data] + d.frames)
  }

  // -------------------------------------------------------------- the objects

  /** A connection's read half: its buffer, and whether it has failed. */
  class FrameReader {
    const codec: Codec
    var src: Bytes
    var failure: Option<FrameError>

    constructor (codec: Codec)
      ensures this.codec == codec && src == [] && failure == None
    {
      this.codec, src, failure := codec, [], None;
    }

    /** `decode`: takes one frame off the buffer if a whole one is there. */
    method Decode() returns (r: Result<Option<Bytes>, FrameError>)
      modifies this`src
      ensures match DecodeStep(codec, old(src))
              case NeedMore => r == Success(None) && src == old(src)
              case Refused(error) => r == Failure(error) && src == old(src)
              case Frame(data, rest) => r == Success(Some(data)) && src == rest
    {
      if |src| < HEADER {
        return Success(None);
      }
      var length := LengthOf(codec, src[..HEADER]);
      if length > codec.maxPayload {
        return Failure(MessageTooLarge(codec.maxPayload, length));
      }
      if |src| < HEADER + length {
        return Success(None);
      }
      assert src[HEADER..][..length] == src[HEADER..HEADER + length];
      assert src[HEADER..][length..] == src[HEADER + length..];
      src := src[HEADER..];
      var data := src[..length];
      src := src[length..];
      return Success(Some(data));
    }

    /** One arrival of bytes: append, then decode until nothing is left. */
    method Receive(chunk: Bytes) returns (frames: seq<Bytes>)
      requires failure == None
      modifies this
      ensures Drained(frames, src, failure) == Drain(codec, old(src) + chunk)
    {
      src := src + chunk;
      ghost var whole := src;
      frames := [];
      while true
        invariant failure == None
        invariant var d := Drain(codec, src); Drain(codec, whole) == d.(frames := frames + d.frames)
        decreases |src|
      {
        var r := Decode();
        match r {
          case Failure(error) =>
            failure := Some(error);
            return;
          case Success(None) => return;
          case Success(Some(data)) => frames := frames + [data];
        }
      }
    }
  }

  // ------------------------------------------------------- chunking and round trip

  /** What a reader has delivered after a list of arrivals; a refusal is final. */
  function Arrivals(codec: Codec, so: Drained, chunks: seq<Bytes>): Drained
    decreases |chunks|
  {
    if chunks == [] || so.error.Some? then so
    else
      var d := Drain(codec, so.rest + chunks[0]);
      Arrivals(codec, d.(frames := so.frames + d.frames), chunks[1..])
  }

  method ReceiveAll(codec: Codec, chunks: seq<Bytes>) returns (d: Drained)
    ensures d == Arrivals(codec, Drained([], [], None), chunks)
  {
    var reader := new FrameReader(codec);
    var frames := [];
    var i := 0;
    while i < |chunks| && reader.failure == None
      invariant 0 <= i <= |chunks| && reader.codec == codec
      invariant Arrivals(codec, Drained(frames, reader.src, reader.failure), chunks[i..])
                == Arrivals(codec, Drained([], [], None), chunks)
    {
      var more := reader.Receive(chunks[i]);
      frames := frames + more;
      i := i + 1;
    }
    d := Drained(frames, reader.src, reader.failure);
  }

  function Concat(chunks: seq<Bytes>): Bytes {
    if chunks == [] then [] else chunks[0] + Concat(chunks[1..])
  }

  lemma StepIsStable(codec: Codec, a: Bytes, b: Bytes)
    ensures match DecodeStep(codec, a)
            case NeedMore => true
            case Refused(error) => DecodeStep(codec, a + b) == Refused(error)
            case Frame(data, rest) => DecodeStep(codec, a + b) == Frame(data, rest + b)
  {
    if |a| >= HEADER {
      assert (a + b)[..HEADER] == a[..HEADER];
      var length := LengthOf(codec, a[..HEADER]);
      if |a| >= HEADER + length {
        assert (a + b)[HEADER..HEADER + length] == a[HEADER..HEADER + length];
        assert (a + b)[HEADER + length..] == a[HEADER + length..] + b;
      }
    }
  }

  /** Draining early and going on is draining it all at once. */
  lemma {:induction false} DrainInTwo(codec: Codec, a: Bytes, b: Bytes)
    ensures var d, whole := Drain(codec, a), Drain(codec, a + b);
            if d.error.Some? then whole.frames == d.frames && whole.error == d.error
            else var more := Drain(codec, d.rest + b); whole == more.(frames := d.frames + more.frames)
    decreases |a|
  {
    hide DecodeStep;
    StepIsStable(codec, a, b);
    var step := DecodeStep(codec, a);
    if step.Frame? {
      FrameShrinks(codec, a);
      DrainInTwo(codec, step.rest, b);
    }
  }

  lemma FrameShrinks(codec: Codec, src: Bytes)
    ensures DecodeStep(codec, src).Frame? ==> |DecodeStep(codec, src).rest| < |src|
  {
  }

  lemma {:induction false} ChunksFrom(codec: Codec, so: Drained, chunks: seq<Bytes>)
    requires so.error == None && Drain(codec, so.rest) == Drained([], so.rest, None)
    ensures var whole, got := Drain(codec, so.rest + Concat(chunks)), Arrivals(codec, so, chunks);
            && got.frames == so.frames + whole.frames && got.error == whole.error
            && (got.error == None ==> got.rest == whole.rest)
    decreases |chunks|
  {
    hide Drain;
    if chunks == [] {
      assert so.rest + [] == so.rest;
    } else {
      var first := so.rest + chunks[0];
      var d := Drain(codec, first);
      assert so.rest + Concat(chunks) == first + Concat(chunks[1..]);
      DrainInTwo(codec, first, Concat(chunks[1..]));
      if d.error == None {
        DrainedIsDry(codec, first);
        ChunksFrom(codec, d.(frames := so.frames + d.frames), chunks[1..]);
      }
    }
  }

  lemma {:induction false} DrainedIsDry(codec: Codec, src: Bytes)
    ensures var d := Drain(codec, src); d.error == None ==> Drain(codec, d.rest) == Drained([], d.rest, None)
    decreases |src|
  {
    var step := DecodeStep(codec, src);
    if step.Frame? {
      DrainedIsDry(codec, step.rest);
    }
  }

  /** How the stream was cut into chunks makes no difference, on any bytes: the
      same frames in the same order, the same refusal or the same remainder. */
  lemma ChunkingIsInvisible(codec: Codec, chunks: seq<Bytes>)
    ensures var whole, got := Drain(codec, Concat(chunks)), Arrivals(codec, Drained([], [], None), chunks);
            && got.frames == whole.frames && got.error == whole.error
            && (got.error == None ==> got.rest == whole.rest)
  {
    ChunksFrom(codec, Drained([], [], None), chunks);
    assert [] + Concat(chunks) == Concat(chunks);
  }

  function EncodedAll(codec: Codec, items: seq<Bytes>): Bytes {
    if items == [] then [] else Header(codec, |items[0]|) + items[0] + EncodedAll(codec, items[1..])
  }

  lemma FrameReadsBack(codec: Codec, item: Bytes, tail: Bytes)
    requires |item| <= codec.maxPayload && |item| < TWO_32
    ensures DecodeStep(codec, Header(codec, |item|) + item + tail) == Frame(item, tail)
  {
    hide Header, LengthOf;
    var header := Header(codec, |item|);
    var src := header + item + tail;
    HeaderValue(codec, |item|);
    SmallMod(|item|, TWO_32);
    assert src[..HEADER] == header;
    assert src[HEADER..HEADER + |item|] == item && src[HEADER + |item|..] == tail;
  }

  lemma {:induction false} DrainReadsBack(codec: Codec, items: seq<Bytes>)
    requires forall i :: 0 <= i < |items| ==> |items[i]| <= codec.maxPayload && |items[i]| < TWO_32
    ensures Drain(codec, EncodedAll(codec, items)) == Drained(items, [], None)
    decreases |items|
  {
    hide Header, LengthOf;
    if items != [] {
      FrameReadsBack(codec, items[0], EncodedAll(codec, items[1..]));
      DrainReadsBack(codec, items[1..]);
      assert items == [items[0]] + items[1..];
    }
  }

  /** Round trip over any stream: payloads the encoder accepts, however their
      encoding is cut up, come out whole, in order, and use up every byte. All
      three streams of the source have limits far below the bound. */
  lemma StreamRoundTrip(codec: Codec, items: seq<Bytes>, chunks: seq<Bytes>)
    requires codec.maxPayload < TWO_32
    requires forall i :: 0 <= i < |items| ==> Encoded(codec, items[i]).Success?
    requires Concat(chunks) == EncodedAll(codec, items)
    ensures Arrivals(codec, Drained([], [], None), chunks) == Drained(items, [], None)
  {
    hide Drain, Header;
    ChunkingIsInvisible(codec, chunks);
    DrainReadsBack(codec, items);
  }

  lemma StandardStreamsRoundTrip(stream: Stream, items: seq<Bytes>, chunks: seq<Bytes>)
    requires forall i :: 0 <= i < |items| ==> |items[i]| <= CodecFor(stream).maxPayload
    requires Concat(chunks) == EncodedAll(CodecFor(stream), items)
    ensures Arrivals(CodecFor(stream), Drained([], [], None), chunks) == Drained(items, [], None)
  {
    hide Arrivals, EncodedAll;
    StreamRoundTrip(CodecFor(stream), items, chunks);
  }

  /** The bound on the limit is exact: with a larger one, an accepted payload
      comes back if and only if its length fits the 32-bit header. */
  lemma RoundTripIffLengthFits(codec: Codec, item: Bytes)
    requires Encoded(codec, item).Success?
    ensures Drain(codec, Encoded(codec, item).value) == Drained([item], [], None) <==> |item| < TWO_32
  {
    hide Header, LengthOf;
    var src := Header(codec, |item|) + item;
    if |item| < TWO_32 {
      assert EncodedAll(codec, [item]) == src by {
        assert [item][1..] == [];
        assert Header(codec, |item|) + item + [] == src;
      }
      DrainReadsBack(codec, [item]);
    } else {
      HeaderValue(codec, |item|);
      assert src[..HEADER] == Header(codec, |item|);
      var cut := |item| % TWO_32;
      assert cut < |item|;
      assert DecodeStep(codec, src).Frame? && |DecodeStep(codec, src).data| == cut;
    }
  }
}
