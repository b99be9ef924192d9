/** The per-subscriber streamer (frameToNetworkStreamer.py): a latest-wins
    single-frame mailbox drained by a periodic send, and the wire format of
    one frame, a 4-byte unsigned length followed by the JPEG bytes. */
module NetworkStreaming {
  import opened Wrappers
  import opened Utils

  const U32Limit := 0x1_0000_0000

  /** `FRAME_SENDING_INTERVAL` is 1/30 s; the timer takes
      `int(FRAME_SENDING_INTERVAL * 1000)` milliseconds. */
  const FramesPerSecond := 30

  /** The exact quotient 1000/30 truncated, as `int` does on the positive
      product. */
  function SendingIntervalMs(): (r: int)
    ensures r * FramesPerSecond <= 1000 < (r + 1) * FramesPerSecond
    ensures r == 33
  {
    1000 / FramesPerSecond
  }

  /** `struct.pack("I", n)` in the little-endian byte order of the hosts
      the program runs on. */
  function PackU32(n: nat): (r: seq<byte>)
    requires n < U32Limit
    ensures |r| == 4
  {
    [(n % 256) as byte, (n / 256 % 256) as byte, (n / 65536 % 256) as byte, (n / 16777216) as byte]
  }

  /** `struct.unpack("I", b)[0]`. */
  function UnpackU32(b: seq<byte>): (r: nat)
    requires |b| == 4
    ensures r < U32Limit
  {
    b[0] as nat + 256 * (b[1] as nat + 256 * (b[2] as nat + 256 * b[3] as nat))
  }

  lemma DivModSplit(n: nat, d: nat)
    requires d > 0
    ensures n == n / d * d + n % d
  {
  }

  /** Unpacking a packed length gives the length back. */
  lemma {:induction false} UnpackPack(n: nat)
    requires n < U32Limit
    ensures UnpackU32(PackU32(n)) == n
  {
    var q1 := n / 256;
    var q2 := q1 / 256;
    var q3 := q2 / 256;
    DivModSplit(n, 256);
    DivModSplit(q1, 256);
    DivModSplit(q2, 256);
    assert n / 65536 == q2;
    assert n / 16777216 == q3;
    assert q3 < 256;
    var b := PackU32(n);
    assert b[3] as nat == q3 && b[2] as nat == q2 % 256;
    assert b[1] as nat == q1 % 256 && b[0] as nat == n % 256;
  }

  /** Packing an unpacked prefix gives the prefix back. */
  lemma {:induction false} PackUnpack(b: seq<byte>)
    requires |b| == 4
    ensures PackU32(UnpackU32(b)) == b
  {
    var n := UnpackU32(b);
    var c := b[1] as nat + 256 * (b[2] as nat + 256 * b[3] as nat);
    var e := b[2] as nat + 256 * b[3] as nat;
    assert n == b[0] as nat + 256 * c;
    assert n % 256 == b[0] as nat && n / 256 == c;
    assert c % 256 == b[1] as nat && c / 256 == e;
    assert e % 256 == b[2] as nat && e / 256 == b[3] as nat;
    assert n / 65536 == e by {
      assert n / 65536 == n / 256 / 256;
    }
    assert n / 16777216 == b[3] as nat by {
      assert n / 16777216 == n / 65536 / 256;
    }
  }

  /** `get_encoded_frame` after the JPEG encoding: the length prefix and the
      payload. `struct.pack` raises for a length that does not fit. */
  function FramePayload(jpeg: seq<byte>): (r: Result<seq<byte>>)
    ensures r.Ok? <==> |jpeg| < U32Limit
    ensures r.Fail? ==> r.error == StructError
    ensures r.Ok? ==> |r.value| == 4 + |jpeg| && r.value[4..] == jpeg
  {
    if |jpeg| >= U32Limit then Fail(StructError)
    else Ok(PackU32(|jpeg|) + jpeg)
  }

  /** What a receiving client does with one framed message: read the
      prefix, then exactly that many bytes. */
  function ParsePayload(bytes: seq<byte>): (r: Option<seq<byte>>)
    ensures r.Some? ==> |bytes| == 4 + |r.value|
  {
    if |bytes| < 4 || UnpackU32(bytes[..4]) != |bytes| - 4 then None
    else Some(bytes[4..])
  }

  /** The prefix announces exactly the bytes that follow it. */
  lemma PayloadRoundTrip(jpeg: seq<byte>)
    requires |jpeg| < U32Limit
    ensures ParsePayload(FramePayload(jpeg).value) == Some(jpeg)
  {
    var bytes := FramePayload(jpeg).value;
    assert bytes[..4] == PackU32(|jpeg|);
    UnpackPack(|jpeg|);
  }

  /** Every message the parser accepts is the framing of its payload. */
  lemma ParsedPayloadReframes(bytes: seq<byte>)
    requires ParsePayload(bytes).Some?
    ensures FramePayload(ParsePayload(bytes).value) == Ok(bytes)
  {
    PackUnpack(bytes[..4]);
    assert bytes == bytes[..4] + bytes[4..];
  }

  class FrameToNetworkStreamer {
    var currentFrame: Option<Frame>        // current_frame
    /** Everything written to the client socket, one element per write. */
    var written: seq<seq<byte>>
    /** The ids emitted on `connectionTerminated`. */
    var terminated: seq<string>
    const id: string
    /** `cv2.imencode('.jpg', ...)`, left uninterpreted. */
    const encodeJpeg: Frame -> seq<byte>

    /** The id is `str(uuid.uuid4())`, drawn by the caller. */
    constructor (id: string, encodeJpeg: Frame -> seq<byte>)
      ensures this.id == id && this.encodeJpeg == encodeJpeg
      ensures currentFrame == None && written == [] && terminated == []
    {
      this.id := id;
      this.encodeJpeg := encodeJpeg;
      currentFrame := None;
      written := [];
      terminated := [];
    }

    /** `get_encoded_frame`. */
    function GetEncodedFrame(frame: Frame): (r: Result<seq<byte>>)
      ensures r.Ok? ==> ParsePayload(r.value) == Some(encodeJpeg(frame))
      ensures r.Ok? <==> |encodeJpeg(frame)| < U32Limit
    {
      var jpeg := encodeJpeg(frame);
      if |jpeg| < U32Limit then
        PayloadRoundTrip(jpeg);
        FramePayload(jpeg)
      else FramePayload(jpeg)
    }

    /** `onFrameReceived`: the new frame replaces any frame not yet sent. */
    method OnFrameReceived(frame: Frame)
      modifies this`currentFrame
      ensures currentFrame == Some(frame)
    {
      currentFrame := Some(frame);
    }

    /** `sendFrame`: with an empty slot nothing is written; otherwise exactly
        one framed payload of the held frame is written and the slot is
        emptied. */
    method SendFrame() returns (outcome: Outcome)
      modifies this`currentFrame, this`written
      ensures old(currentFrame).None? ==> outcome == Done && written == old(written) && currentFrame == None
      ensures old(currentFrame).Some? && GetEncodedFrame(old(currentFrame).value).Ok? ==>
        && outcome == Done && currentFrame == None
        && written == old(written) + [GetEncodedFrame(old(currentFrame).value).value]
      ensures old(currentFrame).Some? && GetEncodedFrame(old(currentFrame).value).Fail? ==>
        outcome == Raised(StructError) && written == old(written) && currentFrame == old(currentFrame)
    {
      if currentFrame.None? {
        return Done;
      }
      var encoded := GetEncodedFrame(currentFrame.value);
      if encoded.Fail? {
        return Raised(encoded.error);
      }
      written := written + [encoded.value];
      currentFrame := None;
      outcome := Done;
    }

    /** `onConnectionTerminated`: emits this streamer's id. */
    method OnConnectionTerminated()
      modifies this`terminated
      ensures terminated == old(terminated) + [id]
    {
      terminated := terminated + [id];
    }

    /** `get_id`. */
    function GetId(): (r: string)
      ensures r == id
    {
      id
    }
  }

  /** Two frames arriving between sends: only the later one goes out, and a
      second send with the slot drained writes nothing more. */
  method LatestFrameWins(id: string, encodeJpeg: Frame -> seq<byte>, first: Frame, second: Frame)
    returns (written: seq<seq<byte>>)
    requires |encodeJpeg(second)| < U32Limit
    ensures |written| == 1
    ensures ParsePayload(written[0]) == Some(encodeJpeg(second))
  {
    var streamer := new FrameToNetworkStreamer(id, encodeJpeg);
    streamer.OnFrameReceived(first);
    streamer.OnFrameReceived(second);
    var sent := streamer.SendFrame();
    sent := streamer.SendFrame();
    written := streamer.written;
  }

  /** The id a terminated connection reports is the one the streamer was
      built with and the one `get_id` returns. */
  method TerminationReportsId(id: string, encodeJpeg: Frame -> seq<byte>) returns (reported: seq<string>, got: string)
    ensures reported == [id] && got == id
  {
    var streamer := new FrameToNetworkStreamer(id, encodeJpeg);
    streamer.OnConnectionTerminated();
    reported := streamer.terminated;
    got := streamer.GetId();
  }
}
