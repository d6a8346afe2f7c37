/** Length-prefixed frames, and the streams they are read from. A payload is what the codec made of a message. */
module Framing {
  import opened Wrappers
  import opened Bytes

  const MAX_FRAME_SIZE: nat := 8 * 1024 * 1024

  datatype FrameError = FrameTooLarge(actual: nat) | InvalidLengthPrefix(declared: nat, actual: nat)

  /** `u32::to_be_bytes` */
  function BigEndian(n: nat): (bytes: seq<Byte>)
    requires n < 0x1_0000_0000
    ensures |bytes| == 4 && FromBigEndian(bytes) == n
  {
    var high := n / 0x100;
    var higher := high / 0x100;
    [higher / 0x100, higher % 0x100, high % 0x100, n % 0x100]
  }

  function FromBigEndian(bytes: seq<Byte>): (n: nat)
    requires |bytes| == 4
    ensures n < 0x1_0000_0000
  {
    (bytes[0] as nat) * 0x100_0000 + (bytes[1] as nat) * 0x1_0000 + (bytes[2] as nat) * 0x100 + bytes[3] as nat
  }

  lemma BigEndianInverse(bytes: seq<Byte>)
    requires |bytes| == 4
    ensures BigEndian(FromBigEndian(bytes)) == bytes
  {
    var n := FromBigEndian(bytes);
    assert n / 0x100 == (bytes[0] as nat) * 0x1_0000 + (bytes[1] as nat) * 0x100 + bytes[2] as nat;
    assert n / 0x1_0000 == (bytes[0] as nat) * 0x100 + bytes[1] as nat;
  }

  /** The most significant byte comes first. */
  lemma BigEndianBytes(n: nat)
    requires n < 0x1_0000_0000
    ensures BigEndian(n)[0] as nat == n / 0x100_0000 && BigEndian(n)[1] as nat == n / 0x1_0000 % 0x100
    ensures BigEndian(n)[2] as nat == n / 0x100 % 0x100 && BigEndian(n)[3] as nat == n % 0x100
  {
  }

  function EncodeFrame(payload: seq<Byte>): Result<seq<Byte>, FrameError> {
    if |payload| > MAX_FRAME_SIZE then Failure(FrameTooLarge(|payload|))
    else Success(BigEndian(|payload|) + payload)
  }

  function DecodeFrame(frame: seq<Byte>): Result<seq<Byte>, FrameError> {
    if |frame| < 4 then Failure(InvalidLengthPrefix(0, SaturatingSub(|frame|, 4)))
    else
      var declared := FromBigEndian(frame[..4]);
      var actual := |frame| - 4;
      if declared > MAX_FRAME_SIZE then Failure(FrameTooLarge(declared))
      else if declared != actual then Failure(InvalidLengthPrefix(declared, actual))
      else Success(frame[4..])
  }

  /** Decoding accepts exactly the frames that encoding makes, and gives back their payload. */
  lemma FrameRoundTrip(payload: seq<Byte>, frame: seq<Byte>)
    ensures EncodeFrame(payload) == Success(frame) <==> DecodeFrame(frame) == Success(payload)
  {
    if EncodeFrame(payload) == Success(frame) {
      assert frame[..4] == BigEndian(|payload|) && frame[4..] == payload;
    }
    if DecodeFrame(frame) == Success(payload) {
      BigEndianInverse(frame[..4]);
      assert frame == frame[..4] + frame[4..];
    }
  }

  /** Refused are payloads of more than 8 MiB, and frames that announce more or another length than they have. */
  lemma WhenFramesAreRefused(payload: seq<Byte>, n: nat, frame: seq<Byte>)
    requires n < 0x1_0000_0000
    ensures EncodeFrame(payload).Failure? <==> |payload| > 8_388_608
    ensures EncodeFrame(payload).Failure? ==> EncodeFrame(payload).error == FrameTooLarge(|payload|)
    ensures DecodeFrame(BigEndian(n) + payload) ==
              if n > 8_388_608 then Failure(FrameTooLarge(n))
              else if n != |payload| then Failure(InvalidLengthPrefix(n, |payload|))
              else Success(payload)
    ensures |frame| < 4 ==> DecodeFrame(frame) == Failure(InvalidLengthPrefix(0, 0))
  {
    var whole := BigEndian(n) + payload;
    assert whole[..4] == BigEndian(n) && whole[4..] == payload;
  }

  // ----- reading messages off a stream -----

  /** The transfer responses that matter to the receiver of a file. */
  datatype Response =
    | ReadyFile(size: nat) | FinalizedFile(hash: string) | ErrorResponse(message: string) | OtherResponse | Undecodable

  datatype ReadError =
    | MidFrame(got: nat) | PayloadCutShort | BadFrame(error: FrameError) | ClosedEarly | NoMessage
    | BadPayload | Refused(message: string) | Unexpected | SizeMismatch(announced: nat) | HashMismatch

  /** What is read, and what is left on the stream. */
  datatype Parse<+T> = Parse(result: Result<T, ReadError>, rest: seq<Byte>)

  /** One message, or none at the end of the stream. */
  function ParseMessage(bytes: seq<Byte>): Parse<Option<seq<Byte>>> {
    if bytes == [] then Parse(Success(None), [])
    else if |bytes| < 4 then Parse(Failure(MidFrame(|bytes|)), [])
    else
      var size := FromBigEndian(bytes[..4]);
      if |bytes| < 4 + size then Parse(Failure(PayloadCutShort), [])
      else match DecodeFrame(bytes[..4 + size])
        case Success(payload) => Parse(Success(Some(payload)), bytes[4 + size..])
        case Failure(error) => Parse(Failure(BadFrame(error)), bytes[4 + size..])
  }

  function ParseRequired(bytes: seq<Byte>): Parse<seq<Byte>> {
    match ParseMessage(bytes)
    case Parse(Success(Some(payload)), rest) => Parse(Success(payload), rest)
    case Parse(Success(None), rest) => Parse(Failure(NoMessage), rest)
    case Parse(Failure(error), rest) => Parse(Failure(error), rest)
  }

  /** What decodes the payload of a message, and what digests the bytes of a file. */
  datatype Codec = Codec(decode: seq<Byte> -> Response, digest: seq<Byte> -> string)

  function ParseResponse(bytes: seq<Byte>, codec: Codec): Parse<Response> {
    match ParseRequired(bytes)
    case Parse(Failure(error), rest) => Parse(Failure(error), rest)
    case Parse(Success(payload), rest) =>
      var response := codec.decode(payload);
      Parse(if response.Undecodable? then Failure(BadPayload) else Success(response), rest)
  }

  function ExpectReady(response: Response, size: nat): Result<(), ReadError> {
    match response
    case ReadyFile(announced) => if announced == size then Success(()) else Failure(SizeMismatch(announced))
    case ErrorResponse(message) => Failure(Refused(message))
    case _ => Failure(Unexpected)
  }

  function ExpectTrailer(response: Response, hash: string): Result<(), ReadError> {
    match response
    case FinalizedFile(finalized) => if finalized == hash then Success(()) else Failure(HashMismatch)
    case ErrorResponse(message) => Failure(Refused(message))
    case _ => Failure(Unexpected)
  }

  /** An entry of the manifest's size: a ready frame, the file's bytes without any framing, and a trailer frame. */
  function ParseEntry(bytes: seq<Byte>, size: nat, codec: Codec): Parse<seq<Byte>> {
    match ParseResponse(bytes, codec)
    case Parse(Failure(error), rest) => Parse(Failure(error), rest)
    case Parse(Success(ready), rest) =>
      if ExpectReady(ready, size).Failure? then Parse(Failure(ExpectReady(ready, size).error), rest)
      else if |rest| < size then Parse(Failure(ClosedEarly), [])
      else ParseTrailer(rest[..size], rest[size..], codec)
  }

  function ParseTrailer(data: seq<Byte>, bytes: seq<Byte>, codec: Codec): Parse<seq<Byte>> {
    match ParseResponse(bytes, codec)
    case Parse(Failure(error), rest) => Parse(Failure(error), rest)
    case Parse(Success(trailer), rest) =>
      match ExpectTrailer(trailer, codec.digest(data))
      case Failure(error) => Parse(Failure(error), rest)
      case Success(_) => Parse(Success(data), rest)
  }

  lemma ParseFramed(payload: seq<Byte>, rest: seq<Byte>)
    requires |payload| <= MAX_FRAME_SIZE
    ensures ParseMessage(EncodeFrame(payload).value + rest) == Parse(Success(Some(payload)), rest)
  {
    var frame := EncodeFrame(payload).value;
    var bytes := frame + rest;
    assert bytes[..4] == BigEndian(|payload|);
    assert bytes[..4 + |payload|] == frame && bytes[4 + |payload|..] == rest;
    FrameRoundTrip(payload, frame);
  }

  /** A stream that ends between messages ends well; one that ends within a message does not. */
  lemma {:induction false} CutMessage(payload: seq<Byte>, k: nat)
    requires |payload| <= MAX_FRAME_SIZE && k < 4 + |payload|
    ensures var parse := ParseMessage(EncodeFrame(payload).value[..k]);
            parse.result ==
              if k == 0 then Success(None) else Failure(if k < 4 then MidFrame(k) else PayloadCutShort)
    ensures ParseRequired(EncodeFrame(payload).value[..k]).result.Failure?
    ensures ParseRequired([]).result == Failure(NoMessage)
  {
    var cut := EncodeFrame(payload).value[..k];
    if k >= 4 {
      assert cut[..4] == BigEndian(|payload|);
    }
  }

  /** A message that announces too much is refused, once all that it announces is there. */
  lemma {:induction false} TooLargeMessage(payload: seq<Byte>, rest: seq<Byte>)
    requires MAX_FRAME_SIZE < |payload| < 0x1_0000_0000
    ensures ParseMessage(BigEndian(|payload|) + payload + rest)
         == Parse(Failure(BadFrame(FrameTooLarge(|payload|))), rest)
  {
    var frame := BigEndian(|payload|) + payload;
    var bytes := frame + rest;
    assert bytes[..4] == BigEndian(|payload|);
    assert bytes[..4 + |payload|] == frame && bytes[4 + |payload|..] == rest;
    WhenFramesAreRefused(payload, |payload|, []);
  }

  lemma RequiredFramed(payload: seq<Byte>, rest: seq<Byte>)
    requires |payload| <= MAX_FRAME_SIZE
    ensures ParseRequired(EncodeFrame(payload).value + rest) == Parse(Success(payload), rest)
  {
    ParseFramed(payload, rest);
  }

  lemma {:induction false} MessageIsFramed(bytes: seq<Byte>) returns (payload: seq<Byte>)
    requires ParseRequired(bytes).result.Success?
    ensures payload == ParseRequired(bytes).result.value && |payload| <= MAX_FRAME_SIZE
    ensures bytes == EncodeFrame(payload).value + ParseRequired(bytes).rest
  {
    payload := ParseRequired(bytes).result.value;
    var frame := bytes[..4 + FromBigEndian(bytes[..4])];
    FrameRoundTrip(payload, frame);
    assert bytes == frame + bytes[|frame|..];
  }

  /** What the server sends for an entry: two frames around the bytes. */
  function Sent(ready: seq<Byte>, data: seq<Byte>, trailer: seq<Byte>): seq<Byte>
    requires |ready| <= MAX_FRAME_SIZE && |trailer| <= MAX_FRAME_SIZE
  {
    EncodeFrame(ready).value + data + EncodeFrame(trailer).value
  }

  lemma {:induction false} TrailerIsRead(data: seq<Byte>, trailer: seq<Byte>, codec: Codec, rest: seq<Byte>)
    requires |trailer| <= MAX_FRAME_SIZE && codec.decode(trailer).FinalizedFile?
    ensures ParseTrailer(data, EncodeFrame(trailer).value + rest, codec) ==
            Parse(if codec.decode(trailer).hash == codec.digest(data) then Success(data) else Failure(HashMismatch),
                  rest)
  {
    RequiredFramed(trailer, rest);
  }

  /**
    An entry is delimited by nothing but its own contents: whatever follows it is left untouched. It is accepted exactly
    when it has the size in the manifest and the bytes are those that were hashed.
  */
  lemma {:induction false} EntryIsSelfDelimiting(ready: seq<Byte>, data: seq<Byte>, trailer: seq<Byte>, size: nat,
                                                 codec: Codec, rest: seq<Byte>)
    requires |ready| <= MAX_FRAME_SIZE && codec.decode(ready) == ReadyFile(|data|)
    requires |trailer| <= MAX_FRAME_SIZE && codec.decode(trailer).FinalizedFile?
    ensures var parse := ParseEntry(Sent(ready, data, trailer) + rest, size, codec);
            if |data| != size then parse.result == Failure(SizeMismatch(|data|))
            else if codec.decode(trailer).hash != codec.digest(data) then parse == Parse(Failure(HashMismatch), rest)
            else parse == Parse(Success(data), rest)
  {
    var last := EncodeFrame(trailer).value + rest;
    assert Sent(ready, data, trailer) + rest == EncodeFrame(ready).value + (data + last);
    RequiredFramed(ready, data + last);
    assert (data + last)[..|data|] == data && (data + last)[|data|..] == last;
    TrailerIsRead(data, trailer, codec, rest);
  }

  lemma {:induction false} TrailerAccepted(data: seq<Byte>, bytes: seq<Byte>, codec: Codec) returns (trailer: seq<Byte>)
    requires ParseTrailer(data, bytes, codec).result.Success?
    ensures ParseTrailer(data, bytes, codec).result.value == data
    ensures |trailer| <= MAX_FRAME_SIZE && codec.decode(trailer) == FinalizedFile(codec.digest(data))
    ensures bytes == EncodeFrame(trailer).value + ParseTrailer(data, bytes, codec).rest
  {
    trailer := MessageIsFramed(bytes);
  }

  lemma {:induction false} Reassembled(head: seq<Byte>, tail: seq<Byte>, k: nat, last: seq<Byte>, rest: seq<Byte>)
    requires k <= |tail| && tail[k..] == last + rest
    ensures head + tail == head + tail[..k] + last + rest
  {
    assert tail == tail[..k] + tail[k..];
    assert head + (tail[..k] + (last + rest)) == head + tail[..k] + last + rest;
  }

  /** Nothing else is accepted: the bytes taken are an entry of the manifest's size under its own hash. */
  lemma {:induction false} AcceptedEntry(bytes: seq<Byte>, size: nat, codec: Codec)
    returns (ready: seq<Byte>, trailer: seq<Byte>)
    requires ParseEntry(bytes, size, codec).result.Success?
    ensures var data := ParseEntry(bytes, size, codec).result.value;
            && |data| == size
            && |ready| <= MAX_FRAME_SIZE && codec.decode(ready) == ReadyFile(size)
            && |trailer| <= MAX_FRAME_SIZE && codec.decode(trailer) == FinalizedFile(codec.digest(data))
            && bytes == Sent(ready, data, trailer) + ParseEntry(bytes, size, codec).rest
  {
    ready := MessageIsFramed(bytes);
    var tail := ParseRequired(bytes).rest;
    trailer := TrailerAccepted(tail[..size], tail[size..], codec);
    var rest := ParseEntry(bytes, size, codec).rest;
    Reassembled(EncodeFrame(ready).value, tail, size, EncodeFrame(trailer).value, rest);
  }

  /** What the other side answers in place of what is expected, and what is made of it. */
  ghost predicate Refuses(answer: Response, result: Result<seq<Byte>, ReadError>) {
    match answer
    case Undecodable => result == Failure(BadPayload)
    case ErrorResponse(message) => result == Failure(Refused(message))
    case _ => result == Failure(Unexpected)
  }

  lemma {:induction false} UnexpectedReady(ready: seq<Byte>, rest: seq<Byte>, size: nat, codec: Codec)
    requires |ready| <= MAX_FRAME_SIZE && !codec.decode(ready).ReadyFile?
    ensures Refuses(codec.decode(ready), ParseEntry(EncodeFrame(ready).value + rest, size, codec).result)
  {
    RequiredFramed(ready, rest);
  }

  lemma {:induction false} UnexpectedTrailer(data: seq<Byte>, trailer: seq<Byte>, rest: seq<Byte>, codec: Codec)
    requires |trailer| <= MAX_FRAME_SIZE && !codec.decode(trailer).FinalizedFile?
    ensures Refuses(codec.decode(trailer), ParseTrailer(data, EncodeFrame(trailer).value + rest, codec).result)
  {
    RequiredFramed(trailer, rest);
  }

  lemma {:induction false} CutInTrailer(data: seq<Byte>, trailer: seq<Byte>, codec: Codec, k: nat)
    requires |trailer| <= MAX_FRAME_SIZE && k < 4 + |trailer|
    ensures ParseTrailer(data, EncodeFrame(trailer).value[..k], codec).result.Failure?
  {
    CutMessage(trailer, k);
  }

  lemma {:induction false} CutInReady(ready: seq<Byte>, size: nat, codec: Codec, k: nat)
    requires |ready| <= MAX_FRAME_SIZE && k < 4 + |ready|
    ensures ParseEntry(EncodeFrame(ready).value[..k], size, codec).result.Failure?
  {
    CutMessage(ready, k);
  }

  lemma CutSent(first: seq<Byte>, data: seq<Byte>, last: seq<Byte>, k: nat)
    requires k <= |first| + |data| + |last|
    ensures k <= |first| ==> (first + data + last)[..k] == first[..k]
    ensures |first| <= k <= |first| + |data| ==> (first + data + last)[..k] == first + data[..k - |first|]
    ensures k >= |first| + |data| ==> (first + data + last)[..k] == first + (data + last[..k - |first| - |data|])
  {
  }

  /** An entry that is cut off anywhere is refused; with fewer bytes than the file has, for just that. */
  lemma {:induction false} CutEntryIsRefused(ready: seq<Byte>, data: seq<Byte>, trailer: seq<Byte>, codec: Codec,
                                             k: nat)
    requires |ready| <= MAX_FRAME_SIZE && codec.decode(ready) == ReadyFile(|data|) && |trailer| <= MAX_FRAME_SIZE
    requires k < |Sent(ready, data, trailer)|
    ensures var result := ParseEntry(Sent(ready, data, trailer)[..k], |data|, codec).result;
            && result.Failure?
            && (4 + |ready| <= k < 4 + |ready| + |data| ==> result == Failure(ClosedEarly))
  {
    var first, last := EncodeFrame(ready).value, EncodeFrame(trailer).value;
    CutSent(first, data, last, k);
    if k < |first| {
      CutInReady(ready, |data|, codec, k);
    } else if k < |first| + |data| {
      RequiredFramed(ready, data[..k - |first|]);
    } else {
      var cut := last[..k - |first| - |data|];
      RequiredFramed(ready, data + cut);
      assert (data + cut)[..|data|] == data && (data + cut)[|data|..] == cut;
      CutInTrailer(data, trailer, codec, |cut|);
    }
  }

  // ----- streams that deliver their bytes in pieces -----

  function Joined(pieces: seq<seq<Byte>>): seq<Byte> {
    if pieces == [] then [] else pieces[0] + Joined(pieces[1..])
  }

  class ByteStream {
    var pieces: seq<seq<Byte>>

    ghost function Contents(): seq<Byte>
      reads this
    {
      Joined(pieces)
    }

    constructor (pieces: seq<seq<Byte>>)
      ensures Contents() == Joined(pieces)
    {
      this.pieces := pieces;
    }

    /** As much of the next piece as fits; nothing only at the end of the stream. */
    method Read(most: nat) returns (bytes: seq<Byte>)
      requires most > 0
      modifies this
      ensures |bytes| <= most
      ensures bytes + Contents() == old(Contents())
      ensures bytes == [] <==> old(Contents()) == []
    {
      while pieces != [] && pieces[0] == []
        invariant Contents() == old(Contents())
        decreases |pieces|
      {
        pieces := pieces[1..];
      }
      if pieces == [] {
        return [];
      }
      var n := Min(most, |pieces[0]|);
      bytes := pieces[0][..n];
      ghost var tail := pieces[1..];
      pieces := [pieces[0][n..]] + pieces[1..];
      assert pieces[1..] == tail;
      assert bytes + (pieces[0] + Joined(tail)) == (bytes + pieces[0]) + Joined(tail);
    }

    /** Exactly n bytes, or how many there were. */
    method ReadExact(n: nat) returns (r: Result<seq<Byte>, nat>)
      modifies this
      ensures n <= |old(Contents())| ==> r == Success(old(Contents())[..n]) && Contents() == old(Contents())[n..]
      ensures n > |old(Contents())| ==> r == Failure(|old(Contents())|) && Contents() == []
    {
      var got: seq<Byte> := [];
      while |got| < n
        invariant |got| <= n && got + Contents() == old(Contents())
        decreases n - |got|
      {
        var bytes := Read(n - |got|);
        if bytes == [] {
          return Failure(|got|);
        }
        got := got + bytes;
      }
      r := Success(got);
    }

    method ReadMessage() returns (r: Result<Option<seq<Byte>>, ReadError>)
      modifies this
      ensures Parse(r, Contents()) == ParseMessage(old(Contents()))
    {
      var prefix := ReadExact(4);
      if prefix.Failure? {
        return if prefix.error == 0 then Success(None) else Failure(MidFrame(prefix.error));
      }
      var payloadLen := FromBigEndian(prefix.value);
      var payload := ReadExact(payloadLen);
      if payload.Failure? {
        return Failure(PayloadCutShort);
      }
      var frame := prefix.value + payload.value;
      assert frame == old(Contents())[..4 + payloadLen];
      var decoded := DecodeFrame(frame);
      r := if decoded.Success? then Success(Some(decoded.value)) else Failure(BadFrame(decoded.error));
    }

    method ReadRequired() returns (r: Result<seq<Byte>, ReadError>)
      modifies this
      ensures Parse(r, Contents()) == ParseRequired(old(Contents()))
    {
      var message := ReadMessage();
      if message.Failure? {
        return Failure(message.error);
      }
      r := if message.value.Some? then Success(message.value.value) else Failure(NoMessage);
    }

    /** The file's bytes: each read is bounded by what is still missing, so the trailer is not touched. */
    method ReadData(size: nat, chunk: nat) returns (r: Result<seq<Byte>, ReadError>)
      requires chunk > 0
      modifies this
      ensures size <= |old(Contents())| ==>
        r == Success(old(Contents())[..size]) && Contents() == old(Contents())[size..]
      ensures size > |old(Contents())| ==> r == Failure(ClosedEarly) && Contents() == []
    {
      var data: seq<Byte> := [];
      while |data| < size
        invariant |data| <= size && data + Contents() == old(Contents())
        decreases size - |data|
      {
        var bytes := Read(Min(size - |data|, chunk));
        if bytes == [] {
          return Failure(ClosedEarly);
        }
        data := data + bytes;
      }
      r := Success(data);
    }

    method ReadResponse(codec: Codec) returns (r: Result<Response, ReadError>)
      modifies this
      ensures Parse(r, Contents()) == ParseResponse(old(Contents()), codec)
    {
      var payload := ReadRequired();
      if payload.Failure? {
        return Failure(payload.error);
      }
      var response := codec.decode(payload.value);
      r := if response.Undecodable? then Failure(BadPayload) else Success(response);
    }

    /** However the stream is cut into pieces, an entry is read as `ParseEntry` says. */
    method ReadEntry(size: nat, codec: Codec, chunk: nat) returns (r: Result<seq<Byte>, ReadError>)
      requires chunk > 0
      modifies this
      ensures Parse(r, Contents()) == ParseEntry(old(Contents()), size, codec)
    {
      var ready := ReadResponse(codec);
      if ready.Failure? {
        return Failure(ready.error);
      }
      var expected := ExpectReady(ready.value, size);
      if expected.Failure? {
        return Failure(expected.error);
      }
      var data := ReadData(size, chunk);
      if data.Failure? {
        return data;
      }
      var trailer := ReadResponse(codec);
      if trailer.Failure? {
        return Failure(trailer.error);
      }
      var verdict := ExpectTrailer(trailer.value, codec.digest(data.value));
      r := if verdict.Success? then data else Failure(verdict.error);
    }
  }
}
