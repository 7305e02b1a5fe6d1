/** One clipboard change as one wire frame, and back. */
module ClipFrames {
  import opened Wrappers
  import opened Protocol
  import opened Clipboard
  import Base64

  /** The PNG codec, given as a pair of partial functions. */
  datatype Codec = Codec(encode: ImageBytes -> Option<seq<Byte>>, decode: seq<Byte> -> Option<ImageBytes>)

  /** Whatever encodes decodes to itself. */
  ghost predicate Lossless(codec: Codec) {
    forall image: ImageBytes :: codec.encode(image).Some? ==> codec.decode(codec.encode(image).value) == Some(image)
  }

  datatype Rejection = Unsupported | Undecodable

  /** `change_to_frame`, with the identifier and time it draws. */
  function ChangeToFrame(codec: Codec, change: ClipChange, id: Uuid, ts: int): Option<ClipFrame> {
    match change
    case Text(text) => Some(ClipFrame(id, ts, TEXT_CONTENT_TYPE, Some(text), None, None))
    case Image(image) =>
      (match codec.encode(image)
       case None => None
       case Some(png) => Some(ClipFrame(id, ts, IMAGE_PNG_CONTENT_TYPE, None, Some(Base64.Encode(png)), None)))
    case Files(_) => None
  }

  function FrameToChange(codec: Codec, clip: ClipFrame): Result<ClipChange, Rejection> {
    if IsTextContentType(clip.contentType) then
      (match clip.content case None => Err(Undecodable) case Some(text) => Ok(Text(text)))
    else if clip.contentType == IMAGE_PNG_CONTENT_TYPE then
      (match clip.contentB64
       case None => Err(Undecodable)
       case Some(b64) =>
         match Base64.Decode(b64)
         case None => Err(Undecodable)
         case Some(png) =>
           match codec.decode(png) case None => Err(Undecodable) case Some(image) => Ok(Image(image)))
    else Err(Unsupported)
  }

  /** The supervisor's arm for a local change: one frame for a text or an image, dropped when the
      queue is full. Files travel by the other queue. */
  function QueueLocal(codec: Codec, outbound: seq<ClipFrame>, change: ClipChange, id: Uuid, ts: int): seq<ClipFrame> {
    match ChangeToFrame(codec, change, id, ts)
    case None => outbound
    case Some(frame) => if |outbound| < OUTBOUND_BUF then outbound + [frame] else outbound
  }

  /** The supervisor's arm for a remote clip: what cannot be decoded is dropped. */
  function QueueRemote(codec: Codec, waiting: seq<ClipChange>, clip: ClipFrame): seq<ClipChange> {
    match FrameToChange(codec, clip)
    case Err(_) => waiting
    case Ok(change) => waiting + [change]
  }

  /** A frame made from a change passes the hub's check and turns back into the change, whatever
      origin is stamped on it. */
  lemma FrameRoundTrip(codec: Codec, change: ClipChange, id: Uuid, ts: int, from: Option<Uuid>)
    requires Lossless(codec) && ChangeToFrame(codec, change, id, ts).Some?
    ensures var frame := ChangeToFrame(codec, change, id, ts).value;
            && frame.id == id && frame.ts == ts && frame.from == None
            && frame.Validates()
            && FrameToChange(codec, frame.(from := from)) == Ok(change)
  {
    hide Base64.Encode, Base64.Decode;
    assert TEXT_CONTENT_TYPE[..5] == "text/" && IMAGE_PNG_CONTENT_TYPE[..1] == "i";
    assert IMAGE_PNG_CONTENT_TYPE[0] != "text/"[0];
    if change.Image? {
      Base64.RoundTrip(codec.encode(change.image).value);
    }
  }

  /** Exactly which clips turn into a change: a text type with its text, and `image/png` with the
      encoding of bytes the codec decodes. Any other type is unsupported, and the rest undecodable. */
  lemma RemoteIff(codec: Codec, clip: ClipFrame, text: string, image: ImageBytes)
    ensures var r := FrameToChange(codec, clip);
            && (r == Ok(Text(text)) <==> "text/" <= clip.contentType && clip.content == Some(text))
            && (r == Ok(Image(image)) <==>
                  && clip.contentType == "image/png"
                  && exists png :: clip.contentB64 == Some(Base64.Encode(png)) && codec.decode(png) == Some(image))
            && (r == Err(Unsupported) <==> !("text/" <= clip.contentType) && clip.contentType != "image/png")
  {
    hide Base64.Encode, Base64.Decode;
    assert IMAGE_PNG_CONTENT_TYPE[0] != "text/"[0];
    if clip.contentB64.Some? {
      var b64 := clip.contentB64.value;
      forall png ensures b64 == Base64.Encode(png) <==> Base64.Decode(b64) == Some(png) {
        Base64.DecodeIffEncode(b64, png);
      }
      if Base64.Decode(b64).Some? {
        assert b64 == Base64.Encode(Base64.Decode(b64).value);
      }
    }
  }

  /** No frame turns into a file list, so a remote clip is never one. */
  lemma NeverFiles(codec: Codec, clip: ClipFrame)
    ensures FrameToChange(codec, clip).Ok? ==> !FrameToChange(codec, clip).value.Files?
  {}

  function Stamped(clip: ClipFrame, from: Option<Uuid>): ClipFrame {
    clip.(from := from)
  }

  /** Whoever gets this frame, stamped by the hub or not, hands the change to its clipboard. */
  ghost predicate Arrives(codec: Codec, clip: ClipFrame, change: ClipChange) {
    forall from, waiting: seq<ClipChange> ::
      QueueRemote(codec, waiting, Stamped(clip, from)) == waiting + [change]
  }

  predicate Encodes(codec: Codec, change: ClipChange) {
    change.Text? || (change.Image? && codec.encode(change.image).Some?)
  }

  /** One desktop's local arm and another's remote arm: a change is queued exactly when it can be
      encoded and there is room, and then it is valid and arrives as the change it was. */
  lemma LocalThenRemote(codec: Codec, outbound: seq<ClipFrame>, change: ClipChange, id: Uuid, ts: int)
    requires Lossless(codec)
    ensures var sent := QueueLocal(codec, outbound, change, id, ts);
            && (sent != outbound <==> Encodes(codec, change) && |outbound| < OUTBOUND_BUF)
            && (sent != outbound ==>
                  && |sent| == |outbound| + 1 && sent[..|outbound|] == outbound
                  && sent[|outbound|].Validates()
                  && Arrives(codec, sent[|outbound|], change))
  {
    hide FrameToChange;
    if ChangeToFrame(codec, change, id, ts).Some? {
      FrameRoundTrip(codec, change, id, ts, None);
      forall from, waiting: seq<ClipChange>
        ensures QueueRemote(codec, waiting, Stamped(ChangeToFrame(codec, change, id, ts).value, from)) == waiting + [change]
      {
        FrameRoundTrip(codec, change, id, ts, from);
      }
    }
  }
}
