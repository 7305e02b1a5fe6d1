/** Wire frames and their sanity checks. */
module Protocol {
  import opened Wrappers

  const MAX_FRAME_BYTES := 50 * 1024 * 1024
  const FILE_CHUNK_BYTES := 4 * 1024 * 1024
  const TEXT_CONTENT_TYPE := "text/plain; charset=utf-8"
  const IMAGE_PNG_CONTENT_TYPE := "image/png"

  // The client's queues towards its socket.
  const OUTBOUND_BUF := 8
  const OUTBOUND_FILES_BUF := 4

  predicate IsTextContentType(contentType: string) {
    "text/" <= contentType
  }

  datatype ClipFrame = ClipFrame(
    id: Uuid, ts: int, contentType: string, content: Option<string>, contentB64: Option<string>, from: Option<Uuid>)
  {
    predicate Validates() {
      && (content.Some? <==> contentB64.None?)
      && (content.Some? <==> IsTextContentType(contentType))
    }
  }

  datatype FileChunkFrame = FileChunkFrame(
    fileId: Uuid, name: string, contentType: string, chunkIndex: U32, totalChunks: U32,
    fileSha256: string, fileSize: U64, payloadB64: string, from: Option<Uuid>)
  {
    predicate Validates() {
      && |name| > 0 && '\0' !in name
      && totalChunks > 0 && chunkIndex < totalChunks
      && |payloadB64| > 0 && |fileSha256| > 0
    }
  }

  /** The four ways in which a clip is refused. */
  lemma ClipRefusedIff(clip: ClipFrame)
    ensures !clip.Validates() <==>
      || (clip.content.Some? && clip.contentB64.Some?)
      || (clip.content.None? && clip.contentB64.None?)
      || (clip.content.Some? && !("text/" <= clip.contentType))
      || (clip.contentB64.Some? && "text/" <= clip.contentType)
  {}

  /** The six ways in which a chunk is refused. */
  lemma ChunkRefusedIff(chunk: FileChunkFrame)
    ensures !chunk.Validates() <==>
      || chunk.name == "" || '\0' in chunk.name
      || chunk.totalChunks == 0 || chunk.chunkIndex >= chunk.totalChunks
      || chunk.payloadB64 == "" || chunk.fileSha256 == ""
  {}

  datatype ErrorCode = Unauthorized | BadFrame | FrameTooLarge | UnsupportedType | DuplicateSession

  datatype Frame =
    | Clip(clip: ClipFrame)
    | Welcome(clientId: Uuid, lastClip: Option<ClipFrame>)
    | Error(code: ErrorCode)
    | FileChunk(chunk: FileChunkFrame)
}
