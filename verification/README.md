# Clipboardwire: a verified model

Clipboardwire keeps the clipboards of several desktops in step through one relay. A hub task owns the
set of connected clients and the last clip; every connection has a reader and a writer task around it;
every desktop runs a clipboard thread, a supervisor and a transport; files travel as 4 MiB chunks. This
project models those parts in Dafny and proves what the parts promise together.

| file | what it models |
|---|---|
| `Wrappers`, `Text`, `Utf8`, `Base64`, `Fingerprint` | integer widths, `str` operations, UTF-8 (RFC 3629), Base64 (section 4 of RFC 4648), colon-separated hexadecimal |
| `Pem`, `UriList`, `BasicAuth` | PEM certificates (sections 2 and 5 of RFC 7468), `text/uri-list` bodies (section 5 of RFC 2483, section 2.1 of RFC 3986, section 2 of RFC 8089), Basic credentials (section 2 of RFC 7617) |
| `Protocol`, `ClipFrames` | wire frames and their validation; clipboard changes as frames |
| `FileSend`, `FileNames`, `FileReceive`, `Reassembly`, `ShortReads` | the chunked transfer: sender, naming, receiver, both together, and which reads they can be trusted with |
| `Hub`, `Server`, `ServerCapacity`, `ServerStream`, `ServerIntake`, `ServerOrder`, `ServerTasks`, `FileRelay` | the hub, the life of every connection around it, the capacity protocol, what each client is sent, what the readers bring in, what goes first, how long the tasks run, a file from end to end |
| `Clipboard`, `Supervisor`, `Network`, `NoEcho`, `Propagation`, `Progress`, `TwoCopies`, `SwapRun` | clipboard thread, supervisor and batches, and any number of desktops around one hub: no echoes, one copy, two copies |
| `Transport`, `Backoff` | the client's connection loop: queues across reconnects, waits between them |

Code that updates state in place is a class or a loop here too (`FileReceive.FileReceiver`,
`Hub.HubTask`, `Clipboard.ClipboardThread`, `Supervisor.Task`, `Transport.TransportTask`,
`Backoff.RunLoop`, the encoder and decoder loops). Each method is proved equal to a step function, and
the state machines over those functions carry the results about whole runs. Those results compare what
a run leaves with its list of steps, not with what the steps record about themselves. Tasks that run side by side
are interleavings of their visible steps.

What the environment is taken to do:

- SHA-256 is an arbitrary function `sha` with a non-empty result, and the PNG codec a pair of partial
  functions, lossless where a round trip is claimed. Section "Left out" names the rest of the libraries.
- File-system calls succeed and no other program writes to the save directory. The sizes that `read`
  returns are arbitrary (`FileSend.LegalReads`); results that need full reads say so
  (`FileSend.FullReads`).
- Random identifiers are new when drawn. A receiver's naming suffix is fresh
  (`FileReceive.FreshSuffix`) and, being a UUID, does not end in `l`.
- The operating system's clipboard has three optional slots; a successful write leaves only its own
  kind, and reading returns what was written; any read or write may fail.
- A socket is a first-in first-out pipe that may fail at any time.

Where the code departs from its comments or from `PROTOCOL.md`, the model follows the code:

- A client does not drop frames by time stamp (`PROTOCOL.md:169`), so two copies need not converge.
  `TwoCopies.CopiesSwapIff` says when, for two different copies: the desktops end with each other's
  exactly when each copy was polled before the other's clip was applied at its desktop; otherwise
  everybody ends with one of the two. `SwapRun.SwapHappens` shows that the swap can happen.
- There is no ±20 % jitter, and the backoff resets on the duration of the whole attempt, connecting
  included, not of the open connection (`PROTOCOL.md:68-70`, `Backoff.ResetIff`).
- The comment at `core/src/client/clipboard.rs:225-227` says that text is checked at every tick; a poll
  returns as soon as it has found files or an image to report.
- A transport that ends may abandon queued frames for good. `Transport.ExitLeavesNothingIff` says
  which ends do not: only the one through the closed clip channel, which sends the queued file chunks
  first. After any other the loop can stop with frames queued, as it does when both channels are closed
  and it cannot connect (`core/src/client/transport.rs:199-205`). `Transport.CloseFilesIsSafeIff` says
  when a caller may close the file channel without stranding a clip.
- The certificate reader takes the first PEM block of any label, not the first `CERTIFICATE`
  (`core/src/server/tls.rs:163`, `Pem.FirstBlockIff`).
- The sender sends one chunk per `read` and the receiver puts chunk `i` at `i` times 4 MiB, so a short
  read before the end leaves a gap of zeros. `ShortReads.RebuildsIffFullReads`: every file of a size
  comes back exactly when all reads but the last are full.
- A path that its URI form alters would be announced again by the next poll
  (`Clipboard.AppliedIsSilentIff`, with an example in `Clipboard.RelativePathEchoes`); exactly which
  paths those are is `UriList.PathBackIff`.

## Model

| member | source | states |
|---|---|---|
| Base64.DecodeIffEncode | core/src/client/file.rs:198-200 | decoding accepts exactly the encoder's outputs and returns what was encoded, for every text and every byte string |
| Base64.EncodedLength | core/src/client/file.rs:80 | four characters for every three bytes begun, which is what bounds a frame |
| Base64.Alphabet | core/src/client/file.rs:80 | the 64 symbols, in the order of Table 1 of RFC 4648 |
| Base64.GroupBits | core/src/client/file.rs:80 | four symbols hold the 24 bits of three bytes, most significant first |
| Utf8.DecodeIffEncode | core/src/server/auth.rs:35 | strict UTF-8 decoding accepts exactly the encodings of texts |
| Utf8.RoundTrip | core/src/client/files_clipboard.rs:121 | strict and lossy decoding both undo encoding |
| Utf8.ScalarLayout | core/src/client/files_clipboard.rs:192 | every scalar takes the bytes of section 3 of RFC 3629: a lead byte that says how many follow, and six bits in each of those |
| Utf8.IllFormedIsMaximal | core/src/client/files_clipboard.rs:121 | what the lossy decoder replaces at once is the longest prefix that some encoding begins with, or one byte if there is none; never a whole encoding, never more |
| Utf8.LossyStep | core/src/client/files_clipboard.rs:121 | any text is kept, and each unit replaced becomes one U+FFFD |
| Text.TrimIs | core/src/client/file.rs:315 | trimming removes exactly the white space at both ends |
| Fingerprint.FingerprintInjective | core/src/client/file.rs:143-149 | equal printed digests mean equal digests, so comparing the texts is comparing the digests |
| Fingerprint.FingerprintReads | core/src/client/file.rs:143-149 | each byte is printed as two upper-case digits that read as it, with a colon between it and the next |
| Pem.DerToPem | cli/src/settings.rs:289-301 | the line-by-line loop prints the 64-column PEM text of the certificate |
| Pem.WrappedLayout | cli/src/settings.rs:294-297 | the printed body is the text with a newline after every 64 characters and at its end, and nowhere else |
| Pem.FirstBlockIff | core/src/server/tls.rs:168-187 | no begin marker, no end of its line, no end marker: refused; otherwise the result is the bytes whose encoding stands before the end marker, white space dropped, whatever the label, or a refusal if there are none |
| Pem.FirstBlockOfPem | core/src/server/tls.rs:163-185 | the first certificate is found and read back whatever precedes it without a begin marker and whatever follows |
| Pem.PemRoundTrip | core/src/server/tls.rs:158-185 | decoding the printed certificate returns its bytes, for all byte strings, and both ends compute the same fingerprint |
| Pem.SameFingerprint | core/src/server/tls.rs:147-161 | two certificates show one fingerprint if and only if their digests agree |
| UriList.PercentEncodeLoop | core/src/client/files_clipboard.rs:187-204 | the loop computes the percent-encoding whose inverse is proved below |
| UriList.PercentDecodeLoop | core/src/client/files_clipboard.rs:150-166 | the decoder's loop with its early `continue` computes the decoding function, malformed escapes included |
| UriList.RenderUriListLoop | core/src/client/files_clipboard.rs:177-185 | the loop prints one CRLF-ended line per path, in order |
| UriList.PercentBytesRoundTrip | core/src/client/files_clipboard.rs:150-204 | decoding inverts encoding on every byte string, text or not |
| UriList.AnySpelling | core/src/client/files_clipboard.rs:150-175 | whichever bytes a writer escapes, with digits of either case, the bytes come back, if it escapes every percent sign |
| UriList.EscapeIff | core/src/client/files_clipboard.rs:155-175 | an escape is a percent sign and two hexadecimal digits, of either case; any other percent sign is not one |
| UriList.NoEscapes | core/src/client/files_clipboard.rs:150-166 | text without an escape is read as it stands |
| UriList.PrintedByte | core/src/client/files_clipboard.rs:187-204 | letters, digits and five marks are printed as themselves, any other byte as an upper-case escape |
| UriList.HostIsDropped | core/src/client/files_clipboard.rs:129-146 | an absolute path comes back from a URI with an empty host, `localhost`, or any host that does not begin with that word |
| UriList.PathBackIff | core/src/client/files_clipboard.rs:129-146 | one path comes back if and only if it is text, does not start with `localhost`, and has a slash only if it starts with one |
| UriList.UriListRoundTrip | core/src/client/files_clipboard.rs:117-204 | a whole list comes back if and only if every path does: no line is split, trimmed, taken for a comment or skipped |
| UriList.AbsolutePathsRoundTrip | core/src/client/files_clipboard.rs:177-204 | every absolute UTF-8 path is such a path |
| UriList.AnyTerminators | core/src/client/files_clipboard.rs:117-127 | a body of any program, with any mix of terminators, lists the paths of its `file://` lines in order and nothing for comments, blank lines and other schemes |
| BasicAuth.SplitOnceIff | core/src/server/auth.rs:38-40 | the split at the first colon is the pair exactly when the user has none |
| BasicAuth.AcceptedIff | core/src/server/auth.rs:25-44 | a request is accepted if and only if it has a header, which is `Basic ` and, trimmed, the encoding of the configured pair, and the configured user has no colon |
| BasicAuth.BuiltHeaderAccepted | core/src/server/auth.rs:25-50 | a header the client builds is accepted if and only if the pairs read the same and the configured user has no colon; for colon-free users, if and only if both halves match |
| Protocol.ClipRefusedIff | core/src/protocol.rs:63-75 | a clip is refused if and only if it has both payloads, neither, a text payload under another type, or a binary one under a text type |
| Protocol.ChunkRefusedIff | core/src/protocol.rs:158-178 | a chunk is refused if and only if its name is empty or holds a NUL, its total is zero or not above its index, or its payload or digest is empty |
| FileSend.AnnounceIff | core/src/client/file.rs:43-59 | a path without a name, an empty file and one of more than 2^32 - 1 chunks are refused, each for its reason, and no other |
| FileSend.SendFileThrough | core/src/client/file.rs:39-97 | the three refusals, and otherwise one frame per read until the channel closes, whatever the read sizes |
| FileSend.ReadAndSend | core/src/client/file.rs:66-89 | the loop sends the frames of the reads that fit, in order |
| FileSend.OffsetsMatchIff | core/src/client/file.rs:66-88 | each chunk starts where the receiver will write it if and only if every read but the last is full |
| FileSend.ReadCount | core/src/client/file.rs:55-71 | full reads are as many as announced, and their ranges partition the file |
| FileSend.SenderTiling | core/src/client/file.rs:55-88 | the payloads joined are the file, and every frame announces its name, type, digest, size and number of chunks; under full reads the frames number that, and the i-th holds bytes from i times 4 MiB, is valid, fits the frame limit and 64-bit offsets |
| FileNames.SanitizedIsSafe | core/src/client/file.rs:314-333 | whatever the sender announces becomes one path component: not empty, `.` or `..`, without separators or control characters, not ending in a dot |
| FileNames.SanitizedIsSameIff | core/src/client/file.rs:314-333 | exactly the safe, trimmed names not ending in a dot are kept |
| FileNames.SanitizedCharacters | core/src/client/file.rs:314-333 | the trimmed name is kept character by character, with an underscore for each forbidden one, up to the dots at its end; it is replaced exactly when it has nothing but dots |
| FileNames.ExtensionIff | core/src/client/file.rs:340-344 | an extension is exactly what follows the last dot, if something precedes that dot |
| FileNames.NumberedAt | core/src/client/file.rs:340-352 | the number goes before the extension, or at the end of a name that has none |
| FileNames.DecimalReads | core/src/client/file.rs:347-348 | the number is printed in digits that read back as it, without leading zeros |
| FileNames.UniquePath | core/src/client/file.rs:335-358 | the search loop returns the first free numbered name, or the random one |
| FileNames.UniqueNameIsFirst | core/src/client/file.rs:345-357 | a taken name gets the smallest free number, and the fallback exactly when none is free |
| FileNames.NumberedInjective | core/src/client/file.rs:346-352 | the numbered names of one file are all different |
| FileNames.UniqueNameIsFree | core/src/client/file.rs:335-358 | the name is free whenever the directory has fewer than 10,000 entries, by counting candidates, or the random fallback is free |
| FileNames.UniqueNameTakenIff | core/src/client/file.rs:335-358 | the name chosen is taken if and only if all 10,000 candidates and the fallback are |
| FileNames.UniqueNameIsSafe | core/src/client/file.rs:335-358 | numbering never leaves the directory |
| FileNames.ChosenName | core/src/client/file.rs:314-358 | an announced name becomes its safe form, numbered by the smallest free number if that is taken; a plain name that is free is kept exactly |
| FileReceive.RefusedIff | core/src/client/file.rs:194-293 | which chunk is refused and for what: bad fields, a payload that encodes nothing, an announcement that differs from its transfer's, or, with the last missing chunk, a digest that differs; a file is returned exactly when that digest agrees; a chunk seen before changes nothing |
| FileReceive.FileReceiver.ReceiveChunk | core/src/client/file.rs:194-295 | the in-place method keeps the invariant and does what the step function says, in every branch |
| FileReceive.ReceiveKeepsValid | core/src/client/file.rs:194-295 | for any chunk at all: every open transfer has a bitmap of its announced length, not full, a safe name and a partial file |
| FileReceive.OthersUntouched | core/src/client/file.rs:194-295 | a chunk changes no other transfer's bitmap or bytes and no file but its own partial file |
| FileReceive.RejectionChangesNothing | core/src/client/file.rs:195-243 | a rejected chunk changes nothing, except that a failed final hash removes exactly its transfer and partial file |
| FileReceive.ReturnedFile | core/src/client/file.rs:207-293 | a returned file is new, directly in the directory, has the announced digest (as a digest, not only as text), goes by the first free form of the name its first chunk announced, and its transfer is forgotten |
| FileReceive.OpeningTruncates | core/src/client/file.rs:207-216 | a file saved under a later transfer's partial name leaves no trace in anything that follows |
| FileReceive.SavedFilesKept | core/src/client/file.rs:207-293 | over every run, a saved file keeps its bytes unless a chunk's id gives it its partial name |
| Reassembly.SenderEmitsChunks | core/src/client/file.rs:55-88 | what the sender emits under full reads is what the receiver's results speak of |
| Reassembly.OwnChunk | core/src/client/file.rs:207-294 | one more chunk of a transfer adds its index and bytes to the record; it completes exactly when no index is missing, with the sent bytes and the announced name made safe and free |
| Reassembly.ForeignChunk | core/src/client/file.rs:194-295 | any other frame leaves the record alone |
| Reassembly.RunMatches | core/src/client/file.rs:194-295 | after every run, bitmap and partial file hold exactly the set of indices seen since the transfer opened |
| Reassembly.AnySchedule | core/src/client/file.rs:194-295 | under any reordering, repetition, loss and interleaving: no chunk of the transfer is rejected, completion comes exactly with the last missing index, and the file returned holds and keeps the sent bytes, under exactly the announced name if that is plain and free, and otherwise under its safe form with the smallest free number |
| ShortReads.RebuildsIffFullReads | core/src/client/file.rs:66-88 | handed over in order, the frames of these reads give back every file of the size if and only if every read but the last is full |
| ShortReads.ShortReadsLose | core/src/client/file.rs:66-88 | after a short read before the end, some file of the size never comes back, whatever the order, repetition and loss of its frames |
| Hub.HubTask.HandleMessage | core/src/server/hub.rs:178-263 | the in-place hub does what the step function says for all four messages |
| Hub.HubTask.Relay | core/src/server/hub.rs:219-233 | the loop over the peers offers the frame to each of them once and not to the sender, whatever the order |
| Hub.PeerIndependence | core/src/server/hub.rs:215-263 | what a message does to one client's channels depends on no other client's |
| Hub.HubCapsItself | core/src/server/hub.rs:180-191 | the hub alone never exceeds its limit, and refuses exactly a registration that finds it full |
| Hub.FanOutReaches | core/src/server/hub.rs:215-263 | each other member with room gets the frame last in its channel, stamped with its origin; all else stays |
| Hub.AnsweredWithLast | core/src/server/hub.rs:180-206 | after any messages, a registration is answered with the last clip they published, naming its publisher, or with none; it starts with empty channels; it is refused exactly when the hub is full, and nothing else is answered |
| Hub.ClientsAre | core/src/server/hub.rs:180-214 | after any messages, the clients are exactly those whose registration found room and who have not left since |
| ServerCapacity.MembersFit | core/src/server/ws.rs:77-86 | admitted members, present or waiting in the inbox, never outnumber the permits |
| ServerCapacity.HeadIsAccepted | core/src/server/hub.rs:180-206 | a registration at the head of the inbox always finds room |
| ServerCapacity.CapacityStep | core/src/server/ws.rs:77-119 | every step of every task keeps the capacity invariant |
| ServerCapacity.NeverAtCapacity | core/src/server/ws.rs:77-119 | in every run the hub never answers that it is full, has at most `max_conns` clients, its counter equals their number, and whenever its inbox is empty they are exactly the connections that have registered and not left |
| ServerStream.StreamStep | core/src/server/hub.rs:186-234 | every step keeps each client's part of the publish log |
| ServerStream.DeliveryStep | core/src/server/ws.rs:121-197 | every step keeps channels, socket and output grammar in agreement with that part |
| ServerStream.SnapshotPlusStream | core/src/server/hub.rs:186-262 | in every run: the welcome carries the last clip published before registration; of the later clips of others and of their later file chunks, each channel took some in order and refused exactly the rest, when full, or when closed after its writer ended; it took all if and only if it refused none; while the writer lives, what the channel took is what the socket got followed by what still waits |
| ServerStream.WireGrammar | core/src/server/ws.rs:121-305 | in every run a socket carries one welcome first, then clips and chunks, at most one error, and that last |
| ServerIntake.ReadIsPublished | core/src/server/ws.rs:202-300 | in every run, for every client, the valid clips and chunks its reader was given, in order and with their origin reset, are the log entries stamped with it followed by those that wait for the hub; anything else adds nothing |
| ServerIntake.ReaderToSocket | core/src/server/hub.rs:215-262 | in every run, for a member whose channel refused nothing and is written out, what another client's reader brought is what was published before the member joined, then what its socket carries from that client, then what waits |
| ServerOrder.ClipsGoFirst | core/src/server/ws.rs:144-183 | in every run a writer takes no file chunk before it has taken every clip that waits, whatever is published meanwhile |
| ServerTasks.TasksRun | core/src/server/ws.rs:137-314 | in every run the reader lives from the start to its first stop or refused frame, the writer to its stop, its first failed send or the error it sends; a refused frame is answered by an error while the writer lives, and no error is sent without one |
| FileRelay.AllChunksComplete | core/src/client/file.rs:194-295 | a receiver that gets every chunk of a transfer, in any order and among anything else, completes it with the sent bytes and the announced name made safe and free |
| FileRelay.RelayedFileArrives | core/src/server/hub.rs:235-262 | in every run of the server, a member whose file channel was never full and is written out completes every transfer that others published whole, under that name |
| Clipboard.ClipboardThread.ApplyChange | core/src/client/clipboard.rs:153-201 | applying writes one slot and its tracker, or neither on failure; writing no files is a no-op that still moves the tracker |
| Clipboard.ClipboardThread.PollClipboard | core/src/client/clipboard.rs:203-267 | the poll with its early returns and transient failures does what the step function says |
| Clipboard.ApplyLeaves | core/src/client/clipboard.rs:153-201 | a failed write changes nothing; a write moves no tracker but its own kind's and leaves no slot but its own; what it leaves reads as the change, and is the only thing that could ever be announced from it |
| Clipboard.PollTracks | core/src/client/clipboard.rs:203-267 | a poll that reports moves exactly the tracker that applying its change would move; a silent one moves none, except that it forgets a text that is gone |
| Clipboard.PollConsumes | core/src/client/clipboard.rs:203-267 | a poll takes at most one change off what is pending, and with good reads exactly the first |
| Clipboard.SilentPoll | core/src/client/clipboard.rs:203-267 | a silent poll leaves every tracker equal to its present slot; an absent text is forgotten, so that copying it again is news, an absent image or file list is not |
| Clipboard.PollQuiescence | core/src/client/clipboard.rs:203-267 | from any trackers the polls emit each pending slot once, in order, at most three, then nothing |
| Clipboard.AppliedIsSilentIff | core/src/client/clipboard.rs:153-267 | after a successful apply the next poll is silent if and only if the change is not a file list that its URI form alters |
| Clipboard.RelativePathEchoes | core/src/client/files_clipboard.rs:129-146 | a path of two components without a leading slash is announced again by the next poll, altered |
| Clipboard.ApplyAddsNothing | core/src/client/clipboard.rs:153-201 | applying a remote change, successfully or not, never adds to what is pending |
| ClipFrames.FrameRoundTrip | core/src/client/mod.rs:231-283 | a frame made from a change carries the identifier and time drawn for it and no origin, is valid, and turns back into the change, whatever origin is stamped on it |
| ClipFrames.RemoteIff | core/src/client/mod.rs:255-283 | exactly which clips turn into a text or an image, which are unsupported, and which cannot be decoded |
| ClipFrames.LocalThenRemote | core/src/client/mod.rs:104-159 | a local change is queued if and only if it can be encoded and there is room, and then any other desktop's remote arm hands exactly that change to its clipboard |
| NoEcho.StepKeeps | core/src/client/mod.rs:98-159 | every step of the network keeps both budgets: slots filled pay for announcements, announcements for publications |
| NoEcho.FullChannelForgets | core/src/client/clipboard.rs:134-149 | a change found while the events channel is full is neither queued nor ever found again; any other is queued |
| NoEcho.SendMoves | core/src/client/transport.rs:303-320 | a send moves the next frame into the socket, in order; a failed one loses it and what the socket held, and nothing else |
| NoEcho.NoEchoStorm | core/src/client/clipboard.rs:153-267 | in every run of any number of desktops, with connections lost and found again: the clips the hub publishes for a desktop are at most the changes its supervisor passes on, and those, with the changes that wait or could still be found, at most the slots its own user filled, all counted from the steps of the run; and an applied clip leaves nothing to announce |
| NoEcho.PublishedPerCopy | core/src/server/hub.rs:215-234 | over a whole run the hub publishes for a desktop at most three clips per copy of its user, plus what was pending on its clipboard at the start |
| Propagation.StaysUnderway | core/src/client/mod.rs:97-159 | every step moves a copy to its next stage or leaves it there |
| Propagation.NeverStuck | core/src/client/mod.rs:97-159 | until the queues have drained, some step can move the copy on |
| Progress.StepProgress | core/src/client/mod.rs:97-159 | every step but a poll that finds nothing brings a copy closer to every clipboard |
| Progress.CopyDrains | core/src/server/hub.rs:215-234 | among N desktops a copy drains within 3 N + 5 such steps, in whatever order they come |
| Propagation.SingleWriterPropagation | core/src/server/hub.rs:215-234 | one copy of a text or image, under every interleaving, leaves every desktop's clipboard and the hub's cached clip holding it once the queues have drained, and nothing pending |
| TwoCopies.StepInv | core/src/client/mod.rs:97-159 | every step keeps, for every desktop, what is due to it, on its way to it and on its clipboard in agreement with the order of the two publications |
| TwoCopies.CopiesSwapIff | core/src/server/hub.rs:215-234 | two copies under every interleaving, once the queues have drained: swapped if and only if each was polled before the other's clip was applied at its desktop; otherwise every desktop holds one of them; all other desktops and the cached clip have the last one published |
| SwapRun.SwapHappens | core/src/server/hub.rs:215-234 | from every idle network of two desktops, some run makes both copies, drains, and leaves them swapped |
| Supervisor.Task.OnLocalChange | core/src/client/mod.rs:98-116 | the local arm is the one every desktop of a network takes; a frame it queues arrives as the change it was, whoever gets it |
| Supervisor.Task.OnRemoteClip | core/src/client/mod.rs:136-159 | the remote arm is the one every desktop takes; what it hands to the clipboard comes back from it unchanged, so it is never announced again |
| Supervisor.Task.OnFileChunk | core/src/client/mod.rs:160-186 | the file arm equals the receiver's step followed by the batch function that the law below is about |
| Supervisor.Task.OnDeadline | core/src/client/mod.rs:187-202 | the whole batch goes to the clipboard thread at once |
| Supervisor.BatchInvAlways | core/src/client/mod.rs:160-202 | the batch invariant after every turn of the two arms |
| Supervisor.BatchLaw | core/src/client/mod.rs:160-212 | over every run of the file arm and the deadline arm: the files handed to the clipboard, change after change, followed by the pending ones, are the files of the completed transfers in order, each under the save directory by the name the receiver gave it; a deadline is set exactly while files wait; no change goes out before 500 ms after its last file, and files completed less than that apart share one |
| Supervisor.SavedBatchIsFaithful | core/src/client/mod.rs:187-202 | files saved under an absolute directory come back from the clipboard unchanged, so exposing them echoes nothing |
| Transport.TransportTask.SendClip | core/src/client/transport.rs:303-320 | a clip leaves its queue before the send, and a failed send ends the connection |
| Transport.TransportTask.SendFile | core/src/client/transport.rs:321-331 | the same for a file chunk |
| Transport.TransportTask.Receive | core/src/client/transport.rs:346-367 | a frame from the server goes to its inbound queue, and ends the connection if nobody listens |
| Transport.TransportTask.DrainOutboundFiles | core/src/client/transport.rs:225-240 | the drain loop, with chunks still arriving, sends until a send fails or the channel is closed and empty |
| Transport.TransportTask.Select | core/src/client/transport.rs:301-386 | one turn of the select loop, whichever arm is ready |
| Transport.TransportTask.Serve | core/src/client/transport.rs:301-386 | the select loop followed by the drain loop runs the state machine until the first step that ends the connection |
| Transport.TransportConservation | core/src/client/transport.rs:178-331 | over every run and any number of reconnects, the frames put on each queue are, in order, those taken off it and those still queued; what was taken went to the socket, except one frame per connection that a failed send ended, and all of it did if and only if there was none |
| Transport.InboundConservation | core/src/client/transport.rs:293-367 | over every run, the clips of welcomes and relays and the wanted chunks that the server sent reach the supervisor in order: what it took and what still waits is a beginning of them, and all of them while it listens |
| Transport.OneLossPerConnection | core/src/client/transport.rs:301-331 | one connection loses one frame over both queues if a failed send ends it, and none otherwise |
| Transport.StopsIff | core/src/client/transport.rs:194-205 | after a connection or an attempt the loop stops if and only if one was all that was wanted or the clip channel has been closed |
| Transport.ListenerGoneIff | core/src/client/transport.rs:346-367 | a frame from the server ends its connection if and only if it is for a listener that has gone |
| Transport.ClosedExitLeavesNoFiles | core/src/client/transport.rs:303-327 | an exit through a closed channel leaves no file chunk queued, and none can come |
| Transport.ExitLeavesNothingIff | core/src/client/transport.rs:178-331 | of the ways a connection ends, exactly the one through the closed clip channel leaves both queues empty in every run; exactly the two closed channels leave no file chunk; the same among the ends after which the loop stops |
| Transport.CloseFilesIsSafeIff | core/src/client/transport.rs:301-331 | closing the file channel under a connection never strands a clip if and only if the clip queue is empty and closed already |
| Backoff.RunLoop | core/src/client/transport.rs:160-217 | the loop with its reset, doubling and cap makes exactly the reports and waits of the closed form: two to the number of attempts since the last stable one, at most 60 seconds |
| Backoff.BackoffLaw | core/src/client/transport.rs:177-216 | every wait is between 1 and 60 seconds and is announced exactly by the report before it |
| Backoff.ResetIff | core/src/client/transport.rs:206-209 | the wait is back at one second exactly after the first attempt and after one that took 30 seconds, connected or not |
| Backoff.WaitsAre | core/src/client/transport.rs:160-217 | the wait after an attempt is 1, 2, 4, 8, 16, 32 and then 60 seconds, by the number of attempts since the last stable one |
| Backoff.MadeIs | core/src/client/transport.rs:194-205 | the loop stops at the first attempt after which the clip channel is closed, or at the first of all if one was wanted |

## Left out

- `Server` and `Network` are step functions on values: reader, writer and `handle_socket` of `core/src/server/ws.rs`, and the loops of `core/src/client/clipboard.rs:89-151` and `core/src/client/mod.rs:85-205`, run side by side, so each turn of a loop is one step and any order of turns is a run. The polling interval itself is not modelled.
- Supervisor.Task.OnLocalChange: leaves the queue alone for a file list, which is a call of the sender per path; `FileSend` models that by itself, and `Network` counts it as one announcement.
- Supervisor.BatchLaw: speaks of runs until the supervisor exits; what is pending at that moment is dropped by the program.
- FileSend.SendFileThrough: takes the file's content as one value, so a file that changes between the hash and the reads is not captured; the buffered hashing loop is the digest of the content. The frame index wraps, as in a release build.
- FileReceive.FileReceiver.ReceiveChunk: failing file-system calls, name-length limits and case-insensitive directories are not captured.
- Propagation.SingleWriterPropagation: excludes failing writes, failing sends and lost connections on the way, as any of them can lose the clip for good; nothing resends it.
- NoEcho.NoEchoStorm: a desktop keeps one identifier and its transport queues are merged into one link each way. Clips that arrive after a reconnect, by a welcome or under an older identifier, are arbitrary strays. A batch of received files must be one that the clipboard does not alter (the guard of `Network.BatchSaved`, met by `Supervisor.SavedBatchIsFaithful` under an absolute save directory). A file list counts as one announcement, whatever the number of its files.
- TwoCopies.CopiesSwapIff: as for one copy, nothing else disturbs the run: no third copy, no failing write or send, no lost connection.
- Transport.TransportTask.Serve: while it waits for room in an inbound queue the program does nothing else; here a frame is read only once there is room, which allows more interleavings. Pings, and their failure, are single events.
- ServerCapacity.NeverAtCapacity: a connection limit beyond the counter's word size, task cancellation and panics are not captured.
- JSON, WebSocket framing and pings, TLS, certificate generation, PNG and the real clipboard backends other than the Linux file list: library or platform code.
- Settings dialog, tray, configuration loading, command line and the Android client: no property that spans operations.
- The MIME table, logging, and the constant-time comparison of credentials, of which only the result is modelled.
- Shutdown of the hub, the liveness of the operating system's scheduler, and the order of the operating system's timers.
