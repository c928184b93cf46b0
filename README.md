# stream-transport in Dafny

A model of the sequential core of stream-transport. This is a small Python
system that streams a video file and its sound track from a server to a
client. It has three parts:

- **Control session.** A text protocol in the style of RTSP 1.0 (RFC 2326),
  with DESCRIBE, SETUP, PLAY, PAUSE, TEARDOWN and SET_PARAMETER requests, a
  `CSeq` header and a `Session` header. Lines end in `\n`. The client has an
  extra PREPARE state between INIT and READY.
- **Media datagrams.** The datagrams carry the fixed-header fields of RTP
  (RFC 3550 section 5.1). Payload type 26 carries JPEG video frames and
  payload type 35 carries raw audio chunks.
- **Search service.** It answers `SEARCH <query>` with the matching video
  file names.

The model covers these pieces:

- **The reorder buffer** (`Buffer`). The client's `BufferQueue` is a
  doubly-linked list with a head and a tail sentinel. It is a class whose
  nodes are rewired in place. Its methods are proved against value-level
  functions (`Insert`, `PutAll`), and the lemmas about those functions give
  sortedness, stability and the multiset of entries.
- **Fragmentation and reassembly.**
  - `Rtp` describes how both senders cut a frame or chunk into datagrams.
  - `VideoServerRtp` and `AudioServerRtp` model the senders: cursors,
    sequence numbers, the send loop, seeking, quality and align.
  - `ServerRtp` holds the flag state the two senders share.
  - `VideoClientRtp` models the video receiver's high-water filter.
  - `AudioClientRtp` models the audio receiver. It reassembles each chunk
    through a fresh `BufferQueue`, files the chunk, and handles display,
    mute and clear.
  - `MediaLink` connects the two ends. A frame sent whole is shown exactly,
    and a chunk is reassembled exactly whatever order its datagrams arrive
    in.
- **The control session.**
  - `ClientRtspController` gates requests on the session state, writes the
    request text and accepts replies.
  - `ServerRtspController` parses requests, dispatches them to the senders
    and writes responses.
  - `RtspLink` proves the round trips: what the server reads off each client
    request, and what the client reads off each server response.
  - `Lines` and `Text` hold the Python string operations these are built
    from.
- **Search.**
  - `SearchEngine` models `generateResponse` and the request loop of
    `handleNewConnection`.
  - `FileExplorer` models the client's request text and `parseResponse`.
  - `SearchLink` proves the round trips between the two.

Sockets, threads, clocks, randomness, OpenCV, moviepy, PIL and sounddevice
are not modelled:

- What arrives on a socket is a parameter: a sequence of decoded datagrams,
  a request string, or a reply string.
- What goes out is recorded in a sequence field (`sent`, `requests`,
  `responses`, `output`).
- What a library reports for a file is a function parameter (`Encoder`,
  `ChunkSource`, `Library`, `alignChunks`).
- The random SSRC and session id are constructor arguments.

A step of a sender is one finished encode followed by the send of what it
produced.

## Model

| member | source | states |
|---|---|---|
| Buffer.InsertPos | client/Buffer.py:61-70 | the place `searchFromBack` stops at: every entry from there on has a larger key, and the entry before it has a key at most the new key |
| Buffer.InsertAt | client/Buffer.py:29-44 | `put` puts the new entry at exactly that place and leaves every other entry where it was |
| Buffer.InsertSorted | client/Buffer.py:29-44 | a `put` into a buffer sorted by non-decreasing key leaves it sorted |
| Buffer.InsertMultiset | client/Buffer.py:35-43 | a `put` adds exactly the new entry (one more in the multiset, length one more) and loses nothing |
| Buffer.InsertStable | client/Buffer.py:61-70 | every entry ahead of the new one has a key at most its key, so a repeated key goes after the entries already holding it |
| Buffer.InsertLast | client/Buffer.py:65-70 | a key at least the last key is appended at the back |
| Buffer.PutAllSorted | client/Buffer.py:29-44 | any series of puts into a sorted buffer keeps it sorted |
| Buffer.PutAllMultiset | client/Buffer.py:29-44 | after a series of puts the buffer holds exactly the old entries and the put ones |
| Buffer.PutAllInOrder | client/Buffer.py:29-44 | entries put in non-decreasing key order come out in the order they were put |
| Buffer.FrontIsMinimum | client/Buffer.py:46-59 | the front entry, which `get` returns, has the smallest key in the buffer |
| Buffer.SortedUnique | client/Buffer.py:61-70 | two sorted arrangements of the same entries with pairwise different keys are equal, so the put order does not matter |
| Buffer.Splice | client/Buffer.py:38-42 | the four link assignments of `put` insert the node after `p` and keep the spine linked both ways |
| Buffer.Node.constructor | client/Buffer.py:9-13 | a node holds its key and content and has no links |
| Buffer.BufferQueue.constructor | client/Buffer.py:21-27 | a new buffer is two linked sentinels, empty, with length 0 |
| Buffer.BufferQueue.SearchFromBack | client/Buffer.py:61-70 | the backward walk returns the node at the insertion place of the key |
| Buffer.BufferQueue.Put | client/Buffer.py:29-44 | the new contents are the old ones with the entry inserted at its place; the list stays linked, sorted and counted by `length` |
| Buffer.BufferQueue.Get | client/Buffer.py:46-59 | an empty buffer answers (-1, None) and stays empty; otherwise the front entry is returned and removed and the rest keep their order |
| Buffer.BufferQueue.Clear | client/Buffer.py:72-81 | the buffer is empty and its length is 0 |
| Buffer.DemoFirstThree | client/Buffer.py:87-89 | putting keys 0, 1, 3 keeps them in that order |
| Buffer.DemoOrder | client/Buffer.py:85-91 | putting keys 0, 1, 3, 2, 4 gives the contents 0, 1, 2, 3, 4 |
| Buffer.Fill | client/Buffer.py:85-91 | a new buffer after a series of puts holds the entries as the series of inserts places them |
| Buffer.Drain | client/Buffer.py:92-94 | gets in a row return the entries front first and then (-1, None), with the length after each falling to 0 and staying there |
| Buffer.SelfTest | client/Buffer.py:84-97 | the module's demonstration prints (0,0) to (4,4) and then (-1, None), with lengths 4, 3, 2, 1, 0, 0 |
| Rtp.Fragments | server/VideoServerRtp.py:104-112 | the datagrams of a frame are numbered on from the first number, all carry the same payload type, SSRC and timestamp, only the last has the marker, every payload is non-empty and at most the buffer size, all but the last are full, and an empty frame gives none |
| Rtp.FragmentCount | server/VideoServerRtp.py:104-108 | an n-byte frame is cut into ceil(n / size) datagrams |
| Rtp.FragmentsJoin | server/VideoServerRtp.py:98-108 | the payloads of the datagrams joined in order are the frame |
| Rtp.FragmentsFrom | server/VideoServerRtp.py:104-111 | one turn of the send loop emits the next piece, marked exactly when it reaches the end, and leaves the cut of the rest |
| Rtp.FrameEnd | client/VideoClientRtp.py:36-52 | a receiver reads up to and including the first datagram with the marker, or everything when none has it |
| Rtp.FrameEndUnique | client/AudioClientRtp.py:73-80 | a read ending at a marker with no marker before it ends exactly there |
| Rtp.FragmentsFrameEnd | client/AudioClientRtp.py:73-80 | the datagrams of a whole frame, whatever follows, are read as one frame |
| ServerRtp.Stride | server/AudioServerRtp.py:74 | a step moves the cursor by 2 exactly at double speed, and by 1 otherwise |
| ServerRtp.PerMille | server/VideoServerRtp.py:131 | `int(total * pos / 1000)` truncates toward zero: the floor for a non-negative product and the ceiling for a negative one |
| ServerRtp.PerMilleRange | server/VideoServerRtp.py:126-132 | a position from 0 to 1000 lands between 0 and the total; 0 gives 0 and 1000 gives the total |
| ServerRtp.PerMilleMonotone | server/AudioServerRtp.py:139-144 | a later position never gives an earlier index |
| ServerRtp.Engine.constructor | server/ServerRtp.py:20-37 | a new sender has its run flag set, is alive, not started, at normal speed, with SSRC 0, an open socket and no client |
| ServerRtp.Engine.SetClientInfo | server/ServerRtp.py:52-54 | the client address and port are set |
| ServerRtp.Engine.SetSsrc | server/ServerRtp.py:56-57 | the SSRC is set |
| ServerRtp.Engine.Pause | server/ServerRtp.py:71-75 | the run flag is cleared and nothing else changes |
| ServerRtp.Engine.Resume | server/ServerRtp.py:77-81 | the run flag is set and nothing else changes |
| ServerRtp.Engine.Stop | server/ServerRtp.py:83-88 | the run flag is set, so a paused loop is released, and the sender is no longer alive, so its loop ends |
| ServerRtp.Engine.Speed | server/ServerRtp.py:90-98 | 1 clears double speed, 2 sets it, any other value leaves it |
| ServerRtp.Engine.Launch | server/ServerRtp.py:63 | the sender counts as started |
| ServerRtp.Engine.CloseSocket | server/ServerRtp.py:45-47 | the socket is gone |
| VideoServerRtp.VideoServerRtp.constructor | server/VideoServerRtp.py:19-39 | frame 0 of an empty video, numbering from 1, quality 480x270, nothing sent |
| VideoServerRtp.VideoServerRtp.ReadFrame | server/VideoServerRtp.py:68-71 | `cap.read` succeeds exactly inside the video, returning the frame at the read position and moving past it |
| VideoServerRtp.VideoServerRtp.EncodeStep | server/VideoServerRtp.py:61-86 | a frame is produced exactly when there is a capture, the one or two reads succeed and encoding succeeds; it is the last frame read, encoded at the current quality, and the frame count rises by exactly 1 even at double speed |
| VideoServerRtp.VideoServerRtp.SendData | server/VideoServerRtp.py:88-113 | the datagrams sent are the fragments of the frame numbered on from `currentSeq`, type 26, stamped with `currentFrame`; nothing is sent without a socket; numbering stays consecutive from 1 |
| VideoServerRtp.VideoServerRtp.Emit | server/VideoServerRtp.py:109-112 | one datagram goes out and the next number rises by one |
| VideoServerRtp.VideoServerRtp.Step | server/VideoServerRtp.py:83-96 | an encoded frame advances the frame count by 1 and is sent in full, stamped with the new count; a failed encode sends nothing; with frames left, what it sends is the first frame of `RunOutput` and the rest of `RunOutput` starts from the new cursor |
| VideoServerRtp.VideoServerRtp.Run | server/ServerRtp.py:59-69 | the sender is marked started; with frames left and no stop asked for, it sends exactly `RunOutput` from the cursor and hangs, with the socket still open, exactly when a read or an encode fails before the last frame; stopped or with no frames left it sends nothing and closes the socket |
| VideoServerRtp.RunOutputNumbered | server/VideoServerRtp.py:88-113 | the datagrams of a whole run are numbered on from the first without a gap across frames, all type 26 with the sender's SSRC |
| VideoServerRtp.RunOutputStep | server/VideoServerRtp.py:65-96 | a run with a frame left whose encode succeeds sends that frame's fragments, stamped with the next frame index, then the rest of the run |
| VideoServerRtp.RunOutputFail | server/VideoServerRtp.py:65-81 | a run with a frame left whose read or encode fails sends nothing more and hangs |
| VideoServerRtp.RunOutputAfter | server/VideoServerRtp.py:65-96 | one step of a run, as the run sees it: a failed step ends it hanging, a successful one sends its fragments and leaves the rest to the advanced cursor |
| VideoServerRtp.VideoServerRtp.SetCapture | server/VideoServerRtp.py:115-124 | the capture and its frame count are set; a frame rate of 0 raises after that |
| VideoServerRtp.VideoServerRtp.SetPosition | server/VideoServerRtp.py:126-132 | the frame index and the capture position become `pos` per mille of the length, inside the video for 0 to 1000 |
| VideoServerRtp.VideoServerRtp.SetQuality | server/VideoServerRtp.py:134-142 | level 1 gives 480x270, level 0 gives 320x180, other levels change nothing |
| AudioServerRtp.AudioServerRtp.constructor | server/AudioServerRtp.py:16-42 | chunk 0 of an empty track, numbering from 1, nothing sent |
| AudioServerRtp.AudioServerRtp.EncodeStep | server/AudioServerRtp.py:66-77 | the current chunk is taken and the cursor moves on by 1, or by 2 at double speed |
| AudioServerRtp.AudioServerRtp.SendData | server/AudioServerRtp.py:79-104 | the datagrams sent are the 16386-byte fragments of the chunk numbered on from `currentSeq`, type 35, stamped with `currentChunk`; numbering stays consecutive from 1 across chunks |
| AudioServerRtp.AudioServerRtp.Emit | server/AudioServerRtp.py:100-103 | one datagram goes out and the next number rises by one |
| AudioServerRtp.AudioServerRtp.Step | server/AudioServerRtp.py:66-87 | a chunk moves the cursor by 1 or 2 and is sent in full, stamped with the moved cursor |
| AudioServerRtp.AudioServerRtp.Run | server/ServerRtp.py:59-69 | the sender is marked started; with chunks left and no stop asked for, it sends exactly `RunSent` from the cursor, or hangs with nothing sent and the socket open when there is no sound track; stopped or with no chunks left it sends nothing and closes the socket |
| AudioServerRtp.RunSent | server/AudioServerRtp.py:66-104 | the datagrams of a whole run, chunk by chunk at the stride, are numbered on from the first without a gap, all type 35 with the sender's SSRC |
| AudioServerRtp.AudioServerRtp.SetAudio | server/AudioServerRtp.py:106-120 | the sound track and its number of chunks are set |
| AudioServerRtp.AudioServerRtp.SetPosition | server/AudioServerRtp.py:139-144 | the chunk index becomes `pos` per mille of the chunk count, inside the track for 0 to 1000 |
| AudioServerRtp.AudioServerRtp.Align | server/AudioServerRtp.py:146-152 | the cursor moves by the chunk delta, without any clamping |
| VideoClientRtp.KeptIncreasing | client/VideoClientRtp.py:46-50 | the payloads kept are above the starting mark, strictly increasing in sequence number, and all received, none twice |
| VideoClientRtp.HighWater | client/VideoClientRtp.py:46-48 | `seqNum` never decreases |
| VideoClientRtp.HighWaterBound | client/VideoClientRtp.py:46-48 | after a frame `seqNum` is at or above every number seen, and is one of them unless it did not move |
| VideoClientRtp.KeepStep | client/VideoClientRtp.py:46-50 | one datagram read appends its payload and raises the mark exactly when its number beats the mark |
| VideoClientRtp.InOrderAllKept | client/VideoClientRtp.py:46-50 | datagrams arriving in increasing order above the mark are all kept, and the mark ends at the last one |
| VideoClientRtp.KeptLast | client/VideoClientRtp.py:46-50 | the final mark is the number of the last datagram kept, or the old mark when none was kept |
| VideoClientRtp.VideoClientRtp.constructor | client/VideoClientRtp.py:12-15 | the mark starts at 0 |
| VideoClientRtp.VideoClientRtp.ReceiveFrame | client/VideoClientRtp.py:36-52 | the receiver reads up to the first marker and the rest stays on the socket; a marker ends the frame even when its payload is dropped; the frame is the kept payloads and the mark is the highest number seen |
| AudioClientRtp.ArrivalOrderIrrelevant | client/AudioClientRtp.py:71-80 | the bytes of a chunk are the payloads in sequence-number order, whatever order they arrived in |
| AudioClientRtp.DrainChunk | client/AudioClientRtp.py:74-80 | draining the buffer of datagrams appends every payload front to back and leaves it empty |
| AudioClientRtp.Feed | client/AudioClientRtp.py:71 | each datagram read is put under its sequence number |
| AudioClientRtp.ReadChunk | client/AudioClientRtp.py:56-80 | reading stops at the first marker; `lastFrameNbr` is the last timestamp read or -1; the bytes are the joined sorted payloads on a marker and empty otherwise |
| AudioClientRtp.AudioClientRtp.constructor | client/AudioClientRtp.py:17-27 | an empty chunk buffer and the sound on |
| AudioClientRtp.AudioClientRtp.ReceiveChunk | client/AudioClientRtp.py:54-88 | one chunk is read off the socket and filed under the last timestamp read; nothing is filed when nothing was read |
| AudioClientRtp.AudioClientRtp.Display | client/AudioClientRtp.py:90-98 | the lowest-index chunk is always removed; it is written only when the sound is on, so a muted chunk is dropped |
| AudioClientRtp.AudioClientRtp.ClearBuffer | client/AudioClientRtp.py:103-104 | the chunk buffer is empty |
| AudioClientRtp.AudioClientRtp.Mute | client/AudioClientRtp.py:106-110 | the mute flag flips, so two calls restore it |
| ClientRtspController.TargetGates | client/ClientRtspController.py:164-184 | each accepted reply leads to a state that allows the next request of the protocol and not the one just made; TEARDOWN is allowed everywhere except where it leads |
| ClientRtspController.ClientRtspController.constructor | client/ClientRtspController.py:19-40 | INIT, CSeq 0, no session, no request sent, no receiver |
| ClientRtspController.ClientRtspController.SendRtspRequest | client/ClientRtspController.py:75-129 | a request goes out exactly when the state allows it; then the CSeq rises by 1, the request is recorded and its text is written; otherwise nothing changes |
| ClientRtspController.ClientRtspController.Describe | client/ClientRtspController.py:51-53 | DESCRIBE goes out exactly in INIT |
| ClientRtspController.ClientRtspController.Setup | client/ClientRtspController.py:55-57 | SETUP goes out exactly in PREPARE |
| ClientRtspController.ClientRtspController.OpenRtpPort | client/ClientRtspController.py:186-191 | as intended, with the port not handed to the thread as its group: a receiver is bound, or nothing changes when binding fails |
| ClientRtspController.ReceiverNeverBuilt | client/VideoClientRtp.py:12-13 | as written, the receiver's constructor raises for every port, because the port reaches `threading.Thread.__init__` as its group (client/ClientRtp.py:10-11) |
| ClientRtspController.ClientRtspController.OpenRtpPortAsWritten | client/ClientRtspController.py:186-191 | as written, `openRtpPort` always raises past its `except OSError` and leaves the receiver as it was |
| ClientRtspController.ClientRtspController.Play | client/ClientRtspController.py:59-66 | outside READY nothing happens; in READY the receiver is made if missing and started, then PLAY goes out, with each failure leaving the steps before it done |
| ClientRtspController.ClientRtspController.Pause | client/ClientRtspController.py:68-70 | PAUSE goes out exactly in PLAYING |
| ClientRtspController.ClientRtspController.Teardown | client/ClientRtspController.py:72-73 | TEARDOWN goes out in every state but INIT |
| ClientRtspController.ClientRtspController.ParseRtspReply | client/ClientRtspController.py:150-184 | a reply with another CSeq is ignored; the first reply with the right CSeq binds the session before its status is read, so a 404 binds it too; a reply whose session number cannot be read raises; a reply for another session is passed over; a matching session with a status other than 200 is ignored, and raises only when the status cannot be read; only a matching session with status 200 moves the state; DESCRIBE reads the length and frame rate off lines 6 and 7, SETUP opens the receiver, PAUSE drops it and TEARDOWN is acknowledged; the length and frame rate change only on DESCRIBE, each kept when its line cannot be read, and the receiver changes only on SETUP and PAUSE |
| ServerRtspController.ServerRtspController.constructor | server/ServerRtspController.py:17-52 | no stream, no senders, port 0, and SSRC and session id between 1 and 99999 |
| ServerRtspController.ServerRtspController.Send | server/ServerRtspController.py:158 | one response is written |
| ServerRtspController.ServerRtspController.GetInfo | server/ServerRtspController.py:200-233 | the file is opened again; the description holds the frame count and the floored frame rates, and it is only updated when the sound track opens |
| ServerRtspController.ServerRtspController.Setup | server/ServerRtspController.py:235-248 | a new video sender aimed at the client's port and a new audio sender at that port + 2, both with the session's SSRC, the capture and the sound track; each failure keeps what was done before it |
| ServerRtspController.ServerRtspController.Play | server/ServerRtspController.py:250-265 | with a position both senders are paused and moved to it, and the video sender's capture is set to read from the new frame; without one the cursors and the capture's read position stay; both are resumed; both are started only if the video sender was not |
| ServerRtspController.ServerRtspController.Pause | server/ServerRtspController.py:267-272 | the video sender is paused, then the audio one; a missing video sender raises before the audio one is paused |
| ServerRtspController.ServerRtspController.Teardown | server/ServerRtspController.py:274-290 | each sender is stopped and dropped, the socket closed and the capture released; a second call changes nothing |
| ServerRtspController.ServerRtspController.SetParameter | server/ServerRtspController.py:110-124 | `align` shifts the audio cursor and `level` sets the quality, both answered; `speed` sets both senders' speed without an answer; other keys do nothing |
| ServerRtspController.ServerRtspController.OnDescribe | server/ServerRtspController.py:86-89 | the file is described and the description sent, with the capture and description set to those of the file, unless its sound track cannot be opened, which leaves both as they were |
| ServerRtspController.ServerRtspController.OnSetup | server/ServerRtspController.py:90-94 | the client's port is noted, both senders are set up and the answer goes out when they are |
| ServerRtspController.ServerRtspController.OnPlay | server/ServerRtspController.py:95-101 | the answer always goes out; with a readable position and both senders present both are resumed, started and moved to the position, if one was given |
| ServerRtspController.ServerRtspController.OnPause | server/ServerRtspController.py:102-104 | with both senders present both are paused and the answer goes out; otherwise nothing is answered, but a video sender that is there is already paused |
| ServerRtspController.ServerRtspController.OnTeardown | server/ServerRtspController.py:105-109 | with both senders present everything is released, both are stopped and the answer goes out; otherwise the senders, the socket and the capture stay, nothing is answered, and a video sender that is there is left paused |
| ServerRtspController.ServerRtspController.HandleRequest | server/ServerRtspController.py:77-126 | an empty request or an unknown command changes nothing; an unreadable CSeq or request line raises before any effect; for each command, whether it goes through, what it changes and what it leaves alone in the senders (their cursors, quality, speeds and flags), the capture, the sound track, the description, the port and the socket (`Outcome`); no other field of the controller or of a sender is written; the responses written are those of the command |
| ServerRtspController.ServerRtspController.Dispatch | server/ServerRtspController.py:86-126 | each command runs its branch: whether it goes through, what it changes and what it leaves alone in the senders (their cursors, quality, speeds and flags), the capture, the sound track, the description, the port and the socket (`Outcome`, one two-state predicate per command); no other field is written; the responses written are those the command calls for |
| RtspLink.RequestHead | server/ServerRtspController.py:83-85 | the server reads the method and file name off the client's request line and the CSeq off its second line |
| RtspLink.RequestRoundTrip | client/ClientRtspController.py:84-121 | every client request is read by the server as the same command with the same CSeq, file name and port, when the file name has no space or line break |
| RtspLink.DescribeParsed | client/ClientRtspController.py:85 | a DESCRIBE request is read as DESCRIBE of the file with its CSeq |
| RtspLink.SetupParsed | client/ClientRtspController.py:96-97 | a SETUP request is read with the client's port, leading space included |
| RtspLink.SessionRequestParsed | client/ClientRtspController.py:106-121 | PLAY, PAUSE and TEARDOWN are read as themselves; PLAY carries no position |
| RtspLink.SetupPort | server/ServerRtspController.py:91 | the integer after the last '=' of the Transport line is the port |
| RtspLink.StatusLine | client/ClientRtspController.py:164 | the status word of every response reads as 200 |
| RtspLink.ResponseLines | server/ServerRtspController.py:132-135 | every response has the status line, the CSeq line and the Session line, followed by the lines of what comes after |
| RtspLink.ResponseNumbers | client/ClientRtspController.py:152-164 | the client reads the status 200, the echoed CSeq and the session off every response |
| RtspLink.ResponseAccepted | client/ClientRtspController.py:152-164 | a response is accepted exactly when its CSeq is the last one sent and its session is the bound one or none is bound |
| RtspLink.ReplyAccepted | server/ServerRtspController.py:153-198 | the same holds for the response to SETUP, PLAY, PAUSE, TEARDOWN and SET_PARAMETER |
| RtspLink.DescriptionLines | server/ServerRtspController.py:136-146 | lines 6 and 7 of the DESCRIBE response are `a=length:<length>` and `a=framerate:<frame rate>` |
| RtspLink.DescribeReplyRead | client/ClientRtspController.py:167-169 | the client accepts the DESCRIBE response under the same condition and reads back exactly the length and frame rate the server wrote |
| SearchEngine.LessIrreflexive | server/SearchEngine.py:92 | no name sorts before itself |
| SearchEngine.LessTransitive | server/SearchEngine.py:92 | the order on names is transitive |
| SearchEngine.LessTotal | server/SearchEngine.py:92 | of two different names one sorts first |
| SearchEngine.InsertUnique | server/SearchEngine.py:91-92 | adding a name to an increasing list keeps it increasing with exactly one more element, unless the name was there |
| SearchEngine.SortedSet | server/SearchEngine.py:91-92 | `sorted(set(xs))` is increasing and holds exactly the names of `xs` |
| SearchEngine.IncreasingUnique | server/SearchEngine.py:91-92 | two increasing lists with the same names are equal, so the result depends only on the set of names |
| SearchEngine.ListingMatches | server/SearchEngine.py:83-87 | the listing names kept are exactly those with a valid extension that contain the query |
| SearchEngine.Results | server/SearchEngine.py:84-92 | the result is increasing and holds exactly the matching listing names together with the category names for the lower-cased query, which skip the extension test |
| SearchEngine.Query | server/SearchEngine.py:73-75 | a request is served exactly when its first six characters are `SEARCH`, and its query is what follows the seventh |
| SearchEngine.ContainsEmpty | server/SearchEngine.py:87 | every name contains the empty query |
| SearchEngine.EmptyQueryListsAll | server/SearchEngine.py:85-87 | an empty query lists every valid file of the listing |
| SearchEngine.Served | server/SearchEngine.py:66-76 | one response per `SEARCH` request, in order, up to the first empty read; never more responses than requests |
| SearchEngine.HandleConnection | server/SearchEngine.py:66-76 | the receive loop sends exactly those responses |
| FileExplorer.SearchRequest | client/FileExplorer.py:35 | the request is `SEARCH `, then the query |
| FileExplorer.ParseResponse | client/FileExplorer.py:45-48 | as many lines as the response has line breaks, none holding one, and put back after the first line they give the response |
| FileExplorer.ParseResponseJoin | client/FileExplorer.py:45-48 | the lines after any first line come back exactly when none holds a line break |
| FileExplorer.ParseResponseSingleLine | client/FileExplorer.py:45-48 | a response of one line lists nothing |
| SearchLink.SearchQueryRoundTrip | client/FileExplorer.py:35 | the server extracts exactly the query the client sent |
| SearchLink.SearchResponseRoundTrip | server/SearchEngine.py:93-94 | the client reads back exactly the server's sorted names, or `['']` when there are none |
| MediaLink.VideoFrameDelivered | client/VideoClientRtp.py:36-52 | a frame sent whole and in order above the receiver's mark is read as one frame; all of it is kept, its bytes are the frame, and the mark ends at its last number |
| MediaLink.JoinedEntries | client/AudioClientRtp.py:79 | joining the filed payloads gives the payloads in order |
| MediaLink.OneMarker | server/AudioServerRtp.py:95-98 | in any arrival order of a chunk's datagrams with the marked one last, no earlier datagram is marked |
| MediaLink.MarkerEndsFrame | client/AudioClientRtp.py:73-80 | a read whose only marker is its last datagram ends there and leaves what follows |
| MediaLink.ChunkBytes | client/AudioClientRtp.py:71-80 | the bytes joined from a chunk's datagrams, in any arrival order, are the chunk |
| MediaLink.ChunkReassembled | client/AudioClientRtp.py:71-88 | a chunk's datagrams in any order with the marked one last are filed as the chunk under its index |
| MediaLink.AudioChunkDelivered | client/AudioClientRtp.py:59-88 | a chunk sent whole, arriving in any order with the marked datagram last, is read as one chunk, filed as exactly that chunk under its index, and the next chunk's datagrams are left |
| Text.Split | client/FileExplorer.py:47 | `split` gives at least one piece and no piece holds the separator |
| Text.SplitCount | client/FileExplorer.py:47 | `split` gives one more piece than there are separators |
| Text.SplitJoin | client/FileExplorer.py:47 | joining the pieces of a split gives the text back |
| Text.JoinSplit | server/SearchEngine.py:93 | splitting the join of separator-free pieces gives the pieces back |
| Text.LastPiece | server/SearchEngine.py:85 | `split(sep)[-1]` holds no separator |
| Text.LastPieceAfter | server/ServerRtspController.py:91 | the last piece is the separator-free text after the last separator |
| Text.ParseIntRoundTrip | client/ClientRtspController.py:153 | `int(str(i)) == i` |
| Text.ParseIntLeadingSpace | server/ServerRtspController.py:91 | `int` ignores a leading space |
| Text.Lower | server/SearchEngine.py:89 | `lower` keeps the length |
| Text.ContainsSlice | server/SearchEngine.py:87 | `find` succeeds exactly when some slice of the name equals the query |

## Left out

- Sockets. TCP and UDP send and receive, `connectToServer` and the accept-and-fork loop of the search server are not modelled. Incoming data is a parameter and outgoing data is a recorded sequence. A `recv` that truncates a message longer than its buffer is not modelled.
- Threads, semaphores, events and locks. This covers the encode/send and receive/display hand-overs, the `BufferQueue` lock and the interval waits. Each operation is modelled by its sequential effect. The race in which the encode thread moves `currentFrame` while `sendData` stamps it is not modelled; a step stamps the count after the encode.
- Floating point:
  - pacing intervals are not modelled;
  - the chunk sizing in `setAudio` is not modelled, and the chunk count is passed in as an integer;
  - for a video of n frames the model takes that count to be n, although `int((length / fs) / (1 / fs))` can round to n - 1.
  - the seconds-to-chunks division of `align` is an opaque parameter `alignChunks`;
  - `float(value)` for `align` is folded into that parameter.
- PerMille: computes `int(total * pos / 1000)` exactly on integers. Float rounding for products beyond 2^53 is not modelled.
- OpenCV, moviepy, PIL and sounddevice are not modelled. Resizing and JPEG encoding are an opaque `Encoder`, and sub-clip reading is an opaque `ChunkSource`. Decoding and showing a video frame, and the sound device, are not modelled. A chunk written to the device is appended to `output`.
- The RTP packet class is not part of this model. Datagrams are decoded records, not the RFC 3550 section 5.1 bit layout.
- Sequence numbers are unbounded `nat`s. The RTP wire field is 16 bits (section 5.1 of RFC 3550), so after 65535 datagrams the numbers wrap, and the video receiver's filter (client/VideoClientRtp.py:46) would then stop keeping payloads. That wrap is not modelled.
- ClientRtspController.ClientRtspController.OpenRtpPort: `bindOk` false stands for an OSError from the socket itself. A port in use never surfaces, because `initSocket` moves on by 2 from 44444 until a bind succeeds (client/ClientRtp.py:32-38); the port the receiver ends up on is not modelled.
- `recvRtspReply` is only modelled in part. Its loop and its closing of the socket after TEARDOWN are not modelled; `ParseRtspReply` models what it does with each reply. The receiver's `setDisplay`, `setInterval` and `stop` are reduced to the `Receiver` value.
- `ServerRtspController.start` and `recvRtspRequest` (the receive loop and its final teardown) are not modelled; `HandleRequest` models one request. The random SSRC and session id are constructor arguments.
- Python exceptions are modelled as `ok == false` after the effects of the statements before them. This covers IndexError, ValueError, ZeroDivisionError and AttributeError on a missing sender. The effect of the exception on the calling thread is not modelled.
- Buffer.BufferQueue.Put: requires a key of at least -1. Below that, the backward search in Python walks past the head sentinel and raises; the model does not represent that failure.
- Buffer.BufferQueue.SearchFromBack: requires a key of at least -1, for the same reason as `Put`. For a lower key the Python scan passes the head sentinel and raises, and the model does not represent that.
- AudioClientRtp.AudioClientRtp.constructor: requires every waiting datagram to have a timestamp of at least -1, for the same reason (the chunk is filed under that timestamp).
- `RunOutput` and `RunSent` describe a run as one step after another. The Python encoder and sender are two threads joined by a one-slot buffer, so their interleaving, and a pause arriving between steps, are not part of them.
- VideoServerRtp.VideoServerRtp.Run: requires the run flag to be set. With it cleared the Python thread blocks in `_pause.wait()` until another thread resumes it, which a sequential model cannot express.
- AudioServerRtp.AudioServerRtp.Run: requires the run flag to be set, for the same reason as the video sender's `Run`.
- VideoServerRtp.VideoServerRtp.SetCapture: gives the sender its own copy of the frames, read from position 0. In Python the controller and the sender hold one OpenCV capture object (server/ServerRtspController.py:242, server/VideoServerRtp.py:119). The model does not capture that sharing, which `ServerRtspController.ServerRtspController.GetInfo` and `ServerRtspController.ServerRtspController.Setup` would both need:
  - a second DESCRIBE releases the capture under a running sender (server/ServerRtspController.py:214-216), whose next read then fails and ends its stream;
  - a second SETUP hands the new sender the object at the old sender's read position, and from then on both senders read from it.
  The client sends DESCRIBE only in INIT and SETUP only in PREPARE, so it never produces either sequence.
- AudioClientRtp.AudioClientRtp.ReceiveChunk: models one turn of the outer loop of `recvRtp`. An `IOError` that retries a read and an `AttributeError` that ends the chunk are not modelled.
- VideoClientRtp.VideoClientRtp.ReceiveFrame: models one turn of the outer loop of `recvRtp`. That loop tests `self._stop`, which the base class never defines, so its lifecycle is not modelled.
- `beforeRun`, `afterRun`, `running`, `setFrameRate`, `setInterval` and `setWarningBox` are not modelled. They only start threads, open devices or set float intervals.
- Python's `int()` is modelled for ASCII whitespace, an optional sign and ASCII digits. Underscores and non-ASCII digits are not modelled. `lower()` is modelled for ASCII letters only.
- The directory listing and the category table of the search server are parameters. `os.listdir` and reading `category.json` are not modelled.
- `FileExplorer.search` is not modelled beyond the request text and the parsing of the reply; the socket and the update callback are not modelled. `close` is not modelled.
- The client's PLAY never sends a position line. The server's position branch is modelled on the server side only (`PlayPosition`, `ServerRtspController.ServerRtspController.Play`).
- The DESCRIBE description always holds both the video and the audio part, because `getInfo` always builds both keys. The `'video' in info.keys()` tests are therefore always true and are not modelled as branches.

## Findings

| source | as written | input that shows it | evidently intended | confidence | as-written member | corrected member |
|---|---|---|---|---|---|---|
| client/ClientRtspController.py:189 | `VideoClientRtp('', self.videoRtpPort)` hands the port through `ClientRtp.__init__(self, addr, *args)` to `threading.Thread.__init__`, where it becomes `group`; the thread's `assert group is None` raises an AssertionError, which `except OSError` does not catch | any accepted SETUP reply, for example with `videoRtpPort` 44444: the state becomes READY, then `openRtpPort` raises, so no receiver exists and PLAY cannot start one either | the receiver is built and bound, and only a socket error is reported as a warning | not executed | ClientRtspController.ClientRtspController.OpenRtpPortAsWritten | ClientRtspController.ClientRtspController.OpenRtpPort |
