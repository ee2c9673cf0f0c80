# iGhostVT, verified

A model in Dafny of what iGhostVT does between a terminal's bytes and a
device's screen, and proofs of what it promises:

- **The terminal replay** that `capture` is made of: the byte-at-a-time escape
  and UTF-8 parser, the grid, the scroll region, the alternate screen, deferred
  wrap, wide glyphs, the capped scrollback and the prompt marks
  (`Terminal`, `ScreenRenderer`, `TerminalRuns`, `BulkEdits`, `WideGlyphs`,
  `Utf8Input`, `Transcripts`). `ScreenRenderer.dfy` is the object with its
  fields updated in place; `Terminal.dfy` is the terminal it stands for, with
  the whole history rather than the capped scrollback.
- **The wire**: the message codec (`Wire`, `Codec`), the frames over a
  connection with pauses and compression (`FrameConnection`, `FrameStreams`),
  and the window that paces output to what a device says it received
  (`LinkWindow`).
- **The host**: which connections are admitted (`Admission`), the pairing window
  and the device table (`Pairing`), which connection holds a terminal across
  reconnects (`Ownership`), the registration at a relay (`RelayLink`), its calls
  back (`RelayCalls`) and the splice that carries them (`RelaySplice`).
- **The rest that has a proof**: the host file several processes keep
  (`PairedHosts`), the resumable upload (`Drop`, `DropUpload`), and the
  pairing scalars (`Scalars`).

Each object is a class whose methods are proved to do one step of a small state
machine; what is promised is then proved of every run of that machine. Sockets,
XPC, timers and other processes are steps that may happen in any order allowed
by what the system guarantees. `dafny verify dfyconfig.toml` checks everything.

## What turned out otherwise

- A transcript mark on a *leading* blank row has no place although its row is
  still in the buffer; the comment at `Shared/Screen/ScreenRenderer.swift:655`
  says only rows that left it have none. `Transcripts.PlaceOfMark` has the
  exact condition.
- A bulk SU of more lines than the region has records only the region's lines;
  single scrolls would go on recording blanks. `BulkEdits.BulkIsSteps`;
  `BulkEdits.TwoScrollsOfOneLine` is such an input.
- A wide glyph is parted from its spacer by K and J with mode 0 or 1, by `@`,
  `P` and `X`, exactly when they cut it. `WideGlyphs.StepPairs`, over runs
  `WideGlyphs.RunPairs`; `WideGlyphs.EraseCutsAGlyph` is such a run.
- A read of the host file cut short keeps the file's stamp with no hosts, so the
  next change is written over hosts it never saw. `PairedHosts.CutShortLosesAHost`.
- A host file that cannot be opened under the lock is taken for one without
  hosts, and the change is written over it all the same; only in a change is
  that harmful. `PairedHosts.NotOpenedLosesAHost`. Over whole runs,
  `PairedHosts.HoldsUnlessBroken` has the exact condition for this, the one
  before and the next.
- Nothing that writes the host file looks at the size a read refuses, so hosts
  past 1 MiB are written and then never seen again; the next change replaces
  them. `PairedHosts.TooLargeLosesEveryHost`; `PairedHosts.WrittenIsReadBack`
  has the exact condition.
- Connections that have not authenticated can exceed the limit of 4 on a path,
  exactly when a pairing ends there while it is full. `Admission.LimitHoldsUnless`;
  `Admission.SpentConnectionsExceedTheLimit` is such a run.
- A session can be held twice, exactly when the daemon's reply to an open comes
  after another connection of the device was granted the session.
  `Ownership.OwnershipHolds`; `Ownership.LateOpenIsHeldTwice` is such a run.
- A link whose stream ends while it is paused drops the whole frames it still
  held. `FrameStreams.CuttingToTheEnd`; `FrameStreams.PausedLinkDropsAFrame` is
  such a run.
- A relay try given up before the connection is ready fails twice and doubles
  the wait twice, since closing it answers the `ready` still awaited.
  `RelayLink.WaitDoubles`.
- `finishPairing` does not look at the window's expiry, so an exchange begun in
  time may finish late; the model follows it.

## Model

| member | source | states |
|---|---|---|
| Terminal.Feed | Shared/Screen/ScreenRenderer.swift:75-93 | From any well-formed terminal and any bytes the terminal stays well-formed: grid exactly rows by columns, cursor inside, region ordered and inside, saved screen of the same shape, CSI buffer at most 64 and OSC buffer at most 8 bytes, pending UTF-8 only in the ground state and shorter than its lead byte announced, scrollback within its cap, marks below history plus rows |
| Terminal.Init | Shared/Screen/ScreenRenderer.swift:75-81 | A terminal of any size, zero included, starts well-formed |
| Terminal.ParametersAreNotNegative | Shared/Screen/ScreenRenderer.swift:268-284 | Once signs are dropped with the intermediates no CSI parameter is negative, and none is over 65535 |
| Terminal.DigitsAreRead | Shared/Screen/ScreenRenderer.swift:274-276 | What digits come to, with or without more parameters after them: their number up to 65535, and 0 past the largest the machine holds |
| Renderer.ScreenRenderer.constructor | Shared/Screen/ScreenRenderer.swift:75-81 | The object starts as the terminal of that size, at least one row and column |
| Renderer.ScreenRenderer.Feed | Shared/Screen/ScreenRenderer.swift:85-89 | The object fed bytes one at a time is the terminal fed them; no index or range leaves its bounds; the capped scrollback is always the history's suffix from `scrolledOffRows` on |
| Renderer.ScreenRenderer.Consume | Shared/Screen/ScreenRenderer.swift:95-148 | One byte in any parser state is one step of the terminal |
| Renderer.ScreenRenderer.GroundByte | Shared/Screen/ScreenRenderer.swift:150-203 | A byte in the ground state: continues or drops a pending sequence, acts, or starts one |
| Renderer.ScreenRenderer.EmitPendingScalar | Shared/Screen/ScreenRenderer.swift:205-220 | A gathered sequence is placed, attached as a mark, or shown not at all, by what it decodes to |
| Renderer.ScreenRenderer.EscapeByte | Shared/Screen/ScreenRenderer.swift:222-253 | The byte after ESC |
| Renderer.ScreenRenderer.ApplyControlSequence | Shared/Screen/ScreenRenderer.swift:257-294 | A whole control sequence: ignored, private, or public |
| Renderer.ScreenRenderer.ApplyPublic | Shared/Screen/ScreenRenderer.swift:295-366 | Each public final byte |
| Renderer.ScreenRenderer.SetPrivateMode | Shared/Screen/ScreenRenderer.swift:368-379 | Every mode in the list, in order |
| Renderer.ScreenRenderer.ApplyOperatingSystemCommand | Shared/Screen/ScreenRenderer.swift:387-397 | Prompt marks are kept by absolute row, off the alternate screen only |
| Renderer.ScreenRenderer.SetAlternateScreen | Shared/Screen/ScreenRenderer.swift:402-420 | Entering saves screen and cursor once; leaving puts them back |
| Renderer.ScreenRenderer.Reset | Shared/Screen/ScreenRenderer.swift:422-432 | RIS: everything but the history, the marks and the trimmed count |
| Renderer.ScreenRenderer.Place | Shared/Screen/ScreenRenderer.swift:452-482 | Deferred wrap, the wide glyph that does not fit, both halves of what is written over |
| Renderer.ScreenRenderer.AttachCombining | Shared/Screen/ScreenRenderer.swift:486-502 | A mark joins the character to its left, past spacers, or is dropped |
| Renderer.ScreenRenderer.Index | Shared/Screen/ScreenRenderer.swift:504-511 | Down one line, scrolling at the bottom of the region |
| Renderer.ScreenRenderer.ScrollUp | Shared/Screen/ScreenRenderer.swift:530-545 | Removing and inserting row ranges in place is shifting the region; top lines of the primary screen become history, trimmed to the cap |
| Renderer.ScreenRenderer.ScrollDown | Shared/Screen/ScreenRenderer.swift:547-551 | Likewise downwards, with no history |
| Renderer.ScreenRenderer.EraseInDisplay | Shared/Screen/ScreenRenderer.swift:553-577 | Modes 0 to 3; mode 3 lets the whole scrollback go and counts it |
| Renderer.ScreenRenderer.EraseInLine | Shared/Screen/ScreenRenderer.swift:579-595 | Modes 0 to 2 |
| Renderer.ScreenRenderer.InsertLines | Shared/Screen/ScreenRenderer.swift:597-604 | Inside the region only, bounded by it |
| Renderer.ScreenRenderer.DeleteLines | Shared/Screen/ScreenRenderer.swift:606-613 | Likewise |
| Renderer.ScreenRenderer.InsertCharacters | Shared/Screen/ScreenRenderer.swift:615-620 | Cells move right once, whatever the count |
| Renderer.ScreenRenderer.DeleteCharacters | Shared/Screen/ScreenRenderer.swift:622-627 | Cells move left once, whatever the count |
| Renderer.ScreenRenderer.EraseCharacters | Shared/Screen/ScreenRenderer.swift:629-636 | Cells from the cursor on, bounded by the line |
| Renderer.ScreenRenderer.Transcript | Shared/Screen/ScreenRenderer.swift:668-702 | The loops that trim rows and drop blank ones give the buffer's lines and the marks' places among them |
| Transcripts.LinesAreTheTextBetween | Shared/Screen/ScreenRenderer.swift:685-702 | The lines are the rows' trimmed texts, in order, between the blank rows at the two ends, and begin and end with text |
| Transcripts.PlaceOfMark | Shared/Screen/ScreenRenderer.swift:670-674 | Exactly when a mark has no place, is past the last line, or names its own row's text |
| Transcripts.MarkIsItsRow | Shared/Screen/ScreenRenderer.swift:668-680 | For any well-formed terminal: a mark it holds is of a row it has had, and the transcript gives that row's own text for it, the line count on trailing blanks, no place exactly when the row is gone or is a leading blank |
| Transcripts.MarkOnALeadingBlankRow | Shared/Screen/ScreenRenderer.swift:655-673 | The run that shows it: a prompt marked on a row that stays blank and text on the next; the row is in the buffer and its mark has no place |
| Transcripts.TextOfMark | Shared/Screen/ScreenRenderer.swift:669-674 | Counting rows from the first line ever held, trimming does not change which row a mark means |
| TerminalRuns.RunExtends | Shared/Screen/ScreenRenderer.swift:530-545 | Over any run the history only grows at its end, and without ED 3 the lines let go are exactly those over the cap |
| TerminalRuns.StepKeepsPrimary | Shared/Screen/ScreenRenderer.swift:399-420 | No byte but one that leaves the screen, resets, or clears the scrollback touches what lies under the alternate screen |
| TerminalRuns.RunKeepsPrimary | Shared/Screen/ScreenRenderer.swift:399-420 | Nor does any run of such bytes |
| TerminalRuns.AlternateScreenLeavesNoTrace | Shared/Screen/ScreenRenderer.swift:399-420 | Enter, any such run, leave: screen, history, trimmed count and marks as at entry, and the cursor when entry saved it |
| TerminalRuns.AlternateScreenBytesLeaveNoTrace | Shared/Screen/ScreenRenderer.swift:368-420 | The same over the actual bytes of mode 1049, parser included |
| TerminalRuns.FeedInTwo | Shared/Screen/ScreenRenderer.swift:85-93 | A replay may be cut anywhere |
| BulkEdits.BulkIsSteps | Shared/Screen/ScreenRenderer.swift:522-551 | SU, SD, IL, DL, ICH and DCH with any count n are n single edits: always the same screen and cursor; the same terminal altogether if and only if not (SU recording history with n over the region's height) |
| BulkEdits.LogOfSteps | Shared/Screen/ScreenRenderer.swift:530-542 | What n single scrolls send to the history: the region's lines in order, and blank lines from there on |
| BulkEdits.TwoScrollsOfOneLine | Shared/Screen/ScreenRenderer.swift:530-545 | An input where they differ: SU 2 on a screen of one line records one line, two single scrolls record two |
| BulkEdits.OneMore | Shared/Screen/ScreenRenderer.swift:530-627 | One more single edit after n at once is n + 1 at once |
| WideGlyphs.StepPairs | Shared/Screen/ScreenRenderer.swift:452-636 | One byte keeps every wide glyph paired with its spacer if and only if it is not a character-level edit cutting a glyph in half; for those edits the exact cells that decide it |
| WideGlyphs.RunPairs | Shared/Screen/ScreenRenderer.swift:452-636 | A run is paired in every one of its states if and only if each of its bytes keeps the pairs where it is executed |
| WideGlyphs.FreshTerminalStaysPaired | Shared/Screen/ScreenRenderer.swift:25-28 | So for any run from a fresh terminal, which ends paired when none of its bytes cuts a glyph |
| WideGlyphs.EraseCutsAGlyph | Shared/Screen/ScreenRenderer.swift:629-636 | Bytes that cut one: U+4E00 fills a row of two columns, and ECH erases its right half |
| WideGlyphs.WrittenPaired | Shared/Screen/ScreenRenderer.swift:463-476 | Printing at any column, over half of any glyph, keeps the pairs |
| WideGlyphs.AttachPaired | Shared/Screen/ScreenRenderer.swift:486-502 | Attaching a mark keeps the pairs |
| WideGlyphs.ErasedPaired | Shared/Screen/ScreenRenderer.swift:579-594 | Erasing cells keeps the pairs if and only if no glyph is cut at either end |
| WideGlyphs.ShiftRightPaired | Shared/Screen/ScreenRenderer.swift:615-620 | ICH keeps the pairs if and only if it does not insert before a spacer |
| WideGlyphs.ShiftLeftPaired | Shared/Screen/ScreenRenderer.swift:622-627 | DCH keeps the pairs if and only if it cuts whole glyphs and moves none out of the last column |
| WideGlyphs.NoSpacerIsPrinted | Shared/Screen/ScreenRenderer.swift:25-28 | No decoded sequence is the spacer |
| Utf8Input.DecodedIsEncoding | Shared/Screen/ScreenRenderer.swift:205-213 | A whole sequence stands for a scalar if and only if it is that scalar's encoding (sections 3 and 4 of RFC 3629): so for nothing that the RFC rules out |
| Utf8Input.DecoderIsReference | Shared/Screen/ScreenRenderer.swift:150-220 | For any text bytes from any state of the decoder, what is shown is what a decoder over the whole sequence shows |
| Utf8Input.TextRoundTrip | Shared/Screen/ScreenRenderer.swift:150-220 | The encoding of any printable text places or attaches exactly its scalars, in order |
| Utf8Input.MalformedShowsNothing | Shared/Screen/ScreenRenderer.swift:209-213 | A whole sequence that encodes no scalar shows nothing |
| Utf8Input.NoContinuationStartsAnew | Shared/Screen/ScreenRenderer.swift:151-163 | Any byte that is no continuation, controls and ESC included, does exactly what it does with nothing pending |
| Utf8Input.BrokenSequenceLeavesNoTrace | Shared/Screen/ScreenRenderer.swift:150-203 | A sequence broken off by such a byte is as if never sent, whatever follows |
| Wire.HeaderRoundTrip | Shared/Wire/IOWire.swift:61-80 | A header reads back as written whatever its reserved bytes hold and whatever follows, or not at all when it announces too much |
| Wire.AppendHeader | Shared/Wire/IOWire.swift:61-67 | The bytes appended are the header's, the buffer before them kept |
| Codec.EncodeInto | Shared/Wire/IOWire.swift:127-177 | The recursive encoder appends exactly the encoding, or fails exactly when there is none |
| Codec.EncodesWhatIsCarried | Shared/Wire/IOWire.swift:119-177 | It encodes if and only if every value is of a type carried and nesting is at most 8 levels deep |
| Codec.DecodeMessage | Shared/Wire/IOWire.swift:181-187 | The cursor's loops compute the decoding of the whole of the bytes |
| Codec.Cursor.DecodeNext | Shared/Wire/IOWire.swift:232-279 | One value taken off the cursor, in bounds whatever the bytes |
| Codec.RoundTrip | Shared/Wire/IOWire.swift:123-279 | Decoding an encoding wherever it stands gives the value back and ends exactly at its end |
| Codec.MessageRoundTrip | Shared/Wire/IOWire.swift:181-187 | A message decodes to its value, and with anything after it to nothing |
| Codec.OrderDoesNotMatter | Shared/Wire/IOWire.swift:164-172 | Every order of enumerating a dictionary encodes the same value |
| Codec.DecodeValue | Shared/Wire/IOWire.swift:232-279 | Decoding from anywhere in any bytes ends inside them and builds at most half as many objects as bytes it consumed |
| Codec.ObjectsAreBounded | Shared/Wire/IOWire.swift:232-279 | Decoding any bytes builds at most half as many objects as there are bytes |
| FrameConnection.FrontOf | Shared/Remote/RemoteFrameConnection.swift:145-187 | The front of the buffer: a partial front is less than a whole frame, a whole one fits what is there |
| FrameConnection.Decompress | Shared/Remote/RemoteFrameConnection.swift:388-410 | What unpacks is not empty, of exactly the length the body announces, and within the limit |
| FrameConnection.RemoteFrameConnection.DrainBuffer | Shared/Remote/RemoteFrameConnection.swift:138-194 | The offset loop hands out what draining frame by frame does, stops at a pause or a close, and drops what it consumed |
| FrameConnection.RemoteFrameConnection.Received | Shared/Remote/RemoteFrameConnection.swift:104-123 | What a read brought is handed over; the next is asked for if the link is open and not paused; the last one closes it, paused or not |
| FrameConnection.RemoteFrameConnection.SetReceivingPaused | Shared/Remote/RemoteFrameConnection.swift:125-134 | Paused, nothing more is handed out; going on, first the frames buffered are, then more is read |
| FrameConnection.RemoteFrameConnection.BecomeReady | Shared/Remote/RemoteFrameConnection.swift:86-92 | Ready once |
| FrameConnection.RemoteFrameConnection.OnFrame | Shared/Remote/RemoteFrameConnection.swift:182-191 | A frame is counted even when, draining, nobody is handed it |
| FrameConnection.RemoteFrameConnection.MakeFrame | Shared/Remote/RemoteFrameConnection.swift:204-226 | Compressed when that pays and no miss is being paid for, plain otherwise |
| FrameConnection.RemoteFrameConnection.SendObject | Shared/Remote/RemoteFrameConnection.swift:198-242 | Nothing on a link that is going or for an object that cannot be sent; otherwise the frame, counted plain as sent and as it is as pending |
| FrameConnection.RemoteFrameConnection.AcknowledgeReceived | Shared/Remote/RemoteFrameConnection.swift:248-256 | A receipt once another 256 KiB has arrived, of everything received so far |
| FrameConnection.RemoteFrameConnection.CloseWhenFlushed | Shared/Remote/RemoteFrameConnection.swift:262-274 | Closes at once when nothing is pending, else drains |
| FrameConnection.RemoteFrameConnection.Processed | Shared/Remote/RemoteFrameConnection.swift:231-240 | Pending falls by the frame's size; a draining link with none left closes |
| FrameStreams.CuttingDoesNotMatter | Shared/Remote/RemoteFrameConnection.swift:104-194 | However the stream is cut into reads and paused: handed out, then the parse of what is buffered, is the parse of every byte taken; an unpaused open link has handed out every frame and holds less than one |
| FrameStreams.CuttingToTheEnd | Shared/Remote/RemoteFrameConnection.swift:104-123 | To the last read, which closes the link: what was handed out is a front part of what the bytes hold, and all of it if and only if the link was not paused there or the pause held back no frame |
| FrameStreams.PausedLinkDropsAFrame | Shared/Remote/RemoteFrameConnection.swift:104-123 | The run that shows it: paused before anything came, then one whole frame and the end of the stream; it stays in the buffer |
| FrameStreams.ParseInTwo | Shared/Remote/RemoteFrameConnection.swift:138-194 | Parsing what came, then what came after, is parsing it together |
| FrameStreams.RunKeepsParse | Shared/Remote/RemoteFrameConnection.swift:104-194 | The invariant behind it, from any state |
| FrameStreams.PlainIsReceived | Shared/Remote/RemoteFrameConnection.swift:198-242 | A plain frame is read back as the message it carries |
| FrameStreams.CompressedIsReceived | Shared/Remote/RemoteFrameConnection.swift:347-410 | A compressed frame is read as its message too, and adds as much to the count as a plain one would |
| FrameStreams.ReceiverSeesWhatWasSent | Shared/Remote/RemoteFrameConnection.swift:138-242 | A whole stream hands out exactly the messages sent, in order, whichever were compressed, and the receiver's count ends at the sender's |
| FrameStreams.LinkDeliversToTheEnd | Shared/Remote/RemoteFrameConnection.swift:104-242 | The same to the end of the stream: the first messages always, and every one if and only if no pause held a frame back at the last read |
| FrameStreams.LinkDelivers | Shared/Remote/RemoteFrameConnection.swift:104-242 | End to end: while any front part of the stream has come in, cut and paused anyhow, the link is open and exactly the first messages were handed out; once all has, every one |
| LinkWindow.RemoteClient.UpdateDaemonPause | iGhostVTRemote/RemoteClient.swift:464-483 | Suspends above the band, resumes below it, does nothing once closed or without a daemon |
| LinkWindow.RemoteClient.TrickleFired | iGhostVTRemote/RemoteClient.swift:485-497 | The timer lets the daemon go only for the suspension it was set for, on an open link, under the ceiling |
| LinkWindow.RemoteClient.Closed | iGhostVTRemote/RemoteClient.swift:148-167 | Resumes a suspended daemon; keeps it only to linger |
| LinkWindow.NoDeadlock | iGhostVTRemote/RemoteClient.swift:148-167 | In every state of every run over the whole path, toward a device that announced its receipts, sends them unannounced, or sends none: a closed link is not suspended; a suspended one has 384 KiB pending or 768 KiB unreceipted, over 512 KiB of it still coming down when no receipt is on its way; nothing in transit, not suspended; suspend and resume alternate |
| LinkWindow.RunsStayGood | iGhostVTRemote/RemoteClient.swift:455-497 | Sent is received plus in transit, pending is what the network has not taken, receipts are in order and never ahead, over every run |
| LinkWindow.DrainingResumes | iGhostVTRemote/RemoteClient.swift:464-483 | However it stands, a network that takes, delivers and brings back everything leaves the daemon going, without a timer |
| LinkWindow.WindowHolds | iGhostVTRemote/RemoteClient.swift:458-482 | Going and not by the timer: at most 512 KiB pending and, once the device was heard from, at most 1 MiB undelivered; one whose hello announced receipts counts as heard from the start |
| LinkWindow.ClosedIsQuiet | iGhostVTRemote/RemoteClient.swift:464-469 | After the link ends no suspend or resume is ever made |
| PairedHosts.HoldsUnlessBroken | Shared/Remote/PairedHostFile.swift:223-298 | Along any run of any processes, with any luck in reads and writes: every cache stamped as the file holds the file's hosts and every write starts from them, if and only if no step is one of those that break it: a write that starts from less than is there or is not read back, and a cut-short read taken for the file |
| PairedHosts.StepBreaks | Shared/Remote/PairedHostFile.swift:223-298 | The same of one step, for each kind of step |
| PairedHosts.NoUpdateIsLost | Shared/Remote/PairedHostFile.swift:223-248 | While no step breaks, the file holds every change written, each made to what the one before left |
| PairedHosts.OwnWritesAreNotAnnounced | Shared/Remote/PairedHostFile.swift:285-298 | In every run, whatever the reads give, no process is told of a file it wrote itself |
| PairedHosts.ChangeIsKept | Shared/Remote/PairedHostFile.swift:146-148 | A change folded in is kept whole: the hosts it made, none lost and none added by sorting, but for addresses that are not IPv4 |
| PairedHosts.WrittenIsReadBack | Shared/Remote/PairedHostFile.swift:97-181 | Hosts written are read back as filed if and only if they fit the size a read accepts or there are none |
| PairedHosts.ReadIsWhole | Shared/Remote/PairedHostFile.swift:91-121 | A read gives the hosts in the file if and only if it is complete and the file not too large, or there is nothing to miss |
| PairedHosts.StartsFromTheFile | Shared/Remote/PairedHostFile.swift:227-235 | A change starts from what the file holds if and only if the cache came from it, or the read was complete of a file that can be read, or there was nothing to miss |
| PairedHosts.ReadIsTruthful | Shared/Remote/PairedHostFile.swift:91-121 | A read leaves a cache that can be trusted if and only if it was not cut short on a file with hosts that is small enough to read; one that could not be opened does |
| PairedHosts.WriteIsTruthful | Shared/Remote/PairedHostFile.swift:237-244 | A process's own write leaves one if and only if what it wrote fits and was read back whole, or was nothing |
| PairedHosts.TooLargeLosesEveryHost | Shared/Remote/PairedHostFile.swift:97-103 | The run that shows it: hosts too many for the size are written, read back as none, and the next change leaves only its own |
| PairedHosts.CutShortLosesAHost | Shared/Remote/PairedHostFile.swift:100-110 | The run that shows it: a first load cut short, then a change, and the host is lost |
| PairedHosts.NotOpenedLosesAHost | Shared/Remote/PairedHostFile.swift:91-93 | The run that shows it: a file that cannot be opened at the first load, which is harmless, nor again for the change, which then leaves only its own host |
| PairedHosts.FreshProcessesAreGood | Shared/Remote/PairedHostFile.swift:197-210 | Any file and processes that have loaded nothing make a good start |
| PairedHosts.PairedHostCache.ModifyLocked | Shared/Remote/PairedHostFile.swift:224-248 | Reads again unless the stamp is the cache's, changes, writes, reads back |
| PairedHosts.PairedHostCache.LoadedLocked | Shared/Remote/PairedHostFile.swift:250-259 | Loads once |
| PairedHosts.PairedHostCache.DirectoryChangedReads | Shared/Remote/PairedHostFile.swift:285-298 | Announces only hosts that differ from those held |
| PairedHosts.Directory.Write | Shared/Remote/PairedHostFile.swift:146-181 | A new stamp with every write, the old file on failure |
| PairedHosts.Directory.Pair | iGhostVTCLI/HostCommands.swift:67-75 | The command line's change starts from a read under the lock |
| PairedHosts.PairingKeepsTheOthers | iGhostVTCLI/HostCommands.swift:67-75 | Pairing again leaves every other host in place and one record of this one, its nickname kept |
| Admission.AdmissionHolds | iGhostVTRemote/RemoteService.swift:362-416 | In every run, on each path: at most 4 before their first frame, at most 32 waiting, none waiting while a slot is free, started in the order they arrived |
| Admission.AdmittedIsGood | iGhostVTRemote/RemoteService.swift:405-416 | The index loop leaves nobody waiting who could start and passes over nobody of the same path |
| Admission.LimitHoldsUnless | iGhostVTRemote/RemoteService.swift:393-416 | A run from the start keeps the unauthenticated of a path within 4 all along if and only if no step of it ends a pairing on that path while the path is full |
| Admission.StepOverfills | iGhostVTRemote/RemoteClient.swift:254-254 | From within the limit, a step goes over it if and only if it is such a pairing ending |
| Admission.SpentConnectionsExceedTheLimit | iGhostVTRemote/RemoteClient.swift:247-260 | The run that shows it, from the start: one connection pairs, four more arrive, the pairing ends, and there are five |
| Admission.RemoteService.HandshakeEnded | iGhostVTRemote/RemoteService.swift:405-416 | The loop removing from the array is the fold that starts whoever finds a slot |
| Admission.RemoteService.Accept | iGhostVTRemote/RemoteService.swift:362-391 | Started, queued, or refused |
| Admission.RemoteService.WaitedTooLong | iGhostVTRemote/RemoteService.swift:382-387 | Only the connection that waited is removed |
| Admission.RemoteService.ModeChanged | iGhostVTRemote/RemoteClient.swift:29-35 | Past the handshake, a slot is free |
| Admission.RemoteService.ClientClosed | iGhostVTRemote/RemoteService.swift:435-437 | Gone, a slot may be free |
| Pairing.BudgetHolds | iGhostVTRemote/RemoteService.swift:458-556 | Over every interleaving of windows, starts, finishes, failures, expiry and leaving: at most 3 local and 3 relayed exchanges ever begin in a window; failures and the exchange under way are the attempts spent; ids distinct, at most 32 devices |
| Pairing.OnlyTheActiveStores | iGhostVTRemote/RemoteService.swift:502-522 | A device is stored exactly when the active client of the open window confirms, and that is the window its exchange began in; it is then found as stored and no other is touched |
| Pairing.AddedIsFound | iGhostVTRemote/RemoteStore.swift:69-73 | A stored device is found as stored, others as before, one more only if it is new |
| Pairing.OthersAreDistinct | iGhostVTRemote/RemoteStore.swift:77-83 | Removing keeps ids distinct and takes one away exactly when it was there |
| Pairing.RemoteService.BeginPairing | iGhostVTRemote/RemoteService.swift:458-498 | Each refusal in its order, the attempt spent before the share is looked at |
| Pairing.RemoteService.FinishPairing | iGhostVTRemote/RemoteService.swift:502-522 | Paired if and only if active and confirmed |
| Pairing.RemoteService.RecordPairingFailure | iGhostVTRemote/RemoteService.swift:524-550 | The last local attempt closes the window, the last relayed one closes it to the relay |
| Pairing.RemoteService.ClientClosed | iGhostVTRemote/RemoteService.swift:435-442 | An exchange left is a failed one |
| Pairing.RemoteService.OpenWindow | iGhostVTRemote/RemoteService.swift:599-608 | A new window forgets the old one and closes whoever is pairing |
| Pairing.RemoteStore.Add | iGhostVTRemote/RemoteStore.swift:69-73 | Replaces by id, at the end |
| Ownership.OwnershipHolds | iGhostVTRemote/RemoteService.swift:418-442 | All along a run, for each device and session at most one live or lingering connection holds it, if and only if no reply to an open came after another connection of the device was granted the session |
| Ownership.TablesHold | iGhostVTRemote/RemoteService.swift:426-442 | In every state of every run no connection is in both tables and a lingering one holds something |
| Ownership.EventIsExclusive | iGhostVTRemote/RemoteClient.swift:388-453 | From where holds are exclusive an event leaves them so if and only if it is not such a late reply |
| Ownership.LateOpenIsHeldTwice | iGhostVTRemote/RemoteClient.swift:388-404 | The run that shows it: attached on one connection before the open's reply on another is heard; held by both until the daemon's word that it was taken |
| Ownership.AttachTakesOver | iGhostVTRemote/RemoteClient.swift:388-404 | A granted attach makes the connection the device's one holder and changes no other hold of anyone |
| Ownership.OpenIsExclusive | iGhostVTRemote/RemoteClient.swift:388-394 | A granted open keeps holds exclusive if and only if no other connection of the device is known to hold the session |
| Ownership.ClosingKeepsHolds | iGhostVTRemote/RemoteClient.swift:148-182 | A link that ends takes no session from its device |
| Ownership.RemoteService.NoteAttached | iGhostVTRemote/RemoteClient.swift:395-400 | Held, and whoever held it yields |
| Ownership.RemoteService.Yield | iGhostVTRemote/RemoteClient.swift:216-223 | Lets go of one session; lingering with none left, goes |
| Ownership.RemoteService.Holder | iGhostVTRemote/RemoteService.swift:418-424 | Another connection of the device that holds the session, if there is one |
| Ownership.RemoteService.ClientClosed | iGhostVTRemote/RemoteClient.swift:148-167 | Lingers if and only if it holds something |
| Ownership.RemoteService.DaemonFailed | iGhostVTRemote/RemoteClient.swift:428-438 | Holds nothing; lingering, goes |
| RelayLink.RegistrationHolds | iGhostVTRemote/RelayLink.swift:107-286 | Under every order of stale callbacks, timers and path changes: at most one control connection live, and a link not stopped always has a timer of its generation set |
| RelayLink.FinalForGood | iGhostVTRemote/RelayLink.swift:263-286 | Conflict and version mismatch are left by no step of any run |
| RelayLink.TimersMoveOn | iGhostVTRemote/RelayLink.swift:131-134 | Connecting, failed or registered, a timer that is set moves the link on |
| RelayLink.WaitDoubles | iGhostVTRemote/RelayLink.swift:223-261 | The wait doubles once, or twice when the try was given up before the relay was reached |
| RelayLink.FirstLimitDoublesTwice | iGhostVTRemote/RelayLink.swift:131-134 | A first try given up while opening: the wait of 1 is 4 when the next is set |
| RelayLink.RelayLink.Fail | iGhostVTRemote/RelayLink.swift:223-261 | What failing does, closing's own nested failure included |
| RelayLink.RelayLink.CloseControl | Shared/Remote/RelayControl.swift:196-202 | Closing answers a `ready` still awaited with a failure before it returns |
| RelayLink.RelayLink.Connect | iGhostVTRemote/RelayLink.swift:107-135 | A new generation with a connection and a limit of its own |
| RelayLink.RelayLink.StopTrying | iGhostVTRemote/RelayLink.swift:263-271 | Everything under way is of an earlier generation |
| RelayLink.RelayLink.PathChanged | iGhostVTRemote/RelayLink.swift:275-286 | Registers again unless stopped or told not to |
| RelayLink.RelayLink.Ready | iGhostVTRemote/RelayLink.swift:116-119 | On to the hello, or failed; nothing for an earlier generation |
| RelayLink.RelayLink.Greeted | iGhostVTRemote/RelayLink.swift:121-128 | On to the answer, or failed; nothing for an earlier generation |
| RelayLink.RelayLink.Answered | iGhostVTRemote/RelayLink.swift:157-170 | Registered, or failed; nothing for an earlier generation |
| RelayLink.RelayLink.Stop | iGhostVTRemote/RelayLink.swift:87-95 | No control connection, nothing heeded afterwards |
| RelayCalls.PoolHolds | iGhostVTRemote/RelayLink.swift:292-323 | In every run calls in flight are those started less those finished, at most 4; at most 32 wait, and none while one more could start |
| RelayCalls.CountedOnce | iGhostVTRemote/RelayLink.swift:318-324 | In every state of every run a call started was counted as finished exactly once if it is no longer in flight, and not at all while it is, whatever ended it and how often |
| RelayCalls.CanBeCounted | iGhostVTRemote/RelayLink.swift:318-329 | A call in flight can always be ended, by its 15 s timer if by nothing else, and then counted |
| RelayCalls.CallPool.TimerFired | iGhostVTRemote/RelayLink.swift:325-329 | The timer ends a call that is not over |
| RelayCalls.Once.Run | iGhostVTRemote/RelayLink.swift:481-498 | Runs its body for the first call only and tells that call so |
| RelayCalls.CallPool.StartWaitingCallbacks | iGhostVTRemote/RelayLink.swift:301-307 | The loop takes requests in order while there is room, dropping what cannot be used |
| RelaySplice.SpliceHolds | iGhostVTRemote/RelayLink.swift:375-477 | In every run each side is given a prefix of what the other sent, at most one chunk behind; settled at most once, true exactly when both came up |
| RelaySplice.StepIsGood | iGhostVTRemote/RelayLink.swift:444-476 | What was taken only grows, and after the end nothing changes |
| RelaySplice.RelaySplice.Received | iGhostVTRemote/RelayLink.swift:444-459 | A read goes across before the next is asked for |
| RelaySplice.RelaySplice.Sent | iGhostVTRemote/RelayLink.swift:452-459 | Ends on a failed write or the last chunk, else reads on |
| Drop.DropEncoder.Run | iGhostVTCLI/DropCodec.swift:90-157 | For any reads and outputs: the chunks put are the compressed stream's, or on a failure its front, every one of exactly the chunk size |
| Drop.ChunkedIsTheStream | iGhostVTCLI/DropCodec.swift:137-155 | The chunks are the stream, none empty, all but the last exactly the chunk size |
| DropUpload.QueueHolds | iGhostVTCLI/DropCodec.swift:56-88 | Never over 4 pieces, in order, one side can always move; once stopped the producer's next move is its last |
| DropUpload.PieceQueue.Put | iGhostVTCLI/DropCodec.swift:78-88 | Puts a piece once there is room, in its turn, or nothing more once cancelled |
| DropUpload.PieceQueue.Take | iGhostVTCLI/DropCodec.swift:56-65 | Takes the oldest piece |
| DropUpload.Upload | iGhostVTCLI/DropCommands.swift:228-260 | What goes out is always a front part of the stream from the offset on, all of it and the end when committed; the refusals are exact |
| DropUpload.DropConnection.WriteChunk | iGhostVTCLI/DropConnection.swift:98-105 | Length and bytes, or as much as went through |
| DropUpload.FromIsTheRest | iGhostVTCLI/DropCommands.swift:233-240 | Skipping by position leaves exactly the stream from the offset on, no chunk empty |
| DropUpload.CutStoresAPrefix | iGhostVTCLI/DropConnection.swift:97-105 | Cut anywhere, what went out is a prefix of the chunks' bytes to whoever reads it, and no end |
| DropUpload.EndIsSeen | iGhostVTCLI/DropConnection.swift:107-114 | The empty chunk ends it, with everything stored |
| DropUpload.ResumedUploadIsExact | iGhostVTCLI/DropCommands.swift:195-263 | For every stream, chunk size and any number of uploads broken anywhere: the relay holds a prefix of the stream, and the whole once one goes through |
| Scalars.MinusOne | Shared/Remote/PairingExchange.swift:180-189 | The borrow loop on the array ends and computes the borrow |
| Scalars.LessIsOneLess | Shared/Remote/PairingExchange.swift:179-189 | It is subtraction of 1 modulo 256 to the number of bytes |
| Scalars.LibraryUsesTheScalar | Shared/Remote/PairingExchange.swift:151-155 | For any order and padding, the scalar the library makes of the word is the one handed over |
| Scalars.Derive | Shared/Remote/PairingExchange.swift:160-175 | The first candidate that is a scalar, padded to the word, or none when none is |

## Left out

- Swift's regrouping of characters when cells are joined into a line: a row's text is the concatenation of its cells' scalars.
- Unicode categories and grapheme joining: which scalars are marks and which pairs join are parameters of the terminal.
- Overflow of row and byte counters, which need more output than a 64-bit count holds.
- `screenText`, which is the transcript's lines over the screen alone.
- The bytes of an XPC string that is not UTF-8, and lengths and counts past 32 bits, which trap in the encoder: `Codec.Typed` is what an XPC object is.
- FrameConnection.RemoteFrameConnection.OnFrame: the owner's answer to a frame is a function of the frames it was handed, and never resumes from within it; the counter of bytes received is not advanced for a payload that holds no object, where the link closes anyway; pausing from within is modelled.
- The compressor, as a pair of functions of which only the round trip is assumed; the order hosts are sorted in, JSON, and which strings are IPv4 addresses, likewise.
- Suspending and resuming an XPC connection, as a log of calls; delivery inside XPC is not modelled.
- Clients are values in maps, named by number in place of object identity; `RemoteService` appears in three modules, each with the part of a connection its tables look at.
- Closing a client is a step of its own, so the reply to a last wrong code, which the code drops when nothing is pending, is not modelled.
- The names and keys of hosts other than their ids, the time a device was seen, and renaming.
- The time windows and timeouts themselves: an expiry or a timer is a step that may come whenever it is set.
- Removal of the host file by something else; that two writes of it never have the same stamp is taken for granted.
- Errors of a read on a connection, which end a link as its last read does.
- The SHA-256 and the progress count that come with an upload's pieces, and the choice among earlier partial uploads.
- The relay's own program: `DropUpload.Stored` is what a reader of the framing keeps, the framing being all it sees.
- TLS, SPAKE2+, device proofs and key derivation: which candidates a code gives and whether a confirmation verifies are parameters.
- The listener, its advertisement, the addresses of relayed connections, logs, and the management replies.
- Downloads, `DropDecoder`, argument parsing, tables, and everything with a user interface.
