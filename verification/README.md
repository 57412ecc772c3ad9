# pcs-service: a verified model of its streams, sessions and accounting

pcs-service splits a document into six particles, or merges particles back, over one control
connection and seven data connections per session. This project models the five pieces that
carry that service and proves what they promise, for every input, every chunking of the
streams and every interleaving of the processes.

| layer | files |
|---|---|
| stream wrappers over an adversarial connection | `Readers`, `TrailingFooter`, `DocumentCap` |
| control-channel text: lines, numbers, frames | `Text`, `ControlText`, `FinalFrames` |
| particle kinds, masks, inventory, send plans | `Particles`, `MergePlan` |
| whole sessions as concurrent steps | `Channels`, `Opening`, `MergeSession`, `MergeRuns`, `MergeTheorems`, `SplitSession`, `SplitRuns` |
| the server's handler output and its accounting | `ControlOutput`, `Accounting` |

**How the layers are modelled.** Code that updates fields or loops over a stream is a class or
method, proved against a function of the whole stream. A connection (`Readers.Conn`) decides
itself how many bytes a read returns, which reads come back empty (a bounded number in a row,
any number in all) and whether the end arrives with the last bytes or after them; its error is
reported again on every later read. A buffered reader gives up on 100 empty reads in a row; each
contract says what follows then. A session is a state machine: the client's goroutines, the server's handler and an
encoder or decoder that reads and writes in any order, over FIFO channels of bounded capacity.
A run is a sequence of moves (`Legal`, `After`); `Stuck` means nobody can move although not
both sides have closed everything, and an encoder or decoder that gives up does not count as a
way out. What the codec produces (particles, document, trailer body, error text) is arbitrary, and so
is what the merge client's own files and output do: a file may be refused when opened or fail
after some bytes, the output may accept only so many.
The accept loop, the session goroutines and `Shutdown` form a third machine.

**Main results.**

- A merge session cannot get stuck *exactly when* a data channel holds the token, every file to
  be sent can be read, if any parity is sent a channel holds each core file that is sent, and, if
  the client's output fails with more than a channel of the document still to come, a channel
  holds every file that is sent (`MergeLiveness`); with mask 0 the third condition falls away
  (`FullMergeLiveness`). Every run is bounded (`MergeRuns.RunsEnd`). Files on disk can be opened
  from 64 bytes on, files in memory always: the smallest length is a parameter.
- A split session cannot get stuck *exactly when* a data channel holds the token and the control
  channel holds the whole trailer frame (`SplitLiveness`), and every run is bounded.
- Exactly which byte streams are accepted as handshake, invitation, error and trailer is stated for
  all strings (`HandshakeLanguage`, `InvitationLanguage`, `ErrorLanguage`, `TrailerLanguage`).
- An object can be merged after the loss of any one storage, and of no two (`AnyOneStorage`).
- A client that returns a trailer holds the server's own trailer and all of the output, in every
  run of either session (`NoPartialSuccess`).
- The client sends what the server opens exactly when each pair with a missing core has its
  parity at hand (`PlansAgree`); a plan made from a scanned directory always does
  (`PlanFromDisk`). Then the footer reader on each open port yields payload and footer of the
  file the client has, whatever the bytes (`DecoderSeesFiles`).
- After Shutdown has closed the listener at most one more session starts, and one still can
  exactly when the accept loop has a connection in hand, even if every permit is taken at that
  moment (`AtMostOneLateSession`, `LateSessionIff`).

**Where the code does less than one might expect** (each is proved, with its exact condition):

- a particle file that is shorter than 64 bytes, or fails while it is read, makes the merge
  client's upload fail while its document reader waits, so the session can hang (`MergeLiveness`,
  cause `BadFile`);
- an output that fails stops the document reader while the upload goes on, so a large upload and a
  large document can block each other (`MergeLiveness`, cause `Clogged`);
- a recovery merge sends parities only after all cores, so it needs room for whole core files
  (`MergeLiveness`, cause `Starved`);
- in a split the particle ports are closed only after the trailer is written, because half-closing
  them does nothing (`SplitLiveness`);
- a document of exactly the cap is refused unless the end comes with its last bytes, and a cap of
  2^63-1 makes the first read fail (`DocumentCap.AcceptedBelowCap`);
- a write cut by the output cap is reported only as a short count, and the check after the write
  never fires (`MaxSizeWriter.Write`);
- the trailer's length line is read modulo 2^64 (`WrappedLengthAccepted`);
- a skip list can leave out a core whose parity is absent; the client's plan succeeds and differs
  from the server's (`SkippedCoreWithoutParity`);
- a refused profile is answered with an error frame that the client, still waiting for an
  invitation, cannot read (`RefusalIsNoInvitation`);
- Shutdown called before Serve has stored its listener leaves the listener open
  (`ShutdownBeforeServe`) and Serve accepting after Shutdown returned nil
  (`ServingAfterShutdown`), and a session may be running after Shutdown returned nil
  (`SessionAfterShutdown`).

Where comments and code disagree the code is followed: the error frame is sent after the data
ports are closed (`internal/server/split.go:15`, `internal/server/server.go:162-164`), not before
as the comment at `internal/protocol/error.go:21` says.

## Model

| member | source | states |
|---|---|---|
| Readers.BufReader.ReadByte | internal/protocol/session.go:127-140 | the buffered reader hands out the connection's bytes one by one, in order, whatever the chunking |
| Readers.BufReader.ReadLine | internal/protocol/error.go:44-48 | a line up to and including the first newline, or everything and the stream's end; what follows stays readable |
| Readers.BufReader.ReadFull | internal/protocol/trailer.go:151-158 | exactly the wanted bytes, or an error with the stream used up |
| TrailingFooter.PayloadConn.Read | internal/protocol/session.go:24-31 | reads after the token continue with the bytes the token reader had buffered |
| TrailingFooter.ConsumeToken | internal/protocol/session.go:127-140 | succeeds only on streams that start with the token and leaves exactly the rest; every failure is a wrong or truncated token, or 100 empty reads in a row |
| Readers.TokenFailure | internal/protocol/session.go:127-140 | a token check fails in just two ways: the stream ends inside the token, or a byte differs |
| TrailingFooter.TrailingFooterReader.Read | internal/particleio/trailing_footer.go:26-76 | for any chunking: first everything but the last 64 bytes, a clean end, then exactly those 64 and a clean end; short streams emit nothing and fail |
| TrailingFooter.TrailingFooterReader.ReadPayload | internal/particleio/trailing_footer.go:43-75 | the payload phase: bytes come out in order, ends cleanly only with 64 bytes held back |
| TrailingFooter.TrailingFooterReader.Absorb | internal/particleio/trailing_footer.go:44-67 | a chunk joins the tail; the oldest bytes beyond 64 are emitted, never more than were read |
| TrailingFooter.TrailingFooterReader.NoteTail | internal/particleio/trailing_footer.go:78-82 | the peak is the largest tail so far, which the class invariant keeps at 64 or less |
| TrailingFooter.TrailingFooterReader.PeakTailHold | internal/particleio/trailing_footer.go:84-87 | the most ever held back, which every read keeps up to date, and never more than 64 |
| TrailingFooter.TrailingFooterReader.ParsedFooter | internal/particleio/trailing_footer.go:90-95 | the last 64 bytes of the stream once they have been served, nothing before |
| TrailingFooter.DrainPayload | internal/particleio/trailing_footer.go:26-76 | any sequence of caller buffers collects the whole payload and the right outcome; the peak stays within 64 |
| TrailingFooter.DrainFooter | internal/particleio/trailing_footer.go:27-41 | any sequence of caller buffers then collects exactly the footer |
| TrailingFooter.ReceiveParticle | internal/server/merge.go:45-50 | token, payload and footer read off one port are a function of the bytes on the wire alone, unless the connection stalls 100 times in a row during the token |
| TrailingFooter.WireRoundTrip | internal/client/merge.go:195-219 | the server reads back payload and footer of a file exactly when the wire carried token and that file, and why anything else is refused |
| DocumentCap.StripTokenReader.ConsumeToken | internal/protocol/session.go:183-195 | the token is taken off, a mismatch is an error, a truncated token looks like the stream's end |
| DocumentCap.StripTokenReader.Read | internal/protocol/session.go:174-181 | delivers the bytes behind the token, in order; without the token it delivers nothing and says why |
| DocumentCap.MaxSizeReader.Read | internal/server/split.go:88-106 | one read of at most one byte beyond the cap, its own error within the cap and a refusal beyond it, which is repeated; an overflowing bound fails the read, a missing token delivers nothing |
| DocumentCap.DrainDocument | internal/server/split.go:74-106 | token plus document under any chunking: all of it and the end below the cap, a refusal and never the end above it; nothing without the token |
| DocumentCap.AcceptedBelowCap | internal/server/split.go:88-106 | on a connection that reports its end separately a document is accepted exactly when shorter than the cap, and then whole |
| DocumentCap.MaxSizeWriter.Write | internal/server/merge.go:65-79 | at the cap nothing is written and the error is returned; below it exactly the part that fits goes to the connection in one write, whose count and error are returned; the forwarded bytes are the accepted prefixes in order |
| DocumentCap.WholeCallsForwardAll | internal/server/merge.go:59-79 | everything offered was forwarded exactly when every call accepted its whole buffer |
| Text.FieldsOfSpaced | internal/protocol/handshake.go:99-99 | splitting words joined by blanks gives the words back |
| Text.FieldsTrim | internal/protocol/handshake.go:99-99 | trimming first makes no difference to the fields |
| Text.NumeralRoundTrip | internal/protocol/merge_profile.go:56-69 | printing a number in any base up to 16 and reading it gives it back |
| Text.DigitLanguage | internal/protocol/merge_profile.go:66-66 | exactly the decimal digits and the letters of either case stand for digits |
| Text.NumeralIsPlain | internal/protocol/merge_profile.go:56-58 | printed numbers have no leading zero, no sign and small letters |
| Text.DecimalRoundTrip | internal/protocol/handshake.go:47-108 | a 64-bit port printed and parsed is itself |
| Text.AtoiLanguage | internal/protocol/handshake.go:104-107 | exactly an optional sign and digits with a 64-bit value read as a port |
| Text.ParseIntDecimal | internal/protocol/error.go:68-80 | accepts exactly non-empty digit strings and returns their value wrapped to 64 bits |
| Text.WrapIsModular | internal/protocol/error.go:77-77 | wrapped lengths agree exactly when they agree modulo 2^64 |
| ControlText.ProfileLanguage | internal/protocol/merge_profile.go:61-74 | the parser accepts exactly the two-field profile lines with a hex numeral of value at most 15, any leading zeros, and returns that value |
| ControlText.ProfileRoundTrip | internal/protocol/merge_profile.go:56-74 | formatting then parsing gives back every known mask and refuses every other |
| ControlText.ReadClientHandshake | internal/protocol/handshake.go:54-79 | under any segmentation the result is a function of the bytes: mode line, and profile line for a merge; what the dropped reader held is accounted for, and it is nothing when the client sent just its opening |
| ControlText.ModeLanguage | internal/protocol/handshake.go:37-45 | exactly the two mode words, with white space around them, are modes |
| ControlText.HandshakeLanguage | internal/protocol/handshake.go:54-79 | exactly which openings are accepted: a mode line, which only the stream's end may cut off, and for a merge a complete profile line |
| ControlText.HelloIsWhole | internal/server/server.go:128-131 | the lines the server takes as handshake are all the client sends before the invitation |
| ControlText.HelloText | internal/client/client.go:52-60 | the very bytes a client opens with |
| ControlText.HandshakeRoundTrip | internal/client/client.go:52-61 | what the client writes for a mode and mask is what the server understands |
| ControlText.ParsePorts | internal/protocol/handshake.go:103-108 | seven numbers in order, or nothing if one of them is not a number |
| ControlText.ReadInvitation | internal/protocol/handshake.go:93-117 | parses exactly the first line under any segmentation; the bytes lost with the dropped reader are those behind the line that it had pulled in |
| ControlText.InvitationRoundTrip | internal/protocol/handshake.go:47-117 | an invitation reads back exactly when token and mode are words |
| ControlText.InvitationWords | internal/protocol/handshake.go:47-51 | the nine words of the line in the protocol's order |
| ControlText.InvitationLanguage | internal/protocol/handshake.go:93-117 | exactly the nine-word lines with seven numbers are invitations, each number the port of its place |
| ControlText.FormatIsInjective | internal/protocol/handshake.go:47-51 | different invitations have different lines |
| ControlText.ReadTrailer | internal/protocol/trailer.go:146-164 | under any segmentation the reply is a function of the bytes: error, body, malformed or incomplete |
| ControlText.ReadSessionLine | internal/protocol/error.go:44-57 | error line first, else a length and that many bytes, within the limit |
| ControlText.ErrorFrameRoundTrip | internal/protocol/error.go:22-41 | any message reads back character by character with blanks for newlines, the empty one as the default text, never as a trailer |
| ControlText.ErrorFrameText | internal/protocol/error.go:26-28 | the bytes of an error frame |
| ControlText.ErrorLanguage | internal/protocol/error.go:31-51 | exactly the lines that start with the word and a blank read as errors, with the rest as message |
| ControlText.TrailerLanguage | internal/protocol/error.go:52-80 | exactly a line of digits followed by that many bytes, modulo 2^64 and within the limit, reads as a trailer |
| ControlText.OtherwiseMalformed | internal/protocol/error.go:52-55 | any other first line is refused |
| ControlText.TrailerFrameRoundTrip | internal/protocol/trailer.go:133-164 | any body up to 2^20 bytes reads back byte for byte, longer ones are refused, never taken for an error |
| ControlText.TrailerFrameText | internal/protocol/trailer.go:133-143 | a short trailer frame as it looks on the wire |
| ControlText.WrappedLengthAccepted | internal/protocol/error.go:59-80 | a body is accepted under a length line exactly when the two lengths agree modulo 2^64 and the body is within the limit |
| ControlText.ErrorPrefixIsIncomplete | internal/protocol/error.go:44-48 | no proper prefix of an error frame reads as a reply |
| ControlText.TrailerPrefixIsIncomplete | internal/protocol/trailer.go:151-158 | no proper prefix of a trailer frame reads as a reply |
| FinalFrames.SaysMeansFramed | internal/protocol/error.go:44-57 | whatever piece of the final frame a client has, it reads as that frame's own reply or as nothing yet; an error frame never as a trailer |
| Particles.MissingKinds | internal/protocol/merge_profile.go:29-44 | lists each missing core of the mask once |
| Particles.MissingMap | internal/protocol/merge_profile.go:47-53 | flags exactly the missing cores of the mask |
| Particles.MaskIsItsSet | internal/protocol/merge_profile.go:24-53 | known-bit masks correspond one to one to sets of missing cores |
| Particles.ProfileFromCore | internal/client/merge.go:105-121 | the mask names exactly the cores that are not at hand |
| Particles.KindFromKey | internal/protocol/trailer.go:61-78 | inverts the key of each kind and knows no other key |
| Particles.ProfileFromSkipKinds | internal/protocol/merge_profile.go:111-128 | the mask is the union of the named bits whatever order or repeats; any other key is an error |
| Particles.SplitCSV | internal/client/merge.go:249-262 | the non-empty pieces between commas, in order |
| Particles.SplitDropsEmpty | internal/client/merge.go:249-262 | whatever lies between the commas, the pieces come in order and only the empty ones are dropped |
| Particles.EveryStringJoins | internal/client/merge.go:249-262 | every string is comma-free pieces joined, so the law covers all inputs |
| Particles.SplitInvertsJoin | internal/client/merge.go:249-262 | undoes comma-joining of non-empty comma-free keys |
| Particles.ScanStorages | internal/store/inventory.go:38-60 | accepts exactly readable directories of which at most one is missing |
| Particles.ScanInventory | internal/store/inventory.go:38-82 | succeeds exactly on readable entries with both parities once a core is gone, and reports exactly what exists; an entry that cannot be looked at is an error |
| Particles.MissingCoreParticles | internal/store/inventory.go:18-25 | exactly the cores that are not present |
| Particles.ProfileFromInventory | internal/protocol/merge_profile.go:93-108 | the mask names exactly the cores the inventory lacks |
| Particles.FoldFooters | internal/protocol/trailer.go:90-102 | whatever the map order, id and length come from one and the same footer; checksums from each their own |
| Particles.AgreeingFootersOneResult | internal/protocol/trailer.go:119-129 | footers that agree give one result in every order |
| MergePlan.MergeSendPlanFrom | internal/mergeplan/merge_plan.go:15-42 | succeeds exactly on mergeable inventories and sends exactly the set that follows from them |
| MergePlan.MergeSendPlanFromCore | internal/mergeplan/merge_plan.go:45-52 | the same from files in memory |
| MergePlan.ValidateMergeSendPlan | internal/mergeplan/merge_plan.go:55-95 | accepts exactly the plans that leave each pair recoverable |
| MergePlan.BuildMergeSources | internal/server/merge.go:21-50 | the server opens exactly the streams its mask calls for, and fails exactly on refused profiles |
| MergePlan.ValidMeansMergeable | internal/protocol/merge_profile.go:131-139 | the early profile check and the later plan agree on every mask |
| MergePlan.PlansAgree | internal/server/merge.go:21-28 | the client's set never exceeds the server's, agrees on all cores, and equals it exactly when parity covers each pair with a missing core |
| MergePlan.PlanFromDisk | internal/client/merge.go:23-38 | a plan from a scanned directory always succeeds with parity covering, so both sides agree |
| MergePlan.AnyOneStorage | internal/store/inventory.go:38-82 | an object written in full can be merged exactly when at most one of the three storages is lost |
| MergePlan.SkippedCoreWithoutParity | internal/mergeplan/merge_plan.go:84-93 | a concrete inventory for which the plan succeeds and the two sides differ |
| Opening.LinkInvInit | internal/client/client.go:47-81 | the opening starts in its invariant |
| Opening.LinkStep | internal/protocol/session.go:66-160 | invitation, dialling, tokens, accepting and token checks keep the channel contents what both sides assume |
| Opening.HeardWholeLine | internal/protocol/handshake.go:93-117 | when the client has a whole line its reader holds exactly the invitation and nothing else exists on the channel |
| Opening.TokenMatches | internal/protocol/session.go:127-140 | the server never finds a wrong token byte from this client |
| Opening.LinkStepFrame | internal/protocol/session.go:66-160 | opening steps close nothing and write only tokens and the invitation |
| Opening.LinkProgress | internal/protocol/session.go:142-160 | an opening that is not finished can go on, if a port's channel holds the token |
| Opening.OnlyTokensPass | internal/protocol/session.go:66-140 | whoever writes on the data ports: the server gets ready only if every checked port carries the token first, and refuses only if some port differs from it |
| MergeSession.InvStart | internal/client/merge.go:83-103 | a merge session starts in its invariant |
| MergeSession.Keep | internal/client/merge.go:83-193 | every move of client, server and opening, and every failure of the client's files and output, keeps the session invariant |
| MergeSession.HeardIsFrame | internal/protocol/trailer.go:146-149 | the second control reader hears only the server's one final frame |
| MergeRuns.Falls | internal/server/split.go:45-71 | every move spends some of the work that is left |
| MergeRuns.RunsEnd | internal/client/merge.go:83-193 | no run is longer than the work the session starts with, whatever the decoder does |
| MergeRuns.Progress | internal/client/merge.go:145-193 | with enough room somebody can always move without the decoder giving up |
| MergeRuns.AroundTheJam | internal/client/merge.go:83-103 | with a failed output and the document jammed the client can still finish its upload and leave, if every file fits |
| MergeTheorems.TrapCloses | internal/client/merge.go:165-193 | without that room some run ends stuck |
| MergeTheorems.MergeLiveness | internal/client/merge.go:83-193 | never stuck exactly when the room condition holds |
| MergeTheorems.FullMergeLiveness | internal/client/merge.go:165-193 | with mask 0: never stuck exactly when a channel holds the token, all four cores can be read, and a channel holds each of them if the document can jam behind a failed output |
| MergeTheorems.NoPartialSuccess | internal/client/merge.go:83-103 | a returned trailer is the server's, after a successful decode, and the output is exactly the document; a client finished after a successful decode has it unless its output refused a byte |
| MergeTheorems.FinalFrameSent | internal/server/server.go:153-166 | a server that is done has sent its one frame whole, trailer or error by the outcome, unless the client was gone |
| MergeTheorems.NothingThrownAway | internal/client/client.go:62-80 | dropping the invitation reader loses nothing, and no document byte is ever written towards the server |
| MergeTheorems.UploadPhases | internal/client/merge.go:145-193 | omitted streams are closed carrying only the token, sent ones token and file and are closed, no parity byte before every core is through or after one failed |
| MergeTheorems.PlannedIsFine | internal/server/merge.go:21-43 | a session planned by both sides from one mask meets the model's demands; the sets agree exactly when parity covers |
| MergeTheorems.DecoderSeesFiles | internal/server/merge.go:30-50 | in every state, final ones too: a port whose end the decoder saw carried the whole file, and the footer reader yields exactly what that file calls for, unless both the client's output and an upload failed; nothing was sent only for a lacking parity |
| SplitSession.InvStart | internal/client/split.go:69-85 | a split session starts in its invariant |
| SplitSession.Keep | internal/client/split.go:69-108 | every move of client, server and opening keeps the session invariant |
| SplitSession.HeardIsFrame | internal/client/split.go:104-107 | the second control reader hears only the server's one final frame |
| SplitSession.NotGoneWhileCoding | internal/client/split.go:98-106 | the client does not leave or read the control channel before the server has closed the particle ports |
| SplitRuns.Falls | internal/server/split.go:23-38 | every move spends some of the work that is left |
| SplitRuns.RunsEnd | internal/server/split.go:14-38 | no run is longer than the work the session starts with, whatever the encoder does |
| SplitRuns.Progress | internal/client/split.go:81-106 | with enough room somebody can always move without the encoder giving up |
| SplitRuns.TrapCloses | internal/server/session.go:46-65 | without that room some run ends stuck |
| SplitRuns.SplitLiveness | internal/server/split.go:14-38 | never stuck exactly when a data channel holds the token and the control channel the whole trailer frame |
| SplitRuns.NoPartialSuccess | internal/client/split.go:69-108 | a returned trailer is the server's, the encoder saw the whole document, and the six particles are exactly what it wrote |
| SplitRuns.FinalFrameSent | internal/server/server.go:153-166 | a server that is done has sent its one frame whole, trailer or error by the outcome, unless the client was gone |
| SplitRuns.NothingThrownAway | internal/protocol/session.go:163-195 | at the document's end the encoder has taken exactly token and document; the dropped control reader held nothing more |
| ControlOutput.Control.Write | internal/server/server.go:143-145 | all of the data, or a prefix and then nothing ever again |
| ControlOutput.Validate | internal/protocol/merge_profile.go:131-139 | refuses exactly the masks with a whole pair missing |
| ControlOutput.WriteTrailer | internal/protocol/trailer.go:133-143 | a prefix of the trailer frame, all of it exactly on success |
| ControlOutput.SplitStreaming | internal/server/split.go:23-38 | nothing on an encoder error, otherwise a prefix of the trailer frame |
| ControlOutput.MergeStreaming | internal/server/split.go:45-71 | the same for a merge; its plan cannot fail after the profile check |
| ControlOutput.HandleCom | internal/server/server.go:121-166 | whatever the client says and wherever the connection breaks, a prefix of the script arrives, all of it if nothing broke; nothing behind the invitation unless all data connections arrived with the token; nothing if the handshake stalls |
| ControlOutput.ScriptCases | internal/server/server.go:128-164 | case by case what is sent: nothing, the refusal, the bare invitation when accepting the data connections fails, invitation and trailer, invitation and error |
| ControlOutput.RefusalNames | internal/protocol/merge_profile.go:131-139 | the refusal names the pair that is missing as a whole, cypher first |
| ControlOutput.RefusalWords | internal/protocol/merge_profile.go:131-139 | the text of a refusal |
| ControlOutput.ScriptFollowsGrammar | internal/server/server.go:121-166 | the script is nothing, one error frame, or an invitation followed by at most one trailer or error frame |
| ControlOutput.ClosingReads | internal/protocol/error.go:22-57 | the last frame is understood as the trailer's body or the error's text |
| ControlOutput.ScriptReads | internal/client/client.go:62-96 | a client reading the script finds the invitation it was sent and behind it only the last frame |
| ControlOutput.RefusalIsNoInvitation | internal/server/server.go:132-137 | the error frame for a refused profile is one line that does not parse as an invitation |
| Accounting.Keep | internal/server/server.go:44-119 | every step of accept loop, sessions and Shutdown keeps the accounting invariant |
| Accounting.Occupancy | internal/server/server.go:57-119 | permits taken are those of sessions between acquire and release and within the limit; a connection is turned away exactly when all are taken; the group counts those between Add and Done; each connection is rejected or handled exactly once |
| Accounting.ReleaseNeverBlocks | internal/server/server.go:114-119 | a session that releases always finds its own permit |
| Accounting.AtMostOneLateSession | internal/server/server.go:50-80 | once the listener is closed at most one more session starts, only one in hand at the close |
| Accounting.NilMeansDrained | internal/server/server.go:82-90 | when Shutdown returned nil every connection accepted before the wait was over is rejected or ended, except one in hand and not yet added |
| Accounting.LateSessionIff | internal/server/server.go:50-67 | after the close another session can start exactly when the loop has a connection in hand, whether or not a permit is free |
| Accounting.SessionAfterShutdown | internal/server/server.go:50-90 | a concrete run in which a session runs after Shutdown returned nil |
| Accounting.ServingAfterShutdown | internal/server/server.go:44-90 | a concrete run in which Shutdown returned nil and Serve accepts connections afterwards |
| Accounting.ShutdownBeforeServe | internal/server/server.go:72-80 | Shutdown closes the listener exactly when Serve had stored it before the call |
| Accounting.DrainEnds | internal/server/server.go:72-94 | after the listener is closed every run is bounded by the work in hand |
| Accounting.DrainedClean | internal/server/server.go:72-94 | and it stops only with no permit taken, nobody in the group, all connections over, Serve and Shutdown back |
| Accounting.CleanStop | internal/server/server.go:51-56 | once the listener is closed, a Serve that has not returned never returns an error, in any continuation |
| Accounting.ServeReturns | internal/server/server.go:50-56 | after a failed Accept Serve returns without an error exactly if Shutdown was called |
| Accounting.AcceptErrorReported | internal/server/server.go:51-56 | a concrete run in which a failed Accept is reported |

## Left out

- The codec library: encoder, decoder, footer layout, checksums, fingerprints and parity. A footer is 64 opaque bytes; encoder and decoder are arbitrary processes whose particles, document, trailer body and error text are parameters.
- JSON, hex and base64 text of the trailer: its body is an opaque byte sequence; a body that is not JSON is refused by the code and not by the model.
- Real sockets: resets, deadlines, lost data on close, kernel buffering beyond one bounded FIFO per direction, and strangers dialling the data ports. A write to a connection the other side has closed fails at once.
- Clients that write another token: the session machines have one client that uses the token of its invitation; a wrong token is covered by `Opening.OnlyTokensPass`, `TrailingFooter.ConsumeToken` and `DocumentCap.StripTokenReader.ConsumeToken`. The client's comparison with its own configured token is not modelled.
- An empty session token, or one with white space: its invitation cannot be read, so the session machines start from a token that makes a readable line.
- MergeSession.Keep: the client's own failures are a refused open, a read error after some bytes and an output that stops accepting; failing to close a socket is not modelled.
- SplitSession.Keep: models the in-memory split client; the streaming client differs only in copying buffer by buffer and closing each particle connection when its copy ends. The token check on the document port is not a step of its own: the encoder's first bytes are the token, and `DocumentCap.StripTokenReader.Read` is what takes them off.
- Accounting.Keep: one Serve call and one Shutdown call; the wait group's own misuse check, which may stop the program when Add meets a Wait at zero, is not modelled.
- Accounting.SessionAfterShutdown: what a handler does is one step here; sessions themselves are the other machines.
- The buffered error channels of the upload and copy goroutines: each goroutine sends at most once into a buffer with one place per goroutine, so they never block; only the fact that some goroutine failed is kept.
- Failure to bind the seven listeners: it is a parameter of `ControlOutput.HandleCom`, the clean-up inside is not modelled.
- ControlOutput.HandleCom: error texts of a failed trailer write and of a failed plan stand in for the library's; neither can reach the client.
- Reading a mode line or a profile line alone (`internal/protocol/handshake.go:81-91`, `internal/protocol/merge_profile.go:77-84`): the server uses the combined reader.
- Comparing write ids of the trailer's footers (`internal/protocol/trailer.go:167-188`): it needs the footer layout.
- A size cap of zero or less: the code then uses the bare connection, without the capped reader or writer.
- Which storage a particle lies in is the codec library's table; it is taken from `design/protocol.md:54-61`.
- Configuration, flags, paths, logging, command-line programs: no property beyond their text.
