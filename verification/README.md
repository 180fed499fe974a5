# Delivery, codec and request cores of the Pickpoint Rust SDK, verified in Dafny

The SDK streams GPS samples of a device to a tracking service over one WebSocket. Samples that
cannot be sent yet wait in Staging; samples that were given a sequence number wait InFlight until
the server acknowledges them; at most eight Loc frames may be unacknowledged. Sockets drop, dials
race, tracks start and stop, acks are cumulative, and a size cap evicts. Beside that engine the SDK
has a binary codec with delta-coded point chains, a single-flight token refresh, a batch runner with
bounded concurrency, and a retry loop. This project models those parts and proves what they are for.

`dafny verify dfyconfig.toml` checks everything.

## How it is put together

| file | what it holds |
|---|---|
| `Wrappers.dfy`, `Bytes.dfy`, `Utf8.dfy`, `Types.dfy` | Option and Result, little-endian integers, well-formed UTF-8, wire enumerations |
| `Points.dfy`, `Reading.dfy`, `Loc.dfy`, `LocWriter.dfy` | fixed-point samples, the cursor reader, Loc frames and the greedy splitter, the writing loops |
| `Messages.dfy`, `Codec.dfy` | the commands and events with encoders and decoders as functions; the same in their imperative form |
| `RoundTrip.dfy`, `NormalForm.dfy`, `SelfDelimiting.dfy` | decode after encode, the normal form, strict prefixes |
| `Layout.dfy` | the wire in plain offsets and numbers, and what the decoders make of any bytes |
| `Queue.dfy`, `Backoff.dfy`, `Engine.dfy` | the offline queue, reconnect delays, every lock section of the client as a function on its state |
| `Runs.dfy`, `Safety.dfy` | runs of lock sections in any interleaving, and what holds in all of them |
| `Handlers.dfy` | runs of whole handlers, and what needs that coarser grain |
| `Tracks.dfy` | sequence numbers per track across restarts of the counter, and the exact condition under which they stay unambiguous |
| `Races.dfy` | runs the code allows in which something one might expect fails, each from a state a new client reaches, with the condition that decides it |
| `Sockets.dfy` | closes that nobody hears and bytes that outlive their socket, in any interleaving |
| `Drains.dfy` | how much one flush sends and that it changes no point |
| `Causes.dfy` | for every event, the new value of every part of the session |
| `Client.dfy`, `Reconnect.dfy` | the client object, method by method, and its reconnect loop |
| `Auth.dfy`, `Batch.dfy`, `Transport.dfy` | token refresh, batches, the HTTP request loop |

Code that works in place is a class or a method with loops, proved against a function of the same
name or kind; the theorems are then about those functions. What a function means is stated without it:
bytes by position, coordinates in degrees, statuses and limits as numbers, a flush by the points that
wait, an event by the fields it leaves. History (`Log`) records which number was
given to which point, every frame as it was built, every byte string handed to a writer, and where
each emitted point went; no branch reads it.

## Two granularities

*Lock sections* (`Runs`, `Safety`, `Tracks`, `Races`, `Sockets`): one `inner.lock()` block is one step
and steps of all tasks interleave freely. Here live frame agreement, the shape of InFlight and the
window, conservation, socket generations, numbers per track, and closing.

*Handlers* (`Handlers`): a dispatch with its `flush_queue`, or a publish with its send, is one step.
Emission order, the drained state, back-to-back frames and coverage after a drop need it: the source
drops the lock between a dispatch and its flush, and `Races.PublishOvertakes` says what a publish in
that gap does.

What is taken for granted is explicit. For lock sections (`Runs.Allowed`): `TrackStarted` arrives
while nothing is in flight; numbers stay below 2^32, the width of the wire field; a manual `resume()`
does not move the counter while points are in flight. The first and the last are exactly what keeps
the numbers of InFlight in one block (`Safety.TrackStartedSound`, `Safety.ManualResumeSound`). The first
is the case for the answer to a single outstanding start as long as no ResumeOk comes between the two
(`Handlers.NothingInFlightUntilAnswered`). With one in between it depends on a race of the client's
own: `Races.ResumeOpens` and `Races.ResumeWhileStarting` say exactly when it still holds, and
`Races.ResumeOvertakesStart` is a run in which it does not.

For handlers, in addition (`Handlers.HandlerAllowed`): the writer of an installed socket accepts what
it is given, an Ack comes quietly (`Handlers.AcksQuietly`) and a dial is installed quietly
(`Handlers.InstallsQuietly`). An Ack breaks back-to-back frames exactly when it reaches an open session
that has frames and unsent points, and names a number that this session has yet to send
(`Handlers.AckKeepsBackToBack`). Between a drop and the ResumeOk any Ack may come. The quiet install is
no promise of the environment but the exact condition under which an install keeps the queue drained
(`Handlers.InstallKeepsDrained`); the client can break it by itself (`Races.InstallBreaksOrder`), and
then emission order is lost.

## What the proofs say about the code

- A number of a track can stand for two points. A second `start_track` restarts the counter of a live
  track; when the socket drops before its answer, the redial resumes the old track at its old cursor
  and numbers are given again: `Races.RestartRebinds`. Setting the counter back with `resume()` does the
  same, on the same track or by way of another: `Races.RewindRebinds`, `Races.ManualResumeRebinds`. It
  cannot happen in any run whose sessions open above everything sent before for their uid,
  `Tracks.NoNumberTwiceOnTrack`, and that condition is exact, `Tracks.TrackStaysClear`. A client could check it by keeping the highest number sent per uid.
- A ResumeOk that arrives while a start is unanswered opens the old session for the new track's points,
  and `TrackStarted` then restarts the counter under them: `Races.ResumeOvertakesStart`.
- A start that is answered on the old socket while a relocation is dialing makes the session ready, and
  the install opens the connection behind it without a flush. The next point then overtakes what is
  staged: `Races.InstallBreaksOrder`.
- A live publish between a dispatch and its flush marks kept unsent points as sent. Its frame carries
  the new point alone, so the session lacks the others and no flush will send them:
  `Races.PublishOvertakes`, `Races.OvertakingLeavesGap`, reached in `Races.OvertakenInSession`.
- The close of a socket is ignored once another dial has begun or credentials were refreshed since its
  install, and only then: `Sockets.CloseIsHeard`. When that dial fails without reporting its own
  generation, nobody redials, the state is not Closed, and callers that wait are never told:
  `Sockets.FailedDialStrands`, `Sockets.StaysStranded`, reached in `Sockets.CloseIsLost`.
- A frame may be built for one socket and reach the next one before its Resume. It does so exactly when
  its send takes the lock between the install and the send of the Resume: `Sockets.FrameAheadOfResume`,
  reached in `Sockets.FrameOutlivesSocket`.
- `refresh()` answers success to a waiter whenever the flag is down, also when the refresh it waited
  for failed: `Auth.WaiterTrustsTheFlag` gives the exact condition under which the answer is right, and
  `Auth.OneRefreshesOneTrusts` is the run.
- A failed credential refresh leaves the writer in place, so a dial that is past its check lets bytes
  out again exactly when a socket was installed: `Safety.AuthFailureLeavesWriter`.
- `TrackStarted` restarts the counter without clearing the queue; `resume()` sets the counter to any
  value. `Safety.TrackStartedSound` and `Safety.ManualResumeSound` say exactly when InFlight keeps its
  shape; `Races.ResumeOvertakesStart` and `Races.ManualResumeBreaks` reach states where it does not.
- With InFlight at the cap, the point a publish stages is itself what the cap takes, although the queue is
  meant to keep the newest: `Drains.PublishHolds`.
- `last_acked_seq` is documented as the highest acknowledged number; a ResumeOk with a lower cursor
  lowers it: `Safety.AckedCursor`.
- Text longer than 4096 bytes is cut by bytes, and a cut inside a character makes the whole frame
  unreadable: `RoundTrip.ClientReadable`, `RoundTrip.ServerReadable` and the round trips.

## Model

| member | source | states |
|---|---|---|
| Points.QuantiseDegreesAll | src/tracking/codec.rs:191-197 | decoded samples quantise back to the very wire values they came from |
| Points.HalfMicrodegree | src/tracking/codec.rs:191-204 | a coordinate that passes the range check comes back within half a microdegree |
| Points.OnGlobe | src/tracking/codec.rs:41-44 | a point passes the range check iff it lies less than half a microdegree beyond 90 degrees of latitude and 180 of longitude |
| Points.SeenAs | src/tracking/codec.rs:216-255 | what the other side sees: coordinates within half a microdegree, altitude within half a millimetre, accuracy within half a centimetre or at the bounds 0 and 655.35 m, the time, no heading, no speed |
| Points.FarAltitude | src/tracking/codec.rs:239-241 | an altitude beyond 32 bits of millimetres is seen at the nearer end |
| Points.PositionSeen | src/tracking/codec.rs:329-347 | a position of a route travels as its coordinates alone, within half a microdegree |
| Bytes.LittleEndian | src/tracking/codec.rs:86-110 | integers of 2, 4 and 8 bytes are read lowest byte first, signed ones in two's complement |
| Bytes.PutLittleEndian | src/tracking/codec.rs:145-150 | they are written the same way |
| Bytes.PutTwosComplement | src/tracking/codec.rs:151-159 | and so are signed ones |
| Utf8.ValidIff | src/tracking/codec.rs:124-131 | text is accepted iff its bytes encode some sequence of Unicode scalar values |
| Reading.BytesBack | src/tracking/codec.rs:124-139 | a length-prefixed string comes back cut at 4096 bytes; as text it is refused exactly when the cut is not UTF-8 |
| Reading.Reader.LenBytes | src/tracking/codec.rs:133-139 | reads what the function at the cursor reads and moves the cursor behind it; a length over 4096 is invalid, too few bytes are truncated |
| Reading.Reader.LenStr | src/tracking/codec.rs:124-131 | the same for text, which must be UTF-8 |
| Reading.StrConsistent | src/tracking/codec.rs:72-131 | reading text from a prefix of the buffer gives the same answer or runs out |
| Loc.FixBack | src/tracking/codec.rs:216-255 | a written point reads back exactly, absolute or as a difference, and is refused exactly when off the globe; nothing clips |
| Loc.FixForth | src/tracking/codec.rs:306-327 | the bytes of a point that was read are the bytes that would be written for it iff its flag byte has no unknown bit |
| Loc.FixesBack | src/tracking/codec.rs:384-390 | the same for a whole chain of differences |
| Loc.LocBack | src/tracking/codec.rs:378-391 | a written Loc frame decodes to its number and its points at any cursor, or is invalid iff a point is off the globe |
| Loc.LocForth | src/tracking/codec.rs:378-391 | an accepted Loc frame is the encoding of what it says iff all flag bits are known |
| Loc.PiecesPartition | src/tracking/codec.rs:270-291 | the splitter cuts the points into consecutive encodable chunks whose numbers chain without a gap |
| Loc.LocFramesLossless | src/tracking/codec.rs:263-292 | decoding the frames in order, insisting that numbers continue, gives back every quantised point iff all lie on the globe; the last frame carries the last number |
| Loc.LocFramesAccurate | src/tracking/codec.rs:191-327 | every coordinate the receiver rebuilds is within half a microdegree of its source, however long the chain |
| Loc.GreedyOptimal | src/tracking/codec.rs:263-292 | no split into consecutive chunks of at most 100 points with fitting differences uses fewer frames |
| LocWriter.Writer.Point | src/tracking/codec.rs:216-255 | appends exactly the point's bytes, or, when the difference overflows, its flag byte and an error |
| LocWriter.EncodeLocFrame | src/tracking/codec.rs:294-304 | a checked chunk becomes the one frame with its number modulo 2^32 |
| LocWriter.ExtendChunk | src/tracking/codec.rs:272-286 | the inner loop stops at the greedy end of the chunk |
| LocWriter.EncodeLocFrames | src/tracking/codec.rs:263-292 | the nested loops emit exactly the frames of the greedy split |
| Codec.ReadFix | src/tracking/codec.rs:306-327 | reads one point as specified, with the same error on the same input |
| Codec.ReadLoc | src/tracking/codec.rs:378-390 | reads a Loc body: counts 0 and over 100 are invalid, then the chain |
| Codec.ReadRoute | src/tracking/codec.rs:337-347 | reads a route as specified, refusing a position off the globe |
| Codec.WriteRoute | src/tracking/codec.rs:329-335 | appends at most 65535 positions under their count |
| Codec.DecodeClientFrame | src/tracking/codec.rs:349-448 | the cursor-moving decoder computes the client decoding function on every input |
| Codec.DecodeServerFrame | src/tracking/codec.rs:699-835 | the cursor-moving decoder computes the server decoding function on every input |
| Codec.EncodeClientCmd | src/tracking/codec.rs:457-542 | the appending encoder computes the client encoding function; a batch is its first frame |
| Codec.EncodeServerEvt | src/tracking/codec.rs:549-696 | the appending encoder computes the server encoding function |
| RoundTrip.ClientBack | src/tracking/codec.rs:349-542 | a written command reads back in normal form at any cursor, consuming exactly its bytes, iff it is readable; else it is invalid |
| RoundTrip.ClientRoundTrip | src/tracking/codec.rs:349-542 | decode(encode(c)) is the normal form of c whatever bytes follow |
| RoundTrip.ServerBack | src/tracking/codec.rs:549-835 | a written event reads back in normal form at any cursor, consuming exactly its bytes, iff it is readable; else it is invalid |
| RoundTrip.ServerRoundTrip | src/tracking/codec.rs:549-835 | decode(encode(e)) is the normal form of e whatever bytes follow |
| RoundTrip.PointTravels | src/tracking/codec.rs:199-204 | in degrees: a point below 90.0000005 of latitude and 180.0000005 of longitude decodes on the other side, any other is invalid |
| RoundTrip.StartTravels | src/tracking/codec.rs:468-484 | a start decodes with its place, route and metadata iff every position is on the globe |
| Layout.ResumeLayout | src/tracking/codec.rs:460-467 | Resume: type 1, sixteen bytes of uid, four of the number |
| Layout.TrackStartLayout | src/tracking/codec.rs:468-484 | TrackStart: type 2, a flag, the place, the route, the metadata, at their offsets |
| Layout.LocationAddLayout | src/tracking/codec.rs:488-495 | a live point: type 4, number, count one, the point |
| Layout.LocLayout | src/tracking/codec.rs:294-304 | a Loc frame: type 4, the number of its last point, the count, the first point whole, the others as differences of two bytes |
| Layout.ShortLayouts | src/tracking/codec.rs:485-520 | TrackStop, Unsubscribe and Subscribe, the interval capped at 65535 |
| Layout.EventLayout | src/tracking/codec.rs:521-529 | Event: type 7, payload, time or zero |
| Layout.CommandAckLayout | src/tracking/codec.rs:530-540 | CommandAck: type 8, id, status 0 to 3, message |
| Layout.HelloLayout | src/tracking/codec.rs:552-561 | Hello: type 0x80, version, shard, node |
| Layout.RelocateLayout | src/tracking/codec.rs:562-569 | Relocate: type 0x81, delay, endpoint |
| Layout.CursorLayouts | src/tracking/codec.rs:570-593 | ResumeOk, TrackStopped and Ack: types 0x82, 0x84, 0x85, uid and number |
| Layout.TrackStartedLayout | src/tracking/codec.rs:578-585 | TrackStarted: type 0x83, uid, metadata |
| Layout.LocationAddedLayout | src/tracking/codec.rs:594-604 | LocationAdded: type 0x86, subscription, number, the point |
| Layout.SubscribedLayout | src/tracking/codec.rs:605-649 | Subscribed: type 0x87, a head of 35 bytes, what its flags announce, distance, duration, names, metadata, at their offsets |
| Layout.ErrorLayout | src/tracking/codec.rs:650-661 | Error: type 0x88, code 1 to 6, delay, uid, message |
| Layout.EventAddedLayout | src/tracking/codec.rs:662-672 | EventAdded: type 0x89, subscription, payload, time |
| Layout.CommandLayout | src/tracking/codec.rs:673-682 | Command: type 0x8A, id, payload, time |
| Layout.PresenceLayout | src/tracking/codec.rs:683-694 | DevicePresence: type 0x8B, subscription, a byte, time |
| Layout.ClientTypes | src/tracking/codec.rs:349-448 | the first byte of any client frame decides: 1 to 8 are the commands, up to 0x7E is said to be unknown, the rest is refused |
| Layout.ServerTypes | src/tracking/codec.rs:699-835 | the same for events: 0x80 to 0x8B, refused types, and later types passed over |
| Layout.AnyClientBytes | src/tracking/codec.rs:355-417 | any bytes of Resume, TrackStop, Subscribe and Unsubscribe, and a Loc count of 0 or over 100 |
| Layout.AnyServerBytes | src/tracking/codec.rs:705-737 | any bytes of Hello, ResumeOk, TrackStopped and Ack, and an error code that does not exist |
| Layout.AnyText | src/tracking/codec.rs:124-139 | any length-prefixed field: over 4096 is refused, missing bytes are truncated, else those bytes |
| Layout.AnyTrackStart | src/tracking/codec.rs:360-374 | an odd flag byte announces the place |
| Layout.AnySubscribed | src/tracking/codec.rs:743-765 | what the head of Subscribed says, for any bytes: online is any byte but 0, a nil track is none, bits 1, 2 and 4 announce |
| Layout.AnyPresence | src/tracking/codec.rs:819-830 | any byte but 0 is online and a time of zero is none |
| Layout.AnyStatus | src/tracking/codec.rs:430-443 | a status byte over 3 is unspecified |
| Layout.AnyErrorCode | src/tracking/codec.rs:783-796 | the code is the byte, and a delay of zero is none |
| Layout.OtherBitsIgnored | src/tracking/codec.rs:306-327 | flag bits of a point other than 1, 2 and 16 change nothing |
| NormalForm.ClientNormFixed | src/tracking/codec.rs:349-542 | the normal form of a command is the command itself iff it says only what the wire can say |
| NormalForm.ClientNormIdempotent | src/tracking/codec.rs:349-542 | the normal form is readable, canonical, and its own normal form |
| NormalForm.ServerNormFixed | src/tracking/codec.rs:549-835 | the normal form of an event is the event itself iff it says only what the wire can say |
| NormalForm.ServerNormIdempotent | src/tracking/codec.rs:549-835 | the normal form is readable, canonical, and its own normal form |
| NormalForm.CanonicalSurvives | src/tracking/codec.rs:349-835 | a readable message comes back exactly as it was sent iff it is canonical |
| NormalForm.LocReencodes | src/tracking/codec.rs:378-403 | a frame that decodes to Loc re-encodes as one frame, byte for byte what was consumed, iff every flag byte is known |
| SelfDelimiting.ClientConsistent | src/tracking/codec.rs:349-448 | a prefix of any client frame decodes like the whole or runs out |
| SelfDelimiting.ServerConsistent | src/tracking/codec.rs:699-835 | a prefix of any server frame decodes like the whole or runs out |
| SelfDelimiting.ClientPrefixTruncated | src/tracking/codec.rs:349-542 | every strict prefix of a readable command's encoding is truncated |
| SelfDelimiting.ServerPrefixTruncated | src/tracking/codec.rs:549-835 | every strict prefix of a readable event's encoding is truncated |
| SelfDelimiting.ClientPrefixFree | src/tracking/codec.rs:349-542 | no encoding of a readable command is a proper prefix of another, and equal bytes mean equal normal forms |
| SelfDelimiting.ServerPrefixFree | src/tracking/codec.rs:549-835 | the same for events |
| Queue.CapKeepsNewest | src/tracking/queue.rs:146-163 | the cap ends with min(size, cap) points; Staging becomes a subsequence that keeps its newest point; InFlight loses only from the front and only once Staging is empty |
| Queue.DropOneShrinks | src/tracking/queue.rs:147-161 | one pass of the cap loop already obeys those rules |
| Queue.DropOneTakes | src/tracking/queue.rs:146-160 | one pass takes the first inner staging point on the line through its neighbours, or the oldest when there is none |
| Queue.DropOneInflight | src/tracking/queue.rs:155-160 | with nothing staged it takes the oldest in flight |
| Queue.FirstFlatIsLeast | src/tracking/filter.rs:153-166 | the scan stops at the first such point |
| Queue.AckKeepsShape | src/tracking/queue.rs:122-126 | a cumulative ack removes exactly the acked prefix and keeps numbers in one block, also when it is ahead of the counter |
| Queue.AssignKeepsShape | src/tracking/queue.rs:59-75 | numbering the head of Staging extends the block; the new points are unsent |
| Queue.MarkUnsentKeepsShape | src/tracking/queue.rs:98-103 | after forgetting all sends the shape holds with nothing marked sent |
| Queue.LiveKeepsShape | src/tracking/client.rs:1027-1030 | enqueue and record under the next number keep the shape; the point just sent is never the one the cap takes |
| Queue.RecordKeepsShape | src/tracking/queue.rs:113-120 | recording a higher frame marks exactly the points it reaches |
| Queue.UnsentSuffix | src/tracking/queue.rs:136-138 | the unsent points are the contiguous suffix no frame has reached |
| Queue.OfflineQueue.CollapseOneCollinear | src/tracking/filter.rs:153-166 | removes the first inner point on the line through its neighbours, and only that |
| Queue.OfflineQueue.EnforceCapInPlace | src/tracking/queue.rs:146-163 | the loop ends, and computes the capped queue |
| Queue.OfflineQueue.Push | src/tracking/queue.rs:54-57 | appends to Staging and enforces the cap |
| Queue.OfflineQueue.AssignFromStaging | src/tracking/queue.rs:60-75 | moves and numbers the next points and returns them |
| Queue.OfflineQueue.EnqueueSent | src/tracking/queue.rs:78-87 | appends a numbered point as sent and enforces the cap |
| Queue.OfflineQueue.ForgetSent | src/tracking/queue.rs:98-103 | clears every sent mark and the window |
| Queue.OfflineQueue.Record | src/tracking/queue.rs:113-120 | records the frame and marks what it reaches |
| Queue.OfflineQueue.Ack | src/tracking/queue.rs:123-126 | keeps exactly the points and frames above the ack |
| Queue.OfflineQueue.UnsentInflight | src/tracking/queue.rs:136-138 | returns exactly the points not marked sent, in order |
| Backoff.Delay | src/tracking/backoff.rs:36-49 | there is a delay iff attempts are left, and it is at most the ceiling of the attempt |
| Backoff.DelayIsShare | src/tracking/backoff.rs:36-49 | the k-th delay is the whole milliseconds of the random share, clamped to [0, 1], of the lesser of the maximum and the minimum doubled k times |
| Backoff.Doubling | src/tracking/backoff.rs:18-49 | the ceiling starts at the minimum and doubles up to the maximum; by default 500 ms to 30 s |
| Backoff.AttemptsRunOut | src/tracking/backoff.rs:36-54 | attempts run out iff a limit is set and as many were counted; each delay counts one and a reset gives them back |
| Backoff.Reconnects.NextDelay | src/tracking/backoff.rs:36-49 | computes the delay and counts the attempt |
| Runs.InvStep | src/tracking/client.rs:296-1164 | every lock section keeps agreement of numbers, points and frames, the shape of InFlight and the window, conservation, and the order of sockets |
| Runs.ExactlyOnePlace | src/tracking/client.rs:770-840 | every emitted point is in exactly one of InFlight, Staging, acked, evicted, or gone with its track |
| Runs.NamesStep | src/tracking/client.rs:788-799 | no step gives a number of a counter run to another point |
| Safety.FramesNeverLie | src/tracking/client.rs:770-840 | in every reachable state every frame ever built, live, flushed or sent again, decodes to its number and exactly the points its numbers name |
| Safety.NamesAreForever | src/tracking/client.rs:1008-1045 | along any run a number of one counter run keeps its point, and frames stay in history |
| Safety.NoNumberTwice | src/tracking/client.rs:1027-1040 | two frames of one counter run that carry the same number carry the same point there, but for its time |
| Safety.TimeOnWire | src/tracking/client.rs:1033-1040 | a live point goes out without its time, a flushed one with it |
| Safety.CloseIsFinal | src/tracking/client.rs:1144-1164 | after close's locked section no socket is installed and no byte is handed to a writer, whatever is still outstanding |
| Safety.AuthFailureLeavesWriter | src/tracking/client.rs:646-650 | after a failed refresh bytes are refused, until a dial begins; then they pass iff a socket was installed |
| Safety.GenerationsIncrease | src/tracking/client.rs:296-388 | installed sockets have strictly increasing generations |
| Safety.TrackStartedSound | src/tracking/client.rs:488-497 | restarting the counter keeps the shape of InFlight iff nothing is in flight |
| Safety.ManualResumeSound | src/tracking/client.rs:938-947 | setting the counter by hand keeps the shape of InFlight iff nothing is in flight or it does not move; that is all a resume() is asked for |
| Safety.AckedCursor | src/tracking/client.rs:470-525 | last_acked_seq goes back iff a ResumeOk names a lower cursor; Ack never lowers it |
| Safety.DropIsNotANewTrip | src/tracking/client.rs:654-705 | along any run that does not end or replace a live track, through drops, dials and publishes, it stays the same track, no TrackStart is issued, the counter does not go back and a publish would not start another; what goes on the wire is Handlers.DropResumeCovers |
| Safety.InitialInv | src/tracking/client.rs:225-257 | a new client satisfies the invariant of lock sections |
| Handlers.InitialSettling | src/tracking/client.rs:225-257 | a new client satisfies the invariant of handlers |
| Handlers.PassWorks | src/tracking/client.rs:770-830 | a working pass takes at least one window place, sends consecutive numbers from the next one due, and keeps everything |
| Handlers.FlushAllKeeps | src/tracking/client.rs:770-840 | flush_queue ends; it stops only when it may not send, the window is full or nothing waits; its frames are consecutive |
| Drains.FlushDrains | src/tracking/client.rs:770-840 | for every state that may send: the flush leaves nothing staged and nothing unsent iff the unsent and then the staged points can be cut into no more frames than the window has places, by whatever cut |
| Drains.FlushNumbersAtMost | src/tracking/client.rs:786-796 | a flush gives at most 100 numbers for each free place of the window |
| Drains.EightHundredDrain | src/tracking/client.rs:770-840 | with an empty window up to 800 points on short hops leave in one flush |
| Drains.FlushKeepsPoints | src/tracking/client.rs:770-840 | InFlight followed by Staging is the same sequence of points before and after a flush |
| Drains.PublishHolds | src/tracking/client.rs:1019-1031 | the published point is the newest in flight under the next number, or the newest staged, unless InFlight fills the cap |
| Handlers.HandleKeeps | src/tracking/client.rs:450-606 | every handler leaves a drained queue, emission order, back-to-back frames and the wire in building order, given that an install and an Ack are quiet and the writer of an installed socket accepts what it is given |
| Handlers.InstallKeepsDrained | src/tracking/client.rs:297-387 | an install leaves a drained session drained iff it is quiet: it installs nothing, no session is open, the window is full, or nothing waits |
| Handlers.AckKeepsBackToBack | src/tracking/client.rs:518-528 | an Ack keeps the frames of a session back to back iff it is quiet: no session is open, it has no frame yet, nothing is unsent, or the Ack names nothing the session has yet to send |
| Handlers.AckKeepsNext | src/tracking/queue.rs:122-138 | an ack leaves the next number to send alone iff nothing is unsent or it lies below that number; else it moves it up |
| Handlers.QueueInEmissionOrder | src/tracking/queue.rs:54-87 | InFlight followed by Staging is in emission order in every state handlers reach with quiet installs |
| Handlers.NumbersInEmissionOrder | src/tracking/client.rs:1016-1031 | of two points of a counter run the one with the lower number was emitted first, and conversely |
| Handlers.SessionIsGapless | src/tracking/client.rs:770-840 | within a session each frame starts where the one before it ended, and the writer got frames in that order |
| Handlers.LiveEmpties | src/tracking/client.rs:1019-1031 | a live publish happens only with nothing staged and nothing unsent, and leaves it so |
| Handlers.EvictedWasSent | src/tracking/queue.rs:146-163 | a point that a publish evicts from InFlight had been sent |
| Handlers.DropForgetsSends | src/tracking/client.rs:660-666 | a dead socket leaves the same points under the same numbers, all unsent, with an empty window |
| Handlers.ResumeCovers | src/tracking/client.rs:466-487 | with nothing counted as sent, a ResumeOk that covers what the client no longer holds is followed by frames from ack+1 on without a gap until the window is full or nothing waits |
| Handlers.HandlerSettles | src/tracking/client.rs:466-528 | on a live track what the client no longer holds was acknowledged, unless the cap took it |
| Handlers.DropResumeCovers | src/tracking/client.rs:654-768 | over a whole stretch with a drop in it: same track, no TrackStart; the dial that gets through puts exactly the Resume of that track at the last number on the new socket; its answer is followed by frames from ack+1 without a gap, for any ack no lower than those given before |
| Handlers.AsksToResume | src/tracking/client.rs:381-387 | the tail of a dial that gets through adds to the wire the Resume of the live track at the last number given out, on the new socket, and moves no point |
| Handlers.NothingInFlightUntilAnswered | src/tracking/client.rs:897-935 | from a start until its answer nothing goes in flight as long as no ResumeOk arrives; for that case see Races.ResumeOpens |
| Handlers.StartsUnopened | src/tracking/client.rs:904-912 | both kinds of start leave no open session and nothing in flight |
| Tracks.TracksStaySafe | src/tracking/client.rs:466-500 | each step of a run whose sessions open above what earlier counter runs sent for the same uid keeps every number of a track within one counter run and every emitted point under one name |
| Tracks.NoNumberTwiceOnTrack | src/tracking/client.rs:681-912 | in every run from a new client whose sessions open above what was sent before for their uid, no number of a track stands for two emitted points, across any restarts of the counter |
| Tracks.SamePointOnTrack | src/tracking/client.rs:1027-1040 | then any two frames of a track that carry the same number carry the same point there, but for its time |
| Tracks.TrackStaysClear | src/tracking/client.rs:466-487 | for every open session: all ways to continue it keep the numbers of the track unambiguous iff its next number lies above everything earlier counter runs sent for that uid |
| Tracks.ReachNumber | src/tracking/client.rs:770-840 | an open session can be driven by acks, flushes and publishes to a frame that carries any given number from the next one on |
| Races.SetsSail | src/tracking/client.rs:225-500 | a new client gets to a live track on an open socket with nothing queued |
| Races.RestartRebinds | src/tracking/client.rs:897-912 | a second start on a live track whose socket drops before the answer: the redial resumes the old track and a number goes out twice, for two points, under one uid |
| Races.RewindRebinds | src/tracking/client.rs:938-947 | so does a resume() of the same track below what was sent |
| Races.ManualResumeRebinds | src/tracking/client.rs:938-947 | resuming another track and coming back by hand below what was sent does the same |
| Races.InstallBreaksOrder | src/tracking/client.rs:297-387 | a start answered on the old socket during a relocation, then the install: a drained queue is drained no more, the next point is numbered ahead of a staged one and emission order is lost |
| Races.PutsInFlight | src/tracking/client.rs:770-1031 | from nothing in flight a lock section puts something there iff it is a live publish, or a flush that may send and finds points staged |
| Races.ResumeOpens | src/tracking/client.rs:466-487 | a ResumeOk while a start is unanswered: the next publish goes in flight iff a connection is open, and a flush pass puts points there iff, besides, some are staged |
| Races.ResumeWhileStarting | src/tracking/client.rs:466-487 | after the whole handler nothing is in flight iff nothing was staged or no connection is open |
| Races.ResumeOvertakesStart | src/tracking/client.rs:488-497 | a run that gets there: the start unanswered, a point in flight, and its answer would break the shape of InFlight |
| Races.ManualResumeBreaks | src/tracking/client.rs:938-947 | a resume() to any other number over a point in flight breaks the shape, in a state a new client reaches |
| Races.PublishOvertakes | src/tracking/client.rs:1019-1031 | a live publish builds one frame with the new point alone, keeps all of InFlight or all but its oldest point, and marks the kept points sent; that alters one of them iff some point was unsent and any is kept |
| Races.OvertakingLeavesGap | src/tracking/client.rs:770-829 | the session's frames then carry exactly the numbers below the next one due and the new one; those between are missing iff something was unsent, and nothing counts as unsent any more |
| Races.OvertakenInSession | src/tracking/client.rs:466-487 | a run that gets there: after a drop and a ResumeOk a point published before the flush leaves the session's only frame without the point before it, and nothing to flush |
| Causes.Effects | src/tracking/client.rs:296-1164 | for every event from every state: the new value of track, readiness, connection, socket, generation, attempts, waiters, both cursors and the queue, with every error code, limit and close condition spelled out |
| Causes.BytesGoOut | src/tracking/client.rs:871-881 | bytes handed over are on the wire of the socket in use iff there is one whose writer listens and nobody closed the client |
| Causes.NewClient | src/tracking/client.rs:225-257 | a new client, field by field |
| Causes.Limits | src/tracking/client.rs:770-840 | in every run at most eight frames unacknowledged, the queue within its cap, 1 to 100 points a frame |
| Sockets.CloseIsHeard | src/tracking/client.rs:654-695 | in every run after an install, the close of that socket ends the client with nobody waiting or counts an attempt and redials iff no dial began and no credentials were refreshed since, or the client is closed anyway; else it changes nothing |
| Sockets.FailedDialStrands | src/tracking/client.rs:297-448 | a dial that fails leaves a client that is not closed, with no dial of the newest generation out and every installed socket's close ignored |
| Sockets.StaysStranded | src/tracking/client.rs:654-705 | without a new dial, a report of that generation, or an end of the client, every run stays there: nothing installed, no attempt counted, and whoever waits and is not answered waits on |
| Sockets.CloseIsLost | src/tracking/client.rs:429-448 | a run that gets there from a new client: a start waits, a relocation's dial fails, the old socket closes |
| Sockets.InitialKnown | src/tracking/client.rs:225-257 | a new client satisfies what NewSocketWire asks of a state, and runs keep it (KnownRun) |
| Sockets.NewSocketWire | src/tracking/client.rs:871-881 | the wire of a new socket is what the sends hand over from its install on, in lock order, whatever socket they were built for |
| Sockets.FrameAheadOfResume | src/tracking/client.rs:835-881 | bytes precede the Resume on a new socket iff their send takes the lock after the install and before the send of the Resume |
| Sockets.FrameOutlivesSocket | src/tracking/client.rs:1033-1040 | a run that gets there: a live frame built before the drop, then the Resume on the new socket, the point unsent and no session open |
| Client.Client.constructor | src/tracking/client.rs:225-257 | a new client is the initial state |
| Client.Client.SendBin | src/tracking/client.rs:871-881 | hands bytes to the writer, or refuses when closed on purpose, without a socket, or with the writer gone |
| Client.Client.TakeFrames | src/tracking/client.rs:772-830 | the locked part of a pass yields exactly the frames of the pass, reading each number back from the frame's bytes |
| Client.Client.FlushQueue | src/tracking/client.rs:770-840 | the loop ends in the state of a full flush, or of one pass when the first send fails |
| Client.Client.BeginDial | src/tracking/client.rs:297-310 | takes the next generation and ends the session |
| Client.Client.InstallDial | src/tracking/client.rs:380-388 | installs iff the dial is the newest and nobody closed |
| Client.Client.OnResumeOk | src/tracking/client.rs:466-487 | takes the cursor, drops what is acked, opens the session and flushes |
| Client.Client.OnAck | src/tracking/client.rs:518-528 | raises the cursor, drops what is acked and flushes |
| Client.Client.OnTrackStarted | src/tracking/client.rs:488-502 | restarts the counters without clearing the queue, opens the session and flushes |
| Client.Client.OnTrackStopped | src/tracking/client.rs:503-517 | drops the track and its queue iff it is this track |
| Client.Client.OnError | src/tracking/client.rs:541-567 | refuses the waiters and drops the track where the code is fatal to it |
| Client.Client.OnSocketClosed | src/tracking/client.rs:654-695 | ignores old sockets; else forgets sends, closes for good or yields the delay of the next dial |
| Client.Client.OnAuthDenied | src/tracking/client.rs:610-618 | closes for good and drops the writer |
| Client.Client.OnAuthRefreshed | src/tracking/client.rs:632-636 | outdates every earlier dial, ends the session and drops the writer, sent marks untouched |
| Client.Client.OnAuthRefreshFailed | src/tracking/client.rs:646-650 | closes for good and leaves the writer |
| Client.Client.StartTrack | src/tracking/client.rs:897-930 | clears and sends TrackStart; a failed send takes the waiting back |
| Client.Client.Publish | src/tracking/client.rs:976-1045 | starts a track when idle with the point as its place, stages what cannot go, sends live what can, and returns the number and verdict |
| Client.PublishOpensTrip | src/tracking/client.rs:976-1012 | the first publish of an idle client puts one frame on the wire, which decodes to a TrackStart with that point as its place, and leaves queue and counters empty; a failed send takes the start back; a point that limiter or filter stops changes nothing |
| Client.Client.ResumeTrack | src/tracking/client.rs:938-958 | moves the cursor and sends Resume; a failed send takes the waiting back |
| Client.Client.SendResume | src/tracking/client.rs:737-752 | sends Resume for the live track with the last number assigned, or nothing without a track |
| Client.Client.Redial | src/tracking/client.rs:654-705 | a dead socket, the delay, a dial that gets through: for a live track with attempts left and no close the wire grows by exactly the Resume of that track at its last number, on the next generation; else by nothing |
| Client.Client.StopTrack | src/tracking/client.rs:1048-1068 | sends TrackStop for the given or the live track; without one it does nothing |
| Client.Client.Close | src/tracking/client.rs:1144-1164 | a last TrackStop for a live track, then closed, nobody waiting, no socket |
| Client.PublishedIsHandled | src/tracking/client.rs:976-1045 | with the writer there, publish is the handler step of the theorems |
| Client.HandlersKeepInv | src/tracking/client.rs:450-1045 | handlers keep the invariant whether or not their sends go through |
| Reconnect.GivesUpClosed | src/tracking/client.rs:654-705 | with N attempts left the loop dials exactly N times, ends closed with nobody waiting, and keeps track and points |
| Reconnect.FullAttemptsAfterInstall | src/tracking/client.rs:381-388 | an installed socket gives the next loop all its attempts |
| Reconnect.WaitBounded | src/tracking/backoff.rs:36-49 | the total wait is at most N times the maximum and at most the geometric sum from the minimum |
| Reconnect.RunReconnects | src/tracking/client.rs:654-705 | the loop on the client object yields one delay per dial, the k-th at most its ceiling, and ends in that state |
| Auth.StepKeepsGood | src/auth.rs:175-249 | every lock section or exchange of any caller keeps one holder of the flag and the history of tokens |
| Auth.SingleFlight | src/auth.rs:175-249 | in any interleaving, at all times: at most one task is inside do_refresh, and one is iff the flag is set; a request presents the stored refresh token, the last one a success returned; the stored triple is whole, that of the last success or, until the holder has stored it, of the one before |
| Auth.CurrentIsWhole | src/auth.rs:243-248 | the stored triple comes whole from one usable reply or from the start |
| Auth.RetiredStaysRetired | src/auth.rs:199-249 | with a server that rotates, a retired refresh token is never presented again |
| Auth.HolderIsHonest | src/auth.rs:178-189 | the caller that refreshed answers true iff its reply was usable and is stored |
| Auth.ReplyDecides | src/auth.rs:200-248 | a triple with all three parts is stored and answered true; after a network error, a status, bad text or a missing part nothing is stored and the answer is false |
| Auth.StoredStaysComplete | src/auth.rs:235-248 | a session that begins with all three parts has them at every moment of every run |
| Auth.WaiterTrustsTheFlag | src/auth.rs:190-196 | in every run a waiter answers true iff it wakes with the flag down; stored is then the last success, without a usable reply since it began to wait the very triple it saw, and with a server that rotates the token changed iff there was one |
| Auth.OneRefreshesOneTrusts | src/auth.rs:175-197 | a run from the start with any reply: the task that refreshed answers what became of it, the one that waited answers true; after a reply of no use the old triple is still stored |
| Auth.ClientAuthSession.Begin | src/auth.rs:177-181 | takes the flag and the stored token, or learns that another caller has it |
| Auth.ClientAuthSession.Keep | src/auth.rs:243-248 | stores all parts of the reply under one lock |
| Auth.ClientAuthSession.End | src/auth.rs:183-186 | lets go of the flag |
| Auth.ClientAuthSession.Recheck | src/auth.rs:192-195 | a woken waiter is done iff nobody refreshes |
| Batch.RunBatch | src/geocoding.rs:123-159 | for every completion order: all values in input order iff no call fails, else the error of the call that finished last; starts in order, at most `concurrency` open and as many as there are until all have started, nothing after the first error |
| Batch.EachFinishesOnce | src/geocoding.rs:144-153 | every call finishes at most once, so no slot is filled twice |
| Batch.AllFilled | src/geocoding.rs:158 | when the loop ends every slot holds the value of its own input, so unwrapping cannot fail |
| Transport.RequestMeaning | src/transport.rs:36-169 | the loop ends with at most max_retries+2 requests, +1 without a successful refresh; the outcome is what the last response means after all earlier ones were retried |
| Transport.RequestOutcome | src/transport.rs:36-169 | in plain statuses: which answer each last response gives, that a 5xx or network error is last only after `max_retries` of them, and a 401 only with an API key, after a failed refresh or after another 401 |
| Transport.OneExplanation | src/transport.rs:36-169 | an environment explains exactly one outcome and one number of requests |
| Transport.DoRequest | src/transport.rs:36-169 | the loop computes that outcome with at most one refresh set off by a 401, none with an API key |

## Left out

- Sockets, HTTP, TLS, timers, randomness and clocks: events, oracles or parameters take their place.
- IEEE floating point: degrees, metres and jitter are reals, so NaN and rounding of intermediate products are not modelled.
- The noise filter and the geometry of collinearity: which points are emitted is an input, and "on the line" is any predicate.
- UUID text, JSON and base64: a UUID is sixteen bytes, empty, or text that is no UUID; spellings of the same bytes are not told apart; error messages taken from response bodies are dropped.
- Loc.LocFramesLossless: numbers stay below 2^32 there; the splitter's own u64 subtraction is assumed not to underflow, as in a build with overflow checks.
- Sockets.StaysStranded: what a dial's task does after its failure is not a step; the report under its generation is one, and a failed reconnect dial makes it while the others drop the error.
- Safety.NoNumberTwice: a live frame omits the time that a flushed frame of the same point carries, so times are excepted; it speaks of one run of the counter, and Tracks.NoNumberTwiceOnTrack of a track.
- Tracks.TrackStaysClear: a session continues by any lock sections but ResumeOk, TrackStarted and manual resume; those open a session anew, and the condition is asked again there.
- Client.Client.Redial: one turn without interleaving, in which the dial gets through and the Resume is asked once; failed dials are Reconnect.RunReconnects and interleavings Handlers.DropResumeCovers.
- Handlers.DropResumeCovers: the install and the asking of the Resume are taken as one step, the Resume is asked once; only the path through a dead socket; relocation and credential redials do not reset the sent marks.
- Handlers.HandleKeeps: handlers do not interleave and sends succeed while a socket is installed; the finer grain is in Safety.
- Auth.SingleFlight: nobody is cancelled in the middle of a refresh, and that waiters are woken at all is not shown.
- Auth: when a proactive refresh is due (clock arithmetic) is not modelled.
- Batch.RunBatch: what each call ends with is given beforehand; cancellation of calls still open after an error is not followed further.
- Transport.DoRequest: URL building, headers and sleeping times are not modelled.
- Client.Client.Publish: a clock, the rate limiter and the filter are the caller's.
- Hello: the version check and the shape of the first frame; a dial either installs or is abandoned.
- Handles of subscriptions, events to listeners, command acks and stamping of device uids: plumbing around the codec.
- Unused queue entries such as `push_inflight_unsent`, and the count that `enqueue` returns.
- HTTP facades, configuration checks, URL helpers and error display: easy one-branch facts.
