# KAL1 acoustic link: verification

A Dafny model of the KAL1 link of `components/kilix-acoustic-link`, with proofs of what the protocol promises and of
where it stops promising. `dafny verify dfyconfig.toml` checks everything.

## What is modelled

- **The link** (`src/kal_link.c`). `LinkSpec.dfy` gives each operation as a function on a value of the link's state;
  `Link.dfy` is the class with the fields and fixed buffers of `struct kal_link`, every method proved to compute its
  function. The protocol theorems are about those functions.
- **The wire** (`src/kal_frame.c`). `Wire.dfy` has the frame record and the canonical-form rules in the order of the
  source, `Codec.dfy` the 64-byte encoding and its buffer code, `Crc32c.dfy` the checksum loop against the polynomial
  definition of RFC 3720.
- **SHA-256** (`src/kal_sha256.c`). `Sha256.dfy`: the streaming context against FIPS 180-4, and `KnownAnswer.dfy`: the
  specification worked through on the published example.
- **The PCM boundary** (`src/kal_modem.c` and the two PCM calls). `Modem.dfy`: the test modem's sliding window and the
  chunk accumulator, with the acoustic engine as a parameter. `Pcm.dfy`: `kal_rx_push_s16`, `kal_tx_pull_s16`, `kal_tick`
  and the reset of the whole.

## What is proved

One link, against arbitrary calls and arbitrary received bytes:

- `Reachable.dfy`, `Invariant.dfy`: runs, and the invariant of every reachable state.
- `Effects.dfy`, `Sessions.dfy`, `Receiving.dfy`: what one event can do to the ring and the sender, to the session, to the
  receiver.
- `Integrity.dfy`, `Acks.dfy`: segmentation against reassembly, and the partial acknowledgement as a round trip.
- `Answers.dfy`, `Mailbox.dfy`: what is owed, and not only allowed: the frames each call and each frame heard must put in
  the ring, the results callers get, the state left behind, and that a staged message is handed over once.
- `Ledger.dfy`, `Timers.dfy`, `Exhaustion.dfy`, `DupCache.dfy`, `Deadlines.dfy`, `Window.dfy`: no acknowledgement-driven
  live-lock, backoff, bounded failure, at-most-once delivery with its real bound, idempotent clock, and what bounds the
  segments outstanding.

Two links:

- `Channel.dfy`, `ChannelSender.dfy`, `ChannelReceiver.dfy`, `EndToEnd.dfy`: the channel is the set of frames already put on
  air; a link hears any of them at any time and any number of times, or something that does not decode. The runs are
  those without beacons in which an opening draws a session id under which nothing was sent before and no (session,
  message id) key carries two different messages: `next_message_id` advances only on a delivered acknowledgement
  (`src/kal_link.c:865`), so a failed transfer's id comes back.
- `Numbering.dfy`: what the ids do in every run, and that the condition on keys holds by itself in runs without resets in
  which no transfer fails (a reset starts the ids over, and a replayed HELLO may reopen an old session).
- `Opening.dfy`: agreement on session and window, with one opening attempt a side.
- `Lossless.dfy`: the exact cost of a transfer on a perfect channel, for every interleaving.
- `Recovery.dfy`: what one lost frame costs: proposals, their answer, the acknowledgement of a window, the receipt of a
  message.
- `Limits.dfy`, `Encounters.dfy`: the guarantees the code does not give, with runs that show it (`Runs.dfy` has the steps
  they are put together from). When a property is false of the code, the code is modelled as it is and the exact
  condition is proved: `Receiving.StepFate` (when an acknowledged segment is given up again; a stale CANCEL of the same
  session is one of the cases, `Limits.StaleCancelDrops`), `Limits.ReplacedSessionKeepsAcks` (acknowledgements are sound
  across a replaced session iff there were none), `Limits.DroppedReassemblyKeepsAcks` (the same across a reassembly given
  up), `Window.StepKeeps` (when more becomes outstanding than the window), `Exhaustion.ExpiryRearms` (an expiry re-arms iff
  the ring has room and a segment is unacknowledged), `Timers.BaseExactly`, `Limits.YieldKeepsBusy`,
  `Limits.ReusedIdSucceedsUndelivered`.

## Reading the proofs

`hide F;` at the head of a proof keeps the body of F out of it; most lemmas need only the contracts of what they mention.
`Step` (`Reachable.dfy`) is one atomic event of a link. A public call is one event, except that a PCM push is a clock
advance followed by one `Receive` for each frame its samples complete, and a PCM pull a clock advance followed by a
`Transmit` when it starts a frame. `Bytes.dfy` states division and the casts between numbers and bytes by counting,
which keeps them out of proofs that do not need them, and proves that they are division and the casts.

## Where the code and its documentation differ

The model follows the code.

- `docs/KAL1-WIRE.md` speaks of five retries per window; the code counts consecutive expiries since the last matching
  acknowledgement or the start of the transfer.
- `docs/KAL1-WIRE.md` gives 2.5 airtimes as the minimum timeout; the division by four truncates, so with one frame of
  an odd airtime the base is less (`Timers.BaseExactly`). It is at least the two airtimes of the repeat guard.
- `include/kilix_acoustic_link.h` lets `KAL_ERR_BUSY` stand for a transfer under way; after an initiator yields none is, and
  the status stays (`Limits.YieldKeepsBusy`).
- The window bounds the frames one call queues (`src/kal_link.c:505-507`), not the frames outstanding: those are bounded
  only by the segments of the message not acknowledged (`Window.OutstandingBound`), and reach that bound
  (`Window.EverySegmentOutstanding`).

## Model

| member | source | states |
|---|---|---|
| `EndToEnd.EndToEndAgreement` | components/kilix-acoustic-link/src/kal_link.c:559-896 | in every run of two links over a channel that loses, duplicates, reorders and corrupts (no beacons, new session ids, one message per key), whatever either side staged for its application is, byte for byte, what the other side was given to send under that key |
| `EndToEnd.CollectedWasSent` | components/kilix-acoustic-link/src/kal_link.c:1216-1235 | in every such run, what `kal_receive` hands over at either side is what the other side was given to send under the key staged last |
| `EndToEnd.SuccessMeansStaged` | components/kilix-acoustic-link/src/kal_link.c:847-867 | the transfer ends in `KAL_OK` only after the peer staged exactly the message being sent, under its key |
| `EndToEnd.SuccessInEveryRun` | components/kilix-acoustic-link/src/kal_link.c:847-867 | the same for the state every run reaches and its next event, at either side |
| `Numbering.StepNumber` | components/kilix-acoustic-link/src/kal_link.c:865 | the next message id advances by two, within 16 bits, exactly at the events that end a transfer in `KAL_OK`; a reset takes it back to the first of the role; no other event moves it |
| `Numbering.NumberInEveryRun` | components/kilix-acoustic-link/src/kal_link.c:865 | in every run it is 0 (initiator) or 1 (responder) plus two for each transfer completed since the last reset, modulo 2^16, and has that parity |
| `Numbering.TransfersToldApart` | components/kilix-acoustic-link/src/kal_link.c:865 | two transfers with fewer than 32768 completed from one to the other, and no reset, have different ids |
| `Numbering.FairIsOrderly` | components/kilix-acoustic-link/src/kal_link.c:559-896 | in a run without beacons and resets, with new session ids, in which no transfer fails and fewer than 32768 complete a side, no key carries two messages: the condition of the end-to-end theorems holds by itself |
| `Numbering.FairRunsAgree` | components/kilix-acoustic-link/src/kal_link.c:559-896 | so in such runs whatever is staged is what was sent under its key, with no condition on keys |
| `EndToEnd.AcknowledgementsAreSound` | components/kilix-acoustic-link/src/kal_link.c:683-896 | in every such run, whatever was lost, duplicated, reordered or replayed, each segment a sender holds acknowledged is stored by its peer with the sender's bytes or its message was staged, unless an event of `Receiving.Drops` gave the reassembly up and it was not staged since, or one of `Channel.Carries` moved a partly acknowledged transfer to a new session |
| `EndToEnd.AcknowledgedMeansReceived` | components/kilix-acoustic-link/src/kal_link.c:683-896 | without such events, told from the state before each event, every acknowledged segment at either side is stored or its message staged |
| `Receiving.StepFate` | components/kilix-acoustic-link/src/kal_link.c:647-1013 | at every event an unfinished reassembly is given up exactly when the event is a reset, an accepted `kal_cancel`, a HELLO that replaces the session, a CANCEL of the open session, or a DATA frame the cache does not answer that names another message or completes this one with bytes that do not verify; else the message is staged or every stored segment is still there |
| `Receiving.StepKeeps` | components/kilix-acoustic-link/src/kal_link.c:647-1107 | an event other than a DATA frame clears the reassembly in those cases and leaves it alone in all others |
| `EndToEnd.EveryRunIsSafe` | components/kilix-acoustic-link/src/kal_link.c:559-1107 | both directions of the channel invariant hold after every run |
| `EndToEnd.FlowAfter` | components/kilix-acoustic-link/src/kal_link.c:559-1107 | one event at either end keeps both directions of the channel invariant |
| `ChannelSender.SenderGoodAfter` | components/kilix-acoustic-link/src/kal_link.c:459-623 | after any event, every DATA frame a link ever said is a segment of the message it was given under that key, and a transfer waiting for a session has queued nothing |
| `ChannelSender.AcksBackedAfter` | components/kilix-acoustic-link/src/kal_link.c:847-896 | an event at the sender marks acknowledged only what the receiver stored or staged, or gave up by an event of `Receiving.Drops` |
| `ChannelReceiver.ReceiverGoodAfter` | components/kilix-acoustic-link/src/kal_link.c:683-845 | after any event, what a link holds in reassembly, has staged, caches and acknowledges is true of what its peer was given to send |
| `ChannelReceiver.StagedMessage` | components/kilix-acoustic-link/src/kal_link.c:712-775 | a completed reassembly of the peer's frames stages precisely the peer's message |
| `ChannelReceiver.AcksStayBacked` | components/kilix-acoustic-link/src/kal_link.c:777-845 | an event at the receiver keeps every acknowledged segment stored or staged unless it is one of `Receiving.Drops`, including replays of stale cached acknowledgements |
| `Opening.OpeningAgreement` | components/kilix-acoustic-link/src/kal_link.c:470-1000 | with one opening attempt a side: only equal profiles open; a link with its own proposal open has a peer open with the same session id and window, the smaller of the two; two open links share both; when both proposed, the session is the smaller id |
| `Opening.EqualProposalsOpenNothing` | components/kilix-acoustic-link/src/kal_link.c:898-1000 | in every such run in which both links have proposed the same id, both are still pending and neither has a session open |
| `Opening.EveryRunShakesHands` | components/kilix-acoustic-link/src/kal_link.c:898-1000 | the opening invariant after every such run |
| `Opening.HandshakeAfter` | components/kilix-acoustic-link/src/kal_link.c:898-1000 | one event at either end keeps it |
| `Sessions.StepSession` | components/kilix-acoustic-link/src/kal_link.c:470-1013 | every event keeps the session, proposes one, gives one up, takes one over by the collision rule, confirms one, or forgets it |
| `Sessions.WindowNeverGrows` | components/kilix-acoustic-link/src/kal_link.c:942 | the negotiated window stays in 1..16 and never grows |
| `DupCache.AtMostOnce` | components/kilix-acoustic-link/src/kal_link.c:202-252 | two deliveries of one (session, message) key are at least 64 frame airtimes apart, or eight other deliveries apart, or separated by a wipe of the cache, when the clock advances between deliveries |
| `DupCache.KeysDistinctInEveryRun` | components/kilix-acoustic-link/src/kal_link.c:221-252 | unexpired keys of the cache are pairwise distinct in every run |
| `DupCache.VictimIsOldest` | components/kilix-acoustic-link/src/kal_link.c:221-252 | `dup_store` takes a free or expired slot if there is one and otherwise evicts the entry that expires first |
| `DupCache.LookupMisses` | components/kilix-acoustic-link/src/kal_link.c:202-219 | `dup_lookup` misses exactly when no unexpired entry has the key |
| `DupCache.StepDup` | components/kilix-acoustic-link/src/kal_link.c:777-1034 | what any event does to the cache: wiped, one key filed after a miss, or only expired entries dropped |
| `DupCache.RunTracks` | components/kilix-acoustic-link/src/kal_link.c:202-252 | the last eight stores since a wipe are still cached as long as they have not expired |
| `Ledger.NoAckLiveLock` | components/kilix-acoustic-link/src/kal_link.c:500-544 | in every run a transfer has queued each segment at most once since its last deadline expiry, and at most `tx_total` * (expiries + 1) DATA frames in all |
| `Ledger.AckedNeverRequeued` | components/kilix-acoustic-link/src/kal_link.c:872-891 | acknowledged segments stay acknowledged and are never queued again; the acknowledged and on-air sets stay disjoint; `tx_base` never moves back |
| `Effects.StepEffect` | components/kilix-acoustic-link/src/kal_link.c:500-1107 | every event appends to the ring only frames derived from the state it leaves, and DATA only for segments neither acknowledged nor on air |
| `Timers.BackoffInEveryRun` | components/kilix-acoustic-link/src/kal_link.c:145-156 | in every run the k-th consecutive expiry leaves the timeout at min(2^k, 8) times a base of at least two airtimes, two and a half up to the truncated division |
| `Timers.BaseExactly` | components/kilix-acoustic-link/src/kal_link.c:145-156 | the base is at least two and a half airtimes exactly when two frames are in flight or the airtime is even; never below two airtimes, and equal to two only for one frame of one millisecond |
| `Timers.BaseIsFiveQuarters` | components/kilix-acoustic-link/src/kal_link.c:145-156 | the base is `5 * airtime * (n + 1) / 4` for n frames in flight, at least one, and the ceiling eight times that, so a window of n frames and one more can go on air before it passes |
| `Timers.ResumeAllowsForFrames` | components/kilix-acoustic-link/src/kal_link.c:534-544 | whenever `start_or_resume_tx` queues q frames on a first transmission, the deadline it arms is at least q + 1 airtimes away |
| `Timers.DoublingsIsCappedPower` | components/kilix-acoustic-link/src/kal_link.c:1085-1088 | the backoff factor is 2^k capped at 8 |
| `Timers.StepTimer` | components/kilix-acoustic-link/src/kal_link.c:1063-1107 | only an expiry with retries left doubles the timeout; any other event keeps it or recomputes it |
| `Exhaustion.OpeningEndsInTimeout` | components/kilix-acoustic-link/src/kal_link.c:1073-1090 | whatever is heard or asked for meanwhile (noise, repeats, DATA, beacons, refused frames and calls), an opening that is not answered, cancelled or reset survives exactly `max_retries` expiries and ends in `KAL_ERR_TIMEOUT` at the next, whatever the state of the ring |
| `Exhaustion.TransferEndsInTimeout` | components/kilix-acoustic-link/src/kal_link.c:1092-1106 | so does a transfer without a matching acknowledgement, session change, cancel or reset, when each expiry that resends finds room in the ring; the last needs none |
| `Exhaustion.QuietUntouched` | components/kilix-acoustic-link/src/kal_link.c:559-1059 | an event that is not one of those, nor the passing of time, changes neither session, deadline nor transfer |
| `Exhaustion.ExpiryRearms` | components/kilix-acoustic-link/src/kal_link.c:1092-1106 | an expiry arms the next deadline exactly when the ring has room and a segment is unacknowledged |
| `Exhaustion.UnarmedStalls` | components/kilix-acoustic-link/src/kal_link.c:1063-1069 | without a deadline, time alone changes nothing |
| `Exhaustion.CancelLeavesOpeningStuck` | components/kilix-acoustic-link/src/kal_link.c:546-557 | `kal_cancel` during an opening leaves it pending with no deadline |
| `Exhaustion.StuckStays` | components/kilix-acoustic-link/src/kal_link.c:546-1107 | through any run of such events, a later `kal_send` and any amount of time included, an opening without a deadline stays pending without one |
| `Lossless.LosslessCompletion` | components/kilix-acoustic-link/src/kal_link.c:500-896 | on an in-order lossless channel with window w, an idle receiver and no expiry, for every interleaving of transmissions, receptions and waits: at most n DATA frames and K = ceil(n / w) acknowledgements go on air, some frame can move until 2(n + K) events of the run have sent or delivered one, and then the message is staged, the transfer ended in `KAL_OK`, and exactly n and K were sent |
| `Lossless.SendStarts` | components/kilix-acoustic-link/src/kal_link.c:559-623 | `kal_send` on an open idle link puts exactly the first window on air |
| `Lossless.HearsSegment` | components/kilix-acoustic-link/src/kal_link.c:777-845 | the next segment in order is stored, and acknowledged with exactly what was received when it ends its window or the message, else not |
| `Lossless.HearsReply` | components/kilix-acoustic-link/src/kal_link.c:847-896 | the acknowledgement of a window puts exactly the next window in the ring, or ends the transfer in `KAL_OK` |
| `Recovery.AcknowledgementLost` | components/kilix-acoustic-link/src/kal_link.c:815-1107 | the acknowledgement of a window is lost: the deadline puts the window in the ring again, its first frame is answered with the acknowledgement that was lost, and hearing that the sender queues the next window with its retries taken back |
| `Recovery.ReceiptLost` | components/kilix-acoustic-link/src/kal_link.c:785-1107 | the receipt of a message is lost: the last window goes out again, its first frame is answered with the remembered receipt and staged no second time, and hearing that the transfer ends in `KAL_OK` |
| `Recovery.OpensAtLast` | components/kilix-acoustic-link/src/kal_link.c:470-1090 | an opening of which the first k proposals are lost, for any k up to `max_retries`, opens when the next one and its answer get through, on the drawn id, at the smaller window, with the first window of the message queued |
| `Recovery.AnswerLost` | components/kilix-acoustic-link/src/kal_link.c:920-1090 | the answer to a proposal is lost: the proposal is made again, answered as before, and the session opens |
| `Recovery.WaitingBegins` | components/kilix-acoustic-link/src/kal_link.c:934-968 | a responder given a message before any session sends its first window right behind its answer to the opening |
| `Invariant.RunInv` | components/kilix-acoustic-link/src/kal_link.c:559-1235 | the link invariant after every sequence of calls and any received bytes: `rx_count` counts `rx_received`, reassembly is active iff 1 <= count < total <= 94 and belongs to the open session, segments have the length of their position, acknowledged and on-air sets are disjoint, `tx_base` is the acknowledged prefix, an active transfer is `KAL_ERR_BUSY` |
| `Invariant.StepInv` | components/kilix-acoustic-link/src/kal_link.c:559-1235 | every event keeps it, whatever its arguments |
| `Invariant.FramesBuiltAreCanonical` | components/kilix-acoustic-link/src/kal_frame.c:97-194 | a frame built in any state whose transfer is that of a reachable state, one loaded from it, or none, is canonical, so `queue_frame` fails only on a full ring |
| `Effects.StepWithin` | components/kilix-acoustic-link/src/kal_link.c:500-1107 | every event leaves such a state |
| `Invariant.HelloFramesCanonical` | components/kilix-acoustic-link/src/kal_link.c:459-468 | HELLO and HELLO_ACK are canonical and carry profile and window |
| `Invariant.AckFramesCanonical` | components/kilix-acoustic-link/src/kal_link.c:683-767 | partial and delivered acknowledgements are canonical |
| `Integrity.SegmentationIsLossless` | components/kilix-acoustic-link/src/kal_link.c:580-598 | the chunks `kal_send` cuts concatenate to the message and its SHA-256 digest |
| `Integrity.ReassemblyInvertsSegmentation` | components/kilix-acoustic-link/src/kal_link.c:720-775 | reassembling those chunks yields the message, or nothing when it exceeds the receiver's limit |
| `Integrity.CompleteIsAcceptedExactly` | components/kilix-acoustic-link/src/kal_link.c:720-748 | of the rejections of `finish_rx_message` only the digest and the length bounds can fire: no segment is missing and the segment count agrees |
| `Integrity.VerifiedExactly` | components/kilix-acoustic-link/src/kal_link.c:734-748 | acceptance means exactly that the bytes are an admissible message followed by its digest |
| `Integrity.DeliveryImpliesIntegrity` | components/kilix-acoustic-link/src/kal_link.c:777-845 | `KAL_DELIVERED` from DATA happens exactly when a frame completes such a reassembly; otherwise the staged message is untouched |
| `Acks.PartialAckRoundTrip` | components/kilix-acoustic-link/src/kal_link.c:668-888 | applying the acknowledgement built from R with first gap b adds exactly R in [0,b) or [b+1,b+16], never b, and leaves `tx_base` the maximal acknowledged prefix |
| `Acks.BitmapBit` | components/kilix-acoustic-link/src/kal_link.c:683-697 | bit i of the map stands for segment base + 1 + i |
| `Answers.RepeatAcknowledged` | components/kilix-acoustic-link/src/kal_link.c:815-829 | a stored segment of the message in reassembly that comes again with its bytes is acknowledged again: with the last acknowledgement, or before the first with one that names exactly the stored segments in its reach; with other bytes it is refused; either way nothing stored or staged changes |
| `Answers.SegmentAnswered` | components/kilix-acoustic-link/src/kal_link.c:797-845 | a missing segment of a message the link may take is stored, in whatever order it comes; when the count reaches a multiple of the window, what is stored is acknowledged |
| `Answers.CompletionAnswered` | components/kilix-acoustic-link/src/kal_link.c:712-775 | the segment that completes a message leaves nothing in reassembly, and is answered with the receipt exactly when the bytes verify |
| `Answers.RefusedExactly` | components/kilix-acoustic-link/src/kal_link.c:777-1059 | for each type of frame, the exact condition under which it is a protocol error; such a frame changes nothing but expired entries of the cache |
| `Answers.ReceiptAnswers` | components/kilix-acoustic-link/src/kal_link.c:847-867 | the receipt of the whole message ends the transfer in `KAL_OK` with no deadline and the next id; with another count it is refused and changes nothing |
| `Answers.PartialAnswers` | components/kilix-acoustic-link/src/kal_link.c:868-896 | a partial acknowledgement takes back the retries and leaves a deadline armed |
| `Answers.ClockFollows` | components/kilix-acoustic-link/src/kal_link.c:1063-1069 | the clock of the link is the latest time a caller gave, and never goes back |
| `Answers.OpeningResends` | components/kilix-acoustic-link/src/kal_link.c:1073-1090 | an opening whose deadline passes with retries left puts the same proposal in the ring whenever there is room, counts a retry and arms the next deadline |
| `Answers.GivingUpCancels` | components/kilix-acoustic-link/src/kal_link.c:1092-1106 | a transfer given up leaves status `KAL_ERR_TIMEOUT`, no deadline, and a CANCEL of it with reason 2 whenever there is room |
| `Answers.SendAnswers` | components/kilix-acoustic-link/src/kal_link.c:559-623 | `kal_send`: too long is `KAL_ERR_INVALID`, during a transfer `KAL_ERR_BUSY`, both without effect; else the message is loaded under the next id and the result is `KAL_OK`, unless a session must be proposed and cannot be, which drops it again with that status |
| `Answers.SendProposes` | components/kilix-acoustic-link/src/kal_link.c:470-495 | the opening `kal_send` starts queues a HELLO with the drawn id and challenge and the link's profile and window, and arms its deadline |
| `Answers.BeaconAnswers` | components/kilix-acoustic-link/src/kal_link.c:625-645 | `kal_beacon` queues the whole payload under the session and the next message id, or says why not and changes nothing |
| `Answers.CancelAnswers` | components/kilix-acoustic-link/src/kal_link.c:546-657 | `kal_cancel` leaves nothing to send, nothing in reassembly, no deadline and status `KAL_ERR_CANCELLED`, and queues a CANCEL with the reason whenever there is room |
| `Answers.TakeAnswers` | components/kilix-acoustic-link/src/kal_link.c:1216-1235 | `kal_receive`: success hands over the message and leaves nothing staged; too small a buffer is refused and keeps it; nothing staged is `KAL_WANT_INPUT` |
| `Answers.ResetIsNew` | components/kilix-acoustic-link/src/kal_link.c:424-455 | a reset link is a new link but for the window and the clock |
| `Answers.RepeatIgnored` | components/kilix-acoustic-link/src/kal_link.c:1144-1159 | the frame heard last has no effect for two airtimes; any other is noted with the time |
| `Answers.HelloAnsweredAgain` | components/kilix-acoustic-link/src/kal_link.c:920-933 | a HELLO for the session already open is answered as the first time whenever there is room, and changes nothing |
| `Answers.HelloAnswered` | components/kilix-acoustic-link/src/kal_link.c:934-968 | a HELLO taken over opens its session under its challenge at the agreed window, and is answered with exactly those |
| `Answers.ConfirmationAnswers` | components/kilix-acoustic-link/src/kal_link.c:970-1000 | the confirmation of a proposal opens the session at the agreed window; the proposal's deadline is gone, and the only one left is that of the window it queues |
| `Answers.CancelHeard` | components/kilix-acoustic-link/src/kal_link.c:1002-1013 | a CANCEL of the open session ends both directions and is reported; of another it is refused and changes nothing |
| `Answers.AdmitAnswers` | components/kilix-acoustic-link/src/kal_link.c:286-352 | admitted options keep what was asked for and zeros become 4096 bytes, a window of four and five retries; refused ones are `KAL_ERR_UNSUPPORTED` for another sample rate or high frequencies not asked for, else `KAL_ERR_INVALID` |
| `Mailbox.ReportedExactly` | components/kilix-acoustic-link/src/kal_link.c:777-1034 | a frame is reported delivered exactly when it stages something, which is the verified message or a beacon heard for the first time with nothing waiting, and cancelled exactly when it is a CANCEL of the open session |
| `Mailbox.StepStages` | components/kilix-acoustic-link/src/kal_link.c:750-1235 | a staged message stays as it is until it is collected, the link is reset, or the message being reassembled meanwhile completes |
| `Mailbox.CollectionsBounded` | components/kilix-acoustic-link/src/kal_link.c:1216-1235 | in every run successful collections and the message still waiting never outnumber deliveries |
| `Mailbox.CollectedOnce` | components/kilix-acoustic-link/src/kal_link.c:1216-1235 | between two successful collections another message was delivered |
| `Limits.ReusedIdSucceedsUndelivered` | components/kilix-acoustic-link/src/kal_link.c:785-792 | a message id used again while remembered is never delivered, yet ends in `KAL_OK` exactly when the segment counts agree |
| `Encounters.ReusedIdEndsInSuccess` | components/kilix-acoustic-link/src/kal_link.c:559-867 | a run of two links, each frame heard as the other side sent it, in which the second of two messages ends in `KAL_OK` at the sender and all the receiver ever staged is the first |
| `Limits.BeaconLostBehindMessage` | components/kilix-acoustic-link/src/kal_link.c:750-753 | a beacon staged in mid-reassembly is replaced uncollected |
| `Limits.BeaconMasksData` | components/kilix-acoustic-link/src/kal_link.c:785-1034 | once a beacon is staged, DATA of its session and message id finds the row kept for the beacon while that lives, and is neither stored nor delivered |
| `Limits.YieldKeepsBusy` | components/kilix-acoustic-link/src/kal_link.c:910-916 | the yielding initiator loses its message but keeps status `KAL_ERR_BUSY`; it yields exactly to a smaller id |
| `Limits.EqualIdsNeitherYields` | components/kilix-acoustic-link/src/kal_link.c:912-914 | equal session ids yield on neither side |
| `Limits.ReplacedSessionKeepsAcks` | components/kilix-acoustic-link/src/kal_link.c:934-941 | after a HELLO that replaces the session in mid-transfer, with a peer that has nothing under the new key, every segment held acknowledged is backed exactly when none had been acknowledged before |
| `Limits.NothingUnderUnusedKey` | components/kilix-acoustic-link/src/kal_link.c:683-896 | a peer has nothing under a key the sender never used, as when the new session id is new |
| `Encounters.ReplacementStrandsAck` | components/kilix-acoustic-link/src/kal_link.c:934-941 | a run of two links after which a segment is held acknowledged that the peer neither stored nor staged nor gave up |
| `Limits.StaleCancelDrops` | components/kilix-acoustic-link/src/kal_link.c:1002-1013 | a CANCEL of the open session gives the reassembly up whichever message it names |
| `Limits.DroppedReassemblyKeepsAcks` | components/kilix-acoustic-link/src/kal_link.c:683-1107 | after an event that gives up the reassembly of a transfer not staged, every segment the sender holds acknowledged is safe exactly when none had been acknowledged |
| `Encounters.CancelStrandsAck` | components/kilix-acoustic-link/src/kal_link.c:647-1013 | a run of two links, the last frame heard late but sent by the peer, after which a segment is held acknowledged that the peer neither stores nor has staged |
| `Limits.LatestForgottenAtOneInstant` | components/kilix-acoustic-link/src/kal_link.c:237-240 | at one instant a full cache evicts the entry stored last |
| `Limits.DeliveredTwiceAtOnce` | components/kilix-acoustic-link/src/kal_link.c:1015-1034 | a run that delivers one key twice at one instant with one other frame heard between |
| `Window.QueuesLeast` | components/kilix-acoustic-link/src/kal_link.c:505-532 | one call of `queue_window` queues the least of the window, the segments neither acknowledged nor on air, and the room in the ring, each one more segment outstanding |
| `Window.QueuesFirst` | components/kilix-acoustic-link/src/kal_link.c:505-532 | what it queues are the DATA frames of the first such segments, in order |
| `Window.OutstandingAfterAck` | components/kilix-acoustic-link/src/kal_link.c:869-896 | after a partial acknowledgement the segments outstanding are those it leaves on air plus that least; they fit the window exactly when that sum does |
| `Window.StepKeeps` | components/kilix-acoustic-link/src/kal_link.c:559-1107 | from a state with no more outstanding than the window, and nothing on air of a transfer not started, every event leaves such a state, except exactly these frames: a partial acknowledgement whose sum is above the window, a HELLO taken over whose window is below what is on air, and a HELLO_ACK whose window is below what is on air and queued |
| `Window.WindowInEveryRun` | components/kilix-acoustic-link/src/kal_link.c:559-1107 | so in every run without such a frame the segments outstanding never exceed the window |
| `Window.OutstandingBound` | components/kilix-acoustic-link/src/kal_link.c:505-532 | in every run the segments outstanding and those acknowledged are together at most the segments of the message |
| `Window.EverySegmentOutstanding` | components/kilix-acoustic-link/src/kal_link.c:869-896 | that bound is reached whatever the window: for every message a responder accepts there is a run with all its segments outstanding at once |
| `Pcm.ChunkingInvariance` | components/kilix-acoustic-link/src/kal_link.c:1123-1165 | pushing a + b at one time leaves link and modem as pushing a and then b at that time |
| `Pcm.ChunkingInEveryRun` | components/kilix-acoustic-link/src/kal_link.c:1123-1165 | the same for every link a run reaches |
| `Pcm.PushPunctual` | components/kilix-acoustic-link/src/kal_link.c:1123-1133 | a push is heard at the caller's time, and no deadline that has passed is left |
| `Pcm.PushReports` | components/kilix-acoustic-link/src/kal_link.c:1131-1165 | a push returns the last delivery or cancellation among the frames it completed; without one, a delivery if a message waits |
| `Deadlines.AdvanceAgain` | components/kilix-acoustic-link/src/kal_link.c:1063-1069 | `advance_time` at a time already reached changes nothing |
| `Deadlines.HearPunctual` | components/kilix-acoustic-link/src/kal_link.c:1036-1059 | hearing a frame arms no deadline that has passed |
| `Pcm.PulledInOrder` | components/kilix-acoustic-link/src/kal_link.c:1169-1212 | for any interleaving and capacities, since the last reset, rows leave the ring in the order queued and the samples pulled are a prefix of their encodings |
| `Pcm.BusyHoldsBack` | components/kilix-acoustic-link/src/kal_link.c:1185-1212 | on a busy channel no frame starts, and samples come exactly from one already on air |
| `Pcm.Port.Tick` | components/kilix-acoustic-link/src/kal_link.c:1109-1119 | `kal_tick` advances the clock and says what to do next |
| `Pcm.ProspectIsPull` | components/kilix-acoustic-link/src/kal_link.c:1117-1118 | it reports a message exactly when one waits, else output exactly when a pull on a free channel yields samples (with an engine that encodes what is in the ring), else that input is wanted |
| `Pcm.Port.Reset` | components/kilix-acoustic-link/src/kal_link.c:424-455 | `kal_link_reset` resets the link, drops the frame on air and the modem's partial chunk, and keeps the engine |
| `Pcm.Port.PushS16` | components/kilix-acoustic-link/src/kal_link.c:1123-1165 | the push loop leaves the state of the sample-by-sample function and returns the last delivery or cancellation, or a delivery still waiting |
| `Pcm.Port.PullS16` | components/kilix-acoustic-link/src/kal_link.c:1169-1212 | the pull computes its specification: what is on air first, then the oldest row when the channel is free |
| `Modem.SelfSynchronisation` | components/kilix-acoustic-link/src/kal_modem.c:217-270 | from any window state the 68 samples of an encoded frame give exactly one decode, at the last sample, equal to the frame |
| `Modem.TestModem.Feed` | components/kilix-acoustic-link/src/kal_modem.c:240-270 | one call of `test_feed` on the sliding window |
| `Modem.Accumulator.RxFeed` | components/kilix-acoustic-link/src/kal_modem.c:303-340 | `kal_modem_rx_feed`: samples collect until a chunk is full, then the engine decodes it |
| `Modem.EngineHearsChunks` | components/kilix-acoustic-link/src/kal_modem.c:303-340 | a stream fed in any portions reaches the engine as whole chunks end to end: no sample is lost, heard twice or out of order |
| `Modem.TestModem.RxReset` | components/kilix-acoustic-link/src/kal_modem.c:349-359 | a reset empties and wipes the test modem's window |
| `Modem.Accumulator.RxReset` | components/kilix-acoustic-link/src/kal_modem.c:349-359 | a reset drops and wipes the partial chunk and keeps the engine's state |
| `Codec.DecodeEncode` | components/kilix-acoustic-link/src/kal_frame.c:196-273 | decoding undoes encoding |
| `Codec.EncodeDecode` | components/kilix-acoustic-link/src/kal_frame.c:196-273 | encoding undoes decoding byte for byte, so each state has one spelling |
| `Codec.EncodingIsInjective` | components/kilix-acoustic-link/src/kal_frame.c:196-224 | frames are equal exactly when their encodings are |
| `Codec.Layout` | components/kilix-acoustic-link/src/kal_frame.c:196-224 | where each field stands in the 64 bytes, as big-endian numbers |
| `Codec.DamageIsRefused` | components/kilix-acoustic-link/src/kal_frame.c:239-247 | damage within four consecutive bytes before the trailer, or inside the trailer, is always refused |
| `Codec.EncodeInto` | components/kilix-acoustic-link/src/kal_frame.c:196-224 | the buffer code computes the encoding, or the status of the first violated rule |
| `Codec.DecodeFrom` | components/kilix-acoustic-link/src/kal_frame.c:226-273 | the buffer code computes the decoding |
| `Codec.CheckPadding` | components/kilix-acoustic-link/src/kal_frame.c:80-90 | `padding_is_zero` holds exactly when every padding byte is zero |
| `Wire.SegmentCount` | components/kilix-acoustic-link/src/kal_frame.c:60-77 | the least number of 44-byte segments for message and digest, for messages up to 4096 bytes |
| `Wire.CanonicalExactly` | components/kilix-acoustic-link/src/kal_frame.c:97-194 | the checks accept exactly the frames of the canonical form: for each of the six types its flags, counts and payload length |
| `Crc32c.ChecksumIsPolynomialRemainder` | components/kilix-acoustic-link/src/kal_frame.c:29-44 | the CRC is the CRC32C polynomial remainder of section 12.1 of RFC 3720 |
| `Crc32c.BurstDetected` | components/kilix-acoustic-link/src/kal_frame.c:29-44 | inputs of one length that differ only inside four consecutive bytes have different CRCs |
| `Crc32c.StepInjective` | components/kilix-acoustic-link/src/kal_frame.c:37-41 | the bit step is injective |
| `Crc32c.Checksum` | components/kilix-acoustic-link/src/kal_frame.c:29-44 | the nested loops of `kal_crc32c` compute that CRC |
| `Sha256.Hash` | components/kilix-acoustic-link/src/kal_sha256.c:195-207 | `kal_sha256` is SHA-256 of FIPS 180-4 for messages below 2^61 bytes |
| `KnownAnswer.DigestOfAbc` | components/kilix-acoustic-link/src/kal_sha256.c:24-207 | the digest of "abc" is the published one, so the specification of the hash has its constants, rotations, order and padding right |
| `Sha256.Context.Update` | components/kilix-acoustic-link/src/kal_sha256.c:144-158 | any split across updates absorbs the concatenation |
| `Sha256.Context.Final` | components/kilix-acoustic-link/src/kal_sha256.c:161-192 | padding (one or two blocks) and length give the digest of sections 5.1.1 and 6.2.2 of FIPS 180-4 |
| `Sha256.Context.Transform` | components/kilix-acoustic-link/src/kal_sha256.c:24-127 | the 64-round loop is the block function |
| `Sha256.DigestEqual` | components/kilix-acoustic-link/src/kal_sha256.c:210-218 | the constant-time comparison is equality |
| `LinkSpec.Admit` | components/kilix-acoustic-link/src/kal_link.c:286-352 | `kal_link_create` admits options exactly when every field is in range and the high-frequency profile is asked for explicitly, and then they are a valid configuration |
| `LinkMachine.Create` | components/kilix-acoustic-link/src/kal_link.c:286-391 | the error of the first violated rule and no link, or a new link in the initial state of the admitted configuration |
| `LinkMachine.Link.constructor` | components/kilix-acoustic-link/src/kal_link.c:336-391 | the field-by-field code computes its specification: the created link is the initial state |
| `LinkMachine.Link.Recompute` | components/kilix-acoustic-link/src/kal_link.c:145-156 | the field-by-field code computes its specification: timeouts from airtime and frames in flight, five quarters of the airtimes |
| `LinkMachine.Link.QueueFrame` | components/kilix-acoustic-link/src/kal_link.c:168-179 | the field-by-field code computes its specification: a canonical frame joins the ring unless it is full |
| `LinkMachine.Link.QueueEncoded` | components/kilix-acoustic-link/src/kal_link.c:181-190 | the field-by-field code computes its specification: a row joins the ring unless it is full |
| `LinkMachine.Link.ClearRx` | components/kilix-acoustic-link/src/kal_link.c:256-269 | the field-by-field code computes its specification: reassembly emptied |
| `LinkMachine.Link.ClearTx` | components/kilix-acoustic-link/src/kal_link.c:271-284 | the field-by-field code computes its specification: transfer emptied |
| `LinkMachine.Link.Reset` | components/kilix-acoustic-link/src/kal_link.c:424-455 | the field-by-field code computes its specification: everything forgotten but window and clock |
| `LinkMachine.Link.OpenSession` | components/kilix-acoustic-link/src/kal_link.c:470-495 | the field-by-field code computes its specification: a session is proposed, or the error that prevents it |
| `LinkMachine.Link.QueueWindow` | components/kilix-acoustic-link/src/kal_link.c:500-532 | the field-by-field code computes its specification: the unacknowledged segments not on air, from the base, up to a window and the room in the ring |
| `LinkMachine.Link.StartOrResume` | components/kilix-acoustic-link/src/kal_link.c:534-544 | the field-by-field code computes its specification: and the deadline armed when anything was queued |
| `LinkMachine.Link.FailTx` | components/kilix-acoustic-link/src/kal_link.c:546-557 | the field-by-field code computes its specification: CANCEL queued, transfer dropped with a status |
| `LinkMachine.Link.Send` | components/kilix-acoustic-link/src/kal_link.c:559-623 | the field-by-field code computes its specification: accepted, refused or queued behind an opening |
| `LinkMachine.Link.Beacon` | components/kilix-acoustic-link/src/kal_link.c:625-645 | the field-by-field code computes its specification: a beacon queued or refused |
| `LinkMachine.Link.Cancel` | components/kilix-acoustic-link/src/kal_link.c:647-657 | the field-by-field code computes its specification: both directions dropped |
| `LinkMachine.Link.QueuePartialAck` | components/kilix-acoustic-link/src/kal_link.c:683-710 | the field-by-field code computes its specification: the acknowledgement cached and queued |
| `LinkMachine.Link.FinishRx` | components/kilix-acoustic-link/src/kal_link.c:712-775 | the field-by-field code computes its specification: the message staged, acknowledged and remembered, or destroyed |
| `LinkMachine.Link.HandleData` | components/kilix-acoustic-link/src/kal_link.c:777-845 | the field-by-field code computes its specification: replay, back-pressure, repeated segment acknowledged again, conflict, new segment or last segment |
| `LinkMachine.Link.HandleAck` | components/kilix-acoustic-link/src/kal_link.c:847-896 | the field-by-field code computes its specification: completion and the next id, selective marking and resumption |
| `LinkMachine.Link.HandleHello` | components/kilix-acoustic-link/src/kal_link.c:898-968 | the field-by-field code computes its specification: collision, replay, rejection, replacement or opening |
| `LinkMachine.Link.HandleHelloAck` | components/kilix-acoustic-link/src/kal_link.c:970-1000 | the field-by-field code computes its specification: confirmation of the own proposal |
| `LinkMachine.Link.HandleCancel` | components/kilix-acoustic-link/src/kal_link.c:1002-1013 | the field-by-field code computes its specification: both directions dropped on the peer's word |
| `LinkMachine.Link.HandleBeacon` | components/kilix-acoustic-link/src/kal_link.c:1015-1034 | the field-by-field code computes its specification: a beacon staged once |
| `LinkMachine.Link.HandleFrame` | components/kilix-acoustic-link/src/kal_link.c:1036-1059 | the field-by-field code computes its specification: dispatch by type |
| `LinkMachine.Link.Hear` | components/kilix-acoustic-link/src/kal_link.c:1144-1159 | the field-by-field code computes its specification: the repeat guard, then decode and dispatch |
| `LinkMachine.Link.AdvanceTime` | components/kilix-acoustic-link/src/kal_link.c:1063-1107 | the field-by-field code computes its specification: clock, expiry, what is sent again, and give-up |
| `LinkMachine.Link.TakeRow` | components/kilix-acoustic-link/src/kal_link.c:1195-1203 | the field-by-field code computes its specification: the oldest row leaves the ring |
| `LinkMachine.Link.Collect` | components/kilix-acoustic-link/src/kal_link.c:1216-1235 | the field-by-field code computes its specification: the staged message handed over and gone |
| `LinkMachine.FirstMissing` | components/kilix-acoustic-link/src/kal_link.c:668-676 | the loop over the fixed buffer computes the first segment not received |
| `LinkMachine.SelectiveBitmap` | components/kilix-acoustic-link/src/kal_link.c:689-697 | the loop over the fixed buffer computes the selective bitmap |
| `LinkMachine.MarkNamed` | components/kilix-acoustic-link/src/kal_link.c:872-885 | the loop over the fixed buffer computes exactly the named segments marked |
| `LinkMachine.FirstUnacked` | components/kilix-acoustic-link/src/kal_link.c:886-888 | the loop over the fixed buffer computes the base moved to the first unacknowledged segment |
| `LinkMachine.Cut` | components/kilix-acoustic-link/src/kal_link.c:589-598 | the loop over the fixed buffer computes the transfer cut into its chunks |
| `LinkMachine.ScanDuplicates` | components/kilix-acoustic-link/src/kal_link.c:202-219 | the loop over the fixed buffer computes the cache scan, vacating expired entries it passes |
| `LinkMachine.StoreDuplicate` | components/kilix-acoustic-link/src/kal_link.c:221-252 | the loop over the fixed buffer computes the victim scan and store |
| `LinkMachine.CheckTransfer` | components/kilix-acoustic-link/src/kal_link.c:730-748 | the loop over the fixed buffer computes length, count and digest of a complete transfer |

## Left out

- Clock width: `now_ms` is a natural number; wrap-around of the 64-bit millisecond clock is not modelled, nor overflow of deadlines.
- Integer widths of counters: retry counters, indices and totals are natural numbers bounded by the invariant; message ids, capability words and wire fields keep their widths, and `next_message_id` wraps at 16 bits.
- `Opening.OpeningAgreement`: one opening attempt a side, without reset or exhausted retries, because a second attempt may reuse stale replies.
- `DupCache.AtMostOnce`: assumes the clock advances between deliveries; at one instant the eviction order fails, as `Limits.DeliveredTwiceAtOnce` shows.
- `EndToEnd.AcknowledgementsAreSound`: not for a partly acknowledged transfer after a replacing session took it over, where it is false (`Limits.ReplacedSessionKeepsAcks`, `Encounters.ReplacementStrandsAck`), nor for a reassembly given up, which `Receiving.StepFate` delimits exactly and where it is false too (`Limits.DroppedReassemblyKeepsAcks`, `Encounters.CancelStrandsAck`).
- `Invariant.FramesBuiltAreCanonical`: that the states inside a handler, between the calls it makes, have such a transfer is seen in the handlers, not proved; `Effects.StepWithin` proves it of the states events leave.
- `EndToEnd.EndToEndAgreement`: a link does not hear its own frames; echoes are not modelled.
- `Numbering.FairIsOrderly`: not for runs with a reset, where ids start over and a HELLO heard again may reopen an old session.
- `Recovery.AcknowledgementLost`: one lost acknowledgement at a time, as in the other laws of `Recovery.dfy`; delivery under any pattern of loss cannot be promised with bounded retries.
- `Exhaustion.TransferEndsInTimeout`: the room each expiry that resends needs in the ring is stated as a condition, with `Exhaustion.ExpiryRearms` and `Exhaustion.UnarmedStalls` for what happens without it.
- `Lossless.LosslessCompletion`: frames travel as their 64 bytes, through the repeat guard; the modem's samples are covered elsewhere.
- `LinkMachine.Link.OpenSession`: entropy is delivered or not; the bytes a generator that fails half-way may leave in the challenge buffer are not modelled.
- Statistics counters: only the counts a property needs are kept, outside the link.
- Queue rows and cached replies: held as frames rather than as 64 bytes; the codec theorems make that lossless. The all-zero row a beacon leaves in the duplicate cache is a value of its own.
- Payload rows: a segment buffer row is a sequence of its length's bytes rather than a fixed array with a length beside it; the transfer scratch buffer and the staged message are values, so their wiping is not modelled.
- `LinkMachine.Link.Reset`: the frame on air and the modem are reset in `Pcm.Port.Reset`.
- `LinkMachine.Create`: takes the airtime the modem measures; creating the modem, allocation and freeing are not part of this model.
- The acoustic engine (ggwave), its airtime measurement and its carrier sense: parameters.
- `Modem.TestModem.Feed`: `test_encode` is the function `TestEncode`; only the receiving side is an imperative method.
- `kal_describe_frame`, `kal_tx_status`, `kal_next_deadline`, string tables and null-pointer checks: not part of this model.
- The audio and command-line tools and the noise channel of `tools/`: not part of this model.
- Collision resistance of SHA-256 and detection probabilities of the CRC: no probabilistic statement is made.
