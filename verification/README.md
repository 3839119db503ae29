# Verified model of idnx's hard core

`idnx` discovers a network's topology, shares what it saw with paired peers, and does so
through a relay neither peer controls. This project models the parts of it where an error
would be silent - a bundle of evidence applied twice, a nonce reused, an envelope handed to the
wrong peer, a network never traversed, a route dropped - and proves that the code does not make
it, or states exactly when it does.

`dafny verify dfyconfig.toml` checks everything.

| module | models |
|---|---|
| `Ledger`, `Store`, `Ingest` | the ingest transaction: reservations and tokens, durable state with rollback, and the two driven together under every interleaving, failed write, crash and restart |
| `Source`, `Buffers` | the queue between deliveries and the engine, and every race for its lock |
| `Aliases`, `Interrogation`, `Engine`, `Discovery`, `Reports` | the discovery loop: identity merging, the interrogation queue, the run as a function and as the source's loops, what holds of every run, and what its report says |
| `Relay`, `RelayProtocol` | the bounded store-and-forward queue, and the authenticated mailbox protocol over it for any number of connections |
| `Session`, `Wire` | key agreement and the sealed channel; the bytes a bundle's signature covers |
| `Oui`, `SafeJson`, `Capture`, `Arp`, `Dhcp`, `DhcpReply` | index and byte algorithms: longest prefix, escaping, record splitting, reply correlation, route and option decoding |
| `Hex`, `Bytes`, `Limits`, `Outcomes` | the hex codec and identities, fixed-width integers and byte order, shared limits, options and results |

## How things are modelled

- Objects the source mutates are classes; each method's contract ties its new contents to a
  function of the old. Those functions are the steps of the state machines that the run
  theorems are about.
- Clocks, random bytes, the disk, the network, probes and providers are parameters or steps
  chosen freely. The state file is written through a temporary that is created, filled and
  renamed; each of these may fail, and a crash may fall between any two.
- Signatures, the curve, X25519, SHA-256 and record decoding are function-valued parameters,
  with the law a proof needs as an explicit hypothesis. Derived keys and ciphertexts are
  symbolic values, so decryption succeeds exactly on a matching key, nonce and associated data.
- Text is its UTF-8 bytes, except in `SafeJson`, where it is code points. Counters wrap at
  64 bits where the source's do.
- The graph of the discovery engine is any type with the projections the loop reads;
  `Discovery.Lawful` lists what is asked of it. A run keeps a log of what it did, and everything
  it reports is proved to be what that log replays to; `Reports` says what that is without the
  functions that compute it, for any view of a graph.

## What was found

- Dropping a prepared bundle without committing or abandoning it keeps the peer busy for the
  rest of the process. The comments at src/federation/ledger.rs:87-88 and 218-221 say a dropped
  transaction leaves the ledger untouched; the code keeps the reservation
  (`Ledger.HeldUntilReleased`, `Ledger.DroppedBlocksThePeer`).
- Evidence the engine already took is accepted again for as long as its sequence is not covered
  by the cursor on disk, and no longer (`Ingest.AcceptedExactlyUntilDurable`): after a failed
  write, or a crash before the write (`Ingest.CrashBeforeTheWriteAcceptsAgain`). So a committed
  bundle was absorbed by its process once, and once more for each time the process delivered
  the same evidence and let the transaction go (`Ingest.CommittedIsAbsorbed`).
- A cursor restored while a transaction is open lets that transaction commit below it; the
  cursor stays where it is, and commits still strictly increase
  (`Ledger.CommitReachesTheCursorExactly`, `Ledger.RestoreMidFlightCommitsBelowTheCursor`).
- Aliases are applied in one pass, where the comment says "repeatedly": that reaches every
  survivor exactly when the list runs along its merge chains, which the graph's lists do.
- Coverage is sorted by displayed text, so two devices displayed alike can leave one of them
  two records (`Aliases.OneRecordPerDeviceExactlyWhenDisplaysDiffer`); a best record of each
  device is kept regardless (`Aliases.TidyKeepsBest`).
- A converged run can leave a local network untraversed: one already known from a peer that the
  final drain observes locally. `Discovery.PromotedNetworkIsMissed` is such a run, and
  `Discovery.ConvergedCoversExactly` says exactly when it happens.
- Equal ephemeral keys make both ends send under one prefix (`Session.NoncesNeverRepeat`).
- A sweep that asks one address twice undercounts its rejected replies (`Arp.RejectedIsExact`).
- Escaping can turn a text that is not JSON into JSON, only where one of the five characters
  directly follows a backslash (`SafeJson.EmbeddingCanRepairInvalidText`).

## Model

| member | source | states |
|---|---|---|
| Hex.EncodeHex | src/federation/identity.rs:114-125 | the loop writes two lower-case digits per byte |
| Hex.DecodeEncode | src/federation/identity.rs:114-138 | decoding undoes encoding for every byte string |
| Hex.EncodeDecode | src/federation/identity.rs:127-147 | decoding succeeds on exactly the even-length hex texts, and re-encoding gives the text with its letters lowered |
| Hex.PeerHexRoundTrip | src/federation/identity.rs:24-35 | a text parses to a peer exactly when it is that peer's hex form up to letter case |
| Ledger.PrepareAllOrNothing | src/federation/ledger.rs:222-287 | a bundle is prepared exactly when verified, paired, new, wholly decodable and its peer idle; then under its signer, vantage and sequence, with every record in order, attributed to peer, vantage, sequence and time of publication; a refusal changes nothing |
| Ledger.RefusalSaysWhy | src/federation/ledger.rs:222-287 | each refusal means what it says: bad signature, unpaired signer, sequence already covered, exactly the undecodable records, or a busy peer whose bundle was otherwise acceptable |
| Ledger.NextIsAboveTheLast | src/federation/ledger.rs:222-335 | once a bundle is prepared and committed, a further decodable one of that signer is prepared exactly when its sequence is above that bundle's |
| Ledger.PairAdmits | src/federation/ledger.rs:204-206 | pairing adds exactly that peer to those trusted and touches no cursor, reservation or token |
| Ledger.AbandonedIsOfferable | src/federation/ledger.rs:312-319 | abandoning restores cursors and reservations, and the same bundle is prepared again with the same evidence under a new token |
| Ledger.TokensNeverReused | src/federation/ledger.rs:222-287 | over every run below the counter's width, no two receipts carry one token |
| Ledger.CommittedSequencesIncrease | src/federation/ledger.rs:290-305 | over every run, each peer's committed sequences strictly increase |
| Ledger.CommitReachesTheCursorExactly | src/federation/ledger.rs:290-303 | an owned receipt commits and leaves the cursor at its own sequence exactly when the cursor was not beyond it; the cursor never goes back |
| Ledger.RestoreMidFlightCommitsBelowTheCursor | src/federation/ledger.rs:330-335 | a receipt for sequence 1 commits under a cursor restored to 9 |
| Ledger.OwnershipStep | src/federation/ledger.rs:290-319 | one operation takes a reservation from its owner exactly when it commits or abandons that very receipt, and never returns it |
| Ledger.HeldUntilReleased | src/federation/ledger.rs:183-188 | over every run a reservation is held exactly until its own receipt is committed or abandoned |
| Ledger.DroppedBlocksThePeer | src/federation/ledger.rs:272-287 | a receipt that is dropped keeps every later bundle of its peer refused |
| Ledger.PeerLedger.PairPeer | src/federation/ledger.rs:204-206 | the new contents, and that only the trusted peers change |
| Ledger.PeerLedger.PrepareBundle | src/federation/ledger.rs:222-287 | the whole new ledger and the result, for every bundle |
| Ledger.PeerLedger.CommitReceipt | src/federation/ledger.rs:290-305 | a receipt that owns the reservation releases it and raises the cursor; any other changes nothing |
| Ledger.PeerLedger.AbandonReceipt | src/federation/ledger.rs:312-319 | a receipt that owns the reservation releases it and nothing else; any other changes nothing |
| Ledger.PeerLedger.RestoreCursor | src/federation/ledger.rs:330-335 | the cursor is raised, never lowered |
| Store.MemoryAlwaysDisk | src/federation/store.rs:139-147 | after every operation of every run, succeeded or failed, memory equals disk |
| Store.WriteIsOldOrNew | src/federation/store.rs:209-231 | cut off after any step, a write leaves the old file or the whole new one; carried out, the new one exactly when renamed, and no temporary unless removing it failed too |
| Store.CrashIsOldOrNew | src/federation/store.rs:139-231 | a process that ends at any step of any operation leaves the old file or the one the whole operation leaves |
| Store.CursorsNeverGoBack | src/federation/store.rs:181-194 | over every run the identity stands, no inbound cursor decreases, and an unreadable file is never replaced |
| Store.NumbersStrictlyIncrease | src/federation/store.rs:167-170 | numbers handed out strictly increase across failures, crashes and restarts below the counter's width |
| Store.OpenKeepsEverything | src/federation/store.rs:72-111 | a file whose seed is set opens exactly as it is, or not at all if its seed is no 32 bytes; one without keeps everything else; a missing one starts empty |
| Store.PairedExactlyAsLastMadeDurable | src/federation/store.rs:126-147 | over every run, with failures, crashes and restarts, a peer is paired on disk, under that note, exactly when its last durable pairing or unpairing was that pairing |
| Store.RecordRaisesExactly | src/federation/store.rs:181-194 | a recorded cursor becomes the higher of itself and the sequence, in memory and on disk, and nothing else changes; it fails exactly when a write is needed and fails |
| Store.FederationStore.Open | src/federation/store.rs:72-111 | a missing file makes a new identity only if it can be written; a present one is used as it is; a garbled one is an error and untouched |
| Store.FederationStore.Commit | src/federation/store.rs:139-147 | the change is in memory and on disk, or in neither |
| Store.FederationStore.ClaimSequence | src/federation/store.rs:167-170 | a number is handed out only once it is durable |
| Store.FederationStore.Record | src/federation/store.rs:181-194 | the cursor is raised on disk, or nothing changes |
| Store.FederationStore.InboundCursors | src/federation/store.rs:196-202 | exactly the cursors whose key parses as a peer |
| Ingest.RestartRestoresEveryCursor | src/federation/store.rs:196-202 | a restarted ledger holds exactly the cursors of the file |
| Ingest.StepKeepsInv | src/federation/ledger.rs:78-88 | every step of the driven protocol, failures and crashes included, keeps memory behind disk, reservations owned and both logs increasing |
| Ingest.NeverCommittedTwice | src/federation/ledger.rs:222-335 | over every interleaving, failure, crash and restart the memory cursor never exceeds the durable one and no (peer, sequence) is committed twice |
| Ingest.DurableIsNeverQueuedAgain | src/federation/store.rs:181-202 | in every reachable system, what may still be delivered is beyond everything durable of that peer |
| Ingest.AcceptedExactlyUntilDurable | src/federation/ledger.rs:78-88 | in every reachable running system, an authorised, decodable bundle of an idle peer is accepted exactly when the cursor on disk does not cover it |
| Ingest.CrashBeforeTheWriteAcceptsAgain | src/federation/ledger.rs:78-88 | evidence taken before a crash and never made durable is accepted again after the restart |
| Ingest.CommittedIsAbsorbed | src/federation/source.rs:88-193 | once its engine finished, a process had the evidence of everything it committed absorbed once, plus once per delivery of it that it let go; exactly once exactly when it let none go |
| Ingest.EverythingComesFromABundle | src/federation/ledger.rs:222-287 | over every run, each mark made durable or committed is the signer and sequence of a bundle that arrived, and all evidence handed over is the whole of one, in order |
| Source.FederationSource.Deliver | src/federation/source.rs:88-126 | queued with its records at the back and counted, or declined and untouched once stopped |
| Source.FederationSource.Reject | src/federation/source.rs:132-152 | a refusal is tallied under its peer, or not at all when there is none |
| Source.FederationSource.Drain | src/federation/source.rs:171-183 | everything pending is taken, once |
| Source.FederationSource.Finish | src/federation/source.rs:185-193 | everything pending is taken and nothing is queued afterwards |
| Source.ChangedOf | src/federation/source.rs:88-126 | a tally change reaches exactly its own peer and vantage |
| Source.QueuedExactlyAbsorbed | src/federation/source.rs:88-193 | over every race of deliveries, refusals, drains and the finish: the records of queued deliveries are absorbed exactly once, in order, those of declined ones never; the counter, and every peer's bundles, records and refusals, are exact |
| Source.NothingIsTakenAfterTheFinish | src/federation/source.rs:185-193 | no delivery is queued after the finish, in any continuation |
| Aliases.ApplyAliases | src/engine/orchestrator.rs:594-619 | `interrogated` holds exactly the survivors of what it held, and coverage is renamed, sorted and deduplicated |
| Aliases.SurvivorsSurviveExactlyAlongChains | src/engine/orchestrator.rs:594-619 | one pass ends every merge chain exactly when the list is ordered along its chains |
| Aliases.LinkedSurviveTogether | src/engine/orchestrator.rs:599-608 | along its chains, both identities of every link become one |
| Aliases.CoverageHoldsSurvivors | src/engine/orchestrator.rs:594-619 | coverage is left for exactly the surviving identities, each record one there was under its new identity, each there was kept or outdone there |
| Aliases.TidyKeepsBest | src/engine/orchestrator.rs:610-618 | tidying loses no device and keeps a record of each with the most TCP attempts, however devices display |
| Aliases.OneRecordPerDeviceExactlyWhenDisplaysDiffer | src/engine/orchestrator.rs:610-618 | one record per device, for every coverage list over some devices exactly when no two of them display alike |
| Aliases.DisplaysCanClash | src/engine/orchestrator.rs:612-617 | two different identities with one text |
| Interrogation.QueueFromGraph | src/engine/enrich.rs:260-323 | the loop and the stable sort build the specified queue |
| Interrogation.QueueIsExact | src/engine/enrich.rs:260-323 | exactly the devices locally observed, probeable and not yet interrogated, each once, with its endpoints: pivots, then candidates, then hosts, each of these in graph order |
| Buffers.OfferedAreQueued | src/federation/source.rs:88-126 | while a source runs every batch is queued in order, once it is stopped none is |
| Engine.Begin | src/engine/orchestrator.rs:232-260 | the seeds are absorbed in order and the operator's scope is queued |
| Engine.PollAll | src/engine/orchestrator.rs:273-277 | the loop polls or finishes every source and absorbs what each gives |
| Engine.Merge | src/engine/orchestrator.rs:307-308 | the graph is merged and the record of who was asked and covered renamed |
| Engine.TakePending | src/engine/orchestrator.rs:283-289 | the two loops compute the specified pending networks |
| Engine.Interrogate | src/engine/orchestrator.rs:363-382 | everyone outstanding is recorded as asked, and what they answer is absorbed |
| Engine.ProcessScopes | src/engine/orchestrator.rs:415-461 | the specified scopes are swept into the graph within budget, and exactly the oversized ones recorded |
| Engine.FinalDrain | src/engine/orchestrator.rs:318-351 | every source is finished, its evidence absorbed, and what that gained decided |
| Engine.Run | src/engine/orchestrator.rs:192-471 | the whole loop reports exactly what the run specified as a function reports |
| Discovery.RunIsItsLog | src/engine/orchestrator.rs:192-471 | graph, record of who was asked, coverage and scopes are what the run's log replays to; every merge, question and sweep in it was called for; every scope once, within budget; only convergence or the pass budget ends it |
| Discovery.DeliveredIsAbsorbedOnce | src/engine/orchestrator.rs:264-471 | every source is finished exactly once on every exit, and what was absorbed from it is exactly what arrived up to that finish, each batch once, in order |
| Discovery.NobodyIsAskedTwice | src/engine/orchestrator.rs:307-367 | over a whole run no device is asked twice under any names merging gave it, and the record is exact |
| Discovery.PendingIs | src/engine/orchestrator.rs:283-289 | exactly the unprocessed queued or locally observed networks, each once, the queue's first |
| Discovery.PassDoesItsWork | src/engine/orchestrator.rs:358-461 | a pass asks everyone outstanding and sweeps every pending network while the budget lasts |
| Discovery.ConvergedIsClosed | src/engine/orchestrator.rs:311-356 | at convergence every local network had been processed, and after the final drain no device was queueable and no network or pivot was new |
| Discovery.ConvergedCoversExactly | src/engine/orchestrator.rs:318-356 | every local network of the final graph was processed exactly when each one the final drain made local was processed already or not known before |
| Discovery.PromotedNetworkIsMissed | src/engine/orchestrator.rs:318-356 | a run that converges without sweeping a network of its own |
| Discovery.PeerFreeRunIsClosed | src/engine/orchestrator.rs:279-287 | if all it knew at its decision was local, a converged run processed every network it knows |
| Discovery.OperatorScopeIsProcessed | src/engine/orchestrator.rs:255-260 | a converged run that may sweep anything swept the operator's scope |
| Reports.GraphIsItsStory | src/engine/orchestrator.rs:232-471 | through any view that follows a graph, the reported one is the empty one told every seed, take, answer and sweep of the log, in order and once, folded where the log merges |
| Reports.GraphKnowsExactly | src/engine/orchestrator.rs:232-471 | for any measure of knowledge that evidence adds to and merging keeps, the reported graph knows exactly what the seeds, the devices asked, the sweeps, and the sources up to their finish produced |
| Reports.RunIsShaped | src/engine/orchestrator.rs:232-367 | every seed provider once, in order and first; questions only right after a merge |
| Reports.CoverageAccountsForEveryQuestion | src/engine/orchestrator.rs:369-413 | every coverage record any question produced is reported, or one with no fewer attempts, under its device's final name, and nothing else is |
| Reports.ReportNamesWhatWasSwept | src/engine/orchestrator.rs:415-427 | the reported scopes are exactly those swept, the oversized ones exactly those with more hosts than the budget enumerates |
| Reports.OnlyOwnNetworksAreSwept | src/engine/orchestrator.rs:255-289 | over every run, each network swept was the operator's scope or observed by this machine before it was swept, whatever peers report |
| Reports.HostsDouble | src/engine/orchestrator.rs:523-536 | a prefix one bit shorter has twice the hosts and two; the longest two have none; /0 and IPv6 are beyond any budget |
| Reports.PassEndsExactlyWhenNothingIsLeft | src/engine/orchestrator.rs:264-356 | a pass ends the run exactly when no queued or local network is unprocessed, nobody is left to ask, and the final drain, if due, brings no network, no pivot and nobody to ask |
| Relay.RunHolds | src/federation/relay.rs:84-174 | over every run all four bounds hold, no mailbox is empty, and each holds an end of what was deposited since its last collect |
| Relay.CollectReturnsSuffix | src/federation/relay.rs:115-122 | a collect returns, unaltered and in order, an end of what was deposited there since the last one |
| Relay.EvictionSheds | src/federation/relay.rs:154-174 | an evicted envelope is one no held envelope is older than, and only fronts are lost |
| Relay.DepositIsKept | src/federation/relay.rs:100-112 | an accepted envelope is the last of its mailbox, and every other mailbox only loses fronts |
| Relay.DepositWithRoomLosesNothing | src/federation/relay.rs:92-112 | where there is room, nothing unexpired is lost |
| Relay.FullMailboxLosesItsFront | src/federation/relay.rs:100-112 | where there is room in all but the mailbox, exactly its oldest envelope goes |
| Relay.EvictionStopsInTime | src/federation/relay.rs:92-112 | making room leaves the relay less than two envelopes short of its bound, so never empties it |
| Relay.UnexpiredIsSuffix | src/federation/relay.rs:139-152 | expiry removes exactly the envelopes past their time, which are the front |
| Relay.ExpiryIsExact | src/federation/relay.rs:139-152 | an envelope is held while less than a day has passed since its deposit, and no longer |
| Relay.DepositIsAcceptedExactly | src/federation/relay.rs:84-112 | a deposit is accepted exactly when within the size and, once the expired are gone, its mailbox is open or another may be; otherwise which refusal, and what it leaves |
| Relay.AcceptedWaits | src/federation/relay.rs:100-112 | an accepted envelope waits in its mailbox |
| Relay.StillWaits | src/federation/relay.rs:84-152 | what waits stays, through any operation that does not collect it, crowd it out or find it past its day |
| Relay.RelayQueue.ExpireAt | src/federation/relay.rs:139-152 | the queue becomes its unexpired part and the total stays the exact sum |
| Relay.RelayQueue.DiscardOldest | src/federation/relay.rs:154-174 | the globally oldest envelope goes, with its exact size; false exactly when nothing is held |
| Relay.RelayQueue.MakeRoom | src/federation/relay.rs:92-98 | the eviction loop ends with room for the envelope, so the bytes refusal is unreachable |
| Relay.RelayQueue.DepositEnvelope | src/federation/relay.rs:84-112 | the outcome and the new queue for every input; the total stays the exact sum, so no subtraction saturates |
| Relay.RelayQueue.CollectFrom | src/federation/relay.rs:115-122 | the mailbox's unexpired envelopes are returned and gone, and the total is exact |
| RelayProtocol.MailboxInjective | src/federation/relay.rs:190-200 | without digest collisions, a mailbox name belongs to one ordered pair of peers |
| RelayProtocol.RelayClient.Handle | src/federation/relay.rs:283-334 | every request's effect on the connection and the queue, and its answer |
| RelayProtocol.HandleIsAStep | src/federation/relay.rs:283-334 | what a connection does is a step of the whole system, logging exactly what it answered |
| RelayProtocol.ReturnedAreHanded | src/federation/relay.rs:312-320 | every envelope returned is one logged handing with the same text |
| RelayProtocol.HandedRightfullyAndOnce | src/federation/relay.rs:190-334 | over every run of many connections, what is handed to B for "from A" was deposited by a proven A for B, equals the deposited hex up to case, and is handed out at most once |
| RelayProtocol.SignatureAuthenticatesExactly | src/federation/relay.rs:241-334 | a peer is authenticated exactly by its 64-byte signature over this connection's challenge |
| RelayProtocol.DepositedIsDelivered | src/federation/relay.rs:84-334 | over every run, an authenticated deposit within the bounds is accepted, and if undisturbed its addressee's collect within the day hands over its text in lower case |
| Session.DomainsNeverMix | src/federation/session.rs:54-59 | what is signed as an ephemeral key, a bundle or a relay challenge never coincides |
| Session.EndsAgree | src/federation/session.rs:94-135 | same key, same code, each other's identity; opposite prefixes exactly when the ephemeral keys differ |
| Session.KeysEqualExactly | src/federation/session.rs:103-121 | two sessions, under any primitives, have one key exactly when they are over the same unordered pair of ephemeral keys and their exchanges agree |
| Session.CodeIsSixDigits | src/federation/session.rs:231-249 | the code spells the digest's number below a million, and either end computes the same |
| Session.Channel.Seal | src/federation/session.rs:174-197 | the counter is claimed first, refused at its top without moving, and spent even when the cipher fails |
| Session.Channel.Open | src/federation/session.rs:200-218 | size first, then the counter, then the cipher |
| Session.NonceInjective | src/federation/session.rs:221-226 | a nonce determines its direction and counter |
| Session.NoncesNeverRepeat | src/federation/session.rs:174-226 | over every run of seals by both ends no nonce is used twice under the key, exactly when the ephemeral keys differ |
| Session.SealedOpensAtTheOtherEnd | src/federation/session.rs:174-218 | every sealed frame opens at the other end, at any time, to its plaintext exactly when within the limit and the keys differ; never at its own end |
| Session.OpensOnlyWhatTheOtherEndSealed | src/federation/session.rs:200-218 | whatever is replayed, reflected, re-framed or given other data opens only as a frame the other end sealed |
| Wire.SigningPayload | src/federation/wire.rs:788-811 | the loop writes the specified encoding, for any record encoder |
| Wire.PayloadDelimits | src/federation/wire.rs:788-816 | the encoding delimits itself: equal streams start with the same bundle and agree on what follows |
| Wire.PayloadInjective | src/federation/wire.rs:788-816 | equal signed bytes exactly for equal version, peer, vantage, sequence, time and records |
| Oui.ParseCsv | src/fingerprint/oui.rs:211-246 | the loop builds the specified index, skipping what the source skips |
| Oui.Lookup | src/fingerprint/oui.rs:145-170 | 36 bits, then 28, then 24 |
| Oui.KeyMatches | src/fingerprint/oui.rs:335-353 | a record's key is an address's key exactly when its digits begin the address |
| Oui.DigitsOfHex | src/fingerprint/oui.rs:223-227 | a block spelled in hex, in either case, has exactly its bytes' digits |
| Oui.DigitsSkip | src/fingerprint/oui.rs:223-227 | what is no hex digit does not matter |
| Oui.IndexedMore | src/fingerprint/oui.rs:211-246 | registries parsed one after another are one registry |
| Oui.LookupIsLongestPrefix | src/fingerprint/oui.rs:145-246 | the index answers as a linear scan: the organization and registry of the longest six, seven or nine digits that begin the address, the last parsed on a tie, nothing exactly when none match |
| SafeJson.EmbeddableJson | src/output/safe.rs:38-51 | the loop pushes the specified pieces |
| SafeJson.EmbedIsInert | src/output/safe.rs:29-51 | none of the five characters is left; a text is unchanged exactly when it had none; escaping twice is escaping once |
| SafeJson.EmbeddingPreservesMeaning | src/output/safe.rs:29-51 | every valid JSON text stays valid and denotes the same value |
| SafeJson.EmbeddingPreservesInvalidity | src/output/safe.rs:38-51 | so does every text in which none of the five directly follows a backslash, valid or not |
| SafeJson.EmbeddingCanRepairInvalidText | src/output/safe.rs:38-51 | the exception is real |
| SafeJson.EveryNameSurvives | src/output/safe.rs:89-105 | any device text, written as a JSON string and embedded, holds none of the five characters and denotes exactly that text |
| Capture.BpfFrames | src/net/capture.rs:211-249 | for any buffer the loop ends with in-bounds, ordered, disjoint spans whose slices are the specified frames |
| Capture.InOrderMeans | src/net/capture.rs:211-249 | every span is non-empty and inside the buffer, and ends before the next starts |
| Capture.JoinedMeans | src/net/capture.rs:239 | the specified frames are the spans' slices, one for one |
| Capture.AlignRoundsUp | src/net/capture.rs:213-216 | the alignment is the source's mask |
| Capture.PackedSplits | src/net/capture.rs:377-389 | any list of packed records gives back exactly its frames, followed by the frames of whatever follows |
| Capture.LastRecord | src/net/capture.rs:377-389 | a last record gives its frame even without its padding |
| Arp.ReplyIsAccepted | src/probes/arp.rs:164-234 | a reply to a query, tagged or not, padded or not, is accepted for what it says exactly when its station is no group address and not zero |
| Arp.AcceptedIsReply | src/probes/arp.rs:164-234 | what is accepted is, byte for byte, such a reply |
| Arp.CorrelatedIsCandidate | src/probes/arp.rs:125-144 | every correlated frame is a candidate |
| Arp.CandidateExactly | src/probes/arp.rs:125-144 | candidates are exactly the frames to this station whose type, behind at most one tag, is ARP and whose operation is a reply |
| Arp.OneAddressPerFrame | src/probes/arp.rs:164-234 | a frame correlates with one query only |
| Arp.RequestIsNoCandidate | src/probes/arp.rs:62-80 | a request of ours is 60 bytes and never a candidate reply |
| Arp.RequestIsOurs | src/probes/arp.rs:62-156 | a request is recognised as its sender's only, and two different queries never share a frame |
| Arp.Sweep | src/probes/arp.rs:537-571 | the nested loops and the saturating subtraction compute the specified tally |
| Arp.RejectedIsExact | src/probes/arp.rs:537-571 | `rejected` counts exactly the candidates that answer no sent query, for every list of frames, exactly when no address was asked twice |
| Arp.RepliesAreExact | src/probes/arp.rs:551-565 | the replies are, without repetition, exactly what frames answered about sent queries |
| Arp.RecordedWasAsked | src/probes/arp.rs:473-502 | every recorded reply names a transmitted target |
| Arp.UnconfirmedIsSilent | src/probes/arp.rs:355-362 | unconfirmed are exactly the asked addresses no frame answered for |
| Arp.Contested | src/probes/arp.rs:371-382 | the grouping loop lists exactly the addresses with more than one reply, once each, with all their stations in order |
| Arp.ContestedIsExact | src/probes/arp.rs:364-382 | after a sweep, exactly the addresses two different stations answered for, with exactly those stations |
| Dhcp.ParseClasslessRoutes | src/probes/dhcp_inform.rs:259-291 | the loop computes the specified routes or refuses |
| Dhcp.AllOrNothing | src/probes/dhcp_inform.rs:254-291 | an option is refused exactly when it is not a concatenation of whole entries |
| Dhcp.ParsedIsLossless | src/probes/dhcp_inform.rs:259-291 | the raw entries concatenate to the option, each route is read from its own, and every prefix is truncated |
| Dhcp.RouteRoundTrip | src/probes/dhcp_inform.rs:259-291 | any list of truncated prefixes and gateways, encoded as RFC 3442 says, parses back to that list |
| Dhcp.TruncKeepsThePrefix | src/probes/dhcp_inform.rs:278-280 | truncating keeps exactly the bits the width covers |
| Dhcp.AttachedExactlyByNetmask | src/probes/dhcp_inform.rs:102-113 | a prefix is established exactly when the mask is a netmask, of its width, and truncated |
| DhcpReply.ReadOptions | src/probes/dhcp_inform.rs:200-244 | one pass reads and interprets what the walk and the interpretation specify |
| DhcpReply.ParseReply | src/probes/dhcp_inform.rs:169-252 | accepted exactly when it is a reply to this exchange, readable to its end, and an acknowledgement |
| DhcpReply.OptionRoundTrip | src/probes/dhcp_inform.rs:200-244 | options written with any pads, up to an end marker and junk, are the options walked |
| DhcpReply.CutMessageIsRefused | src/probes/dhcp_inform.rs:212-219 | a message cut anywhere inside an option discloses nothing |
| DhcpReply.HeardRoutes | src/probes/dhcp_inform.rs:236-241 | a message is refused exactly when one of its route options is, and reports all their routes in order |
| DhcpReply.HeardSays | src/probes/dhcp_inform.rs:223-235 | the mask is the last four-byte option 1, the type the last one-byte option 53, the routers those of every option 3 in order |
| DhcpReply.RoutersRoundTrip | src/probes/dhcp_inform.rs:228-235 | addresses written one after another are read back but for unspecified ones and a part of one at the end |
| DhcpReply.ReplyIsExact | src/probes/dhcp_inform.rs:175-189 | a datagram is a reply exactly when operation, transaction, hardware address and cookie are the exchange's, and its options follow |

## Left out

- Sockets, capture devices, timers and threads: foreign calls; they enter as parameters and steps.
- Real cryptography, constant time and zeroing: idealised as above. `mailbox` keeps 16 bytes of its digest; the model's digest is that truncated one, assumed free of collisions.
- Key derivation failure in `accept`: the requested length never exceeds what HKDF gives.
- File permissions and directory sync in `store.rs`. Sync is best effort in the source, so a power failure that undoes a rename is not modelled; temporary names are taken to be unique.
- The wire format's conversions and name tables, and JSON encoding of records: long case lists; records enter `Wire` already encoded.
- CSV lexing, `trim`, the plain-text registry parser, the bundled snapshot and the download in `oui.rs`: records enter already split, and shifts and masks on 48-bit words are written as arithmetic.
- `text` and `all` in `safe.rs`: clipping and replacing control characters would only add easy members.
- Address preference in `preferred_endpoints` and `is_probeable`: a filter and a sort; `Interrogation` takes each device's endpoints as given.
- Reachability records, pivot runs, run notes and `finalize_roles` in `orchestrator.rs`: reporting only.
- `graph.rs`, providers and probes: abstract; `Discovery.Lawful` states what is assumed of the graph.
- Aliases.TidyKeepsBest: says nothing of the records appended after the last merge of a run, which the source leaves unsorted.
- Capture.BpfFrames: offsets are unbounded; on a 64-bit machine no sum the source forms can wrap.
- Wire.PayloadInjective: for fields and lists shorter than 2^64, which is all that can be held.
- The observing channel and the sending loop of the ARP sweep: `Arp` takes the queries that were sent.
- Building the DHCP request, and the text forms of evidence: output only.
