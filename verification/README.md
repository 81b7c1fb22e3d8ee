# Signal sessions in Dafny

A model of the Signal session engine that this wallet's messaging uses (libsignal-protocol-c and the Swift stores around
it), with proofs of what it guarantees over whole runs: two-party agreement and skipped-key conservation on an unreliable
network, at-most-once acceptance with archived sessions, authenticity, secrecy, forward secrecy and recovery against an
attacker who runs the network, gapless sending, one-time pre keys, trust on first use, group sender keys and group
authenticity, storage round trips, HKDF, fingerprints, device codes and pre-key ids.

Cryptography is symbolic. A key is a term recording how it was derived; a shared secret is the unordered pair of the two
key names; HMAC and HKDF are constructors. New keys are named by a counter. Injectivity of terms and the depth of root keys
stand where the protocol relies on cryptographic assumptions; HMAC, SHA-512 and the encoding of public keys are parameters
in the modules about bytes. Counters are 32-bit with explicit wrap-around; run theorems assume that no counter reaches
2^32 - 1 (`Allowed` in each run module).

## How it is laid out

- `Common`, `Crypto`, `Bytes`: results, 32-bit counters, symbolic keys, byte order.
- `Ratchet`, `X3dh`, `SymmetricRoles`, `KeyAgreement`: chain and root steps, set-up of both roles, and who can derive it.
- `SkipWindow`, `ReceiverChains`: the window of skipped keys, and that the lazy chain follows it.
- `Messages`, `SessionStates`, `SessionCiphers`, `Conversation`: one session, and runs of two parties.
- `SessionRecords`, `Replay`, `RecordHistory`: a record with archived states, and why nothing is accepted twice.
- `Devices`, `SessionCalls`, `DeviceRuns`: the calls on the stores, as functions, as objects, and as runs.
- `AtMostOnce`, `Lifetimes`, `Sending`, `PreviousCounters`, `OneTimeKeys`, `Trust`, `StoredSessions`: what every run of a
  device keeps.
- `TwoAddresses`: where a session comes from, and when one message is accepted under two addresses.
- `Network`: any number of devices and an attacker; authenticity and secrecy of messages.
- `Acceptance`: when a message an honest device sent is accepted.
- `ForwardSecrecy`, `SharedSessions`, `Recovery`: what someone learns who is given everything a device holds, about
  earlier and about later messages.
- `SenderKeys`, `GroupCiphers`, `GroupRuns`, `GroupNetwork`: group sessions, with honest delivery and with an attacker.
- `SessionStorage`, `SenderKeyStorage`: storage structures and round trips.
- `Hkdf`, `Fingerprints`, `DeviceConsistency`, `PreKeyIds`: arithmetic and canonical forms.

Objects whose methods update fields in place are classes proved against value functions (`SessionState` against
`Decrypted` and `Encrypted`, `SessionCipher` against `PreKeyMessageDecrypted` and its siblings, and so on); the theorems are
about those functions. Failing callbacks are parameters (`LoadFaults`, `Faults`, `GroupFaults`), randomness is a parameter
or the name counter.

In `Network` the attacker owns key pairs, can use them like anyone, and delivers messages with any header fields. What it
cannot do is invent a MAC under a key that does not follow from its private keys, or a signature of someone else's key.

## Where the code surprises

- Reading a stored state ignores the result of reading its sender chain (session_state.c:830), so a version other than 2 or
  3 can lose the chain silently: `UnknownVersionLosesSenderChain`. `StoredRecordsRoundTrip` shows that no state a device
  stores is affected.
- The application publishes a last-resort pre key under an index of its own (SignalClient.swift:138, a constant that the
  repository does not define; here a parameter) but never stores a key it generates for it: `RegisterPreKeys`. A pre-key
  message naming its id is refused unless some block stored that id: `UnstoredIdIsRefused`. A key stored under it is removed
  like any other, since no generated id is 0xFFFFFF, the one id the session cipher spares: `ExemptIdIsNeverGenerated`.
- A pre-key message without a one-time key can be accepted once more under another address: `AcceptedOnceMore`. Then
  forward secrecy of later messages depends on both sessions: `SharedSessionGivesTheKey`, exactly `ReceivedStaysSecret`.
- The HKDF loop never ends when blocks and first counter exceed 255: `EndsExactlyWithinAByte`.
- With base keys of equal bytes both symmetric parties become the responder: `RolesDiffer`.
- A pre-key removal that fails leaves the session stored although the call reports an error: `FailedRemovalKeepsTheSession`.
- Ids of a block of pre keys can repeat once the 32-bit sum wraps around, and a refill can come round to stored ids; the
  exact conditions are `IdsAreDistinct` and `Refill`.

## Model

| member | source | states |
|---|---|---|
| `Crypto.AgreementCommutes` | ios/SignalMessagingSwift/libsignal-protocol-swift-master/libsignal-protocol-swift/libsignal-protocol-c/ratchet.c:300-378 | Both sides compute the same shared secret from their own private key |
| `Ratchet.StepsReachChainAt` | ios/SignalMessagingSwift/libsignal-protocol-swift-master/libsignal-protocol-swift/libsignal-protocol-c/ratchet.c:228-257 | Stepping a chain key n times is stepping its base n times more, while the 32-bit index does not wrap |
| `Ratchet.UnstepInverts` | ios/SignalMessagingSwift/libsignal-protocol-swift-master/libsignal-protocol-swift/libsignal-protocol-c/ratchet.c:228-257 | A chain secret determines its base and its position: taking off the steps inverts adding them |
| `Ratchet.KeysDetermineChain` | ios/SignalMessagingSwift/libsignal-protocol-swift-master/libsignal-protocol-swift/libsignal-protocol-c/ratchet.c:163-226 | No two positions of any two chains share a MAC key |
| `SkipWindow.JumpEvictsOldestOnly` | ios/SignalMessagingSwift/libsignal-protocol-swift-master/libsignal-protocol-swift/libsignal-protocol-c/session_state.c:1447-1483 | A jump keeps every key it stores itself; what it evicts is below everything it keeps |
| `SkipWindow.TakeConserves` | ios/SignalMessagingSwift/libsignal-protocol-swift-master/libsignal-protocol-swift/libsignal-protocol-c/session_cipher.c:650-724 | Exactly when a counter is accepted, a duplicate or too far ahead in terms of what was accepted and evicted, and that the split into accepted, stored and evicted stays exact |
| `SkipWindow.BelowTheStartIsDuplicate` | ios/SignalMessagingSwift/libsignal-protocol-swift-master/libsignal-protocol-swift/libsignal-protocol-c/group_cipher.c:254-269 | A counter below the first one of the window is always a duplicate |
| `SkipWindow.AcceptedDetermineWindow` | ios/SignalMessagingSwift/libsignal-protocol-swift-master/libsignal-protocol-swift/libsignal-protocol-c/session_cipher.c:650-724 | Without evictions the accepted counters alone determine index and stored list |
| `SkipWindow.OrderDoesNotMatter` | ios/SignalMessagingSwift/libsignal-protocol-swift-master/libsignal-protocol-swift/libsignal-protocol-c/session_cipher.c:650-724 | Two delivery orders of the same counters without eviction end in the same window |
| `Messages.SealOpens` | ios/SignalMessagingSwift/libsignal-protocol-swift-master/libsignal-protocol-swift/libsignal-protocol-c/session_cipher.c:797-869 | A sealed message verifies under exactly the MAC key it was sealed with, and decrypts to its text |
| `Messages.IdentitiesFromVersionThree` | ios/SignalMessagingSwift/libsignal-protocol-swift-master/libsignal-protocol-swift/libsignal-protocol-c/protocol.c:437-518 | A MAC that verifies for two parties verifies for others if and only if the version is below 3 or they are the same |
| `Messages.ModesOfEncryption` | ios/SignalMessagingSwift/libsignal-protocol-swift-master/libsignal-protocol-swift/libsignal-protocol-c/session_cipher.c:797-832 | Version 3 ciphertexts depend on the derived initialization vector, version 2 ones on the counter, and they differ |
| `SessionStates.SessionState.constructor` | ios/SignalMessagingSwift/libsignal-protocol-swift-master/libsignal-protocol-swift/libsignal-protocol-c/session_state.c:1224-1252 | A new object holds exactly the copied state |
| `SessionStates.SessionState.FindReceiverChain` | ios/SignalMessagingSwift/libsignal-protocol-swift-master/libsignal-protocol-swift/libsignal-protocol-c/session_state.c:1542-1555 | Finds the first receiver chain with the ratchet key, or none |
| `SessionStates.SessionState.AddReceiverChain` | ios/SignalMessagingSwift/libsignal-protocol-swift-master/libsignal-protocol-swift/libsignal-protocol-c/session_state.c:1485-1516 | The chain goes last and the newest five stay; nothing else changes |
| `SessionStates.SessionState.SetMessageKeys` | ios/SignalMessagingSwift/libsignal-protocol-swift-master/libsignal-protocol-swift/libsignal-protocol-c/session_state.c:1447-1483 | The key is appended to its chain and the newest two thousand stay; without the chain nothing changes |
| `SessionStates.SessionState.RemoveMessageKeys` | ios/SignalMessagingSwift/libsignal-protocol-swift-master/libsignal-protocol-swift/libsignal-protocol-c/session_state.c:1417-1445 | Returns and removes the first stored key of the counter; otherwise nothing changes |
| `SessionStates.SessionState.SetReceiverChainKey` | ios/SignalMessagingSwift/libsignal-protocol-swift-master/libsignal-protocol-swift/libsignal-protocol-c/session_state.c:1518-1540 | Replaces the chain key of that chain only, or reports an unknown chain |
| `X3dh.AliceInitialize` | ios/SignalMessagingSwift/libsignal-protocol-swift-master/libsignal-protocol-swift/libsignal-protocol-c/ratchet.c:975-1122 | The pool of agreements filled step by step is the initiator secret, and the state gets the receiver chain, the sending chain and the stepped root key |
| `X3dh.BobInitialize` | ios/SignalMessagingSwift/libsignal-protocol-swift-master/libsignal-protocol-swift/libsignal-protocol-c/ratchet.c:1124-1240 | The pool is the responder secret, and the state gets the first sending chain and root key |
| `X3dh.X3dhAgreement` | ios/SignalMessagingSwift/libsignal-protocol-swift-master/libsignal-protocol-swift/libsignal-protocol-c/ratchet.c:975-1240 | With mirrored parameters, with or without a one-time pre key, the initiator's sending chain is the chain the responder builds from its first ratchet key, with the same root key, and the responder's first sending chain is the initiator's receiver chain |
| `KeyAgreement.AliceFollowsTheSpecification` | ios/SignalMessagingSwift/libsignal-protocol-swift-master/libsignal-protocol-swift/libsignal-protocol-c/ratchet.c:975-1122 | The whole state after the initiator's set-up, from the key material that section 3.3 of the X3DH specification gives for the five key pairs |
| `KeyAgreement.BobFollowsTheSpecification` | ios/SignalMessagingSwift/libsignal-protocol-swift-master/libsignal-protocol-swift/libsignal-protocol-c/ratchet.c:1124-1240 | The same for the responder, from the same key material |
| `KeyAgreement.AliceKeysGivenExactly` | ios/SignalMessagingSwift/libsignal-protocol-swift-master/libsignal-protocol-swift/libsignal-protocol-c/ratchet.c:975-1122 | A set of private keys gives the initiator's first chain if and only if it gives all agreements: one of initiator identity and signed pre key, one of base key and responder identity, one of base key and signed pre key, one of base key and one-time key; root key and sending chain need one of the two ratchet keys too |
| `KeyAgreement.BobKeysGivenExactly` | ios/SignalMessagingSwift/libsignal-protocol-swift-master/libsignal-protocol-swift/libsignal-protocol-c/ratchet.c:1124-1240 | The same condition for the responder's root key and chain |
| `KeyAgreement.SessionNeedsItsKeys` | ios/SignalMessagingSwift/libsignal-protocol-swift-master/libsignal-protocol-swift/libsignal-protocol-c/session_builder.c:88-345 | Every session in every run was begun by a step, and any secret derived from it is known only to someone with private keys for all agreements of the key pairs of that step; the two identity keys alone never give it |
| `SymmetricRoles.SymmetricInitialize` | ios/SignalMessagingSwift/libsignal-protocol-swift-master/libsignal-protocol-swift/libsignal-protocol-c/ratchet.c:929-973 | Runs the set-up of the role the byte comparison gives |
| `SymmetricRoles.RolesDiffer` | ios/SignalMessagingSwift/libsignal-protocol-swift-master/libsignal-protocol-swift/libsignal-protocol-c/ratchet.c:919-927 | The party whose base key has the smaller byte at the first difference is the initiator; roles differ if and only if the bytes differ, which is if and only if the keys differ when the encoding tells these two apart; with equal bytes both are the responder |
| `SymmetricRoles.SymmetricAgreement` | ios/SignalMessagingSwift/libsignal-protocol-swift-master/libsignal-protocol-swift/libsignal-protocol-c/ratchet.c:929-973 | If the bytes of the base keys differ, exactly one party is the initiator and both derive the same root and chain keys |
| `Bytes.MemcmpIsTotal` | ios/SignalMessagingSwift/libsignal-protocol-swift-master/libsignal-protocol-swift/libsignal-protocol-c/curve.c:94-108 | Byte comparison is antisymmetric and zero exactly for equal bytes |
| `Bytes.MemcmpIsTransitive` | ios/SignalMessagingSwift/libsignal-protocol-swift-master/libsignal-protocol-swift/libsignal-protocol-c/curve.c:94-108 | Byte comparison is transitive |
| `Bytes.MemcmpDecides` | ios/SignalMessagingSwift/libsignal-protocol-swift-master/libsignal-protocol-swift/libsignal-protocol-c/curve.c:94-108 | Less or greater exactly by the first byte in which the buffers differ |
| `Bytes.SortedAscends` | ios/SignalMessagingSwift/libsignal-protocol-swift-master/libsignal-protocol-swift/libsignal-protocol-c/curve.c:492-496 | A sorted list puts the smaller byte at the first difference first |
| `Bytes.ConstantMemcmp` | ios/SignalMessagingSwift/libsignal-protocol-swift-master/libsignal-protocol-swift/libsignal-protocol-c/signal_protocol.c:591-603 | The accumulated difference is zero if and only if all bytes agree |
| `SessionCiphers.GetOrCreateChainKey` | ios/SignalMessagingSwift/libsignal-protocol-swift-master/libsignal-protocol-swift/libsignal-protocol-c/session_cipher.c:560-648 | A known ratchet key leaves the state alone; an unknown one steps the root key twice and opens a receiver and a sending chain |
| `SessionCiphers.OpenedChainIsFound` | ios/SignalMessagingSwift/libsignal-protocol-swift-master/libsignal-protocol-swift/libsignal-protocol-c/session_cipher.c:560-648 | The opened chain is in the state afterwards, last if it is new |
| `SessionCiphers.StoreSkippedKeys` | ios/SignalMessagingSwift/libsignal-protocol-swift-master/libsignal-protocol-swift/libsignal-protocol-c/session_cipher.c:681-699 | The loop stores the key of every counter in between and stops at the asked one |
| `SessionCiphers.GetOrCreateMessageKeys` | ios/SignalMessagingSwift/libsignal-protocol-swift-master/libsignal-protocol-swift/libsignal-protocol-c/session_cipher.c:650-724 | Hands out a stored key or the key of a later counter, with the error of a used or too distant one |
| `SessionCiphers.DecryptFromState` | ios/SignalMessagingSwift/libsignal-protocol-swift-master/libsignal-protocol-swift/libsignal-protocol-c/session_cipher.c:457-558 | Result, new state and drawn key pairs of one attempt, in the order of the checks |
| `SessionCiphers.EncryptWithState` | ios/SignalMessagingSwift/libsignal-protocol-swift-master/libsignal-protocol-swift/libsignal-protocol-c/session_cipher.c:130-236 | The message carries the current chain position and the state is one step further |
| `ReceiverChains.TakeKeysRefines` | ios/SignalMessagingSwift/libsignal-protocol-swift-master/libsignal-protocol-swift/libsignal-protocol-c/session_cipher.c:650-724 | The lazy chain refines the simple one: refused exactly as the window says, the handed-out key is the base stepped counter times, and the chain stays on its base |
| `ReceiverChains.KeyedOnNewChain` | ios/SignalMessagingSwift/libsignal-protocol-swift-master/libsignal-protocol-swift/libsignal-protocol-c/session_cipher.c:560-724 | A first message on an unknown ratchet key gets the keys of the new base, unless it is more than 2000 ahead |
| `ReceiverChains.WindowDeterminesChain` | ios/SignalMessagingSwift/libsignal-protocol-swift-master/libsignal-protocol-swift/libsignal-protocol-c/session_state.c:1447-1483 | Base and window determine chain key and stored keys |
| `ReceiverChains.DeliveryOrderDoesNotMatter` | ios/SignalMessagingSwift/libsignal-protocol-swift-master/libsignal-protocol-swift/libsignal-protocol-c/session_cipher.c:650-724 | Two delivery orders of the same messages without eviction end with the same chain key and stored keys |
| `Conversation.StartIsOnLadder` | ios/SignalMessagingSwift/libsignal-protocol-swift-master/libsignal-protocol-swift/libsignal-protocol-c/ratchet.c:975-1240 | Both parties start on a common ladder of ratchet keys, root keys and chain bases |
| `Conversation.DeliveryVerdict` | ios/SignalMessagingSwift/libsignal-protocol-swift-master/libsignal-protocol-swift/libsignal-protocol-c/session_cipher.c:457-724 | On the ladder, which letters are accepted, with which text, and with which error the others are refused |
| `Conversation.StepKeepsLadder` | ios/SignalMessagingSwift/libsignal-protocol-swift-master/libsignal-protocol-swift/libsignal-protocol-c/session_cipher.c:100-724 | Every send and every delivery, accepted or not, keeps both parties on a common ladder |
| `Conversation.RunKeepsLadder` | ios/SignalMessagingSwift/libsignal-protocol-swift-master/libsignal-protocol-swift/libsignal-protocol-c/session_cipher.c:100-724 | Every run from the key agreement stays on a ladder |
| `Conversation.TwoPartyAgreement` | ios/SignalMessagingSwift/libsignal-protocol-swift-master/libsignal-protocol-swift/libsignal-protocol-c/session_cipher.c:457-724 | After any run with drops, duplicates and reordering, a letter is accepted if and only if its ratchet key is new or among the newest five chains, its counter is unused and not evicted, and it is at most 2000 ahead; then its text is the sender's |
| `Conversation.SkippedKeysConserved` | ios/SignalMessagingSwift/libsignal-protocol-swift-master/libsignal-protocol-swift/libsignal-protocol-c/session_cipher.c:650-724 | After any run, on every receiver chain the counters below the index split exactly into accepted, stored and evicted; the stored list is increasing, at most 2000 long and above every evicted counter; at most five chains |
| `SessionRecords.ArchivingDropsOnlyTheOldest` | ios/SignalMessagingSwift/libsignal-protocol-swift-master/libsignal-protocol-swift/libsignal-protocol-c/session_record.c:383-421 | Archiving a full record drops exactly the oldest state, one with room drops nothing |
| `SessionRecords.TrimArchived` | ios/SignalMessagingSwift/libsignal-protocol-swift-master/libsignal-protocol-swift/libsignal-protocol-c/session_record.c:408-418 | The trimming walk keeps exactly the first forty nodes |
| `SessionRecords.SessionRecord.HasSessionState` | ios/SignalMessagingSwift/libsignal-protocol-swift-master/libsignal-protocol-swift/libsignal-protocol-c/session_record.c:284-308 | True if and only if the current or some archived state has this version and base key |
| `SessionRecords.SessionRecord.PromoteState` | ios/SignalMessagingSwift/libsignal-protocol-swift-master/libsignal-protocol-swift/libsignal-protocol-c/session_record.c:383-421 | The old current state is archived in front, the archive trimmed to forty |
| `SessionRecords.SessionRecord.ArchiveCurrentState` | ios/SignalMessagingSwift/libsignal-protocol-swift-master/libsignal-protocol-swift/libsignal-protocol-c/session_record.c:364-381 | The same with a new empty current state |
| `SessionRecords.DecryptedFromRecord` | ios/SignalMessagingSwift/libsignal-protocol-swift-master/libsignal-protocol-swift/libsignal-protocol-c/session_cipher.c:384-455 | A message no state accepts leaves the current and every archived state unchanged |
| `SessionRecords.AcceptedByOneState` | ios/SignalMessagingSwift/libsignal-protocol-swift-master/libsignal-protocol-swift/libsignal-protocol-c/session_cipher.c:384-455 | An accepted message replaces exactly one state, which becomes current; every other state is kept in order, so promoting loses no session |
| `SessionRecords.DecryptFromRecord` | ios/SignalMessagingSwift/libsignal-protocol-swift-master/libsignal-protocol-swift/libsignal-protocol-c/session_cipher.c:384-455 | The loop over copies of the states gives that result and leaves that record |
| `Replay.TakeUsesUp` | ios/SignalMessagingSwift/libsignal-protocol-swift-master/libsignal-protocol-swift/libsignal-protocol-c/session_cipher.c:650-724 | A handed-out key had not been handed out before and no used key comes back |
| `Replay.AcceptedKeyIsNew` | ios/SignalMessagingSwift/libsignal-protocol-swift-master/libsignal-protocol-swift/libsignal-protocol-c/session_cipher.c:457-724 | Whatever message a state accepts, its key was never accepted before by this state, even after its chain was evicted, because a reopened chain lies deeper |
| `RecordHistory.DifferentBasesDifferentOrigins` | ios/SignalMessagingSwift/libsignal-protocol-swift-master/libsignal-protocol-swift/libsignal-protocol-c/session_builder.c:88-345 | Sessions with different base keys come from different key agreements |
| `RecordHistory.AcceptKeepsRecord` | ios/SignalMessagingSwift/libsignal-protocol-swift-master/libsignal-protocol-swift/libsignal-protocol-c/session_cipher.c:384-455 | A message a record accepts has a MAC key no held session accepted before; no session is lost and the record invariant stays |
| `RecordHistory.BuildKeepsRecord` | ios/SignalMessagingSwift/libsignal-protocol-swift-master/libsignal-protocol-swift/libsignal-protocol-c/session_builder.c:88-345 | A new session in front keeps the record invariant; what is forgotten belongs to the dropped session only |
| `DeviceRuns.EncryptStores` | ios/SignalMessagingSwift/libsignal-protocol-swift-master/libsignal-protocol-swift/libsignal-protocol-c/session_cipher.c:100-259 | Encrypting changes at most one record, and only to the one with its sending chain advanced |
| `DeviceRuns.ReceiveStores` | ios/SignalMessagingSwift/libsignal-protocol-swift-master/libsignal-protocol-swift/libsignal-protocol-c/session_cipher.c:261-382 | A receiving call changes at most one record, and only to what the accepting record became |
| `DeviceRuns.BundleStores` | ios/SignalMessagingSwift/libsignal-protocol-swift-master/libsignal-protocol-swift/libsignal-protocol-c/session_builder.c:191-345 | A bundle changes the record only if its identity is trusted and it carries a signed pre key, by putting the new session in front |
| `AtMostOnce.StepKeepsSafe` | ios/SignalMessagingSwift/libsignal-protocol-swift-master/libsignal-protocol-swift/libsignal-protocol-c/session_cipher.c:100-455 | Every call, with any store callback or the decrypt callback failing, keeps the invariant of every record, and an accepted message is new to it |
| `AtMostOnce.RunKeepsSafe` | ios/SignalMessagingSwift/libsignal-protocol-swift-master/libsignal-protocol-swift/libsignal-protocol-c/session_cipher.c:100-455 | Every run of a device keeps the invariant |
| `AtMostOnce.RecordsStayBounded` | ios/SignalMessagingSwift/libsignal-protocol-swift-master/libsignal-protocol-swift/libsignal-protocol-c/session_record.c:284-421 | In every run each record has at most forty archived states and no two states with the same version and base key |
| `AtMostOnce.ChainsStayOnTheirBases` | ios/SignalMessagingSwift/libsignal-protocol-swift-master/libsignal-protocol-swift/libsignal-protocol-c/session_cipher.c:659-714 | In every run of a device every chain key is its base stepped index times and every skipped key the message key of the base stepped counter times |
| `AtMostOnce.AcceptedAtMostOnce` | ios/SignalMessagingSwift/libsignal-protocol-swift-master/libsignal-protocol-swift/libsignal-protocol-c/session_cipher.c:384-724 | In every run a session is in the record right after it accepts a message, and if the same message is accepted again from that address the session had left the record in between |
| `Lifetimes.BundleKeepsOlder` | ios/SignalMessagingSwift/libsignal-protocol-swift-master/libsignal-protocol-swift/libsignal-protocol-c/session_builder.c:191-345 | A stored bundle puts its session in front of the forty newest others, which are unchanged and in order |
| `Lifetimes.AnsweredKeepsOlder` | ios/SignalMessagingSwift/libsignal-protocol-swift-master/libsignal-protocol-swift/libsignal-protocol-c/session_builder.c:88-189 | The record a pre-key message is read with is the stored one if it has a session for the base key, otherwise a new session in front of the forty newest others |
| `Lifetimes.StepLeavesExactly` | ios/SignalMessagingSwift/libsignal-protocol-swift-master/libsignal-protocol-swift/libsignal-protocol-c/session_record.c:383-421 | A session leaves its record at a step if and only if the record is deleted, or a session is built and it is the oldest of forty archived ones |
| `Lifetimes.SessionStaysUntilItLeaves` | ios/SignalMessagingSwift/libsignal-protocol-swift-master/libsignal-protocol-swift/libsignal-protocol-c/session_record.c:383-421 | Over every run a session held once and not later left in between in one of these ways |
| `Lifetimes.AcceptedTwiceOnlyAfterLeaving` | ios/SignalMessagingSwift/libsignal-protocol-swift-master/libsignal-protocol-swift/libsignal-protocol-c/session_cipher.c:384-455 | So a message is accepted twice from an address only after the session that accepted it left in one of these ways |
| `Lifetimes.SessionsCarryTheirIds` | ios/SignalMessagingSwift/libsignal-protocol-swift-master/libsignal-protocol-swift/libsignal-protocol-c/session_builder.c:165-345 | Over every run every session carries the device's registration id and the one in the pre-key message or bundle it was begun with |
| `Devices.FailedDecryptIsAtomic` | ios/SignalMessagingSwift/libsignal-protocol-swift-master/libsignal-protocol-swift/libsignal-protocol-c/session_cipher.c:261-382 | A failing decrypt leaves sessions and pre keys untouched unless all that failed is the removal of the used pre key; of the identity store only the sender's key may have been pinned |
| `Devices.FailedRemovalKeepsTheSession` | ios/SignalMessagingSwift/libsignal-protocol-swift-master/libsignal-protocol-swift/libsignal-protocol-c/session_cipher.c:279-312 | A message that would be decrypted is reported as failed if and only if a pre key is to be removed and the removal fails; the session is stored and the pre key still there |
| `SessionCalls.SessionBuilder.AnswerSession` | ios/SignalMessagingSwift/libsignal-protocol-swift-master/libsignal-protocol-swift/libsignal-protocol-c/session_builder.c:127-170 | Archives unless fresh and sets up the responder session |
| `SessionCalls.SessionBuilder.ProcessV3` | ios/SignalMessagingSwift/libsignal-protocol-swift-master/libsignal-protocol-swift/libsignal-protocol-c/session_builder.c:88-189 | A known base key changes nothing; missing keys and failing loads are errors; otherwise the new session is in front and the pre key to remove is returned, except the last-resort one |
| `SessionCalls.SessionBuilder.ProcessPreKeySignalMessage` | ios/SignalMessagingSwift/libsignal-protocol-swift-master/libsignal-protocol-swift/libsignal-protocol-c/session_builder.c:47-86 | Trust check, then the session, then the pin |
| `SessionCalls.SessionBuilder.OpenState` | ios/SignalMessagingSwift/libsignal-protocol-swift-master/libsignal-protocol-swift/libsignal-protocol-c/session_builder.c:303-324 | The initiator state for a bundle, with the pending pre key and both registration ids |
| `SessionCalls.SessionBuilder.OpenSession` | ios/SignalMessagingSwift/libsignal-protocol-swift-master/libsignal-protocol-swift/libsignal-protocol-c/session_builder.c:260-324 | Archives unless fresh and sets up the initiator session with two new key pairs, or fails after drawing the ones drawn before the failure |
| `SessionCalls.SessionBuilder.ProcessPreKeyBundle` | ios/SignalMessagingSwift/libsignal-protocol-swift-master/libsignal-protocol-swift/libsignal-protocol-c/session_builder.c:191-345 | Reply and new stores for every bundle and every failing callback |
| `SessionCalls.SessionCipher.Encrypt` | ios/SignalMessagingSwift/libsignal-protocol-swift-master/libsignal-protocol-swift/libsignal-protocol-c/session_cipher.c:100-259 | Reply and new stores; a message is returned only if the advanced chain was stored |
| `SessionCalls.SessionCipher.DecryptPreKeySignalMessage` | ios/SignalMessagingSwift/libsignal-protocol-swift-master/libsignal-protocol-swift/libsignal-protocol-c/session_cipher.c:261-324 | Reply and new stores for every message and every failing callback, in the order identity, session, pre key |
| `SessionCalls.SessionCipher.DecryptSignalMessage` | ios/SignalMessagingSwift/libsignal-protocol-swift-master/libsignal-protocol-swift/libsignal-protocol-c/session_cipher.c:326-382 | Reply and new stores for every message and every failing callback |
| `Sending.EmittedAfterStore` | ios/SignalMessagingSwift/libsignal-protocol-swift-master/libsignal-protocol-swift/libsignal-protocol-c/session_cipher.c:100-259 | An emitted message carries the stored session's next counter, and the store already holds the counter after it |
| `Sending.SenderAfterAccept` | ios/SignalMessagingSwift/libsignal-protocol-swift-master/libsignal-protocol-swift/libsignal-protocol-c/session_cipher.c:560-648 | Accepting a message keeps the sending chain or starts one at 0 under a key generated for it |
| `Sending.StepKeepsOrder` | ios/SignalMessagingSwift/libsignal-protocol-swift-master/libsignal-protocol-swift/libsignal-protocol-c/session_cipher.c:100-382 | Every call keeps all sending keys of the device distinct and every next counter equal to the number of messages sent under its key |
| `Sending.SentInOrder` | ios/SignalMessagingSwift/libsignal-protocol-swift-master/libsignal-protocol-swift/libsignal-protocol-c/session_cipher.c:100-259 | In every run the counters emitted under each ratchet key are 0, 1, 2, ... without gap or repeat |
| `PreviousCounters.PreviousAfterAccept` | ios/SignalMessagingSwift/libsignal-protocol-swift-master/libsignal-protocol-swift/libsignal-protocol-c/session_cipher.c:560-648 | A message under an unknown ratchet key makes the previous counter the last one of the old sending chain, or 0; any other leaves it |
| `PreviousCounters.PreviousCounterIsLast` | ios/SignalMessagingSwift/libsignal-protocol-swift-master/libsignal-protocol-swift/libsignal-protocol-c/session_cipher.c:622-640 | Over every run an emitted message carries the counter of the last message sent under the key its session sent under before, or 0 if there is none |
| `OneTimeKeys.BuildingTakesTheKey` | ios/SignalMessagingSwift/libsignal-protocol-swift-master/libsignal-protocol-swift/libsignal-protocol-c/session_cipher.c:279-312 | The pre key that builds a stored session was in the store and leaves it, unless it is the last-resort id or its removal fails; any other step keeps the stored ids or adds one |
| `OneTimeKeys.BuiltSessionIsStored` | ios/SignalMessagingSwift/libsignal-protocol-swift-master/libsignal-protocol-swift/libsignal-protocol-c/session_builder.c:88-189 | The built session is in the stored record and was not there before |
| `OneTimeKeys.EachKeyBuildsOneSession` | ios/SignalMessagingSwift/libsignal-protocol-swift-master/libsignal-protocol-swift/libsignal-protocol-c/session_builder.c:88-189 | In every run, over all addresses, an id other than 0xFFFFFF that built a stored session is in the store again or builds another one only if its removal failed, which leaves it there, or the application stored that id again |
| `Trust.PinnedIdentityStays` | ios/SignalMessagingSwift/libsignal-protocol-swift-master/libsignal-protocol-swift/libsignal-protocol-c/session_builder.c:47-345 | In every run, with any store callback or the decrypt callback failing, a pinned identity stays until the application removes it, and every session stored then was there before or carries it |
| `Trust.FirstUsePins` | ios/SignalMessagingSwift/Signal/IdentityKeyStorePillar.swift:32-50 | A successful call pins its identity; a call with another identity than the pinned one changes nothing and is refused |
| `Network.KnowsItsOrigin` | ios/SignalMessagingSwift/libsignal-protocol-swift-master/libsignal-protocol-swift/libsignal-protocol-c/ratchet.c:300-378 | A derived secret is known only to someone who knows every agreement it started from |
| `Network.HonestSessionAcceptsOnlySent` | ios/SignalMessagingSwift/libsignal-protocol-swift-master/libsignal-protocol-swift/libsignal-protocol-c/session_cipher.c:457-558 | A session with an honest identity accepts only a message that a device with that identity sealed for this one, under the same keys and with the same text |
| `Network.AnsweringIsGuarded` | ios/SignalMessagingSwift/libsignal-protocol-swift-master/libsignal-protocol-swift/libsignal-protocol-c/session_builder.c:88-189 | The responder's agreement of claimed identity and own signed pre key is hidden from the attacker if the claimed identity is not the attacker's |
| `Network.OpeningIsGuarded` | ios/SignalMessagingSwift/libsignal-protocol-swift-master/libsignal-protocol-swift/libsignal-protocol-c/session_builder.c:191-345 | The initiator's agreement is hidden if the bundle's identity is not the attacker's, because that identity signed the pre key |
| `Network.RunKeepsNet` | ios/SignalMessagingSwift/libsignal-protocol-swift-master/libsignal-protocol-swift/libsignal-protocol-c/session_cipher.c:100-382 | Every run of any number of devices and an attacker keeps all sessions with honest identities hidden and all emissions sealed as recorded |
| `Network.AcceptedTextsWereSent` | ios/SignalMessagingSwift/libsignal-protocol-swift-master/libsignal-protocol-swift/libsignal-protocol-c/session_cipher.c:261-558 | In every run, with the attacker delivering whatever it can make, a message accepted in a session with an honest identity was sent by a device with that identity to this one, with exactly that text and under exactly those keys, and was not accepted before by a session still in the record |
| `Network.SentMessagesStaySecret` | ios/SignalMessagingSwift/libsignal-protocol-swift-master/libsignal-protocol-swift/libsignal-protocol-c/session_cipher.c:100-259 | In every run the attacker never comes to know a key of a message sent to an honest identity |
| `SessionStorage.ReadReceiverChains` | ios/SignalMessagingSwift/libsignal-protocol-swift-master/libsignal-protocol-swift/libsignal-protocol-c/session_state.c:840-861 | Reads every chain in order, missing keys as null, or fails if a chain key is there and the version unknown |
| `SessionStorage.ReadMessageKeys` | ios/SignalMessagingSwift/libsignal-protocol-swift-master/libsignal-protocol-swift/libsignal-protocol-c/session_state.c:1172-1200 | Reads every message key in order, missing or wrong-sized fields as zeros |
| `SessionStorage.DeserializeState` | ios/SignalMessagingSwift/libsignal-protocol-swift-master/libsignal-protocol-swift/libsignal-protocol-c/session_state.c:772-916 | The whole state read from any structure, or the error |
| `SessionStorage.WrittenByName` | ios/SignalMessagingSwift/libsignal-protocol-swift-master/libsignal-protocol-swift/libsignal-protocol-c/session_state.c:233-568 | What is written under each name of the storage format is what the state has |
| `SessionStorage.ReadByName` | ios/SignalMessagingSwift/libsignal-protocol-swift-master/libsignal-protocol-swift/libsignal-protocol-c/session_state.c:772-916 | What is read into each field is what stands under its name |
| `SessionStorage.WholeIsInjective` | ios/SignalMessagingSwift/libsignal-protocol-swift-master/libsignal-protocol-swift/libsignal-protocol-c/session_state.c:233-373 | What is read back determines the state that was written |
| `SessionStorage.StateRoundTrip` | ios/SignalMessagingSwift/libsignal-protocol-swift-master/libsignal-protocol-swift/libsignal-protocol-c/session_state.c:233-1222 | Writing and reading a state gives it back if and only if every key carries the KDF version of the session |
| `SessionStorage.UnknownVersionLosesSenderChain` | ios/SignalMessagingSwift/libsignal-protocol-swift-master/libsignal-protocol-swift/libsignal-protocol-c/session_state.c:829-838 | With an unknown version the sender chain is lost without an error, because the result of reading it is ignored |
| `SessionStorage.RecordRoundTrip` | ios/SignalMessagingSwift/libsignal-protocol-swift-master/libsignal-protocol-swift/libsignal-protocol-c/session_record.c:60-238 | A record of such states comes back complete and in order, and no longer fresh |
| `StoredSessions.DecryptedIsConsistent` | ios/SignalMessagingSwift/libsignal-protocol-swift-master/libsignal-protocol-swift/libsignal-protocol-c/session_cipher.c:457-724 | Decrypting keeps the KDF version of every key |
| `StoredSessions.StoredRecordsRoundTrip` | ios/SignalMessagingSwift/libsignal-protocol-swift-master/libsignal-protocol-swift/libsignal-protocol-c/session_state.c:233-1222 | In every run of a device every stored record comes back from storage exactly as the next call loads it |
| `SenderKeyStorage.DeserializeSenderState` | ios/SignalMessagingSwift/libsignal-protocol-swift-master/libsignal-protocol-swift/libsignal-protocol-c/sender_key_state.c:284-402 | The state read from a structure with skipped keys derived again, or the error |
| `SenderKeyStorage.SenderStateRoundTrip` | ios/SignalMessagingSwift/libsignal-protocol-swift-master/libsignal-protocol-swift/libsignal-protocol-c/sender_key_state.c:150-402 | Writing and reading a sender-key state gives it back if and only if it holds at most 2000 skipped keys and each is the one its seed gives |
| `SenderKeyStorage.GroupStatesRoundTrip` | ios/SignalMessagingSwift/libsignal-protocol-swift-master/libsignal-protocol-swift/libsignal-protocol-c/sender_key_state.c:150-402 | In every run of a group every state comes back from storage unchanged |
| `SenderKeys.SenderKeyState.HasSenderMessageKey` | ios/SignalMessagingSwift/libsignal-protocol-swift-master/libsignal-protocol-swift/libsignal-protocol-c/sender_key_state.c:470-482 | True if and only if a key of the iteration is stored |
| `SenderKeys.SenderKeyState.AddSenderMessageKey` | ios/SignalMessagingSwift/libsignal-protocol-swift-master/libsignal-protocol-swift/libsignal-protocol-c/sender_key_state.c:484-515 | The key goes last and the newest two thousand stay |
| `SenderKeys.SenderKeyState.RemoveSenderMessageKey` | ios/SignalMessagingSwift/libsignal-protocol-swift-master/libsignal-protocol-swift/libsignal-protocol-c/sender_key_state.c:517-534 | Returns and removes the first stored key of the iteration |
| `SenderKeys.SenderKeyState.GetSenderKey` | ios/SignalMessagingSwift/libsignal-protocol-swift-master/libsignal-protocol-swift/libsignal-protocol-c/group_cipher.c:243-315 | Hands out a stored key, or advances the chain storing the keys in between; an error changes nothing |
| `SenderKeys.SenderKeyRecord.GetStateById` | ios/SignalMessagingSwift/libsignal-protocol-swift-master/libsignal-protocol-swift/libsignal-protocol-c/sender_key_record.c:243-257 | The first state with the key id, or an error |
| `SenderKeys.SenderKeyRecord.AddState` | ios/SignalMessagingSwift/libsignal-protocol-swift-master/libsignal-protocol-swift/libsignal-protocol-c/sender_key_record.c:259-308 | The new state is in front and the newest five stay |
| `SenderKeys.SenderKeyRecord.SetState` | ios/SignalMessagingSwift/libsignal-protocol-swift-master/libsignal-protocol-swift/libsignal-protocol-c/sender_key_record.c:318-340 | The new state is the only one |
| `SenderKeys.StepsReachSenderChainAt` | ios/SignalMessagingSwift/libsignal-protocol-swift-master/libsignal-protocol-swift/libsignal-protocol-c/sender_key.c:214-237 | Stepping a sender chain key is stepping its seed |
| `SenderKeys.StoredKeepsTheNewest` | ios/SignalMessagingSwift/libsignal-protocol-swift-master/libsignal-protocol-swift/libsignal-protocol-c/sender_key_state.c:484-515 | Storing skipped keys one at a time keeps the newest two thousand of all of them |
| `SenderKeys.TakeSenderKeyRefines` | ios/SignalMessagingSwift/libsignal-protocol-swift-master/libsignal-protocol-swift/libsignal-protocol-c/group_cipher.c:243-315 | Refused exactly as the window says; the handed-out key is the seed stepped iteration times |
| `GroupCiphers.GroupCipher.Encrypt` | ios/SignalMessagingSwift/libsignal-protocol-swift-master/libsignal-protocol-swift/libsignal-protocol-c/group_cipher.c:66-156 | A message is returned only if the advanced chain was stored; every error leaves the store unchanged |
| `GroupCiphers.GroupCipher.Decrypt` | ios/SignalMessagingSwift/libsignal-protocol-swift-master/libsignal-protocol-swift/libsignal-protocol-c/group_cipher.c:158-241 | The record is written back only on success; every error leaves the store unchanged |
| `GroupCiphers.GroupSessionBuilder.ProcessSession` | ios/SignalMessagingSwift/libsignal-protocol-swift-master/libsignal-protocol-swift/libsignal-protocol-c/group_session_builder.c:39-70 | Installs the distributed state in front |
| `GroupCiphers.GroupSessionBuilder.CreateSession` | ios/SignalMessagingSwift/libsignal-protocol-swift-master/libsignal-protocol-swift/libsignal-protocol-c/group_session_builder.c:72-142 | Generates keys only for an empty record and distributes the current iteration and seed |
| `GroupRuns.DeliveryVerdict` | ios/SignalMessagingSwift/libsignal-protocol-swift-master/libsignal-protocol-swift/libsignal-protocol-c/group_cipher.c:156-315 | The exact outcome of every delivery at a member, and that the member invariant stays |
| `GroupRuns.RunKeepsInStep` | ios/SignalMessagingSwift/libsignal-protocol-swift-master/libsignal-protocol-swift/libsignal-protocol-c/group_cipher.c:66-315 | Every run of creating, sending, starting over, installing and hearing keeps every state on the chain of its seed |
| `GroupRuns.GroupAgreement` | ios/SignalMessagingSwift/libsignal-protocol-swift-master/libsignal-protocol-swift/libsignal-protocol-c/group_cipher.c:66-315 | In every run, whatever was installed and in any order of arrival, a letter yields the sender's text if and only if the newest state with its key id comes from its seed, it is not older than the installed iteration, unheard by this state, not evicted and at most 2000 ahead; an older one is a duplicate |
| `SenderKeys.TakeFollowsTheWindow` | ios/SignalMessagingSwift/libsignal-protocol-swift-master/libsignal-protocol-swift/libsignal-protocol-c/group_cipher.c:243-315 | Whatever its seeds are, a state accepts, calls duplicate or calls too far ahead exactly as its window of iterations says |
| `GroupNetwork.MembersHearOnlyWhatWasSaid` | ios/SignalMessagingSwift/libsignal-protocol-swift-master/libsignal-protocol-swift/libsignal-protocol-c/group_cipher.c:158-241 | Over every run with any distributions installed and any messages delivered: under a signing key that is not the attacker's a member accepts only a message its owner said, unchanged, and gets exactly its text, even if others know every seed |
| `GroupNetwork.EachStateHearsOnce` | ios/SignalMessagingSwift/libsignal-protocol-swift-master/libsignal-protocol-swift/libsignal-protocol-c/group_cipher.c:158-315 | Over the same runs, below the wrap of the iteration: the state that accepts a message was installed at or before its iteration and has not accepted it before |
| `GroupNetwork.HeardAtMostOnce` | ios/SignalMessagingSwift/libsignal-protocol-swift-master/libsignal-protocol-swift/libsignal-protocol-c/group_cipher.c:158-315 | Over the same runs a member accepts two messages about one sender with the same key id and iteration only if it installed another distribution with that key id in between |
| `GroupNetwork.EncryptOutcome` | ios/SignalMessagingSwift/libsignal-protocol-swift-master/libsignal-protocol-swift/libsignal-protocol-c/group_cipher.c:66-156 | The message carries key id and iteration of the chain, is encrypted under the keys derived from its seed and signed by the sender; the chain moves on by one; an empty record and a record without private key are errors |
| `GroupNetwork.DecryptOutcome` | ios/SignalMessagingSwift/libsignal-protocol-swift-master/libsignal-protocol-swift/libsignal-protocol-c/group_cipher.c:158-315 | The exact outcome for every message: newest state with the key id, signature, window of iterations, ciphertext, each with its error |
| `GroupNetwork.DistributeOutcome` | ios/SignalMessagingSwift/libsignal-protocol-swift-master/libsignal-protocol-swift/libsignal-protocol-c/group_session_builder.c:72-142 | An existing record is kept, an empty one gets one state with a new seed and signing pair; what a member installs from the distribution message is the sender's state without private key and skipped keys |
| `GroupNetwork.InstallOutcome` | ios/SignalMessagingSwift/libsignal-protocol-swift-master/libsignal-protocol-swift/libsignal-protocol-c/group_session_builder.c:39-70 | The installed state is in front of the four newest others, which are unchanged and in order |
| `GroupNetwork.RunKeepsGood` | ios/SignalMessagingSwift/libsignal-protocol-swift-master/libsignal-protocol-swift/libsignal-protocol-c/group_cipher.c:66-315 | Every sender signs with a key of its own that the attacker does not have, and everything said carries its sender's signature over key id, iteration and ciphertext |
| `GroupRuns.GroupKeysConserved` | ios/SignalMessagingSwift/libsignal-protocol-swift-master/libsignal-protocol-swift/libsignal-protocol-c/sender_key_state.c:470-534 | In every run the iterations of every installed state since its installation are exactly the heard, stored and evicted ones, and no two letters share seed and iteration |
| `ForwardSecrecy.HeldByState` | ios/SignalMessagingSwift/libsignal-protocol-swift-master/libsignal-protocol-swift/libsignal-protocol-c/session_state.c:18-70 | The secrets of a session are its root key, one step of each chain and the keys of stored positions |
| `ForwardSecrecy.LearnsExactly` | ios/SignalMessagingSwift/libsignal-protocol-swift-master/libsignal-protocol-swift/libsignal-protocol-c/session_cipher.c:650-724 | From all session secrets of a device and any private keys the keys of a chain position follow if and only if the private keys alone give them or some session leads there: a chain that has not passed it, a stored key, or a root key and private keys for every root step since |
| `ForwardSecrecy.BehindLeadsNowhere` | ios/SignalMessagingSwift/libsignal-protocol-swift-master/libsignal-protocol-swift/libsignal-protocol-c/session_cipher.c:650-724 | A session never leads back to a position its chains have passed, whatever private keys come in addition |
| `ForwardSecrecy.ReceivedStaysSecret` | ios/SignalMessagingSwift/libsignal-protocol-swift-master/libsignal-protocol-swift/libsignal-protocol-c/session_cipher.c:384-455 | At every point of every run: from all session secrets of the device and any private keys, a key of a message accepted by a session still held follows if and only if those private keys alone give every agreement it is derived from, or a session of another address leads there; that needs a session from the same agreement, and without private keys one whose chains have not passed the message or that has stored its keys |
| `ForwardSecrecy.SentStaysSecret` | ios/SignalMessagingSwift/libsignal-protocol-swift-master/libsignal-protocol-swift/libsignal-protocol-c/session_cipher.c:100-259 | The same if and only if for messages sent by a session still held |
| `SharedSessions.SharedSessionGivesTheKey` | ios/SignalMessagingSwift/libsignal-protocol-swift-master/libsignal-protocol-swift/libsignal-protocol-c/session_builder.c:88-189 | Runs in which it happens: one pre-key message answered under two addresses; the key of the next message, accepted under one of them, follows from the session of the other without any private key |
| `Recovery.SentRecovers` | ios/SignalMessagingSwift/libsignal-protocol-swift-master/libsignal-protocol-swift/libsignal-protocol-c/session_cipher.c:100-259 | After everything a device held was revealed, a message it later sends under a ratchet key generated since follows if and only if private keys alone give it, or give every agreement from a revealed root key on; never if they do not give the agreement of its chain. For runs in which the keys in the stores, messages and bundles have been generated |
| `Recovery.ReceivedRecovers` | ios/SignalMessagingSwift/libsignal-protocol-swift-master/libsignal-protocol-swift/libsignal-protocol-c/session_cipher.c:560-648 | The same for a message accepted later under a ratchet key generated since |
| `Recovery.RunKeepsDated` | ios/SignalMessagingSwift/libsignal-protocol-swift-master/libsignal-protocol-swift/libsignal-protocol-c/session_cipher.c:560-648 | In such runs every key in a session has been generated, and the ratchet key of every chain went into its base |
| `ForwardSecrecy.RunKeepsPassed` | ios/SignalMessagingSwift/libsignal-protocol-swift-master/libsignal-protocol-swift/libsignal-protocol-c/session_cipher.c:100-259 | In every run the chain key of every sent message is behind its session: no sending or receiving chain comes back to it |
| `TwoAddresses.HeldWasBegun` | ios/SignalMessagingSwift/libsignal-protocol-swift-master/libsignal-protocol-swift/libsignal-protocol-c/session_builder.c:88-189 | Every session in a record was begun by a step of the run under the same address, from a pre-key message or a bundle |
| `TwoAddresses.AcceptedUnderTwoAddresses` | ios/SignalMessagingSwift/libsignal-protocol-swift-master/libsignal-protocol-swift/libsignal-protocol-c/session_builder.c:88-189 | A message accepted under two addresses: both sessions answer the same base key and identity with the same private keys, or the device answers a session it opened with itself. If the one-time keys it started with had been generated, two answers share one only if its id is exempt, its removal failed or it was stored under two ids |
| `TwoAddresses.AcceptedOnceMore` | ios/SignalMessagingSwift/libsignal-protocol-swift-master/libsignal-protocol-swift/libsignal-protocol-c/session_builder.c:88-189 | A pre-key message that began a session is accepted again, under an address without a session for its base key, if and only if the address trusts the initiator and the private keys it was answered with are still stored under the ids it names |
| `Acceptance.SessionAnswers` | ios/SignalMessagingSwift/libsignal-protocol-swift-master/libsignal-protocol-swift/libsignal-protocol-c/session_cipher.c:457-558 | What a session says to a message some device sealed, including the error, from chain positions and identities alone |
| `Acceptance.SessionDecides` | ios/SignalMessagingSwift/libsignal-protocol-swift-master/libsignal-protocol-swift/libsignal-protocol-c/session_cipher.c:457-558 | The exact outcome for every message: version, window of its chain, MAC over every field and both identities, ciphertext, each with its error |
| `Acceptance.IncompleteSession` | ios/SignalMessagingSwift/libsignal-protocol-swift-master/libsignal-protocol-swift/libsignal-protocol-c/session_cipher.c:471-640 | Without a sending chain a session calls every message invalid; anything else missing is an unknown error, when decrypting and when encrypting |
| `Acceptance.RecordAnswers` | ios/SignalMessagingSwift/libsignal-protocol-swift-master/libsignal-protocol-swift/libsignal-protocol-c/session_cipher.c:384-455 | A record with archived sessions gives the first answer other than "invalid" |
| `Acceptance.SentIsAcceptedExactly` | ios/SignalMessagingSwift/libsignal-protocol-swift-master/libsignal-protocol-swift/libsignal-protocol-c/session_cipher.c:326-382 | In every run of the network a sent message is accepted if and only if the first answer other than "invalid" of the record's sessions is its text |
| `Acceptance.OpeningIsAnswered` | ios/SignalMessagingSwift/libsignal-protocol-swift-master/libsignal-protocol-swift/libsignal-protocol-c/session_cipher.c:261-324 | A message sent on a newly opened session is accepted by a device without a session for its base key if and only if the sender is trusted, the bundle and the keys it names are still the device's, and at most 2000 messages went before; it gives its text |
| `Acceptance.PlainMessageOutcome` | ios/SignalMessagingSwift/libsignal-protocol-swift-master/libsignal-protocol-swift/libsignal-protocol-c/session_cipher.c:326-382 | The exact outcome whatever callbacks fail, and that the new record is stored if and only if the text is handed out |
| `Acceptance.PreKeyMessageOutcome` | ios/SignalMessagingSwift/libsignal-protocol-swift-master/libsignal-protocol-swift/libsignal-protocol-c/session_cipher.c:261-324 | When everything can be loaded: an untrusted identity first, then unknown key ids of a message for a new session, then a failing pin, the outcome of the record, a failing callback or store, and a failing removal of the one-time key of a new session |
| `Acceptance.BundleOutcome` | ios/SignalMessagingSwift/libsignal-protocol-swift-master/libsignal-protocol-swift/libsignal-protocol-c/session_builder.c:191-345 | Exactly when a bundle is refused as untrusted, as an invalid key or by a failing store, when its session is stored and when it succeeds, whatever callbacks fail |
| `Hkdf.Expand` | ios/SignalMessagingSwift/libsignal-protocol-swift-master/libsignal-protocol-swift/libsignal-protocol-c/hkdf.c:103-200 | The first bytes of the block sequence, whenever the counter cannot wrap |
| `Hkdf.NextBlock` | ios/SignalMessagingSwift/libsignal-protocol-swift-master/libsignal-protocol-swift/libsignal-protocol-c/hkdf.c:121-158 | One block is the HMAC of the previous block, the info if given and the counter |
| `Hkdf.DeriveSecrets` | ios/SignalMessagingSwift/libsignal-protocol-swift-master/libsignal-protocol-swift/libsignal-protocol-c/hkdf.c:202-228 | For version 3 the HKDF of RFC 5869; unknown versions are errors |
| `Hkdf.BlocksAreRfc5869` | ios/SignalMessagingSwift/libsignal-protocol-swift-master/libsignal-protocol-swift/libsignal-protocol-c/hkdf.c:103-200 | From counter 1 the blocks are T(1), T(2), ... of section 2.3 of RFC 5869 |
| `Hkdf.EndsExactlyWithinAByte` | ios/SignalMessagingSwift/libsignal-protocol-swift-master/libsignal-protocol-swift/libsignal-protocol-c/hkdf.c:109-121 | The loop ends if and only if blocks plus first counter stay within 255 |
| `Hkdf.ShorterIsPrefix` | ios/SignalMessagingSwift/libsignal-protocol-swift-master/libsignal-protocol-swift/libsignal-protocol-c/hkdf.c:103-200 | A shorter output is a prefix of a longer one |
| `Fingerprints.LogicalKeyBytes` | ios/SignalMessagingSwift/libsignal-protocol-swift-master/libsignal-protocol-swift/libsignal-protocol-c/fingerprint.c:226-282 | The serialised keys in sorted order |
| `Fingerprints.KeyBytesIgnoreOrder` | ios/SignalMessagingSwift/libsignal-protocol-swift-master/libsignal-protocol-swift/libsignal-protocol-c/fingerprint.c:226-282 | Key bytes depend only on the multiset of keys, whatever the order and the sort |
| `Fingerprints.KeyBytesAreTyped` | ios/SignalMessagingSwift/libsignal-protocol-swift-master/libsignal-protocol-swift/libsignal-protocol-c/curve.c:110-131 | Every key in order with the type byte 5 in front |
| `Fingerprints.KeyBytesDetermineKeys` | ios/SignalMessagingSwift/libsignal-protocol-swift-master/libsignal-protocol-swift/libsignal-protocol-c/fingerprint.c:226-282 | For keys of one length, key bytes are equal if and only if the multisets of keys are |
| `Bytes.SortedIsCanonical` | ios/SignalMessagingSwift/libsignal-protocol-swift-master/libsignal-protocol-swift/libsignal-protocol-c/curve.c:492-496 | A sorted list is determined by its multiset, so an unstable sort does not matter |
| `Fingerprints.GetFingerprint` | ios/SignalMessagingSwift/libsignal-protocol-swift-master/libsignal-protocol-swift/libsignal-protocol-c/fingerprint.c:284-368 | The given number of hash rounds, or an error for a short hash |
| `Fingerprints.HashIsLastDigest` | ios/SignalMessagingSwift/libsignal-protocol-swift-master/libsignal-protocol-swift/libsignal-protocol-c/fingerprint.c:316-345 | The first digest is over version, key bytes, identifier and key bytes again, each later one over the digest before and the key bytes |
| `Fingerprints.HashDeterminesParty` | ios/SignalMessagingSwift/libsignal-protocol-swift-master/libsignal-protocol-swift/libsignal-protocol-c/fingerprint.c:316-345 | As far as the digest tells apart what it is fed, hashes are equal if and only if key bytes and identifiers are |
| `Fingerprints.EncodeChunks` | ios/SignalMessagingSwift/libsignal-protocol-swift-master/libsignal-protocol-swift/libsignal-protocol-c/fingerprint.c:396-407 | Five digits per five-byte chunk |
| `Fingerprints.FiveDigitsSpellTheNumber` | ios/SignalMessagingSwift/libsignal-protocol-swift-master/libsignal-protocol-swift/libsignal-protocol-c/fingerprint.c:402-406 | The five digits are the decimal digits of the number |
| `Fingerprints.DigitsOfChunk` | ios/SignalMessagingSwift/libsignal-protocol-swift-master/libsignal-protocol-swift/libsignal-protocol-c/fingerprint.c:370-414 | Every five bytes give the last five decimal digits of their big-endian number, in order |
| `Fingerprints.StrcmpDecides` | ios/SignalMessagingSwift/libsignal-protocol-swift-master/libsignal-protocol-swift/libsignal-protocol-c/fingerprint.c:507-514 | Less exactly by the first differing character or by ending first |
| `Fingerprints.StrcmpIsTotal` | ios/SignalMessagingSwift/libsignal-protocol-swift-master/libsignal-protocol-swift/libsignal-protocol-c/fingerprint.c:507-514 | String comparison is antisymmetric and zero exactly for equal strings |
| `Fingerprints.Generate` | ios/SignalMessagingSwift/libsignal-protocol-swift-master/libsignal-protocol-swift/libsignal-protocol-c/fingerprint.c:147-224 | Displayable and scannable fingerprint, or the first error |
| `Fingerprints.BothSidesAgree` | ios/SignalMessagingSwift/libsignal-protocol-swift-master/libsignal-protocol-swift/libsignal-protocol-c/fingerprint.c:87-115 | Both people succeed or fail together, see the same sixty digits, smaller half first, and each scannable matches the other |
| `Fingerprints.BothSidesAgreeOnLists` | ios/SignalMessagingSwift/libsignal-protocol-swift-master/libsignal-protocol-swift/libsignal-protocol-c/fingerprint.c:117-145 | The same with key lists in any order on each side |
| `Fingerprints.MatchMeansSameKeys` | ios/SignalMessagingSwift/libsignal-protocol-swift-master/libsignal-protocol-swift/libsignal-protocol-c/fingerprint.c:808-834 | As far as the digest tells apart what it is fed, scanned codes match if and only if both people made them from the same identifiers and keys of both |
| `Fingerprints.SameTextMeansSameKeys` | ios/SignalMessagingSwift/libsignal-protocol-swift-master/libsignal-protocol-swift/libsignal-protocol-c/fingerprint.c:466-527 | As far as thirty digits tell parties apart, two people read the same text if and only if they made it from the same two identifiers and keys |
| `Fingerprints.GeneratedExactly` | ios/SignalMessagingSwift/libsignal-protocol-swift-master/libsignal-protocol-swift/libsignal-protocol-c/fingerprint.c:147-224 | Exactly when there is a fingerprint, and which error otherwise |
| `Fingerprints.MatchIsMutual` | ios/SignalMessagingSwift/libsignal-protocol-swift-master/libsignal-protocol-swift/libsignal-protocol-c/fingerprint.c:808-834 | One side sees a match exactly when the other does, which is with crosswise equal contents, and identifiers in version 0 |
| `DeviceConsistency.CreateCommitment` | ios/SignalMessagingSwift/libsignal-protocol-swift-master/libsignal-protocol-swift/libsignal-protocol-c/device_consistency.c:104-190 | The digest of version, generation and sorted keys |
| `DeviceConsistency.BigEndianSpellsTheNumber` | ios/SignalMessagingSwift/libsignal-protocol-swift-master/libsignal-protocol-swift/libsignal-protocol-c/device_consistency.c:144-147 | The generation is hashed as its four bytes, highest first |
| `DeviceConsistency.CommitmentIgnoresOrder` | ios/SignalMessagingSwift/libsignal-protocol-swift-master/libsignal-protocol-swift/libsignal-protocol-c/device_consistency.c:104-190 | The commitment depends only on the multiset of keys |
| `DeviceConsistency.CommitmentDeterminesKeys` | ios/SignalMessagingSwift/libsignal-protocol-swift-master/libsignal-protocol-swift/libsignal-protocol-c/device_consistency.c:104-190 | If the digest tells apart the two inputs, commitments over keys of one length are equal if and only if generations and multisets of keys are |
| `DeviceConsistency.GenerateCode` | ios/SignalMessagingSwift/libsignal-protocol-swift-master/libsignal-protocol-swift/libsignal-protocol-c/device_consistency.c:424-539 | The first six digits of the digest of version, commitment and VRF outputs in sorted order |
| `DeviceConsistency.CodeIgnoresOrder` | ios/SignalMessagingSwift/libsignal-protocol-swift-master/libsignal-protocol-swift/libsignal-protocol-c/device_consistency.c:424-539 | The code is six digits and depends only on the multiset of VRF outputs, even when signatures with equal outputs are placed differently |
| `DeviceConsistency.CodeDigits` | ios/SignalMessagingSwift/libsignal-protocol-swift-master/libsignal-protocol-swift/libsignal-protocol-c/device_consistency.c:424-539 | The code is the last five digits of the number of the first five digest bytes and the first of those of the next five, over version, commitment and outputs |
| `DeviceConsistency.CodeDeterminesOutputs` | ios/SignalMessagingSwift/libsignal-protocol-swift-master/libsignal-protocol-swift/libsignal-protocol-c/device_consistency.c:424-539 | If the six digits tell apart the two inputs, codes are equal if and only if commitments and multisets of VRF outputs are |
| `OneTimeKeys.UnstoredIdIsRefused` | ios/SignalMessagingSwift/libsignal-protocol-swift-master/libsignal-protocol-swift/libsignal-protocol-c/session_builder.c:88-189 | In every run a pre-key message for a new session naming an id that was never stored is refused and changes nothing |
| `PreKeyIds.GeneratePreKeys` | ios/SignalMessagingSwift/libsignal-protocol-swift-master/libsignal-protocol-swift/libsignal-protocol-c/key_helper.c:101-176 | One new key pair per id, with the cyclic ids of the block |
| `PreKeyIds.IdAt` | ios/SignalMessagingSwift/libsignal-protocol-swift-master/libsignal-protocol-swift/libsignal-protocol-c/key_helper.c:111-123 | Every id lies in 1..0xFFFFFE |
| `PreKeyIds.IdsAscend` | ios/SignalMessagingSwift/libsignal-protocol-swift-master/libsignal-protocol-swift/libsignal-protocol-c/key_helper.c:111-123 | The ids of a block ascend one by one and start again at 1 after 0xFFFFFE, until the 32-bit sum wraps around |
| `PreKeyIds.IdsAreDistinct` | ios/SignalMessagingSwift/libsignal-protocol-swift-master/libsignal-protocol-swift/libsignal-protocol-c/key_helper.c:111-123 | For every start and count the ids of a block are distinct if and only if it has at most 512 keys, or at most 0xFFFFFE without the 32-bit sum wrapping around |
| `PreKeyIds.ShortestRepeatingBlock` | ios/SignalMessagingSwift/libsignal-protocol-swift-master/libsignal-protocol-swift/libsignal-protocol-c/key_helper.c:111-123 | No block of 512 keys repeats an id, and one of 513 does if and only if it wraps around |
| `PreKeyIds.TakesExactly` | ios/SignalMessagingSwift/libsignal-protocol-swift-master/libsignal-protocol-swift/libsignal-protocol-c/key_helper.c:111-123 | Which ids a block takes, by a condition on start, count and id |
| `PreKeyIds.ExemptIdIsNeverGenerated` | ios/SignalMessagingSwift/libsignal-protocol-swift-master/libsignal-protocol-swift/libsignal-protocol-c/key_helper.c:111-123 | No id of any block is 0xFFFFFF, the id the session cipher never removes; a block starts with its own start if and only if that lies in 1..0xFFFFFE |
| `PreKeyIds.PreKeyStore.LastResortKey` | ios/SignalMessagingSwift/Signal/SignalClient.swift:138-147 | The stored key under the index the application asks for, or a new one whose id follows from that index; the store is unchanged |
| `PreKeyIds.PreKeyStore.RegisterPreKeys` | ios/SignalMessagingSwift/Signal/SignalClient.swift:137-156 | The block is stored; the last-resort key is in the store if and only if it was there before, and one generated here is under no id at all |
| `PreKeyIds.PreKeyStore.GetLastPreKeyIndex` | ios/SignalMessagingSwift/Signal/PreKeyStorePillar.swift:47-59 | The largest stored id, or 0 for an empty store |
| `PreKeyIds.PreKeyStore.StoreAll` | ios/SignalMessagingSwift/Signal/SignalClient.swift:150-156 | Stores every key of the block under its id |
| `PreKeyIds.PreKeyStore.Refill` | ios/SignalMessagingSwift/Signal/SignalClient.swift:186-198 | Registers keys again: a refill keeps every stored key if and only if its block, behind the largest stored id, takes none of their ids, and then adds one entry per key if its ids are distinct; a last-resort pair is drawn before the block exactly if none is stored, and is not stored |
| `PreKeyIds.KeptExactlyIfClear` | ios/SignalMessagingSwift/Signal/SignalClient.swift:186-198 | Storing the block overwrites no older key if and only if it takes no stored id |
| `PreKeyIds.ClearWithinTheCycle` | ios/SignalMessagingSwift/Signal/SignalClient.swift:186-198 | With all stored ids in 1..0xFFFFFE the block takes none of them if and only if it ends before it comes round to the smallest |
| `PreKeyIds.RoomIsClear` | ios/SignalMessagingSwift/Signal/SignalClient.swift:186-198 | While the largest stored id and the count stay within 0xFFFFFE nothing is overwritten and the new ids are distinct |

## Left out

- Curve25519, XEdDSA, VRF, AES, HMAC and SHA internals: symbolic terms or parameters instead.
- Protobuf packing and the framing of protocol.c: messages are records with a symbolic MAC or signature, storage round trips are between states and structures.
- What the code does later with a receiver chain read without its ratchet or chain key: reading it is modelled, using its null pointers is not.
- Failures of the cryptography callbacks (random numbers, HMAC, ciphers), and stored data that cannot be parsed.
- Acceptance.SentIsAcceptedExactly: speaks of the receiving record as it is; that two honest devices stay in step is stated for a single session (`TwoPartyAgreement`) and for the opening of sessions (`OpeningIsAnswered`), not for records whose sessions take turns.
- GroupNetwork.EachStateHearsOnce: leaves out runs that deliver iteration 2^32 - 1, after which the 32-bit counter of a chain starts again at 0.
- GroupNetwork.HeardAtMostOnce: leaves out the same runs, for the same reason.
- Memory management: allocation failure, reference counts, clearing of buffers, and two objects sharing a state. A loaded record is a copy, as in the store round trip.
- What the application does inside its decrypt callback, beyond that the cipher refuses to be called; user records and log output.
- Locks: each call is one step.
- Device ids in addresses: an address is one string, as the identity store of the application uses only the name.
- Version-2 sessions in runs: the current code sets up version 3 only; decrypting with other versions is modelled for single calls.
- Hkdf.Expand: requires that the counter cannot wrap, because otherwise the loop does not end; `EndsExactlyWithinAByte` gives the exact condition.
- `hkdf_expand` computes the number of blocks in floating point; the model uses the exact quotient.
- The algorithm of the library's sort: any sorted permutation is allowed, and passed in as a parameter.
- Swift wrappers, the network client and the React bridge, apart from the identity store, the pre-key store and the refill arithmetic.
