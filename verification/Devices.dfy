/**
 One device: its stores and what every entry point of the session builder and the
 session cipher (session_builder.c, session_cipher.c) does to them.
 */
module Devices {
  import opened Common
  import opened Crypto
  import opened Messages
  import opened SessionStates
  import opened X3dh
  import opened SessionCiphers
  import opened SessionRecords

  type Address = string

  /** A pre key with this id is never used up. */
  const PRE_KEY_MEDIUM_MAX_VALUE: uint32 := 0xFFFFFF

  datatype Device = Device(
    identity: KeyPair,
    registrationId: uint32,
    sessions: map<Address, Record>,
    preKeys: map<uint32, KeyPair>,
    signedPreKeys: map<uint32, KeyPair>,
    identities: map<Address, PublicKey>,
    next: nat)

  /** Which of the application's callbacks that only read report failure during a call. */
  datatype LoadFaults = LoadFaults(sessionContains: bool, sessionLoad: bool, identityTrust: bool, identityKeyPair: bool,
                                   registrationId: bool, signedPreKeyLoad: bool, preKeyLoad: bool)

  /** Which of the application's callbacks report failure during a call. */
  datatype Faults = Faults(loads: LoadFaults, identitySave: bool, decryptCallback: bool, sessionStore: bool,
                           preKeyRemove: bool)

  datatype Signature = Signature(signer: PublicKey, signed: PublicKey)

  datatype Bundle = Bundle(registrationId: uint32, preKeyId: uint32, preKey: Option<PublicKey>, signedPreKeyId: uint32,
                           signedPreKey: Option<PublicKey>, signature: Signature, identityKey: PublicKey)

  datatype Reply<+T> = Reply(result: Result<T>, device: Device)

  /** `signal_protocol_session_load_session`: a stored record is never fresh again. */
  function Load(d: Device, a: Address): Record {
    if a in d.sessions then d.sessions[a].(isFresh := false) else FRESH
  }

  /** `signal_protocol_session_store_session`. */
  function Store(d: Device, a: Address, r: Record): Device {
    d.(sessions := d.sessions[a := r.(isFresh := false)])
  }

  /** Trust on first use: the first identity key seen for an address is the only one trusted. */
  predicate Trusts(d: Device, a: Address, key: PublicKey) {
    a in d.identities ==> d.identities[a] == key
  }

  function Pin(d: Device, a: Address, key: PublicKey): Device {
    d.(identities := d.identities[a := key])
  }

  /** The record with room for a new session in its current state. */
  function Cleared(r: Record): Record {
    if r.isFresh then r else Promoted(r, EMPTY)
  }

  /** The responder's new session for a pre-key message. */
  function AnsweringState(d: Device, s: State, p: PreKeyMessage, signed: KeyPair, oneTime: Option<KeyPair>): State {
    BobInitialized(s, BobParameters(d.identity, signed, oneTime, signed, p.identityKey, p.baseKey))
      .(localRegistrationId := d.registrationId, remoteRegistrationId := p.registrationId,
        aliceBaseKey := Some(p.baseKey))
  }

  /** `session_builder_process_pre_key_signal_message_v3`: the record with the new session, and the one-time
      pre key to remove once the message is decrypted. */
  function Answered(d: Device, r: Record, p: PreKeyMessage, loads: LoadFaults): Result<(Record, Option<uint32>)> {
    if HasSession(r, p.version, p.baseKey) then Ok((r, None))
    else if loads.signedPreKeyLoad then Err(StoreFailed)
    else if p.signedPreKeyId !in d.signedPreKeys then Err(InvalidKeyId)
    else if loads.identityKeyPair then Err(StoreFailed)
    else if p.preKeyId.Some? && loads.preKeyLoad then Err(StoreFailed)
    else if p.preKeyId.Some? && p.preKeyId.value !in d.preKeys then Err(InvalidKeyId)
    else if loads.registrationId then Err(StoreFailed)
    else
      var oneTime := if p.preKeyId.Some? then Some(d.preKeys[p.preKeyId.value]) else None;
      var r1 := Cleared(r);
      Ok((r1.(state := AnsweringState(d, r1.state, p, d.signedPreKeys[p.signedPreKeyId], oneTime)),
          if p.preKeyId.Some? && p.preKeyId.value != PRE_KEY_MEDIUM_MAX_VALUE then p.preKeyId else None))
  }

  /** `session_cipher_decrypt_pre_key_signal_message`. */
  function PreKeyMessageDecrypted(d: Device, a: Address, p: PreKeyMessage, f: Faults): Reply<Text> {
    if f.loads.sessionLoad || f.loads.identityTrust then Reply(Err(StoreFailed), d)
    else if !Trusts(d, a, p.identityKey) then Reply(Err(UntrustedIdentity), d)
    else match Answered(d, Load(d, a), p, f.loads)
      case Err(e) => Reply(Err(e), d)
      case Ok((r, used)) =>
        if f.identitySave then Reply(Err(StoreFailed), d)
        else
          var t := DecryptedFromRecord(r, p.message, d.next);
          var d1 := Pin(d, a, p.identityKey).(next := t.next);
          match t.result
          case Err(e) => Reply(Err(e), d1)
          case Ok(text) =>
            if f.decryptCallback then Reply(Err(CallbackFailed), d1)
            else if f.sessionStore then Reply(Err(StoreFailed), d1)
            else
              var d2 := Store(d1, a, t.record);
              if used.None? then Reply(Ok(text), d2)
              else if f.preKeyRemove then Reply(Err(StoreFailed), d2)
              else Reply(Ok(text), d2.(preKeys := d.preKeys - {used.value}))
  }

  /** `session_cipher_decrypt_signal_message`. */
  function SignalMessageDecrypted(d: Device, a: Address, m: Message, f: Faults): Reply<Text> {
    if f.loads.sessionContains then Reply(Err(StoreFailed), d)
    else if a !in d.sessions then Reply(Err(NoSession), d)
    else if f.loads.sessionLoad then Reply(Err(StoreFailed), d)
    else
      var t := DecryptedFromRecord(Load(d, a), m, d.next);
      var d1 := d.(next := t.next);
      match t.result
      case Err(e) => Reply(Err(e), d1)
      case Ok(text) =>
        if f.decryptCallback then Reply(Err(CallbackFailed), d1)
        else if f.sessionStore then Reply(Err(StoreFailed), d1)
        else Reply(Ok(text), Store(d1, a, t.record))
  }

  /** `session_cipher_encrypt`: the message is returned only once the advanced chain is stored. */
  function MessageEncrypted(d: Device, a: Address, text: Text, f: Faults): Reply<Envelope> {
    var r := Load(d, a);
    if f.loads.sessionLoad then Reply(Err(StoreFailed), d)
    else match Encrypted(r.state, text)
      case Err(e) => Reply(Err(e), d)
      case Ok((s, e)) =>
        if f.sessionStore then Reply(Err(StoreFailed), d)
        else Reply(Ok(e), Store(d, a, r.(state := s)))
  }

  /** The initiator's new session for a bundle; it uses the key pairs `next` and `next + 1`. */
  function OpeningState(d: Device, s: State, b: Bundle): State
    requires b.signedPreKey.Some?
  {
    var (base, signed) := (PairOf(d.next), b.signedPreKey.value);
    var preKeyId := if b.preKey.Some? then Some(b.preKeyId) else None;
    AliceInitialized(s, AliceParameters(d.identity, base, b.identityKey, signed, b.preKey, signed), d.next + 1)
      .(pendingPreKey := Some(PendingPreKey(preKeyId, b.signedPreKeyId, base.pub)),
        localRegistrationId := d.registrationId, remoteRegistrationId := b.registrationId,
        aliceBaseKey := Some(base.pub))
  }

  /** `session_builder_process_pre_key_bundle`. */
  function BundleProcessed(d: Device, a: Address, b: Bundle, f: Faults): Reply<()> {
    if f.loads.identityTrust then Reply(Err(StoreFailed), d)
    else if !Trusts(d, a, b.identityKey) then Reply(Err(UntrustedIdentity), d)
    else if b.signedPreKey.Some? && b.signature != Signature(b.identityKey, b.signedPreKey.value) then
      Reply(Err(InvalidKey), d)
    else if b.signedPreKey.None? then Reply(Err(InvalidKey), d)
    else if f.loads.sessionLoad then Reply(Err(StoreFailed), d)
    else if f.loads.identityKeyPair then Reply(Err(StoreFailed), d.(next := d.next + 1))
    else
      var r := Cleared(Load(d, a));
      var d1 := d.(next := d.next + 2);
      if f.loads.registrationId || f.sessionStore then Reply(Err(StoreFailed), d1)
      else
        var d2 := Store(d1, a, r.(state := OpeningState(d, r.state, b)));
        if f.identitySave then Reply(Err(StoreFailed), d2) else Reply(Ok(()), Pin(d2, a, b.identityKey))
  }

  // ---- Failure leaves the stores alone ----

  /** The one-time pre key a pre-key message asks to be removed after it is decrypted. */
  function ToRemove(d: Device, a: Address, p: PreKeyMessage, f: Faults): Option<uint32> {
    match Answered(d, Load(d, a), p, f.loads)
    case Ok((_, used)) => used
    case Err(_) => None
  }

  /** A failing decryption changes neither sessions nor pre keys, unless all that failed is the removal of the used
      pre key. Of the identity store, only a pre-key message may have pinned its sender's key. */
  lemma FailedDecryptIsAtomic(d: Device, a: Address, p: PreKeyMessage, m: Message, f: Faults)
    ensures var reply := SignalMessageDecrypted(d, a, m, f);
            reply.result.Err? ==> reply.device == d.(next := reply.device.next)
    ensures var reply := PreKeyMessageDecrypted(d, a, p, f);
            reply.result.Err? && PreKeyMessageDecrypted(d, a, p, f.(preKeyRemove := false)).result.Err? ==>
              || reply.device == d.(next := reply.device.next)
              || reply.device == Pin(d, a, p.identityKey).(next := reply.device.next)
  {
    hide DecryptedFromRecord, Answered;
  }

  /** A message that would be decrypted if removing its pre key succeeded is reported as failed exactly when that
      removal is asked for and fails. The session is stored all the same, and the used pre key is still there. */
  lemma FailedRemovalKeepsTheSession(d: Device, a: Address, p: PreKeyMessage, f: Faults)
    ensures var (reply, ideal) :=
              (PreKeyMessageDecrypted(d, a, p, f), PreKeyMessageDecrypted(d, a, p, f.(preKeyRemove := false)));
            && (ideal.result.Ok? ==> (reply.result.Err? <==> f.preKeyRemove && ToRemove(d, a, p, f).Some?))
            && (ideal.result.Err? ==> reply == ideal)
            && (ideal.result.Ok? && reply.result.Err? ==>
                  && reply.result == Err(StoreFailed)
                  && a in reply.device.sessions && reply.device.sessions == ideal.device.sessions
                  && reply.device.preKeys == d.preKeys && ToRemove(d, a, p, f).value !in ideal.device.preKeys)
  {
    hide DecryptedFromRecord, Answered;
  }
}
