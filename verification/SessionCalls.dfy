/**
 The session builder and the session cipher as objects working on a store
 (session_builder.c, session_cipher.c). Every call loads a record, works on it and
 writes it back; each is proved to do what `Devices` says.
 */
module SessionCalls {
  import opened Common
  import opened Crypto
  import opened Messages
  import opened SessionStates
  import opened X3dh
  import opened SessionCiphers
  import opened SessionRecords
  import opened Devices

  /** The application's stores behind the callbacks. */
  class Stores {
    const identity: KeyPair
    const registrationId: uint32
    var sessions: map<Address, Record>
    var preKeys: map<uint32, KeyPair>
    var signedPreKeys: map<uint32, KeyPair>
    var identities: map<Address, PublicKey>

    constructor (d: Device)
      ensures identity == d.identity && registrationId == d.registrationId && sessions == d.sessions
      ensures preKeys == d.preKeys && signedPreKeys == d.signedPreKeys && identities == d.identities
    {
      identity, registrationId, sessions := d.identity, d.registrationId, d.sessions;
      preKeys, signedPreKeys, identities := d.preKeys, d.signedPreKeys, d.identities;
    }

    /** The stores and the key generator together. */
    function View(gen: KeyGenerator): Device
      reads this, gen
    {
      Device(identity, registrationId, sessions, preKeys, signedPreKeys, identities, gen.next)
    }

    method LoadSession(a: Address) returns (record: SessionRecord)
      ensures record.View() == if a in sessions then sessions[a].(isFresh := false) else FRESH
      ensures fresh(record)
    {
      if a in sessions {
        record := new SessionRecord(sessions[a].(isFresh := false));
      } else {
        record := new SessionRecord(FRESH);
      }
    }

    method StoreSession(a: Address, record: SessionRecord)
      modifies this`sessions
      ensures sessions == old(sessions)[a := record.View().(isFresh := false)]
    {
      sessions := sessions[a := record.View().(isFresh := false)];
    }
  }

  class SessionBuilder {
    const store: Stores
    const gen: KeyGenerator
    const remote: Address

    constructor (store: Stores, gen: KeyGenerator, remote: Address)
      ensures this.store == store && this.gen == gen && this.remote == remote
    {
      this.store, this.gen, this.remote := store, gen, remote;
    }

    /** The part of `session_builder_process_pre_key_signal_message_v3` that sets up the record's new current state. */
    method AnswerSession(record: SessionRecord, p: PreKeyMessage, signed: KeyPair, oneTime: Option<KeyPair>,
                         loads: LoadFaults)
      returns (r: Result<Option<uint32>>)
      modifies record
      ensures r == if loads.registrationId then Err(StoreFailed) else Ok(None)
      ensures r.Ok? ==>
                var r := Cleared(old(record.View()));
                record.View() == r.(state := AnsweringState(store.View(gen), r.state, p, signed, oneTime))
    {
      hide BobInitialized, Promoted;
      var parameters := BobParameters(store.identity, signed, oneTime, signed, p.identityKey, p.baseKey);
      if !record.isFresh {
        record.ArchiveCurrentState();
      }
      var state := new SessionState(record.state);
      ghost var s := state.View();
      BobInitialize(state, parameters);
      if loads.registrationId {
        return Err(StoreFailed);
      }
      state.localRegistrationId := store.registrationId;
      state.remoteRegistrationId := p.registrationId;
      state.aliceBaseKey := Some(p.baseKey);
      assert state.View() == AnsweringState(store.View(gen), s, p, signed, oneTime);
      record.state := state.View();
      return Ok(None);
    }

    /** `session_builder_process_pre_key_signal_message_v3`. */
    method ProcessV3(record: SessionRecord, p: PreKeyMessage, loads: LoadFaults) returns (r: Result<Option<uint32>>)
      modifies record
      ensures match Answered(store.View(gen), old(record.View()), p, loads)
              case Err(e) => r == Err(e)
              case Ok((built, used)) => r == Ok(used) && record.View() == built
    {
      hide AnsweringState, Cleared, HasSession;
      var known := record.HasSessionState(p.version, p.baseKey);
      if known {
        return Ok(None);
      }
      if loads.signedPreKeyLoad {
        return Err(StoreFailed);
      }
      if p.signedPreKeyId !in store.signedPreKeys {
        return Err(InvalidKeyId);
      }
      var signed := store.signedPreKeys[p.signedPreKeyId];
      if loads.identityKeyPair {
        return Err(StoreFailed);
      }
      var oneTime: Option<KeyPair> := None;
      if p.preKeyId.Some? {
        if loads.preKeyLoad {
          return Err(StoreFailed);
        }
        if p.preKeyId.value !in store.preKeys {
          return Err(InvalidKeyId);
        }
        oneTime := Some(store.preKeys[p.preKeyId.value]);
      }
      r := AnswerSession(record, p, signed, oneTime, loads);
      if r.Err? {
        return;
      }
      if p.preKeyId.Some? && p.preKeyId.value != PRE_KEY_MEDIUM_MAX_VALUE {
        return Ok(p.preKeyId);
      }
      return Ok(None);
    }

    /** `session_builder_process_pre_key_signal_message`. */
    method ProcessPreKeySignalMessage(record: SessionRecord, p: PreKeyMessage, f: Faults)
      returns (r: Result<Option<uint32>>)
      modifies record, store`identities
      ensures if f.loads.identityTrust
              then r == Err(StoreFailed) && store.identities == old(store.identities)
              else if !Trusts(old(store.View(gen)), remote, p.identityKey)
              then r == Err(UntrustedIdentity) && store.identities == old(store.identities)
              else match Answered(old(store.View(gen)), old(record.View()), p, f.loads)
                case Err(e) => r == Err(e) && store.identities == old(store.identities)
                case Ok((built, used)) =>
                  if f.identitySave then r == Err(StoreFailed) && store.identities == old(store.identities)
                  else r == Ok(used) && record.View() == built
                       && store.identities == old(store.identities)[remote := p.identityKey]
    {
      if f.loads.identityTrust {
        return Err(StoreFailed);
      }
      if !Trusts(store.View(gen), remote, p.identityKey) {
        return Err(UntrustedIdentity);
      }
      r := ProcessV3(record, p, f.loads);
      if r.Err? {
        return;
      }
      if f.identitySave {
        return Err(StoreFailed);
      }
      store.identities := store.identities[remote := p.identityKey];
    }

    /** Sets up the initiator's state for a bundle; `d` is the device before the base key was generated. */
    method OpenState(state: SessionState, base: KeyPair, b: Bundle, loads: LoadFaults, ghost d: Device)
      returns (r: Result<()>)
      requires b.signedPreKey.Some? && base == PairOf(d.next) && gen.next == d.next + 1
      requires store.identity == d.identity && store.registrationId == d.registrationId
      modifies state, gen
      ensures r == if loads.registrationId then Err(StoreFailed) else Ok(())
      ensures r.Ok? ==> state.View() == OpeningState(d, old(state.View()), b)
      ensures gen.next == old(gen.next) + 1
    {
      hide AliceInitialized;
      var signed := b.signedPreKey.value;
      AliceInitialize(state, AliceParameters(store.identity, base, b.identityKey, signed, b.preKey, signed), gen);
      var preKeyId := if b.preKey.Some? then Some(b.preKeyId) else None;
      state.pendingPreKey := Some(PendingPreKey(preKeyId, b.signedPreKeyId, base.pub));
      if loads.registrationId {
        return Err(StoreFailed);
      }
      state.localRegistrationId := store.registrationId;
      state.remoteRegistrationId := b.registrationId;
      state.aliceBaseKey := Some(base.pub);
      return Ok(());
    }

    /** The part of `session_builder_process_pre_key_bundle` that sets up the record's new current state. */
    method OpenSession(record: SessionRecord, b: Bundle, loads: LoadFaults) returns (r: Result<()>)
      requires b.signedPreKey.Some?
      modifies record, gen
      ensures r == if loads.identityKeyPair || loads.registrationId then Err(StoreFailed) else Ok(())
      ensures r.Ok? ==>
                var r := Cleared(old(record.View()));
                record.View() == r.(state := OpeningState(old(store.View(gen)), r.state, b))
      ensures gen.next == old(gen.next) + if loads.identityKeyPair then 1 else 2
    {
      hide OpeningState, Promoted;
      ghost var d := store.View(gen);
      var base := gen.Generate();
      if loads.identityKeyPair {
        return Err(StoreFailed);
      }
      if !record.isFresh {
        record.ArchiveCurrentState();
      }
      var state := new SessionState(record.state);
      r := OpenState(state, base, b, loads, d);
      if r.Ok? {
        record.state := state.View();
      }
    }

    /** `session_builder_process_pre_key_bundle`. */
    method ProcessPreKeyBundle(b: Bundle, f: Faults) returns (r: Result<()>)
      modifies store, gen
      ensures var reply := BundleProcessed(old(store.View(gen)), remote, b, f);
              r == reply.result && store.View(gen) == reply.device
    {
      hide OpeningState, Cleared;
      if f.loads.identityTrust {
        return Err(StoreFailed);
      }
      if !Trusts(store.View(gen), remote, b.identityKey) {
        return Err(UntrustedIdentity);
      }
      if b.signedPreKey.Some? {
        if b.signature != Signature(b.identityKey, b.signedPreKey.value) {
          return Err(InvalidKey);
        }
      }
      if b.signedPreKey.None? {
        return Err(InvalidKey);
      }
      if f.loads.sessionLoad {
        return Err(StoreFailed);
      }
      var record := store.LoadSession(remote);
      r := OpenSession(record, b, f.loads);
      if r.Err? {
        return;
      }
      if f.sessionStore {
        return Err(StoreFailed);
      }
      store.StoreSession(remote, record);
      if f.identitySave {
        return Err(StoreFailed);
      }
      store.identities := store.identities[remote := b.identityKey];
      return Ok(());
    }
  }

  class SessionCipher {
    const store: Stores
    const gen: KeyGenerator
    const remote: Address
    const builder: SessionBuilder
    var insideCallback: bool

    ghost predicate Valid()
      reads this
    {
      builder.store == store && builder.gen == gen && builder.remote == remote
    }

    constructor (store: Stores, gen: KeyGenerator, remote: Address)
      ensures Valid() && !insideCallback && this.store == store && this.gen == gen && this.remote == remote
    {
      this.store, this.gen, this.remote := store, gen, remote;
      builder := new SessionBuilder(store, gen, remote);
      insideCallback := false;
    }

    /** `session_cipher_encrypt`. */
    method Encrypt(text: Text, f: Faults) returns (r: Result<Envelope>)
      requires Valid()
      modifies store
      ensures insideCallback ==> r == Err(Invalid) && store.View(gen) == old(store.View(gen))
      ensures !insideCallback ==>
                var reply := MessageEncrypted(old(store.View(gen)), remote, text, f);
                r == reply.result && store.View(gen) == reply.device
    {
      if insideCallback {
        return Err(Invalid);
      }
      if f.loads.sessionLoad {
        return Err(StoreFailed);
      }
      var record := store.LoadSession(remote);
      var state := new SessionState(record.state);
      r := EncryptWithState(state, text);
      if r.Err? {
        return;
      }
      record.state := state.View();
      if f.sessionStore {
        return Err(StoreFailed);
      }
      store.StoreSession(remote, record);
    }

    /** `session_cipher_decrypt_callback`: while the application's callback runs, the cipher refuses calls. */
    method DecryptCallback(text: Text, f: Faults) returns (r: Result<()>)
      requires Valid() && !insideCallback
      modifies this`insideCallback
      ensures Valid() && !insideCallback
      ensures r == if f.decryptCallback then Err(CallbackFailed) else Ok(())
    {
      insideCallback := true;
      r := if f.decryptCallback then Err(CallbackFailed) else Ok(());
      insideCallback := false;
    }

    /** `session_cipher_decrypt_pre_key_signal_message`. */
    method DecryptPreKeySignalMessage(p: PreKeyMessage, f: Faults) returns (r: Result<Text>)
      requires Valid()
      modifies store, gen, this`insideCallback
      ensures Valid() && insideCallback == old(insideCallback)
      ensures insideCallback ==> r == Err(Invalid) && store.View(gen) == old(store.View(gen))
      ensures !insideCallback ==>
                var reply := PreKeyMessageDecrypted(old(store.View(gen)), remote, p, f);
                r == reply.result && store.View(gen) == reply.device
    {
      hide DecryptedFromRecord, Answered;
      if insideCallback {
        return Err(Invalid);
      }
      if f.loads.sessionLoad {
        return Err(StoreFailed);
      }
      var record := store.LoadSession(remote);
      var used := builder.ProcessPreKeySignalMessage(record, p, f);
      if used.Err? {
        return Err(used.error);
      }
      r := DecryptFromRecord(record, p.message, gen);
      if r.Err? {
        return;
      }
      var called := DecryptCallback(r.value, f);
      if called.Err? {
        return Err(called.error);
      }
      if f.sessionStore {
        return Err(StoreFailed);
      }
      store.StoreSession(remote, record);
      if used.value.Some? {
        if f.preKeyRemove {
          return Err(StoreFailed);
        }
        store.preKeys := store.preKeys - {used.value.value};
      }
    }

    /** `session_cipher_decrypt_signal_message`. */
    method DecryptSignalMessage(m: Message, f: Faults) returns (r: Result<Text>)
      requires Valid()
      modifies store, gen, this`insideCallback
      ensures Valid() && insideCallback == old(insideCallback)
      ensures insideCallback ==> r == Err(Invalid) && store.View(gen) == old(store.View(gen))
      ensures !insideCallback ==>
                var reply := SignalMessageDecrypted(old(store.View(gen)), remote, m, f);
                r == reply.result && store.View(gen) == reply.device
    {
      hide DecryptedFromRecord;
      if insideCallback {
        return Err(Invalid);
      }
      if f.loads.sessionContains {
        return Err(StoreFailed);
      }
      if remote !in store.sessions {
        return Err(NoSession);
      }
      if f.loads.sessionLoad {
        return Err(StoreFailed);
      }
      var record := store.LoadSession(remote);
      r := DecryptFromRecord(record, m, gen);
      if r.Err? {
        return;
      }
      var called := DecryptCallback(r.value, f);
      if called.Err? {
        return Err(called.error);
      }
      if f.sessionStore {
        return Err(StoreFailed);
      }
      store.StoreSession(remote, record);
    }
  }
}
