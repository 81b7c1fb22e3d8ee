/**
 Group sessions (group_cipher.c, group_session_builder.c): encrypting and decrypting with
 a sender's record, and creating and processing distribution messages.
 */
module GroupCiphers {
  import opened Common
  import opened Crypto
  import opened Messages
  import opened SenderKeys

  /** A signature names the private key it was made with and covers the whole message. */
  datatype GroupSignature = GroupSignature(signer: PrivateKey, keyId: uint32, iteration: uint32, body: Ciphertext)

  datatype SenderKeyMessage =
    SenderKeyMessage(keyId: uint32, iteration: uint32, body: Ciphertext, signature: GroupSignature)

  datatype Distribution = Distribution(keyId: uint32, iteration: uint32, seed: Secret, signingKey: PublicKey)

  datatype SenderKeyName = SenderKeyName(group: string, sender: string, device: int)

  /** `sender_key_message_create`. */
  function GroupSeal(keyId: uint32, key: SenderMessageKey, text: Text, signer: PrivateKey): SenderKeyMessage {
    var body := Cbc(key.cipherKey, key.iv, text);
    SenderKeyMessage(keyId, key.iteration, body, GroupSignature(signer, keyId, key.iteration, body))
  }

  /** `sender_key_message_verify_signature`. */
  predicate SignatureVerifies(m: SenderKeyMessage, key: PublicKey) {
    m.signature == GroupSignature(PrivateKey(key.id), m.keyId, m.iteration, m.body)
  }

  function OpenBody(key: SenderMessageKey, body: Ciphertext): Option<Text> {
    if body == Cbc(key.cipherKey, key.iv, body.text) then Some(body.text) else None
  }

  /** `group_cipher_encrypt` on a loaded record. */
  function GroupEncrypted(record: SenderRecord, text: Text): Result<(SenderRecord, SenderKeyMessage)> {
    if record == [] then Err(NoSession)
    else if record[0].signingPrivate.None? then Err(InvalidKey)
    else
      var s := record[0];
      Ok((record[0 := s.(chainKey := NextSenderKey(s.chainKey))],
          GroupSeal(s.keyId, MessageKeyOf(s.chainKey), text, s.signingPrivate.value)))
  }

  /** `group_cipher_decrypt` on a loaded record. */
  function GroupDecrypted(record: SenderRecord, m: SenderKeyMessage): Result<(SenderRecord, Text)> {
    if record == [] then Err(NoSession)
    else match FindState(record, m.keyId)
      case None => Err(InvalidMessage)
      case Some(i) =>
        if !SignatureVerifies(m, record[i].signingPublic) then Err(InvalidMessage)
        else match TakeSenderKey(record[i], m.iteration)
          case Err(e) => Err(e)
          case Ok((s, key)) =>
            match OpenBody(key, m.body)
            case None => Err(Unknown)
            case Some(text) => Ok((record[i := s], text))
  }

  /** The record of `group_session_builder_create_session`: an empty one gets its first state, from the seed and
      the signing pair the generator names `next` and `next + 1`. */
  function WithOwnState(record: SenderRecord, keyId: uint32, next: nat): SenderRecord {
    if record == [] then
      [SenderState(keyId, SenderChainKey(0, Random(next)), PairOf(next + 1).pub, Some(PairOf(next + 1).priv), [])]
    else record
  }

  /** The distribution message of a state: its current iteration and seed. */
  function DistributionOf(s: SenderState): Distribution {
    Distribution(s.keyId, s.chainKey.iteration, s.chainKey.seed, s.signingPublic)
  }

  /** The state a receiver installs for a distribution message. */
  function InstalledState(m: Distribution): SenderState {
    SenderState(m.keyId, SenderChainKey(m.iteration, m.seed), m.signingKey, None, [])
  }

  // ---- The calls ----

  /** Which of the application's callbacks report failure during a call. */
  datatype GroupFaults = GroupFaults(load: bool, decryptCallback: bool, store: bool)

  class SenderKeyStore {
    var records: map<SenderKeyName, SenderRecord>

    /** `signal_protocol_sender_key_load_key`: a sender not in the store has an empty record. */
    function Load(name: SenderKeyName): SenderRecord
      reads this
    {
      if name in records then records[name] else []
    }

    /** `signal_protocol_sender_key_store_key`. */
    method Store(name: SenderKeyName, record: SenderRecord, f: GroupFaults) returns (r: Result<()>)
      modifies this
      ensures if f.store then r == Err(StoreFailed) && records == old(records)
              else r == Ok(()) && records == old(records)[name := record]
    {
      if f.store {
        return Err(StoreFailed);
      }
      records := records[name := record];
      return Ok(());
    }
  }

  class GroupCipher {
    const store: SenderKeyStore
    const name: SenderKeyName
    var insideCallback: bool

    constructor (store: SenderKeyStore, name: SenderKeyName)
      ensures this.store == store && this.name == name && !insideCallback
    {
      this.store, this.name, insideCallback := store, name, false;
    }

    /** `group_cipher_encrypt`: the message is returned only once the advanced chain is stored. */
    method Encrypt(text: Text, f: GroupFaults) returns (r: Result<SenderKeyMessage>)
      modifies store
      ensures insideCallback ==> r == Err(Invalid) && store.records == old(store.records)
      ensures !insideCallback && f.load ==> r == Err(StoreFailed) && store.records == old(store.records)
      ensures !insideCallback && !f.load ==>
                match GroupEncrypted(old(store.Load(name)), text)
                case Err(e) => r == Err(e) && store.records == old(store.records)
                case Ok((record, m)) =>
                  if f.store then r == Err(StoreFailed) && store.records == old(store.records)
                  else r == Ok(m) && store.records == old(store.records)[name := record]
    {
      if insideCallback {
        return Err(Invalid);
      }
      if f.load {
        return Err(StoreFailed);
      }
      var record := store.Load(name);
      if record == [] {
        return Err(NoSession);
      }
      var state := new SenderKeyState(record[0]);
      if state.signingPrivate.None? {
        return Err(InvalidKey);
      }
      var key := MessageKeyOf(state.chainKey);
      var m := GroupSeal(state.keyId, key, text, state.signingPrivate.value);
      state.chainKey := NextSenderKey(state.chainKey);
      var stored := store.Store(name, record[0 := state.View()], f);
      if stored.Err? {
        return Err(stored.error);
      }
      return Ok(m);
    }

    /** `group_cipher_decrypt`: the record is written back only when everything succeeded; while the application's
        callback runs, the cipher refuses calls. */
    method Decrypt(m: SenderKeyMessage, f: GroupFaults) returns (r: Result<Text>)
      modifies store, this`insideCallback
      ensures insideCallback == old(insideCallback)
      ensures insideCallback ==> r == Err(Invalid) && store.records == old(store.records)
      ensures !insideCallback && f.load ==> r == Err(StoreFailed) && store.records == old(store.records)
      ensures !insideCallback && !f.load ==>
                match GroupDecrypted(old(store.Load(name)), m)
                case Err(e) => r == Err(e) && store.records == old(store.records)
                case Ok((record, text)) =>
                  if f.decryptCallback then r == Err(CallbackFailed) && store.records == old(store.records)
                  else if f.store then r == Err(StoreFailed) && store.records == old(store.records)
                  else r == Ok(text) && store.records == old(store.records)[name := record]
    {
      if insideCallback {
        return Err(Invalid);
      }
      if f.load {
        return Err(StoreFailed);
      }
      var record := new SenderKeyRecord(store.Load(name));
      if record.states == [] {
        return Err(NoSession);
      }
      var at := record.GetStateById(m.keyId);
      if at.Err? {
        return Err(InvalidMessage);
      }
      var state := new SenderKeyState(record.states[at.value]);
      if !SignatureVerifies(m, state.signingPublic) {
        return Err(InvalidMessage);
      }
      var key := state.GetSenderKey(m.iteration);
      if key.Err? {
        return Err(key.error);
      }
      var text := OpenBody(key.value, m.body);
      if text.None? {
        return Err(Unknown);
      }
      insideCallback := true;
      var called: Result<()> := if f.decryptCallback then Err(CallbackFailed) else Ok(());
      insideCallback := false;
      if called.Err? {
        return Err(called.error);
      }
      record.states := record.states[at.value := state.View()];
      var stored := store.Store(name, record.states, f);
      if stored.Err? {
        return Err(stored.error);
      }
      return Ok(text.value);
    }
  }

  class GroupSessionBuilder {
    const store: SenderKeyStore

    constructor (store: SenderKeyStore)
      ensures this.store == store
    {
      this.store := store;
    }

    /** `group_session_builder_process_session`. */
    method ProcessSession(name: SenderKeyName, m: Distribution, f: GroupFaults) returns (r: Result<()>)
      modifies store
      ensures if f.load || f.store then r == Err(StoreFailed) && store.records == old(store.records)
              else
                && r == Ok(())
                && store.records == old(store.records)[name := WithState(old(store.Load(name)), InstalledState(m))]
    {
      if f.load {
        return Err(StoreFailed);
      }
      var record := new SenderKeyRecord(store.Load(name));
      record.AddState(m.keyId, m.iteration, m.seed, m.signingKey, None);
      r := store.Store(name, record.states, f);
    }

    /** `group_session_builder_create_session`; the random key id is a parameter. */
    method CreateSession(name: SenderKeyName, keyId: uint32, gen: KeyGenerator, f: GroupFaults)
      returns (r: Result<Distribution>)
      modifies store, gen
      ensures var (before, next) := (old(store.Load(name)), old(gen.next));
              var record := WithOwnState(before, keyId, next);
              && gen.next == (if !f.load && before == [] then next + 2 else next)
              && if f.load || (before == [] && f.store)
                 then r == Err(StoreFailed) && store.records == old(store.records)
                 else
                   && r == Ok(DistributionOf(record[0])) && store.Load(name) == record
                   && store.records == if before == [] then old(store.records)[name := record] else old(store.records)
    {
      if f.load {
        return Err(StoreFailed);
      }
      var record := new SenderKeyRecord(store.Load(name));
      if record.states == [] {
        var seed := gen.Generate();
        var signing := gen.Generate();
        record.SetState(keyId, 0, Random(seed.pub.id), signing);
        var stored := store.Store(name, record.states, f);
        if stored.Err? {
          return Err(stored.error);
        }
      }
      return Ok(DistributionOf(record.states[0]));
    }
  }
}
