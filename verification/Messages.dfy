/**
 Encrypted messages as records (protocol.c). The byte framing is left out: a message
 carries its header fields, a symbolic ciphertext and a symbolic MAC.
 */
module Messages {
  import opened Common
  import opened Crypto
  import opened Ratchet

  const CURRENT_VERSION: nat := 3

  type Text = seq<nat>

  /** Version 3 uses AES-CBC with the derived iv; version 2 AES-CTR with the counter as iv. */
  datatype Ciphertext =
    | Cbc(key: Secret, iv: Secret, text: Text)
    | Ctr(key: Secret, counter: uint32, text: Text)

  /** The MAC covers the identity keys from version 3 on, and every header field. */
  datatype Mac = Mac(key: Secret, parties: Option<(PublicKey, PublicKey)>, version: nat, ratchetKey: PublicKey,
                     counter: uint32, previousCounter: uint32, body: Ciphertext)

  datatype Message = Message(version: nat, ratchetKey: PublicKey, counter: uint32, previousCounter: uint32,
                             body: Ciphertext, mac: Mac)

  datatype PreKeyMessage = PreKeyMessage(version: nat, registrationId: uint32, preKeyId: Option<uint32>,
                                         signedPreKeyId: uint32, baseKey: PublicKey, identityKey: PublicKey,
                                         message: Message)

  /** What `session_cipher_encrypt` returns. */
  datatype Envelope = Plain(message: Message) | WithPreKey(preKeyMessage: PreKeyMessage)
  {
    /** The signal message inside. */
    function Inner(): Message {
      match this
      case Plain(m) => m
      case WithPreKey(p) => p.message
    }
  }

  /** Parsing a pre-key message refuses every version but the current one, inside and outside. */
  predicate Parsed(p: PreKeyMessage) {
    p.version == CURRENT_VERSION && p.message.version == CURRENT_VERSION
  }

  /** `session_cipher_get_ciphertext`. */
  function EncryptBody(version: nat, keys: MessageKeys, text: Text): Ciphertext {
    if version >= 3 then Cbc(keys.cipherKey, keys.iv, text) else Ctr(keys.cipherKey, keys.counter, text)
  }

  /** `session_cipher_get_plaintext`: fails unless mode, key and iv are the ones used to encrypt. */
  function DecryptBody(version: nat, keys: MessageKeys, body: Ciphertext): Option<Text> {
    if EncryptBody(version, keys, body.text) == body then Some(body.text) else None
  }

  /** `signal_message_get_mac`. */
  function MacOver(m: Message, macKey: Secret, sender: PublicKey, receiver: PublicKey): Mac {
    Mac(macKey, if m.version >= 3 then Some((sender, receiver)) else None,
        m.version, m.ratchetKey, m.counter, m.previousCounter, m.body)
  }

  /** `signal_message_create`. */
  function Seal(version: nat, keys: MessageKeys, ratchetKey: PublicKey, counter: uint32, previousCounter: uint32,
                text: Text, sender: PublicKey, receiver: PublicKey): Message
  {
    var body := EncryptBody(version, keys, text);
    var parties := if version >= 3 then Some((sender, receiver)) else None;
    Message(version, ratchetKey, counter, previousCounter, body,
            Mac(keys.macKey, parties, version, ratchetKey, counter, previousCounter, body))
  }

  /** `signal_message_verify_mac`. */
  predicate MacVerifies(m: Message, macKey: Secret, sender: PublicKey, receiver: PublicKey) {
    m.mac == MacOver(m, macKey, sender, receiver)
  }

  /** From version 3 on the MAC covers the identity keys; before, it verifies whoever the parties are. */
  lemma IdentitiesFromVersionThree(m: Message, macKey: Secret, sender: PublicKey, receiver: PublicKey,
                                   sender': PublicKey, receiver': PublicKey)
    requires MacVerifies(m, macKey, sender, receiver)
    ensures MacVerifies(m, macKey, sender', receiver') <==>
              m.version < 3 || (sender == sender' && receiver == receiver')
  {
  }

  /** Version 3 encrypts with the derived initialization vector, version 2 with the message's counter. */
  lemma ModesOfEncryption(keys: MessageKeys, text: Text, keys': MessageKeys, text': Text)
    ensures EncryptBody(3, keys, text) == EncryptBody(3, keys', text') <==>
              keys.cipherKey == keys'.cipherKey && keys.iv == keys'.iv && text == text'
    ensures EncryptBody(2, keys, text) == EncryptBody(2, keys', text') <==>
              keys.cipherKey == keys'.cipherKey && keys.counter == keys'.counter && text == text'
    ensures EncryptBody(2, keys, text) != EncryptBody(3, keys', text')
  {
  }

  /** A sealed message opens under exactly the MAC key it was sealed with, and then yields its text. */
  lemma SealOpens(version: nat, keys: MessageKeys, ratchetKey: PublicKey, counter: uint32, previousCounter: uint32,
                  text: Text, sender: PublicKey, receiver: PublicKey, macKey: Secret)
    ensures var m := Seal(version, keys, ratchetKey, counter, previousCounter, text, sender, receiver);
            && (MacVerifies(m, macKey, sender, receiver) <==> macKey == keys.macKey)
            && DecryptBody(version, keys, m.body) == Some(text)
  {
  }
}
