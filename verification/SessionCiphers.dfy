/**
 Encrypting and decrypting with one session state (session_cipher.c). The functions
 say what the calls compute; the methods below them are the calls, which change a
 session state step by step and loop over the skipped counters.
 */
module SessionCiphers {
  import opened Common
  import opened Crypto
  import opened Ratchet
  import opened SkipWindow
  import opened Messages
  import opened SessionStates

  // ---- What the calls compute ----

  /** The state and the chain key for a sender's ratchet key. An unknown key steps the root key twice: for a new
      receiver chain, and for a new sending chain under the pair named `next`. */
  function OpenChain(s: State, their: PublicKey, next: nat): Result<(State, ChainKey)> {
    match FindChain(s.receiverChains, their)
    case Some(i) => Ok((s, s.receiverChains[i].chainKey))
    case None =>
      if s.rootKey.None? || s.senderChain.None? || s.senderChain.value.ratchetKeyPair.None?
         || s.senderChain.value.chainKey.None? then Err(Unknown)
      else
        var ours := s.senderChain.value.ratchetKeyPair.value;
        var (receiverRoot, receiverChain) := CreateChain(s.rootKey.value, their, ours.priv);
        var (senderRoot, senderChain) := CreateChain(receiverRoot, their, PairOf(next).priv);
        var index := s.senderChain.value.chainKey.value.index;
        Ok((s.(rootKey := Some(senderRoot),
               receiverChains := WithChain(s.receiverChains, their, receiverChain),
               previousCounter := if index > 0 then index - 1 else index,
               senderChain := Some(SenderChain(Some(PairOf(next)), Some(senderChain)))),
            receiverChain))
  }

  /** How many key pairs `OpenChain` draws from the generator. */
  function PairsDrawn(s: State, their: PublicKey): nat {
    if FindChain(s.receiverChains, their).Some? || s.rootKey.None? || s.senderChain.None?
       || s.senderChain.value.ratchetKeyPair.None? then 0 else 1
  }

  /** A receiver chain with the keys of its next `n` counters stored. */
  function WithSkipped(c: ReceiverChain, ck: ChainKey, n: nat): ReceiverChain {
    if n == 0 then c else c.(messageKeys := WithKeys(c.messageKeys, KeysAhead(ck, n)))
  }

  /** A receiver chain after handing out the key for `counter`: a stored key is removed; otherwise the chain moves
      past the counter and the keys in between are stored. */
  function TakeKeys(c: ReceiverChain, counter: uint32): Result<(ReceiverChain, MessageKeys)> {
    if c.chainKey.index > counter then
      match FindKeys(c.messageKeys, counter)
      case None => Err(DuplicateMessage)
      case Some(k) => Ok((c.(messageKeys := RemoveAt(c.messageKeys, k)), c.messageKeys[k]))
    else if counter - c.chainKey.index > MAX_MESSAGE_KEYS then Err(InvalidMessage)
    else
      var n := counter - c.chainKey.index;
      Ok((WithSkipped(c, c.chainKey, n).(chainKey := Steps(c.chainKey, n + 1)),
          MessageKeysOf(Steps(c.chainKey, n))))
  }

  /** The state and the message keys for one message, before its MAC is checked. */
  function Keyed(s: State, their: PublicKey, counter: uint32, next: nat): Result<(State, MessageKeys)> {
    match OpenChain(s, their, next)
    case Err(e) => Err(e)
    case Ok((s1, _)) =>
      match FindChain(s1.receiverChains, their)
      case None => Err(Unknown)
      case Some(i) =>
        match TakeKeys(s1.receiverChains[i], counter)
        case Err(e) => Err(e)
        case Ok((c, keys)) => Ok((s1.(receiverChains := s1.receiverChains[i := c]), keys))
  }

  /** Decrypting one message with one state. */
  function Decrypted(s: State, m: Message, next: nat): Result<(State, Text)> {
    if s.senderChain.None? || m.version != s.version then Err(InvalidMessage)
    else match Keyed(s, m.ratchetKey, m.counter, next)
      case Err(e) => Err(e)
      case Ok((s1, keys)) =>
        if s.remoteIdentity.None? || s.localIdentity.None? then Err(Unknown)
        else if !MacVerifies(m, keys.macKey, s.remoteIdentity.value, s.localIdentity.value) then Err(InvalidMessage)
        else match DecryptBody(m.version, keys, m.body)
          case None => Err(Unknown)
          case Some(text) => Ok((s1.(pendingPreKey := None), text))
  }

  /** How many key pairs `Decrypted` draws. */
  function DrawnByDecrypt(s: State, m: Message): nat {
    if s.senderChain.None? || m.version != s.version then 0 else PairsDrawn(s, m.ratchetKey)
  }

  /** Encrypting one message with one state: the message and the state with its sending chain advanced. */
  function Encrypted(s: State, text: Text): Result<(State, Envelope)> {
    if s.senderChain.None? || s.senderChain.value.chainKey.None? || s.senderChain.value.ratchetKeyPair.None?
       || s.localIdentity.None? || s.remoteIdentity.None? then Err(Unknown)
    else
      var ck := s.senderChain.value.chainKey.value;
      var m := Seal(s.version, MessageKeysOf(ck), s.senderChain.value.ratchetKeyPair.value.pub, ck.index,
                    s.previousCounter, text, s.localIdentity.value, s.remoteIdentity.value);
      var e := match s.pendingPreKey
        case None => Plain(m)
        case Some(p) => WithPreKey(PreKeyMessage(s.version, s.localRegistrationId, p.preKeyId, p.signedPreKeyId,
                                                 p.baseKey, s.localIdentity.value, m));
      Ok((s.(senderChain := Some(s.senderChain.value.(chainKey := Some(NextChainKey(ck))))), e))
  }

  // ---- The calls ----

  /** `session_cipher_get_or_create_chain_key`. */
  method GetOrCreateChainKey(state: SessionState, gen: KeyGenerator, their: PublicKey) returns (r: Result<ChainKey>)
    modifies state, gen
    ensures gen.next == old(gen.next) + PairsDrawn(old(state.View()), their)
    ensures match OpenChain(old(state.View()), their, old(gen.next))
            case Err(e) => r == Err(e)
            case Ok((s, ck)) => r == Ok(ck) && state.View() == s
  {
    var at := state.FindReceiverChain(their);
    if at.Some? {
      return Ok(state.receiverChains[at.value].chainKey);
    }
    if state.rootKey.None? {
      return Err(Unknown);
    }
    var root := state.rootKey.value;
    if state.senderChain.None? || state.senderChain.value.ratchetKeyPair.None? {
      return Err(Unknown);
    }
    var ours := state.senderChain.value.ratchetKeyPair.value;
    var (receiverRoot, receiverChain) := CreateChain(root, their, ours.priv);
    var ourNew := gen.Generate();
    var (senderRoot, senderChain) := CreateChain(receiverRoot, their, ourNew.priv);
    state.rootKey := Some(senderRoot);
    state.AddReceiverChain(their, receiverChain);
    if state.senderChain.value.chainKey.None? {
      return Err(Unknown);
    }
    var index := state.senderChain.value.chainKey.value.index;
    if index > 0 {
      index := index - 1;
    }
    state.previousCounter := index;
    state.senderChain := Some(SenderChain(Some(ourNew), Some(senderChain)));
    return Ok(receiverChain);
  }

  lemma WithSkippedOneMore(c: ReceiverChain, ck: ChainKey, n: nat)
    ensures WithSkipped(c, ck, n + 1)
            == c.(messageKeys := WithKeys(WithSkipped(c, ck, n).messageKeys, [MessageKeysOf(Steps(ck, n))]))
  {
    if n > 0 {
      WithKeysOneMore(c.messageKeys, KeysAhead(ck, n), MessageKeysOf(Steps(ck, n)));
    }
  }

  /** The chains with one of them, if present, replaced by itself with skipped keys stored. */
  function ChainsWithSkipped(chains: seq<ReceiverChain>, their: PublicKey, ck: ChainKey, n: nat): seq<ReceiverChain> {
    match FindChain(chains, their)
    case None => chains
    case Some(i) => chains[i := WithSkipped(chains[i], ck, n)]
  }

  /** The loop of `session_cipher_get_or_create_message_keys`: stores the key of every counter before `counter`. */
  method StoreSkippedKeys(state: SessionState, their: PublicKey, ck: ChainKey, counter: uint32) returns (cur: ChainKey)
    requires ck.index <= counter
    modifies state`receiverChains
    ensures cur == Steps(ck, counter - ck.index)
    ensures state.receiverChains == ChainsWithSkipped(old(state.receiverChains), their, ck, counter - ck.index)
  {
    cur := ck;
    ghost var n := 0;
    ghost var chains := state.receiverChains;
    ghost var at := FindChain(chains, their);
    assert at.Some? ==> chains[at.value := chains[at.value]] == chains;
    while cur.index < counter
      invariant 0 <= n <= counter - ck.index
      invariant cur == Steps(ck, n) && cur.index == ck.index + n
      invariant state.receiverChains == ChainsWithSkipped(chains, their, ck, n)
      decreases counter - cur.index
    {
      if at.Some? {
        FindChainAfterUpdate(chains, at.value, WithSkipped(chains[at.value], ck, n), their);
        WithSkippedOneMore(chains[at.value], ck, n);
      }
      state.SetMessageKeys(their, MessageKeysOf(cur));
      cur := NextChainKey(cur);
      n := n + 1;
    }
  }

  /** `session_cipher_get_or_create_message_keys`, called with the chain's own key. */
  method GetOrCreateMessageKeys(state: SessionState, their: PublicKey, ck: ChainKey, counter: uint32)
    returns (r: Result<MessageKeys>)
    requires FindChain(state.receiverChains, their).Some? ==>
               state.receiverChains[FindChain(state.receiverChains, their).value].chainKey == ck
    modifies state`receiverChains
    ensures match FindChain(old(state.receiverChains), their)
            case None => r.Err?
            case Some(i) =>
              match TakeKeys(old(state.receiverChains)[i], counter)
              case Err(e) => r == Err(e)
              case Ok((c, keys)) => r == Ok(keys) && state.receiverChains == old(state.receiverChains)[i := c]
  {
    if ck.index > counter {
      var found := state.RemoveMessageKeys(their, counter);
      if found.Some? {
        return Ok(found.value);
      }
      return Err(DuplicateMessage);
    }
    if counter - ck.index > MAX_MESSAGE_KEYS {
      return Err(InvalidMessage);
    }
    ghost var at := FindChain(state.receiverChains, their);
    if at.Some? {
      FindChainAfterUpdate(state.receiverChains, at.value,
                           WithSkipped(state.receiverChains[at.value], ck, counter - ck.index), their);
    }
    var cur := StoreSkippedKeys(state, their, ck, counter);
    var stored := state.SetReceiverChainKey(their, NextChainKey(cur));
    if stored.Err? {
      return Err(stored.error);
    }
    return Ok(MessageKeysOf(cur));
  }

  /** `session_cipher_decrypt_from_state_and_signal_message`. */
  method DecryptFromState(state: SessionState, m: Message, gen: KeyGenerator) returns (r: Result<Text>)
    modifies state, gen
    ensures gen.next == old(gen.next) + DrawnByDecrypt(old(state.View()), m)
    ensures match Decrypted(old(state.View()), m, old(gen.next))
            case Err(e) => r == Err(e)
            case Ok((s, text)) => r == Ok(text) && state.View() == s
  {
    if state.senderChain.None? {
      return Err(InvalidMessage);
    }
    if m.version != state.version {
      return Err(InvalidMessage);
    }
    var ck := GetOrCreateChainKey(state, gen, m.ratchetKey);
    if ck.Err? {
      return Err(ck.error);
    }
    OpenedChainIsFound(old(state.View()), m.ratchetKey, old(gen.next));
    var keys := GetOrCreateMessageKeys(state, m.ratchetKey, ck.value, m.counter);
    if keys.Err? {
      return Err(keys.error);
    }
    if state.remoteIdentity.None? {
      return Err(Unknown);
    }
    if state.localIdentity.None? {
      return Err(Unknown);
    }
    if !MacVerifies(m, keys.value.macKey, state.remoteIdentity.value, state.localIdentity.value) {
      return Err(InvalidMessage);
    }
    var text := DecryptBody(m.version, keys.value, m.body);
    if text.None? {
      return Err(Unknown);
    }
    state.pendingPreKey := None;
    return Ok(text.value);
  }

  /** Opening a chain leaves it in the state, with the returned key; a new one goes last. */
  lemma OpenedChainIsFound(s: State, their: PublicKey, next: nat)
    requires OpenChain(s, their, next).Ok?
    ensures var (s1, ck) := OpenChain(s, their, next).value;
            && FindChain(s1.receiverChains, their).Some?
            && s1.receiverChains[FindChain(s1.receiverChains, their).value].chainKey == ck
            && (FindChain(s.receiverChains, their).None? ==>
                  FindChain(s1.receiverChains, their).value == |s1.receiverChains| - 1)
  {
    var chains := OpenChain(s, their, next).value.0.receiverChains;
    if FindChain(s.receiverChains, their).None? {
      assert chains[|chains| - 1].ratchetKey == their;
      assert forall i :: 0 <= i < |chains| - 1 ==> chains[i].ratchetKey != their;
    }
  }

  /** The part of `session_cipher_encrypt` that works on the record's current state. */
  method EncryptWithState(state: SessionState, text: Text) returns (r: Result<Envelope>)
    modifies state
    ensures match Encrypted(old(state.View()), text)
            case Err(e) => r == Err(e) && state.View() == old(state.View())
            case Ok((s, e)) => r == Ok(e) && state.View() == s
  {
    if state.senderChain.None? || state.senderChain.value.chainKey.None? {
      return Err(Unknown);
    }
    var ck := state.senderChain.value.chainKey.value;
    var keys := MessageKeysOf(ck);
    if state.senderChain.value.ratchetKeyPair.None? {
      return Err(Unknown);
    }
    var ephemeral := state.senderChain.value.ratchetKeyPair.value.pub;
    if state.localIdentity.None? || state.remoteIdentity.None? {
      return Err(Unknown);
    }
    var m := Seal(state.version, keys, ephemeral, ck.index, state.previousCounter, text,
                  state.localIdentity.value, state.remoteIdentity.value);
    r := Ok(Plain(m));
    if state.pendingPreKey.Some? {
      var p := state.pendingPreKey.value;
      r := Ok(WithPreKey(PreKeyMessage(state.version, state.localRegistrationId, p.preKeyId, p.signedPreKeyId,
                                       p.baseKey, state.localIdentity.value, m)));
    }
    state.senderChain := Some(state.senderChain.value.(chainKey := Some(NextChainKey(ck))));
  }
}
