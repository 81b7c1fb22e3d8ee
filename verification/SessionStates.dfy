/**
 One session's state (session_state.c): the value it holds, and the object whose
 methods change it in place.
 */
module SessionStates {
  import opened Common
  import opened Crypto
  import opened Ratchet
  import opened SkipWindow

  const MAX_RECEIVER_CHAINS: nat := 5

  datatype SenderChain = SenderChain(ratchetKeyPair: Option<KeyPair>, chainKey: Option<ChainKey>)

  datatype ReceiverChain = ReceiverChain(ratchetKey: PublicKey, chainKey: ChainKey, messageKeys: seq<MessageKeys>)

  datatype PendingKeyExchange = PendingKeyExchange(sequence: uint32, baseKey: Option<KeyPair>,
                                                   ratchetKey: Option<KeyPair>, identityKey: Option<KeyPair>)

  datatype PendingPreKey = PendingPreKey(preKeyId: Option<uint32>, signedPreKeyId: uint32, baseKey: PublicKey)

  datatype State = State(
    version: uint32,
    localIdentity: Option<PublicKey>,
    remoteIdentity: Option<PublicKey>,
    rootKey: Option<RootKey>,
    previousCounter: uint32,
    senderChain: Option<SenderChain>,
    receiverChains: seq<ReceiverChain>,
    pendingKeyExchange: Option<PendingKeyExchange>,
    pendingPreKey: Option<PendingPreKey>,
    remoteRegistrationId: uint32,
    localRegistrationId: uint32,
    needsRefresh: bool,
    aliceBaseKey: Option<PublicKey>)

  /** What `session_state_create` returns. */
  const EMPTY: State := State(2, None, None, None, 0, None, [], None, None, 0, 0, false, None)

  /** The first receiver chain for a ratchet key. */
  function FindChain(chains: seq<ReceiverChain>, key: PublicKey): (r: Option<nat>)
    ensures r.Some? ==> r.value < |chains| && chains[r.value].ratchetKey == key
    ensures r.Some? ==> forall j :: 0 <= j < r.value ==> chains[j].ratchetKey != key
    ensures r.None? ==> forall j :: 0 <= j < |chains| ==> chains[j].ratchetKey != key
  {
    if chains == [] then None
    else if chains[0].ratchetKey == key then Some(0)
    else match FindChain(chains[1..], key)
      case None => None
      case Some(i) => Some(i + 1)
  }

  /** Changing a chain without changing its ratchet key changes no lookup. */
  lemma FindChainAfterUpdate(chains: seq<ReceiverChain>, i: nat, c: ReceiverChain, key: PublicKey)
    requires i < |chains| && c.ratchetKey == chains[i].ratchetKey
    ensures FindChain(chains[i := c], key) == FindChain(chains, key)
  {
    var a, b := FindChain(chains, key), FindChain(chains[i := c], key);
    assert forall j :: 0 <= j < |chains| ==> chains[i := c][j].ratchetKey == chains[j].ratchetKey;
    if a.Some? {
      assert chains[i := c][a.value].ratchetKey == key;
    }
    if b.Some? {
      assert chains[b.value].ratchetKey == key;
    }
  }

  /** The first stored message key for a counter. */
  function FindKeys(keys: seq<MessageKeys>, counter: uint32): (r: Option<nat>)
    ensures r.Some? ==> r.value < |keys| && keys[r.value].counter == counter
    ensures r.Some? ==> forall j :: 0 <= j < r.value ==> keys[j].counter != counter
    ensures r.None? ==> forall j :: 0 <= j < |keys| ==> keys[j].counter != counter
  {
    if keys == [] then None
    else if keys[0].counter == counter then Some(0)
    else match FindKeys(keys[1..], counter)
      case None => None
      case Some(i) => Some(i + 1)
  }

  /** The chains after a new one: the newest five, the new one last. */
  function WithChain(chains: seq<ReceiverChain>, key: PublicKey, ck: ChainKey): seq<ReceiverChain> {
    LastN(chains + [ReceiverChain(key, ck, [])], MAX_RECEIVER_CHAINS)
  }

  /** The stored keys after some more: the newest two thousand. */
  function WithKeys(keys: seq<MessageKeys>, more: seq<MessageKeys>): seq<MessageKeys> {
    LastN(keys + more, MAX_MESSAGE_KEYS)
  }

  /** Storing keys one after the other or all at once keeps the same ones. */
  lemma WithKeysOneMore(keys: seq<MessageKeys>, more: seq<MessageKeys>, last: MessageKeys)
    ensures WithKeys(WithKeys(keys, more), [last]) == WithKeys(keys, more + [last])
  {
    assert keys + (more + [last]) == (keys + more) + [last];
  }

  class SessionState {
    var version: uint32
    var localIdentity: Option<PublicKey>
    var remoteIdentity: Option<PublicKey>
    var rootKey: Option<RootKey>
    var previousCounter: uint32
    var senderChain: Option<SenderChain>
    var receiverChains: seq<ReceiverChain>
    var pendingKeyExchange: Option<PendingKeyExchange>
    var pendingPreKey: Option<PendingPreKey>
    var remoteRegistrationId: uint32
    var localRegistrationId: uint32
    var needsRefresh: bool
    var aliceBaseKey: Option<PublicKey>

    /** The value of all fields together. */
    function View(): State
      reads this
    {
      State(version, localIdentity, remoteIdentity, rootKey, previousCounter, senderChain, receiverChains,
            pendingKeyExchange, pendingPreKey, remoteRegistrationId, localRegistrationId, needsRefresh, aliceBaseKey)
    }

    /** A copy of a state; with `EMPTY`, a new one. */
    constructor (s: State)
      ensures View() == s
    {
      version, localIdentity, remoteIdentity := s.version, s.localIdentity, s.remoteIdentity;
      rootKey, previousCounter, senderChain := s.rootKey, s.previousCounter, s.senderChain;
      receiverChains := s.receiverChains;
      pendingKeyExchange, pendingPreKey := s.pendingKeyExchange, s.pendingPreKey;
      remoteRegistrationId, localRegistrationId := s.remoteRegistrationId, s.localRegistrationId;
      needsRefresh, aliceBaseKey := s.needsRefresh, s.aliceBaseKey;
    }

    /** `session_state_find_receiver_chain`. */
    method FindReceiverChain(key: PublicKey) returns (r: Option<nat>)
      ensures r == FindChain(receiverChains, key)
    {
      var i := 0;
      while i < |receiverChains|
        invariant 0 <= i <= |receiverChains|
        invariant forall j :: 0 <= j < i ==> receiverChains[j].ratchetKey != key
      {
        if receiverChains[i].ratchetKey == key {
          return Some(i);
        }
        i := i + 1;
      }
      return None;
    }

    /** `session_state_add_receiver_chain`: append, then drop from the head while more than five. */
    method AddReceiverChain(key: PublicKey, ck: ChainKey)
      modifies this`receiverChains
      ensures View() == old(View()).(receiverChains := WithChain(old(receiverChains), key, ck))
    {
      ghost var all := receiverChains + [ReceiverChain(key, ck, [])];
      receiverChains := receiverChains + [ReceiverChain(key, ck, [])];
      var count := |receiverChains|;
      while count > MAX_RECEIVER_CHAINS
        invariant count == |receiverChains| <= |all|
        invariant receiverChains == all[|all| - count..]
        invariant count >= MAX_RECEIVER_CHAINS || count == |all|
      {
        receiverChains := receiverChains[1..];
        count := count - 1;
      }
      assert receiverChains == WithChain(old(receiverChains), key, ck);
    }

    /** `session_state_set_message_keys`: append to the chain's list, then drop from the head while too many. */
    method SetMessageKeys(key: PublicKey, keys: MessageKeys)
      modifies this`receiverChains
      ensures match FindChain(old(receiverChains), key)
              case None => View() == old(View())
              case Some(i) =>
                var c := old(receiverChains)[i];
                View() == old(View()).(
                    receiverChains := old(receiverChains)[i := c.(messageKeys := WithKeys(c.messageKeys, [keys]))])
    {
      var at := FindReceiverChain(key);
      if at.None? {
        return;
      }
      var chain := receiverChains[at.value];
      var list := chain.messageKeys + [keys];
      ghost var all := list;
      var count := |list|;
      while count > MAX_MESSAGE_KEYS
        invariant count == |list| <= |all|
        invariant list == all[|all| - count..]
        invariant count >= MAX_MESSAGE_KEYS || count == |all|
      {
        list := list[1..];
        count := count - 1;
      }
      assert list == WithKeys(chain.messageKeys, [keys]);
      receiverChains := receiverChains[at.value := chain.(messageKeys := list)];
    }

    /** `session_state_remove_message_keys`. */
    method RemoveMessageKeys(key: PublicKey, counter: uint32) returns (r: Option<MessageKeys>)
      modifies this`receiverChains
      ensures match FindChain(old(receiverChains), key)
              case None => r == None && View() == old(View())
              case Some(i) =>
                var c := old(receiverChains)[i];
                match FindKeys(c.messageKeys, counter)
                case None => r == None && View() == old(View())
                case Some(k) =>
                  && r == Some(c.messageKeys[k])
                  && View() == old(View()).(
                    receiverChains := old(receiverChains)[i := c.(messageKeys := RemoveAt(c.messageKeys, k))])
    {
      var at := FindReceiverChain(key);
      if at.None? {
        return None;
      }
      var chain := receiverChains[at.value];
      var k := 0;
      while k < |chain.messageKeys|
        invariant 0 <= k <= |chain.messageKeys|
        invariant forall j :: 0 <= j < k ==> chain.messageKeys[j].counter != counter
        invariant receiverChains == old(receiverChains)
      {
        if chain.messageKeys[k].counter == counter {
          receiverChains := receiverChains[at.value := chain.(messageKeys := RemoveAt(chain.messageKeys, k))];
          return Some(chain.messageKeys[k]);
        }
        k := k + 1;
      }
      return None;
    }

    /** `session_state_set_receiver_chain_key`. */
    method SetReceiverChainKey(key: PublicKey, ck: ChainKey) returns (r: Result<()>)
      modifies this`receiverChains
      ensures match FindChain(old(receiverChains), key)
              case None => r == Err(Unknown) && View() == old(View())
              case Some(i) =>
                && r == Ok(())
                && View() == old(View()).(
                    receiverChains := old(receiverChains)[i := old(receiverChains)[i].(chainKey := ck)])
    {
      var at := FindReceiverChain(key);
      if at.None? {
        return Err(Unknown);
      }
      receiverChains := receiverChains[at.value := receiverChains[at.value].(chainKey := ck)];
      return Ok(());
    }
  }
}
