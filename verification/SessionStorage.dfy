/**
 Storing sessions (session_state.c, session_record.c): turning a state or a record into
 the structures of the storage format and back. A structure keeps no KDF version with a
 key; reading gives every key the version of its session. Every field of a structure may
 be missing.
 */
module SessionStorage {
  import opened Common
  import opened Crypto
  import opened Ratchet
  import opened SessionStates
  import opened SessionRecords

  datatype ChainKeyStructure = ChainKeyStructure(key: Option<Secret>, index: Option<uint32>)

  /** A field of the wrong length counts as missing: reading skips it just the same. */
  datatype MessageKeyStructure = MessageKeyStructure(
    index: Option<uint32>, cipherKey: Option<Secret>, macKey: Option<Secret>, iv: Option<Secret>)

  datatype SenderChainStructure = SenderChainStructure(
    ratchetKey: Option<PublicKey>, ratchetKeyPrivate: Option<PrivateKey>, chainKey: Option<ChainKeyStructure>)

  datatype ReceiverChainStructure = ReceiverChainStructure(
    ratchetKey: Option<PublicKey>, chainKey: Option<ChainKeyStructure>, messageKeys: seq<MessageKeyStructure>)

  datatype PairStructure = PairStructure(pub: Option<PublicKey>, priv: Option<PrivateKey>)

  datatype PendingKeyExchangeStructure = PendingKeyExchangeStructure(
    sequence: uint32, baseKey: PairStructure, ratchetKey: PairStructure, identityKey: PairStructure)

  /** The signed pre-key id is a signed 32-bit field. */
  datatype PendingPreKeyStructure = PendingPreKeyStructure(
    preKeyId: Option<uint32>, signedPreKeyId: Option<int32>, baseKey: Option<PublicKey>)

  type int32 = n: int | -0x8000_0000 <= n < 0x8000_0000

  datatype SessionStructure = SessionStructure(
    version: Option<uint32>,
    localIdentity: Option<PublicKey>,
    remoteIdentity: Option<PublicKey>,
    rootKey: Option<Secret>,
    previousCounter: Option<uint32>,
    senderChain: Option<SenderChainStructure>,
    receiverChains: seq<ReceiverChainStructure>,
    pendingKeyExchange: Option<PendingKeyExchangeStructure>,
    pendingPreKey: Option<PendingPreKeyStructure>,
    remoteRegistrationId: Option<uint32>,
    localRegistrationId: Option<uint32>,
    needsRefresh: Option<bool>,
    aliceBaseKey: Option<PublicKey>)

  datatype RecordStructure = RecordStructure(current: Option<SessionStructure>, previous: seq<SessionStructure>)

  // ---- What reading yields ----

  /** A missing key is left as zero bytes. */
  datatype ReadKeys = ReadKeys(cipherKey: Option<Secret>, macKey: Option<Secret>, iv: Option<Secret>, counter: uint32)

  /** A missing ratchet or chain key is left as a null pointer. */
  datatype ReadChain = ReadChain(ratchetKey: Option<PublicKey>, chainKey: Option<ChainKey>, messageKeys: seq<ReadKeys>)

  datatype ReadPreKey = ReadPreKey(preKeyId: Option<uint32>, signedPreKeyId: uint32, baseKey: Option<PublicKey>)

  /** A state as it is read: `plain` without the two parts that may be incomplete, and those parts. */
  datatype ReadState = ReadState(plain: State, receiverChains: seq<ReadChain>, pendingPreKey: Option<ReadPreKey>)

  datatype ReadRecord = ReadRecord(state: ReadState, previous: seq<ReadState>, isFresh: bool)

  function WholeKeys(k: MessageKeys): ReadKeys {
    ReadKeys(Some(k.cipherKey), Some(k.macKey), Some(k.iv), k.counter)
  }

  function WholeChain(c: ReceiverChain): ReadChain {
    ReadChain(Some(c.ratchetKey), Some(c.chainKey), Each(WholeKeys, c.messageKeys))
  }

  /** A complete state, as reading would yield it. */
  function Whole(s: State): ReadState {
    ReadState(s.(receiverChains := [], pendingPreKey := None), Each(WholeChain, s.receiverChains),
              match s.pendingPreKey
              case None => None
              case Some(p) => Some(ReadPreKey(p.preKeyId, p.signedPreKeyId, Some(p.baseKey))))
  }

  function WholeRecord(r: Record): ReadRecord {
    ReadRecord(Whole(r.state), Each(Whole, r.previous), r.isFresh)
  }

  const NEW_STATE: ReadState := ReadState(EMPTY, [], None)

  /** The cast from `uint32_t` to `int32_t`. */
  function ToSigned(n: uint32): int32 {
    if n < 0x8000_0000 then n else n - TWO32
  }

  /** The cast from `int32_t` to `uint32_t`. */
  function ToUnsigned(n: int32): uint32 {
    if n < 0 then n + TWO32 else n
  }

  // ---- Writing ----

  function ChainKeyOut(ck: ChainKey): ChainKeyStructure {
    ChainKeyStructure(Some(ck.key), Some(ck.index))
  }

  function MessageKeyOut(k: MessageKeys): MessageKeyStructure {
    MessageKeyStructure(Some(k.counter), Some(k.cipherKey), Some(k.macKey), Some(k.iv))
  }

  function Each<A, B>(f: A -> B, s: seq<A>): (r: seq<B>)
    ensures |r| == |s|
    ensures forall i :: 0 <= i < |s| ==> r[i] == f(s[i])
  {
    seq(|s|, i requires 0 <= i < |s| => f(s[i]))
  }

  function MaybeOut<A, B>(f: A -> B, x: Option<A>): Option<B> {
    if x.Some? then Some(f(x.value)) else None
  }

  function SenderChainOut(c: SenderChain): SenderChainStructure {
    SenderChainStructure(MaybeOut((k: KeyPair) => k.pub, c.ratchetKeyPair),
                         MaybeOut((k: KeyPair) => k.priv, c.ratchetKeyPair),
                         MaybeOut(ChainKeyOut, c.chainKey))
  }

  function ReceiverChainOut(c: ReceiverChain): ReceiverChainStructure {
    ReceiverChainStructure(Some(c.ratchetKey), Some(ChainKeyOut(c.chainKey)), Each(MessageKeyOut, c.messageKeys))
  }

  function PairOut(k: Option<KeyPair>): PairStructure {
    if k.Some? then PairStructure(Some(k.value.pub), Some(k.value.priv)) else PairStructure(None, None)
  }

  function ExchangeOut(x: PendingKeyExchange): PendingKeyExchangeStructure {
    PendingKeyExchangeStructure(x.sequence, PairOut(x.baseKey), PairOut(x.ratchetKey), PairOut(x.identityKey))
  }

  function PreKeyOut(p: PendingPreKey): PendingPreKeyStructure {
    PendingPreKeyStructure(p.preKeyId, Some(ToSigned(p.signedPreKeyId)), Some(p.baseKey))
  }

  /** `session_state_serialize_prepare`. */
  function StateOut(s: State): SessionStructure {
    SessionStructure(
      Some(s.version), s.localIdentity, s.remoteIdentity,
      MaybeOut((k: RootKey) => k.key, s.rootKey), Some(s.previousCounter),
      MaybeOut(SenderChainOut, s.senderChain), Each(ReceiverChainOut, s.receiverChains),
      MaybeOut(ExchangeOut, s.pendingKeyExchange), MaybeOut(PreKeyOut, s.pendingPreKey),
      Some(s.remoteRegistrationId), Some(s.localRegistrationId), Some(s.needsRefresh), s.aliceBaseKey)
  }

  /** The structure built by `session_record_serialize`. */
  function RecordOut(r: Record): RecordStructure {
    RecordStructure(Some(StateOut(r.state)), Each(StateOut, r.previous))
  }

  // ---- Reading ----

  /** `hkdf_create` knows two versions. */
  predicate Known(version: nat) {
    version == 2 || version == 3
  }

  predicate Complete(k: Option<ChainKeyStructure>) {
    k.Some? && k.value.key.Some? && k.value.index.Some?
  }

  /** A chain key is read only if both of its fields are there. */
  function ChainKeyIn(version: nat, k: Option<ChainKeyStructure>): Option<ChainKey> {
    if Complete(k) then Some(ChainKey(version, k.value.key.value, k.value.index.value)) else None
  }

  function MessageKeyIn(k: MessageKeyStructure): ReadKeys {
    ReadKeys(k.cipherKey, k.macKey, k.iv, Or(k.index, 0))
  }

  /** A key pair is read only if both halves are there. */
  function PairIn(pub: Option<PublicKey>, priv: Option<PrivateKey>): Option<KeyPair> {
    if pub.Some? && priv.Some? then Some(KeyPair(pub.value, priv.value)) else None
  }

  /** The caller ignores the result of reading a sender chain: a chain key of an unknown version leaves an empty
      chain behind. */
  function SenderChainIn(version: nat, c: SenderChainStructure): SenderChain {
    if Complete(c.chainKey) && !Known(version) then SenderChain(None, None)
    else SenderChain(PairIn(c.ratchetKey, c.ratchetKeyPrivate), ChainKeyIn(version, c.chainKey))
  }

  function ReceiverChainIn(version: nat, c: ReceiverChainStructure): ReadChain {
    ReadChain(c.ratchetKey, ChainKeyIn(version, c.chainKey), Each(MessageKeyIn, c.messageKeys))
  }

  function ExchangeIn(x: PendingKeyExchangeStructure): PendingKeyExchange {
    PendingKeyExchange(x.sequence, PairIn(x.baseKey.pub, x.baseKey.priv), PairIn(x.ratchetKey.pub, x.ratchetKey.priv),
                       PairIn(x.identityKey.pub, x.identityKey.priv))
  }

  function ChainsIn(version: nat, cs: seq<ReceiverChainStructure>): (r: seq<ReadChain>)
    ensures |r| == |cs|
    ensures forall i :: 0 <= i < |cs| ==> r[i] == ReceiverChainIn(version, cs[i])
  {
    seq(|cs|, i requires 0 <= i < |cs| => ReceiverChainIn(version, cs[i]))
  }

  function PreKeyIn(k: PendingPreKeyStructure): ReadPreKey {
    ReadPreKey(k.preKeyId, if k.signedPreKeyId.Some? then ToUnsigned(k.signedPreKeyId.value) else 0, k.baseKey)
  }

  function Or<T>(x: Option<T>, otherwise: T): T {
    if x.Some? then x.value else otherwise
  }

  /** Some receiver chain has a chain key. */
  predicate AnyChainKey(cs: seq<ReceiverChainStructure>) {
    exists i :: 0 <= i < |cs| && Complete(cs[i].chainKey)
  }

  /** `session_state_deserialize_protobuf`: missing fields keep the values of a new state. */
  function StateIn(p: SessionStructure): Result<ReadState> {
    var version := Or(p.version, EMPTY.version);
    if (p.rootKey.Some? || AnyChainKey(p.receiverChains)) && !Known(version) then Err(Invalid)
    else
      Ok(ReadState(
           State(
             version, p.localIdentity, p.remoteIdentity,
             if p.rootKey.Some? then Some(RootKey(version, p.rootKey.value)) else None,
             Or(p.previousCounter, EMPTY.previousCounter),
             if p.senderChain.Some? then Some(SenderChainIn(version, p.senderChain.value)) else None,
             [],
             if p.pendingKeyExchange.Some? then Some(ExchangeIn(p.pendingKeyExchange.value)) else None,
             None,
             Or(p.remoteRegistrationId, EMPTY.remoteRegistrationId),
             Or(p.localRegistrationId, EMPTY.localRegistrationId),
             Or(p.needsRefresh, EMPTY.needsRefresh), p.aliceBaseKey),
           ChainsIn(version, p.receiverChains),
           if p.pendingPreKey.Some? then Some(PreKeyIn(p.pendingPreKey.value)) else None))
  }

  /** Reads the archived states until one fails. */
  function StatesIn(ps: seq<SessionStructure>): Result<seq<ReadState>> {
    if ps == [] then Ok([])
    else
      match StatesIn(ps[..|ps| - 1])
      case Err(e) => Err(e)
      case Ok(states) =>
        match StateIn(ps[|ps| - 1])
        case Err(e) => Err(e)
        case Ok(s) => Ok(states + [s])
  }

  /** The record read by `session_record_deserialize`, which is never fresh. */
  function RecordIn(p: RecordStructure): Result<ReadRecord> {
    match (if p.current.Some? then StateIn(p.current.value) else Ok(NEW_STATE))
    case Err(e) => Err(e)
    case Ok(s) =>
      match StatesIn(p.previous)
      case Err(e) => Err(e)
      case Ok(previous) => Ok(ReadRecord(s, previous, false))
  }

  // ---- The calls ----

  /** The loop over the message keys of a receiver chain: a node starts as zeros and gets the fields that are there. */
  method ReadMessageKeys(ks: seq<MessageKeyStructure>) returns (r: seq<ReadKeys>)
    ensures r == Each(MessageKeyIn, ks)
  {
    r := [];
    var i := 0;
    while i < |ks|
      invariant 0 <= i <= |ks| && |r| == i
      invariant forall j :: 0 <= j < i ==> r[j] == MessageKeyIn(ks[j])
    {
      var node := ReadKeys(None, None, None, 0);
      if ks[i].index.Some? {
        node := node.(counter := ks[i].index.value);
      }
      node := node.(cipherKey := ks[i].cipherKey, macKey := ks[i].macKey, iv := ks[i].iv);
      r := r + [node];
      i := i + 1;
    }
  }

  /** `session_state_deserialize_protobuf_receiver_chain` for every chain, until one fails. */
  method ReadReceiverChains(version: uint32, cs: seq<ReceiverChainStructure>) returns (r: Result<seq<ReadChain>>)
    ensures if AnyChainKey(cs) && !Known(version) then r == Err(Invalid) else r == Ok(ChainsIn(version, cs))
  {
    var chains := [];
    var i := 0;
    while i < |cs|
      invariant 0 <= i <= |cs| && |chains| == i
      invariant Known(version) || forall j :: 0 <= j < i ==> !Complete(cs[j].chainKey)
      invariant forall j :: 0 <= j < i ==> chains[j] == ReceiverChainIn(version, cs[j])
    {
      var chainKey: Option<ChainKey> := None;
      if Complete(cs[i].chainKey) {
        if !Known(version) {
          return Err(Invalid);
        }
        chainKey := Some(ChainKey(version, cs[i].chainKey.value.key.value, cs[i].chainKey.value.index.value));
      }
      var keys := ReadMessageKeys(cs[i].messageKeys);
      chains := chains + [ReadChain(cs[i].ratchetKey, chainKey, keys)];
      i := i + 1;
    }
    assert chains == ChainsIn(version, cs);
    return Ok(chains);
  }

  /** `session_state_deserialize_protobuf`: fills a new state field by field. */
  method DeserializeState(p: SessionStructure) returns (r: Result<ReadState>)
    ensures r == StateIn(p)
  {
    hide SenderChainIn, ReceiverChainIn, ChainsIn, ExchangeIn, PreKeyIn, AnyChainKey, Known;
    var state := EMPTY;
    state := state.(version := Or(p.version, state.version));
    state := state.(localIdentity := p.localIdentity, remoteIdentity := p.remoteIdentity);
    if p.rootKey.Some? {
      if !Known(state.version) {
        return Err(Invalid);
      }
      state := state.(rootKey := Some(RootKey(state.version, p.rootKey.value)));
    }
    state := state.(previousCounter := Or(p.previousCounter, state.previousCounter));
    if p.senderChain.Some? {
      state := state.(senderChain := Some(SenderChainIn(state.version, p.senderChain.value)));
    }
    var chains := ReadReceiverChains(state.version, p.receiverChains);
    if chains.Err? {
      return Err(chains.error);
    }
    if p.pendingKeyExchange.Some? {
      state := state.(pendingKeyExchange := Some(ExchangeIn(p.pendingKeyExchange.value)));
    }
    var pendingPreKey: Option<ReadPreKey> := None;
    if p.pendingPreKey.Some? {
      pendingPreKey := Some(PreKeyIn(p.pendingPreKey.value));
    }
    state := state.(remoteRegistrationId := Or(p.remoteRegistrationId, state.remoteRegistrationId));
    state := state.(localRegistrationId := Or(p.localRegistrationId, state.localRegistrationId));
    state := state.(needsRefresh := Or(p.needsRefresh, state.needsRefresh), aliceBaseKey := p.aliceBaseKey);
    return Ok(ReadState(state, chains.value, pendingPreKey));
  }

  /** What is written under each name is what the state has. */
  lemma WrittenByName(s: State)
    ensures var p := StateOut(s);
            && p.version == Some(s.version) && p.previousCounter == Some(s.previousCounter)
            && p.localIdentity == s.localIdentity && p.remoteIdentity == s.remoteIdentity
            && p.aliceBaseKey == s.aliceBaseKey && p.needsRefresh == Some(s.needsRefresh)
            && p.localRegistrationId == Some(s.localRegistrationId)
            && p.remoteRegistrationId == Some(s.remoteRegistrationId)
            && (p.rootKey == if s.rootKey.Some? then Some(s.rootKey.value.key) else None)
    ensures |StateOut(s).receiverChains| == |s.receiverChains|
    ensures forall i :: 0 <= i < |s.receiverChains| ==>
              var (c, p) := (s.receiverChains[i], StateOut(s).receiverChains[i]);
              && p.ratchetKey == Some(c.ratchetKey) && |p.messageKeys| == |c.messageKeys|
              && p.chainKey == Some(ChainKeyStructure(Some(c.chainKey.key), Some(c.chainKey.index)))
              && forall j :: 0 <= j < |c.messageKeys| ==>
                   var (k, q) := (c.messageKeys[j], p.messageKeys[j]);
                   && q.index == Some(k.counter) && q.cipherKey == Some(k.cipherKey)
                   && q.macKey == Some(k.macKey) && q.iv == Some(k.iv)
  {
  }

  /** What is read into each field is what stands under its name. */
  lemma ReadByName(p: SessionStructure)
    requires StateIn(p).Ok?
    ensures var s := StateIn(p).value.plain;
            && s.localIdentity == p.localIdentity && s.remoteIdentity == p.remoteIdentity
            && s.aliceBaseKey == p.aliceBaseKey
            && (p.version.Some? ==> s.version == p.version.value)
            && (p.previousCounter.Some? ==> s.previousCounter == p.previousCounter.value)
            && (p.localRegistrationId.Some? ==> s.localRegistrationId == p.localRegistrationId.value)
            && (p.remoteRegistrationId.Some? ==> s.remoteRegistrationId == p.remoteRegistrationId.value)
            && (p.rootKey.Some? ==> s.rootKey.Some? && s.rootKey.value.key == p.rootKey.value)
  {
  }

  // ---- Round trips ----

  /** Every key has the KDF version of its session, and it is a version that can be read. */
  predicate Consistent(s: State) {
    && (s.rootKey.Some? ==> Known(s.version) && s.rootKey.value.kdf == s.version)
    && (s.senderChain.Some? && s.senderChain.value.chainKey.Some? ==>
          Known(s.version) && s.senderChain.value.chainKey.value.kdf == s.version)
    && (s.receiverChains != [] ==> Known(s.version))
    && forall i :: 0 <= i < |s.receiverChains| ==> s.receiverChains[i].chainKey.kdf == s.version
  }

  lemma ChainReturns(version: nat, c: ReceiverChain)
    ensures ReceiverChainIn(version, ReceiverChainOut(c)) == WholeChain(c.(chainKey := c.chainKey.(kdf := version)))
    ensures ReceiverChainIn(version, ReceiverChainOut(c)) == WholeChain(c) <==> c.chainKey.kdf == version
  {
    assert Each(MessageKeyIn, Each(MessageKeyOut, c.messageKeys)) == Each(WholeKeys, c.messageKeys);
  }

  lemma ChainsReturn(s: State)
    ensures ChainsIn(s.version, StateOut(s).receiverChains) == Whole(s).receiverChains
            <==> forall i :: 0 <= i < |s.receiverChains| ==> s.receiverChains[i].chainKey.kdf == s.version
    ensures AnyChainKey(StateOut(s).receiverChains) <==> s.receiverChains != []
  {
    hide ReceiverChainIn, WholeChain;
    var (cs, whole) := (StateOut(s).receiverChains, Whole(s).receiverChains);
    var back := ChainsIn(s.version, cs);
    forall i | 0 <= i < |cs|
      ensures back[i] == whole[i] <==> s.receiverChains[i].chainKey.kdf == s.version
      ensures Complete(cs[i].chainKey)
    {
      ChainReturns(s.version, s.receiverChains[i]);
    }
    assert s.receiverChains != [] ==> Complete(cs[0].chainKey);
  }

  lemma PlainReturns(s: State)
    requires StateIn(StateOut(s)).Ok?
    ensures var back := StateIn(StateOut(s)).value;
            && back.pendingPreKey == Whole(s).pendingPreKey
            && back.receiverChains == ChainsIn(s.version, StateOut(s).receiverChains)
            && back.plain == Whole(s).plain.(rootKey := back.plain.rootKey, senderChain := back.plain.senderChain)
            && (back.plain.rootKey == s.rootKey <==> (s.rootKey.Some? ==> s.rootKey.value.kdf == s.version))
            && (back.plain.senderChain == s.senderChain <==>
                  (s.senderChain.Some? && s.senderChain.value.chainKey.Some? ==>
                     Known(s.version) && s.senderChain.value.chainKey.value.kdf == s.version))
  {
    hide ChainsIn, Each, WholeChain, ReceiverChainOut, AnyChainKey;
    assert s.pendingPreKey.Some? ==>
             var id := s.pendingPreKey.value.signedPreKeyId; ToUnsigned(ToSigned(id)) == id;
  }

  /** A state comes back from storage unchanged exactly when every key carries the KDF version of the session. */
  lemma StateRoundTrip(s: State)
    ensures StateIn(StateOut(s)) == Ok(Whole(s)) <==> Consistent(s)
  {
    ChainsReturn(s);
    var p := StateOut(s);
    assert p.rootKey.Some? <==> s.rootKey.Some?;
    assert StateIn(p).Err? <==> (s.rootKey.Some? || s.receiverChains != []) && !Known(s.version);
    if StateIn(p).Ok? {
      PlainReturns(s);
      hide StateIn, StateOut, ChainsIn, Each, Known;
      var (back, whole) := (StateIn(p).value, Whole(s));
      assert back == whole <==>
               && back.plain.rootKey == s.rootKey && back.plain.senderChain == s.senderChain
               && back.receiverChains == whole.receiverChains;
    }
  }

  /** A session version that cannot be read loses the sending chain without an error, if the state holds no other
      key. */
  lemma UnknownVersionLosesSenderChain(s: State)
    requires !Known(s.version) && s.rootKey.None? && s.receiverChains == []
    requires s.senderChain.Some? && s.senderChain.value.chainKey.Some?
    ensures StateIn(StateOut(s)).Ok?
    ensures StateIn(StateOut(s)).value.plain.senderChain == Some(SenderChain(None, None)) != s.senderChain
  {
  }

  lemma {:induction false} StatesReturn(states: seq<State>)
    requires forall i :: 0 <= i < |states| ==> Consistent(states[i])
    ensures StatesIn(Each(StateOut, states)) == Ok(Each(Whole, states))
  {
    hide StateIn, StateOut, Consistent, Whole;
    var ps := Each(StateOut, states);
    if states != [] {
      var (before, last) := (states[..|states| - 1], states[|states| - 1]);
      StateRoundTrip(last);
      StatesReturn(before);
      assert Each(StateOut, before) == ps[..|ps| - 1];
      assert Each(Whole, states) == Each(Whole, before) + [Whole(last)];
    }
  }

  /** A record whose states are consistent comes back with all of them in order, and no longer fresh. */
  lemma RecordRoundTrip(r: Record)
    requires forall i :: 0 <= i < |r.States()| ==> Consistent(r.States()[i])
    ensures RecordIn(RecordOut(r)) == Ok(WholeRecord(r.(isFresh := false)))
  {
    hide StateIn, StateOut, Consistent, Whole;
    assert Consistent(r.States()[0]);
    forall i | 0 <= i < |r.previous|
      ensures Consistent(r.previous[i])
    {
      assert r.States()[i + 1] == r.previous[i];
    }
    StateRoundTrip(r.state);
    StatesReturn(r.previous);
  }

  /** What is read determines the state that was written. */
  lemma WholeIsInjective(s: State, t: State)
    requires Whole(s) == Whole(t)
    ensures s == t
  {
    assert |s.receiverChains| == |t.receiverChains|;
    forall i | 0 <= i < |s.receiverChains|
      ensures s.receiverChains[i] == t.receiverChains[i]
    {
      assert Whole(s).receiverChains[i] == Whole(t).receiverChains[i];
      WholeChainIsInjective(s.receiverChains[i], t.receiverChains[i]);
    }
    assert s.receiverChains == t.receiverChains;
    assert s == Whole(s).plain.(receiverChains := s.receiverChains, pendingPreKey := s.pendingPreKey);
  }

  lemma WholeChainIsInjective(c: ReceiverChain, d: ReceiverChain)
    requires WholeChain(c) == WholeChain(d)
    ensures c == d
  {
    assert |c.messageKeys| == |d.messageKeys|;
    forall i | 0 <= i < |c.messageKeys|
      ensures c.messageKeys[i] == d.messageKeys[i]
    {
      assert WholeChain(c).messageKeys[i] == WholeChain(d).messageKeys[i];
    }
  }
}
