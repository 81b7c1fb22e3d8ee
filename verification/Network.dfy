/**
 Any number of devices, each running any number of sessions with the others, on a network
 in the hands of an attacker. The attacker owns key pairs of its own, takes part in the
 protocol with them, and delivers whatever it can make: every header field is free, but a
 MAC is either one a device sent or made with a key the attacker can derive, and a
 signature is either one a device made or made with a key of the attacker.
 */
module Network {
  import opened Common
  import opened Crypto
  import opened Ratchet
  import opened Messages
  import opened SessionStates
  import opened X3dh
  import opened SessionCiphers
  import opened ReceiverChains
  import opened SessionRecords
  import opened Replay
  import opened Devices
  import opened RecordHistory
  import opened DeviceRuns
  import opened AtMostOnce

  type Name = string

  /** A device, and the MAC keys heard by the sessions in its records. */
  datatype Node = Node(device: Device, heard: Heard)

  /** A message a device handed out: by which device, for the owner of which identity, with what text, and sealed
      under the keys of which chain key. */
  datatype Emission = Emission(sender: Name, receiver: PublicKey, text: Text, chainKey: ChainKey, message: Message)

  /** `evil` are the attacker's key pairs, `signed` the pre keys devices have signed, by identity key. */
  datatype Net = Net(nodes: map<Name, Node>, evil: set<nat>, signed: set<(PublicKey, PublicKey)>, sent: seq<Emission>,
                     next: nat)

  const NOTHING_YET: Net := Net(map[], {}, {}, [], 0)

  datatype NetEvent =
    | Join(name: Name, registrationId: uint32)
    | AttackerKey
    | At(name: Name, event: Event)

  // ---- What the attacker can make ----

  predicate KnowsShared(evil: set<nat>, shared: Shared) {
    shared.low in evil || shared.high in evil
  }

  /** The secrets that follow from the attacker's private keys. */
  predicate Knows(evil: set<nat>, s: Secret) {
    match s
    case Random(id) => id in evil
    case Text(_, input, _) =>
      forall i :: 0 <= i < |input| && input[i].Agreed? ==> KnowsShared(evil, input[i].shared)
    case Ratcheted(_, root, shared, _) => Knows(evil, root) && KnowsShared(evil, shared)
    case Hmac(key, _) => Knows(evil, key)
    case MessagePart(_, seed, _) => Knows(evil, seed)
    case GroupPart(seed, _) => Knows(evil, seed)
  }

  /** A derived secret is known only to someone who knows every agreement it started from. */
  lemma {:induction false} KnowsItsOrigin(evil: set<nat>, s: Secret, i: nat)
    requires Knows(evil, s) && i < |Origin(s)| && Origin(s)[i].Agreed?
    ensures KnowsShared(evil, Origin(s)[i].shared)
  {
    match s
    case Ratcheted(_, root, _, _) => KnowsItsOrigin(evil, root, i);
    case Hmac(key, _) => KnowsItsOrigin(evil, key, i);
    case MessagePart(_, seed, _) => KnowsItsOrigin(evil, seed, i);
    case GroupPart(seed, _) => KnowsItsOrigin(evil, seed, i);
    case _ =>
  }

  predicate WasSent(sent: seq<Emission>, mac: Mac) {
    exists i :: 0 <= i < |sent| && sent[i].message.mac == mac
  }

  predicate Deliverable(w: Net, m: Message) {
    Knows(w.evil, m.mac.key) || WasSent(w.sent, m.mac)
  }

  /** What can happen at a device: its application does anything, the network delivers what the attacker can make. */
  predicate Possible(w: Net, e: Event) {
    match e
    case Receive(_, m, _) => Deliverable(w, m)
    case ReceivePreKey(_, p, _) => Deliverable(w, p.message) && p.identityKey.id < w.next
    case ProcessBundle(_, b, _) =>
      b.signature.signer.id in w.evil || (b.signature.signer, b.signature.signed) in w.signed
    case _ => true
  }

  // ---- Runs ----

  /** A device as it is when a step begins: key pairs have been generated elsewhere meanwhile. */
  function DeviceAt(w: Net, name: Name): Device
    requires name in w.nodes
  {
    w.nodes[name].device.(next := w.next)
  }

  /** What a step of a device emits, as the sender sees it. */
  function EmissionOf(name: Name, d: Device, e: Event): seq<Emission> {
    if Emitted(d, e).None? then []
    else
      var s := Load(d, e.a).state;
      if s.senderChain.None? || s.senderChain.value.chainKey.None? || s.remoteIdentity.None? then []
      else [Emission(name, s.remoteIdentity.value, e.text, s.senderChain.value.chainKey.value, Emitted(d, e).value)]
  }

  function NetStep(w: Net, e: NetEvent): Net {
    match e
    case Join(name, registrationId) =>
      if name in w.nodes then w
      else
        var d := Device(PairOf(w.next), registrationId, map[], map[], map[], map[], w.next + 1);
        w.(nodes := w.nodes[name := Node(d, map[])], next := w.next + 1)
    case AttackerKey => w.(evil := w.evil + {w.next}, next := w.next + 1)
    case At(name, event) =>
      if name !in w.nodes then w
      else
        var (d, heard) := (DeviceAt(w, name), w.nodes[name].heard);
        var d' := Step(d, event);
        w.(nodes := w.nodes[name := Node(d', HeardAfter(d, heard, event))],
           signed := w.signed + (if event.AddSignedPreKey? then {(d.identity.pub, PublicKey(d.next))} else {}),
           sent := w.sent + EmissionOf(name, d, event),
           next := d'.next)
  }

  predicate NetAllowed(w: Net, e: NetEvent) {
    e.At? && e.name in w.nodes ==> Possible(w, e.event) && Allowed(DeviceAt(w, e.name), e.event)
  }

  function NetRun(events: seq<NetEvent>): Net {
    if events == [] then NOTHING_YET else NetStep(NetRun(events[..|events| - 1]), events[|events| - 1])
  }

  predicate AllowedNetRun(events: seq<NetEvent>) {
    forall i :: 0 <= i < |events| ==> NetAllowed(NetRun(events[..i]), events[i])
  }

  // ---- What every step keeps ----

  /** A key pair generated before `next` that is not the attacker's. */
  predicate Honest(evil: set<nat>, next: nat, id: nat) {
    id < next && id !in evil
  }

  /** The second agreement of the session, between an identity and a signed pre key, is between honest keys. */
  predicate Hidden(o: seq<Block>, evil: set<nat>, next: nat) {
    && |o| >= 2 && o[1].Agreed?
    && Honest(evil, next, o[1].shared.low) && Honest(evil, next, o[1].shared.high)
  }

  /** The sending chain comes from the same agreement as the root key. */
  predicate SendsOnOrigin(s: State) {
    s.senderChain.Some? && s.senderChain.value.chainKey.Some? ==>
      Origin(s.senderChain.value.chainKey.value.key) == OriginOf(s)
  }

  /** A session with an honest identity comes from an agreement hidden from the attacker. */
  predicate Guarded(s: State, me: PublicKey, evil: set<nat>, next: nat) {
    && SendsOnOrigin(s)
    && s.localIdentity == Some(me) && s.remoteIdentity.Some? && s.remoteIdentity.value.id < next
    && (s.remoteIdentity.value.id !in evil ==> Hidden(OriginOf(s), evil, next))
  }

  predicate AllGuarded(states: seq<State>, me: PublicKey, evil: set<nat>, next: nat) {
    forall i :: 0 <= i < |states| ==> Guarded(states[i], me, evil, next)
  }

  /** A device's own keys are honest, and so are its sessions with honest identities. */
  ghost predicate GoodDevice(d: Device, evil: set<nat>) {
    && Honest(evil, d.next, d.identity.pub.id)
    && (forall id :: id in d.signedPreKeys ==>
          IsPair(d.signedPreKeys[id]) && Honest(evil, d.next, d.signedPreKeys[id].pub.id))
    && forall a :: a in d.sessions ==> AllGuarded(d.sessions[a].States(), d.identity.pub, evil, d.next)
  }

  ghost predicate GoodNode(w: Net, name: Name)
    requires name in w.nodes
  {
    var n := w.nodes[name];
    n.device.next <= w.next && Safe(n.device, n.heard) && GoodDevice(n.device, w.evil)
  }

  /** An emitted message is sealed under the stated keys, by the device's identity for the stated one. */
  predicate GoodEmission(w: Net, e: Emission) {
    && e.sender in w.nodes
    && e.message == Seal(CURRENT_VERSION, MessageKeysOf(e.chainKey), e.message.ratchetKey, e.chainKey.index,
                         e.message.previousCounter, e.text, w.nodes[e.sender].device.identity.pub, e.receiver)
    && e.receiver.id < w.next
    && (e.receiver.id !in w.evil ==> Hidden(Origin(e.chainKey.key), w.evil, w.next))
  }

  ghost predicate GoodNet(w: Net) {
    && (forall id :: id in w.evil ==> id < w.next)
    && (forall x :: x in w.signed ==> Honest(w.evil, w.next, x.1.id))
    && (forall name :: name in w.nodes ==> GoodNode(w, name))
    && forall i :: 0 <= i < |w.sent| ==> GoodEmission(w, w.sent[i])
  }

  // ---- What an accepted message proves ----

  lemma HiddenIsUnknown(evil: set<nat>, next: nat, o: seq<Block>, k: Secret)
    requires Hidden(o, evil, next) && Origin(k) == o
    ensures !Knows(evil, k)
  {
    if Knows(evil, k) {
      KnowsItsOrigin(evil, k, 1);
    }
  }

  /** A MAC determines every field of the message it verifies for, and the two identities. */
  lemma MacDeterminesMessage(m: Message, k: Secret, remote: PublicKey, local: PublicKey, keys: MessageKeys,
                             ratchetKey: PublicKey, counter: uint32, previousCounter: uint32, text: Text,
                             sender: PublicKey, receiver: PublicKey)
    requires MacVerifies(m, k, remote, local) && m.version == CURRENT_VERSION
    requires m.mac == Seal(CURRENT_VERSION, keys, ratchetKey, counter, previousCounter, text, sender, receiver).mac
    ensures m == Seal(CURRENT_VERSION, keys, ratchetKey, counter, previousCounter, text, sender, receiver)
    ensures remote == sender && local == receiver && k == keys.macKey && m.body.text == text && m.counter == counter
  {
  }

  /** What one state accepting a message shows. */
  lemma AcceptedVerifies(s: State, m: Message, next: nat)
    requires Sound(s) && Decrypted(s, m, next).Ok?
    ensures m.version == CURRENT_VERSION
    ensures MacVerifies(m, m.mac.key, s.remoteIdentity.value, s.localIdentity.value)
    ensures Decrypted(s, m, next).value.1 == m.body.text
  {
    hide Keyed;
  }

  /** The keys a state decrypts a message with. */
  function OpenedWith(s: State, m: Message): MessageKeys
    requires Equipped(s)
  {
    KeysAt(KDF, KeyFor(s, m).base, m.counter)
  }

  lemma MacKeyDeterminesKeys(a: ChainKey, b: ChainKey)
    requires MessageKeysOf(a).macKey == MessageKeysOf(b).macKey && a.index == b.index
    ensures MessageKeysOf(a) == MessageKeysOf(b)
  {
  }

  /** The emission behind an accepted message. */
  predicate Matches(w: Net, x: Emission, s: State, m: Message, text: Text, keys: MessageKeys) {
    && x.message == m && x.text == text && MessageKeysOf(x.chainKey) == keys
    && x.sender in w.nodes && Some(w.nodes[x.sender].device.identity.pub) == s.remoteIdentity
    && Some(x.receiver) == s.localIdentity
  }

  predicate SentAsAccepted(w: Net, s: State, m: Message, text: Text)
    requires Equipped(s)
  {
    exists i :: 0 <= i < |w.sent| && Matches(w, w.sent[i], s, m, text, OpenedWith(s, m))
  }

  /** A guarded session with an honest identity accepts only what a device with that identity sent to this one. */
  lemma HonestSessionAcceptsOnlySent(w: Net, s: State, me: nat, macs: set<Secret>, m: Message, next: nat)
    requires GoodNet(w) && Deliverable(w, m) && m.counter < TWO32 - 1
    requires Intact(s, me, macs) && s.remoteIdentity.value.id !in w.evil && Hidden(OriginOf(s), w.evil, w.next)
    requires Decrypted(s, m, next).Ok?
    ensures SentAsAccepted(w, s, m, Decrypted(s, m, next).value.1)
  {
    hide Decrypted, Sound, Spent, Rooted, OriginOf, Hidden, Knows, Seal, GoodNode, MessageKeysOf, ChainAt;
    SoundIsEquipped(s);
    AcceptKeepsState(s, me, macs, m, next);
    AcceptedUnder(s, me, macs, m, next);
    HiddenIsUnknown(w.evil, w.next, OriginOf(s), m.mac.key);
    AcceptedVerifies(s, m, next);
    var i :| 0 <= i < |w.sent| && w.sent[i].message.mac == m.mac;
    var x := w.sent[i];
    assert GoodEmission(w, x);
    MacDeterminesMessage(m, m.mac.key, s.remoteIdentity.value, s.localIdentity.value, MessageKeysOf(x.chainKey),
                         x.message.ratchetKey, x.chainKey.index, x.message.previousCounter, x.text,
                         w.nodes[x.sender].device.identity.pub, x.receiver);
    ChainAtIndex(KDF, KeyFor(s, m).base, m.counter);
    MacKeyDeterminesKeys(x.chainKey, ChainAt(KDF, KeyFor(s, m).base, m.counter));
    assert Matches(w, x, s, m, Decrypted(s, m, next).value.1, OpenedWith(s, m));
  }

  lemma ChainAtIndex(kdf: nat, base: Secret, n: uint32)
    ensures ChainAt(kdf, base, n).index == n
  {
  }

  lemma AcceptedUnder(s: State, me: nat, macs: set<Secret>, m: Message, next: nat)
    requires Intact(s, me, macs) && m.counter < TWO32 - 1 && Decrypted(s, m, next).Ok?
    ensures Equipped(s) && m.mac.key == OpenedWith(s, m).macKey
  {
    hide Decrypted, SoundChains, Rooted, Spent;
    AcceptedKeyIsNew(s, m, next, Names(macs, OriginOf(s)));
  }

  // ---- Records ----

  lemma GuardedStays(s: State, s': State, me: PublicKey, evil: set<nat>, next: nat)
    requires Guarded(s, me, evil, next) && SameSession(s, s') && SendsOnOrigin(s')
    ensures Guarded(s', me, evil, next)
  {
  }

  /** Accepting a message keeps the sending chain or derives a new one from the root key. */
  lemma StillSendsOnOrigin(s: State, m: Message, next: nat)
    requires SendsOnOrigin(s) && s.rootKey.Some? && Decrypted(s, m, next).Ok?
    ensures SendsOnOrigin(Decrypted(s, m, next).value.0)
  {
    hide TakeKeys, WithChain, MacVerifies, DecryptBody;
    if FindChain(s.receiverChains, m.ratchetKey).None? {
      var s' := OpenChain(s, m.ratchetKey, next).value.0;
      var (root, ours) := (s.rootKey.value, s.senderChain.value.ratchetKeyPair.value.priv);
      assert CreateChain(root, m.ratchetKey, ours).0.key
             == Ratcheted(root.kdf, root.key, Agreement(m.ratchetKey, ours), First);
      assert Origin(CreateChain(root, m.ratchetKey, ours).0.key) == Origin(root.key);
      assert SendsOnOrigin(s');
    }
  }

  lemma GuardedLater(states: seq<State>, me: PublicKey, evil: set<nat>, next: nat, next': nat)
    requires AllGuarded(states, me, evil, next) && next <= next'
    ensures AllGuarded(states, me, evil, next')
  {
    hide OriginOf;
  }

  lemma GuardedSends(s: State, me: PublicKey, evil: set<nat>, next: nat)
    requires Guarded(s, me, evil, next)
    ensures SendsOnOrigin(s)
  {
  }

  /** The state of a record that accepts a message, and what its acceptance shows. */
  lemma RecordAccepts(r: Record, me: nat, macs: set<Secret>, m: Message, next: nat, key: PublicKey, evil: set<nat>,
                      bound: nat)
    returns (i: nat, drawn: nat)
    requires IntactRecord(r, me, macs) && m.counter < TWO32 - 1 && DecryptedFromRecord(r, m, next).result.Ok?
    requires AllGuarded(r.States(), key, evil, bound)
    ensures i < |r.States()| && Intact(r.States()[i], me, macs) && Decrypted(r.States()[i], m, drawn).Ok?
    ensures var t := DecryptedFromRecord(r, m, next);
            && t.result == Ok(Decrypted(r.States()[i], m, drawn).value.1)
            && SameSession(r.States()[i], t.record.state)
            && AllGuarded(t.record.States(), key, evil, bound)
  {
    hide Decrypted, DecryptedFromRecord, Intact, Guarded, SameSession, SendsOnOrigin;
    var r' := DecryptedFromRecord(r, m, next).record;
    i, drawn := AcceptedByOneState(r, m, next);
    assert Intact(r.States()[i], me, macs);
    AcceptKeepsState(r.States()[i], me, macs, m, drawn);
    assert SendsOnOrigin(r.States()[i]) && r.States()[i].rootKey.Some? by {
      GuardedSends(r.States()[i], key, evil, bound);
      IntactIsEquipped(r.States()[i], me, macs);
    }
    StillSendsOnOrigin(r.States()[i], m, drawn);
    GuardedStays(r.States()[i], r'.state, key, evil, bound);
    forall j | 0 <= j < |r'.States()|
      ensures Guarded(r'.States()[j], key, evil, bound)
    {
      if j > 0 {
        var q := if j - 1 < i then j - 1 else j;
        assert r'.States()[j] == r.States()[q];
      }
    }
  }

  lemma ClearedStaysGuarded(r: Record, s: State, key: PublicKey, evil: set<nat>, bound: nat)
    requires r.isFresh ==> r.previous == []
    requires !r.isFresh ==> AllGuarded(r.States(), key, evil, bound)
    requires Guarded(s, key, evil, bound)
    ensures AllGuarded(Cleared(r).(state := s).States(), key, evil, bound)
  {
    hide Guarded;
    var states' := Cleared(r).(state := s).States();
    forall j | 0 < j < |states'|
      ensures Guarded(states'[j], key, evil, bound)
    {
      assert states'[j] == r.States()[j - 1];
    }
  }

  lemma LoadedIsGuarded(d: Device, evil: set<nat>, a: Address)
    requires GoodDevice(d, evil) && a in d.sessions
    ensures AllGuarded(Load(d, a).States(), d.identity.pub, evil, d.next)
  {
    hide Guarded;
    assert Load(d, a).States() == d.sessions[a].States();
  }

  /** The responder's agreement is between the claimed identity and its own signed pre key. */
  lemma AnsweringIsGuarded(d: Device, evil: set<nat>, s: State, p: PreKeyMessage, signed: KeyPair,
                           oneTime: Option<KeyPair>)
    requires IsPair(signed) && Honest(evil, d.next, signed.pub.id) && p.identityKey.id < d.next
    ensures Guarded(AnsweringState(d, s, p, signed, oneTime), d.identity.pub, evil, d.next)
  {
  }

  /** The initiator's agreement is between its own identity and the signed pre key, which the claimed identity
      signed. */
  lemma OpeningIsGuarded(d: Device, evil: set<nat>, s: State, b: Bundle)
    requires IsPair(d.identity) && Honest(evil, d.next, d.identity.pub.id) && b.identityKey.id < d.next
    requires b.signedPreKey.Some? && (b.identityKey.id !in evil ==> Honest(evil, d.next, b.signedPreKey.value.id))
    ensures Guarded(OpeningState(d, s, b), d.identity.pub, evil, d.next)
  {
    var s' := OpeningState(d, s, b);
    var signed := b.signedPreKey.value;
    var p := AliceParameters(d.identity, PairOf(d.next), b.identityKey, signed, b.preKey, signed);
    assert Origin(Text(3, AliceSecret(p), First)) == AliceSecret(p);
    assert OriginOf(s') == AliceSecret(p);
  }

  lemma AnsweredIsGuarded(d: Device, evil: set<nat>, a: Address, p: PreKeyMessage, loads: LoadFaults)
    requires GoodDevice(d, evil) && p.identityKey.id < d.next && Answered(d, Load(d, a), p, loads).Ok?
    ensures AllGuarded(Answered(d, Load(d, a), p, loads).value.0.States(), d.identity.pub, evil, d.next)
  {
    hide Guarded, AnsweringState, Honest;
    var r := Load(d, a);
    if a in d.sessions {
      LoadedIsGuarded(d, evil, a);
    }
    if !HasSession(r, p.version, p.baseKey) {
      var (oneTime, signed) :=
        (if p.preKeyId.Some? then Some(d.preKeys[p.preKeyId.value]) else None, d.signedPreKeys[p.signedPreKeyId]);
      AnsweringIsGuarded(d, evil, Cleared(r).state, p, signed, oneTime);
      ClearedStaysGuarded(r, AnsweringState(d, Cleared(r).state, p, signed, oneTime), d.identity.pub, evil, d.next);
    }
  }

  // ---- One step of a device ----

  /** The text a step hands to the application. */
  function AcceptedText(d: Device, e: Event): Option<Text> {
    match e
    case Receive(a, m, f) =>
      (match SignalMessageDecrypted(d, a, m, f).result
       case Ok(text) => Some(text)
       case Err(_) => None)
    case ReceivePreKey(a, p, f) =>
      (match PreKeyMessageDecrypted(d, a, p, f.(preKeyRemove := false)).result
       case Ok(text) => Some(text)
       case Err(_) => None)
    case _ => None
  }

  lemma AcceptedTextIsRead(d: Device, e: Event)
    requires (e.Receive? || e.ReceivePreKey?) && AcceptedKey(d, e).Some?
    ensures ReadWith(d, e).Some? && AcceptedText(d, e).Some?
    ensures var (r, m) := ReadWith(d, e).value; DecryptedFromRecord(r, m, d.next).result == Ok(AcceptedText(d, e).value)
  {
    hide DecryptedFromRecord, Answered;
  }

  /** The record a receiving step reads with is intact and guarded. */
  lemma ReadIsGuarded(d: Device, heard: Heard, evil: set<nat>, e: Event)
    requires Safe(d, heard) && GoodDevice(d, evil) && Allowed(d, e) && ReadWith(d, e).Some?
    requires e.Receive? || (e.ReceivePreKey? && e.p.identityKey.id < d.next)
    ensures var (r, m) := ReadWith(d, e).value;
            && IntactRecord(r, Me(d), Remembered(HeardAt(heard, e.a), r.States()))
            && AllGuarded(r.States(), d.identity.pub, evil, d.next) && m.counter < TWO32 - 1
  {
    hide IntactRecord, Remembered, SafeAt, Answered, AllGuarded, GoodDevice;
    if e.Receive? {
      LoadedIsIntact(d, heard, e.a);
      LoadedIsGuarded(d, evil, e.a);
    } else {
      AnsweredIsIntact(d, heard, e.a, e.p, e.f.loads);
      AnsweredIsGuarded(d, evil, e.a, e.p, e.f.loads);
    }
  }

  /** The records of all other addresses, and all keys but new ones, are as before. */
  lemma GoodAfterStep(d: Device, d': Device, evil: set<nat>, a: Address)
    requires GoodDevice(d, evil) && OnlyAt(d, d', a) && d'.signedPreKeys == d.signedPreKeys
    requires AllGuarded(StatesAt(d', a), d.identity.pub, evil, d'.next)
    ensures GoodDevice(d', evil)
  {
    hide AllGuarded;
    forall b | b in d'.sessions
      ensures AllGuarded(d'.sessions[b].States(), d'.identity.pub, evil, d'.next)
    {
      if b != a {
        GuardedLater(d.sessions[b].States(), d.identity.pub, evil, d.next, d'.next);
      }
    }
  }

  lemma SignedPreKeysKept(d: Device, e: Event)
    requires !e.AddSignedPreKey?
    ensures Step(d, e).signedPreKeys == d.signedPreKeys
  {
    hide DecryptedFromRecord, Answered, Encrypted, OpeningState, Load, Trusts, Cleared;
  }

  lemma ReceiveKeepsGood(d: Device, heard: Heard, evil: set<nat>, e: Event)
    requires Safe(d, heard) && GoodDevice(d, evil) && Allowed(d, e)
    requires e.Receive? || (e.ReceivePreKey? && e.p.identityKey.id < d.next)
    ensures GoodDevice(Step(d, e), evil)
  {
    ReceiveStores(d, e);
    SignedPreKeysKept(d, e);
    if AcceptedKey(d, e).Some? {
      ReadIsGuarded(d, heard, evil, e);
    }
    hide Step, AcceptedKey, IntactRecord, AllGuarded, DecryptedFromRecord, Remembered, SafeAt, GoodDevice, Answered;
    hide Allowed, ReadWith;
    var d' := Step(d, e);
    if AcceptedKey(d, e).None? {
      NothingStored(d, d', evil, e.a);
    } else {
      var (r, m) := ReadWith(d, e).value;
      var macs := Remembered(HeardAt(heard, e.a), r.States());
      var i, drawn := RecordAccepts(r, Me(d), macs, m, d.next, d.identity.pub, evil, d.next);
      assert StatesAt(d', e.a) == DecryptedFromRecord(r, m, d.next).record.States();
      GuardedLater(StatesAt(d', e.a), d.identity.pub, evil, d.next, d'.next);
      GoodAfterStep(d, d', evil, e.a);
    }
  }

  lemma NothingStored(d: Device, d': Device, evil: set<nat>, a: Address)
    requires GoodDevice(d, evil) && OnlyAt(d, d', a) && d'.signedPreKeys == d.signedPreKeys && d'.sessions == d.sessions
    ensures GoodDevice(d', evil)
  {
    hide Guarded;
    GuardedLater(StatesAt(d, a), d.identity.pub, evil, d.next, d'.next);
    GoodAfterStep(d, d', evil, a);
  }

  lemma EncryptedIsGuarded(s: State, text: Text, me: PublicKey, evil: set<nat>, next: nat)
    requires Guarded(s, me, evil, next) && Encrypted(s, text).Ok?
    ensures Guarded(Encrypted(s, text).value.0, me, evil, next)
  {
    hide Hidden;
  }

  lemma EncryptKeepsGood(d: Device, evil: set<nat>, e: Event)
    requires GoodDevice(d, evil) && e.Encrypt?
    ensures GoodDevice(Step(d, e), evil)
  {
    EncryptStores(d, e);
    hide Step, Honest, Guarded, Encrypted;
    var (d', r) := (Step(d, e), Load(d, e.a));
    if d'.sessions == d.sessions {
      NothingStored(d, d', evil, e.a);
    } else {
      LoadedIsGuarded(d, evil, e.a);
      assert Guarded(r.States()[0], d.identity.pub, evil, d.next);
      EncryptedIsGuarded(r.state, e.text, d.identity.pub, evil, d.next);
      forall j | 0 < j < |StatesAt(d', e.a)|
        ensures Guarded(StatesAt(d', e.a)[j], d.identity.pub, evil, d.next)
      {
        assert StatesAt(d', e.a)[j] == r.States()[j];
      }
      GoodAfterStep(d, d', evil, e.a);
    }
  }

  lemma BundleKeepsGood(d: Device, heard: Heard, evil: set<nat>, e: Event)
    requires Safe(d, heard) && GoodDevice(d, evil) && e.ProcessBundle? && Allowed(d, e)
    requires e.b.signature.signer.id in evil || Honest(evil, d.next, e.b.signature.signed.id)
    ensures GoodDevice(Step(d, e), evil)
  {
    var d' := Step(d, e);
    SignedPreKeysKept(d, e);
    if d'.sessions == d.sessions {
      BundleOnlyAt(d, e);
      hide Step, AllGuarded, GoodDevice;
      NothingStored(d, d', evil, e.a);
    } else {
      BundleStores(d, e);
      BundleOnlyAt(d, e);
      assert e.b.identityKey.id < d.next;
      hide Step, AllGuarded, OpeningState, BundleProcessed, Guarded, SafeAt;
      var r := Load(d, e.a);
      if e.a in d.sessions {
        LoadedIsGuarded(d, evil, e.a);
      }
      OpeningIsGuarded(d, evil, Cleared(r).state, e.b);
      ClearedStaysGuarded(r, OpeningState(d, Cleared(r).state, e.b), d.identity.pub, evil, d.next);
      assert StatesAt(d', e.a) == Cleared(r).(state := OpeningState(d, Cleared(r).state, e.b)).States();
      GuardedLater(StatesAt(d', e.a), d.identity.pub, evil, d.next, d'.next);
      GoodAfterStep(d, d', evil, e.a);
    }
  }

  /** The part of `Possible` that concerns the sessions of a device. */
  predicate Fits(d: Device, evil: set<nat>, e: Event) {
    match e
    case ReceivePreKey(_, p, _) => p.identityKey.id < d.next
    case ProcessBundle(_, b, _) => b.signature.signer.id in evil || Honest(evil, d.next, b.signature.signed.id)
    case _ => true
  }

  lemma StepKeepsGood(d: Device, heard: Heard, evil: set<nat>, e: Event)
    requires Safe(d, heard) && GoodDevice(d, evil) && Allowed(d, e) && Fits(d, evil, e)
    requires forall id :: id in evil ==> id < d.next
    ensures GoodDevice(Step(d, e), evil) && Step(d, e).identity == d.identity && Step(d, e).next >= d.next
  {
    hide SafeAt, MessageEncrypted, SignalMessageDecrypted, PreKeyMessageDecrypted, BundleProcessed, AllGuarded;
    StepKeepsSafe(d, heard, e);
    IdentityKept(d, e);
    match e {
      case Encrypt(_, _, _) => EncryptKeepsGood(d, evil, e);
      case Receive(_, _, _) => ReceiveKeepsGood(d, heard, evil, e);
      case ReceivePreKey(_, _, _) => ReceiveKeepsGood(d, heard, evil, e);
      case ProcessBundle(_, _, _) => BundleKeepsGood(d, heard, evil, e);
      case _ =>
        forall a | a in Step(d, e).sessions
          ensures AllGuarded(Step(d, e).sessions[a].States(), d.identity.pub, evil, Step(d, e).next)
        {
          GuardedLater(d.sessions[a].States(), d.identity.pub, evil, d.next, Step(d, e).next);
        }
    }
  }

  lemma IdentityKept(d: Device, e: Event)
    ensures Step(d, e).identity == d.identity && Step(d, e).next >= d.next
  {
    hide MessageEncrypted, SignalMessageDecrypted, PreKeyMessageDecrypted, BundleProcessed, AcceptedKey;
    match e {
      case Encrypt(_, _, _) => EncryptStores(d, e);
      case Receive(_, _, _) => ReceiveStores(d, e);
      case ReceivePreKey(_, _, _) => ReceiveStores(d, e);
      case ProcessBundle(_, _, _) => BundleOnlyAt(d, e);
      case _ =>
    }
  }

  // ---- One step of the network ----

  lemma SafeLater(d: Device, heard: Heard, next: nat)
    requires Safe(d, heard) && d.next <= next
    ensures Safe(d.(next := next), heard)
  {
    hide IntactRecord;
    forall a
      ensures SafeAt(d.(next := next), heard, a)
    {
      assert SafeAt(d, heard, a);
    }
  }

  lemma GoodLater(d: Device, evil: set<nat>, next: nat)
    requires GoodDevice(d, evil) && d.next <= next
    ensures GoodDevice(d.(next := next), evil)
  {
    hide AllGuarded;
    forall a | a in d.sessions
      ensures AllGuarded(d.sessions[a].States(), d.identity.pub, evil, next)
    {
      GuardedLater(d.sessions[a].States(), d.identity.pub, evil, d.next, next);
    }
  }

  /** A new key of the attacker concerns nothing older than it. */
  lemma GoodWithNewKey(d: Device, evil: set<nat>, id: nat)
    requires GoodDevice(d, evil) && d.next <= id
    ensures GoodDevice(d, evil + {id})
  {
    hide OriginOf;
    forall a | a in d.sessions
      ensures AllGuarded(d.sessions[a].States(), d.identity.pub, evil + {id}, d.next)
    {
      assert AllGuarded(d.sessions[a].States(), d.identity.pub, evil, d.next);
    }
  }

  /** A device at the beginning of a step. */
  lemma ReadyAt(w: Net, name: Name, e: Event)
    requires GoodNet(w) && name in w.nodes && Possible(w, e)
    ensures var d := DeviceAt(w, name);
            Safe(d, w.nodes[name].heard) && GoodDevice(d, w.evil) && Fits(d, w.evil, e)
  {
    hide Safe, GoodDevice, GoodEmission, Deliverable;
    assert GoodNode(w, name);
    SafeLater(w.nodes[name].device, w.nodes[name].heard, w.next);
    GoodLater(w.nodes[name].device, w.evil, w.next);
  }

  /** The message a step emits is sealed by the device's identity for the session's remote identity. */
  lemma EmittedIsSealed(name: Name, d: Device, evil: set<nat>, heard: Heard, e: Event)
    requires Safe(d, heard) && GoodDevice(d, evil)
    ensures forall x :: x in EmissionOf(name, d, e) ==>
              && x.sender == name && x.receiver.id < d.next
              && (x.receiver.id !in evil ==> Hidden(Origin(x.chainKey.key), evil, d.next))
              && x.message == Seal(CURRENT_VERSION, MessageKeysOf(x.chainKey), x.message.ratchetKey, x.chainKey.index,
                                   x.message.previousCounter, x.text, d.identity.pub, x.receiver)
  {
    if Emitted(d, e).Some? {
      hide Seal, MessageKeysOf, IntactRecord, BasesBelow, Honest;
      assert SafeAt(d, heard, e.a);
      NothingToSend(e.text);
      CurrentIsEquipped(d.sessions[e.a], Me(d), HeardAt(heard, e.a));
      assert Guarded(d.sessions[e.a].States()[0], d.identity.pub, evil, d.next);
    }
  }

  /** What was sent before stays good, and what the step sends is good. */
  lemma EmissionsStayGood(w: Net, name: Name, e: Event)
    requires GoodNet(w) && name in w.nodes && Possible(w, e) && Allowed(DeviceAt(w, name), e)
    ensures var w' := NetStep(w, At(name, e)); forall i :: 0 <= i < |w'.sent| ==> GoodEmission(w', w'.sent[i])
  {
    var (d, w') := (DeviceAt(w, name), NetStep(w, At(name, e)));
    assert d.identity == w.nodes[name].device.identity;
    hide Safe, GoodDevice, Step, Allowed, Possible, HeardAfter, Seal, Fits, GoodNode, Hidden, EmissionOf;
    ReadyAt(w, name, e);
    IdentityKept(d, e);
    EmittedIsSealed(name, d, w.evil, w.nodes[name].heard, e);
    forall i | 0 <= i < |w'.sent|
      ensures GoodEmission(w', w'.sent[i])
    {
      if i < |w.sent| {
        assert GoodEmission(w, w.sent[i]);
        HiddenLater(Origin(w.sent[i].chainKey.key), w.evil, w.next, w'.next);
      } else {
        assert w'.sent[i] in EmissionOf(name, d, e);
        HiddenLater(Origin(w'.sent[i].chainKey.key), w.evil, w.next, w'.next);
      }
    }
  }

  lemma HiddenLater(o: seq<Block>, evil: set<nat>, next: nat, next': nat)
    requires next <= next'
    ensures Hidden(o, evil, next) ==> Hidden(o, evil, next')
  {
  }

  lemma DeviceStepKeepsNet(w: Net, name: Name, e: Event)
    requires GoodNet(w) && name in w.nodes && Possible(w, e) && Allowed(DeviceAt(w, name), e)
    ensures GoodNet(NetStep(w, At(name, e)))
  {
    var (d, heard, w') := (DeviceAt(w, name), w.nodes[name].heard, NetStep(w, At(name, e)));
    EmissionsStayGood(w, name, e);
    hide Safe, GoodDevice, Step, Allowed, Possible, HeardAfter, GoodEmission, EmissionOf;
    ReadyAt(w, name, e);
    StepKeepsSafe(d, heard, e);
    StepKeepsGood(d, heard, w.evil, e);
    if e.AddSignedPreKey? {
      NewlySigned(d, w.evil, e);
    }
    assert GoodNode(w', name);
    forall other | other in w'.nodes && other != name
      ensures GoodNode(w', other)
    {
      assert GoodNode(w, other);
    }
  }

  lemma NewlySigned(d: Device, evil: set<nat>, e: Event)
    requires e.AddSignedPreKey? && forall id :: id in evil ==> id < d.next
    ensures Honest(evil, Step(d, e).next, d.next)
  {
  }

  lemma JoinKeepsNet(w: Net, name: Name, registrationId: uint32)
    requires GoodNet(w) && name !in w.nodes
    ensures GoodNet(NetStep(w, Join(name, registrationId)))
  {
    hide Seal;
    var w' := NetStep(w, Join(name, registrationId));
    assert Installed(w'.nodes[name].device);
    StartIsSafe(w'.nodes[name].device);
    hide Safe;
    forall other | other in w'.nodes
      ensures GoodNode(w', other)
    {
      if other != name {
        assert GoodNode(w, other);
      }
    }
    forall i | 0 <= i < |w'.sent|
      ensures GoodEmission(w', w'.sent[i])
    {
      assert GoodEmission(w, w.sent[i]);
    }
  }

  lemma AttackerKeyKeepsNet(w: Net)
    requires GoodNet(w)
    ensures GoodNet(NetStep(w, AttackerKey))
  {
    hide Seal, Safe, GoodDevice;
    var w' := NetStep(w, AttackerKey);
    forall name | name in w'.nodes
      ensures GoodNode(w', name)
    {
      assert GoodNode(w, name);
      GoodWithNewKey(w.nodes[name].device, w.evil, w.next);
    }
    forall i | 0 <= i < |w'.sent|
      ensures GoodEmission(w', w'.sent[i])
    {
      assert GoodEmission(w, w.sent[i]);
    }
  }

  lemma {:induction false} RunKeepsNet(events: seq<NetEvent>)
    requires AllowedNetRun(events)
    ensures GoodNet(NetRun(events))
  {
    hide GoodNode, GoodEmission, Possible, Allowed, Step, HeardAfter, EmissionOf;
    if events != [] {
      var (before, last) := (events[..|events| - 1], events[|events| - 1]);
      NetPrefixIsAllowed(events, |events| - 1);
      RunKeepsNet(before);
      var w := NetRun(before);
      match last {
        case Join(name, registrationId) =>
          if name !in w.nodes {
            JoinKeepsNet(w, name, registrationId);
          }
        case AttackerKey => AttackerKeyKeepsNet(w);
        case At(name, e) =>
          if name in w.nodes {
            DeviceStepKeepsNet(w, name, e);
          }
      }
    }
  }

  lemma NetPrefixIsAllowed(events: seq<NetEvent>, n: nat)
    requires AllowedNetRun(events) && n <= |events|
    ensures AllowedNetRun(events[..n])
  {
    hide NetAllowed, NetRun;
    forall i | 0 <= i < n
      ensures NetAllowed(NetRun(events[..n][..i]), events[..n][i])
    {
      assert events[..n][..i] == events[..i];
    }
  }

  // ---- Every run ----

  /** One accepting step in a good network. */
  lemma AcceptedInNet(w: Net, name: Name, e: Event) returns (i: nat)
    requires GoodNet(w) && name in w.nodes && Possible(w, e) && Allowed(DeviceAt(w, name), e)
    requires AcceptedKey(DeviceAt(w, name), e).Some?
    ensures ReadWith(DeviceAt(w, name), e).Some? && AcceptedText(DeviceAt(w, name), e).Some?
    ensures var d := DeviceAt(w, name);
            var (r, m) := ReadWith(d, e).value;
            && i < |r.States()| && Equipped(r.States()[i])
            && e.a in Step(d, e).sessions && SameSession(r.States()[i], Step(d, e).sessions[e.a].state)
            && m.mac.key !in HeardAt(w.nodes[name].heard, e.a)
            && (r.States()[i].remoteIdentity.value.id !in w.evil ==>
                  SentAsAccepted(w, r.States()[i], m, AcceptedText(d, e).value))
  {
    var (d, heard) := (DeviceAt(w, name), w.nodes[name].heard);
    assert d.identity == w.nodes[name].device.identity && d.next == w.next;
    ReadyAt(w, name, e);
    AcceptedTextIsRead(d, e);
    ReceiveStores(d, e);
    StepKeepsSafe(d, heard, e);
    var (r, m) := ReadWith(d, e).value;
    assert Deliverable(w, m);
    ReadIsGuarded(d, heard, w.evil, e);
    hide Safe, GoodDevice, Step, AcceptedKey, AcceptedText, ReadWith, IntactRecord, GoodNet, Remembered, HeardAfter;
    hide Deliverable, Allowed, Possible, SentAsAccepted, DecryptedFromRecord, Decrypted, SameSession, Guarded, Intact;
    var macs := Remembered(HeardAt(heard, e.a), r.States());
    var drawn;
    i, drawn := RecordAccepts(r, Me(d), macs, m, d.next, d.identity.pub, w.evil, d.next);
    var s := r.States()[i];
    IntactIsEquipped(s, Me(d), macs);
    GuardedIsHidden(s, d.identity.pub, w.evil, d.next);
    if s.remoteIdentity.value.id !in w.evil {
      HonestSessionAcceptsOnlySent(w, s, Me(d), macs, m, drawn);
    }
  }

  lemma GuardedIsHidden(s: State, me: PublicKey, evil: set<nat>, next: nat)
    requires Guarded(s, me, evil, next) && s.remoteIdentity.Some?
    ensures s.remoteIdentity.value.id !in evil ==> Hidden(OriginOf(s), evil, next)
  {
  }

  lemma IntactIsEquipped(s: State, me: nat, macs: set<Secret>)
    requires Intact(s, me, macs)
    ensures Equipped(s)
  {
  }

  /** Authenticity, over every run of any number of devices with the attacker delivering whatever it can make, both
      sides opening sessions at once, archived states and failing callbacks: whenever a device accepts a message in a
      session with an identity that is not the attacker's, a device with that identity sent exactly this message to
      this device's identity, with exactly the text it is decrypted to and under exactly the keys it is opened with.
      And no session still in the record has accepted it before. */
  lemma AcceptedTextsWereSent(events: seq<NetEvent>, j: nat) returns (i: nat)
    requires AllowedNetRun(events) && j < |events| && events[j].At? && events[j].name in NetRun(events[..j]).nodes
    requires AcceptedKey(DeviceAt(NetRun(events[..j]), events[j].name), events[j].event).Some?
    ensures var (w, e) := (NetRun(events[..j]), events[j].event);
            var d := DeviceAt(w, events[j].name);
            && ReadWith(d, e).Some? && AcceptedText(d, e).Some?
            && var (r, m) := ReadWith(d, e).value;
               && i < |r.States()| && Equipped(r.States()[i])
               && e.a in Step(d, e).sessions && SameSession(r.States()[i], Step(d, e).sessions[e.a].state)
               && m.mac.key !in HeardAt(w.nodes[events[j].name].heard, e.a)
               && (r.States()[i].remoteIdentity.value.id !in w.evil ==>
                     SentAsAccepted(w, r.States()[i], m, AcceptedText(d, e).value))
  {
    var w := NetRun(events[..j]);
    assert NetAllowed(w, events[j]);
    NetPrefixIsAllowed(events, j);
    RunKeepsNet(events[..j]);
    i := AcceptedInNet(w, events[j].name, events[j].event);
  }

  /** Secrecy, over the same runs: the attacker never comes to know a key of a message sent to an identity that is not
      its own, whatever keys it generates later. */
  lemma SentMessagesStaySecret(events: seq<NetEvent>, k: nat)
    requires AllowedNetRun(events) && k < |NetRun(events).sent|
    ensures var (w, e) := (NetRun(events), NetRun(events).sent[k]);
            e.receiver.id !in w.evil ==>
              var keys := MessageKeysOf(e.chainKey);
              !Knows(w.evil, keys.cipherKey) && !Knows(w.evil, keys.iv) && !Knows(w.evil, keys.macKey)
  {
    hide Hidden, GoodNode, AllowedNetRun, NetRun;
    RunKeepsNet(events);
    var (w, e) := (NetRun(events), NetRun(events).sent[k]);
    assert GoodEmission(w, e);
    if e.receiver.id !in w.evil {
      HiddenIsUnknown(w.evil, w.next, Origin(e.chainKey.key), e.chainKey.key);
    }
  }
}
