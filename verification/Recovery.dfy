/**
 Recovery: what someone who was given everything a device held at one point of a run learns
 about later messages. A message under a ratchet key generated after that point follows only
 by root steps from a session's root key, every one of them with a private key; one agreement
 between unknown keys is enough to keep it and everything after it secret.
 */
module Recovery {
  import opened Common
  import opened Crypto
  import opened Ratchet
  import opened Messages
  import opened SessionStates
  import opened X3dh
  import opened SessionCiphers
  import opened ReceiverChains
  import opened SessionRecords
  import opened Replay
  import opened Devices
  import opened RecordHistory
  import opened DeviceRuns
  import opened AtMostOnce
  import opened Network
  import TwoAddresses
  import OneTimeKeys
  import opened ForwardSecrecy

  // ---- The age of a secret ----

  predicate Below(shared: Shared, next: nat) {
    shared.low < next && shared.high < next
  }

  /** Every key pair that went into the secret was generated before `next`. */
  predicate Old(x: Secret, next: nat) {
    match x
    case Random(id) => id < next
    case Text(_, input, _) => forall i :: 0 <= i < |input| && input[i].Agreed? ==> Below(input[i].shared, next)
    case Ratcheted(_, root, shared, _) => Old(root, next) && Below(shared, next)
    case Hmac(key, _) => Old(key, next)
    case MessagePart(_, seed, _) => Old(seed, next)
    case GroupPart(seed, _) => Old(seed, next)
  }

  /** The key pair `id` went into the secret. */
  ghost predicate Carries(x: Secret, id: nat) {
    forall next :: Old(x, next) ==> id < next
  }

  lemma {:induction false} OldLater(x: Secret, next: nat, next': nat)
    requires Old(x, next) && next <= next'
    ensures Old(x, next')
  {
    match x
    case Ratcheted(_, root, _, _) => OldLater(root, next, next');
    case Hmac(key, _) => OldLater(key, next, next');
    case MessagePart(_, seed, _) => OldLater(seed, next, next');
    case GroupPart(seed, _) => OldLater(seed, next, next');
    case _ =>
  }

  lemma AgreementCarries(root: Secret, their: PublicKey, our: PrivateKey, half: Half)
    ensures var x := Ratcheted(KDF, root, Agreement(their, our), half);
            && Carries(x, their.id) && Carries(x, our.id)
            && forall next :: Old(root, next) && their.id < next && our.id < next ==> Old(x, next)
  {
  }

  // ---- Sessions ----

  /** The chain's ratchet key went into its base, and everything in it is old. */
  ghost predicate DatedChain(c: ReceiverChain, next: nat) {
    Old(BaseOf(c), next) && Carries(BaseOf(c), c.ratchetKey.id)
  }

  ghost predicate Dated(s: State, next: nat) {
    && Equipped(s) && Old(s.rootKey.value.key, next)
    && IsPair(s.senderChain.value.ratchetKeyPair.value)
    && Carries(SendingBase(s), s.senderChain.value.ratchetKeyPair.value.pub.id)
    && forall i :: 0 <= i < |s.receiverChains| ==> DatedChain(s.receiverChains[i], next)
  }

  lemma DatedLater(s: State, next: nat, next': nat)
    requires Dated(s, next) && next <= next'
    ensures Dated(s, next')
  {
    hide Old, Carries, BaseOf, SendingBase;
    OldLater(s.rootKey.value.key, next, next');
    forall i | 0 <= i < |s.receiverChains|
      ensures DatedChain(s.receiverChains[i], next')
    {
      assert DatedChain(s.receiverChains[i], next);
      OldLater(BaseOf(s.receiverChains[i]), next, next');
    }
  }

  lemma OldSendingBase(s: State, next: nat)
    requires Sound(s) && Dated(s, next)
    ensures Old(SendingBase(s), next) && s.senderChain.value.ratchetKeyPair.value.priv.id < next
  {
    hide SoundChains, DatedChain, Unstep;
    assert Old(ChainBaseOf(s.rootKey.value.key), next);
  }

  /** What a session hands on is old. */
  lemma HandedOnIsOld(s: State, next: nat, x: KeyName)
    requires Sound(s) && Dated(s, next) && HandsOn(s, x)
    ensures Old(x.base, next)
  {
    hide Old, Carries, LiesOn, BaseOf, IsRoot;
    OldSendingBase(s, next);
    if x.base != SendingBase(s) {
      var i :| 0 <= i < |s.receiverChains| && !UsedUp(s.receiverChains[i], x);
      assert DatedChain(s.receiverChains[i], next);
    }
  }

  lemma SendingKeepsDated(s: State, text: Text, next: nat)
    requires Dated(s, next) && Encrypted(s, text).Ok?
    ensures Dated(Encrypted(s, text).value.0, next)
  {
    hide Old, DatedChain;
  }

  lemma AcceptKeepsDatedHeld(s: State, m: Message, next: nat)
    requires Sound(s) && Dated(s, next) && m.counter < TWO32 - 1 && Decrypted(s, m, next).Ok?
    requires FindChain(s.receiverChains, m.ratchetKey).Some?
    ensures Dated(Decrypted(s, m, next).value.0, next) && Carries(KeyFor(s, m).base, m.ratchetKey.id)
  {
    hide TakeKeys, SoundChain, UsedUp, BaseOf, Old, Carries, Unstep, IsRoot;
    var i := FindChain(s.receiverChains, m.ratchetKey).value;
    assert DatedChain(s.receiverChains[i], next);
    TakeUsesUp(s.receiverChains[i], s.rootKey.value.key, m.counter);
  }

  lemma DecryptedIsKeyed(s: State, m: Message, next: nat)
    requires Decrypted(s, m, next).Ok?
    ensures Keyed(s, m.ratchetKey, m.counter, next).Ok?
    ensures Decrypted(s, m, next).value.0 == Keyed(s, m.ratchetKey, m.counter, next).value.0.(pendingPreKey := None)
  {
    hide Keyed, MacVerifies, DecryptBody;
  }

  lemma AcceptKeepsDatedNew(s: State, m: Message, next: nat)
    requires Sound(s) && Dated(s, next) && m.counter < TWO32 - 1 && m.ratchetKey.id < next && Decrypted(s, m, next).Ok?
    requires FindChain(s.receiverChains, m.ratchetKey).None?
    ensures Dated(Decrypted(s, m, next).value.0, next + 1) && Carries(KeyFor(s, m).base, m.ratchetKey.id)
  {
    var (s', their) := (Decrypted(s, m, next).value.0, m.ratchetKey);
    OldSendingBase(s, next);
    DecryptedIsKeyed(s, m, next);
    hide Dated, Sound, Keyed, Decrypted, LiesOn, Carries, BaseOf, OpenChain;
    KeyedOnNewChain(s, their, m.counter, next);
    var c := StateOnNewChain(s, their, m.counter, next);
    BaseOfLiesOn(c, NewBase(s, their));
    DatedOnNewChain(s, s', their, next, c);
  }

  lemma DatedOnNewChain(s: State, s': State, their: PublicKey, next: nat, c: ReceiverChain)
    requires Equipped(s) && Dated(s, next) && s.senderChain.value.ratchetKeyPair.value.priv.id < next && their.id < next
    requires var root := CreateChain(s.rootKey.value, their, s.senderChain.value.ratchetKeyPair.value.priv).0;
             var (root', chain') := CreateChain(root, their, PrivateKey(next));
             s' == s.(rootKey := Some(root'), previousCounter := s'.previousCounter, pendingPreKey := None,
                      senderChain := Some(SenderChain(Some(PairOf(next)), Some(chain'))),
                      receiverChains := LastN(s.receiverChains + [c], MAX_RECEIVER_CHAINS))
    requires c.ratchetKey == their && BaseOf(c) == NewBase(s, their)
    ensures Dated(s', next + 1) && Carries(NewBase(s, their), their.id)
  {
    hide Old, Carries, BaseOf, DatedChain, Unstep;
    NewDated(s.rootKey.value.key, their, s.senderChain.value.ratchetKeyPair.value.priv, next, c);
    forall i | 0 <= i < |s'.receiverChains| - 1
      ensures DatedChain(s'.receiverChains[i], next + 1)
    {
      var q := |s.receiverChains| + 1 - |s'.receiverChains| + i;
      assert s'.receiverChains[i] == s.receiverChains[q];
      ChainDatedLater(s.receiverChains[q], next);
    }
    NoSteps(s'.senderChain.value.chainKey.value.key);
  }

  lemma NoSteps(x: Secret)
    requires x.Ratcheted? || x.Text?
    ensures Unstep(x).0 == x
  {
  }

  lemma ChainDatedLater(c: ReceiverChain, next: nat)
    requires DatedChain(c, next)
    ensures DatedChain(c, next + 1)
  {
    hide BaseOf;
    OldLater(BaseOf(c), next, next + 1);
  }

  /** The two root steps of a new chain. */
  lemma NewDated(root: Secret, their: PublicKey, ours: PrivateKey, next: nat, c: ReceiverChain)
    requires Old(root, next) && their.id < next && ours.id < next && c.ratchetKey == their
    requires BaseOf(c) == Ratcheted(KDF, root, Agreement(their, ours), Second)
    ensures DatedChain(c, next + 1) && Carries(BaseOf(c), their.id)
    ensures var root' := Ratcheted(KDF, root, Agreement(their, ours), First);
            && Old(Ratcheted(KDF, root', Agreement(their, PrivateKey(next)), First), next + 1)
            && Carries(Ratcheted(KDF, root', Agreement(their, PrivateKey(next)), Second), next)
  {
    hide Old, Carries, BaseOf;
    OldLater(root, next, next + 1);
    AgreementCarries(root, their, ours, Second);
    AgreementCarries(root, their, ours, First);
    var root' := Ratcheted(KDF, root, Agreement(their, ours), First);
    AgreementCarries(root', their, PrivateKey(next), First);
    AgreementCarries(root', their, PrivateKey(next), Second);
  }

  lemma DrawsOne(s: State, m: Message, next: nat)
    requires Equipped(s) && Decrypted(s, m, next).Ok?
    ensures FindChain(s.receiverChains, m.ratchetKey).None? ==> DrawnByDecrypt(s, m) == 1
  {
    hide Keyed, MacVerifies, DecryptBody;
  }

  lemma AcceptKeepsDated(s: State, m: Message, next: nat)
    requires Sound(s) && Dated(s, next) && m.counter < TWO32 - 1 && m.ratchetKey.id < next && Decrypted(s, m, next).Ok?
    ensures Dated(Decrypted(s, m, next).value.0, next + DrawnByDecrypt(s, m))
    ensures Carries(KeyFor(s, m).base, m.ratchetKey.id)
  {
    hide *;
    SoundIsEquipped(s);
    DrawsOne(s, m, next);
    if FindChain(s.receiverChains, m.ratchetKey).Some? {
      AcceptKeepsDatedHeld(s, m, next);
      DatedLater(Decrypted(s, m, next).value.0, next, next + DrawnByDecrypt(s, m));
    } else {
      AcceptKeepsDatedNew(s, m, next);
    }
  }

  // ---- New sessions ----

  lemma AnsweringIsDated(d: Device, s: State, p: PreKeyMessage, signed: KeyPair, oneTime: Option<KeyPair>)
    requires s.receiverChains == [] && IsPair(d.identity) && IsPair(signed)
    requires d.identity.priv.id < d.next && signed.priv.id < d.next
    requires p.baseKey.id < d.next && p.identityKey.id < d.next
    requires oneTime.Some? ==> oneTime.value.priv.id < d.next
    ensures Dated(AnsweringState(d, s, p, signed, oneTime), d.next)
  {
    var b := BobParameters(d.identity, signed, oneTime, signed, p.identityKey, p.baseKey);
    var input := BobSecret(b);
    assert input[1] == Agreed(Agreement(p.identityKey, signed.priv));
    assert Carries(Text(KDF, input, Second), signed.pub.id);
    hide BobSecret;
    assert Old(Text(KDF, input, First), d.next) by {
      AllBelowInput(b, d.next);
    }
  }

  lemma AllBelowInput(b: BobParameters, next: nat)
    requires b.ourIdentity.priv.id < next && b.ourSignedPreKey.priv.id < next && b.theirBase.id < next
    requires b.theirIdentity.id < next && (b.ourOneTimePreKey.Some? ==> b.ourOneTimePreKey.value.priv.id < next)
    ensures Old(Text(KDF, BobSecret(b), First), next)
  {
  }

  lemma AllBelowOutput(p: AliceParameters, next: nat)
    requires p.ourIdentity.priv.id < next && p.ourBase.priv.id < next && p.theirSignedPreKey.id < next
    requires p.theirIdentity.id < next && (p.theirOneTimePreKey.Some? ==> p.theirOneTimePreKey.value.id < next)
    ensures Old(Text(KDF, AliceSecret(p), First), next) && Old(Text(KDF, AliceSecret(p), Second), next)
    ensures Carries(Text(KDF, AliceSecret(p), Second), p.theirSignedPreKey.id)
  {
    assert AliceSecret(p)[1] == Agreed(Agreement(p.theirSignedPreKey, p.ourIdentity.priv));
  }

  lemma OpeningShape(d: Device, s: State, b: Bundle)
    requires s.receiverChains == [] && b.signedPreKey.Some?
    ensures var (s', p) := (OpeningState(d, s, b), TwoAddresses.OpeningFor(d, b));
            var (first, shared) := (Text(KDF, AliceSecret(p), First),
                                    Agreement(b.signedPreKey.value, PrivateKey(d.next + 1)));
            && Equipped(s') && s'.senderChain.value.ratchetKeyPair == Some(PairOf(d.next + 1))
            && s'.receiverChains
               == [ReceiverChain(b.signedPreKey.value, ChainKey(KDF, Text(KDF, AliceSecret(p), Second), 0), [])]
            && s'.rootKey.value.key == Ratcheted(KDF, first, shared, First)
            && s'.senderChain.value.chainKey.value.key == Ratcheted(KDF, first, shared, Second)
  {
    hide AliceSecret;
  }

  lemma OpeningIsDated(d: Device, s: State, b: Bundle)
    requires s.receiverChains == [] && b.signedPreKey.Some? && IsPair(d.identity)
    requires d.identity.priv.id < d.next && b.identityKey.id < d.next && b.signedPreKey.value.id < d.next
    requires b.preKey.Some? ==> b.preKey.value.id < d.next
    ensures Dated(OpeningState(d, s, b), d.next + 2)
  {
    var (their, p) := (b.signedPreKey.value, TwoAddresses.OpeningFor(d, b));
    var (first, base) := (Text(KDF, AliceSecret(p), First), Text(KDF, AliceSecret(p), Second));
    AllBelowOutput(p, d.next + 2);
    OpeningShape(d, s, b);
    NoSteps(base);
    hide *;
    DatedIfShaped(OpeningState(d, s, b), first, base, their, d.next + 1, d.next + 2);
  }

  lemma DatedIfShaped(s: State, first: Secret, base: Secret, their: PublicKey, id: nat, next: nat)
    requires Equipped(s) && s.senderChain.value.ratchetKeyPair == Some(PairOf(id)) && their.id < next && id < next
    requires s.receiverChains == [ReceiverChain(their, ChainKey(KDF, base, 0), [])] && Unstep(base).0 == base
    requires s.rootKey.value.key == Ratcheted(KDF, first, Agreement(their, PrivateKey(id)), First)
    requires s.senderChain.value.chainKey.value.key == Ratcheted(KDF, first, Agreement(their, PrivateKey(id)), Second)
    requires Old(first, next) && Old(base, next) && Carries(base, their.id)
    ensures Dated(s, next)
  {
    hide Old, Carries, Unstep;
    NoSteps(s.senderChain.value.chainKey.value.key);
    AgreementCarries(first, their, PrivateKey(id), First);
    AgreementCarries(first, their, PrivateKey(id), Second);
  }

  // ---- Records ----

  ghost predicate AllDated(states: seq<State>, next: nat) {
    forall i :: 0 <= i < |states| ==> Dated(states[i], next)
  }

  lemma AllDatedLater(states: seq<State>, next: nat, next': nat)
    requires AllDated(states, next) && next <= next'
    ensures AllDated(states, next')
  {
    hide Dated;
    forall i | 0 <= i < |states|
      ensures Dated(states[i], next')
    {
      DatedLater(states[i], next, next');
    }
  }

  lemma KeyForIsChainBase(s: State, m: Message)
    requires Sound(s)
    ensures IsChainBase(KeyFor(s, m).base)
  {
    hide LiesOn, Depth, BaseOf;
    match FindChain(s.receiverChains, m.ratchetKey)
    case Some(i) => assert SoundChain(s.receiverChains[i], s.rootKey.value.key);
    case None =>
  }

  lemma RecordKeepsDated(r: Record, me: nat, macs: set<Secret>, m: Message, next: nat)
    requires IntactRecord(r, me, macs) && m.counter < TWO32 - 1 && DecryptedFromRecord(r, m, next).result.Ok?
    requires AllDated(r.States(), next) && m.ratchetKey.id < next
    ensures var t := DecryptedFromRecord(r, m, next); AllDated(t.record.States(), t.next)
    ensures IsMacKey(m.mac.key) && Carries(NameOf(m.mac.key).base, m.ratchetKey.id)
    ensures IsChainBase(NameOf(m.mac.key).base)
  {
    hide Decrypted, DecryptedFromRecord, Intact, Dated, NameOf, Carries, DrawnByDecrypt;
    var t := DecryptedFromRecord(r, m, next);
    var i, drawn := AcceptedByOneState(r, m, next);
    var s := r.States()[i];
    IntactIsSound(s, me, macs);
    DatedLater(s, next, drawn);
    AcceptKeepsDated(s, m, drawn);
    AcceptedUnder(s, me, macs, m, drawn);
    KeyForOrigin(s, m);
    KeyForIsChainBase(s, m);
    NameOfMacKey(KeyFor(s, m).base, m.counter);
    forall j | 0 < j < |t.record.States()|
      ensures Dated(t.record.States()[j], t.next)
    {
      var q := if j - 1 < i then j - 1 else j;
      assert t.record.States()[j] == r.States()[q];
      DatedLater(r.States()[q], next, t.next);
    }
  }

  lemma ClearedKeepsDated(r: Record, s: State, next: nat)
    requires r.isFresh ==> r.previous == []
    requires (!r.isFresh ==> AllDated(r.States(), next)) && Dated(s, next)
    ensures AllDated(Cleared(r).(state := s).States(), next)
  {
    hide Dated;
    var states' := Cleared(r).(state := s).States();
    forall j | 0 < j < |states'|
      ensures Dated(states'[j], next)
    {
      assert states'[j] == r.States()[j - 1];
    }
  }

  // ---- Devices ----

  /** The keys a device has were generated, and so were all that went into its sessions. */
  ghost predicate DatedDevice(d: Device) {
    && (forall id :: id in d.signedPreKeys ==> IsPair(d.signedPreKeys[id]) && d.signedPreKeys[id].priv.id < d.next)
    && (forall id :: id in d.preKeys ==> d.preKeys[id].priv.id < d.next)
    && forall a :: a in d.sessions ==> AllDated(d.sessions[a].States(), d.next)
  }

  /** The keys in a message or a bundle have been generated. */
  predicate KeysExist(d: Device, e: Event) {
    match e
    case Receive(_, m, _) => m.ratchetKey.id < d.next
    case ReceivePreKey(_, p, _) => p.message.ratchetKey.id < d.next && p.identityKey.id < d.next
    case ProcessBundle(_, b, _) =>
      && (b.signedPreKey.Some? ==> b.signedPreKey.value.id < d.next) && (b.preKey.Some? ==> b.preKey.value.id < d.next)
    case _ => true
  }

  predicate KeysExistIn(d: Device, events: seq<Event>) {
    forall i :: 0 <= i < |events| ==> KeysExist(Run(d, events[..i]), events[i])
  }

  predicate NoNewPreKey(d: Device, d': Device) {
    forall id :: id in d'.preKeys ==> id in d.preKeys && d'.preKeys[id] == d.preKeys[id]
  }

  lemma OneRecordDated(d: Device, d': Device, a: Address)
    requires DatedDevice(d) && OnlyAt(d, d', a) && AllDated(StatesAt(d', a), d'.next)
    requires d'.signedPreKeys == d.signedPreKeys && NoNewPreKey(d, d')
    ensures DatedDevice(d')
  {
    hide AllDated;
    forall b | b in d'.sessions
      ensures AllDated(d'.sessions[b].States(), d'.next)
    {
      if b != a {
        AllDatedLater(d.sessions[b].States(), d.next, d'.next);
      }
    }
  }

  lemma SessionsKeptDated(d: Device, d': Device, a: Address)
    requires DatedDevice(d) && OnlyAt(d, d', a) && d'.sessions == d.sessions
    requires d'.signedPreKeys == d.signedPreKeys && NoNewPreKey(d, d')
    ensures DatedDevice(d')
  {
    hide Dated;
    if a in d.sessions {
      AllDatedLater(d.sessions[a].States(), d.next, d'.next);
    }
    OneRecordDated(d, d', a);
  }

  lemma ReadIsDated(d: Device, heard: Heard, e: Event)
    requires Safe(d, heard) && DatedDevice(d) && Allowed(d, e) && KeysExist(d, e) && ReadWith(d, e).Some?
    ensures AllDated(ReadWith(d, e).value.0.States(), d.next)
  {
    hide SafeAt, Dated, AnsweringState, HasSession;
    var r := Load(d, e.a);
    assert e.a in d.sessions ==> r.States() == d.sessions[e.a].States();
    if e.ReceivePreKey? {
      var p := e.p;
      if HasSession(r, p.version, p.baseKey) {
        TwoAddresses.HasSessionIsStored(d, e.a, p.version, p.baseKey);
      } else {
        var oneTime := if p.preKeyId.Some? then Some(d.preKeys[p.preKeyId.value]) else None;
        var signed := d.signedPreKeys[p.signedPreKeyId];
        AnsweringIsDated(d, Cleared(r).state, p, signed, oneTime);
        ClearedKeepsDated(r, AnsweringState(d, Cleared(r).state, p, signed, oneTime), d.next);
      }
    }
  }

  lemma PreKeysKept(d: Device, e: Event)
    requires !e.AddPreKey?
    ensures NoNewPreKey(d, Step(d, e))
  {
    hide Step, OneTimeKeys.BuiltFrom;
    OneTimeKeys.BuildingTakesTheKey(d, e);
  }

  lemma ReceiveKeepsDated(d: Device, heard: Heard, e: Event)
    requires Safe(d, heard) && DatedDevice(d) && Allowed(d, e) && KeysExist(d, e) && (e.Receive? || e.ReceivePreKey?)
    ensures DatedDevice(Step(d, e))
  {
    hide Step, AcceptedKey, Safe, DatedDevice, Allowed, IntactRecord, AllDated, DecryptedFromRecord, Remembered;
    hide Carries;
    ReceiveStores(d, e);
    SignedPreKeysKept(d, e);
    PreKeysKept(d, e);
    if AcceptedKey(d, e).None? {
      SessionsKeptDated(d, Step(d, e), e.a);
    } else {
      ReadIsIntact(d, heard, e);
      ReadIsDated(d, heard, e);
      var (r, m) := ReadWith(d, e).value;
      assert m.ratchetKey.id < d.next;
      hide ReadWith, KeysExist;
      RecordKeepsDated(r, Me(d), Remembered(HeardAt(heard, e.a), r.States()), m, d.next);
      assert StatesAt(Step(d, e), e.a) == DecryptedFromRecord(r, m, d.next).record.States();
      OneRecordDated(d, Step(d, e), e.a);
    }
  }

  lemma EncryptKeepsDated(d: Device, e: Event)
    requires DatedDevice(d) && e.Encrypt?
    ensures DatedDevice(Step(d, e))
  {
    EncryptStores(d, e);
    PreKeysKept(d, e);
    hide Step, Dated, Encrypted;
    var (d', r) := (Step(d, e), Load(d, e.a));
    if d'.sessions == d.sessions {
      SessionsKeptDated(d, d', e.a);
    } else {
      assert r.States() == d.sessions[e.a].States() && Dated(r.States()[0], d.next);
      SendingKeepsDated(r.state, e.text, d.next);
      forall j | 0 < j < |StatesAt(d', e.a)|
        ensures Dated(StatesAt(d', e.a)[j], d.next)
      {
        assert StatesAt(d', e.a)[j] == r.States()[j];
      }
      OneRecordDated(d, d', e.a);
    }
  }

  lemma BundleKeepsDated(d: Device, heard: Heard, e: Event)
    requires Safe(d, heard) && DatedDevice(d) && Allowed(d, e) && KeysExist(d, e) && e.ProcessBundle?
    ensures DatedDevice(Step(d, e))
  {
    assert e.b.identityKey.id < d.next;
    BundleOnlyAt(d, e);
    SignedPreKeysKept(d, e);
    PreKeysKept(d, e);
    if Step(d, e).sessions == d.sessions {
      hide Step, DatedDevice;
      SessionsKeptDated(d, Step(d, e), e.a);
    } else {
      BundleStores(d, e);
      hide Step, OpeningState, DatedDevice, Safe, AllDated, OnlyAt, Cleared;
      OpenedIsDated(d, heard, e.a, e.b);
      OneRecordDated(d, Step(d, e), e.a);
    }
  }

  /** The record a bundle is opened in. */
  lemma OpenedIsDated(d: Device, heard: Heard, a: Address, b: Bundle)
    requires Safe(d, heard) && DatedDevice(d) && b.signedPreKey.Some? && b.identityKey.id < d.next
    requires b.signedPreKey.value.id < d.next && (b.preKey.Some? ==> b.preKey.value.id < d.next)
    ensures var r := Cleared(Load(d, a));
            AllDated(r.(state := OpeningState(d, r.state, b), isFresh := false).States(), d.next + 2)
  {
    hide OpeningState, Dated, SafeAt;
    var r := Load(d, a);
    var s := OpeningState(d, Cleared(r).state, b);
    OpeningIsDated(d, Cleared(r).state, b);
    if a in d.sessions {
      assert r.States() == d.sessions[a].States();
      AllDatedLater(r.States(), d.next, d.next + 2);
    }
    ClearedKeepsDated(r, s, d.next + 2);
    assert Cleared(r).(state := s, isFresh := false).States() == Cleared(r).(state := s).States();
  }

  lemma StepKeepsDated(d: Device, heard: Heard, e: Event)
    requires Safe(d, heard) && DatedDevice(d) && Allowed(d, e) && KeysExist(d, e)
    ensures DatedDevice(Step(d, e))
  {
    hide Safe, MessageEncrypted, SignalMessageDecrypted, PreKeyMessageDecrypted, BundleProcessed, AllDated;
    match e {
      case Encrypt(_, _, _) => EncryptKeepsDated(d, e);
      case Receive(_, _, _) => ReceiveKeepsDated(d, heard, e);
      case ReceivePreKey(_, _, _) => ReceiveKeepsDated(d, heard, e);
      case ProcessBundle(_, _, _) => BundleKeepsDated(d, heard, e);
      case _ =>
        forall a | a in Step(d, e).sessions
          ensures AllDated(Step(d, e).sessions[a].States(), Step(d, e).next)
        {
          AllDatedLater(d.sessions[a].States(), d.next, Step(d, e).next);
        }
    }
  }

  lemma {:induction false} RunKeepsDated(d: Device, events: seq<Event>)
    requires Installed(d) && DatedDevice(d) && AllowedRun(d, events) && KeysExistIn(d, events)
    ensures DatedDevice(Run(d, events))
  {
    hide Step, Allowed, Safe, DatedDevice, KeysExist;
    if events != [] {
      var (before, last) := (events[..|events| - 1], events[|events| - 1]);
      PrefixIsAllowed(d, events, |events| - 1);
      PrefixKeysExist(d, events, |events| - 1);
      RunKeepsSafe(d, before);
      RunKeepsDated(d, before);
      StepKeepsDated(Run(d, before), HeardIn(d, before), last);
    }
  }

  lemma PrefixKeysExist(d: Device, events: seq<Event>, n: nat)
    requires KeysExistIn(d, events) && n <= |events|
    ensures KeysExistIn(d, events[..n])
  {
    hide KeysExist, Run;
    forall i | 0 <= i < n
      ensures KeysExist(Run(d, events[..n][..i]), events[..n][i])
    {
      assert events[..n][..i] == events[..i];
    }
  }

  // ---- Every run ----

  /** Some session of the device has a root key from which these private keys give every agreement up to `y`. */
  ghost predicate FollowedFrom(d: Device, ids: set<nat>, y: Secret) {
    exists s :: HasState(d, s) && s.rootKey.Some? && Follows(s.rootKey.value.key, ids, y)
  }

  /** Exactly what is learned of a position whose base is younger than what was revealed: only what the private keys
      give, on their own or from a revealed root key on. */
  ghost predicate ExactlyRecovered(d: Device, ids: set<nat>, x: KeyName, y: Secret) {
    && (Learns(d, ids, y) <==> Knows(ids, y) || FollowedFrom(d, ids, x.base))
    && (x.base.Ratcheted? && !KnowsShared(ids, x.base.shared) ==> !Learns(d, ids, y))
  }

  /** The chains held at the reveal do not lead to a younger base. */
  lemma YoungIsRecovered(d: Device, heard: Heard, ids: set<nat>, x: KeyName, part: Part)
    requires Safe(d, heard) && DatedDevice(d) && IsChainBase(x.base) && !Old(x.base, d.next)
    ensures ExactlyRecovered(d, ids, x, KeyPart(KDF, x.base, x.counter, part))
  {
    SafeIsSound(d, heard);
    LearnsExactly(d, ids, x, part);
    hide Learns, Safe, Old, HandsOn, Dated, Sound, IsChainBase, Equipped;
    forall s | HasState(d, s)
      ensures Equipped(s) && !HandsOn(s, x)
    {
      var a :| a in d.sessions && s in d.sessions[a].States();
      assert AllDated(d.sessions[a].States(), d.next);
      SoundIsEquipped(s);
      if HandsOn(s, x) {
        HandedOnIsOld(s, d.next, x);
      }
    }
    EquippedHasRoot(d);
    KeyNeedsItsBase(ids, x, part);
  }

  lemma EquippedHasRoot(d: Device)
    ensures forall s :: HasState(d, s) && Equipped(s) ==> s.rootKey.Some?
  {
    hide HasState;
  }

  lemma {:induction false} StepNeedsItsBase(ids: set<nat>, base: Secret, n: nat)
    requires Knows(ids, StepSecret(base, n))
    ensures Knows(ids, base)
  {
    if n > 0 {
      StepNeedsItsBase(ids, base, n - 1);
    }
  }

  lemma KeyNeedsItsBase(ids: set<nat>, x: KeyName, part: Part)
    ensures Knows(ids, KeyPart(KDF, x.base, x.counter, part)) ==> Knows(ids, x.base)
  {
    if Knows(ids, KeyPart(KDF, x.base, x.counter, part)) {
      assert Knows(ids, Hmac(StepSecret(x.base, x.counter), MESSAGE_KEY_SEED));
      StepNeedsItsBase(ids, x.base, x.counter);
    }
  }

  /** A run of a device whose keys were generated, with messages and bundles whose keys were generated. */
  ghost predicate ProperRun(d: Device, events: seq<Event>) {
    Installed(d) && DatedDevice(d) && AllowedRun(d, events) && KeysExistIn(d, events)
  }

  lemma ProperSoFar(d: Device, events: seq<Event>, n: nat)
    requires ProperRun(d, events) && n <= |events|
    ensures Safe(Run(d, events[..n]), HeardIn(d, events[..n])) && DatedDevice(Run(d, events[..n]))
  {
    hide Safe, DatedDevice, AllowedRun, KeysExistIn, Run, HeardIn;
    PrefixIsAllowed(d, events, n);
    PrefixKeysExist(d, events, n);
    RunKeepsSafe(d, events[..n]);
    RunKeepsDated(d, events[..n]);
  }

  /** The ratchet key a message is sent under went into the base of its chain. */
  lemma EmittedCarries(d: Device, heard: Heard, e: Event)
    requires Safe(d, heard) && DatedDevice(d) && Emitted(d, e).Some?
    ensures var s := Load(d, e.a).state;
            Equipped(s) && IsChainBase(SendingBase(s)) && Carries(SendingBase(s), Emitted(d, e).value.ratchetKey.id)
  {
    EmittedIsStored(d, e);
    var (r, s) := (Load(d, e.a), Load(d, e.a).state);
    assert SafeAt(d, heard, e.a) && AllDated(d.sessions[e.a].States(), d.next);
    assert Emitted(d, e).value.ratchetKey == s.senderChain.value.ratchetKeyPair.value.pub;
    hide Emitted, Carries, Old, Spent, Rooted, SoundChains;
    assert s == d.sessions[e.a].States()[0];
    assert Intact(s, Me(d), HeardAt(heard, e.a)) && Dated(s, d.next);
  }

  /** Recovery of sent messages: everything the device held was revealed at step `n`, together with any private keys. A
      message it sends later under a ratchet key generated since is learned if and only if the private keys alone give
      it, or give every agreement from a revealed root key on; never, if they do not give the agreement its chain was
      opened with. */
  lemma SentRecovers(d: Device, events: seq<Event>, n: nat, j: nat, ids: set<nat>, part: Part)
    requires ProperRun(d, events) && n <= j < |events| && Emitted(Run(d, events[..j]), events[j]).Some?
    requires Emitted(Run(d, events[..j]), events[j]).value.ratchetKey.id >= Run(d, events[..n]).next
    ensures var s := Load(Run(d, events[..j]), events[j].a).state;
            && Equipped(s)
            && var c := s.senderChain.value.chainKey.value.key;
               ExactlyRecovered(Run(d, events[..n]), ids, KeyName(Unstep(c).0, Unstep(c).1),
                                MessagePart(KDF, Hmac(c, MESSAGE_KEY_SEED), part))
  {
    ProperSoFar(d, events, n);
    ProperSoFar(d, events, j);
    var (w, w') := (Run(d, events[..n]), Run(d, events[..j]));
    EmittedCarries(w', HeardIn(d, events[..j]), events[j]);
    var c := Load(w', events[j].a).state.senderChain.value.chainKey.value.key;
    UnstepKeepsOrigin(c);
    var x := KeyName(Unstep(c).0, Unstep(c).1);
    assert !Old(x.base, w.next);
    hide Run, Safe, DatedDevice, ProperRun, Emitted, Carries, Old, Unstep, ExactlyRecovered, IsChainBase;
    YoungIsRecovered(w, HeardIn(d, events[..n]), ids, x, part);
  }

  /** Recovery of received messages, in the same terms. */
  lemma ReceivedRecovers(d: Device, events: seq<Event>, n: nat, j: nat, ids: set<nat>, k: Secret, part: Part)
    requires ProperRun(d, events) && n <= j < |events| && AcceptedKey(Run(d, events[..j]), events[j]) == Some(k)
    requires ReadWith(Run(d, events[..j]), events[j]).Some?
    requires ReadWith(Run(d, events[..j]), events[j]).value.1.ratchetKey.id >= Run(d, events[..n]).next
    ensures ExactlyRecovered(Run(d, events[..n]), ids, NameOf(k), PartOf(k, part))
  {
    ProperSoFar(d, events, n);
    ProperSoFar(d, events, j);
    StepIsAllowed(d, events, j);
    assert KeysExist(Run(d, events[..j]), events[j]);
    hide Run, Safe, DatedDevice, ProperRun, Allowed, KeysExist, AcceptedKey, ReadWith, NameOf, ExactlyRecovered, Old;
    hide IsMacKey, PartOf, HeardIn, IsChainBase;
    var (w, w') := (Run(d, events[..n]), Run(d, events[..j]));
    AcceptedCarries(w', HeardIn(d, events[..j]), events[j]);
    assert !Old(NameOf(k).base, w.next);
    MacKeyParts(k, part);
    YoungIsRecovered(w, HeardIn(d, events[..n]), ids, NameOf(k), part);
  }

  lemma AcceptedCarries(d: Device, heard: Heard, e: Event)
    requires Safe(d, heard) && DatedDevice(d) && Allowed(d, e) && KeysExist(d, e)
    requires AcceptedKey(d, e).Some? && ReadWith(d, e).Some?
    ensures var k := AcceptedKey(d, e).value;
            && IsMacKey(k) && IsChainBase(NameOf(k).base)
            && Carries(NameOf(k).base, ReadWith(d, e).value.1.ratchetKey.id)
  {
    assert e.Receive? || e.ReceivePreKey?;
    hide Step, AcceptedKey, Safe, DatedDevice, Allowed, IntactRecord, AllDated, DecryptedFromRecord, Remembered;
    hide Carries, NameOf, IsMacKey, IsChainBase;
    ReceiveStores(d, e);
    ReadIsIntact(d, heard, e);
    ReadIsDated(d, heard, e);
    var (r, m) := ReadWith(d, e).value;
    assert m.ratchetKey.id < d.next;
    RecordKeepsDated(r, Me(d), Remembered(HeardAt(heard, e.a), r.States()), m, d.next);
  }
}
