/**
 A run in which forward secrecy of a received message fails: a device answers one pre-key
 message under two addresses, and the session of the second address still holds the chain
 key that leads to a message the first has accepted and left behind.
 */
module SharedSessions {
  import opened Common
  import opened Crypto
  import opened Ratchet
  import opened SkipWindow
  import opened Messages
  import opened SessionStates
  import opened X3dh
  import opened SessionCiphers
  import opened ReceiverChains
  import opened SessionRecords
  import opened Replay
  import opened Devices
  import opened RecordHistory
  import opened DeviceRuns
  import opened AtMostOnce
  import opened TwoAddresses
  import opened Acceptance
  import opened Network
  import ForwardSecrecy

  /** The base of the first sending chain of a session opened from a bundle. */
  function FirstBase(d: Device, b: Bundle): Secret
    requires b.signedPreKey.Some?
  {
    var first := Text(KDF, AliceSecret(OpeningFor(d, b)), First);
    Ratcheted(KDF, first, Between(b.signedPreKey.value.id, d.next + 1), Second)
  }

  /** The answering session after the first message: one chain, at its second position. */
  predicate AfterFirst(s: State, d: Device, b: Bundle)
    requires b.signedPreKey.Some?
  {
    && Equipped(s) && s.remoteIdentity == Some(d.identity.pub) && s.localIdentity == Some(b.identityKey)
    && |s.receiverChains| == 1 && s.receiverChains[0].ratchetKey == PublicKey(d.next + 1)
    && LiesOn(s.receiverChains[0], FirstBase(d, b)) && WindowOf(s.receiverChains[0]) == Window(1, [])
  }

  lemma NewAnswer(d: Device, b: Bundle, text: Text, d': Device)
    requires b.signedPreKey.Some? && IsPair(d.identity) && IsPair(d'.identity)
    requires Published(d', b, OpeningMessage(d, b, 0, text))
    ensures var s := AnswerState(d', OpeningMessage(d, b, 0, text));
            && Equipped(s) && s.receiverChains == []
            && s.remoteIdentity == Some(d.identity.pub) && s.localIdentity == Some(b.identityKey)
            && NewBase(s, PublicKey(d.next + 1)) == FirstBase(d, b)
  {
    var p := OpeningMessage(d, b, 0, text);
    hide MessageOf, OpeningLetter;
    assert BobSecret(AnswerTo(d', p)) == AliceSecret(OpeningFor(d, b));
  }

  lemma FirstIsRead(d: Device, b: Bundle, text: Text, d': Device, next: nat)
    requires b.signedPreKey.Some? && IsPair(d.identity) && IsPair(d'.identity)
    requires Published(d', b, OpeningMessage(d, b, 0, text))
    ensures var p := OpeningMessage(d, b, 0, text);
            && Decrypted(AnswerState(d', p), p.message, next).Ok?
            && AfterFirst(Decrypted(AnswerState(d', p), p.message, next).value.0, d, b)
  {
    var (p, x) := (OpeningMessage(d, b, 0, text), OpeningLetter(d, b, 0, text));
    PublishedOpensTheChain(d, b, 0, text, d');
    NewAnswer(d, b, text, d');
    var s := AnswerState(d', p);
    assert p.message == MessageOf(x) && x.chainKey.index == 0;
    assert p.message.ratchetKey == PublicKey(d.next + 1) && p.message.counter == 0;
    hide AnsweringState, OpeningMessage, OpeningLetter, MessageOf, FirstBase, Answer, Sound, Published, NewBase;
    SessionAnswers(s, x, next);
    FirstChain(s, p.message, next);
  }

  lemma FirstChain(s: State, m: Message, next: nat)
    requires Equipped(s) && s.receiverChains == [] && m.counter == 0 && Decrypted(s, m, next).Ok?
    ensures var s' := Decrypted(s, m, next).value.0;
            && Equipped(s') && s'.remoteIdentity == s.remoteIdentity && s'.localIdentity == s.localIdentity
            && |s'.receiverChains| == 1 && s'.receiverChains[0].ratchetKey == m.ratchetKey
            && LiesOn(s'.receiverChains[0], NewBase(s, m.ratchetKey)) && WindowOf(s'.receiverChains[0]) == Window(1, [])
  {
    hide Keyed, LiesOn, MacVerifies, DecryptBody, NewBase, WindowOf;
    var c := StateOnNewChain(s, m.ratchetKey, 0, next);
    assert LastN(s.receiverChains + [c], MAX_RECEIVER_CHAINS) == [c];
    assert LastN([] + Range(0, 0), MAX_MESSAGE_KEYS) == [];
  }

  const NO_FAULTS: Faults :=
    Faults(LoadFaults(false, false, false, false, false, false, false), false, false, false, false)

  lemma FreshHasNoSession(v: nat, k: PublicKey)
    ensures !HasSession(FRESH, v, k)
  {
  }

  /** A device meets an address for the first time, with the first message of a session opened from its bundle. */
  lemma AnswersFirst(d: Device, b: Bundle, text: Text, d': Device, a: Address)
    requires b.signedPreKey.Some? && b.preKey.None? && IsPair(d.identity) && IsPair(d'.identity)
    requires Published(d', b, OpeningMessage(d, b, 0, text)) && a !in d'.sessions && a !in d'.identities
    ensures var w := Step(d', ReceivePreKey(a, OpeningMessage(d, b, 0, text), NO_FAULTS));
            && w.identity == d'.identity && w.signedPreKeys == d'.signedPreKeys && w.preKeys == d'.preKeys
            && w.next >= d'.next && w.identities == d'.identities[a := d.identity.pub]
            && w.sessions.Keys == d'.sessions.Keys + {a}
            && (forall c :: c in d'.sessions ==> w.sessions[c] == d'.sessions[c])
            && w.sessions[a].previous == [] && AfterFirst(w.sessions[a].state, d, b)
  {
    var p := OpeningMessage(d, b, 0, text);
    assert p.preKeyId.None? && p.identityKey == d.identity.pub && HasKeysFor(d', p);
    FirstIsRead(d, b, text, d', d'.next);
    hide *;
    StepOfFirst(d', a, p);
  }

  lemma StepOfFirst(d: Device, a: Address, p: PreKeyMessage)
    requires HasKeysFor(d, p) && p.preKeyId.None? && Decrypted(AnswerState(d, p), p.message, d.next).Ok?
    requires a !in d.sessions && a !in d.identities
    ensures var w := Step(d, ReceivePreKey(a, p, NO_FAULTS));
            && w.next >= d.next && (forall c :: c in d.sessions ==> c != a && w.sessions[c] == d.sessions[c])
            && w == d.(next := w.next, sessions := w.sessions, identities := d.identities[a := p.identityKey])
            && w.sessions.Keys == d.sessions.Keys + {a} && w.sessions[a].previous == []
            && w.sessions[a].state == Decrypted(AnswerState(d, p), p.message, d.next).value.0
  {
    hide Answered, DecryptedFromRecord, Decrypted, AnsweringState, HasKeysFor;
    ReadFresh(d, p);
  }

  /** A fresh record answers and reads with the new session. */
  lemma ReadFresh(d: Device, p: PreKeyMessage)
    requires HasKeysFor(d, p) && p.preKeyId.None? && Decrypted(AnswerState(d, p), p.message, d.next).Ok?
    ensures var r := FRESH.(state := AnswerState(d, p));
            && Answered(d, FRESH, p, NO_FAULTS.loads) == Ok((r, None))
            && var (s, text) := Decrypted(AnswerState(d, p), p.message, d.next).value;
               DecryptedFromRecord(r, p.message, d.next).result == Ok(text)
               && DecryptedFromRecord(r, p.message, d.next).record == r.(state := s)
  {
    FreshHasNoSession(p.version, p.baseKey);
    hide AnsweringState, Decrypted, HasSession;
  }

  /** The run: the first message comes in under two addresses, the second under one of them. */
  function Twice(d: Device, b: Bundle, text: Text, text': Text, a: Address, c: Address): seq<Event>
    requires b.signedPreKey.Some?
  {
    var first := OpeningMessage(d, b, 0, text);
    [ReceivePreKey(a, first, NO_FAULTS), ReceivePreKey(c, first, NO_FAULTS),
     Receive(a, OpeningMessage(d, b, 1, text').message, NO_FAULTS)]
  }

  /** A session that has read the first message accepts the second. */
  lemma SecondIsRead(d: Device, b: Bundle, text: Text, w: Device, heard: Heard, a: Address)
    requires b.signedPreKey.Some? && Safe(w, heard) && a in w.sessions && AfterFirst(w.sessions[a].state, d, b)
    ensures AcceptedKey(w, Receive(a, OpeningMessage(d, b, 1, text).message, NO_FAULTS))
            == Some(KeysAt(KDF, FirstBase(d, b), 1).macKey)
  {
    var (m, x) := (OpeningMessage(d, b, 1, text).message, OpeningLetter(d, b, 1, text));
    assert m == MessageOf(x) && m.mac.key == KeysAt(KDF, FirstBase(d, b), 1).macKey;
    assert x.chainKey == ChainAt(KDF, FirstBase(d, b), 1) && x.ratchetKey == PublicKey(d.next + 1);
    assert x.sender == d.identity.pub && x.receiver == b.identityKey;
    hide OpeningMessage, OpeningLetter, MessageOf, FirstBase, KeysAt, ChainAt, Safe;
    RecordIsSound(w, heard, a);
    var r := Load(w, a);
    assert r.States() == StatesAt(w, a);
    assert Answer(r.state, x).Ok? by {
      assert FindChain(r.state.receiverChains, x.ratchetKey) == Some(0);
      BaseOfLiesOn(r.state.receiverChains[0], FirstBase(d, b));
    }
    hide Answer, Sound, AfterFirst, LiesOn;
    assert FirstAnswer(r.States(), x) == Answer(r.States()[0], x);
    RecordAnswers(r, x, w.next);
    hide DecryptedFromRecord;
  }

  /** Where such a run can start: an installed device whose bundle it is, and two addresses it does not know. */
  predicate CanStart(d: Device, b: Bundle, d': Device, a: Address, c: Address) {
    && b.signedPreKey.Some? && b.preKey.None? && IsPair(d.identity) && Installed(d') && d.next < d'.next
    && Published(d', b, OpeningMessage(d, b, 0, [])) && a != c && a !in d'.identities && c !in d'.identities
  }

  lemma PublishedForAll(d: Device, b: Bundle, text: Text, d': Device, w: Device)
    requires b.signedPreKey.Some? && Published(d', b, OpeningMessage(d, b, 0, []))
    requires w.identity == d'.identity && w.signedPreKeys == d'.signedPreKeys && w.preKeys == d'.preKeys
    ensures Published(w, b, OpeningMessage(d, b, 0, text))
  {
    hide MessageOf, OpeningLetter;
  }

  /** After the two deliveries both addresses have a session that has read the first message. */
  lemma BothAnswer(d: Device, b: Bundle, text: Text, text': Text, d': Device, a: Address, c: Address)
    requires CanStart(d, b, d', a, c)
    ensures AllowedRun(d', Twice(d, b, text, text', a, c))
    ensures var w := Run(d', Twice(d, b, text, text', a, c)[..2]);
            && a in w.sessions && AfterFirst(w.sessions[a].state, d, b)
            && c in w.sessions && AfterFirst(w.sessions[c].state, d, b)
  {
    hide AfterFirst, OpeningMessage, Published, Step, Run, AllowedRun;
    var es := Twice(d, b, text, text', a, c);
    FirstSteps(d', es);
    PublishedForAll(d, b, text, d', d');
    AnswersFirst(d, b, text, d', a);
    var w := Step(d', es[0]);
    PublishedForAll(d, b, text, d', w);
    AnswersFirst(d, b, text, w, c);
    TwiceIsAllowed(d, b, text, text', d', a, c);
  }

  lemma TwiceIsAllowed(d: Device, b: Bundle, text: Text, text': Text, d': Device, a: Address, c: Address)
    requires b.signedPreKey.Some?
    requires d.next < d'.next <= Run(d', Twice(d, b, text, text', a, c)[..1]).next
    ensures AllowedRun(d', Twice(d, b, text, text', a, c))
  {
    var (es, p) := (Twice(d, b, text, text', a, c), OpeningMessage(d, b, 0, text));
    assert Parsed(p) && p.message.counter == 0 && p.baseKey.id == d.next;
    assert OpeningMessage(d, b, 1, text').message.counter == 1;
    hide OpeningMessage, Step, Run;
    FirstSteps(d', es);
  }

  lemma FirstSteps(d: Device, es: seq<Event>)
    requires |es| >= 2
    ensures Run(d, es[..0]) == d && Run(d, es[..1]) == Step(d, es[0]) && Run(d, es[..2]) == Step(Step(d, es[0]), es[1])
  {
    hide Step;
    OneMoreStep(d, es, 0);
    OneMoreStep(d, es, 1);
  }

  /** Then the second message is heard under the one address, and the session of the other stays as it was. */
  lemma SecondIsHeard(d: Device, b: Bundle, text: Text, text': Text, d': Device, a: Address, c: Address)
    requires CanStart(d, b, d', a, c)
    ensures var (es, k) := (Twice(d, b, text, text', a, c), KeysAt(KDF, FirstBase(d, b), 1).macKey);
            && AllowedRun(d', es) && k in HeardAt(HeardIn(d', es), a)
            && c in Run(d', es).sessions && AfterFirst(Run(d', es).sessions[c].state, d, b)
  {
    hide HeardIn, Step, AcceptedKey, StillThere, Safe, KeysAt, AfterFirst, FirstBase, AllowedRun, StoresAccepted;
    hide HeardAt, Published, Run, OpeningMessage, ReadWith, Origin;
    var (es, k) := (Twice(d, b, text, text', a, c), KeysAt(KDF, FirstBase(d, b), 1).macKey);
    assert es[..3] == es;
    BothAnswer(d, b, text, text', d', a, c);
    PrefixIsAllowed(d', es, 2);
    RunKeepsSafe(d', es[..2]);
    var w := Run(d', es[..2]);
    SecondIsRead(d, b, text', w, HeardIn(d', es[..2]), a);
    assert k in Newly(w, es[2], a);
    OneMoreStep(d', es, 2);
    ReceiveStores(w, es[2]);
    AcceptedStaysThere(d', es, 2, a, k);
    HeardAtOnce(d', es, 2, a, k);
  }

  /** The second message's keys are learned from the session secrets alone, although the session that accepted it has
      left it behind and no private key gives them away: the session of the other address hands them on. */
  lemma SharedSessionGivesTheKey(d: Device, b: Bundle, text: Text, text': Text, d': Device, a: Address, c: Address,
                                 part: Part)
    requires CanStart(d, b, d', a, c)
    ensures var (es, k) := (Twice(d, b, text, text', a, c), KeysAt(KDF, FirstBase(d, b), 1).macKey);
            && AllowedRun(d', es) && k in HeardAt(HeardIn(d', es), a)
            && ForwardSecrecy.Learns(Run(d', es), {}, ForwardSecrecy.PartOf(k, part))
            && !Knows({}, ForwardSecrecy.PartOf(k, part))
  {
    var (es, k) := (Twice(d, b, text, text', a, c), KeysAt(KDF, FirstBase(d, b), 1).macKey);
    assert a != c && Installed(d');
    NameOfMacKey(FirstBase(d, b), 1);
    hide *;
    SecondIsHeard(d, b, text, text', d', a, c);
    HandedOn(d, b, Run(d', es).sessions[c].state);
    GivenElsewhere(d', es, a, c, k, part);
  }

  /** A message heard under one address whose position the current session of another hands on. */
  lemma GivenElsewhere(d: Device, events: seq<Event>, a: Address, c: Address, k: Secret, part: Part)
    requires Installed(d) && AllowedRun(d, events) && k in HeardAt(HeardIn(d, events), a)
    requires a != c && c in Run(d, events).sessions && Equipped(Run(d, events).sessions[c].state)
    requires ForwardSecrecy.HandsOn(Run(d, events).sessions[c].state, NameOf(k))
    ensures ForwardSecrecy.Learns(Run(d, events), {}, ForwardSecrecy.PartOf(k, part))
    ensures !Knows({}, ForwardSecrecy.PartOf(k, part))
  {
    hide Run, HeardIn, AllowedRun, NameOf, Knows, Safe, ForwardSecrecy.Learns, ForwardSecrecy.HandsOn;
    hide ForwardSecrecy.PartOf, ForwardSecrecy.IsMacKey, ForwardSecrecy.LedFromElsewhere, Equipped;
    var w := Run(d, events);
    assert w.sessions[c].state == w.sessions[c].States()[0];
    assert ForwardSecrecy.HandedOnElsewhere(w, a, NameOf(k));
    ForwardSecrecy.ReceivedStaysSecret(d, events, {}, a, k, part);
    RunKeepsSafe(d, events);
    var i := ForwardSecrecy.HeardIsBehind(w, HeardIn(d, events), a, k);
    ForwardSecrecy.HeardAreMacKeys(d, events, a, k);
    ForwardSecrecy.MacKeyParts(k, part);
    ForwardSecrecy.NothingKnown(ForwardSecrecy.PartOf(k, part));
  }

  lemma HandedOn(d: Device, b: Bundle, s: State)
    requires b.signedPreKey.Some? && AfterFirst(s, d, b)
    ensures Equipped(s) && ForwardSecrecy.HandsOn(s, KeyName(FirstBase(d, b), 1))
  {
    BaseOfLiesOn(s.receiverChains[0], FirstBase(d, b));
    assert !UsedUp(s.receiverChains[0], KeyName(FirstBase(d, b), 1));
  }

  const ALICE: Device := Device(PairOf(0), 1, map[], map[], map[], map[], 10)
  const BOB: Device := Device(PairOf(1), 2, map[], map[], map[1 := PairOf(2)], map[], 20)
  const BUNDLE: Bundle :=
    Bundle(2, 0, None, 1, Some(PublicKey(2)), Signature(PublicKey(1), PublicKey(2)), PublicKey(1))

  /** There are such runs. */
  lemma SuchRunsExist()
    ensures CanStart(ALICE, BUNDLE, BOB, "A", "C")
  {
    hide MessageOf, OpeningLetter;
    assert "A"[0] != "C"[0];
  }
}
