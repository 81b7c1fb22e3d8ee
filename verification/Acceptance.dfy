/**
 When a message from an honest device is accepted: by one session, by a record with
 archived sessions, over every run of the network, and for the first messages of a session
 opened from a bundle. The answer is a verdict on chain positions and identities alone,
 without MACs, keys or copies of the session.
 */
module Acceptance {
  import opened Common
  import opened Crypto
  import opened Ratchet
  import opened SkipWindow
  import opened Messages
  import opened SessionStates
  import opened X3dh
  import opened SessionCiphers
  import opened ReceiverChains
  import opened SessionRecords
  import opened Replay
  import opened Devices
  import opened RecordHistory
  import opened DeviceRuns
  import opened AtMostOnce
  import opened Network
  import opened TwoAddresses

  // ---- One session ----

  /** A message as its sender sealed it. */
  datatype Letter = Letter(chainKey: ChainKey, ratchetKey: PublicKey, previousCounter: uint32, text: Text,
                           sender: PublicKey, receiver: PublicKey)

  function MessageOf(x: Letter): Message {
    Seal(CURRENT_VERSION, MessageKeysOf(x.chainKey), x.ratchetKey, x.chainKey.index, x.previousCounter, x.text,
         x.sender, x.receiver)
  }

  /** The letter lies on the chain with this base and is between the session's identities. */
  predicate MeantFor(s: State, x: Letter, base: Secret) {
    && x.chainKey == ChainAt(KDF, base, x.chainKey.index)
    && s.remoteIdentity == Some(x.sender) && s.localIdentity == Some(x.receiver)
  }

  /** What a session says to a letter: a known chain goes by its window, an unknown ratchet key opens a chain and may
      skip at most 2000 counters; on another chain or between other identities the letter is invalid. */
  function Answer(s: State, x: Letter): Result<Text>
    requires Equipped(s)
  {
    match FindChain(s.receiverChains, x.ratchetKey)
    case Some(i) =>
      var c := s.receiverChains[i];
      (match Take(WindowOf(c), x.chainKey.index)
       case Duplicate => Err(DuplicateMessage)
       case TooFar => Err(InvalidMessage)
       case Accepted(_) => if MeantFor(s, x, BaseOf(c)) then Ok(x.text) else Err(InvalidMessage))
    case None =>
      if x.chainKey.index <= MAX_MESSAGE_KEYS && MeantFor(s, x, NewBase(s, x.ratchetKey)) then Ok(x.text)
      else Err(InvalidMessage)
  }

  function TextOf(r: Result<(State, Text)>): Result<Text> {
    match r
    case Ok((_, text)) => Ok(text)
    case Err(e) => Err(e)
  }

  /** The MAC check decides exactly whether the letter is meant for the chain position. */
  lemma MacDecides(s: State, x: Letter, base: Secret)
    requires Equipped(s)
    ensures var (m, keys) := (MessageOf(x), KeysAt(KDF, base, x.chainKey.index));
            && (MacVerifies(m, keys.macKey, s.remoteIdentity.value, s.localIdentity.value) <==> MeantFor(s, x, base))
            && (MeantFor(s, x, base) ==> DecryptBody(CURRENT_VERSION, keys, m.body) == Some(x.text))
  {
  }

  lemma AnswerOnHeldChain(s: State, x: Letter, next: nat)
    requires Sound(s) && x.chainKey.index < TWO32 - 1 && FindChain(s.receiverChains, x.ratchetKey).Some?
    ensures TextOf(Decrypted(s, MessageOf(x), next)) == Answer(s, x)
  {
    hide TakeKeys, LiesOn, Tidy, KeysAt, MacVerifies, DecryptBody, BaseOf, MeantFor, IsRoot, SendingBase, MessageKeysOf;
    var i := FindChain(s.receiverChains, x.ratchetKey).value;
    var c := s.receiverChains[i];
    assert SoundChain(c, s.rootKey.value.key);
    TakeKeysRefines(c, BaseOf(c), x.chainKey.index);
    MacDecides(s, x, BaseOf(c));
  }

  lemma AnswerOnNewChain(s: State, x: Letter, next: nat)
    requires Sound(s) && x.chainKey.index < TWO32 - 1 && FindChain(s.receiverChains, x.ratchetKey).None?
    ensures TextOf(Decrypted(s, MessageOf(x), next)) == Answer(s, x)
  {
    hide Keyed, OpenChain, LiesOn, KeysAt, MacVerifies, DecryptBody, MeantFor, IsRoot, SendingBase, MessageKeysOf;
    hide SoundChains, NewBase;
    KeyedOnNewChain(s, x.ratchetKey, x.chainKey.index, next);
    MacDecides(s, x, NewBase(s, x.ratchetKey));
  }

  /** One session: decrypting a letter gives exactly the session's answer. */
  lemma SessionAnswers(s: State, x: Letter, next: nat)
    requires Sound(s) && x.chainKey.index < TWO32 - 1
    ensures TextOf(Decrypted(s, MessageOf(x), next)) == Answer(s, x)
  {
    hide Decrypted, Answer, Sound;
    if FindChain(s.receiverChains, x.ratchetKey).Some? {
      AnswerOnHeldChain(s, x, next);
    } else {
      AnswerOnNewChain(s, x, next);
    }
  }

  /** What a session says to any message at all: the window of its chain, then the MAC over every field and both
      identities, then the ciphertext. */
  function Verdict(s: State, m: Message): Result<Text>
    requires Equipped(s)
  {
    var window := match FindChain(s.receiverChains, m.ratchetKey)
      case Some(i) => WindowOf(s.receiverChains[i])
      case None => Window(0, []);
    if m.version != 3 then Err(InvalidMessage)
    else
      match Take(window, m.counter)
      case Duplicate => Err(DuplicateMessage)
      case TooFar => Err(InvalidMessage)
      case Accepted(_) =>
        var keys := OpenedWith(s, m);
        if m.mac != Mac(keys.macKey, Some((s.remoteIdentity.value, s.localIdentity.value)), 3, m.ratchetKey, m.counter,
                        m.previousCounter, m.body) then Err(InvalidMessage)
        else if m.body == Cbc(keys.cipherKey, keys.iv, m.body.text) then Ok(m.body.text)
        else Err(Unknown)
  }

  /** One session: the exact outcome for every message. */
  lemma SessionDecides(s: State, m: Message, next: nat)
    requires Sound(s) && m.counter < TWO32 - 1
    ensures TextOf(Decrypted(s, m, next)) == Verdict(s, m)
  {
    hide TakeKeys, LiesOn, Tidy, KeysAt, BaseOf, IsRoot, SendingBase, MessageKeysOf, OpenChain;
    match FindChain(s.receiverChains, m.ratchetKey)
    case Some(i) =>
      var c := s.receiverChains[i];
      assert SoundChain(c, s.rootKey.value.key);
      TakeKeysRefines(c, BaseOf(c), m.counter);
      OnHeldChain(s, m.ratchetKey, m.counter, next, i);
    case None =>
      hide Keyed, SoundChains, NewBase;
      KeyedOnNewChain(s, m.ratchetKey, m.counter, next);
  }

  lemma OnHeldChain(s: State, their: PublicKey, counter: uint32, next: nat, i: nat)
    requires FindChain(s.receiverChains, their) == Some(i)
    ensures Keyed(s, their, counter, next)
            == match TakeKeys(s.receiverChains[i], counter)
               case Err(e) => Err(e)
               case Ok((c, keys)) => Ok((s.(receiverChains := s.receiverChains[i := c]), keys))
  {
    hide TakeKeys;
  }

  /** A new chain needs the root key, and ratchet key and chain key of the sending chain. */
  predicate CannotOpen(s: State) {
    s.rootKey.None? || s.senderChain.None? || s.senderChain.value.ratchetKeyPair.None?
    || s.senderChain.value.chainKey.None?
  }

  /** A session without a sending chain calls every message invalid, so that a record goes on to its archived ones;
      anything else that is missing is an unknown error, as it is when encrypting. */
  lemma IncompleteSession(s: State, m: Message, text: Text, next: nat)
    ensures s.senderChain.None? ==> Decrypted(s, m, next) == Err(InvalidMessage)
    ensures s.senderChain.Some? && m.version == s.version && CannotOpen(s) ==>
              (FindChain(s.receiverChains, m.ratchetKey).None? ==> Decrypted(s, m, next) == Err(Unknown))
    ensures s.senderChain.Some? && m.version == s.version && (s.remoteIdentity.None? || s.localIdentity.None?) ==>
              match Keyed(s, m.ratchetKey, m.counter, next)
              case Err(e) => Decrypted(s, m, next) == Err(e)
              case Ok(_) => Decrypted(s, m, next) == Err(Unknown)
    ensures (s.senderChain.None? || s.senderChain.value.chainKey.None? || s.senderChain.value.ratchetKeyPair.None?
             || s.localIdentity.None? || s.remoteIdentity.None?) <==> Encrypted(s, text) == Err(Unknown)
  {
    hide TakeKeys;
  }

  // ---- A record ----

  predicate AllSound(states: seq<State>) {
    forall i :: 0 <= i < |states| ==> Sound(states[i])
  }

  /** The first answer other than "invalid", the current session asked first and then the archived ones. */
  function FirstAnswer(states: seq<State>, x: Letter): Result<Text>
    requires AllSound(states)
  {
    if states == [] then Err(InvalidMessage)
    else
      var answer := Answer(states[0], x);
      if answer == Err(InvalidMessage) then FirstAnswer(states[1..], x) else answer
  }

  lemma {:induction false} ArchivedAnswer(r: Record, x: Letter, i: nat, next: nat)
    requires AllSound(r.previous) && i <= |r.previous| && x.chainKey.index < TWO32 - 1
    ensures TryArchived(r, MessageOf(x), i, next).result == FirstAnswer(r.previous[i..], x)
    decreases |r.previous| - i
  {
    hide Decrypted, Answer, Sound, DrawnByDecrypt, MessageOf;
    if i < |r.previous| {
      SessionAnswers(r.previous[i], x, next);
      assert r.previous[i..][1..] == r.previous[i + 1..];
      ArchivedAnswer(r, x, i + 1, next + DrawnByDecrypt(r.previous[i], MessageOf(x)));
    }
  }

  /** A record: the first session that does not call the letter invalid decides. */
  lemma RecordAnswers(r: Record, x: Letter, next: nat)
    requires AllSound(r.States()) && x.chainKey.index < TWO32 - 1
    ensures DecryptedFromRecord(r, MessageOf(x), next).result == FirstAnswer(r.States(), x)
  {
    hide Decrypted, Answer, Sound, DrawnByDecrypt, MessageOf;
    assert r.States()[0] == r.state && r.States()[1..] == r.previous;
    forall i | 0 <= i < |r.previous|
      ensures Sound(r.previous[i])
    {
      assert r.previous[i] == r.States()[i + 1];
    }
    SessionAnswers(r.state, x, next);
    ArchivedAnswer(r, x, 0, next + DrawnByDecrypt(r.state, MessageOf(x)));
    assert r.previous[0..] == r.previous;
  }

  // ---- Every run of the network ----

  function LetterOf(w: Net, e: Emission): Letter
    requires e.sender in w.nodes
  {
    Letter(e.chainKey, e.message.ratchetKey, e.message.previousCounter, e.text, w.nodes[e.sender].device.identity.pub,
           e.receiver)
  }

  lemma RecordIsSound(d: Device, heard: Heard, a: Address)
    requires Safe(d, heard)
    ensures AllSound(StatesAt(d, a))
  {
    hide Sound, Rooted, Spent;
    assert SafeAt(d, heard, a);
    if a in d.sessions {
      forall i | 0 <= i < |StatesAt(d, a)|
        ensures Sound(StatesAt(d, a)[i])
      {
        assert Intact(d.sessions[a].States()[i], Me(d), HeardAt(heard, a));
      }
    }
  }

  /** Delivery, over every run of the network: when a message some device has sent is delivered to any device under any
      address, with every call working and below the last counter, it is accepted if and only if the record's first
      answer other than "invalid" is its text, and this is the text handed out. */
  lemma SentIsAcceptedExactly(events: seq<NetEvent>, j: nat, k: nat)
    requires AllowedNetRun(events) && j < |events| && events[j].At? && events[j].name in NetRun(events[..j]).nodes
    requires k < |NetRun(events[..j]).sent| && events[j].event.Receive? && Works(events[j].event.f)
    requires events[j].event.message == NetRun(events[..j]).sent[k].message
    ensures var (w, e) := (NetRun(events[..j]), events[j].event);
            var (d, x) := (DeviceAt(w, events[j].name), w.sent[k]);
            && x.sender in w.nodes && AllSound(StatesAt(d, e.a))
            && AcceptedText(d, e) == match FirstAnswer(StatesAt(d, e.a), LetterOf(w, x))
                                     case Ok(text) => Some(text)
                                     case Err(_) => None
  {
    var (w, e) := (NetRun(events[..j]), events[j].event);
    var (d, x) := (DeviceAt(w, events[j].name), w.sent[k]);
    assert NetAllowed(w, events[j]);
    assert e.message.counter < TWO32 - 1 && Possible(w, e);
    NetPrefixIsAllowed(events, j);
    RunKeepsNet(events[..j]);
    hide NetRun, AllowedNetRun;
    ReadyAt(w, events[j].name, e);
    assert GoodEmission(w, x);
    assert MessageOf(LetterOf(w, x)) == e.message && x.chainKey.index == e.message.counter;
    hide GoodNet, Safe, GoodDevice, Answer, Sound, DecryptedFromRecord, MessageOf;
    RecordIsSound(d, w.nodes[events[j].name].heard, e.a);
    if e.a in d.sessions {
      assert Load(d, e.a).States() == StatesAt(d, e.a);
      RecordAnswers(Load(d, e.a), LetterOf(w, x), d.next);
    }
  }

  // ---- The first messages of a session ----

  /** A session after sending these texts. */
  function AfterTexts(s: State, texts: seq<Text>): State {
    if texts == [] then s
    else
      var s' := AfterTexts(s, texts[..|texts| - 1]);
      match Encrypted(s', texts[|texts| - 1])
      case Ok((t, _)) => t
      case Err(_) => s'
  }

  /** The text with number `n` under a session a device opens from a bundle, as a letter and as a pre-key message. */
  function OpeningLetter(d: Device, b: Bundle, n: uint32, text: Text): Letter
    requires b.signedPreKey.Some?
  {
    var base := Ratcheted(KDF, Text(KDF, AliceSecret(OpeningFor(d, b)), First),
                          Between(b.signedPreKey.value.id, d.next + 1), Second);
    Letter(ChainAt(KDF, base, n), PublicKey(d.next + 1), 0, text, d.identity.pub, b.identityKey)
  }

  function OpeningMessage(d: Device, b: Bundle, n: uint32, text: Text): PreKeyMessage
    requires b.signedPreKey.Some?
  {
    PreKeyMessage(CURRENT_VERSION, d.registrationId, if b.preKey.Some? then Some(b.preKeyId) else None,
                  b.signedPreKeyId, PublicKey(d.next), d.identity.pub, MessageOf(OpeningLetter(d, b, n, text)))
  }

  lemma {:induction false} OpenedAfterTexts(d: Device, b: Bundle, texts: seq<Text>)
    requires b.signedPreKey.Some? && |texts| < TWO32
    ensures var s := OpeningState(d, EMPTY, b);
            AfterTexts(s, texts) == s.(senderChain := Some(SenderChain(
              Some(PairOf(d.next + 1)), Some(OpeningLetter(d, b, |texts|, []).chainKey))))
  {
    if texts != [] {
      OpenedAfterTexts(d, b, texts[..|texts| - 1]);
    }
  }

  /** What a session opened from a bundle sends before it hears an answer. */
  lemma OpeningSends(d: Device, b: Bundle, texts: seq<Text>, text: Text)
    requires b.signedPreKey.Some? && |texts| < TWO32
    ensures var s := AfterTexts(OpeningState(d, EMPTY, b), texts);
            && Encrypted(s, text).Ok?
            && Encrypted(s, text).value.1 == WithPreKey(OpeningMessage(d, b, |texts|, text))
  {
    OpenedAfterTexts(d, b, texts);
    hide ChainAt, MessageKeysOf, AliceSecret;
  }

  /** The bundle is this device's: its identity, and the keys stored under the ids the message names. */
  predicate Published(d: Device, b: Bundle, p: PreKeyMessage)
    requires b.signedPreKey.Some?
  {
    && b.identityKey == d.identity.pub && HasKeysFor(d, p)
    && d.signedPreKeys[p.signedPreKeyId].priv.id == b.signedPreKey.value.id
    && (b.preKey.Some? <==> p.preKeyId.Some?)
    && (b.preKey.Some? ==> d.preKeys[p.preKeyId.value].priv.id == b.preKey.value.id)
  }

  /** With the keys of the bundle, the answering session opens the very chain the opening session sends on. */
  lemma PublishedOpensTheChain(d: Device, b: Bundle, n: uint32, text: Text, d': Device)
    requires b.signedPreKey.Some? && IsPair(d.identity) && IsPair(d'.identity)
    requires Published(d', b, OpeningMessage(d, b, n, text)) && n <= MAX_MESSAGE_KEYS
    ensures var (p, x) := (OpeningMessage(d, b, n, text), OpeningLetter(d, b, n, text));
            Sound(AnswerState(d', p)) && Answer(AnswerState(d', p), x) == Ok(text)
  {
    var (p, x) := (OpeningMessage(d, b, n, text), OpeningLetter(d, b, n, text));
    var s := AnswerState(d', p);
    AnsweringStateIsSound(d', EMPTY, p, d'.signedPreKeys[p.signedPreKeyId], OneTimeFor(d', p));
    assert BobSecret(AnswerTo(d', p)) == AliceSecret(OpeningFor(d, b));
    assert s.rootKey.value.key == Text(KDF, AliceSecret(OpeningFor(d, b)), First);
    assert x.chainKey == ChainAt(KDF, NewBase(s, x.ratchetKey), n);
    assert MeantFor(s, x, NewBase(s, x.ratchetKey));
  }

  /** The letter's origin is the opening device's agreement. */
  lemma OpeningLetterOrigin(d: Device, b: Bundle, n: uint32, text: Text)
    requires b.signedPreKey.Some?
    ensures var k := MessageOf(OpeningLetter(d, b, n, text)).mac.key;
            Origin(k) == AliceSecret(OpeningFor(d, b)) && MessageOf(OpeningLetter(d, b, n, text)).counter == n
  {
    var base := Ratcheted(KDF, Text(KDF, AliceSecret(OpeningFor(d, b)), First),
                          Between(b.signedPreKey.value.id, d.next + 1), Second);
    UnstepInverts(base, n);
  }

  /** A session that reads the letter has the letter's base key. */
  lemma ReaderHasTheBase(d: Device, b: Bundle, s: State, me: nat, macs: set<Secret>)
    requires b.signedPreKey.Some? && IsPair(d.identity) && Me(d) < d.next && b.identityKey.id < d.next && me != d.next
    requires Intact(s, me, macs) && s.remoteIdentity == Some(d.identity.pub)
    requires OriginOf(s) == AliceSecret(OpeningFor(d, b))
    ensures s.aliceBaseKey == Some(PublicKey(d.next))
  {
    hide Sound, Spent, OriginOf;
    assert AliceSecret(OpeningFor(d, b))[2] == Agreed(Between(b.identityKey.id, d.next));
  }

  /** The keys of the agreement are those of the bundle. */
  lemma SameSecretIsPublished(d: Device, b: Bundle, n: uint32, text: Text, d': Device)
    requires b.signedPreKey.Some? && IsPair(d.identity) && IsPair(d'.identity) && Me(d') != d.next
    requires HasKeysFor(d', OpeningMessage(d, b, n, text))
    requires BobSecret(AnswerTo(d', OpeningMessage(d, b, n, text))) == AliceSecret(OpeningFor(d, b))
    ensures Published(d', b, OpeningMessage(d, b, n, text))
  {
    var p := OpeningMessage(d, b, n, text);
    var (x, y) := (BobSecret(AnswerTo(d', p)), AliceSecret(OpeningFor(d, b)));
    assert x[1] == y[1] && x[2] == y[2] && x[3] == y[3] && (|x| > 4 ==> x[4] == y[4]);
    hide MessageOf, OpeningLetter;
  }

  /** The session that reads an opening message the record has no session for is the one begun with it. */
  lemma ReadByTheNewSession(d: Device, b: Bundle, n: uint32, text: Text, d': Device, heard: Heard, e: Event)
    returns (drawn: nat)
    requires b.signedPreKey.Some? && IsPair(d.identity) && Me(d) < d.next && b.identityKey.id < d.next
    requires Safe(d', heard) && d.next < d'.next && Me(d') != d.next && n < TWO32 - 1
    requires e.ReceivePreKey? && e.p == OpeningMessage(d, b, n, text) && Answers(d', e)
    ensures Decrypted(AnswerState(d', e.p), e.p.message, drawn).Ok?
    ensures BobSecret(AnswerTo(d', e.p)) == AliceSecret(OpeningFor(d, b))
    ensures AcceptedText(d', e) == Some(Decrypted(AnswerState(d', e.p), e.p.message, drawn).value.1)
  {
    ReceiveStores(d', e);
    AcceptedTextIsRead(d', e);
    var (r, m) := ReadWith(d', e).value;
    assert Parsed(e.p) && e.p.baseKey == PublicKey(d.next);
    OpeningLetterOrigin(d, b, n, text);
    ClearedIsEmpty(d', e.a);
    assert r.state == AnswerState(d', e.p) by {
      hide AnsweringState, HasSession, AcceptedKey, Step;
    }
    AnsweringOrigin(d', EMPTY, e.p);
    assert AnswerState(d', e.p).aliceBaseKey == Some(PublicKey(d.next));
    assert m == MessageOf(OpeningLetter(d, b, n, text)) && m.mac.parties == Some((d.identity.pub, b.identityKey));
    hide AnsweringState, HasSession, AcceptedKey, Step, Safe, Intact, DecryptedFromRecord, Decrypted, Answered;
    hide BobSecret, AliceSecret, MessageOf, OpeningMessage, OpeningLetter, AcceptedText, HasKeysFor, Origin;
    AnsweredIsIntact(d', heard, e.a, e.p, e.f.loads);
    var macs := Remembered(HeardAt(heard, e.a), r.States());
    var i;
    i, drawn := AcceptedByOneState(r, m, d'.next);
    var s := r.States()[i];
    AcceptKeepsState(s, Me(d'), macs, m, drawn);
    IntactNamesSender(s, Me(d'), macs, m, drawn);
    ReaderHasTheBase(d, b, s, Me(d'), macs);
    assert i == 0;
  }

  lemma IntactNamesSender(s: State, me: nat, macs: set<Secret>, m: Message, next: nat)
    requires Intact(s, me, macs) && Decrypted(s, m, next).Ok? && m.mac.parties.Some?
    ensures s.remoteIdentity == Some(m.mac.parties.value.0)
  {
    hide Decrypted, Spent, Rooted;
    AcceptedVerifies(s, m, next);
  }

  /** Opening a session, whatever sessions the two devices have already opened with each other: a message sent before
      any answer is delivered to a device that has no session for its base key, with every call working. It is accepted
      if and only if the address trusts the sender, the bundle was this device's and its keys are still stored under
      the ids the message names, and at most 2000 messages were sent before it; and then it gives its text. */
  lemma OpeningIsAnswered(d: Device, b: Bundle, texts: seq<Text>, text: Text, d': Device, heard: Heard, a: Address,
                          f: Faults)
    requires b.signedPreKey.Some? && IsPair(d.identity) && Me(d) < d.next && b.identityKey.id < d.next
    requires Safe(d', heard) && d.next < d'.next && Me(d') != d.next && |texts| < TWO32 - 1 && Works(f)
    requires !HasSession(Load(d', a), CURRENT_VERSION, PublicKey(d.next))
    ensures Encrypted(AfterTexts(OpeningState(d, EMPTY, b), texts), text).Ok?
    ensures match Encrypted(AfterTexts(OpeningState(d, EMPTY, b), texts), text).value.1
            case Plain(_) => false
            case WithPreKey(p) =>
              AcceptedText(d', ReceivePreKey(a, p, f))
              == if Trusts(d', a, d.identity.pub) && Published(d', b, p) && |texts| <= 2000 then Some(text)
                 else None
  {
    var (n, x) := (|texts|, OpeningLetter(d, b, |texts|, text));
    var e := ReceivePreKey(a, OpeningMessage(d, b, n, text), f);
    OpeningSends(d, b, texts, text);
    assert e.p.version == CURRENT_VERSION && e.p.baseKey == PublicKey(d.next) && e.p.identityKey == d.identity.pub;
    assert x.chainKey.index == n && IsPair(d'.identity) && e.p.message == MessageOf(x);
    AcceptedIsRead(d', e);
    hide AfterTexts, Encrypted, OpeningMessage, OpeningLetter, Safe, HasSession, AcceptedKey, AcceptedText, Published;
    hide Trusts, AnsweringState, Answer, Sound, Decrypted, HasKeysFor, MessageOf, BobSecret, AliceSecret, Step, Works;
    if AcceptedKey(d', e).Some? {
      AnswersNeedsKeys(d', e);
      var drawn := ReadByTheNewSession(d, b, n, text, d', heard, e);
      SameSecretIsPublished(d, b, n, text, d');
      NewSessionReads(d', e.p, x, drawn);
    } else if Trusts(d', a, d.identity.pub) && Published(d', b, e.p) && n <= MAX_MESSAGE_KEYS {
      PublishedOpensTheChain(d, b, n, text, d');
      SessionAnswers(AnswerState(d', e.p), x, d'.next);
      PublishedHasKeys(d', b, e.p);
      AnsweredIfRead(d', e);
      assert false;
    }
  }

  lemma PublishedHasKeys(d: Device, b: Bundle, p: PreKeyMessage)
    requires b.signedPreKey.Some? && Published(d, b, p)
    ensures HasKeysFor(d, p)
  {
  }

  lemma AcceptedIsRead(d: Device, e: Event)
    requires e.ReceivePreKey?
    ensures AcceptedText(d, e).Some? <==> AcceptedKey(d, e).Some?
  {
    hide PreKeyMessageDecrypted;
  }

  /** A new session has no chain yet: it reads only on the chain it opens. */
  lemma NewSessionReads(d: Device, p: PreKeyMessage, x: Letter, next: nat)
    requires HasKeysFor(d, p) && IsPair(d.identity) && p.message == MessageOf(x) && x.chainKey.index < TWO32 - 1
    requires Decrypted(AnswerState(d, p), p.message, next).Ok?
    ensures x.chainKey.index <= MAX_MESSAGE_KEYS && Decrypted(AnswerState(d, p), p.message, next).value.1 == x.text
  {
    AnsweringStateIsSound(d, EMPTY, p, d.signedPreKeys[p.signedPreKeyId], OneTimeFor(d, p));
    hide Decrypted, AnsweringState, Sound, MessageOf, MeantFor, Take;
    SessionAnswers(AnswerState(d, p), x, next);
    assert FindChain(AnswerState(d, p).receiverChains, x.ratchetKey).None?;
  }

  // ---- The calls ----

  /** What a record's outcome becomes: the application's decrypt callback and then the session store may still fail. */
  function Reported(r: Result<Text>, f: Faults): Result<Text> {
    if r.Err? then r
    else if f.decryptCallback then Err(CallbackFailed)
    else if f.sessionStore then Err(StoreFailed)
    else r
  }

  /** The exact outcome of decrypting a plain message, whatever callbacks fail; the record's new state is stored exactly
      if the text is handed out. */
  lemma PlainMessageOutcome(d: Device, a: Address, m: Message, f: Faults)
    ensures var (reply, t) := (SignalMessageDecrypted(d, a, m, f), DecryptedFromRecord(Load(d, a), m, d.next));
            && reply.result == (if f.loads.sessionContains then Err(StoreFailed)
                                else if a !in d.sessions then Err(NoSession)
                                else if f.loads.sessionLoad then Err(StoreFailed)
                                else Reported(t.result, f))
            && reply.device.sessions == (if reply.result.Ok? then d.sessions[a := t.record.(isFresh := false)]
                                         else d.sessions)
  {
    hide DecryptedFromRecord;
  }

  /** The exact outcome of decrypting a pre-key message when everything it needs can be loaded: trust comes first, then
      the keys it names if it is for a new session, then the pin, then the record, and last the removal of the one-time
      key of a new session. */
  lemma PreKeyMessageOutcome(d: Device, a: Address, p: PreKeyMessage, f: Faults)
    requires f.loads == LoadFaults(false, false, false, false, false, false, false)
    ensures var held := KnownSession(d, a, p);
            var removes := !held && p.preKeyId.Some? && p.preKeyId.value != 0xFFFFFF;
            PreKeyMessageDecrypted(d, a, p, f).result
            == if a in d.identities && d.identities[a] != p.identityKey then Err(UntrustedIdentity)
               else if !held && !HasKeysFor(d, p) then Err(InvalidKeyId)
               else if f.identitySave then Err(StoreFailed)
               else
                 var r := if held then Load(d, a) else Cleared(Load(d, a)).(state := AnswerState(d, p));
                 var reported := Reported(DecryptedFromRecord(r, p.message, d.next).result, f);
                 if reported.Ok? && removes && f.preKeyRemove then Err(StoreFailed) else reported
  {
    ClearedIsEmpty(d, a);
    KnownIsHeld(d, a, p);
    hide DecryptedFromRecord, HasSession, AnsweringState, Cleared, Load, KnownSession;
  }

  /** Some session stored for the address, current or archived, has the version and the base key of the message. */
  predicate KnownSession(d: Device, a: Address, p: PreKeyMessage) {
    exists s :: s in StatesAt(d, a) && s.version == p.version && s.aliceBaseKey == Some(p.baseKey)
  }

  lemma KnownIsHeld(d: Device, a: Address, p: PreKeyMessage)
    ensures KnownSession(d, a, p) <==> HasSession(Load(d, a), p.version, p.baseKey)
  {
    var states := Load(d, a).States();
    assert a in d.sessions ==> states == StatesAt(d, a);
    if KnownSession(d, a, p) {
      var s :| s in StatesAt(d, a) && s.version == p.version && s.aliceBaseKey == Some(p.baseKey);
      var i :| 0 <= i < |states| && states[i] == s;
    }
    if HasSession(Load(d, a), p.version, p.baseKey) {
      var i :| 0 <= i < |states| && states[i].version == p.version && states[i].aliceBaseKey == Some(p.baseKey);
      assert states[i] in states;
    }
  }

  /** The exact outcome of processing a bundle. A wrong signature or a missing signed pre key is an invalid key, and
      only after the identity is trusted; whatever callback fails before the session is stored leaves the stores as
      they were. */
  lemma BundleOutcome(d: Device, a: Address, b: Bundle, f: Faults)
    ensures var reply := BundleProcessed(d, a, b, f);
            var trusted := a in d.identities ==> d.identities[a] == b.identityKey;
            var signed := b.signedPreKey.Some? && b.signature == Signature(b.identityKey, b.signedPreKey.value);
            var stores := !f.loads.identityTrust && trusted && signed && !f.loads.sessionLoad
                          && !f.loads.identityKeyPair && !f.loads.registrationId && !f.sessionStore;
            && (reply.result == Err(UntrustedIdentity) <==> !f.loads.identityTrust && !trusted)
            && (reply.result == Err(InvalidKey) <==> !f.loads.identityTrust && trusted && !signed)
            && (reply.result.Ok? <==> stores && !f.identitySave)
            && (reply.result.Err? && reply.result.error !in {UntrustedIdentity, InvalidKey} ==>
                  reply.result == Err(StoreFailed))
            && (!stores ==> reply.device == d.(next := reply.device.next))
            && (stores ==> a in reply.device.sessions && reply.device.next == d.next + 2)
            && (reply.result.Ok? ==> reply.device.identities == d.identities[a := b.identityKey])
  {
    hide OpeningState, Cleared;
  }
}
