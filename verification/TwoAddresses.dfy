/**
 One message under two addresses, over every run of a device: the sessions that accept it
 come from one key agreement, and that happens only when the device answers one initiator's
 base key twice with the same keys of its own, or talks to itself.
 */
module TwoAddresses {
  import opened Common
  import opened Crypto
  import opened Messages
  import opened SessionStates
  import opened X3dh
  import opened SessionCiphers
  import opened ReceiverChains
  import opened SessionRecords
  import opened Replay
  import opened Devices
  import opened RecordHistory
  import opened DeviceRuns
  import opened AtMostOnce
  import opened OneTimeKeys
  import Network

  // ---- Where a session comes from ----

  /** The device has the keys a pre-key message names. */
  predicate HasKeysFor(d: Device, p: PreKeyMessage) {
    p.signedPreKeyId in d.signedPreKeys && (p.preKeyId.Some? ==> p.preKeyId.value in d.preKeys)
  }

  function OneTimeFor(d: Device, p: PreKeyMessage): Option<KeyPair>
    requires HasKeysFor(d, p)
  {
    if p.preKeyId.Some? then Some(d.preKeys[p.preKeyId.value]) else None
  }

  function AnswerTo(d: Device, p: PreKeyMessage): BobParameters
    requires HasKeysFor(d, p)
  {
    var signed := d.signedPreKeys[p.signedPreKeyId];
    BobParameters(d.identity, signed, OneTimeFor(d, p), signed, p.identityKey, p.baseKey)
  }

  function OpeningFor(d: Device, b: Bundle): AliceParameters
    requires b.signedPreKey.Some?
  {
    AliceParameters(d.identity, PairOf(d.next), b.identityKey, b.signedPreKey.value, b.preKey, b.signedPreKey.value)
  }

  /** The step answers a pre-key message with a new session. */
  predicate Answers(d: Device, e: Event) {
    && e.ReceivePreKey? && AcceptedKey(d, e).Some? && !HasSession(Load(d, e.a), e.p.version, e.p.baseKey)
    && HasKeysFor(d, e.p)
  }

  /** The step opens a session from a bundle. */
  predicate OpensFrom(d: Device, e: Event) {
    e.ProcessBundle? && Step(d, e).sessions != d.sessions && e.b.signedPreKey.Some?
  }

  /** The step stores a new session that comes from the agreement `o`. */
  predicate Begins(d: Device, e: Event, a: Address, o: seq<Block>) {
    || (Answers(d, e) && e.a == a && BobSecret(AnswerTo(d, e.p)) == o)
    || (OpensFrom(d, e) && e.a == a && AliceSecret(OpeningFor(d, e.b)) == o)
  }

  lemma AnsweringOrigin(d: Device, s: State, p: PreKeyMessage)
    requires HasKeysFor(d, p)
    ensures OriginOf(AnsweringState(d, s, p, d.signedPreKeys[p.signedPreKeyId], OneTimeFor(d, p)))
            == BobSecret(AnswerTo(d, p))
  {
  }

  lemma OpeningOrigin(d: Device, s: State, b: Bundle)
    requires b.signedPreKey.Some?
    ensures OriginOf(OpeningState(d, s, b)) == AliceSecret(OpeningFor(d, b))
  {
    var p := OpeningFor(d, b);
    assert Origin(Text(3, AliceSecret(p), First)) == AliceSecret(p);
  }

  lemma HeldWithNewSession(r: Record, s: State, o: seq<Block>)
    requires r.isFresh ==> r.previous == []
    requires Holds(Cleared(r).(state := s).States(), o)
    ensures OriginOf(s) == o || (!r.isFresh && Holds(r.States(), o))
  {
    hide OriginOf;
    var states' := Cleared(r).(state := s).States();
    var i :| 0 <= i < |states'| && OriginOf(states'[i]) == o;
    if i > 0 {
      assert states'[i] == r.States()[i - 1];
    }
  }

  /** A session held after a step was held before, or the step began it. */
  lemma HeldOrBegun(d: Device, heard: Heard, e: Event, a: Address, o: seq<Block>)
    requires Safe(d, heard) && Allowed(d, e) && StillThere(Step(d, e), a, o)
    ensures StillThere(d, a, o) || Begins(d, e, a, o)
  {
    hide Safe, Holds, MessageEncrypted, SignalMessageDecrypted, PreKeyMessageDecrypted, BundleProcessed, AcceptedKey;
    hide Begins, OnlyAt;
    match e {
      case Encrypt(_, _, _) => HeldAfterSending(d, e, a, o);
      case Receive(_, _, _) => HeldAfterReceiving(d, heard, e, a, o);
      case ReceivePreKey(_, _, _) => HeldAfterReceiving(d, heard, e, a, o);
      case ProcessBundle(_, _, _) => HeldAfterBundle(d, e, a, o);
      case _ =>
    }
  }

  lemma HeldAfterSending(d: Device, e: Event, a: Address, o: seq<Block>)
    requires e.Encrypt? && StillThere(Step(d, e), a, o)
    ensures StillThere(d, a, o)
  {
    EncryptStores(d, e);
    hide Step;
    if Step(d, e).sessions != d.sessions && a == e.a {
      var states' := Step(d, e).sessions[a].States();
      var i :| 0 <= i < |states'| && OriginOf(states'[i]) == o;
      assert OriginOf(d.sessions[a].States()[i]) == o;
    }
  }

  lemma HeldAfterBundle(d: Device, e: Event, a: Address, o: seq<Block>)
    requires e.ProcessBundle? && StillThere(Step(d, e), a, o)
    ensures StillThere(d, a, o) || Begins(d, e, a, o)
  {
    BundleOnlyAt(d, e);
    if Step(d, e).sessions != d.sessions && a == e.a {
      BundleStores(d, e);
      hide Step, OpeningState, Holds;
      var r := Load(d, a);
      var s := OpeningState(d, Cleared(r).state, e.b);
      assert Step(d, e).sessions[a].States() == Cleared(r).(state := s).States();
      HeldWithNewSession(r, s, o);
      OpeningOrigin(d, Cleared(r).state, e.b);
      assert a in d.sessions ==> r.States() == d.sessions[a].States();
    }
  }

  lemma HeldAfterReceiving(d: Device, heard: Heard, e: Event, a: Address, o: seq<Block>)
    requires Safe(d, heard) && Allowed(d, e) && (e.Receive? || e.ReceivePreKey?) && StillThere(Step(d, e), a, o)
    ensures StillThere(d, a, o) || Begins(d, e, a, o)
  {
    ReceiveStores(d, e);
    if AcceptedKey(d, e).Some? && a == e.a {
      AcceptedHoldsNoMore(d, heard, e, o);
      hide Step, AcceptedKey, Safe, Holds, IntactRecord, DecryptedFromRecord, Remembered, Begins, BobSecret;
      if e.Receive? {
        assert Load(d, a).States() == d.sessions[a].States();
      } else {
        HeldOrAnswered(d, e, o);
      }
    }
  }

  /** Decrypting with a record begins no session. */
  lemma AcceptedHoldsNoMore(d: Device, heard: Heard, e: Event, o: seq<Block>)
    requires Safe(d, heard) && Allowed(d, e) && (e.Receive? || e.ReceivePreKey?)
    requires AcceptedKey(d, e).Some? && StillThere(Step(d, e), e.a, o)
    ensures ReadWith(d, e).Some? && Holds(ReadWith(d, e).value.0.States(), o)
  {
    ReceiveStores(d, e);
    hide Step, AcceptedKey, Safe, Holds, IntactRecord, DecryptedFromRecord, Remembered, HasSession, Answered;
    if e.Receive? {
      LoadedIsIntact(d, heard, e.a);
    } else {
      AnsweredIsIntact(d, heard, e.a, e.p, e.f.loads);
    }
    var (r, m) := ReadWith(d, e).value;
    AcceptKeepsRecord(r, Me(d), Remembered(HeardAt(heard, e.a), r.States()), m, d.next);
    var r' := DecryptedFromRecord(r, m, d.next).record;
    assert Step(d, e).sessions[e.a].States() == r'.States();
  }

  lemma HeldOrAnswered(d: Device, e: Event, o: seq<Block>)
    requires e.ReceivePreKey? && AcceptedKey(d, e).Some? && ReadWith(d, e).Some?
    requires Holds(ReadWith(d, e).value.0.States(), o)
    ensures StillThere(d, e.a, o) || Begins(d, e, e.a, o)
  {
    hide AcceptedKey, Holds, HasSession, AnsweringState, BobSecret, Step;
    var (r, p) := (Load(d, e.a), e.p);
    assert e.a in d.sessions ==> r.States() == d.sessions[e.a].States();
    if !HasSession(r, p.version, p.baseKey) {
      var s := AnsweringState(d, Cleared(r).state, p, d.signedPreKeys[p.signedPreKeyId], OneTimeFor(d, p));
      assert ReadWith(d, e).value.0 == Cleared(r).(state := s);
      HeldWithNewSession(r, s, o);
      AnsweringOrigin(d, Cleared(r).state, p);
    } else {
      HasSessionIsStored(d, e.a, p.version, p.baseKey);
    }
  }

  lemma HasSessionIsStored(d: Device, a: Address, v: nat, k: PublicKey)
    requires HasSession(Load(d, a), v, k)
    ensures a in d.sessions
  {
  }

  /** Every session in a record was begun by a step of the run, under the same address. */
  lemma {:induction false} HeldWasBegun(d: Device, events: seq<Event>, n: nat, a: Address, o: seq<Block>)
    returns (m: nat)
    requires Installed(d) && AllowedRun(d, events) && n <= |events| && StillThere(Run(d, events[..n]), a, o)
    ensures m < n && Begins(Run(d, events[..m]), events[m], a, o)
    decreases n
  {
    hide Step, Begins, Allowed, Safe, AllowedRun;
    if n > 0 {
      PrefixIsAllowed(d, events, n - 1);
      StepIsAllowed(d, events, n - 1);
      RunKeepsSafe(d, events[..n - 1]);
      OneMoreStep(d, events, n - 1);
      HeldOrBegun(Run(d, events[..n - 1]), HeardIn(d, events[..n - 1]), events[n - 1], a, o);
      if StillThere(Run(d, events[..n - 1]), a, o) {
        m := HeldWasBegun(d, events, n - 1, a, o);
      } else {
        m := n - 1;
      }
    }
  }

  // ---- Two sessions from one agreement ----

  /** Both steps answer the same initiator's base key with the same private keys of the device. */
  predicate SameAnswer(d: Device, e: Event, d': Device, e': Event)
    requires Answers(d, e) && Answers(d', e')
  {
    && e.p.baseKey == e'.p.baseKey && e.p.identityKey == e'.p.identityKey
    && d.signedPreKeys[e.p.signedPreKeyId].priv == d'.signedPreKeys[e'.p.signedPreKeyId].priv
    && (e.p.preKeyId.Some? <==> e'.p.preKeyId.Some?)
    && (e.p.preKeyId.Some? ==> d.preKeys[e.p.preKeyId.value].priv == d'.preKeys[e'.p.preKeyId.value].priv)
  }

  /** One step opens a session with the device's own identity and signed pre key, and the other answers it. */
  predicate ToItself(d: Device, e: Event, d': Device, e': Event)
    requires OpensFrom(d, e) && Answers(d', e')
  {
    && e.b.identityKey == d.identity.pub && e'.p.identityKey == d.identity.pub && e'.p.baseKey == PublicKey(d.next)
    && e.b.signedPreKey.value.id == d'.signedPreKeys[e'.p.signedPreKeyId].priv.id
  }

  lemma AnswersAgree(d: Device, e: Event, d': Device, e': Event)
    requires Answers(d, e) && Answers(d', e') && d.identity == d'.identity
    requires BobSecret(AnswerTo(d, e.p)) == BobSecret(AnswerTo(d', e'.p))
    ensures SameAnswer(d, e, d', e')
  {
    hide AcceptedKey, HasSession;
    var (x, y) := (BobSecret(AnswerTo(d, e.p)), BobSecret(AnswerTo(d', e'.p)));
    assert x[1] == y[1] && x[2] == y[2] && x[3] == y[3] && (|x| > 4 ==> x[4] == y[4]);
  }

  lemma OpenedAndAnswered(d: Device, e: Event, d': Device, e': Event)
    requires OpensFrom(d, e) && Answers(d', e') && d.identity == d'.identity == PairOf(Me(d))
    requires Me(d) < d.next && e.b.identityKey.id < d.next
    requires AliceSecret(OpeningFor(d, e.b)) == BobSecret(AnswerTo(d', e'.p))
    ensures ToItself(d, e, d', e')
  {
    hide AcceptedKey, HasSession, Step;
    var (x, y) := (AliceSecret(OpeningFor(d, e.b)), BobSecret(AnswerTo(d', e'.p)));
    assert x[1] == y[1] && x[2] == y[2] && x[3] == y[3];
  }

  /** Base keys are new, so no two openings share an agreement. */
  lemma OpeningsDiffer(d: Device, b: Bundle, d': Device, b': Bundle)
    requires b.signedPreKey.Some? && b'.signedPreKey.Some? && d.next < d'.next
    requires b.identityKey.id < d.next && b'.identityKey.id < d'.next
    ensures AliceSecret(OpeningFor(d, b)) != AliceSecret(OpeningFor(d', b'))
  {
    assert AliceSecret(OpeningFor(d, b))[2] != AliceSecret(OpeningFor(d', b'))[2];
  }

  lemma {:induction false} IdentityStays(d: Device, events: seq<Event>, m: nat, n: nat)
    requires m <= n <= |events|
    ensures Run(d, events[..n]).identity == Run(d, events[..m]).identity
    ensures Run(d, events[..n]).next >= Run(d, events[..m]).next
    decreases n
  {
    hide Step;
    if m < n {
      IdentityStays(d, events, m, n - 1);
      OneMoreStep(d, events, n - 1);
      Network.IdentityKept(Run(d, events[..n - 1]), events[n - 1]);
    }
  }

  lemma OpeningDraws(d: Device, events: seq<Event>, m: nat, n: nat)
    requires m < n <= |events| && OpensFrom(Run(d, events[..m]), events[m])
    ensures Run(d, events[..m]).next < Run(d, events[..n]).next
  {
    BundleStores(Run(d, events[..m]), events[m]);
    OneMoreStep(d, events, m);
    hide Step, Run;
    IdentityStays(d, events, m + 1, n);
  }

  /** How two steps come to begin sessions from one agreement. */
  predicate BeginTwice(d: Device, e: Event, d': Device, e': Event) {
    || (Answers(d, e) && Answers(d', e') && SameAnswer(d, e, d', e'))
    || (OpensFrom(d, e) && Answers(d', e') && ToItself(d, e, d', e'))
    || (Answers(d, e) && OpensFrom(d', e') && ToItself(d', e', d, e))
  }

  lemma BegunTwice(d: Device, events: seq<Event>, m: nat, n: nat, a: Address, c: Address, o: seq<Block>)
    requires Installed(d) && AllowedRun(d, events) && m < n < |events|
    requires Begins(Run(d, events[..m]), events[m], a, o) && Begins(Run(d, events[..n]), events[n], c, o)
    ensures BeginTwice(Run(d, events[..m]), events[m], Run(d, events[..n]), events[n])
  {
    var (d1, e1, d2, e2) := (Run(d, events[..m]), events[m], Run(d, events[..n]), events[n]);
    assert events[..0] == [];
    IdentityStays(d, events, 0, m);
    IdentityStays(d, events, 0, n);
    StepIsAllowed(d, events, m);
    StepIsAllowed(d, events, n);
    hide Run, AllowedRun, Step, AcceptedKey, HasSession, SameAnswer, ToItself, BobSecret, AliceSecret, HasKeysFor;
    if Answers(d1, e1) && Answers(d2, e2) {
      AnswersAgree(d1, e1, d2, e2);
    } else if OpensFrom(d1, e1) && Answers(d2, e2) {
      OpenedAndAnswered(d1, e1, d2, e2);
    } else if Answers(d1, e1) {
      OpenedAndAnswered(d2, e2, d1, e1);
    } else {
      OpeningDraws(d, events, m, n);
      OpeningsDiffer(d1, e1.b, d2, e2.b);
    }
  }

  // ---- One-time keys ----

  /** The stored one-time keys have been generated. */
  predicate KeysGenerated(d: Device) {
    forall id :: id in d.preKeys ==> d.preKeys[id].priv.id < d.next
  }

  /** The private key stored under `id` is stored under another id as well. */
  predicate StoredTwice(d: Device, id: uint32) {
    id in d.preKeys && exists other :: other in d.preKeys && other != id && d.preKeys[other].priv == d.preKeys[id].priv
  }

  predicate StoresKey(d: Device, key: PrivateKey) {
    exists id :: id in d.preKeys && d.preKeys[id].priv == key
  }

  lemma StepKeepsGenerated(d: Device, e: Event, key: PrivateKey)
    requires KeysGenerated(d) && key.id < d.next
    ensures KeysGenerated(Step(d, e)) && (StoresKey(Step(d, e), key) ==> StoresKey(d, key)) && key.id < Step(d, e).next
  {
    hide Step, BuiltFrom;
    BuildingTakesTheKey(d, e);
    Network.IdentityKept(d, e);
    if e.AddPreKey? {
      AddingDraws(d, e);
    }
  }

  lemma AddingDraws(d: Device, e: Event)
    requires e.AddPreKey?
    ensures Step(d, e).next == d.next + 1
  {
  }

  lemma {:induction false} RunKeepsGenerated(d: Device, events: seq<Event>, m: nat, n: nat, key: PrivateKey)
    requires m <= n <= |events| && KeysGenerated(Run(d, events[..m])) && key.id < Run(d, events[..m]).next
    ensures KeysGenerated(Run(d, events[..n])) && key.id < Run(d, events[..n]).next
    ensures StoresKey(Run(d, events[..n]), key) ==> StoresKey(Run(d, events[..m]), key)
    decreases n
  {
    hide Step, KeysGenerated, StoresKey;
    if m < n {
      RunKeepsGenerated(d, events, m, n - 1, key);
      OneMoreStep(d, events, n - 1);
      StepKeepsGenerated(Run(d, events[..n - 1]), events[n - 1], key);
    }
  }

  /** The one-time key of an answer may be used again: its id is exempt, its removal failed, or the device has it under
      another id as well. */
  predicate KeepsTheKey(d: Device, e: Event) {
    e.ReceivePreKey? && e.p.preKeyId.Some? &&
    (e.p.preKeyId.value == PRE_KEY_MEDIUM_MAX_VALUE || e.f.preKeyRemove || StoredTwice(d, e.p.preKeyId.value))
  }

  /** Answering with a one-time key takes it away exactly unless the key may be used again. */
  lemma AnswerTakesTheKey(d: Device, e: Event)
    requires Answers(d, e) && e.p.preKeyId.Some?
    ensures StoresKey(Step(d, e), d.preKeys[e.p.preKeyId.value].priv) <==> KeepsTheKey(d, e)
  {
    hide Step, AcceptedKey, HasSession;
    BuildingTakesTheKey(d, e);
    var (id, left) := (e.p.preKeyId.value, Step(d, e).preKeys);
    if id == PRE_KEY_MEDIUM_MAX_VALUE || e.f.preKeyRemove {
      assert left[id].priv == d.preKeys[id].priv;
    } else if StoredTwice(d, id) {
      var other :| other in d.preKeys && other != id && d.preKeys[other].priv == d.preKeys[id].priv;
      assert left[other].priv == d.preKeys[id].priv;
    }
  }

  /** The second of two answers with the same one-time key needs one that may be used again. */
  lemma SecondAnswerNeedsTheKey(d: Device, events: seq<Event>, m: nat, n: nat)
    requires Installed(d) && AllowedRun(d, events) && KeysGenerated(d) && m < n < |events|
    requires var (d1, e1, d2, e2) := (Run(d, events[..m]), events[m], Run(d, events[..n]), events[n]);
             Answers(d1, e1) && Answers(d2, e2) && SameAnswer(d1, e1, d2, e2) && e1.p.preKeyId.Some?
    ensures KeepsTheKey(Run(d, events[..m]), events[m])
  {
    var (d1, e1, d2, e2) := (Run(d, events[..m]), events[m], Run(d, events[..n]), events[n]);
    assert events[..0] == [];
    var key := d1.preKeys[e1.p.preKeyId.value].priv;
    assert Run(d, events[..0]) == d;
    assert d2.preKeys[e2.p.preKeyId.value].priv == key && StoresKey(d2, key);
    hide Run, AllowedRun, Step, AcceptedKey, HasSession, StoresKey;
    RunKeepsGenerated(d, events, 0, m, PrivateKey(d.identity.pub.id));
    OneMoreStep(d, events, m);
    StepKeepsGenerated(d1, e1, key);
    RunKeepsGenerated(d, events, m + 1, n, key);
    AnswerTakesTheKey(d1, e1);
  }

  // ---- Every run ----

  /** A message accepted under two addresses, over every run: both sessions were begun from the same agreement, under
      their own addresses. Either the device answered one initiator twice, the same base key with the same private
      keys, or it opened a session with itself and answered that. If the one-time keys the device started with had
      been generated, two answers share a one-time key only if its id is exempt, its removal failed, or it was stored
      under two ids. */
  lemma AcceptedUnderTwoAddresses(d: Device, events: seq<Event>, i: nat, j: nat, a: Address, c: Address, k: Secret)
    returns (m: nat, n: nat)
    requires Installed(d) && AllowedRun(d, events) && i < |events| && j < |events| && a != c
    requires k in Newly(Run(d, events[..i]), events[i], a) && k in Newly(Run(d, events[..j]), events[j], c)
    ensures m <= i && n <= j && m != n
    ensures var (d1, e1, d2, e2) := (Run(d, events[..m]), events[m], Run(d, events[..n]), events[n]);
            && Begins(d1, e1, a, Origin(k)) && Begins(d2, e2, c, Origin(k)) && BeginTwice(d1, e1, d2, e2)
            && (KeysGenerated(d) && Answers(d1, e1) && Answers(d2, e2) && e1.p.preKeyId.Some? ==>
                  if m < n then KeepsTheKey(d1, e1) else KeepsTheKey(d2, e2))
  {
    hide Step, Run, AllowedRun, StillThere, Newly, KeysGenerated, KeepsTheKey, BobSecret, AliceSecret, SameAnswer;
    hide ToItself;
    AcceptedStaysThere(d, events, i, a, k);
    AcceptedStaysThere(d, events, j, c, k);
    m := HeldWasBegun(d, events, i + 1, a, Origin(k));
    n := HeldWasBegun(d, events, j + 1, c, Origin(k));
    assert m != n;
    OneAgreement(d, events, if m < n then m else n, if m < n then n else m, if m < n then a else c,
                 if m < n then c else a, Origin(k));
    SameAnswerIsSymmetric(Run(d, events[..m]), events[m], Run(d, events[..n]), events[n]);
  }

  lemma OneAgreement(d: Device, events: seq<Event>, m: nat, n: nat, a: Address, c: Address, o: seq<Block>)
    requires Installed(d) && AllowedRun(d, events) && m < n < |events|
    requires Begins(Run(d, events[..m]), events[m], a, o) && Begins(Run(d, events[..n]), events[n], c, o)
    ensures var (d1, e1, d2, e2) := (Run(d, events[..m]), events[m], Run(d, events[..n]), events[n]);
            && BeginTwice(d1, e1, d2, e2)
            && (Answers(d1, e1) && Answers(d2, e2) ==>
                  && (e1.p.preKeyId.Some? <==> e2.p.preKeyId.Some?)
                  && (KeysGenerated(d) && e1.p.preKeyId.Some? ==> KeepsTheKey(d1, e1)))
  {
    hide Step, Run, AllowedRun, KeysGenerated, KeepsTheKey, BobSecret, AliceSecret, ToItself, AcceptedKey, HasSession;
    hide HasKeysFor;
    BegunTwice(d, events, m, n, a, c, o);
    var (d1, e1, d2, e2) := (Run(d, events[..m]), events[m], Run(d, events[..n]), events[n]);
    if KeysGenerated(d) && Answers(d1, e1) && Answers(d2, e2) && e1.p.preKeyId.Some? {
      SecondAnswerNeedsTheKey(d, events, m, n);
    }
  }

  lemma SameAnswerIsSymmetric(d: Device, e: Event, d': Device, e': Event)
    ensures BeginTwice(d, e, d', e') <==> BeginTwice(d', e', d, e)
  {
    hide Step, AcceptedKey, HasSession;
  }

  // ---- The same pre-key message once more ----

  /** None of the calls on the way to storing the new session fails. */
  predicate Works(f: Faults) {
    && f.loads == LoadFaults(false, false, false, false, false, false, false)
    && !f.identitySave && !f.decryptCallback && !f.sessionStore
  }

  /** The keys the device would answer with are those it answered with before. */
  predicate SameKeys(d: Device, d': Device, p: PreKeyMessage) {
    && HasKeysFor(d, p) && HasKeysFor(d', p)
    && d.signedPreKeys[p.signedPreKeyId].priv == d'.signedPreKeys[p.signedPreKeyId].priv
    && (p.preKeyId.Some? ==> d.preKeys[p.preKeyId.value].priv == d'.preKeys[p.preKeyId.value].priv)
  }

  /** The new session a device answers with. */
  function AnswerState(d: Device, p: PreKeyMessage): State
    requires HasKeysFor(d, p)
  {
    AnsweringState(d, EMPTY, p, d.signedPreKeys[p.signedPreKeyId], OneTimeFor(d, p))
  }

  lemma ClearedIsEmpty(d: Device, a: Address)
    ensures Cleared(Load(d, a)).state == EMPTY
  {
  }

  /** Sessions begun with the same keys read the first message alike. */
  lemma ReadAlike(d: Device, d': Device, p: PreKeyMessage, next: nat, next': nat)
    requires d.identity == d'.identity && SameKeys(d, d', p) && p.message.counter < TWO32 - 1
    requires Decrypted(AnswerState(d, p), p.message, next).Ok?
    ensures Decrypted(AnswerState(d', p), p.message, next').Ok?
  {
    var (s, s', m) := (AnswerState(d, p), AnswerState(d', p), p.message);
    assert BobSecret(AnswerTo(d, p)) == BobSecret(AnswerTo(d', p));
    assert s.rootKey == s'.rootKey && s.localIdentity == s'.localIdentity && s.remoteIdentity == s'.remoteIdentity;
    assert NewBase(s, m.ratchetKey) == NewBase(s', m.ratchetKey);
    hide Keyed, LiesOn, MacVerifies, DecryptBody, BobSecret, OpenChain, NewBase;
    KeyedOnNewChain(s, m.ratchetKey, m.counter, next);
    KeyedOnNewChain(s', m.ratchetKey, m.counter, next');
  }

  /** The message was accepted by the session it began. */
  predicate AcceptedByAnswer(d: Device, e: Event) {
    Answers(d, e) && Origin(e.p.message.mac.key) == BobSecret(AnswerTo(d, e.p))
  }

  lemma ReadByAnswer(d: Device, heard: Heard, e: Event) returns (next: nat)
    requires Safe(d, heard) && Allowed(d, e) && AcceptedByAnswer(d, e)
    ensures Decrypted(AnswerState(d, e.p), e.p.message, next).Ok?
  {
    ReceiveStores(d, e);
    var (r, m) := ReadWith(d, e).value;
    assert Parsed(e.p) && e.p.baseKey.id < d.next && m.counter < TWO32 - 1;
    assert r.state == AnswerState(d, e.p) by {
      hide AnsweringState, HasSession, AcceptedKey, Step;
      ClearedIsEmpty(d, e.a);
    }
    AnsweringOrigin(d, EMPTY, e.p);
    hide AnsweringState, HasSession, AcceptedKey, Step, Safe, Intact, DecryptedFromRecord, Decrypted, Answered;
    hide BobSecret;
    AnsweredIsIntact(d, heard, e.a, e.p, e.f.loads);
    var macs := Remembered(HeardAt(heard, e.a), r.States());
    var i, drawn := AcceptedByOneState(r, m, d.next);
    AcceptKeepsState(r.States()[i], Me(d), macs, m, drawn);
    if i != 0 {
      OriginsDiffer(r.States(), Me(d), macs, 0, i);
    }
    next := drawn;
  }

  lemma AnsweredIfRead(d: Device, e: Event)
    requires e.ReceivePreKey? && Works(e.f) && !HasSession(Load(d, e.a), e.p.version, e.p.baseKey)
    requires Trusts(d, e.a, e.p.identityKey) && HasKeysFor(d, e.p)
    requires Decrypted(AnswerState(d, e.p), e.p.message, d.next).Ok?
    ensures Answers(d, e)
  {
    ClearedIsEmpty(d, e.a);
    hide AnsweringState, HasSession, Decrypted, Trusts, Cleared, Load;
  }

  lemma AnswersNeedsKeys(d: Device, e: Event)
    requires e.ReceivePreKey? && AcceptedKey(d, e).Some? && !HasSession(Load(d, e.a), e.p.version, e.p.baseKey)
    ensures Answers(d, e) && Trusts(d, e.a, e.p.identityKey)
  {
    hide DecryptedFromRecord, AnsweringState, HasSession, Trusts;
  }

  /** A new session for a base key the record does not know can only be the one it is read with. */
  lemma AcceptedByNewSession(d: Device, heard: Heard, e: Event, o: seq<Block>)
    requires Safe(d, heard) && Allowed(d, e) && Answers(d, e) && Origin(e.p.message.mac.key) == o
    requires |o| >= 3 && o[2] == Agreed(Between(e.p.baseKey.id, Me(d)))
    ensures AcceptedByAnswer(d, e)
  {
    ReceiveStores(d, e);
    var (r, m) := ReadWith(d, e).value;
    assert Parsed(e.p) && e.p.baseKey.id < d.next && m.counter < TWO32 - 1;
    hide AnsweringState, HasSession, AcceptedKey, Step, DecryptedFromRecord, Decrypted, Safe, Intact, BobSecret;
    hide Allowed;
    AnsweredIsIntact(d, heard, e.a, e.p, e.f.loads);
    var macs := Remembered(HeardAt(heard, e.a), r.States());
    ClearedIsEmpty(d, e.a);
    assert r.state == AnswerState(d, e.p);
    AnsweringOrigin(d, EMPTY, e.p);
    var i, drawn := AcceptedByOneState(r, m, d.next);
    AcceptKeepsState(r.States()[i], Me(d), macs, m, drawn);
    if i != 0 {
      assert Intact(r.States()[i], Me(d), macs) && Intact(r.States()[0], Me(d), macs);
      SameBaseInAgreement(r.States()[i], r.States()[0], Me(d), macs, e.p.baseKey);
    }
  }

  lemma SameBaseInAgreement(s: State, t: State, me: nat, macs: set<Secret>, base: PublicKey)
    requires Intact(s, me, macs) && Intact(t, me, macs) && t.aliceBaseKey == Some(base)
    requires OriginOf(s)[2] == Agreed(Between(base.id, me))
    ensures s.aliceBaseKey == t.aliceBaseKey
  {
    hide Sound, Spent;
  }

  /** Two points of a run: what the device answered first, it answers again exactly with the same keys. */
  lemma AnswersOnceMore(d: Device, heard: Heard, e: Event, d': Device, heard': Heard, e': Event)
    requires Safe(d, heard) && Allowed(d, e) && Safe(d', heard') && Allowed(d', e') && d.identity == d'.identity
    requires AcceptedByAnswer(d, e) && e'.ReceivePreKey? && e'.p == e.p && Works(e'.f)
    requires !HasSession(Load(d', e'.a), e'.p.version, e'.p.baseKey)
    ensures AcceptedKey(d', e').Some? <==> Trusts(d', e'.a, e'.p.identityKey) && SameKeys(d, d', e'.p)
  {
    assert e'.p.message.counter < TWO32 - 1 && IsPair(d.identity);
    hide Safe, HasSession, AcceptedKey, Trusts, Allowed, Step, Decrypted, AnsweringState, Works;
    if AcceptedKey(d', e').Some? {
      AnswersNeedsKeys(d', e');
      AcceptedByNewSession(d', heard', e', BobSecret(AnswerTo(d, e.p)));
      AnswersAgree(d, e, d', e');
    }
    if Trusts(d', e'.a, e'.p.identityKey) && SameKeys(d, d', e'.p) {
      var next := ReadByAnswer(d, heard, e);
      ReadAlike(d, d', e'.p, next, d'.next);
      AnsweredIfRead(d', e');
    }
  }

  /** When exactly it happens: a pre-key message that began a session is delivered once more, under any address whose
      record holds no session for its base key and with every call working. It is accepted again if and only if the
      address trusts the initiator and the device still has, under the same ids, the private keys it answered with. */
  lemma AcceptedOnceMore(d: Device, events: seq<Event>, i: nat, j: nat)
    requires Installed(d) && AllowedRun(d, events) && i < |events| && j < |events|
    requires AcceptedByAnswer(Run(d, events[..i]), events[i])
    requires events[j].ReceivePreKey? && events[j].p == events[i].p && Works(events[j].f)
    requires !HasSession(Load(Run(d, events[..j]), events[j].a), events[j].p.version, events[j].p.baseKey)
    ensures var (d1, d2, e) := (Run(d, events[..i]), Run(d, events[..j]), events[j]);
            AcceptedKey(d2, e).Some? <==> Trusts(d2, e.a, e.p.identityKey) && SameKeys(d1, d2, e.p)
  {
    hide Run, AllowedRun, Safe, HasSession, AcceptedKey, Trusts, Allowed, HeardIn, AcceptedByAnswer, SameKeys, Works;
    PrefixIsAllowed(d, events, i);
    PrefixIsAllowed(d, events, j);
    StepIsAllowed(d, events, i);
    StepIsAllowed(d, events, j);
    RunKeepsSafe(d, events[..i]);
    RunKeepsSafe(d, events[..j]);
    assert events[..0] == [];
    IdentityStays(d, events, 0, i);
    IdentityStays(d, events, 0, j);
    AnswersOnceMore(Run(d, events[..i]), HeardIn(d, events[..i]), events[i], Run(d, events[..j]),
                    HeardIn(d, events[..j]), events[j]);
  }
}
