/**
 Over every run of a device, no message is accepted twice by a session that stays in
 its record, and every record keeps its bound and its distinct base keys.
 */
module AtMostOnce {
  import opened Common
  import opened Crypto
  import opened Ratchet
  import opened Messages
  import opened SessionStates
  import opened SessionCiphers
  import opened SkipWindow
  import opened ReceiverChains
  import opened SessionRecords
  import opened Replay
  import opened Devices
  import opened RecordHistory
  import opened DeviceRuns

  /** For every address, the MAC keys accepted by sessions that have been in its record ever since. */
  type Heard = map<Address, set<Secret>>

  function HeardAt(heard: Heard, a: Address): set<Secret> {
    if a in heard then heard[a] else {}
  }

  function HeardAfter(d: Device, heard: Heard, e: Event): Heard {
    var d' := Step(d, e);
    map a | a in d'.sessions :: Remembered(HeardAt(heard, a), d'.sessions[a].States()) + Newly(d, e, a)
  }

  function Newly(d: Device, e: Event, a: Address): set<Secret> {
    if AcceptedKey(d, e).Some? && e.a == a then {AcceptedKey(d, e).value} else {}
  }

  function HeardIn(d: Device, events: seq<Event>): Heard {
    if events == [] then map[]
    else
      var (before, last) := (events[..|events| - 1], events[|events| - 1]);
      HeardAfter(Run(d, before), HeardIn(d, before), last)
  }

  function Me(d: Device): nat {
    d.identity.pub.id
  }

  ghost predicate SafeAt(d: Device, heard: Heard, a: Address) {
    if a in d.sessions then
      IntactRecord(d.sessions[a], Me(d), HeardAt(heard, a)) && d.sessions[a].state.receiverChains != []
          && BasesBelow(d.sessions[a], d.next)
    else
      HeardAt(heard, a) == {}
  }

  /** Every session's base key has been generated already. */
  ghost predicate BasesBelow(r: Record, next: nat) {
    forall v, k :: HasSession(r, v, k) ==> k.id < next
  }

  lemma SameStatesSameBases(r: Record, r': Record, next: nat)
    requires r.States() == r'.States() && BasesBelow(r, next)
    ensures BasesBelow(r', next)
  {
    forall v, k | HasSession(r', v, k)
      ensures k.id < next
    {
      assert HasSession(r, v, k);
    }
  }

  lemma BasesWithNewSession(r: Record, s: State, next: nat, base: PublicKey)
    requires (!r.isFresh ==> BasesBelow(r, next)) && (r.isFresh ==> r.previous == []) && s.aliceBaseKey == Some(base)
    requires |r.previous| <= ARCHIVED_STATES_MAX_LENGTH
    ensures BasesBelow(Cleared(r).(state := s), if base.id < next then next else base.id + 1)
  {
    var r' := Cleared(r).(state := s);
    forall v, k | HasSession(r', v, k)
      ensures k.id < next || k == base
    {
      var i :| 0 <= i < |r'.States()| && r'.States()[i].version == v && r'.States()[i].aliceBaseKey == Some(k);
      if i > 0 {
        assert r.States()[i - 1] == r'.States()[i];
        assert HasSession(r, v, k);
      }
    }
  }

  /** What every step keeps. */
  ghost predicate Safe(d: Device, heard: Heard) {
    && d.identity == PairOf(d.identity.pub.id) && Me(d) < d.next
    && forall a :: SafeAt(d, heard, a)
  }

  lemma NothingForgotten(r: Record, me: nat, macs: set<Secret>)
    requires IntactRecord(r, me, macs)
    ensures Remembered(macs, r.States()) == macs
  {
    hide Intact;
  }

  /** An address whose record a step leaves alone. */
  lemma UntouchedStaysSafe(d: Device, heard: Heard, e: Event, a: Address)
    requires Safe(d, heard) && Newly(d, e, a) == {}
    requires var d' := Step(d, e);
             && d'.identity == d.identity && d'.next >= d.next
             && (a in d'.sessions <==> a in d.sessions)
    requires a in d.sessions ==> Step(d, e).sessions[a] == d.sessions[a]
    ensures SafeAt(Step(d, e), HeardAfter(d, heard, e), a)
  {
    hide IntactRecord, Step, AcceptedKey;
    assert SafeAt(d, heard, a);
    if a in d.sessions {
      NothingForgotten(d.sessions[a], Me(d), HeardAt(heard, a));
      assert HeardAt(heard, a) + {} == HeardAt(heard, a);
    }
  }

  lemma OneAddressChanged(d: Device, heard: Heard, e: Event, a: Address)
    requires Safe(d, heard) && OnlyAt(d, Step(d, e), a)
    requires AcceptedKey(d, e).Some? ==> e.a == a
    requires SafeAt(Step(d, e), HeardAfter(d, heard, e), a)
    ensures Safe(Step(d, e), HeardAfter(d, heard, e))
  {
    hide SafeAt, Step, AcceptedKey, HeardAfter;
    forall b
      ensures SafeAt(Step(d, e), HeardAfter(d, heard, e), b)
    {
      if b != a {
        UntouchedStaysSafe(d, heard, e, b);
      }
    }
  }

  lemma SessionsKept(d: Device, heard: Heard, e: Event)
    requires Safe(d, heard) && AcceptedKey(d, e).None?
    requires var d' := Step(d, e); d'.identity == d.identity && d'.next >= d.next && d'.sessions == d.sessions
    ensures Safe(Step(d, e), HeardAfter(d, heard, e))
  {
    hide SafeAt, Step, AcceptedKey, HeardAfter;
    forall a
      ensures SafeAt(Step(d, e), HeardAfter(d, heard, e), a)
    {
      UntouchedStaysSafe(d, heard, e, a);
    }
  }

  // ---- Encrypting ----

  /** Only the sending chain has moved, and it is still on its base. */
  predicate AfterSending(s: State, s': State) {
    && s' == s.(senderChain := s'.senderChain) && Equipped(s) && Equipped(s')
    && SendingBase(s') == SendingBase(s)
  }

  /** Advancing the sending chain does not concern what was received. */
  lemma IntactAfterSending(s: State, s': State, me: nat, macs: set<Secret>)
    requires Intact(s, me, macs) && AfterSending(s, s')
    ensures Intact(s', me, macs)
  {
    hide SoundChains, UsedUp, Depth, Origin, IsRoot, ChainBaseOf, SendingBase;
  }

  lemma RecordAfterSending(r: Record, s': State, me: nat, macs: set<Secret>)
    requires IntactRecord(r, me, macs) && AfterSending(r.state, s')
    ensures IntactRecord(r.(state := s', isFresh := false), me, macs)
  {
    hide Sound, Spent, Rooted, Equipped, SendingBase;
    var (states, states') := (r.States(), r.(state := s', isFresh := false).States());
    assert Intact(states[0], me, macs);
    IntactAfterSending(r.state, s', me, macs);
    hide Intact;
    forall i | 0 <= i < |states'|
      ensures Intact(states'[i], me, macs) && states'[i].aliceBaseKey == states[i].aliceBaseKey
      ensures OriginOf(states'[i]) == OriginOf(states[i])
    {
      assert Intact(states[i], me, macs) && (i > 0 ==> states'[i] == states[i]);
    }
    forall o | Holds(states, o)
      ensures Holds(states', o)
    {
      var i :| 0 <= i < |states| && OriginOf(states[i]) == o;
      assert OriginOf(states'[i]) == o;
    }
  }

  lemma BasesAfterSending(r: Record, s': State, next: nat)
    requires BasesBelow(r, next) && s' == r.state.(senderChain := s'.senderChain)
    ensures BasesBelow(r.(state := s', isFresh := false), next)
  {
    var r' := r.(state := s', isFresh := false);
    forall v, k | HasSession(r', v, k)
      ensures k.id < next
    {
      var i :| 0 <= i < |r'.States()| && r'.States()[i].version == v && r'.States()[i].aliceBaseKey == Some(k);
      assert r.States()[i].version == v && r.States()[i].aliceBaseKey == Some(k);
      assert HasSession(r, v, k);
    }
  }

  lemma EncryptedStaysOnBase(s: State, text: Text)
    requires Equipped(s) && Encrypted(s, text).Ok?
    ensures AfterSending(s, Encrypted(s, text).value.0)
  {
  }

  lemma EncryptKeepsSafe(d: Device, heard: Heard, e: Event)
    requires Safe(d, heard) && e.Encrypt?
    ensures Safe(Step(d, e), HeardAfter(d, heard, e))
  {
    assert AcceptedKey(d, e).None?;
    EncryptStores(d, e);
    hide SafeAt, HeardAfter, Step, AcceptedKey;
    if Step(d, e).sessions == d.sessions {
      SessionsKept(d, heard, e);
    } else {
      StoredByEncrypt(d, heard, e);
      OneAddressChanged(d, heard, e, e.a);
    }
  }

  lemma StoredByEncrypt(d: Device, heard: Heard, e: Event)
    requires Safe(d, heard) && e.Encrypt? && Step(d, e).sessions != d.sessions
    ensures SafeAt(Step(d, e), HeardAfter(d, heard, e), e.a)
  {
    assert AcceptedKey(d, e).None?;
    EncryptStores(d, e);
    hide IntactStates, Encrypted, Step, AcceptedKey, Remembered, BasesBelow;
    var (a, d', r) := (e.a, Step(d, e), Load(d, e.a));
    assert SafeAt(d, heard, a);
    var s' := Encrypted(r.state, e.text).value.0;
    assert Equipped(r.state) by {
      CurrentIsEquipped(d.sessions[a], Me(d), HeardAt(heard, a));
    }
    EncryptedStaysOnBase(r.state, e.text);
    hide Equipped, SendingBase;
    RecordAfterSending(d.sessions[a], s', Me(d), HeardAt(heard, a));
    BasesAfterSending(d.sessions[a], s', d.next);
    NothingForgotten(d'.sessions[a], Me(d), HeardAt(heard, a));
    assert HeardAt(heard, a) + {} == HeardAt(heard, a);
  }

  lemma CurrentIsEquipped(r: Record, me: nat, macs: set<Secret>)
    requires IntactRecord(r, me, macs)
    ensures Equipped(r.state)
  {
    assert Intact(r.States()[0], me, macs);
  }

  // ---- Receiving ----

  /** The step stores what decrypting with `r` left. */
  lemma AcceptedStaysSafe(d: Device, heard: Heard, e: Event, r: Record, m: Message)
    requires e.Receive? || e.ReceivePreKey?
    requires IntactRecord(r, Me(d), Remembered(HeardAt(heard, e.a), r.States())) && m.counter < TWO32 - 1
    requires AcceptedKey(d, e) == Some(m.mac.key) && DecryptedFromRecord(r, m, d.next).result.Ok?
    requires BasesBelow(r, d.next)
    requires var d' := Step(d, e);
             && d'.identity == d.identity && d'.next >= d.next && e.a in d'.sessions
             && d'.sessions[e.a] == DecryptedFromRecord(r, m, d.next).record.(isFresh := false)
    ensures m.mac.key !in HeardAt(heard, e.a)
    ensures SafeAt(Step(d, e), HeardAfter(d, heard, e), e.a)
  {
    hide AcceptedKey, Step, DecryptedFromRecord, IntactStates;
    var (macs, r') := (HeardAt(heard, e.a), DecryptedFromRecord(r, m, d.next).record);
    AcceptKeepsRecord(r, Me(d), Remembered(macs, r.States()), m, d.next);
    assert r'.(isFresh := false).States() == r'.States();
    assert Remembered(macs, r'.States()) == Remembered(macs, r.States());
    AcceptedIsHeld(r', Me(d), Remembered(macs, r.States()) + {m.mac.key}, m.mac.key);
    assert Holds(r.States(), Origin(m.mac.key));
    SameStatesSameBases(r', r'.(isFresh := false), d.next);
  }

  lemma AcceptedIsHeld(r: Record, me: nat, macs: set<Secret>, k: Secret)
    requires IntactRecord(r, me, macs) && k in macs
    ensures Holds(r.States(), Origin(k))
  {
    hide Intact;
  }

  lemma LoadedIsIntact(d: Device, heard: Heard, a: Address)
    requires Safe(d, heard) && a in d.sessions
    ensures IntactRecord(Load(d, a), Me(d), HeardAt(heard, a))
    ensures Remembered(HeardAt(heard, a), Load(d, a).States()) == HeardAt(heard, a)
    ensures BasesBelow(Load(d, a), d.next)
  {
    hide IntactStates, BasesBelow;
    assert SafeAt(d, heard, a);
    assert Load(d, a).States() == d.sessions[a].States();
    NothingForgotten(d.sessions[a], Me(d), HeardAt(heard, a));
    SameStatesSameBases(d.sessions[a], Load(d, a), d.next);
  }

  lemma ReceiveKeepsSafe(d: Device, heard: Heard, e: Event)
    requires Safe(d, heard) && e.Receive? && Allowed(d, e)
    ensures AcceptedKey(d, e).Some? ==> AcceptedKey(d, e).value !in HeardAt(heard, e.a)
    ensures Safe(Step(d, e), HeardAfter(d, heard, e))
  {
    ReceiveStores(d, e);
    assert e.message.counter < TWO32 - 1;
    hide IntactRecord, DecryptedFromRecord, HeardAfter, SafeAt, Remembered, Step, AcceptedKey, Allowed;
    if AcceptedKey(d, e).None? {
      SessionsKept(d, heard, e);
    } else {
      LoadedIsIntact(d, heard, e.a);
      AcceptedStaysSafe(d, heard, e, Load(d, e.a), e.message);
      OneAddressChanged(d, heard, e, e.a);
    }
  }

  /** The record a pre-key message is decrypted with: the loaded one, or the loaded one with a new session. */
  lemma AnsweredIsIntact(d: Device, heard: Heard, a: Address, p: PreKeyMessage, loads: LoadFaults)
    requires Safe(d, heard) && Parsed(p) && p.baseKey.id < d.next && Answered(d, Load(d, a), p, loads).Ok?
    ensures var r := Answered(d, Load(d, a), p, loads).value.0;
            IntactRecord(r, Me(d), Remembered(HeardAt(heard, a), r.States())) && BasesBelow(r, d.next)
  {
    hide AnsweringState, Remembered, IntactStates, BasesBelow;
    assert SafeAt(d, heard, a);
    var r := Load(d, a);
    if a in d.sessions {
      LoadedIsIntact(d, heard, a);
    }
    if !HasSession(r, p.version, p.baseKey) {
      var (oneTime, cleared) := (if p.preKeyId.Some? then Some(d.preKeys[p.preKeyId.value]) else None, Cleared(r));
      var s := AnsweringState(d, cleared.state, p, d.signedPreKeys[p.signedPreKeyId], oneTime);
      AnsweringStateIsSound(d, cleared.state, p, d.signedPreKeys[p.signedPreKeyId], oneTime);
      if a in d.sessions {
        NewBaseKey(r, Me(d), HeardAt(heard, a), p);
      }
      BuildKeepsRecord(r, Me(d), HeardAt(heard, a), s, cleared.(state := s));
      BasesWithNewSession(r, s, d.next, p.baseKey);
    }
  }

  lemma NewBaseKey(r: Record, me: nat, macs: set<Secret>, p: PreKeyMessage)
    requires IntactRecord(r, me, macs) && Parsed(p) && !HasSession(r, p.version, p.baseKey)
    ensures forall i :: 0 <= i < |r.States()| ==> r.States()[i].aliceBaseKey != Some(p.baseKey)
  {
    hide SoundChains, Rooted, Spent;
    forall i | 0 <= i < |r.States()|
      ensures r.States()[i].aliceBaseKey != Some(p.baseKey)
    {
      assert Intact(r.States()[i], me, macs);
    }
  }

  lemma PreKeyMessageKeepsSafe(d: Device, heard: Heard, e: Event)
    requires Safe(d, heard) && e.ReceivePreKey? && Allowed(d, e)
    ensures AcceptedKey(d, e).Some? ==> AcceptedKey(d, e).value !in HeardAt(heard, e.a)
    ensures Safe(Step(d, e), HeardAfter(d, heard, e))
  {
    ReceiveStores(d, e);
    assert Parsed(e.p) && e.p.message.counter < TWO32 - 1 && e.p.baseKey.id < d.next;
    hide IntactRecord, DecryptedFromRecord, HeardAfter, SafeAt, Remembered, Answered, Step, AcceptedKey, Allowed;
    if AcceptedKey(d, e).None? {
      SessionsKept(d, heard, e);
    } else {
      AnsweredIsIntact(d, heard, e.a, e.p, e.f.loads);
      AcceptedStaysSafe(d, heard, e, Answered(d, Load(d, e.a), e.p, e.f.loads).value.0, e.p.message);
      OneAddressChanged(d, heard, e, e.a);
    }
  }

  // ---- Opening a session from a bundle ----

  lemma BundleKeepsSafe(d: Device, heard: Heard, e: Event)
    requires Safe(d, heard) && e.ProcessBundle? && Allowed(d, e)
    ensures Safe(Step(d, e), HeardAfter(d, heard, e))
  {
    assert AcceptedKey(d, e).None?;
    BundleOnlyAt(d, e);
    hide IntactRecord, HeardAfter, SafeAt, Step, AcceptedKey, Allowed;
    if Step(d, e).sessions == d.sessions {
      SessionsKept(d, heard, e);
    } else {
      StoredByBundle(d, heard, e);
      OneAddressChanged(d, heard, e, e.a);
    }
  }

  /** The record a bundle is opened in. */
  lemma OpenedIsIntact(d: Device, heard: Heard, a: Address, b: Bundle)
    requires Safe(d, heard) && b.signedPreKey.Some? && b.identityKey.id < d.next
    ensures var r := Cleared(Load(d, a));
            var r' := r.(state := OpeningState(d, r.state, b));
            && IntactRecord(r', Me(d), Remembered(HeardAt(heard, a), r'.States()))
            && BasesBelow(r', d.next + 1) && r'.state.receiverChains != []
  {
    var (r, s) := (Load(d, a), OpeningState(d, Cleared(Load(d, a)).state, b));
    hide IntactStates, OpeningState, Remembered, Sound, Rooted, BasesBelow;
    OpeningStateIsSound(d, Cleared(r).state, b);
    assert SafeAt(d, heard, a);
    if a in d.sessions {
      LoadedIsIntact(d, heard, a);
      YoungBaseKey(r, Me(d), HeardAt(heard, a), d.next);
    }
    BuildKeepsRecord(r, Me(d), HeardAt(heard, a), s, Cleared(r).(state := s));
    BasesWithNewSession(r, s, d.next, PublicKey(d.next));
  }

  lemma BasesBelowMore(r: Record, next: nat, next': nat)
    requires BasesBelow(r, next) && next <= next'
    ensures BasesBelow(r, next')
  {
    hide HasSession;
  }

  lemma StoredByBundle(d: Device, heard: Heard, e: Event)
    requires Safe(d, heard) && e.ProcessBundle? && Allowed(d, e) && Step(d, e).sessions != d.sessions
    ensures SafeAt(Step(d, e), HeardAfter(d, heard, e), e.a)
  {
    BundleStores(d, e);
    BundleOnlyAt(d, e);
    assert AcceptedKey(d, e).None? && e.b.identityKey.id < d.next;
    hide IntactStates, OpeningState, Remembered, Step, AcceptedKey, BasesBelow, Allowed, Cleared, SafeAt;
    var (a, d', r) := (e.a, Step(d, e), Cleared(Load(d, e.a)));
    var r' := r.(state := OpeningState(d, r.state, e.b));
    OpenedIsIntact(d, heard, a, e.b);
    SameStatesSameBases(r', d'.sessions[a], d.next + 1);
    BasesBelowMore(d'.sessions[a], d.next + 1, d'.next);
    assert d'.sessions[a].States() == r'.States();
    OpenedIsSafe(d, heard, e, Remembered(HeardAt(heard, a), r'.States()));
  }

  lemma OpenedIsSafe(d: Device, heard: Heard, e: Event, macs: set<Secret>)
    requires e.ProcessBundle? && AcceptedKey(d, e).None? && e.a in Step(d, e).sessions
    requires var r := Step(d, e).sessions[e.a];
             && macs == Remembered(HeardAt(heard, e.a), r.States()) && IntactRecord(r, Me(Step(d, e)), macs)
             && BasesBelow(r, Step(d, e).next) && r.state.receiverChains != []
    ensures SafeAt(Step(d, e), HeardAfter(d, heard, e), e.a)
  {
    hide IntactRecord, Remembered, Step, AcceptedKey, BasesBelow;
    assert macs + {} == macs;
  }

  lemma YoungBaseKey(r: Record, me: nat, macs: set<Secret>, next: nat)
    requires IntactRecord(r, me, macs) && BasesBelow(r, next)
    ensures forall i :: 0 <= i < |r.States()| ==> r.States()[i].aliceBaseKey != Some(PublicKey(next))
  {
    hide SoundChains, Spent, OriginOf;
    forall i | 0 <= i < |r.States()|
      ensures r.States()[i].aliceBaseKey != Some(PublicKey(next))
    {
      assert Intact(r.States()[i], me, macs);
      assert HasSession(r, r.States()[i].version, r.States()[i].aliceBaseKey.value);
    }
  }

  // ---- Every run ----

  /** One step: an accepted message is new to every session that could have accepted it, and the invariant stays. */
  lemma StepKeepsSafe(d: Device, heard: Heard, e: Event)
    requires Safe(d, heard) && Allowed(d, e)
    ensures AcceptedKey(d, e).Some? ==> AcceptedKey(d, e).value !in HeardAt(heard, e.a)
    ensures Safe(Step(d, e), HeardAfter(d, heard, e))
  {
    hide SafeAt, HeardAfter, MessageEncrypted, SignalMessageDecrypted, PreKeyMessageDecrypted, BundleProcessed;
    match e {
      case Encrypt(_, _, _) => EncryptKeepsSafe(d, heard, e);
      case Receive(_, _, _) => ReceiveKeepsSafe(d, heard, e);
      case ReceivePreKey(_, _, _) => PreKeyMessageKeepsSafe(d, heard, e);
      case ProcessBundle(_, _, _) => BundleKeepsSafe(d, heard, e);
      case DeleteSession(a) =>
        DeletedIsSafe(d, heard, a);
        OneAddressChanged(d, heard, e, a);
      case _ => SessionsKept(d, heard, e);
    }
  }

  lemma DeletedIsSafe(d: Device, heard: Heard, a: Address)
    ensures SafeAt(Step(d, DeleteSession(a)), HeardAfter(d, heard, DeleteSession(a)), a)
  {
  }

  lemma {:induction false} RunKeepsSafe(d: Device, events: seq<Event>)
    requires Installed(d) && AllowedRun(d, events)
    ensures Safe(Run(d, events), HeardIn(d, events))
  {
    hide SafeAt, HeardAfter, Step, Allowed;
    if events == [] {
      StartIsSafe(d);
    } else {
      var (before, last) := (events[..|events| - 1], events[|events| - 1]);
      PrefixIsAllowed(d, events, |events| - 1);
      RunKeepsSafe(d, before);
      StepKeepsSafe(Run(d, before), HeardIn(d, before), last);
    }
  }

  lemma StartIsSafe(d: Device)
    requires Installed(d)
    ensures Safe(d, map[])
  {
  }

  /** The record invariant, over every run: at most forty archived states, and no two states of a record with the
      same version and base key. */
  lemma RecordsStayBounded(d: Device, events: seq<Event>, a: Address)
    requires Installed(d) && AllowedRun(d, events) && a in Run(d, events).sessions
    ensures var r := Run(d, events).sessions[a];
            && |r.previous| <= ARCHIVED_STATES_MAX_LENGTH
            && forall i, j :: 0 <= i < j < |r.States()| ==>
                 var (s, t) := (r.States()[i], r.States()[j]);
                 (s.version, s.aliceBaseKey) != (t.version, t.aliceBaseKey)
  {
    hide Run, HeardIn, Intact, AllowedRun;
    RunKeepsSafe(d, events);
    assert SafeAt(Run(d, events), HeardIn(d, events), a);
  }

  /** The lazy chains, over every run: every chain key stored by the device is its base stepped index times, every
      skipped key is the message key of the base stepped counter times, and the list is increasing and bounded. */
  lemma ChainsStayOnTheirBases(d: Device, events: seq<Event>, a: Address, i: nat, j: nat)
    requires Installed(d) && AllowedRun(d, events) && a in Run(d, events).sessions
    requires i < |StatesAt(Run(d, events), a)| && j < |StatesAt(Run(d, events), a)[i].receiverChains|
    ensures var c := StatesAt(Run(d, events), a)[i].receiverChains[j]; LiesOn(c, BaseOf(c)) && Tidy(0, WindowOf(c))
  {
    hide Run, HeardIn, AllowedRun, Rooted, Spent, LiesOn, Tidy;
    RunKeepsSafe(d, events);
    assert SafeAt(Run(d, events), HeardIn(d, events), a);
    var s := StatesAt(Run(d, events), a)[i];
    assert Intact(s, Me(Run(d, events)), HeardAt(HeardIn(d, events), a));
    assert SoundChain(s.receiverChains[j], s.rootKey.value.key);
  }

  /** A session from the agreement `o` is in the record of an address. */
  predicate StillThere(d: Device, a: Address, o: seq<Block>) {
    a in d.sessions && Holds(d.sessions[a].States(), o)
  }

  lemma HeardStays(d: Device, events: seq<Event>, j: nat, a: Address, k: Secret)
    requires 0 < j <= |events| && k in HeardAt(HeardIn(d, events[..j - 1]), a)
    requires StillThere(Run(d, events[..j]), a, Origin(k))
    ensures k in HeardAt(HeardIn(d, events[..j]), a)
  {
    hide Step, AcceptedKey, Holds;
    assert events[..j][..j - 1] == events[..j - 1];
  }

  lemma {:induction false} HeardWhileThere(d: Device, events: seq<Event>, i: nat, j: nat, a: Address, k: Secret)
    requires i < j <= |events| && k in HeardAt(HeardIn(d, events[..i + 1]), a)
    requires forall n :: i < n <= j ==> StillThere(Run(d, events[..n]), a, Origin(k))
    ensures k in HeardAt(HeardIn(d, events[..j]), a)
    decreases j
  {
    hide HeardIn, Run, StillThere, HeardAt, Origin;
    if j > i + 1 {
      HeardWhileThere(d, events, i, j - 1, a, k);
      assert StillThere(Run(d, events[..j]), a, Origin(k));
      HeardStays(d, events, j, a, k);
    }
  }

  lemma HeardAtOnce(d: Device, events: seq<Event>, i: nat, a: Address, k: Secret)
    requires i < |events| && k in Newly(Run(d, events[..i]), events[i], a)
    requires StillThere(Run(d, events[..i + 1]), a, Origin(k))
    ensures k in HeardAt(HeardIn(d, events[..i + 1]), a)
  {
    hide Step, AcceptedKey, Remembered, Holds;
    assert events[..i + 1][..i] == events[..i];
  }

  /** An accepted message is not among those heard. */
  lemma AcceptedIsNew(d: Device, events: seq<Event>, j: nat, k: Secret)
    requires Installed(d) && AllowedRun(d, events) && j < |events|
    requires AcceptedKey(Run(d, events[..j]), events[j]) == Some(k)
    ensures k !in HeardAt(HeardIn(d, events[..j]), events[j].a)
  {
    hide Step, AcceptedKey, Allowed, Safe, Run, HeardIn, HeardAt, AllowedRun;
    PrefixIsAllowed(d, events, j);
    RunKeepsSafe(d, events[..j]);
    StepIsAllowed(d, events, j);
    StepKeepsSafe(Run(d, events[..j]), HeardIn(d, events[..j]), events[j]);
  }

  /** Right after it accepts a message, the session that accepted it is in the record. */
  lemma AcceptedStaysThere(d: Device, events: seq<Event>, i: nat, a: Address, k: Secret)
    requires Installed(d) && AllowedRun(d, events) && i < |events| && k in Newly(Run(d, events[..i]), events[i], a)
    ensures StillThere(Run(d, events[..i + 1]), a, Origin(k))
  {
    var (w, e) := (Run(d, events[..i]), events[i]);
    assert (e.Receive? || e.ReceivePreKey?) && e.a == a && AcceptedKey(w, e) == Some(k) by {
      hide SignalMessageDecrypted, PreKeyMessageDecrypted;
    }
    hide Step, AcceptedKey, Allowed, Run, AllowedRun, IntactStates, Remembered;
    PrefixIsAllowed(d, events, i);
    RunKeepsSafe(d, events[..i]);
    StepIsAllowed(d, events, i);
    StepKeepsSafe(w, HeardIn(d, events[..i]), e);
    ReceiveStores(w, e);
    OneMoreStep(d, events, i);
    assert SafeAt(Step(w, e), HeardAfter(w, HeardIn(d, events[..i]), e), a);
    AcceptedIsHeld(Step(w, e).sessions[a], Me(Step(w, e)), HeardAt(HeardAfter(w, HeardIn(d, events[..i]), e), a), k);
  }

  lemma OneMoreStep(d: Device, events: seq<Event>, i: nat)
    requires i < |events|
    ensures Run(d, events[..i + 1]) == Step(Run(d, events[..i]), events[i])
  {
    hide Step;
    assert events[..i + 1][..i] == events[..i];
  }

  /** At most once: in any run, a session that accepts a message is in the record right afterwards, and if the same
      message is accepted again from the same address, then that session had left the record in between. The session
      is known by the key agreement its keys come from; the message may have been received in any form and tried with
      any of the archived states. */
  lemma AcceptedAtMostOnce(d: Device, events: seq<Event>, i: nat, j: nat, a: Address, k: Secret)
    requires Installed(d) && AllowedRun(d, events) && i < j < |events|
    ensures k in Newly(Run(d, events[..i]), events[i], a) ==> StillThere(Run(d, events[..i + 1]), a, Origin(k))
    ensures k in Newly(Run(d, events[..i]), events[i], a) && k in Newly(Run(d, events[..j]), events[j], a) ==>
              exists n :: i + 1 < n <= j && !StillThere(Run(d, events[..n]), a, Origin(k))
  {
    hide Step, Run, HeardIn, HeardAt, StillThere, Origin, AllowedRun, SignalMessageDecrypted, PreKeyMessageDecrypted;
    if k in Newly(Run(d, events[..i]), events[i], a) {
      AcceptedStaysThere(d, events, i, a, k);
      if k in Newly(Run(d, events[..j]), events[j], a) {
        AcceptedIsNew(d, events, j, k);
        if forall n :: i + 1 < n <= j ==> StillThere(Run(d, events[..n]), a, Origin(k)) {
          HeardAtOnce(d, events, i, a, k);
          HeardWhileThere(d, events, i, j, a, k);
        }
      }
    }
  }
}
