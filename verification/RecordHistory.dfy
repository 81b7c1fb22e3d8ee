/**
 What every call keeps of a session record: at most forty archived states, no two
 states for the same base key, all derived from different key agreements, and none that
 would accept again a message accepted by a session the record still holds.
 */
module RecordHistory {
  import opened Common
  import opened Crypto
  import opened Ratchet
  import opened SkipWindow
  import opened Messages
  import opened SessionStates
  import opened X3dh
  import opened SessionCiphers
  import opened ReceiverChains
  import opened SessionRecords
  import opened Replay
  import opened Devices

  /** The key agreement a session came from. */
  function OriginOf(s: State): seq<Block> {
    if s.rootKey.Some? then Origin(s.rootKey.value.key) else []
  }

  /** The session's agreement of base key and identity. The responder's is with its own identity `me`; the
      initiator's base key is younger than both identities. */
  predicate Rooted(s: State, me: nat) {
    && s.aliceBaseKey.Some? && s.remoteIdentity.Some? && |OriginOf(s)| >= 3
    && var (base, remote) := (s.aliceBaseKey.value.id, s.remoteIdentity.value.id);
       || OriginOf(s)[2] == Agreed(Between(base, me))
       || (OriginOf(s)[2] == Agreed(Between(base, remote)) && base > remote && base > me)
  }

  /** Sessions with different base keys come from different key agreements. */
  lemma DifferentBasesDifferentOrigins(s: State, t: State, me: nat)
    requires Rooted(s, me) && Rooted(t, me) && s.aliceBaseKey != t.aliceBaseKey
    ensures OriginOf(s) != OriginOf(t)
  {
  }

  /** The name of the key behind a MAC key. */
  function NameOf(k: Secret): KeyName {
    match k
    case MessagePart(_, Hmac(chain, 1), _) => KeyName(Unstep(chain).0, Unstep(chain).1)
    case _ => KeyName(k, 0)
  }

  lemma NameOfMacKey(base: Secret, counter: uint32)
    requires IsBase(base)
    ensures NameOf(KeysAt(KDF, base, counter).macKey) == KeyName(base, counter)
    ensures Origin(KeysAt(KDF, base, counter).macKey) == Origin(base)
  {
    UnstepInverts(base, counter);
  }

  /** The keys accepted by the session that came from agreement `o`. */
  function Names(macs: set<Secret>, o: seq<Block>): set<KeyName> {
    set k | k in macs && Origin(k) == o :: NameOf(k)
  }

  predicate Holds(states: seq<State>, o: seq<Block>) {
    exists i :: 0 <= i < |states| && OriginOf(states[i]) == o
  }

  /** What a session state satisfies between calls, given the MAC keys of the messages accepted so far. */
  ghost predicate Intact(s: State, me: nat, macs: set<Secret>) {
    && Sound(s) && Rooted(s, me)
    && Spent(s, Names(macs, OriginOf(s)))
  }

  /** The states of a record, given the MAC keys of the messages accepted by sessions it still holds. */
  ghost predicate IntactStates(states: seq<State>, me: nat, macs: set<Secret>) {
    && (forall i :: 0 <= i < |states| ==> Intact(states[i], me, macs))
    && (forall i, j :: 0 <= i < j < |states| ==> states[i].aliceBaseKey != states[j].aliceBaseKey)
    && forall k :: k in macs ==> Holds(states, Origin(k))
  }

  ghost predicate IntactRecord(r: Record, me: nat, macs: set<Secret>) {
    |r.previous| <= ARCHIVED_STATES_MAX_LENGTH && IntactStates(r.States(), me, macs)
  }

  /** The accepted keys of sessions among these states. */
  function Remembered(macs: set<Secret>, states: seq<State>): set<Secret> {
    set k | k in macs && Holds(states, Origin(k))
  }

  lemma OriginsDiffer(states: seq<State>, me: nat, macs: set<Secret>, i: nat, j: nat)
    requires IntactStates(states, me, macs) && i < |states| && j < |states| && i != j
    ensures OriginOf(states[i]) != OriginOf(states[j])
  {
    hide Sound, Spent;
    assert Intact(states[i], me, macs) && Intact(states[j], me, macs);
    DifferentBasesDifferentOrigins(states[i], states[j], me);
  }

  /** A state does not notice accepted keys of another session. */
  lemma IntactElsewhere(s: State, me: nat, macs: set<Secret>, macs': set<Secret>)
    requires Intact(s, me, macs)
    requires forall k :: k in macs' && Origin(k) == OriginOf(s) ==> k in macs
    ensures Intact(s, me, macs')
  {
    hide Rooted, Sound;
    assert Names(macs', OriginOf(s)) <= Names(macs, OriginOf(s));
  }

  /** One state accepting a message: its MAC key is not among the remembered ones, and it is from then on. */
  lemma AcceptKeepsState(s: State, me: nat, macs: set<Secret>, m: Message, next: nat)
    requires Intact(s, me, macs) && m.counter < TWO32 - 1 && Decrypted(s, m, next).Ok?
    ensures var s' := Decrypted(s, m, next).value.0;
            && m.mac.key !in macs && Origin(m.mac.key) == OriginOf(s)
            && Intact(s', me, macs + {m.mac.key})
            && SameSession(s, s') && s'.receiverChains != []
  {
    hide Decrypted, SoundChains, Spent, KeysAt, Depth, Rooted;
    var (o, s', x) := (OriginOf(s), Decrypted(s, m, next).value.0, KeyFor(s, m));
    AcceptedKeyIsNew(s, m, next, Names(macs, o));
    RootedStays(s, s', me);
    KeyForOrigin(s, m);
    NameOfMacKey(x.base, m.counter);
    assert Names(macs + {m.mac.key}, o) == Names(macs, o) + {x};
  }

  lemma KeyForOrigin(s: State, m: Message)
    requires Sound(s)
    ensures IsBase(KeyFor(s, m).base) && Origin(KeyFor(s, m).base) == OriginOf(s)
    ensures KeyFor(s, m).counter == m.counter
  {
    hide LiesOn, Tidy, Depth;
    match FindChain(s.receiverChains, m.ratchetKey)
    case Some(i) =>
      assert SoundChain(s.receiverChains[i], s.rootKey.value.key);
      SoundBase(s.receiverChains[i], s.rootKey.value.key);
    case None =>
  }

  lemma RootedStays(s: State, s': State, me: nat)
    requires Rooted(s, me) && SameSession(s, s')
    ensures Rooted(s', me)
  {
  }

  /** Some state accepting a message keeps the record: the message's MAC key is new to it. */
  lemma AcceptKeepsStates(states: seq<State>, me: nat, macs: set<Secret>, m: Message, next: nat, i: nat,
                          states': seq<State>)
    requires IntactStates(states, me, macs) && m.counter < TWO32 - 1
    requires i < |states| && Decrypted(states[i], m, next).Ok?
    requires states' == [Decrypted(states[i], m, next).value.0] + RemoveAt(states, i)
    ensures m.mac.key !in macs && IntactStates(states', me, macs + {m.mac.key})
    ensures states'[0].receiverChains != [] && forall o :: Holds(states', o) <==> Holds(states, o)
  {
    hide Decrypted, Intact;
    var macs' := macs + {m.mac.key};
    AcceptKeepsState(states[i], me, macs, m, next);
    forall j | 0 <= j < |states'|
      ensures Intact(states'[j], me, macs')
    {
      if j > 0 {
        var q := if j - 1 < i then j - 1 else j;
        OriginsDiffer(states, me, macs, i, q);
        IntactElsewhere(states[q], me, macs, macs');
      }
    }
    forall o
      ensures Holds(states', o) <==> Holds(states, o)
    {
      StillHeld(states, states', i, o);
    }
    assert Holds(states, OriginOf(states[i]));
  }

  lemma StillHeld(states: seq<State>, states': seq<State>, i: nat, o: seq<Block>)
    requires i < |states| && |states'| == |states| && states'[1..] == RemoveAt(states, i)
    requires OriginOf(states'[0]) == OriginOf(states[i])
    ensures Holds(states', o) <==> Holds(states, o)
  {
    hide OriginOf;
    if Holds(states, o) {
      var j :| 0 <= j < |states| && OriginOf(states[j]) == o;
      var q := if j == i then 0 else if j < i then j + 1 else j;
      assert OriginOf(states'[q]) == o;
    }
    if Holds(states', o) {
      var q :| 0 <= q < |states'| && OriginOf(states'[q]) == o;
      var j := if q == 0 then i else if q - 1 < i then q - 1 else q;
      assert OriginOf(states[j]) == o;
    }
  }

  /** At most once, for a record with archived sessions: a message it accepts has a MAC key that no message accepted
      by a session it still holds ever had. Every session stays, and the record keeps its invariant. */
  lemma AcceptKeepsRecord(r: Record, me: nat, macs: set<Secret>, m: Message, next: nat)
    requires IntactRecord(r, me, macs) && m.counter < TWO32 - 1 && DecryptedFromRecord(r, m, next).result.Ok?
    ensures var r' := DecryptedFromRecord(r, m, next).record;
            && m.mac.key !in macs
            && IntactRecord(r', me, macs + {m.mac.key})
            && r'.state.receiverChains != []
            && (forall o :: Holds(r'.States(), o) <==> Holds(r.States(), o))
            && (forall v, k :: HasSession(r, v, k) <==> HasSession(r', v, k))
  {
    hide Decrypted, DecryptedFromRecord, IntactStates, HasSession;
    var r' := DecryptedFromRecord(r, m, next).record;
    var i, drawn := AcceptedByOneState(r, m, next);
    AcceptKeepsStates(r.States(), me, macs, m, drawn, i, r'.States());
    forall v, k
      ensures HasSession(r, v, k) <==> HasSession(r', v, k)
    {
      SameSessionsHeld(r, me, macs, m, drawn, i, r', v, k);
    }
  }

  lemma SameSessionsHeld(r: Record, me: nat, macs: set<Secret>, m: Message, next: nat, i: nat, r': Record, v: nat,
                         k: PublicKey)
    requires IntactStates(r.States(), me, macs) && m.counter < TWO32 - 1
    requires i < |r.States()| && Decrypted(r.States()[i], m, next).Ok?
    requires Replaced(r, i, Decrypted(r.States()[i], m, next).value.0, r')
    ensures HasSession(r, v, k) <==> HasSession(r', v, k)
  {
    hide Decrypted, Intact;
    var (states, states') := (r.States(), r'.States());
    AcceptKeepsState(states[i], me, macs, m, next);
    if HasSession(r, v, k) {
      var j :| 0 <= j < |states| && states[j].version == v && states[j].aliceBaseKey == Some(k);
      var q := if j == i then 0 else if j < i then j + 1 else j;
      assert states'[q].version == v && states'[q].aliceBaseKey == Some(k);
    }
    if HasSession(r', v, k) {
      var q :| 0 <= q < |states'| && states'[q].version == v && states'[q].aliceBaseKey == Some(k);
      var j := if q == 0 then i else if q - 1 < i then q - 1 else q;
      assert states[j].version == v && states[j].aliceBaseKey == Some(k);
    }
  }

  // ---- New sessions ----

  /** A new session in front of the record, the oldest archived state dropped if there were forty. */
  lemma BuildKeepsRecord(r: Record, me: nat, macs: set<Secret>, s: State, r': Record)
    requires r.isFresh ==> macs == {}
    requires !r.isFresh ==> IntactRecord(r, me, macs)
    requires r' == Cleared(r).(state := s) && (r.isFresh ==> r.previous == [])
    requires Sound(s) && Rooted(s, me)
    requires !r.isFresh ==> forall i :: 0 <= i < |r.States()| ==> r.States()[i].aliceBaseKey != s.aliceBaseKey
    ensures IntactRecord(r', me, Remembered(macs, r'.States()))
  {
    var (states', macs') := (r'.States(), Remembered(macs, r'.States()));
    assert !r.isFresh ==> states' == [s] + FirstN(r.States(), ARCHIVED_STATES_MAX_LENGTH);
    hide Sound, Rooted, Remembered;
    assert Intact(s, me, macs') by {
      NothingSpentYet(r, me, macs, s, states');
    }
    forall i | 0 < i < |states'|
      ensures Intact(states'[i], me, macs')
    {
      assert states'[i] == r.States()[i - 1];
      RememberedIsOld(macs, states');
      IntactElsewhere(r.States()[i - 1], me, macs, macs');
    }
    RememberedIsOld(macs, states');
  }

  lemma RememberedIsOld(macs: set<Secret>, states: seq<State>)
    ensures Remembered(macs, states) <= macs
    ensures forall k :: k in Remembered(macs, states) ==> Holds(states, Origin(k))
  {
  }

  lemma NothingSpentYet(r: Record, me: nat, macs: set<Secret>, s: State, states': seq<State>)
    requires r.isFresh ==> macs == {}
    requires !r.isFresh ==> IntactStates(r.States(), me, macs)
    requires Sound(s) && Rooted(s, me)
    requires !r.isFresh ==> forall i :: 0 <= i < |r.States()| ==> r.States()[i].aliceBaseKey != s.aliceBaseKey
    ensures Intact(s, me, Remembered(macs, states'))
  {
    hide Sound, Rooted;
    forall k | k in macs
      ensures Origin(k) != OriginOf(s)
    {
      var i :| 0 <= i < |r.States()| && OriginOf(r.States()[i]) == Origin(k);
      assert Intact(r.States()[i], me, macs);
      DifferentBasesDifferentOrigins(r.States()[i], s, me);
    }
    assert Names(Remembered(macs, states'), OriginOf(s)) == {};
    SoundIsEquipped(s);
  }

  lemma SoundIsEquipped(s: State)
    requires Sound(s)
    ensures Equipped(s)
  {
  }

  /** The responder's new session. */
  lemma AnsweringStateIsSound(d: Device, s: State, p: PreKeyMessage, signed: KeyPair, oneTime: Option<KeyPair>)
    requires s.receiverChains == [] && IsPair(d.identity)
    ensures var s' := AnsweringState(d, s, p, signed, oneTime);
            Sound(s') && Rooted(s', d.identity.pub.id) && s'.receiverChains == [] && s'.aliceBaseKey == Some(p.baseKey)
  {
  }

  /** The initiator's new session. */
  lemma OpeningStateIsSound(d: Device, s: State, b: Bundle)
    requires s.receiverChains == [] && IsPair(d.identity) && b.signedPreKey.Some?
    requires d.identity.pub.id < d.next && b.identityKey.id < d.next
    ensures var s' := OpeningState(d, s, b);
            && Sound(s') && Rooted(s', d.identity.pub.id) && |s'.receiverChains| == 1
            && s'.aliceBaseKey == Some(PublicKey(d.next))
            && s'.senderChain.value.ratchetKeyPair == Some(PairOf(d.next + 1))
            && s'.senderChain.value.chainKey.value.index == 0
  {
    hide Tidy;
    var s' := OpeningState(d, s, b);
    var p := AliceParameters(d.identity, PairOf(d.next), b.identityKey, b.signedPreKey.value, b.preKey,
                             b.signedPreKey.value);
    var base := Text(KDF, AliceSecret(p), Second);
    var c := ReceiverChain(b.signedPreKey.value, ChainKey(KDF, base, 0), []);
    assert s'.receiverChains == [c];
    NewChainLiesOn(b.signedPreKey.value, base);
    assert s'.rootKey.value.key
        == Ratcheted(KDF, Text(KDF, AliceSecret(p), First), Between(b.signedPreKey.value.id, d.next + 1), First);
    var first := Text(KDF, AliceSecret(p), First);
    assert Origin(first) == AliceSecret(p) && Depth(first) == 0 && IsRoot(first);
    assert Depth(s'.rootKey.value.key) == 1;
    assert IsRoot(s'.rootKey.value.key);
    assert SendingBase(s') == ChainBaseOf(s'.rootKey.value.key);
    assert ReceivedBefore(base, s'.rootKey.value.key);
    assert SoundChain(c, s'.rootKey.value.key) by {
      BaseOfLiesOn(c, base);
      EmptyIsTidy();
    }
    AgreementCommutes(d.next, b.identityKey.id);
  }

  lemma EmptyIsTidy()
    ensures Tidy(0, Window(0, []))
  {
  }
}
