/**
 How long a session stays: building a session keeps the forty newest of the others, and over
 every run a session leaves its record only when the application deletes the record, or as the
 oldest of forty archived ones when another session is built.
 */
module Lifetimes {
  import opened Common
  import opened Crypto
  import opened Messages
  import opened SessionStates
  import opened SessionCiphers
  import opened SessionRecords
  import opened Replay
  import opened Devices
  import opened RecordHistory
  import opened DeviceRuns
  import opened AtMostOnce
  import TwoAddresses
  import X3dh

  // ---- What building a session keeps ----

  /** The forty newest of these sessions. */
  function Newest(states: seq<State>): (r: seq<State>)
    ensures |r| == if |states| <= 40 then |states| else 40
    ensures forall i :: 0 <= i < |r| ==> r[i] == states[i]
  {
    if |states| <= 40 then states else states[..40]
  }

  /** A stored bundle: the new session is in front of the forty newest others, which are as they were. */
  lemma BundleKeepsOlder(d: Device, e: Event)
    requires e.ProcessBundle? && Step(d, e).sessions != d.sessions
    ensures e.a in Step(d, e).sessions
    ensures StatesAt(Step(d, e), e.a)[1..] == Newest(StatesAt(d, e.a))
    ensures StatesAt(Step(d, e), e.a)[0].aliceBaseKey == Some(PublicKey(d.next))
  {
    BundleStores(d, e);
    hide Step;
    var r := Load(d, e.a);
    assert e.a in d.sessions ==> r.States() == StatesAt(d, e.a);
  }

  /** The record a pre-key message is read with: the stored one if it has a session for the base key; otherwise a new
      session in front of the forty newest others, which are as they were. */
  lemma AnsweredKeepsOlder(d: Device, a: Address, p: PreKeyMessage, loads: LoadFaults)
    requires Answered(d, Load(d, a), p, loads).Ok?
    ensures var states := Answered(d, Load(d, a), p, loads).value.0.States();
            if HasSession(Load(d, a), p.version, p.baseKey) then states == StatesAt(d, a)
            else states[1..] == Newest(StatesAt(d, a)) && states[0].aliceBaseKey == Some(p.baseKey)
  {
    hide HasSession;
    var r := Load(d, a);
    assert a in d.sessions ==> r.States() == StatesAt(d, a);
    if HasSession(r, p.version, p.baseKey) {
      TwoAddresses.HasSessionIsStored(d, a, p.version, p.baseKey);
    }
  }

  // ---- One step ----

  /** The step stores a new session in the record of an address. */
  predicate BuildsAt(d: Device, e: Event, a: Address) {
    || (e.ProcessBundle? && e.a == a && Step(d, e).sessions != d.sessions)
    || (e.ReceivePreKey? && e.a == a && AcceptedKey(d, e).Some? && !HasSession(Load(d, a), e.p.version, e.p.baseKey))
  }

  /** The session from the agreement `o` is the oldest of forty archived ones. */
  predicate OldestOfForty(d: Device, a: Address, o: seq<Block>) {
    |StatesAt(d, a)| == 41 && OriginOf(StatesAt(d, a)[40]) == o
  }

  /** Of the sessions of a record, a new one in front leaves out the oldest of forty archived ones. */
  lemma HeldAfterBuilding(states: seq<State>, s: State, me: nat, macs: set<Secret>, o: seq<Block>)
    requires IntactStates(states, me, macs) && Rooted(s, me) && |states| <= 41 && Holds(states, o)
    requires forall i :: 0 <= i < |states| ==> states[i].aliceBaseKey != s.aliceBaseKey
    ensures Holds([s] + Newest(states), o) <==> !(|states| == 41 && OriginOf(states[40]) == o)
  {
    hide Sound, Spent, OriginOf, Rooted;
    var states' := [s] + Newest(states);
    var i :| 0 <= i < |states| && OriginOf(states[i]) == o;
    if i < 40 {
      assert OriginOf(states'[i + 1]) == o;
    } else {
      assert Intact(states[40], me, macs);
      DifferentBasesDifferentOrigins(states[40], s, me);
    }
    forall j | 0 <= j < |states| && j != i
      ensures OriginOf(states[j]) != o
    {
      OriginsDiffer(states, me, macs, i, j);
    }
    forall j | 0 <= j < |states'| && OriginOf(states'[j]) == o
      ensures i < 40
    {
      if j == 0 {
        assert Intact(states[i], me, macs);
        DifferentBasesDifferentOrigins(states[i], s, me);
      } else {
        assert states'[j] == states[j - 1];
      }
    }
  }

  lemma LeavesOnBundle(d: Device, heard: Heard, e: Event, o: seq<Block>)
    requires Safe(d, heard) && Allowed(d, e) && e.ProcessBundle? && StillThere(d, e.a, o)
    requires Step(d, e).sessions != d.sessions
    ensures !StillThere(Step(d, e), e.a, o) <==> OldestOfForty(d, e.a, o)
  {
    var (a, states') := (e.a, StatesAt(Step(d, e), e.a));
    assert e.b.identityKey.id < d.next;
    BundleKeepsOlder(d, e);
    BundleStores(d, e);
    hide Step, IntactStates, OpeningState, OriginOf, Rooted, Holds, BasesBelow, Sound, Allowed, Trusts;
    assert SafeAt(d, heard, a);
    OpeningStateIsSound(d, Cleared(Load(d, a)).state, e.b);
    LoadedIsIntact(d, heard, a);
    assert Load(d, a).States() == StatesAt(d, a);
    YoungBaseKey(Load(d, a), Me(d), HeardAt(heard, a), d.next);
    assert states' == [states'[0]] + Newest(StatesAt(d, a));
    HeldAfterBuilding(StatesAt(d, a), states'[0], Me(d), HeardAt(heard, a), o);
  }

  /** A record keeps its sessions when it accepts a message. */
  lemma LeavesOnReceipt(d: Device, heard: Heard, e: Event, o: seq<Block>)
    requires Safe(d, heard) && Allowed(d, e) && (e.Receive? || e.ReceivePreKey?) && AcceptedKey(d, e).Some?
    ensures ReadWith(d, e).Some? && (StillThere(Step(d, e), e.a, o) <==> Holds(ReadWith(d, e).value.0.States(), o))
  {
    ReceiveStores(d, e);
    hide Step, AcceptedKey, Safe, Holds, IntactRecord, DecryptedFromRecord, Remembered, HasSession, Answered;
    if e.Receive? {
      LoadedIsIntact(d, heard, e.a);
    } else {
      AnsweredIsIntact(d, heard, e.a, e.p, e.f.loads);
    }
    var (r, m) := ReadWith(d, e).value;
    AcceptKeepsRecord(r, Me(d), Remembered(HeardAt(heard, e.a), r.States()), m, d.next);
    var r' := DecryptedFromRecord(r, m, d.next).record;
    assert Step(d, e).sessions[e.a].States() == r'.States();
  }

  lemma LeavesOnAnswer(d: Device, heard: Heard, e: Event, o: seq<Block>)
    requires Safe(d, heard) && Allowed(d, e) && e.ReceivePreKey? && StillThere(d, e.a, o)
    requires AcceptedKey(d, e).Some? && !HasSession(Load(d, e.a), e.p.version, e.p.baseKey)
    ensures !StillThere(Step(d, e), e.a, o) <==> OldestOfForty(d, e.a, o)
  {
    var (a, p) := (e.a, e.p);
    assert Parsed(p) && p.baseKey.id < d.next;
    LeavesOnReceipt(d, heard, e, o);
    AnsweredKeepsOlder(d, a, p, e.f.loads);
    var states' := ReadWith(d, e).value.0.States();
    assert Rooted(states'[0], Me(d)) by {
      hide Step, AcceptedKey, HasSession, SafeAt, OriginOf;
      AnsweringStateIsSound(d, Cleared(Load(d, a)).state, p, d.signedPreKeys[p.signedPreKeyId],
                            TwoAddresses.OneTimeFor(d, p));
    }
    hide Step, IntactStates, OriginOf, Rooted, Holds, BasesBelow, AcceptedKey, Allowed, ReadWith, HasSession, SafeAt;
    LoadedIsIntact(d, heard, a);
    assert Load(d, a).States() == StatesAt(d, a);
    NewBaseKey(Load(d, a), Me(d), HeardAt(heard, a), p);
    assert states' == [states'[0]] + Newest(StatesAt(d, a));
    HeldAfterBuilding(StatesAt(d, a), states'[0], Me(d), HeardAt(heard, a), o);
  }

  /** Exactly when a session leaves its record at a step. */
  predicate Leaves(d: Device, e: Event, a: Address, o: seq<Block>) {
    e == DeleteSession(a) || (BuildsAt(d, e, a) && OldestOfForty(d, a, o))
  }

  lemma StepLeavesExactly(d: Device, heard: Heard, e: Event, a: Address, o: seq<Block>)
    requires Safe(d, heard) && Allowed(d, e) && StillThere(d, a, o)
    ensures !StillThere(Step(d, e), a, o) <==> Leaves(d, e, a, o)
  {
    hide Safe, Holds, MessageEncrypted, SignalMessageDecrypted, PreKeyMessageDecrypted, BundleProcessed, AcceptedKey;
    hide OldestOfForty, Answered, HasSession, DecryptedFromRecord;
    match e {
      case Encrypt(_, _, _) => HeldAfterSending(d, e, a, o);
      case Receive(_, _, _) =>
        ReceiveStores(d, e);
        if AcceptedKey(d, e).Some? && a == e.a {
          LeavesOnReceipt(d, heard, e, o);
          assert Load(d, a).States() == d.sessions[a].States();
        }
      case ReceivePreKey(_, p, f) =>
        ReceiveStores(d, e);
        if AcceptedKey(d, e).Some? && a == e.a {
          if HasSession(Load(d, a), p.version, p.baseKey) {
            LeavesOnReceipt(d, heard, e, o);
            AnsweredKeepsOlder(d, a, p, f.loads);
          } else {
            LeavesOnAnswer(d, heard, e, o);
          }
        }
      case ProcessBundle(_, _, _) =>
        BundleOnlyAt(d, e);
        if a == e.a && Step(d, e).sessions != d.sessions {
          LeavesOnBundle(d, heard, e, o);
        }
      case _ =>
    }
  }

  lemma HeldAfterSending(d: Device, e: Event, a: Address, o: seq<Block>)
    requires e.Encrypt? && StillThere(d, a, o)
    ensures StillThere(Step(d, e), a, o)
  {
    EncryptStores(d, e);
    hide Step;
    if Step(d, e).sessions != d.sessions && a == e.a {
      var states := d.sessions[a].States();
      var i :| 0 <= i < |states| && OriginOf(states[i]) == o;
      assert OriginOf(Step(d, e).sessions[a].States()[i]) == o;
    }
  }

  // ---- Every run ----

  /** A session stays until it leaves: over every run, a session held at one point and not at a later one left in
      between, by the deletion of its record or as the oldest of forty archived ones when a session was built. */
  lemma {:induction false} SessionStaysUntilItLeaves(d: Device, events: seq<Event>, i: nat, j: nat, a: Address,
                                                     o: seq<Block>)
    requires Installed(d) && AllowedRun(d, events) && i <= j <= |events| && StillThere(Run(d, events[..i]), a, o)
    ensures !StillThere(Run(d, events[..j]), a, o) ==>
              exists n :: i <= n < j && Leaves(Run(d, events[..n]), events[n], a, o)
    decreases j
  {
    hide Step, Allowed, Safe, StillThere, Leaves, AllowedRun, HeardIn;
    if i < j {
      SessionStaysUntilItLeaves(d, events, i, j - 1, a, o);
      if StillThere(Run(d, events[..j - 1]), a, o) {
        PrefixIsAllowed(d, events, j - 1);
        StepIsAllowed(d, events, j - 1);
        RunKeepsSafe(d, events[..j - 1]);
        OneMoreStep(d, events, j - 1);
        StepLeavesExactly(Run(d, events[..j - 1]), HeardIn(d, events[..j - 1]), events[j - 1], a, o);
      }
    }
  }

  /** So a message is accepted twice from an address only after the session that accepted it has left in one of these
      ways. */
  lemma AcceptedTwiceOnlyAfterLeaving(d: Device, events: seq<Event>, i: nat, j: nat, a: Address, k: Secret)
    requires Installed(d) && AllowedRun(d, events) && i < j < |events|
    requires k in Newly(Run(d, events[..i]), events[i], a) && k in Newly(Run(d, events[..j]), events[j], a)
    ensures exists n :: i < n < j && Leaves(Run(d, events[..n]), events[n], a, Origin(k))
  {
    hide Step, Run, StillThere, Leaves, AllowedRun, Newly, Origin;
    AcceptedAtMostOnce(d, events, i, j, a, k);
    var n :| i + 1 < n <= j && !StillThere(Run(d, events[..n]), a, Origin(k));
    SessionStaysUntilItLeaves(d, events, i + 1, n, a, Origin(k));
  }

  // ---- Registration ids ----

  /** The registration id of the other party in the message or bundle a session is begun with. */
  function RegistrationOf(e: Event): uint32 {
    match e
    case ReceivePreKey(_, p, _) => p.registrationId
    case ProcessBundle(_, b, _) => b.registrationId
    case _ => 0
  }

  /** Two states of one session, with its registration ids. */
  predicate SameIds(s: State, t: State) {
    && OriginOf(s) == OriginOf(t)
    && s.localRegistrationId == t.localRegistrationId && s.remoteRegistrationId == t.remoteRegistrationId
  }

  /** The state is of a session the step begins, with the ids of both parties. */
  predicate BegunWithIds(d: Device, e: Event, a: Address, s: State) {
    && TwoAddresses.Begins(d, e, a, OriginOf(s))
    && s.localRegistrationId == d.registrationId && s.remoteRegistrationId == RegistrationOf(e)
  }

  predicate Accounted(d: Device, e: Event, a: Address, s: State) {
    BegunWithIds(d, e, a, s) || exists i :: 0 <= i < |StatesAt(d, a)| && SameIds(s, StatesAt(d, a)[i])
  }

  lemma DecryptKeepsIds(s: State, m: Message, next: nat)
    requires Sound(s) && m.counter < TWO32 - 1 && Decrypted(s, m, next).Ok?
    ensures SameIds(Decrypted(s, m, next).value.0, s)
  {
    assert var s' := Decrypted(s, m, next).value.0;
           s'.localRegistrationId == s.localRegistrationId && s'.remoteRegistrationId == s.remoteRegistrationId by {
      hide TakeKeys, WithChain, MacVerifies, DecryptBody;
    }
    hide Decrypted, Sound;
    assert Spent(s, {}) by {
      SoundIsEquipped(s);
    }
    AcceptedKeyIsNew(s, m, next, {});
  }

  lemma ReadIsAccounted(d: Device, e: Event, j: nat)
    requires (e.Receive? || e.ReceivePreKey?) && AcceptedKey(d, e).Some? && ReadWith(d, e).Some?
    requires j < |ReadWith(d, e).value.0.States()|
    ensures Accounted(d, e, e.a, ReadWith(d, e).value.0.States()[j])
  {
    var (r, a, s) := (Load(d, e.a), e.a, ReadWith(d, e).value.0.States()[j]);
    assert a in d.sessions ==> r.States() == StatesAt(d, a);
    if e.ReceivePreKey? && !HasSession(r, e.p.version, e.p.baseKey) {
      AnsweredKeepsOlder(d, a, e.p, e.f.loads);
      if j > 0 {
        assert s == ReadWith(d, e).value.0.States()[1..][j - 1] == StatesAt(d, a)[j - 1];
      } else {
        NewAnswerIsAccounted(d, e);
      }
    } else {
      if e.ReceivePreKey? {
        AnsweredKeepsOlder(d, a, e.p, e.f.loads);
      }
      assert s == StatesAt(d, a)[j];
    }
  }

  lemma NewAnswerIsAccounted(d: Device, e: Event)
    requires e.ReceivePreKey? && AcceptedKey(d, e).Some? && ReadWith(d, e).Some?
    requires !HasSession(Load(d, e.a), e.p.version, e.p.baseKey)
    ensures BegunWithIds(d, e, e.a, ReadWith(d, e).value.0.state)
  {
    hide AcceptedKey, HasSession, Step, TwoAddresses.Begins;
    var (r, p) := (Load(d, e.a), e.p);
    assert TwoAddresses.Answers(d, e);
    TwoAddresses.AnsweringOrigin(d, Cleared(r).state, p);
    assert TwoAddresses.Begins(d, e, e.a, OriginOf(ReadWith(d, e).value.0.state)) by {
      AnswerBegins(d, e);
    }
  }

  lemma AnswerBegins(d: Device, e: Event)
    requires TwoAddresses.Answers(d, e)
    ensures TwoAddresses.Begins(d, e, e.a, X3dh.BobSecret(TwoAddresses.AnswerTo(d, e.p)))
  {
  }

  lemma SameIdsIsAccounted(d: Device, e: Event, a: Address, s: State, t: State)
    requires Accounted(d, e, a, t) && SameIds(s, t)
    ensures Accounted(d, e, a, s)
  {
    hide TwoAddresses.Begins, OriginOf;
    if !BegunWithIds(d, e, a, t) {
      var i :| 0 <= i < |StatesAt(d, a)| && SameIds(t, StatesAt(d, a)[i]);
      assert SameIds(s, StatesAt(d, a)[i]);
    }
  }

  lemma ReceivedIsAccounted(d: Device, heard: Heard, e: Event, j: nat)
    requires Safe(d, heard) && Allowed(d, e) && (e.Receive? || e.ReceivePreKey?) && AcceptedKey(d, e).Some?
    requires j < |StatesAt(Step(d, e), e.a)|
    ensures Accounted(d, e, e.a, StatesAt(Step(d, e), e.a)[j])
  {
    ReceiveStores(d, e);
    hide Step, AcceptedKey, Safe, IntactRecord, DecryptedFromRecord, Remembered, HasSession, Answered, Decrypted;
    hide Accounted, SameIds, DrawnByDecrypt, Sound;
    var (r, m) := ReadWith(d, e).value;
    var macs := Remembered(HeardAt(heard, e.a), r.States());
    if e.Receive? {
      LoadedIsIntact(d, heard, e.a);
    } else {
      AnsweredIsIntact(d, heard, e.a, e.p, e.f.loads);
    }
    BoundedAndSound(r, Me(d), macs);
    var i, drawn := AcceptedByOneState(r, m, d.next);
    var states' := DecryptedFromRecord(r, m, d.next).record.States();
    assert StatesAt(Step(d, e), e.a) == states';
    if j == 0 {
      DecryptKeepsIds(r.States()[i], m, drawn);
      ReadIsAccounted(d, e, i);
      SameIdsIsAccounted(d, e, e.a, states'[0], r.States()[i]);
    } else {
      var q := if j - 1 < i then j - 1 else j;
      assert states'[j] == r.States()[q];
      ReadIsAccounted(d, e, q);
    }
  }

  lemma BoundedAndSound(r: Record, me: nat, macs: set<Secret>)
    requires IntactRecord(r, me, macs)
    ensures |r.previous| <= ARCHIVED_STATES_MAX_LENGTH && forall i :: 0 <= i < |r.States()| ==> Sound(r.States()[i])
  {
    hide Sound, Rooted, Spent;
    forall i | 0 <= i < |r.States()|
      ensures Sound(r.States()[i])
    {
      assert Intact(r.States()[i], me, macs);
    }
  }

  lemma BundleIsAccounted(d: Device, e: Event, j: nat)
    requires e.ProcessBundle? && Step(d, e).sessions != d.sessions && j < |StatesAt(Step(d, e), e.a)|
    ensures Accounted(d, e, e.a, StatesAt(Step(d, e), e.a)[j])
  {
    BundleKeepsOlder(d, e);
    var (states', r) := (StatesAt(Step(d, e), e.a), Load(d, e.a));
    if j > 0 {
      assert states'[j] == states'[1..][j - 1] == StatesAt(d, e.a)[j - 1];
    } else {
      BundleStores(d, e);
      TwoAddresses.OpeningOrigin(d, Cleared(r).state, e.b);
      assert TwoAddresses.OpensFrom(d, e);
      hide Step;
      assert states'[0] == OpeningState(d, Cleared(r).state, e.b);
    }
  }

  lemma EncryptedIsAccounted(d: Device, e: Event, a: Address, j: nat)
    requires e.Encrypt? && j < |StatesAt(Step(d, e), a)|
    ensures Accounted(d, e, a, StatesAt(Step(d, e), a)[j])
  {
    EncryptStores(d, e);
    hide Step;
    assert |StatesAt(Step(d, e), a)| == |StatesAt(d, a)| && SameIds(StatesAt(Step(d, e), a)[j], StatesAt(d, a)[j]);
  }

  /** Every state after a step is of a session held before, with the same ids, or of one the step begins. */
  lemma StepAccounts(d: Device, heard: Heard, e: Event, a: Address, j: nat)
    requires Safe(d, heard) && Allowed(d, e) && j < |StatesAt(Step(d, e), a)|
    ensures Accounted(d, e, a, StatesAt(Step(d, e), a)[j])
  {
    hide Safe, MessageEncrypted, SignalMessageDecrypted, PreKeyMessageDecrypted, BundleProcessed, AcceptedKey;
    hide BegunWithIds, OriginOf;
    if e.Encrypt? {
      EncryptedIsAccounted(d, e, a, j);
    } else if (e.Receive? || e.ReceivePreKey?) && AcceptedKey(d, e).Some? && a == e.a {
      ReceivedIsAccounted(d, heard, e, j);
    } else if e.ProcessBundle? && Step(d, e).sessions != d.sessions && a == e.a {
      BundleIsAccounted(d, e, j);
    } else {
      if e.Receive? || e.ReceivePreKey? {
        ReceiveStores(d, e);
      } else if e.ProcessBundle? {
        BundleOnlyAt(d, e);
      }
      assert StatesAt(Step(d, e), a) == StatesAt(d, a);
      assert SameIds(StatesAt(Step(d, e), a)[j], StatesAt(d, a)[j]);
    }
  }

  lemma RegistrationKept(d: Device, e: Event)
    ensures Step(d, e).registrationId == d.registrationId
  {
    hide DecryptedFromRecord, Answered, Encrypted, OpeningState, Load, Trusts, Cleared;
  }

  /** Over every run, every session was begun by a step under its address and carries the registration ids of that
      step: the device's own, and the one in the pre-key message or bundle. */
  lemma {:induction false} SessionsCarryTheirIds(d: Device, events: seq<Event>, n: nat, a: Address, i: nat)
    returns (m: nat)
    requires Installed(d) && AllowedRun(d, events) && n <= |events| && i < |StatesAt(Run(d, events[..n]), a)|
    ensures m < n && BegunWithIds(Run(d, events[..m]), events[m], a, StatesAt(Run(d, events[..n]), a)[i])
    ensures Run(d, events[..m]).registrationId == Run(d, events[..n]).registrationId
    decreases n
  {
    hide Step, Allowed, Safe, AllowedRun, TwoAddresses.Begins, OriginOf;
    if n > 0 {
      var (w, e) := (Run(d, events[..n - 1]), events[n - 1]);
      PrefixIsAllowed(d, events, n - 1);
      StepIsAllowed(d, events, n - 1);
      RunKeepsSafe(d, events[..n - 1]);
      OneMoreStep(d, events, n - 1);
      StepAccounts(w, HeardIn(d, events[..n - 1]), e, a, i);
      RegistrationKept(w, e);
      var s := StatesAt(Step(w, e), a)[i];
      if BegunWithIds(w, e, a, s) {
        m := n - 1;
      } else {
        var q :| 0 <= q < |StatesAt(w, a)| && SameIds(s, StatesAt(w, a)[q]);
        m := SessionsCarryTheirIds(d, events, n - 1, a, q);
      }
    }
  }
}
