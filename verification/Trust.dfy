/**
 Trust on first use, over every run and whatever store callbacks fail: a pinned identity stays
 pinned until the application removes it, and sessions built meanwhile carry it.
 */
module Trust {
  import opened Common
  import opened Crypto
  import opened Messages
  import opened SessionStates
  import opened SessionCiphers
  import opened SessionRecords
  import opened Devices
  import opened DeviceRuns

  /** Two states of one session. */
  predicate SameParty(s: State, t: State) {
    s.version == t.version && s.aliceBaseKey == t.aliceBaseKey && s.remoteIdentity == t.remoteIdentity
  }

  /** A state of a session that `states` already holds. */
  predicate KnownIn(s: State, states: seq<State>) {
    exists i :: 0 <= i < |states| && SameParty(s, states[i])
  }

  /** Every session is one of `states` or carries the identity `k`. */
  predicate Carry(states': seq<State>, k: PublicKey, states: seq<State>) {
    forall i :: 0 <= i < |states'| ==> states'[i].remoteIdentity == Some(k) || KnownIn(states'[i], states)
  }

  predicate Descend(states': seq<State>, states: seq<State>) {
    forall i :: 0 <= i < |states'| ==> KnownIn(states'[i], states)
  }

  lemma CarryOn(states'': seq<State>, states': seq<State>, k: PublicKey, states: seq<State>)
    requires Carry(states', k, states) && Descend(states'', states')
    ensures Carry(states'', k, states)
  {
    forall i | 0 <= i < |states''|
      ensures states''[i].remoteIdentity == Some(k) || KnownIn(states''[i], states)
    {
      var j :| 0 <= j < |states'| && SameParty(states''[i], states'[j]);
      if states'[j].remoteIdentity != Some(k) {
        var q :| 0 <= q < |states| && SameParty(states'[j], states[q]);
        assert SameParty(states''[i], states[q]);
      }
    }
  }

  lemma DecryptedIsSameParty(s: State, m: Message, next: nat)
    requires Decrypted(s, m, next).Ok?
    ensures SameParty(Decrypted(s, m, next).value.0, s)
  {
    hide TakeKeys, WithChain;
  }

  lemma DescendByIndex(states': seq<State>, states: seq<State>, at: seq<nat>)
    requires |at| == |states'| && forall i :: 0 <= i < |at| ==> at[i] < |states| && SameParty(states'[i], states[at[i]])
    ensures Descend(states', states)
  {
    forall i | 0 <= i < |states'|
      ensures KnownIn(states'[i], states)
    {
      assert SameParty(states'[i], states[at[i]]);
    }
  }

  lemma PromotedDescends(r: Record, i: nat, s: State)
    requires i < |r.previous| && SameParty(s, r.previous[i])
    ensures Descend(Promoted(r.(previous := RemoveAt(r.previous, i)), s).States(), r.States())
  {
    hide SameParty;
    var states' := Promoted(r.(previous := RemoveAt(r.previous, i)), s).States();
    Reflexive(r.States());
    forall j | 0 <= j < |states'|
      ensures KnownIn(states'[j], r.States())
    {
      assert j == 0 ==> SameParty(states'[j], r.States()[i + 1]);
      assert j > 0 ==> states'[j] in r.States();
    }
  }

  /** The archived state that accepts moves to the front; every other one stays or is dropped. */
  lemma {:induction false} ArchivedDescend(r: Record, m: Message, i: nat, next: nat)
    requires i <= |r.previous|
    ensures Descend(TryArchived(r, m, i, next).record.States(), r.States())
    decreases |r.previous| - i
  {
    hide Decrypted, SameParty, DrawnByDecrypt, Promoted, Descend;
    Reflexive(r.States());
    if i < |r.previous| {
      match Decrypted(r.previous[i], m, next)
      case Ok((s, _)) =>
        DecryptedIsSameParty(r.previous[i], m, next);
        PromotedDescends(r, i, s);
      case Err(_) =>
        ArchivedDescend(r, m, i + 1, next + DrawnByDecrypt(r.previous[i], m));
    }
  }

  lemma Reflexive(states: seq<State>)
    ensures forall s :: s in states ==> KnownIn(s, states)
    ensures Descend(states, states)
  {
    forall i | 0 <= i < |states|
      ensures KnownIn(states[i], states)
    {
      assert SameParty(states[i], states[i]);
    }
  }

  lemma AttemptDescends(r: Record, m: Message, next: nat)
    ensures Descend(DecryptedFromRecord(r, m, next).record.States(), r.States())
  {
    hide Decrypted, TryArchived, SameParty, DrawnByDecrypt;
    Reflexive(r.States());
    match Decrypted(r.state, m, next)
    case Ok((s, _)) =>
      DecryptedIsSameParty(r.state, m, next);
      var states' := DecryptedFromRecord(r, m, next).record.States();
      forall j | 0 <= j < |states'|
        ensures KnownIn(states'[j], r.States())
      {
        assert j == 0 ==> SameParty(states'[j], r.States()[0]);
        assert j > 0 ==> states'[j] in r.States();
      }
    case Err(_) =>
      ArchivedDescend(r, m, 0, next + DrawnByDecrypt(r.state, m));
  }

  // ---- One step ----

  /** The identity is pinned, and every session is an old one or carries it. */
  predicate Pinned(d: Device, a: Address, k: PublicKey, states: seq<State>) {
    a in d.identities && d.identities[a] == k && Carry(StatesAt(d, a), k, states)
  }

  lemma Prepended(states': seq<State>, states: seq<State>, k: PublicKey, known: seq<State>)
    requires Carry(states, k, known) && 1 <= |states'| <= |states| + 1 && states'[1..] == states[..|states'| - 1]
    requires states'[0].remoteIdentity == Some(k)
    ensures Carry(states', k, known)
  {
    hide KnownIn;
    forall i | 0 < i < |states'|
      ensures states'[i] == states[i - 1]
    {
      assert states'[1..][i - 1] == states'[i];
    }
  }

  lemma EncryptKeepsPin(d: Device, a: Address, k: PublicKey, known: seq<State>, e: Event)
    requires Pinned(d, a, k, known) && e.Encrypt?
    ensures Pinned(Step(d, e), a, k, known)
  {
    hide Carry;
    var (states, states') := (StatesAt(d, a), StatesAt(Step(d, e), a));
    if states' != states {
      var r := Load(d, a);
      assert a in d.sessions;
      assert r.States() == states && |states'| == |states|;
      forall i | 0 <= i < |states'|
        ensures SameParty(states'[i], states[i])
      {
      }
      DescendByIndex(states', states, seq(|states|, i => i));
      CarryOn(states', states, k, known);
    }
  }

  lemma ReceiveKeepsPin(d: Device, a: Address, k: PublicKey, known: seq<State>, e: Event)
    requires Pinned(d, a, k, known) && e.Receive?
    ensures Pinned(Step(d, e), a, k, known)
  {
    ReceiveStores(d, e);
    assert Step(d, e).identities == d.identities by {
      hide DecryptedFromRecord;
    }
    hide Carry, DecryptedFromRecord, Step, AcceptedKey;
    var (states, states') := (StatesAt(d, a), StatesAt(Step(d, e), a));
    if states' != states {
      var r := Load(d, a);
      assert r.States() == states;
      AttemptDescends(r, e.message, d.next);
      assert states' == DecryptedFromRecord(r, e.message, d.next).record.States();
      CarryOn(states', states, k, known);
    }
  }

  lemma AnsweredCarries(d: Device, a: Address, k: PublicKey, known: seq<State>, p: PreKeyMessage, loads: LoadFaults)
    requires Carry(StatesAt(d, a), k, known) && p.identityKey == k && Answered(d, Load(d, a), p, loads).Ok?
    ensures Carry(Answered(d, Load(d, a), p, loads).value.0.States(), k, known)
  {
    hide Carry;
    var (r, states) := (Load(d, a), StatesAt(d, a));
    var r1 := Answered(d, r, p, loads).value.0;
    assert a in d.sessions ==> r.States() == states;
    if r1 != r {
      Prepended(r1.States(), states, k, known);
    }
  }

  lemma PinKept(d: Device, a: Address, k: PublicKey, e: Event)
    requires a in d.identities && d.identities[a] == k && (e.ReceivePreKey? || e.ProcessBundle?)
    ensures a in Step(d, e).identities && Step(d, e).identities[a] == k
  {
    hide DecryptedFromRecord, Answered, OpeningState;
  }

  lemma PreKeyMessageKeepsPin(d: Device, a: Address, k: PublicKey, known: seq<State>, e: Event)
    requires Pinned(d, a, k, known) && e.ReceivePreKey?
    ensures Pinned(Step(d, e), a, k, known)
  {
    PinKept(d, a, k, e);
    ReceiveStores(d, e);
    hide Carry, DecryptedFromRecord, Answered, Step, AcceptedKey;
    var (states, states') := (StatesAt(d, a), StatesAt(Step(d, e), a));
    if states' != states {
      AcceptedIsTrusted(d, e);
      var r := Answered(d, Load(d, a), e.p, e.f.loads).value.0;
      AnsweredCarries(d, a, k, known, e.p, e.f.loads);
      AttemptDescends(r, e.p.message, d.next);
      assert states' == DecryptedFromRecord(r, e.p.message, d.next).record.States();
      CarryOn(states', r.States(), k, known);
    }
  }

  lemma BundleKeepsPin(d: Device, a: Address, k: PublicKey, known: seq<State>, e: Event)
    requires Pinned(d, a, k, known) && e.ProcessBundle?
    ensures Pinned(Step(d, e), a, k, known)
  {
    PinKept(d, a, k, e);
    var (states, states') := (StatesAt(d, a), StatesAt(Step(d, e), a));
    if Step(d, e).sessions != d.sessions {
      BundleStores(d, e);
      BundleOnlyAt(d, e);
      hide Carry, Step, BundleProcessed;
      if e.a == a {
        assert a in d.sessions ==> Load(d, a).States() == states;
        Prepended(states', states, k, known);
      }
    }
  }

  lemma StepKeepsPin(d: Device, a: Address, k: PublicKey, known: seq<State>, e: Event)
    requires Pinned(d, a, k, known) && e != ForgetIdentity(a)
    ensures Pinned(Step(d, e), a, k, known)
  {
    hide MessageEncrypted, SignalMessageDecrypted, PreKeyMessageDecrypted, BundleProcessed, KnownIn;
    match e {
      case Encrypt(_, _, _) => EncryptKeepsPin(d, a, k, known, e);
      case Receive(_, _, _) => ReceiveKeepsPin(d, a, k, known, e);
      case ReceivePreKey(_, _, _) => PreKeyMessageKeepsPin(d, a, k, known, e);
      case ProcessBundle(_, _, _) => BundleKeepsPin(d, a, k, known, e);
      case _ =>
    }
  }

  lemma {:induction false} RunKeepsPin(d: Device, events: seq<Event>, a: Address, k: PublicKey, known: seq<State>)
    requires Pinned(d, a, k, known) && ForgetIdentity(a) !in events
    ensures Pinned(Run(d, events), a, k, known)
  {
    hide Step, Pinned;
    if events != [] {
      var before := events[..|events| - 1];
      RunKeepsPin(d, before, a, k, known);
      StepKeepsPin(Run(d, before), a, k, known, events[|events| - 1]);
    }
  }

  /** Trust on first use: from any device that has pinned `k` for an address, every run in which the application
      does not remove the pin ends with `k` pinned, and every session then stored for the address either was
      stored before or carries `k`. */
  lemma PinnedIdentityStays(d: Device, events: seq<Event>, a: Address, k: PublicKey)
    requires a in d.identities && d.identities[a] == k && ForgetIdentity(a) !in events
    ensures a in Run(d, events).identities && Run(d, events).identities[a] == k
    ensures Carry(StatesAt(Run(d, events), a), k, StatesAt(d, a))
  {
    hide Run, KnownIn;
    Reflexive(StatesAt(d, a));
    RunKeepsPin(d, events, a, k, StatesAt(d, a));
  }

  /** A first successful call pins the identity it was made with; a call with any other identity than the pinned
      one changes nothing, and says so unless a callback fails before the check. */
  lemma FirstUsePins(d: Device, a: Address, p: PreKeyMessage, b: Bundle, f: Faults)
    ensures var reply := PreKeyMessageDecrypted(d, a, p, f);
            && (reply.result.Ok? ==>
                  && a in reply.device.identities && reply.device.identities[a] == p.identityKey
                  && Trusts(d, a, p.identityKey))
            && (!Trusts(d, a, p.identityKey) ==>
                  && reply.device == d
                  && reply.result == Err(if f.loads.sessionLoad || f.loads.identityTrust then StoreFailed
                                         else UntrustedIdentity))
    ensures var reply := BundleProcessed(d, a, b, f);
            && (reply.result.Ok? ==>
                  && a in reply.device.identities && reply.device.identities[a] == b.identityKey
                  && Trusts(d, a, b.identityKey))
            && (!Trusts(d, a, b.identityKey) ==>
                  reply == Reply(Err(if f.loads.identityTrust then StoreFailed else UntrustedIdentity), d))
  {
    hide DecryptedFromRecord, Answered, OpeningState;
  }
}
