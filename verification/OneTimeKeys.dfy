/**
 One-time pre keys, over every run and all remote addresses: a key builds at most one
 stored session and is then gone from the store.
 */
module OneTimeKeys {
  import opened Common
  import opened Crypto
  import opened Messages
  import opened SessionCiphers
  import opened SessionRecords
  import opened Devices
  import opened DeviceRuns
  import opened Trust

  /** The one-time pre key a step builds a new stored session from. */
  function BuiltFrom(d: Device, e: Event): Option<uint32> {
    if e.ReceivePreKey? && AcceptedKey(d, e).Some? && !HasSession(Load(d, e.a), e.p.version, e.p.baseKey)
    then e.p.preKeyId else None
  }

  /** The key that builds a session was in the store; it leaves the store unless it is the last resort or its removal
      fails. Any other step leaves the stored keys or adds a new one. */
  lemma BuildingTakesTheKey(d: Device, e: Event)
    ensures match BuiltFrom(d, e)
            case Some(id) =>
              && id in d.preKeys
              && Step(d, e).preKeys == if id == PRE_KEY_MEDIUM_MAX_VALUE || e.f.preKeyRemove then d.preKeys
                                       else d.preKeys - {id}
            case None =>
              Step(d, e).preKeys == if e.AddPreKey? then d.preKeys[e.id := PairOf(d.next)] else d.preKeys
  {
    hide DecryptedFromRecord, Answered, HasSession, OpeningState, Encrypted;
    if e.ReceivePreKey? {
      AnsweredUses(d, e.a, e.p, e.f.loads);
    }
  }

  /** The pre key to be removed is the one the new session was built from. */
  lemma AnsweredUses(d: Device, a: Address, p: PreKeyMessage, loads: LoadFaults)
    ensures match Answered(d, Load(d, a), p, loads)
            case Err(_) => true
            case Ok((_, used)) =>
              if HasSession(Load(d, a), p.version, p.baseKey) || p.preKeyId.None? then used == None
              else
                && p.preKeyId.value in d.preKeys
                && used == if p.preKeyId.value == PRE_KEY_MEDIUM_MAX_VALUE then None else p.preKeyId
  {
    hide AnsweringState, HasSession;
  }

  /** The record a new session is built in: the session is its current state, and the archive is bounded. */
  lemma AnsweredAnew(d: Device, a: Address, p: PreKeyMessage, loads: LoadFaults)
    requires Answered(d, Load(d, a), p, loads).Ok? && !HasSession(Load(d, a), p.version, p.baseKey)
    ensures var r := Answered(d, Load(d, a), p, loads).value.0;
            && r.state.version == CURRENT_VERSION && r.state.aliceBaseKey == Some(p.baseKey)
            && |r.previous| <= ARCHIVED_STATES_MAX_LENGTH
  {
    hide HasSession;
  }

  /** A session in front of a record is still held after the record accepted a message. */
  lemma FrontIsHeld(r: Record, m: Message, next: nat, base: PublicKey)
    requires |r.previous| <= ARCHIVED_STATES_MAX_LENGTH && DecryptedFromRecord(r, m, next).result.Ok?
    requires r.state.version == CURRENT_VERSION && r.state.aliceBaseKey == Some(base)
    ensures HasSession(DecryptedFromRecord(r, m, next).record.(isFresh := false), CURRENT_VERSION, base)
  {
    hide DecryptedFromRecord, Decrypted;
    var r' := DecryptedFromRecord(r, m, next).record;
    var i, drawn := AcceptedByOneState(r, m, next);
    DecryptedIsSameParty(r.States()[i], m, drawn);
    assert SameParty(r'.States()[if i == 0 then 0 else 1], r.States()[0]);
    assert r'.(isFresh := false).States() == r'.States();
  }

  /** The session it builds is in the stored record and was not there before. */
  lemma BuiltSessionIsStored(d: Device, e: Event)
    requires BuiltFrom(d, e).Some?
    ensures var r := Step(d, e).sessions;
            && !HasSession(Load(d, e.a), e.p.version, e.p.baseKey)
            && e.a in r && HasSession(r[e.a], CURRENT_VERSION, e.p.baseKey)
  {
    PreKeyMessageStores(d, e);
    hide DecryptedFromRecord, Answered, Step, HasSession, AcceptedKey;
    AnsweredAnew(d, e.a, e.p, e.f.loads);
    FrontIsHeld(Answered(d, Load(d, e.a), e.p, e.f.loads).value.0, e.p.message, d.next, e.p.baseKey);
  }

  /** An id not in the store stays away until the application stores it again. */
  lemma {:induction false} AwayUntilAdded(d: Device, events: seq<Event>, i: nat, j: nat, id: uint32)
    requires i <= j <= |events| && id !in Run(d, events[..i]).preKeys
    ensures id in Run(d, events[..j]).preKeys ==> exists n :: i <= n < j && events[n] == AddPreKey(id)
    decreases j
  {
    hide Step;
    if i < j {
      AwayUntilAdded(d, events, i, j - 1, id);
      assert events[..j][..j - 1] == events[..j - 1];
      hide BuiltFrom;
      BuildingTakesTheKey(Run(d, events[..j - 1]), events[j - 1]);
    }
  }

  /** One-time pre keys, over every run and all addresses: after an id other than the last resort has built a stored
      session, it is in the store again, and can build another session, only if its removal failed or the
      application has stored that id again since. */
  lemma EachKeyBuildsOneSession(d: Device, events: seq<Event>, i: nat, j: nat, id: uint32)
    requires i < j <= |events| && id != PRE_KEY_MEDIUM_MAX_VALUE
    requires BuiltFrom(Run(d, events[..i]), events[i]) == Some(id)
    ensures || id in Run(d, events[..j]).preKeys
            || (j < |events| && BuiltFrom(Run(d, events[..j]), events[j]) == Some(id)) ==>
              events[i].f.preKeyRemove || exists n :: i < n < j && events[n] == AddPreKey(id)
    ensures events[i].f.preKeyRemove ==> id in Run(d, events[..i + 1]).preKeys
  {
    assert events[i].ReceivePreKey?;
    hide Step, BuiltFrom;
    BuildingTakesTheKey(Run(d, events[..i]), events[i]);
    assert events[..i + 1][..i] == events[..i];
    assert Run(d, events[..i + 1]) == Step(Run(d, events[..i]), events[i]);
    hide Run;
    if j < |events| {
      BuildingTakesTheKey(Run(d, events[..j]), events[j]);
    }
    if !events[i].f.preKeyRemove {
      AwayUntilAdded(d, events, i + 1, j, id);
    }
  }

  lemma RefusedWithoutTheKey(d: Device, e: Event)
    requires e.ReceivePreKey? && e.p.preKeyId.Some? && e.p.preKeyId.value !in d.preKeys
    requires !HasSession(Load(d, e.a), e.p.version, e.p.baseKey)
    ensures AcceptedKey(d, e).None? && Step(d, e) == d
  {
    hide DecryptedFromRecord, AnsweringState, HasSession;
  }

  /** A pre-key message for a new session naming an id that was never stored, such as that of a published last-resort
      key, is refused and changes nothing, in every run. */
  lemma UnstoredIdIsRefused(d: Device, events: seq<Event>, j: nat)
    requires j < |events| && events[j].ReceivePreKey? && events[j].p.preKeyId.Some?
    requires events[j].p.preKeyId.value !in d.preKeys && AddPreKey(events[j].p.preKeyId.value) !in events[..j]
    ensures var (d', e) := (Run(d, events[..j]), events[j]);
            !HasSession(Load(d', e.a), e.p.version, e.p.baseKey) ==> AcceptedKey(d', e).None? && Step(d', e) == d'
  {
    hide Step, AcceptedKey, HasSession;
    var (d', e) := (Run(d, events[..j]), events[j]);
    assert events[..0] == [];
    AwayUntilAdded(d, events, 0, j, e.p.preKeyId.value);
    if !HasSession(Load(d', e.a), e.p.version, e.p.baseKey) {
      RefusedWithoutTheKey(d', e);
    }
  }
}
