/**
 Every session state a device ever stores can be read back unchanged: over every run,
 each of its keys carries the KDF version of its session.
 */
module StoredSessions {
  import opened Common
  import opened Crypto
  import opened Ratchet
  import opened Messages
  import opened SessionStates
  import opened SessionCiphers
  import opened SessionRecords
  import opened Devices
  import opened DeviceRuns
  import opened SessionStorage

  predicate AllConsistent(states: seq<State>) {
    forall i :: 0 <= i < |states| ==> Consistent(states[i])
  }

  lemma {:induction false} StepsKeepKdf(ck: ChainKey, n: nat)
    ensures Steps(ck, n).kdf == ck.kdf
  {
    if n > 0 {
      StepsKeepKdf(ck, n - 1);
    }
  }

  lemma OpenedIsConsistent(s: State, their: PublicKey, next: nat)
    requires Consistent(s) && OpenChain(s, their, next).Ok?
    ensures Consistent(OpenChain(s, their, next).value.0)
  {
  }

  lemma TakenKeepsKdf(c: ReceiverChain, counter: uint32)
    requires TakeKeys(c, counter).Ok?
    ensures TakeKeys(c, counter).value.0.chainKey.kdf == c.chainKey.kdf
  {
    if c.chainKey.index <= counter {
      StepsKeepKdf(c.chainKey, counter - c.chainKey.index + 1);
    }
  }

  lemma DecryptedIsConsistent(s: State, m: Message, next: nat)
    requires Consistent(s) && Decrypted(s, m, next).Ok?
    ensures Consistent(Decrypted(s, m, next).value.0)
  {
    hide OpenChain, TakeKeys, MacVerifies, DecryptBody;
    OpenedIsConsistent(s, m.ratchetKey, next);
    var s1 := OpenChain(s, m.ratchetKey, next).value.0;
    var i := FindChain(s1.receiverChains, m.ratchetKey).value;
    TakenKeepsKdf(s1.receiverChains[i], m.counter);
  }

  lemma {:induction false} ArchivedStayConsistent(r: Record, m: Message, i: nat, next: nat)
    requires AllConsistent(r.States()) && i <= |r.previous|
    ensures AllConsistent(TryArchived(r, m, i, next).record.States())
    decreases |r.previous| - i
  {
    hide Decrypted, Consistent, DrawnByDecrypt;
    if i < |r.previous| {
      match Decrypted(r.previous[i], m, next)
      case Ok(_) =>
        assert Consistent(r.States()[i + 1]);
        DecryptedIsConsistent(r.previous[i], m, next);
        var states' := TryArchived(r, m, i, next).record.States();
        forall j | 0 <= j < |states'|
          ensures Consistent(states'[j])
        {
          assert j > 0 ==> states'[j] in r.States();
        }
      case Err(_) =>
        ArchivedStayConsistent(r, m, i + 1, next + DrawnByDecrypt(r.previous[i], m));
    }
  }

  lemma AttemptStaysConsistent(r: Record, m: Message, next: nat)
    requires AllConsistent(r.States())
    ensures AllConsistent(DecryptedFromRecord(r, m, next).record.States())
  {
    hide Decrypted, Consistent, DrawnByDecrypt, TryArchived;
    match Decrypted(r.state, m, next)
    case Ok(_) =>
      assert Consistent(r.States()[0]);
      DecryptedIsConsistent(r.state, m, next);
      var states' := DecryptedFromRecord(r, m, next).record.States();
      forall j | 0 <= j < |states'|
        ensures Consistent(states'[j])
      {
        assert j > 0 ==> states'[j] == r.States()[j];
      }
    case Err(_) =>
      ArchivedStayConsistent(r, m, 0, next + DrawnByDecrypt(r.state, m));
  }

  lemma ClearedWithConsistent(r: Record, s: State)
    requires Consistent(s) && AllConsistent(r.States()) && (r.isFresh ==> r.previous == [])
    ensures AllConsistent(Cleared(r).(state := s).States())
  {
    hide Consistent;
    var states' := Cleared(r).(state := s).States();
    forall j | 0 <= j < |states'|
      ensures Consistent(states'[j])
    {
      assert j > 0 ==> states'[j] == r.States()[j - 1];
    }
  }

  lemma FreshIsConsistent()
    ensures AllConsistent(FRESH.States())
  {
  }

  predicate AllStored(d: Device) {
    forall a :: a in d.sessions ==> AllConsistent(d.sessions[a].States())
  }

  lemma LoadedIsConsistent(d: Device, a: Address)
    requires AllStored(d)
    ensures AllConsistent(Load(d, a).States())
  {
    hide Consistent;
    FreshIsConsistent();
    assert a in d.sessions ==> Load(d, a).States() == d.sessions[a].States();
  }

  lemma AnsweredIsConsistent(d: Device, a: Address, p: PreKeyMessage, loads: LoadFaults)
    requires AllStored(d) && Answered(d, Load(d, a), p, loads).Ok?
    ensures AllConsistent(Answered(d, Load(d, a), p, loads).value.0.States())
  {
    LoadedIsConsistent(d, a);
    var (r, r') := (Load(d, a), Answered(d, Load(d, a), p, loads).value.0);
    if !HasSession(r, p.version, p.baseKey) {
      assert Cleared(r).state == EMPTY;
      assert Consistent(r'.state);
      ClearedWithConsistent(r, r'.state);
    }
  }

  lemma StoredRecordChanged(d: Device, d': Device, a: Address)
    requires AllStored(d) && a in d'.sessions && AllConsistent(d'.sessions[a].States())
    requires OnlyAt(d, d', a)
    ensures AllStored(d')
  {
    hide AllConsistent;
  }

  lemma EncryptedIsConsistent(s: State, text: Text)
    requires Consistent(s) && Encrypted(s, text).Ok?
    ensures Consistent(Encrypted(s, text).value.0)
  {
  }

  lemma EncryptKeepsStored(d: Device, e: Event)
    requires AllStored(d) && e.Encrypt?
    ensures AllStored(Step(d, e))
  {
    EncryptStores(d, e);
    hide Step, Consistent, Encrypted;
    var (d', r) := (Step(d, e), Load(d, e.a));
    if d'.sessions != d.sessions {
      LoadedIsConsistent(d, e.a);
      assert Consistent(r.States()[0]);
      EncryptedIsConsistent(r.state, e.text);
      forall j | 0 <= j < |d'.sessions[e.a].States()|
        ensures Consistent(d'.sessions[e.a].States()[j])
      {
        assert j > 0 ==> d'.sessions[e.a].States()[j] == r.States()[j];
      }
      StoredRecordChanged(d, d', e.a);
    }
  }

  lemma ReceiveKeepsStored(d: Device, e: Event)
    requires AllStored(d) && (e.Receive? || e.ReceivePreKey?)
    ensures AllStored(Step(d, e))
  {
    ReceiveStores(d, e);
    hide DecryptedFromRecord, Answered, AllConsistent, Step, AcceptedKey;
    var d' := Step(d, e);
    if d'.sessions != d.sessions {
      var (r, m) := ReadWith(d, e).value;
      LoadedIsConsistent(d, e.a);
      if e.ReceivePreKey? {
        AnsweredIsConsistent(d, e.a, e.p, e.f.loads);
      }
      AttemptStaysConsistent(r, m, d.next);
      assert d'.sessions[e.a].States() == DecryptedFromRecord(r, m, d.next).record.States();
      StoredRecordChanged(d, d', e.a);
    }
  }

  lemma OpeningIsConsistent(d: Device, b: Bundle)
    requires b.signedPreKey.Some?
    ensures Consistent(OpeningState(d, EMPTY, b))
  {
  }

  lemma BundleKeepsStored(d: Device, e: Event)
    requires AllStored(d) && e.ProcessBundle?
    ensures AllStored(Step(d, e))
  {
    if Step(d, e).sessions != d.sessions {
      BundleStores(d, e);
      BundleOnlyAt(d, e);
      hide AllConsistent, OpeningState, Consistent, Step, BundleProcessed;
      var (d', r) := (Step(d, e), Load(d, e.a));
      var s := OpeningState(d, Cleared(r).state, e.b);
      LoadedIsConsistent(d, e.a);
      OpeningIsConsistent(d, e.b);
      ClearedWithConsistent(r, s);
      assert d'.sessions[e.a].States() == Cleared(r).(state := s).States();
      StoredRecordChanged(d, d', e.a);
    }
  }

  lemma StepKeepsStored(d: Device, e: Event)
    requires AllStored(d)
    ensures AllStored(Step(d, e))
  {
    hide MessageEncrypted, SignalMessageDecrypted, PreKeyMessageDecrypted, BundleProcessed, AllConsistent;
    match e {
      case Encrypt(_, _, _) => EncryptKeepsStored(d, e);
      case Receive(_, _, _) => ReceiveKeepsStored(d, e);
      case ReceivePreKey(_, _, _) => ReceiveKeepsStored(d, e);
      case ProcessBundle(_, _, _) => BundleKeepsStored(d, e);
      case _ =>
    }
  }

  lemma {:induction false} RunKeepsStored(d: Device, events: seq<Event>)
    requires Installed(d)
    ensures AllStored(Run(d, events))
  {
    hide Step, AllConsistent;
    if events != [] {
      RunKeepsStored(d, events[..|events| - 1]);
      StepKeepsStored(Run(d, events[..|events| - 1]), events[|events| - 1]);
    }
  }

  /** For every record a run of the device stores, writing it out and reading it back gives exactly what the next
      call loads. */
  lemma StoredRecordsRoundTrip(d: Device, events: seq<Event>, a: Address)
    requires Installed(d) && a in Run(d, events).sessions
    ensures RecordIn(RecordOut(Run(d, events).sessions[a])) == Ok(WholeRecord(Load(Run(d, events), a)))
  {
    hide Run, Consistent, RecordIn, RecordOut, WholeRecord;
    RunKeepsStored(d, events);
    RecordRoundTrip(Run(d, events).sessions[a]);
  }
}
