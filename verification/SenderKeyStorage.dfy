/**
 Storing sender keys (sender_key_state.c, sender_key_record.c): a skipped key is stored as
 its seed only; its iv and cipher key are derived again when it is read.
 */
module SenderKeyStorage {
  import opened Common
  import opened Crypto
  import opened SkipWindow
  import opened SenderKeys
  import opened GroupRuns

  /** A chain key or a message key: an iteration and a seed. */
  datatype KeyStructure = KeyStructure(iteration: Option<uint32>, seed: Option<Secret>)

  datatype SigningKeyStructure = SigningKeyStructure(pub: Option<PublicKey>, priv: Option<PrivateKey>)

  datatype SenderStateStructure = SenderStateStructure(
    keyId: Option<uint32>, chainKey: Option<KeyStructure>, signingKey: Option<SigningKeyStructure>,
    messageKeys: seq<KeyStructure>)

  function KeysOut(keys: seq<SenderMessageKey>): (r: seq<KeyStructure>)
    ensures |r| == |keys|
    ensures forall i :: 0 <= i < |r| ==> r[i] == KeyStructure(Some(keys[i].iteration), Some(keys[i].seed))
  {
    seq(|keys|, i requires 0 <= i < |keys| => KeyStructure(Some(keys[i].iteration), Some(keys[i].seed)))
  }

  /** `sender_key_state_serialize_prepare`. */
  function SenderStateOut(s: SenderState): SenderStateStructure {
    SenderStateStructure(Some(s.keyId), Some(KeyStructure(Some(s.chainKey.iteration), Some(s.chainKey.seed))),
                         Some(SigningKeyStructure(Some(s.signingPublic), s.signingPrivate)), KeysOut(s.messageKeys))
  }

  predicate Complete(k: KeyStructure) {
    k.iteration.Some? && k.seed.Some?
  }

  /** Message keys are derived again and appended one by one; an incomplete one is skipped. */
  function KeysIn(ks: seq<KeyStructure>): seq<SenderMessageKey> {
    if ks == [] then []
    else
      var (before, k) := (KeysIn(ks[..|ks| - 1]), ks[|ks| - 1]);
      if Complete(k)
      then LastN(before + [MessageKeyFrom(k.iteration.value, k.seed.value)], MAX_MESSAGE_KEYS)
      else before
  }

  /** `sender_key_state_deserialize_protobuf`. */
  function SenderStateIn(p: SenderStateStructure): Result<SenderState> {
    if p.keyId.None? || p.chainKey.None? || !Complete(p.chainKey.value) || p.signingKey.None?
        || p.signingKey.value.pub.None?
    then Err(InvalidProtoBuf)
    else
      Ok(SenderState(p.keyId.value, SenderChainKey(p.chainKey.value.iteration.value, p.chainKey.value.seed.value),
                     p.signingKey.value.pub.value, p.signingKey.value.priv, KeysIn(p.messageKeys)))
  }

  method DeserializeSenderState(p: SenderStateStructure) returns (r: Result<SenderKeyState>)
    ensures match SenderStateIn(p)
            case Err(e) => r == Err(e)
            case Ok(s) => r.Ok? && fresh(r.value) && r.value.View() == s
  {
    if p.keyId.None? || p.chainKey.None? || !Complete(p.chainKey.value) || p.signingKey.None?
        || p.signingKey.value.pub.None? {
      return Err(InvalidProtoBuf);
    }
    var chainKey := SenderChainKey(p.chainKey.value.iteration.value, p.chainKey.value.seed.value);
    var state := new SenderKeyState(SenderState(p.keyId.value, chainKey, p.signingKey.value.pub.value,
                                                p.signingKey.value.priv, []));
    var i := 0;
    while i < |p.messageKeys|
      invariant 0 <= i <= |p.messageKeys|
      invariant state.messageKeys == KeysIn(p.messageKeys[..i])
      invariant state.View() == SenderState(p.keyId.value, chainKey, p.signingKey.value.pub.value,
                                            p.signingKey.value.priv, state.messageKeys)
    {
      assert p.messageKeys[..i + 1][..i] == p.messageKeys[..i];
      var k := p.messageKeys[i];
      if Complete(k) {
        state.AddSenderMessageKey(MessageKeyFrom(k.iteration.value, k.seed.value));
      }
      i := i + 1;
    }
    assert p.messageKeys[..i] == p.messageKeys;
    return Ok(state);
  }

  /** A message key as `sender_message_key_create` makes it. */
  predicate Derived(k: SenderMessageKey) {
    k == MessageKeyFrom(k.iteration, k.seed)
  }

  /** The list holds at most two thousand keys, each derived from its seed. */
  predicate Storable(s: SenderState) {
    |s.messageKeys| <= MAX_MESSAGE_KEYS && forall i :: 0 <= i < |s.messageKeys| ==> Derived(s.messageKeys[i])
  }

  function Rederived(keys: seq<SenderMessageKey>): (r: seq<SenderMessageKey>)
    ensures |r| == |keys|
    ensures forall i :: 0 <= i < |r| ==> r[i] == MessageKeyFrom(keys[i].iteration, keys[i].seed)
  {
    seq(|keys|, i requires 0 <= i < |keys| => MessageKeyFrom(keys[i].iteration, keys[i].seed))
  }

  lemma ListsOneMore(keys: seq<SenderMessageKey>, k: SenderMessageKey)
    ensures KeysOut(keys + [k]) == KeysOut(keys) + [KeyStructure(Some(k.iteration), Some(k.seed))]
    ensures Rederived(keys + [k]) == Rederived(keys) + [MessageKeyFrom(k.iteration, k.seed)]
  {
  }

  lemma ReadOneMore(ks: seq<KeyStructure>, k: KeyStructure)
    requires Complete(k)
    ensures KeysIn(ks + [k]) == LastN(KeysIn(ks) + [MessageKeyFrom(k.iteration.value, k.seed.value)], MAX_MESSAGE_KEYS)
  {
    assert (ks + [k])[..|ks|] == ks;
  }

  /** What reading back a list gives: the newest two thousand keys, derived again. */
  lemma {:induction false} KeysComeBack(keys: seq<SenderMessageKey>)
    ensures KeysIn(KeysOut(keys)) == LastN(Rederived(keys), MAX_MESSAGE_KEYS)
  {
    hide KeysIn, KeysOut, Rederived, LastN;
    if keys == [] {
      NothingComesBack();
    } else {
      var (before, last) := (keys[..|keys| - 1], keys[|keys| - 1]);
      assert keys == before + [last];
      KeysComeBack(before);
      ListsOneMore(before, last);
      ReadOneMore(KeysOut(before), KeyStructure(Some(last.iteration), Some(last.seed)));
      TrimOneMore(Rederived(before), MessageKeyFrom(last.iteration, last.seed), MAX_MESSAGE_KEYS);
    }
  }

  lemma NothingComesBack()
    ensures KeysIn(KeysOut([])) == [] == LastN(Rederived([]), MAX_MESSAGE_KEYS)
  {
  }

  /** A sender-key state comes back from storage unchanged exactly when its list is within bounds and every skipped
      key is the one its seed gives. */
  lemma SenderStateRoundTrip(s: SenderState)
    ensures SenderStateIn(SenderStateOut(s)) == Ok(s) <==> Storable(s)
  {
    hide KeysIn;
    KeysComeBack(s.messageKeys);
    var back := LastN(Rederived(s.messageKeys), MAX_MESSAGE_KEYS);
    if back == s.messageKeys {
      forall i | 0 <= i < |s.messageKeys|
        ensures Derived(s.messageKeys[i])
      {
        assert back[i] == s.messageKeys[i];
      }
    }
    if Storable(s) {
      assert Rederived(s.messageKeys) == s.messageKeys;
    }
  }

  /** In every run of a group, every state a member holds, and the sender's own, comes back from storage unchanged. */
  lemma GroupStatesRoundTrip(events: seq<GroupEvent>, who: string, i: nat)
    requires AllowedRun(events) && who in Run(events).members && i < |Run(events).members[who].record|
    ensures var s := Run(events).members[who].record[i]; SenderStateIn(SenderStateOut(s)) == Ok(s)
    ensures forall s :: s in Run(events).sender ==> SenderStateIn(SenderStateOut(s)) == Ok(s)
  {
    hide Run, SenderStateIn, SenderStateOut, AllowedRun, Rising, GoodLetter, GoodIssue;
    var w := Run(events);
    RunKeepsInStep(events);
    var (m, s) := (w.members[who], w.members[who].record[i]);
    assert GoodState(w, s, m.tags[i]);
    assert Storable(s);
    SenderStateRoundTrip(s);
    forall t | t in w.sender
      ensures SenderStateIn(SenderStateOut(t)) == Ok(t)
    {
      assert Storable(t);
      SenderStateRoundTrip(t);
    }
  }
}
