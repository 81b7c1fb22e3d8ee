/**
 Group sender keys (sender_key.c, sender_key_state.c, sender_key_record.c): the
 one-directional chain, its bounded list of skipped keys, and the newest-first record of
 at most five states.
 */
module SenderKeys {
  import opened Common
  import opened Crypto
  import opened Ratchet
  import opened SkipWindow
  import opened SessionRecords

  const MAX_STATES: nat := 5

  datatype SenderChainKey = SenderChainKey(iteration: uint32, seed: Secret)

  datatype SenderMessageKey = SenderMessageKey(iteration: uint32, iv: Secret, cipherKey: Secret, seed: Secret)

  datatype SenderState = SenderState(keyId: uint32, chainKey: SenderChainKey, signingPublic: PublicKey,
                                     signingPrivate: Option<PrivateKey>, messageKeys: seq<SenderMessageKey>)

  /** The states of a sender, newest first. */
  type SenderRecord = seq<SenderState>

  /** `sender_message_key_create`: iv and cipher key are derived from the seed. */
  function MessageKeyFrom(iteration: uint32, seed: Secret): SenderMessageKey {
    SenderMessageKey(iteration, GroupPart(seed, IvPart), GroupPart(seed, CipherPart), seed)
  }

  /** `sender_chain_key_create_message_key`. */
  function MessageKeyOf(ck: SenderChainKey): SenderMessageKey {
    MessageKeyFrom(ck.iteration, Hmac(ck.seed, MESSAGE_KEY_SEED))
  }

  /** `sender_chain_key_create_next`. */
  function NextSenderKey(ck: SenderChainKey): SenderChainKey {
    SenderChainKey(Increment(ck.iteration), Hmac(ck.seed, CHAIN_KEY_SEED))
  }

  function StepsOn(ck: SenderChainKey, n: nat): SenderChainKey {
    if n == 0 then ck else NextSenderKey(StepsOn(ck, n - 1))
  }

  /** The first stored key of an iteration. */
  function FindIteration(keys: seq<SenderMessageKey>, iteration: uint32): (r: Option<nat>)
    ensures r.Some? ==> r.value < |keys| && keys[r.value].iteration == iteration
    ensures r.Some? ==> forall j :: 0 <= j < r.value ==> keys[j].iteration != iteration
    ensures r.None? ==> forall j :: 0 <= j < |keys| ==> keys[j].iteration != iteration
  {
    if keys == [] then None
    else if keys[0].iteration == iteration then Some(0)
    else match FindIteration(keys[1..], iteration)
      case None => None
      case Some(i) => Some(i + 1)
  }

  /** The state and the message key of an iteration: a stored key is removed; otherwise the chain moves past the
      iteration and the keys in between are stored. */
  function TakeSenderKey(s: SenderState, iteration: uint32): Result<(SenderState, SenderMessageKey)> {
    if s.chainKey.iteration > iteration then
      match FindIteration(s.messageKeys, iteration)
      case None => Err(DuplicateMessage)
      case Some(k) => Ok((s.(messageKeys := RemoveAt(s.messageKeys, k)), s.messageKeys[k]))
    else if iteration - s.chainKey.iteration > MAX_MESSAGE_KEYS then Err(InvalidMessage)
    else
      var n := iteration - s.chainKey.iteration;
      Ok((s.(chainKey := StepsOn(s.chainKey, n + 1), messageKeys := Stored(s.messageKeys, s.chainKey, n)),
          MessageKeyOf(StepsOn(s.chainKey, n))))
  }

  /** The stored keys after those of the next `n` iterations, one after the other. */
  function Stored(keys: seq<SenderMessageKey>, ck: SenderChainKey, n: nat): seq<SenderMessageKey> {
    if n == 0 then keys else LastN(Stored(keys, ck, n - 1) + [MessageKeyOf(StepsOn(ck, n - 1))], MAX_MESSAGE_KEYS)
  }

  class SenderKeyState {
    const keyId: uint32
    var chainKey: SenderChainKey
    const signingPublic: PublicKey
    const signingPrivate: Option<PrivateKey>
    var messageKeys: seq<SenderMessageKey>

    function View(): SenderState
      reads this
    {
      SenderState(keyId, chainKey, signingPublic, signingPrivate, messageKeys)
    }

    constructor (s: SenderState)
      ensures View() == s
    {
      keyId, chainKey, signingPublic, signingPrivate, messageKeys :=
        s.keyId, s.chainKey, s.signingPublic, s.signingPrivate, s.messageKeys;
    }

    /** `sender_key_state_has_sender_message_key`. */
    method HasSenderMessageKey(iteration: uint32) returns (r: bool)
      ensures r <==> FindIteration(messageKeys, iteration).Some?
    {
      var i := 0;
      while i < |messageKeys|
        invariant 0 <= i <= |messageKeys|
        invariant forall j :: 0 <= j < i ==> messageKeys[j].iteration != iteration
      {
        if messageKeys[i].iteration == iteration {
          return true;
        }
        i := i + 1;
      }
      return false;
    }

    /** `sender_key_state_add_sender_message_key`: append, then drop from the head while too many. */
    method AddSenderMessageKey(key: SenderMessageKey)
      modifies this`messageKeys
      ensures messageKeys == LastN(old(messageKeys) + [key], MAX_MESSAGE_KEYS)
    {
      messageKeys := messageKeys + [key];
      ghost var all := messageKeys;
      var count := |messageKeys|;
      while count > MAX_MESSAGE_KEYS
        invariant count == |messageKeys| <= |all|
        invariant messageKeys == all[|all| - count..]
        invariant count >= MAX_MESSAGE_KEYS || count == |all|
      {
        messageKeys := messageKeys[1..];
        count := count - 1;
      }
    }

    /** `sender_key_state_remove_sender_message_key`. */
    method RemoveSenderMessageKey(iteration: uint32) returns (r: Option<SenderMessageKey>)
      modifies this`messageKeys
      ensures match FindIteration(old(messageKeys), iteration)
              case None => r == None && messageKeys == old(messageKeys)
              case Some(k) => r == Some(old(messageKeys)[k]) && messageKeys == RemoveAt(old(messageKeys), k)
    {
      var i := 0;
      while i < |messageKeys|
        invariant 0 <= i <= |messageKeys|
        invariant forall j :: 0 <= j < i ==> messageKeys[j].iteration != iteration
        invariant messageKeys == old(messageKeys)
      {
        if messageKeys[i].iteration == iteration {
          r := Some(messageKeys[i]);
          messageKeys := RemoveAt(messageKeys, i);
          return;
        }
        i := i + 1;
      }
      return None;
    }

    /** `group_cipher_get_sender_key`. */
    method GetSenderKey(iteration: uint32) returns (r: Result<SenderMessageKey>)
      modifies this
      ensures match TakeSenderKey(old(View()), iteration)
              case Err(e) => r == Err(e) && View() == old(View())
              case Ok((s, key)) => r == Ok(key) && View() == s
    {
      var cur := chainKey;
      if cur.iteration > iteration {
        var has := HasSenderMessageKey(iteration);
        if has {
          var removed := RemoveSenderMessageKey(iteration);
          return if removed.None? then Err(Unknown) else Ok(removed.value);
        }
        return Err(DuplicateMessage);
      }
      if iteration - cur.iteration > MAX_MESSAGE_KEYS {
        return Err(InvalidMessage);
      }
      ghost var n := 0;
      ghost var (first, keys) := (cur, messageKeys);
      while cur.iteration < iteration
        invariant 0 <= n <= iteration - first.iteration
        invariant cur == StepsOn(first, n) && cur.iteration == first.iteration + n
        invariant messageKeys == Stored(keys, first, n) && chainKey == first
        decreases iteration - cur.iteration
      {
        AddSenderMessageKey(MessageKeyOf(cur));
        cur := NextSenderKey(cur);
        n := n + 1;
      }
      chainKey := NextSenderKey(cur);
      return Ok(MessageKeyOf(cur));
    }
  }

  /** The first state with a key id. */
  function FindState(record: SenderRecord, keyId: uint32): (r: Option<nat>)
    ensures r.Some? ==> r.value < |record| && record[r.value].keyId == keyId
    ensures r.Some? ==> forall j :: 0 <= j < r.value ==> record[j].keyId != keyId
    ensures r.None? ==> forall j :: 0 <= j < |record| ==> record[j].keyId != keyId
  {
    if record == [] then None
    else if record[0].keyId == keyId then Some(0)
    else match FindState(record[1..], keyId)
      case None => None
      case Some(i) => Some(i + 1)
  }

  /** A new state in front; the oldest beyond five are dropped. */
  function WithState(record: SenderRecord, s: SenderState): SenderRecord {
    FirstN([s] + record, MAX_STATES)
  }

  class SenderKeyRecord {
    var states: SenderRecord

    constructor (record: SenderRecord)
      ensures states == record
    {
      states := record;
    }

    /** `sender_key_record_get_sender_key_state_by_id`. */
    method GetStateById(keyId: uint32) returns (r: Result<nat>)
      ensures r == match FindState(states, keyId) case None => Err(InvalidKeyId) case Some(i) => Ok(i)
    {
      var i := 0;
      while i < |states|
        invariant 0 <= i <= |states|
        invariant forall j :: 0 <= j < i ==> states[j].keyId != keyId
      {
        if states[i].keyId == keyId {
          return Ok(i);
        }
        i := i + 1;
      }
      return Err(InvalidKeyId);
    }

    /** `sender_key_record_add_sender_key_state`: prepend, then drop from the tail while more than five. */
    method AddState(keyId: uint32, iteration: uint32, seed: Secret, signingPublic: PublicKey,
                    signingPrivate: Option<PrivateKey>)
      modifies this
      ensures var first := SenderChainKey(iteration, seed);
              states == WithState(old(states), SenderState(keyId, first, signingPublic, signingPrivate, []))
    {
      states := [SenderState(keyId, SenderChainKey(iteration, seed), signingPublic, signingPrivate, [])] + states;
      ghost var all := states;
      var count := |states|;
      while count > MAX_STATES
        invariant count == |states| <= |all|
        invariant states == all[..count]
        invariant count >= MAX_STATES || count == |all|
      {
        states := states[..|states| - 1];
        count := count - 1;
      }
    }

    /** `sender_key_record_set_sender_key_state`: the only state from now on. */
    method SetState(keyId: uint32, iteration: uint32, seed: Secret, signing: KeyPair)
      modifies this
      ensures states == [SenderState(keyId, SenderChainKey(iteration, seed), signing.pub, Some(signing.priv), [])]
    {
      states := [];
      AddState(keyId, iteration, seed, signing.pub, Some(signing.priv));
    }
  }

  // ---- The chain as a simple sequence ----

  /** The chain key `n` steps after the first seed. */
  function SenderChainAt(base: Secret, n: uint32): SenderChainKey {
    SenderChainKey(n, StepSecret(base, n))
  }

  function SenderKeyAt(base: Secret, n: uint32): SenderMessageKey {
    MessageKeyOf(SenderChainAt(base, n))
  }

  lemma {:induction false} StepsReachSenderChainAt(base: Secret, i: uint32, n: nat)
    requires i + n < TWO32
    ensures StepsOn(SenderChainAt(base, i), n) == SenderChainAt(base, i + n)
  {
    if n > 0 {
      StepsReachSenderChainAt(base, i, n - 1);
    }
  }

  function Iterations(keys: seq<SenderMessageKey>): (r: seq<nat>)
    ensures |r| == |keys|
    ensures forall i :: 0 <= i < |r| ==> r[i] == keys[i].iteration
  {
    seq(|keys|, i requires 0 <= i < |keys| => keys[i].iteration)
  }

  /** The iterations of a state: the next one and the skipped ones. */
  function SenderWindow(s: SenderState): Window {
    Window(s.chainKey.iteration, Iterations(s.messageKeys))
  }

  /** Every key of the state is its base stepped as many times as its iteration says. */
  predicate OnBase(s: SenderState, base: Secret) {
    && s.chainKey == SenderChainAt(base, s.chainKey.iteration)
    && AllOnBase(s.messageKeys, base)
  }

  predicate AllOnBase(keys: seq<SenderMessageKey>, base: Secret) {
    forall i :: 0 <= i < |keys| ==> keys[i] == SenderKeyAt(base, keys[i].iteration)
  }

  lemma FoundWhereListed(keys: seq<SenderMessageKey>, iteration: uint32)
    ensures FindIteration(keys, iteration).Some? <==> iteration in Iterations(keys)
    ensures FindIteration(keys, iteration).Some? ==>
              FindIteration(keys, iteration).value == Position(Iterations(keys), iteration)
  {
    var r := FindIteration(keys, iteration);
    if r.Some? {
      assert Iterations(keys)[r.value] == iteration;
      assert keys[Position(Iterations(keys), iteration)].iteration == iteration;
    }
  }

  lemma AddedOnBase(keys: seq<SenderMessageKey>, base: Secret, n: uint32)
    requires AllOnBase(keys, base)
    ensures var r := LastN(keys + [SenderKeyAt(base, n)], MAX_MESSAGE_KEYS);
            AllOnBase(r, base) && Iterations(r) == LastN(Iterations(keys) + [n], MAX_MESSAGE_KEYS)
  {
  }

  lemma AddedToTrimmed(keys: seq<SenderMessageKey>, base: Secret, n: uint32, all: seq<nat>)
    requires AllOnBase(keys, base) && Iterations(keys) == LastN(all, MAX_MESSAGE_KEYS)
    ensures var r := LastN(keys + [SenderKeyAt(base, n)], MAX_MESSAGE_KEYS);
            AllOnBase(r, base) && Iterations(r) == LastN(all + [n], MAX_MESSAGE_KEYS)
  {
    hide AllOnBase;
    AddedOnBase(keys, base, n);
    TrimOneMore(all, n, MAX_MESSAGE_KEYS);
  }

  lemma RangeOneMore(s: seq<nat>, lo: nat, hi: nat)
    requires lo <= hi
    ensures s + Range(lo, hi + 1) == (s + Range(lo, hi)) + [hi]
    ensures s + Range(lo, lo) == s
  {
  }

  /** Storing one key at a time keeps the newest two thousand of all of them. */
  lemma {:induction false} StoredKeepsTheNewest(keys: seq<SenderMessageKey>, base: Secret, index: uint32, n: nat)
    requires AllOnBase(keys, base) && index + n < TWO32 && |keys| <= MAX_MESSAGE_KEYS
    ensures var r := Stored(keys, SenderChainAt(base, index), n);
            AllOnBase(r, base) && Iterations(r) == LastN(Iterations(keys) + Range(index, index + n), MAX_MESSAGE_KEYS)
  {
    hide AllOnBase, Iterations, Range, StepSecret, StepsOn, LastN, MessageKeyOf;
    if n == 0 {
      RangeOneMore(Iterations(keys), index, index);
    } else {
      StoredKeepsTheNewest(keys, base, index, n - 1);
      StepsReachSenderChainAt(base, index, n - 1);
      AddedToTrimmed(Stored(keys, SenderChainAt(base, index), n - 1), base, index + n - 1,
                     Iterations(keys) + Range(index, index + n - 1));
      RangeOneMore(Iterations(keys), index, index + n - 1);
    }
  }

  lemma StoredSenderKeyRefines(s: SenderState, base: Secret, iteration: uint32)
    requires OnBase(s, base) && s.chainKey.iteration > iteration
    ensures match Take(SenderWindow(s), iteration)
            case Accepted(w) => TakeSenderKey(s, iteration).Ok? && Handed(s, base, iteration, w)
            case Duplicate => TakeSenderKey(s, iteration) == Err(DuplicateMessage)
            case TooFar => false
  {
    FoundWhereListed(s.messageKeys, iteration);
    var found := FindIteration(s.messageKeys, iteration);
    if found.Some? {
      assert Iterations(RemoveAt(s.messageKeys, found.value)) == RemoveAt(Iterations(s.messageKeys), found.value);
    }
  }

  /** The key handed out is the base stepped `iteration` times, and the state stays on its base with this window. */
  predicate Handed(s: SenderState, base: Secret, iteration: uint32, w: Window)
    requires TakeSenderKey(s, iteration).Ok?
  {
    var (s', key) := TakeSenderKey(s, iteration).value;
    && key == SenderKeyAt(base, iteration)
    && s' == s.(chainKey := s'.chainKey, messageKeys := s'.messageKeys)
    && OnBase(s', base) && SenderWindow(s') == w
  }

  lemma SkippedSenderKeysRefine(s: SenderState, base: Secret, iteration: uint32)
    requires OnBase(s, base) && |s.messageKeys| <= MAX_MESSAGE_KEYS && iteration < TWO32 - 1
    requires s.chainKey.iteration <= iteration <= s.chainKey.iteration + MAX_MESSAGE_KEYS
    ensures TakeSenderKey(s, iteration).Ok?
    ensures var all := Iterations(s.messageKeys) + Range(s.chainKey.iteration, iteration);
            Handed(s, base, iteration, Window(iteration + 1, LastN(all, MAX_MESSAGE_KEYS)))
  {
    hide Stored, StepSecret, AllOnBase;
    var n := iteration - s.chainKey.iteration;
    StoredKeepsTheNewest(s.messageKeys, base, s.chainKey.iteration, n);
    StepsReachSenderChainAt(base, s.chainKey.iteration, n);
    StepsReachSenderChainAt(base, s.chainKey.iteration, n + 1);
  }

  /** The sender chain refines the simple one: a key is handed out, refused as a duplicate or refused as too far
      ahead exactly as the window says, and it is the base stepped `iteration` times. */
  lemma TakeSenderKeyRefines(s: SenderState, base: Secret, iteration: uint32)
    requires OnBase(s, base) && |s.messageKeys| <= MAX_MESSAGE_KEYS && iteration < TWO32 - 1
    ensures match Take(SenderWindow(s), iteration)
            case Duplicate => TakeSenderKey(s, iteration) == Err(DuplicateMessage)
            case TooFar => TakeSenderKey(s, iteration) == Err(InvalidMessage)
            case Accepted(w) => TakeSenderKey(s, iteration).Ok? && Handed(s, base, iteration, w)
  {
    hide OnBase, Handed;
    if s.chainKey.iteration > iteration {
      StoredSenderKeyRefines(s, base, iteration);
    } else if iteration - s.chainKey.iteration <= MAX_MESSAGE_KEYS {
      SkippedSenderKeysRefine(s, base, iteration);
    }
  }

  // ---- Any chain at all: what the iterations alone determine ----

  lemma {:induction false} StepsOnIteration(ck: SenderChainKey, n: nat)
    requires ck.iteration + n < TWO32
    ensures StepsOn(ck, n).iteration == ck.iteration + n
  {
    if n > 0 {
      StepsOnIteration(ck, n - 1);
    }
  }

  lemma AddedIteration(keys: seq<SenderMessageKey>, key: SenderMessageKey, all: seq<nat>)
    requires Iterations(keys) == LastN(all, MAX_MESSAGE_KEYS)
    ensures Iterations(LastN(keys + [key], MAX_MESSAGE_KEYS)) == LastN(all + [key.iteration], MAX_MESSAGE_KEYS)
  {
    TrimOneMore(all, key.iteration as nat, MAX_MESSAGE_KEYS);
    assert Iterations(LastN(keys + [key], MAX_MESSAGE_KEYS))
        == LastN(Iterations(keys) + [key.iteration], MAX_MESSAGE_KEYS);
  }

  lemma {:induction false} StoredIterations(keys: seq<SenderMessageKey>, ck: SenderChainKey, n: nat)
    requires ck.iteration + n < TWO32 && |keys| <= MAX_MESSAGE_KEYS
    ensures Iterations(Stored(keys, ck, n))
            == LastN(Iterations(keys) + Range(ck.iteration, ck.iteration + n), MAX_MESSAGE_KEYS)
  {
    hide Iterations, Range, StepsOn, LastN;
    RangeOneMore(Iterations(keys), ck.iteration, ck.iteration);
    if n == 0 {
      WithinLimit(Iterations(keys));
    } else {
      StoredIterations(keys, ck, n - 1);
      StepsOnIteration(ck, n - 1);
      AddedIteration(Stored(keys, ck, n - 1), MessageKeyOf(StepsOn(ck, n - 1)),
                     Iterations(keys) + Range(ck.iteration, ck.iteration + n - 1));
      RangeOneMore(Iterations(keys), ck.iteration, ck.iteration + n - 1);
    }
  }

  lemma WithinLimit(s: seq<nat>)
    ensures |s| <= MAX_MESSAGE_KEYS ==> LastN(s, MAX_MESSAGE_KEYS) == s
  {
  }

  lemma RemovedIteration(keys: seq<SenderMessageKey>, i: nat)
    requires i < |keys|
    ensures i < |Iterations(keys)| && Iterations(RemoveAt(keys, i)) == RemoveAt(Iterations(keys), i)
  {
  }

  /** Whatever its seeds are, a state hands out keys exactly as its window says. */
  lemma TakeFollowsTheWindow(s: SenderState, iteration: uint32)
    requires |s.messageKeys| <= MAX_MESSAGE_KEYS && iteration < TWO32 - 1
    ensures match Take(SenderWindow(s), iteration)
            case Duplicate => TakeSenderKey(s, iteration) == Err(DuplicateMessage)
            case TooFar => TakeSenderKey(s, iteration) == Err(InvalidMessage)
            case Accepted(w) =>
              && TakeSenderKey(s, iteration).Ok?
              && var s' := TakeSenderKey(s, iteration).value.0;
                 SenderWindow(s') == w && s' == s.(chainKey := s'.chainKey, messageKeys := s'.messageKeys)
  {
    hide Stored, StepsOn, Iterations, RemoveAt, LastN, Range;
    if s.chainKey.iteration > iteration {
      FoundWhereListed(s.messageKeys, iteration);
      var found := FindIteration(s.messageKeys, iteration);
      if found.Some? {
        RemovedIteration(s.messageKeys, found.value);
      }
    } else if iteration - s.chainKey.iteration <= MAX_MESSAGE_KEYS {
      StoredIterations(s.messageKeys, s.chainKey, iteration - s.chainKey.iteration);
      StepsOnIteration(s.chainKey, iteration - s.chainKey.iteration + 1);
    }
  }
}
