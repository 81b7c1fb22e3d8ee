/**
 Forward secrecy: what someone learns who is given everything a device holds at one
 step of a run, all its session secrets and any private keys. The keys of a message
 the device has accepted or sent in a session it still holds cannot be derived from
 that session's secrets; they follow only from private keys for every agreement that
 went into them, or from a session of another address with the same agreement that
 has not come as far.
 */
module ForwardSecrecy {
  import opened Common
  import opened Crypto
  import opened Ratchet
  import opened SkipWindow
  import opened Messages
  import opened SessionStates
  import opened SessionCiphers
  import opened ReceiverChains
  import opened SessionRecords
  import opened Replay
  import opened Devices
  import opened RecordHistory
  import opened DeviceRuns
  import opened AtMostOnce
  import opened Network

  // ---- What a device holds ----

  predicate InChain(c: ReceiverChain, x: Secret) {
    || x == c.chainKey.key
    || exists i :: 0 <= i < |c.messageKeys| && x in {c.messageKeys[i].cipherKey, c.messageKeys[i].macKey,
                                                     c.messageKeys[i].iv}
  }

  predicate InState(s: State, x: Secret) {
    || (s.rootKey.Some? && x == s.rootKey.value.key)
    || (s.senderChain.Some? && s.senderChain.value.chainKey.Some? && x == s.senderChain.value.chainKey.value.key)
    || exists i :: 0 <= i < |s.receiverChains| && InChain(s.receiverChains[i], x)
  }

  predicate HasState(d: Device, s: State) {
    exists a :: a in d.sessions && s in d.sessions[a].States()
  }

  /** A root key, chain key or message key of some session, current or archived, with any address. */
  ghost predicate InDevice(d: Device, x: Secret) {
    exists s :: HasState(d, s) && InState(s, x)
  }

  /** The secrets that follow from the session secrets of a device together with these private keys. */
  ghost predicate Learns(d: Device, ids: set<nat>, x: Secret) {
    || InDevice(d, x)
    || match x
       case Random(id) => id in ids
       case Text(_, input, _) =>
         forall i :: 0 <= i < |input| && input[i].Agreed? ==> KnowsShared(ids, input[i].shared)
       case Ratcheted(_, root, shared, _) => Learns(d, ids, root) && KnowsShared(ids, shared)
       case Hmac(key, _) => Learns(d, ids, key)
       case MessagePart(_, seed, _) => Learns(d, ids, seed)
       case GroupPart(seed, _) => Learns(d, ids, seed)
  }

  /** How far the sending chain has come. */
  function SendingPosition(s: State): nat
    requires Equipped(s)
  {
    Unstep(s.senderChain.value.chainKey.value.key).1
  }

  /** The chains of a session give the keys of position `x`: the sending chain or a receiver chain has not come past it,
      or its keys are stored. */
  predicate HandsOn(s: State, x: KeyName)
    requires Equipped(s)
  {
    || (x.base == SendingBase(s) && SendingPosition(s) <= x.counter)
    || exists i :: 0 <= i < |s.receiverChains| && !UsedUp(s.receiverChains[i], x)
  }

  /** These private keys give every agreement on the way from the root key `root` to `y`. */
  predicate Follows(root: Secret, ids: set<nat>, y: Secret) {
    match y
    case Ratcheted(_, before, shared, _) => KnowsShared(ids, shared) && (before == root || Follows(root, ids, before))
    case _ => false
  }

  /** The secrets of a session lead to the keys of position `x`: by its chains, or by root steps with these private
      keys. */
  predicate LeadsTo(s: State, ids: set<nat>, x: KeyName) {
    Equipped(s) && (HandsOn(s, x) || Follows(s.rootKey.value.key, ids, x.base))
  }

  /** Position `x` is behind a session: it is no deeper than the root key, and the chains have come past it. */
  predicate Behind(s: State, x: KeyName)
    requires Equipped(s)
  {
    IsChainBase(x.base) && Depth(x.base) <= Depth(s.rootKey.value.key) && !HandsOn(s, x)
  }

  lemma {:induction false} FollowsGoesDeeper(root: Secret, ids: set<nat>, y: Secret)
    requires Follows(root, ids, y)
    ensures Depth(y) > Depth(root) && Origin(y) == Origin(root)
  {
    if y.root != root {
      FollowsGoesDeeper(root, ids, y.root);
    }
  }

  /** A session does not lead back to a position behind it, whatever private keys come in addition. */
  lemma BehindLeadsNowhere(s: State, ids: set<nat>, x: KeyName)
    requires Equipped(s) && Behind(s, x)
    ensures !LeadsTo(s, ids, x)
  {
    hide HandsOn;
    if Follows(s.rootKey.value.key, ids, x.base) {
      FollowsGoesDeeper(s.rootKey.value.key, ids, x.base);
    }
  }

  /** A session leads only to positions from its own agreement. */
  lemma LeadsToItsOwn(s: State, ids: set<nat>, x: KeyName)
    requires Sound(s) && LeadsTo(s, ids, x)
    ensures Origin(x.base) == OriginOf(s)
  {
    hide LiesOn, Tidy, BaseOf, IsRoot;
    if Follows(s.rootKey.value.key, ids, x.base) {
      FollowsGoesDeeper(s.rootKey.value.key, ids, x.base);
    } else if x.base != SendingBase(s) {
      var i :| 0 <= i < |s.receiverChains| && !UsedUp(s.receiverChains[i], x);
      assert SoundChain(s.receiverChains[i], s.rootKey.value.key);
    }
  }

  // ---- What a session holds ----

  lemma {:induction false} UnstepKeepsOrigin(x: Secret)
    ensures Origin(Unstep(x).0) == Origin(x)
    ensures StepSecret(Unstep(x).0, Unstep(x).1) == x
  {
    match x
    case Hmac(key, 2) => UnstepKeepsOrigin(key);
    case _ =>
  }

  function KeyPart(kdf: nat, base: Secret, n: nat, part: Part): Secret {
    MessagePart(kdf, Hmac(StepSecret(base, n), MESSAGE_KEY_SEED), part)
  }

  /** A step of the chain's base, or a part of the keys of a stored position. */
  predicate OnChain(c: ReceiverChain, x: Secret) {
    || x == StepSecret(BaseOf(c), c.chainKey.index)
    || exists n, part :: n in WindowOf(c).stored && x == KeyPart(KDF, BaseOf(c), n, part)
  }

  lemma HeldByChain(c: ReceiverChain, x: Secret)
    requires LiesOn(c, BaseOf(c)) && InChain(c, x)
    ensures OnChain(c, x)
  {
    hide BaseOf, StepSecret;
    if x != c.chainKey.key {
      var i :| 0 <= i < |c.messageKeys| && x in {c.messageKeys[i].cipherKey, c.messageKeys[i].macKey,
                                                 c.messageKeys[i].iv};
      var n := c.messageKeys[i].counter;
      assert WindowOf(c).stored[i] == n && c.messageKeys[i] == KeysAt(KDF, BaseOf(c), n);
      assert x == KeyPart(KDF, BaseOf(c), n, x.part);
    }
  }

  /** The secrets of a session: its root key, and steps and stored positions of its chains. */
  lemma HeldByState(s: State, x: Secret)
    requires Sound(s) && InState(s, x)
    ensures || x == s.rootKey.value.key
            || x == StepSecret(SendingBase(s), SendingPosition(s))
            || exists i :: 0 <= i < |s.receiverChains| && OnChain(s.receiverChains[i], x)
  {
    UnstepKeepsOrigin(s.senderChain.value.chainKey.value.key);
    hide Unstep, StepSecret, IsRoot, ChainBaseOf, Tidy, OnChain, InChain, LiesOn;
    if x != s.rootKey.value.key && x != s.senderChain.value.chainKey.value.key {
      var i :| 0 <= i < |s.receiverChains| && InChain(s.receiverChains[i], x);
      assert SoundChain(s.receiverChains[i], s.rootKey.value.key);
      HeldByChain(s.receiverChains[i], x);
    }
  }

  lemma StepIsBehind(c: ReceiverChain, x: KeyName, j: nat)
    requires IsChainBase(x.base) && UsedUp(c, x) && j <= x.counter && IsBase(BaseOf(c))
    ensures !OnChain(c, StepSecret(x.base, j))
  {
    UnstepInverts(x.base, j);
    UnstepInverts(BaseOf(c), c.chainKey.index);
  }

  /** A chain step before a position the session does not hand on is not held. */
  lemma StepIsNotHeld(s: State, x: KeyName, j: nat)
    requires Sound(s) && IsChainBase(x.base) && !HandsOn(s, x) && j <= x.counter
    ensures !InState(s, StepSecret(x.base, j))
  {
    var y := StepSecret(x.base, j);
    UnstepInverts(x.base, j);
    UnstepInverts(SendingBase(s), SendingPosition(s));
    hide StepSecret, Unstep, OnChain, InState, UsedUp, LiesOn, Tidy;
    if InState(s, y) {
      HeldByState(s, y);
      forall i | 0 <= i < |s.receiverChains|
        ensures !OnChain(s.receiverChains[i], y)
      {
        assert SoundChain(s.receiverChains[i], s.rootKey.value.key);
        SoundBase(s.receiverChains[i], s.rootKey.value.key);
        StepIsBehind(s.receiverChains[i], x, j);
      }
    }
  }

  lemma SeedIsOnNoChain(c: ReceiverChain, x: KeyName)
    requires IsChainBase(x.base) && IsChainBase(BaseOf(c))
    ensures !OnChain(c, Hmac(StepSecret(x.base, x.counter), MESSAGE_KEY_SEED))
  {
    hide BaseOf;
  }

  lemma PartIsBehind(c: ReceiverChain, x: KeyName, kdf: nat, part: Part)
    requires IsChainBase(x.base) && UsedUp(c, x) && IsChainBase(BaseOf(c))
    ensures !OnChain(c, KeyPart(kdf, x.base, x.counter, part))
  {
    hide BaseOf;
    UnstepInverts(x.base, x.counter);
    if OnChain(c, KeyPart(kdf, x.base, x.counter, part)) {
      var n, q :| n in WindowOf(c).stored && KeyPart(kdf, x.base, x.counter, part) == KeyPart(KDF, BaseOf(c), n, q);
      UnstepInverts(BaseOf(c), n);
    }
  }

  /** The message keys of a position the session does not hand on are not held, nor is their seed. */
  lemma KeysAreNotHeld(s: State, x: KeyName, kdf: nat, part: Part)
    requires Sound(s) && IsChainBase(x.base) && !HandsOn(s, x)
    ensures !InState(s, KeyPart(kdf, x.base, x.counter, part))
    ensures !InState(s, Hmac(StepSecret(x.base, x.counter), MESSAGE_KEY_SEED))
  {
    var (y, seed) := (KeyPart(kdf, x.base, x.counter, part), Hmac(StepSecret(x.base, x.counter), MESSAGE_KEY_SEED));
    assert y.MessagePart? && seed.Hmac? && seed.tag == 1;
    forall i | 0 <= i < |s.receiverChains|
      ensures !OnChain(s.receiverChains[i], y) && !OnChain(s.receiverChains[i], seed)
    {
      hide OnChain, UsedUp, LiesOn, Tidy, KeyPart, StepSecret, BaseOf;
      assert SoundChain(s.receiverChains[i], s.rootKey.value.key);
      SeedIsOnNoChain(s.receiverChains[i], x);
      PartIsBehind(s.receiverChains[i], x, kdf, part);
    }
    hide OnChain, InState, KeyPart, UsedUp, SoundChains, Depth;
    if InState(s, y) {
      HeldByState(s, y);
    }
    if InState(s, seed) {
      HeldByState(s, seed);
    }
  }

  lemma RootIsOnNoChain(c: ReceiverChain, root: Secret)
    requires IsRoot(root) && IsChainBase(BaseOf(c))
    ensures !OnChain(c, root)
  {
    hide BaseOf;
  }

  /** The only root key a session holds is its own. */
  lemma RootIsHeld(s: State, root: Secret)
    requires Sound(s) && IsRoot(root)
    ensures InState(s, root) <==> root == s.rootKey.value.key
  {
    forall i | 0 <= i < |s.receiverChains|
      ensures !OnChain(s.receiverChains[i], root)
    {
      assert SoundChain(s.receiverChains[i], s.rootKey.value.key);
      hide OnChain, LiesOn, Tidy, BaseOf;
      RootIsOnNoChain(s.receiverChains[i], root);
    }
    assert IsChainBase(SendingBase(s)) && StepSecret(SendingBase(s), SendingPosition(s)) != root;
    hide OnChain, SoundChains, StepSecret, Unstep;
    if InState(s, root) {
      HeldByState(s, root);
    }
  }

  // ---- Exactly what is learned ----

  ghost predicate AllSound(d: Device) {
    forall s :: HasState(d, s) ==> Sound(s)
  }

  ghost predicate Led(d: Device, ids: set<nat>, x: KeyName) {
    exists s :: HasState(d, s) && LeadsTo(s, ids, x)
  }

  lemma {:induction false} KnownIsLearned(d: Device, ids: set<nat>, x: Secret)
    requires Knows(ids, x)
    ensures Learns(d, ids, x)
  {
    hide InDevice;
    match x
    case Ratcheted(_, root, _, _) => KnownIsLearned(d, ids, root);
    case Hmac(key, _) => KnownIsLearned(d, ids, key);
    case MessagePart(_, seed, _) => KnownIsLearned(d, ids, seed);
    case GroupPart(seed, _) => KnownIsLearned(d, ids, seed);
    case _ =>
  }

  lemma {:induction false} FollowedIsLearned(d: Device, ids: set<nat>, root: Secret, y: Secret)
    requires Learns(d, ids, root) && Follows(root, ids, y)
    ensures Learns(d, ids, y)
  {
    hide InDevice;
    if y.root != root {
      FollowedIsLearned(d, ids, root, y.root);
    }
  }

  predicate ComesTo(s: State, ids: set<nat>, root: Secret) {
    s.rootKey.Some? && (root == s.rootKey.value.key || Follows(s.rootKey.value.key, ids, root))
  }

  /** A root key is learned exactly from its agreements, or from a session's root key and the agreements since. */
  lemma {:induction false} LearnsRoot(d: Device, ids: set<nat>, root: Secret)
    requires AllSound(d) && IsRoot(root) && Learns(d, ids, root) && !Knows(ids, root)
    ensures exists s :: HasState(d, s) && ComesTo(s, ids, root)
  {
    hide InState, HasState, SoundChains;
    if InDevice(d, root) {
      var s :| HasState(d, s) && InState(s, root);
      RootIsHeld(s, root);
      assert ComesTo(s, ids, root);
    } else {
      LearnsRoot(d, ids, root.root);
      var s :| HasState(d, s) && ComesTo(s, ids, root.root);
      assert ComesTo(s, ids, root);
    }
  }

  lemma {:induction false} StepsForward(d: Device, ids: set<nat>, base: Secret, m: nat, n: nat)
    requires Learns(d, ids, StepSecret(base, m)) && m <= n
    ensures Learns(d, ids, StepSecret(base, n))
  {
    hide InDevice;
    if m < n {
      StepsForward(d, ids, base, m, n - 1);
    }
  }

  lemma StepGivesKeys(d: Device, ids: set<nat>, x: KeyName, m: nat, part: Part)
    requires Learns(d, ids, StepSecret(x.base, m)) && m <= x.counter
    ensures Learns(d, ids, KeyPart(KDF, x.base, x.counter, part))
  {
    hide InDevice, StepSecret;
    StepsForward(d, ids, x.base, m, x.counter);
    assert Learns(d, ids, Hmac(StepSecret(x.base, x.counter), MESSAGE_KEY_SEED));
  }

  lemma StoredIsHeld(c: ReceiverChain, n: nat, part: Part)
    requires LiesOn(c, BaseOf(c)) && n in WindowOf(c).stored
    ensures InChain(c, KeyPart(KDF, BaseOf(c), n, part))
  {
    var i :| 0 <= i < |WindowOf(c).stored| && WindowOf(c).stored[i] == n;
    hide BaseOf, StepSecret;
    assert c.messageKeys[i] == KeysAt(KDF, BaseOf(c), c.messageKeys[i].counter);
    assert KeyPart(KDF, BaseOf(c), n, part) in {c.messageKeys[i].cipherKey, c.messageKeys[i].macKey,
                                                c.messageKeys[i].iv};
  }

  lemma InStateIsLearned(d: Device, ids: set<nat>, s: State, y: Secret)
    requires HasState(d, s) && InState(s, y)
    ensures Learns(d, ids, y)
  {
    hide InState, HasState;
  }

  /** What a session hands on is learned. */
  lemma HandedOnIsLearned(d: Device, ids: set<nat>, s: State, x: KeyName, part: Part)
    requires HasState(d, s) && Sound(s) && HandsOn(s, x)
    ensures Learns(d, ids, KeyPart(KDF, x.base, x.counter, part))
  {
    hide Learns, HasState, Unstep, StepSecret, KeyPart, Tidy, IsRoot, ReceivedBefore, ChainBaseOf;
    if x.base == SendingBase(s) && SendingPosition(s) <= x.counter {
      UnstepKeepsOrigin(s.senderChain.value.chainKey.value.key);
      InStateIsLearned(d, ids, s, s.senderChain.value.chainKey.value.key);
      StepGivesKeys(d, ids, x, SendingPosition(s), part);
    } else {
      var i :| 0 <= i < |s.receiverChains| && !UsedUp(s.receiverChains[i], x);
      var c := s.receiverChains[i];
      assert SoundChain(c, s.rootKey.value.key);
      if x.counter in WindowOf(c).stored {
        StoredIsHeld(c, x.counter, part);
        InStateIsLearned(d, ids, s, KeyPart(KDF, x.base, x.counter, part));
      } else {
        InStateIsLearned(d, ids, s, c.chainKey.key);
        StepGivesKeys(d, ids, x, c.chainKey.index, part);
      }
    }
  }

  lemma LedToIsLearned(d: Device, ids: set<nat>, s: State, x: KeyName, part: Part)
    requires HasState(d, s) && Sound(s) && LeadsTo(s, ids, x)
    ensures Learns(d, ids, KeyPart(KDF, x.base, x.counter, part))
  {
    hide Learns, HasState, HandsOn, SoundChains, Follows, KeyPart, IsRoot;
    if HandsOn(s, x) {
      HandedOnIsLearned(d, ids, s, x, part);
    } else {
      InStateIsLearned(d, ids, s, s.rootKey.value.key);
      FollowedIsLearned(d, ids, s.rootKey.value.key, x.base);
      assert StepSecret(x.base, 0) == x.base;
      StepGivesKeys(d, ids, x, 0, part);
    }
  }

  lemma NotLed(d: Device, ids: set<nat>, x: KeyName, s: State)
    requires AllSound(d) && HasState(d, s) && !Led(d, ids, x)
    ensures Sound(s) && !HandsOn(s, x) && !Follows(s.rootKey.value.key, ids, x.base)
  {
    hide HandsOn, HasState;
  }

  /** A base no session leads to is learned only from its agreements. */
  lemma LearnsBase(d: Device, ids: set<nat>, x: KeyName)
    requires AllSound(d) && IsChainBase(x.base) && !Led(d, ids, x) && Learns(d, ids, x.base) && !InDevice(d, x.base)
    ensures Knows(ids, x.base)
  {
    hide AllSound, Led, InDevice, Sound, HandsOn, HasState;
    if x.base.Ratcheted? && !Knows(ids, x.base.root) {
      LearnsRoot(d, ids, x.base.root);
      var s :| HasState(d, s) && ComesTo(s, ids, x.base.root);
      NotLed(d, ids, x, s);
    }
  }

  lemma {:induction false} LearnsStep(d: Device, ids: set<nat>, x: KeyName, j: nat)
    requires AllSound(d) && IsChainBase(x.base) && !Led(d, ids, x) && j <= x.counter
    requires Learns(d, ids, StepSecret(x.base, j))
    ensures Knows(ids, StepSecret(x.base, j))
  {
    hide AllSound, Led, HandsOn, InState, HasState, Sound;
    if InDevice(d, StepSecret(x.base, j)) {
      var s :| HasState(d, s) && InState(s, StepSecret(x.base, j));
      NotLed(d, ids, x, s);
      StepIsNotHeld(s, x, j);
    }
    hide InDevice;
    if j == 0 {
      LearnsBase(d, ids, x);
    } else {
      LearnsStep(d, ids, x, j - 1);
    }
  }

  /** Exactly what is learned: given all session secrets of a device and any private keys, the keys of a chain position
      follow if and only if the private keys alone give every agreement they are derived from, or the secrets of some
      session lead to the position. */
  lemma LearnsExactly(d: Device, ids: set<nat>, x: KeyName, part: Part)
    requires AllSound(d) && IsChainBase(x.base)
    ensures var y := KeyPart(KDF, x.base, x.counter, part); Learns(d, ids, y) <==> Knows(ids, y) || Led(d, ids, x)
  {
    var (y, seed) := (KeyPart(KDF, x.base, x.counter, part), Hmac(StepSecret(x.base, x.counter), MESSAGE_KEY_SEED));
    hide InState, HasState, LeadsTo, HandsOn, Sound;
    if Knows(ids, y) {
      KnownIsLearned(d, ids, y);
    }
    if Led(d, ids, x) {
      var s :| HasState(d, s) && LeadsTo(s, ids, x);
      LedToIsLearned(d, ids, s, x, part);
    } else if Learns(d, ids, y) {
      forall s | HasState(d, s)
        ensures !InState(s, y) && !InState(s, seed)
      {
        NotLed(d, ids, x, s);
        KeysAreNotHeld(s, x, KDF, part);
      }
      assert !InDevice(d, y) && !InDevice(d, seed);
      assert Learns(d, ids, seed);
      LearnsStep(d, ids, x, x.counter);
    }
  }

  // ---- Messages received ----

  lemma IntactIsSound(s: State, me: nat, macs: set<Secret>)
    requires Intact(s, me, macs)
    ensures Sound(s)
  {
  }

  lemma SafeIsSound(d: Device, heard: Heard)
    requires Safe(d, heard)
    ensures AllSound(d)
  {
    hide Intact, Sound;
    forall s | HasState(d, s)
      ensures Sound(s)
    {
      var a :| a in d.sessions && s in d.sessions[a].States();
      assert SafeAt(d, heard, a);
      IntactIsSound(s, Me(d), HeardAt(heard, a));
    }
  }

  /** The secrets of a session with another address lead to position `x`. */
  ghost predicate LedFromElsewhere(d: Device, a: Address, ids: set<nat>, x: KeyName) {
    exists b, s :: b in d.sessions && b != a && s in d.sessions[b].States() && LeadsTo(s, ids, x)
  }

  /** The chains of a session with another address have not come past position `x`, or its keys are stored there. */
  ghost predicate HandedOnElsewhere(d: Device, a: Address, x: KeyName) {
    exists b, s :: b in d.sessions && b != a && s in d.sessions[b].States() && Equipped(s) && HandsOn(s, x)
  }

  /** No record of another address holds a session from this agreement. */
  predicate OnlyHeldAt(d: Device, a: Address, o: seq<Block>) {
    forall b :: b in d.sessions && b != a ==> !Holds(d.sessions[b].States(), o)
  }

  /** Only a session with another address can lead to a position that is behind a session of this one. */
  lemma LedOnlyFromElsewhere(d: Device, heard: Heard, a: Address, i: nat, ids: set<nat>, x: KeyName)
    requires Safe(d, heard) && a in d.sessions && i < |d.sessions[a].States()|
    requires var s := d.sessions[a].States()[i]; Equipped(s) && Behind(s, x) && Origin(x.base) == OriginOf(s)
    ensures Led(d, ids, x) <==> LedFromElsewhere(d, a, ids, x)
    ensures OnlyHeldAt(d, a, Origin(x.base)) ==> !LedFromElsewhere(d, a, ids, x)
  {
    hide Intact, LeadsTo, OriginOf, Behind, HandsOn, Equipped, Sound;
    SafeIsSound(d, heard);
    var states := d.sessions[a].States();
    assert SafeAt(d, heard, a);
    forall j | 0 <= j < |states|
      ensures !LeadsTo(states[j], ids, x)
    {
      if j == i {
        BehindLeadsNowhere(states[i], ids, x);
      } else if LeadsTo(states[j], ids, x) {
        IntactIsSound(states[j], Me(d), HeardAt(heard, a));
        LeadsToItsOwn(states[j], ids, x);
        OriginsDiffer(states, Me(d), HeardAt(heard, a), i, j);
      }
    }
    if LedFromElsewhere(d, a, ids, x) {
      var b, s :| b in d.sessions && b != a && s in d.sessions[b].States() && LeadsTo(s, ids, x);
      assert HasState(d, s);
      LeadsToItsOwn(s, ids, x);
    }
  }

  /** Without private keys there are no root steps. */
  lemma LedWithoutKeys(d: Device, a: Address, x: KeyName)
    ensures LedFromElsewhere(d, a, {}, x) <==> HandedOnElsewhere(d, a, x)
  {
    hide HandsOn;
    assert forall s: State :: LeadsTo(s, {}, x) <==> Equipped(s) && HandsOn(s, x);
  }

  lemma NothingKnown(y: Secret)
    requires |Origin(y)| >= 3 && Origin(y)[2].Agreed?
    ensures !Knows({}, y)
  {
    if Knows({}, y) {
      KnowsItsOrigin({}, y, 2);
    }
  }

  /** The cipher key, the MAC key or the initialization vector of the message with MAC key `k`. */
  function PartOf(k: Secret, part: Part): Secret {
    match k
    case MessagePart(kdf, seed, _) => MessagePart(kdf, seed, part)
    case _ => k
  }

  /** The position of an accepted message is behind the session that accepted it. */
  lemma AcceptedIsBehind(s: State, me: nat, macs: set<Secret>, k: Secret)
    requires Intact(s, me, macs) && k in macs && Origin(k) == OriginOf(s)
    ensures Equipped(s) && Behind(s, NameOf(k))
  {
    hide SoundChains, UsedUp, NameOf;
    assert NameOf(k) in Names(macs, OriginOf(s));
    assert Depth(SendingBase(s)) == Depth(s.rootKey.value.key);
  }

  /** The record a receiving step reads with. */
  lemma ReadIsIntact(d: Device, heard: Heard, e: Event)
    requires Safe(d, heard) && Allowed(d, e) && ReadWith(d, e).Some?
    ensures var (r, m) := ReadWith(d, e).value;
            IntactRecord(r, Me(d), Remembered(HeardAt(heard, e.a), r.States())) && m.counter < TWO32 - 1
  {
    hide IntactRecord, Remembered, SafeAt, Answered;
    if e.Receive? {
      LoadedIsIntact(d, heard, e.a);
    } else {
      AnsweredIsIntact(d, heard, e.a, e.p, e.f.loads);
    }
  }

  /** The MAC key of a chain position. */
  predicate IsMacKey(k: Secret) {
    k == KeyPart(KDF, NameOf(k).base, NameOf(k).counter, MacPart)
  }

  lemma AcceptedIsMacKey(d: Device, heard: Heard, e: Event)
    requires Safe(d, heard) && Allowed(d, e) && AcceptedKey(d, e).Some?
    ensures IsMacKey(AcceptedKey(d, e).value)
  {
    assert e.Receive? || e.ReceivePreKey?;
    hide Step, AcceptedKey, Safe, Allowed, ReadWith, DecryptedFromRecord, Decrypted, Intact, Remembered, NameOf;
    ReceiveStores(d, e);
    ReadIsIntact(d, heard, e);
    var (r, m) := ReadWith(d, e).value;
    var macs := Remembered(HeardAt(heard, e.a), r.States());
    var i, drawn := AcceptedByOneState(r, m, d.next);
    IntactIsSound(r.States()[i], Me(d), macs);
    AcceptedUnder(r.States()[i], Me(d), macs, m, drawn);
    KeyForOrigin(r.States()[i], m);
    NameOfMacKey(KeyFor(r.States()[i], m).base, m.counter);
  }

  lemma {:induction false} HeardAreMacKeys(d: Device, events: seq<Event>, a: Address, k: Secret)
    requires Installed(d) && AllowedRun(d, events) && k in HeardAt(HeardIn(d, events), a)
    ensures IsMacKey(k)
  {
    hide Step, AcceptedKey, Safe, Allowed, IsMacKey;
    if events != [] {
      var (before, last) := (events[..|events| - 1], events[|events| - 1]);
      PrefixIsAllowed(d, events, |events| - 1);
      StepIsAllowed(d, events, |events| - 1);
      if k in HeardAt(HeardIn(d, before), a) {
        HeardAreMacKeys(d, before, a, k);
      } else {
        RunKeepsSafe(d, before);
        AcceptedIsMacKey(Run(d, before), HeardIn(d, before), last);
      }
    }
  }

  /** Where a heard message stands in its session. */
  lemma HeardIsBehind(d: Device, heard: Heard, a: Address, k: Secret) returns (i: nat)
    requires Safe(d, heard) && k in HeardAt(heard, a)
    ensures a in d.sessions && i < |d.sessions[a].States()|
    ensures var s := d.sessions[a].States()[i]; Equipped(s) && Behind(s, NameOf(k)) && OriginOf(s) == Origin(k)
    ensures |Origin(k)| >= 3 && Origin(k)[2].Agreed?
  {
    assert SafeAt(d, heard, a);
    var states := d.sessions[a].States();
    hide NameOf, Behind, Spent, Sound, Equipped, Origin;
    i :| 0 <= i < |states| && OriginOf(states[i]) == Origin(k);
    assert Intact(states[i], Me(d), HeardAt(heard, a));
    AcceptedIsBehind(states[i], Me(d), HeardAt(heard, a), k);
  }

  lemma MacKeyParts(k: Secret, part: Part)
    requires IsMacKey(k)
    ensures PartOf(k, part) == KeyPart(KDF, NameOf(k).base, NameOf(k).counter, part)
    ensures Origin(PartOf(k, part)) == Origin(k)
    ensures IsChainBase(NameOf(k).base) ==> Origin(NameOf(k).base) == Origin(k)
  {
    hide NameOf;
    if IsChainBase(NameOf(k).base) {
      UnstepInverts(NameOf(k).base, NameOf(k).counter);
    }
  }

  /** Exactly when the key `y` of a position that is behind a session with `a` is learned. It follows from the private
      keys alone, or a session with another address leads to it. Such a session comes from the same agreement. Without
      private keys it leads there exactly if its chains have not come past the position, or it has stored the keys. */
  ghost predicate ExactlySecret(d: Device, a: Address, ids: set<nat>, x: KeyName, y: Secret) {
    && (Learns(d, ids, y) <==> Knows(ids, y) || LedFromElsewhere(d, a, ids, x))
    && (OnlyHeldAt(d, a, Origin(y)) ==> !LedFromElsewhere(d, a, ids, x))
    && (Learns(d, {}, y) <==> HandedOnElsewhere(d, a, x))
  }

  lemma BehindIsSecret(d: Device, heard: Heard, a: Address, i: nat, ids: set<nat>, x: KeyName, part: Part)
    requires Safe(d, heard) && a in d.sessions && i < |d.sessions[a].States()|
    requires var s := d.sessions[a].States()[i]; Equipped(s) && Behind(s, x) && Origin(x.base) == OriginOf(s)
    requires |Origin(x.base)| >= 3 && Origin(x.base)[2].Agreed?
    ensures ExactlySecret(d, a, ids, x, KeyPart(KDF, x.base, x.counter, part))
  {
    BehindIsChainBase(d.sessions[a].States()[i], x);
    UnstepInverts(x.base, x.counter);
    assert Origin(KeyPart(KDF, x.base, x.counter, part)) == Origin(x.base);
    hide Behind, Learns, Knows, Safe, LedFromElsewhere, HandedOnElsewhere, OnlyHeldAt, Led, HandsOn, OriginOf, Origin;
    hide Equipped, KeyPart, StepSecret, Unstep;
    SafeIsSound(d, heard);
    LearnsExactly(d, ids, x, part);
    LearnsExactly(d, {}, x, part);
    LedOnlyFromElsewhere(d, heard, a, i, ids, x);
    LedOnlyFromElsewhere(d, heard, a, i, {}, x);
    LedWithoutKeys(d, a, x);
    NothingKnown(KeyPart(KDF, x.base, x.counter, part));
  }

  /** Forward secrecy of received messages, exactly: whoever is given every session secret of the device at any point of
      any run, and any private keys, learns a key of a message accepted by a session still in the record if and only if
      those private keys alone give every agreement the key is derived from, or a session with another address leads
      there. That other session comes from the same agreement; without private keys it leads there exactly if its
      chains have not come past the message, or it has stored the message's keys. */
  lemma ReceivedStaysSecret(d: Device, events: seq<Event>, ids: set<nat>, a: Address, k: Secret, part: Part)
    requires Installed(d) && AllowedRun(d, events) && k in HeardAt(HeardIn(d, events), a)
    ensures ExactlySecret(Run(d, events), a, ids, NameOf(k), PartOf(k, part))
  {
    var (w, x) := (Run(d, events), NameOf(k));
    hide Run, HeardIn, AllowedRun, NameOf, Behind, Safe, PartOf, KeyPart, OriginOf, Equipped, IsMacKey, ExactlySecret;
    RunKeepsSafe(d, events);
    HeardAreMacKeys(d, events, a, k);
    MacKeyParts(k, part);
    var i := HeardIsBehind(w, HeardIn(d, events), a, k);
    BehindIsChainBase(w.sessions[a].States()[i], x);
    BehindIsSecret(w, HeardIn(d, events), a, i, ids, x, part);
  }

  lemma BehindIsChainBase(s: State, x: KeyName)
    requires Equipped(s) && Behind(s, x)
    ensures IsChainBase(x.base)
  {
  }

  // ---- Messages sent ----

  /** For every address, the chain keys whose messages were sent by sessions that have been in its record ever since. */
  type Said = map<Address, set<Secret>>

  /** The chain key of the message a step sends. */
  function Spoken(d: Device, e: Event, a: Address): set<Secret> {
    if Emitted(d, e).None? || e.a != a then {}
    else
      var s := Load(d, a).state;
      if s.senderChain.Some? && s.senderChain.value.chainKey.Some? then {s.senderChain.value.chainKey.value.key} else {}
  }

  function SaidAfter(d: Device, said: Said, e: Event): Said {
    var d' := Step(d, e);
    map a | a in d'.sessions :: Remembered(HeardAt(said, a), d'.sessions[a].States()) + Spoken(d, e, a)
  }

  function SaidIn(d: Device, events: seq<Event>): Said {
    if events == [] then map[]
    else
      var (before, last) := (events[..|events| - 1], events[|events| - 1]);
      SaidAfter(Run(d, before), SaidIn(d, before), last)
  }

  /** A chain key the session has sent with and stepped past. Sending chains are derived with every second root key. */
  predicate Passed(s: State, c: Secret) {
    && Equipped(s)
    && var ((base, n), root) := (Unstep(c), s.rootKey.value.key);
       && IsChainBase(base) && Depth(base) <= Depth(root) && (Depth(root) - Depth(base)) % 2 == 0
       && (base == SendingBase(s) ==> n < SendingPosition(s))
  }

  ghost predicate AllPassed(states: seq<State>, said: set<Secret>) {
    && (forall i, c :: 0 <= i < |states| && c in said && Origin(c) == OriginOf(states[i]) ==> Passed(states[i], c))
    && forall c :: c in said ==> Holds(states, Origin(c))
  }

  ghost predicate PassedAt(d: Device, said: Said, a: Address) {
    if a in d.sessions then AllPassed(d.sessions[a].States(), HeardAt(said, a)) else HeardAt(said, a) == {}
  }

  lemma PassedIsBehind(s: State, c: Secret)
    requires Sound(s) && Passed(s, c)
    ensures Behind(s, KeyName(Unstep(c).0, Unstep(c).1))
  {
    hide LiesOn, Tidy, BaseOf, Unstep, Depth;
    forall i | 0 <= i < |s.receiverChains|
      ensures UsedUp(s.receiverChains[i], KeyName(Unstep(c).0, Unstep(c).1))
    {
      assert SoundChain(s.receiverChains[i], s.rootKey.value.key);
    }
  }

  // ---- What a session does keeps ----

  lemma SendingPasses(s: State, text: Text, c: Secret)
    requires Sound(s) && Encrypted(s, text).Ok? && Passed(s, c)
    ensures Passed(Encrypted(s, text).value.0, c)
  {
    hide SoundChains, IsRoot, Depth;
  }

  /** The chain key of the message just sent is behind the session. */
  lemma SentIsPassed(s: State, text: Text)
    requires Sound(s) && Encrypted(s, text).Ok?
    ensures Passed(Encrypted(s, text).value.0, s.senderChain.value.chainKey.value.key)
    ensures Origin(s.senderChain.value.chainKey.value.key) == OriginOf(s)
  {
    UnstepKeepsOrigin(s.senderChain.value.chainKey.value.key);
    hide SoundChains;
  }

  lemma AcceptingKeepsPassed(s: State, m: Message, next: nat, c: Secret)
    requires Sound(s) && Decrypted(s, m, next).Ok? && Passed(s, c)
    ensures Passed(Decrypted(s, m, next).value.0, c)
  {
    hide TakeKeys, WithChain, MacVerifies, DecryptBody, SoundChains, Unstep;
    if FindChain(s.receiverChains, m.ratchetKey).None? {
      NewBaseFacts(s, m.ratchetKey, next);
      var s' := OpenChain(s, m.ratchetKey, next).value.0;
      assert Depth(SendingBase(s')) == Depth(s'.rootKey.value.key);
    }
  }

  // ---- What a record keeps ----

  lemma RecordAfterSent(r: Record, me: nat, macs: set<Secret>, said: set<Secret>, text: Text)
    requires IntactRecord(r, me, macs) && AllPassed(r.States(), said) && Encrypted(r.state, text).Ok?
    requires r.state.senderChain.Some? && r.state.senderChain.value.chainKey.Some?
    ensures AllPassed(r.(state := Encrypted(r.state, text).value.0).States(),
                      said + {r.state.senderChain.value.chainKey.value.key})
  {
    var (c, s') := (r.state.senderChain.value.chainKey.value.key, Encrypted(r.state, text).value.0);
    var (states, states') := (r.States(), r.(state := s').States());
    assert OriginOf(s') == OriginOf(r.state);
    hide Intact, OriginOf, Passed, Encrypted;
    IntactIsSound(states[0], me, macs);
    SentIsPassed(r.state, text);
    forall i, x | 0 <= i < |states'| && x in said + {c} && Origin(x) == OriginOf(states'[i])
      ensures Passed(states'[i], x)
    {
      if i > 0 {
        OriginsDiffer(states, me, macs, 0, i);
      } else if x != c {
        SendingPasses(r.state, text, x);
      }
    }
    assert OriginOf(states'[0]) == Origin(c);
    forall x | x in said
      ensures Holds(states', Origin(x))
    {
      var i :| 0 <= i < |states| && OriginOf(states[i]) == Origin(x);
      assert OriginOf(states'[i]) == Origin(x);
    }
  }

  lemma RecordAfterAccepting(r: Record, me: nat, macs: set<Secret>, said: set<Secret>, m: Message, next: nat)
    requires IntactRecord(r, me, macs) && m.counter < TWO32 - 1 && DecryptedFromRecord(r, m, next).result.Ok?
    requires AllPassed(r.States(), said)
    ensures AllPassed(DecryptedFromRecord(r, m, next).record.States(), said)
  {
    hide Intact, OriginOf, Passed, Decrypted, DecryptedFromRecord;
    var r' := DecryptedFromRecord(r, m, next).record;
    var i, drawn := AcceptedByOneState(r, m, next);
    var (states, states') := (r.States(), r'.States());
    AcceptKeepsState(states[i], me, macs, m, drawn);
    assert OriginOf(states'[0]) == OriginOf(states[i]) by {
      SameSessionSameOrigin(states[i], states'[0]);
    }
    forall j, x | 0 <= j < |states'| && x in said && Origin(x) == OriginOf(states'[j])
      ensures Passed(states'[j], x)
    {
      if j == 0 {
        IntactIsSound(states[i], me, macs);
        AcceptingKeepsPassed(states[i], m, drawn, x);
      } else {
        assert states'[j] == states[if j - 1 < i then j - 1 else j];
      }
    }
    forall x | x in said
      ensures Holds(states', Origin(x))
    {
      StillHeld(states, states', i, Origin(x));
    }
  }

  lemma SameSessionSameOrigin(s: State, s': State)
    requires SameSession(s, s')
    ensures OriginOf(s') == OriginOf(s)
  {
  }

  /** A new session in front: nothing was sent under its agreement yet. */
  lemma RecordWithNewSession(r: Record, me: nat, macs: set<Secret>, said: set<Secret>, s: State)
    requires r.isFresh ==> said == {} && r.previous == []
    requires !r.isFresh ==> IntactRecord(r, me, macs) && AllPassed(r.States(), said)
    requires Rooted(s, me)
    requires !r.isFresh ==> forall i :: 0 <= i < |r.States()| ==> r.States()[i].aliceBaseKey != s.aliceBaseKey
    ensures var states' := Cleared(r).(state := s).States(); AllPassed(states', Remembered(said, states'))
  {
    hide Passed, Sound, Spent, Rooted;
    var states' := Cleared(r).(state := s).States();
    forall i, x | 0 <= i < |states'| && x in said && Origin(x) == OriginOf(states'[i])
      ensures Passed(states'[i], x)
    {
      if i == 0 {
        var j :| 0 <= j < |r.States()| && OriginOf(r.States()[j]) == Origin(x);
        assert Intact(r.States()[j], me, macs);
        DifferentBasesDifferentOrigins(r.States()[j], s, me);
      } else {
        assert states'[i] == r.States()[i - 1];
      }
    }
  }

  // ---- What a device keeps ----

  ghost predicate PassedIn(d: Device, said: Said) {
    forall a :: PassedAt(d, said, a)
  }

  lemma AllRemembered(states: seq<State>, said: set<Secret>)
    requires AllPassed(states, said)
    ensures Remembered(said, states) == said
  {
    hide Passed;
  }

  /** An address whose record a step leaves alone. */
  lemma UntouchedStaysPassed(d: Device, said: Said, e: Event, a: Address)
    requires PassedAt(d, said, a) && Spoken(d, e, a) == {}
    requires var d' := Step(d, e);
             (a in d'.sessions <==> a in d.sessions) && (a in d.sessions ==> d'.sessions[a] == d.sessions[a])
    ensures PassedAt(Step(d, e), SaidAfter(d, said, e), a)
  {
    hide AllPassed, Step, Spoken, Remembered;
    if a in d.sessions {
      AllRemembered(d.sessions[a].States(), HeardAt(said, a));
      assert HeardAt(said, a) + {} == HeardAt(said, a);
    }
  }

  lemma OthersStayPassed(d: Device, said: Said, e: Event, a: Address)
    requires PassedIn(d, said) && OnlyAt(d, Step(d, e), a) && (Emitted(d, e).Some? ==> e.a == a)
    requires PassedAt(Step(d, e), SaidAfter(d, said, e), a)
    ensures PassedIn(Step(d, e), SaidAfter(d, said, e))
  {
    hide PassedAt, Step, Emitted, SaidAfter;
    forall b
      ensures PassedAt(Step(d, e), SaidAfter(d, said, e), b)
    {
      if b != a {
        UntouchedStaysPassed(d, said, e, b);
      }
    }
  }

  lemma SessionsStayPassed(d: Device, said: Said, e: Event)
    requires PassedIn(d, said) && Emitted(d, e).None? && Step(d, e).sessions == d.sessions
    ensures PassedIn(Step(d, e), SaidAfter(d, said, e))
  {
    hide PassedAt, Step, Emitted, SaidAfter;
    forall a
      ensures PassedAt(Step(d, e), SaidAfter(d, said, e), a)
    {
      UntouchedStaysPassed(d, said, e, a);
    }
  }

  lemma EmittedIsStored(d: Device, e: Event)
    requires e.Encrypt? && Emitted(d, e).Some?
    ensures var r := Load(d, e.a);
            && e.a in d.sessions && Encrypted(r.state, e.text).Ok?
            && r.state.senderChain.Some? && r.state.senderChain.value.chainKey.Some?
            && Spoken(d, e, e.a) == {r.state.senderChain.value.chainKey.value.key}
            && e.a in Step(d, e).sessions
            && Step(d, e).sessions[e.a].States() == r.(state := Encrypted(r.state, e.text).value.0).States()
  {
    NothingToSend(e.text);
  }

  lemma EncryptKeepsPassed(d: Device, heard: Heard, said: Said, e: Event)
    requires Safe(d, heard) && PassedIn(d, said) && e.Encrypt?
    ensures PassedIn(Step(d, e), SaidAfter(d, said, e))
  {
    EncryptStores(d, e);
    if Emitted(d, e).None? {
      assert Step(d, e).sessions == d.sessions;
      SessionsStayPassed(d, said, e);
    } else {
      EmittedIsStored(d, e);
      hide AllPassed, Step, Emitted, Spoken, Remembered, IntactRecord, Encrypted;
      var (a, d', r) := (e.a, Step(d, e), Load(d, e.a));
      assert PassedAt(d, said, a);
      LoadedIsIntact(d, heard, a);
      assert r.States() == d.sessions[a].States();
      RecordAfterSent(r, Me(d), HeardAt(heard, a), HeardAt(said, a), e.text);
      SentIsRemembered(HeardAt(said, a), Spoken(d, e, a), r.States(), d'.sessions[a].States());
      OthersStayPassed(d, said, e, a);
    }
  }

  lemma SentIsRemembered(said: set<Secret>, more: set<Secret>, states: seq<State>, states': seq<State>)
    requires AllPassed(states, said) && AllPassed(states', said + more)
    ensures AllPassed(states', Remembered(said, states') + more)
  {
    hide Passed;
    assert Remembered(said, states') == said;
  }

  /** The record a pre-key message is decrypted with. */
  lemma AnsweredIsPassed(d: Device, heard: Heard, said: Said, a: Address, p: PreKeyMessage, loads: LoadFaults)
    requires Safe(d, heard) && PassedIn(d, said) && Parsed(p) && Answered(d, Load(d, a), p, loads).Ok?
    ensures var states := Answered(d, Load(d, a), p, loads).value.0.States();
            AllPassed(states, Remembered(HeardAt(said, a), states))
  {
    hide AnsweringState, Remembered, IntactStates, BasesBelow, AllPassed;
    assert SafeAt(d, heard, a) && PassedAt(d, said, a);
    var r := Load(d, a);
    if a in d.sessions {
      LoadedIsIntact(d, heard, a);
      assert r.States() == d.sessions[a].States();
      AllRemembered(r.States(), HeardAt(said, a));
    }
    if !HasSession(r, p.version, p.baseKey) {
      var (oneTime, cleared) := (if p.preKeyId.Some? then Some(d.preKeys[p.preKeyId.value]) else None, Cleared(r));
      var s := AnsweringState(d, cleared.state, p, d.signedPreKeys[p.signedPreKeyId], oneTime);
      AnsweringStateIsSound(d, cleared.state, p, d.signedPreKeys[p.signedPreKeyId], oneTime);
      if a in d.sessions {
        NewBaseKey(r, Me(d), HeardAt(heard, a), p);
      }
      RecordWithNewSession(r, Me(d), HeardAt(heard, a), HeardAt(said, a), s);
    }
  }

  lemma ReadIsPassed(d: Device, heard: Heard, said: Said, e: Event)
    requires Safe(d, heard) && PassedIn(d, said) && Allowed(d, e) && ReadWith(d, e).Some?
    ensures var r := ReadWith(d, e).value.0; AllPassed(r.States(), Remembered(HeardAt(said, e.a), r.States()))
  {
    hide IntactRecord, Remembered, SafeAt, Answered, AllPassed;
    if e.Receive? {
      assert PassedAt(d, said, e.a) && Load(d, e.a).States() == d.sessions[e.a].States();
      AllRemembered(d.sessions[e.a].States(), HeardAt(said, e.a));
    } else {
      AnsweredIsPassed(d, heard, said, e.a, e.p, e.f.loads);
    }
  }

  lemma AcceptedIsPassed(d: Device, heard: Heard, said: Said, e: Event)
    requires Safe(d, heard) && PassedIn(d, said) && Allowed(d, e) && (e.Receive? || e.ReceivePreKey?)
    requires AcceptedKey(d, e).Some? && Spoken(d, e, e.a) == {}
    ensures PassedAt(Step(d, e), SaidAfter(d, said, e), e.a)
  {
    hide Step, AcceptedKey, IntactRecord, AllPassed, DecryptedFromRecord, Remembered, Safe, Allowed, ReadWith, PassedIn;
    hide Spoken, HeardAt, Holds, HasSession;
    ReceiveStores(d, e);
    ReadIsIntact(d, heard, e);
    ReadIsPassed(d, heard, said, e);
    var ((r, m), d') := (ReadWith(d, e).value, Step(d, e));
    var (macs, left) := (Remembered(HeardAt(heard, e.a), r.States()), Remembered(HeardAt(said, e.a), r.States()));
    RecordAfterAccepting(r, Me(d), macs, left, m, d.next);
    AcceptKeepsRecord(r, Me(d), macs, m, d.next);
    var states' := DecryptedFromRecord(r, m, d.next).record.States();
    assert d'.sessions[e.a].States() == states';
    SameHeldSameRemembered(HeardAt(said, e.a), r.States(), states');
    AddsNothing(d, said, e, left);
  }

  lemma AddsNothing(d: Device, said: Said, e: Event, left: set<Secret>)
    requires (e.Receive? || e.ReceivePreKey? || e.ProcessBundle?) && e.a in Step(d, e).sessions
    requires Spoken(d, e, e.a) == {}
    requires var states' := Step(d, e).sessions[e.a].States();
             Remembered(HeardAt(said, e.a), states') == left && AllPassed(states', left)
    ensures PassedAt(Step(d, e), SaidAfter(d, said, e), e.a)
  {
    hide Step, AllPassed, Remembered, Spoken;
    assert left + {} == left;
  }

  lemma ReceiveKeepsPassed(d: Device, heard: Heard, said: Said, e: Event)
    requires Safe(d, heard) && PassedIn(d, said) && Allowed(d, e) && (e.Receive? || e.ReceivePreKey?)
    ensures PassedIn(Step(d, e), SaidAfter(d, said, e))
  {
    assert Emitted(d, e).None?;
    hide Step, AcceptedKey, Safe, Allowed, ReadWith, Emitted, PassedIn, SaidAfter, PassedAt, StoresAccepted;
    ReceiveStores(d, e);
    if AcceptedKey(d, e).None? {
      SessionsStayPassed(d, said, e);
    } else {
      AcceptedIsPassed(d, heard, said, e);
      OthersStayPassed(d, said, e, e.a);
    }
  }

  lemma SameHeldSameRemembered(said: set<Secret>, states: seq<State>, states': seq<State>)
    requires forall o :: Holds(states', o) <==> Holds(states, o)
    ensures Remembered(said, states') == Remembered(said, states)
  {
  }

  lemma BundleKeepsPassed(d: Device, heard: Heard, said: Said, e: Event)
    requires Safe(d, heard) && PassedIn(d, said) && Allowed(d, e) && e.ProcessBundle?
    ensures PassedIn(Step(d, e), SaidAfter(d, said, e))
  {
    assert Emitted(d, e).None? && e.b.identityKey.id < d.next;
    BundleOnlyAt(d, e);
    if Step(d, e).sessions == d.sessions {
      hide Step, Emitted, PassedIn;
      SessionsStayPassed(d, said, e);
    } else {
      BundleStores(d, e);
      hide Step, Emitted, OpeningState, Remembered, AllPassed, Safe, Cleared, PassedIn;
      var (a, r) := (e.a, Load(d, e.a));
      OpenedIsPassed(d, heard, said, a, e.b);
      assert Step(d, e).sessions[a].States() == Cleared(r).(state := OpeningState(d, Cleared(r).state, e.b)).States();
      AddsNothing(d, said, e, Remembered(HeardAt(said, a), Step(d, e).sessions[a].States()));
      OthersStayPassed(d, said, e, a);
    }
  }

  /** The record a bundle is opened in. */
  lemma OpenedIsPassed(d: Device, heard: Heard, said: Said, a: Address, b: Bundle)
    requires Safe(d, heard) && PassedIn(d, said) && b.signedPreKey.Some? && b.identityKey.id < d.next
    ensures var r := Cleared(Load(d, a));
            var states := r.(state := OpeningState(d, r.state, b)).States();
            AllPassed(states, Remembered(HeardAt(said, a), states))
  {
    var r := Load(d, a);
    var s := OpeningState(d, Cleared(r).state, b);
    hide OpeningState, Remembered, IntactStates, AllPassed, BasesBelow, Sound, Rooted;
    assert SafeAt(d, heard, a) && PassedAt(d, said, a);
    OpeningStateIsSound(d, Cleared(r).state, b);
    if a in d.sessions {
      LoadedIsIntact(d, heard, a);
      assert r.States() == d.sessions[a].States();
      YoungBaseKey(r, Me(d), HeardAt(heard, a), d.next);
    }
    RecordWithNewSession(r, Me(d), HeardAt(heard, a), HeardAt(said, a), s);
  }

  lemma StepKeepsPassed(d: Device, heard: Heard, said: Said, e: Event)
    requires Safe(d, heard) && PassedIn(d, said) && Allowed(d, e)
    ensures PassedIn(Step(d, e), SaidAfter(d, said, e))
  {
    hide SafeAt, SaidAfter, MessageEncrypted, SignalMessageDecrypted, PreKeyMessageDecrypted, BundleProcessed, PassedIn;
    match e {
      case Encrypt(_, _, _) => EncryptKeepsPassed(d, heard, said, e);
      case Receive(_, _, _) => ReceiveKeepsPassed(d, heard, said, e);
      case ReceivePreKey(_, _, _) => ReceiveKeepsPassed(d, heard, said, e);
      case ProcessBundle(_, _, _) => BundleKeepsPassed(d, heard, said, e);
      case DeleteSession(a) =>
        DeletedIsPassed(d, said, a);
        OthersStayPassed(d, said, e, a);
      case _ => SessionsStayPassed(d, said, e);
    }
  }

  lemma DeletedIsPassed(d: Device, said: Said, a: Address)
    ensures PassedAt(Step(d, DeleteSession(a)), SaidAfter(d, said, DeleteSession(a)), a)
  {
    hide AllPassed, Remembered, Emitted;
  }

  lemma {:induction false} RunKeepsPassed(d: Device, events: seq<Event>)
    requires Installed(d) && AllowedRun(d, events)
    ensures PassedIn(Run(d, events), SaidIn(d, events))
  {
    hide SaidAfter, Step, Allowed, Safe;
    if events != [] {
      var (before, last) := (events[..|events| - 1], events[|events| - 1]);
      PrefixIsAllowed(d, events, |events| - 1);
      RunKeepsSafe(d, before);
      RunKeepsPassed(d, before);
      StepKeepsPassed(Run(d, before), HeardIn(d, before), SaidIn(d, before), last);
    }
  }

  // ---- Every run ----

  /** Where a sent message stands in its session. */
  lemma SaidIsBehind(d: Device, heard: Heard, said: Said, a: Address, c: Secret) returns (i: nat)
    requires Safe(d, heard) && PassedIn(d, said) && c in HeardAt(said, a)
    ensures a in d.sessions && i < |d.sessions[a].States()|
    ensures var s := d.sessions[a].States()[i];
            Equipped(s) && Behind(s, KeyName(Unstep(c).0, Unstep(c).1)) && OriginOf(s) == Origin(c)
    ensures |Origin(c)| >= 3 && Origin(c)[2].Agreed?
  {
    assert SafeAt(d, heard, a) && PassedAt(d, said, a);
    var states := d.sessions[a].States();
    hide Unstep, Behind, Spent, Sound, Equipped, Origin, Passed;
    i :| 0 <= i < |states| && OriginOf(states[i]) == Origin(c);
    assert Intact(states[i], Me(d), HeardAt(heard, a)) && Passed(states[i], c);
    SoundIsEquipped(states[i]);
    PassedIsBehind(states[i], c);
  }

  /** Forward secrecy of sent messages, exactly: whoever is given every session secret of the device at any point of any
      run, and any private keys, learns a key of a message sent by a session still in the record if and only if those
      private keys alone give every agreement the key is derived from, or a session with another address, from the same
      agreement, leads there. */
  lemma SentStaysSecret(d: Device, events: seq<Event>, ids: set<nat>, a: Address, c: Secret, part: Part)
    requires Installed(d) && AllowedRun(d, events) && c in HeardAt(SaidIn(d, events), a)
    ensures ExactlySecret(Run(d, events), a, ids, KeyName(Unstep(c).0, Unstep(c).1),
                          MessagePart(KDF, Hmac(c, MESSAGE_KEY_SEED), part))
  {
    var (w, x) := (Run(d, events), KeyName(Unstep(c).0, Unstep(c).1));
    UnstepKeepsOrigin(c);
    assert MessagePart(KDF, Hmac(c, MESSAGE_KEY_SEED), part) == KeyPart(KDF, x.base, x.counter, part);
    hide Run, HeardIn, SaidIn, AllowedRun, Unstep, Behind, Safe, OriginOf, Origin, Equipped, PassedIn, KeyPart;
    hide ExactlySecret;
    RunKeepsSafe(d, events);
    RunKeepsPassed(d, events);
    var i := SaidIsBehind(w, HeardIn(d, events), SaidIn(d, events), a, c);
    BehindIsSecret(w, HeardIn(d, events), a, i, ids, x, part);
  }
}
