/**
 No session state ever hands out the same message key twice, whatever messages it is
 given: a key is named by the base of its chain and its counter; a chain never goes
 back, and an evicted chain's base never returns because the root key only gets deeper.
 */
module Replay {
  import opened Common
  import opened Crypto
  import opened Ratchet
  import opened SkipWindow
  import opened Messages
  import opened SessionStates
  import opened SessionCiphers
  import opened ReceiverChains

  /** The name of a message key: the base of its chain and its counter. */
  datatype KeyName = KeyName(base: Secret, counter: nat)

  /** The base a receiver chain lies on. */
  function BaseOf(c: ReceiverChain): Secret {
    Unstep(c.chainKey.key).0
  }

  predicate Equipped(s: State) {
    && s.version == CURRENT_VERSION
    && s.rootKey.Some? && s.rootKey.value.kdf == KDF
    && s.senderChain.Some? && s.senderChain.value.ratchetKeyPair.Some? && s.senderChain.value.chainKey.Some?
    && s.localIdentity.Some? && s.remoteIdentity.Some?
  }

  /** The base of a chain the session received on before its root key was `root`. The root key is stepped for a
      receiver chain and then for a sending chain, so the difference in depth is odd. */
  predicate ReceivedBefore(base: Secret, root: Secret) {
    IsChainBase(base) && Depth(base) < Depth(root) && (Depth(root) - Depth(base)) % 2 == 1
  }

  /** The chain lies on its base, keeps its list tidy, and comes from the session before `root`. */
  predicate SoundChain(c: ReceiverChain, root: Secret) {
    && LiesOn(c, BaseOf(c))
    && Tidy(0, WindowOf(c))
    && ReceivedBefore(BaseOf(c), root)
    && Origin(BaseOf(c)) == Origin(root)
  }

  predicate SoundChains(chains: seq<ReceiverChain>, root: Secret) {
    && (forall i :: 0 <= i < |chains| ==> SoundChain(chains[i], root))
    && forall i, j :: 0 <= i < j < |chains| ==> BaseOf(chains[i]) != BaseOf(chains[j])
  }

  /** The base of the sending chain. */
  function SendingBase(s: State): Secret
    requires Equipped(s)
  {
    Unstep(s.senderChain.value.chainKey.value.key).0
  }

  /** A session state as set-up and decryption leave it: the sending chain was derived together with the root key. */
  predicate Sound(s: State) {
    && Equipped(s) && IsRoot(s.rootKey.value.key) && SendingBase(s) == ChainBaseOf(s.rootKey.value.key)
    && SoundChains(s.receiverChains, s.rootKey.value.key)
  }

  /** A chain will not hand out this key again. */
  predicate UsedUp(c: ReceiverChain, x: KeyName) {
    x.base == BaseOf(c) ==> x.counter < WindowOf(c).index && x.counter !in WindowOf(c).stored
  }

  /** No chain of the state, nor any it may still open, will hand out one of these keys. */
  ghost predicate Spent(s: State, spent: set<KeyName>)
    requires Equipped(s)
  {
    forall x :: x in spent ==>
      && ReceivedBefore(x.base, s.rootKey.value.key)
      && forall i :: 0 <= i < |s.receiverChains| ==> UsedUp(s.receiverChains[i], x)
  }

  /** The key a state uses for a message. */
  function KeyFor(s: State, m: Message): KeyName
    requires Equipped(s)
  {
    match FindChain(s.receiverChains, m.ratchetKey)
    case Some(i) => KeyName(BaseOf(s.receiverChains[i]), m.counter)
    case None => KeyName(NewBase(s, m.ratchetKey), m.counter)
  }

  lemma BaseOfLiesOn(c: ReceiverChain, base: Secret)
    requires LiesOn(c, base)
    ensures BaseOf(c) == base
  {
    UnstepInverts(base, c.chainKey.index);
  }

  /** Taking a key: it was not used up, it is now, and no other key comes back. */
  lemma TakeUsesUp(c: ReceiverChain, root: Secret, counter: uint32)
    requires SoundChain(c, root) && counter < TWO32 - 1 && TakeKeys(c, counter).Ok?
    ensures var c' := TakeKeys(c, counter).value.0;
            && BaseOf(c') == BaseOf(c) && SoundChain(c', root) && c'.ratchetKey == c.ratchetKey
            && TakeKeys(c, counter).value.1 == KeysAt(KDF, BaseOf(c), counter)
            && !UsedUp(c, KeyName(BaseOf(c), counter)) && UsedUp(c', KeyName(BaseOf(c), counter))
            && forall x :: UsedUp(c, x) ==> UsedUp(c', x)
  {
    var (w, c') := (WindowOf(c), TakeKeys(c, counter).value.0);
    TakeKeysRefines(c, BaseOf(c), counter);
    assert Take(w, counter).Accepted?;
    BaseOfLiesOn(c', BaseOf(c));
    TakeStaysTidy(w, counter);
  }

  lemma TakeStaysTidy(w: Window, c: nat)
    requires Tidy(0, w) && Take(w, c).Accepted?
    ensures var v := Take(w, c).window;
            && Tidy(0, v)
            && (c < w.index ==> c in w.stored)
            && c < v.index && c !in v.stored && w.index <= v.index
            && forall n :: n < w.index && n !in w.stored ==> n !in v.stored
  {
    if c < w.index {
      RemovalFromIncreasing(w.stored, c);
    } else {
      JumpEvictsOldestOnly(0, w, c);
    }
  }

  /** Decryption changes nothing that identifies the session. */
  predicate SameSession(s: State, s': State) {
    && s'.version == s.version && s'.localIdentity == s.localIdentity && s'.remoteIdentity == s.remoteIdentity
    && s'.aliceBaseKey == s.aliceBaseKey
    && s.rootKey.Some? && s'.rootKey.Some? && Origin(s'.rootKey.value.key) == Origin(s.rootKey.value.key)
  }

  lemma SpentAfterUpdate(s: State, s': State, spent: set<KeyName>, i: nat, c: ReceiverChain, x: KeyName)
    requires Sound(s) && Spent(s, spent) && i < |s.receiverChains|
    requires SoundChain(c, s.rootKey.value.key) && BaseOf(c) == BaseOf(s.receiverChains[i]) == x.base
    requires !UsedUp(s.receiverChains[i], x) && UsedUp(c, x)
    requires forall y :: UsedUp(s.receiverChains[i], y) ==> UsedUp(c, y)
    requires s' == s.(receiverChains := s.receiverChains[i := c], pendingPreKey := None)
    ensures x !in spent && Sound(s') && Spent(s', spent + {x})
  {
    hide SoundChain, UsedUp, BaseOf, ReceivedBefore, IsRoot, Unstep;
    assert x !in spent;
    assert ReceivedBefore(x.base, s.rootKey.value.key) by {
      SoundBase(s.receiverChains[i], s.rootKey.value.key);
    }
    forall y, j | y in spent + {x} && 0 <= j < |s'.receiverChains|
      ensures UsedUp(s'.receiverChains[j], y)
    {
      if j != i && y == x {
        OtherBase(s.receiverChains[j], x);
      }
    }
  }

  lemma SoundBase(c: ReceiverChain, root: Secret)
    requires SoundChain(c, root)
    ensures IsBase(BaseOf(c)) && ReceivedBefore(BaseOf(c), root)
  {
  }

  lemma OtherBase(c: ReceiverChain, x: KeyName)
    requires BaseOf(c) != x.base
    ensures UsedUp(c, x)
  {
  }

  lemma AcceptedOnHeldChain(s: State, m: Message, next: nat, spent: set<KeyName>)
    requires Sound(s) && Spent(s, spent) && m.counter < TWO32 - 1
    requires Decrypted(s, m, next).Ok? && FindChain(s.receiverChains, m.ratchetKey).Some?
    ensures var s' := Decrypted(s, m, next).value.0;
            && KeyFor(s, m) !in spent
            && m.mac.key == KeysAt(KDF, KeyFor(s, m).base, m.counter).macKey
            && Sound(s') && Spent(s', spent + {KeyFor(s, m)})
            && SameSession(s, s') && s'.receiverChains != [] && s'.senderChain == s.senderChain
  {
    hide TakeKeys, SoundChain, UsedUp, BaseOf, Spent, KeysAt;
    var (i, s') := (FindChain(s.receiverChains, m.ratchetKey).value, Decrypted(s, m, next).value.0);
    TakeUsesUp(s.receiverChains[i], s.rootKey.value.key, m.counter);
    SpentAfterUpdate(s, s', spent, i, TakeKeys(s.receiverChains[i], m.counter).value.0, KeyFor(s, m));
  }

  /** A deeper root keeps every chain sound. */
  lemma SoundDeeper(c: ReceiverChain, root: Secret, root': Secret)
    requires SoundChain(c, root) && Depth(root') == Depth(root) + 2 && Origin(root') == Origin(root)
    ensures SoundChain(c, root')
  {
  }

  /** A new chain lies on a base no key so far came from. */
  lemma SpentAfterOpening(s: State, s': State, spent: set<KeyName>, c: ReceiverChain, x: KeyName)
    requires Sound(s) && Spent(s, spent) && Equipped(s')
    requires IsRoot(s'.rootKey.value.key) && SendingBase(s') == ChainBaseOf(s'.rootKey.value.key)
    requires var root' := s'.rootKey.value.key;
             && Depth(root') == Depth(x.base) + 1 == Depth(s.rootKey.value.key) + 2
             && Origin(root') == Origin(s.rootKey.value.key) && SoundChain(c, root')
    requires BaseOf(c) == x.base && UsedUp(c, x)
    requires s'.receiverChains == LastN(s.receiverChains + [c], MAX_RECEIVER_CHAINS)
    ensures x !in spent && Sound(s') && Spent(s', spent + {x})
  {
    var (chains', root') := (s'.receiverChains, s'.rootKey.value.key);
    hide BaseOf, Depth, LastN, Unstep, LiesOn, Tidy, Origin, IsRoot, IsChainBase, SendingBase, ChainBaseOf;
    forall i | 0 <= i < |chains'|
      ensures SoundChain(chains'[i], root') && (i < |chains'| - 1 ==> Depth(BaseOf(chains'[i])) < Depth(x.base))
    {
      if i < |chains'| - 1 {
        SoundDeeper(s.receiverChains[|s.receiverChains| + 1 - |chains'| + i], s.rootKey.value.key, root');
      }
    }
    SoundAfterOpening(s.receiverChains, c, s.rootKey.value.key, root');
    forall y, i | y in spent + {x} && 0 <= i < |chains'|
      ensures UsedUp(chains'[i], y)
    {
      if i < |chains'| - 1 {
        assert chains'[i] == s.receiverChains[|s.receiverChains| + 1 - |chains'| + i];
      }
    }
  }

  lemma SoundAfterOpening(chains: seq<ReceiverChain>, c: ReceiverChain, root: Secret, root': Secret)
    requires SoundChains(chains, root) && SoundChain(c, root')
    requires Depth(root') == Depth(BaseOf(c)) + 1 == Depth(root) + 2 && Origin(root') == Origin(root)
    ensures SoundChains(LastN(chains + [c], MAX_RECEIVER_CHAINS), root')
  {
    hide SoundChain, BaseOf, Depth, Origin;
    var all := chains + [c];
    forall i | 0 <= i < |chains|
      ensures SoundChain(all[i], root') && BaseOf(all[i]) != BaseOf(c)
    {
      SoundDeeper(chains[i], root, root');
      SoundBase(chains[i], root);
    }
    assert SoundChains(all, root');
  }

  lemma NewBaseFacts(s: State, their: PublicKey, next: nat)
    requires Equipped(s) && OpenChain(s, their, next).Ok? && FindChain(s.receiverChains, their).None?
    requires IsRoot(s.rootKey.value.key)
    ensures Equipped(OpenChain(s, their, next).value.0)
    ensures var (root, s') := (s.rootKey.value.key, OpenChain(s, their, next).value.0);
            var root' := s'.rootKey.value.key;
            && IsRoot(root') && SendingBase(s') == ChainBaseOf(root')
            && IsChainBase(NewBase(s, their)) && Depth(NewBase(s, their)) == Depth(root) + 1
            && Origin(NewBase(s, their)) == Origin(root)
            && Depth(root') == Depth(root) + 2 && Origin(root') == Origin(root)
  {
  }

  lemma AcceptedOnNewChain(s: State, m: Message, next: nat, spent: set<KeyName>)
    requires Sound(s) && Spent(s, spent) && m.counter < TWO32 - 1
    requires Decrypted(s, m, next).Ok? && FindChain(s.receiverChains, m.ratchetKey).None?
    ensures var s' := Decrypted(s, m, next).value.0;
            && KeyFor(s, m) !in spent
            && m.mac.key == KeysAt(KDF, KeyFor(s, m).base, m.counter).macKey
            && Sound(s') && Spent(s', spent + {KeyFor(s, m)})
            && SameSession(s, s') && s'.receiverChains != []
            && s'.senderChain.value.ratchetKeyPair == Some(PairOf(next))
            && s'.senderChain.value.chainKey.value.index == 0
  {
    hide TakeKeys, SoundChain, UsedUp, BaseOf, Spent, KeysAt, Depth, Origin, SoundChains, LiesOn;
    var (x, s') := (KeyFor(s, m), Decrypted(s, m, next).value.0);
    KeyedOnNewChain(s, m.ratchetKey, m.counter, next);
    var c := StateOnNewChain(s, m.ratchetKey, m.counter, next);
    NewBaseFacts(s, m.ratchetKey, next);
    NewChainIsSound(s, s', c, x);
    SpentAfterOpening(s, s', spent, c, x);
  }

  lemma NewChainIsSound(s: State, s': State, c: ReceiverChain, x: KeyName)
    requires s.rootKey.Some? && s'.rootKey.Some? && x.counter <= MAX_MESSAGE_KEYS
    requires LiesOn(c, x.base) && ReceivedBefore(x.base, s'.rootKey.value.key)
             && Origin(x.base) == Origin(s'.rootKey.value.key)
    requires WindowOf(c) == Window(x.counter + 1, LastN([] + Range(0, x.counter), MAX_MESSAGE_KEYS))
    ensures BaseOf(c) == x.base && SoundChain(c, s'.rootKey.value.key) && UsedUp(c, x)
  {
    BaseOfLiesOn(c, x.base);
    TakeStaysTidy(Window(0, []), x.counter);
  }

  /** At most once, for one state: whatever message a state accepts, its key was never accepted before, and it
      will never be accepted again. */
  lemma AcceptedKeyIsNew(s: State, m: Message, next: nat, spent: set<KeyName>)
    requires Sound(s) && Spent(s, spent) && m.counter < TWO32 - 1 && Decrypted(s, m, next).Ok?
    ensures var s' := Decrypted(s, m, next).value.0;
            && KeyFor(s, m) !in spent
            && m.mac.key == KeysAt(KDF, KeyFor(s, m).base, m.counter).macKey
            && Sound(s') && Spent(s', spent + {KeyFor(s, m)})
            && SameSession(s, s') && s'.receiverChains != []
  {
    hide Decrypted, Spent, Sound;
    if FindChain(s.receiverChains, m.ratchetKey).Some? {
      AcceptedOnHeldChain(s, m, next, spent);
    } else {
      AcceptedOnNewChain(s, m, next, spent);
    }
  }
}
