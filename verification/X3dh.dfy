/**
 Setting up a session (ratchet.c): the X3DH key agreement of both roles.
 */
module X3dh {
  import opened Common
  import opened Crypto
  import opened Ratchet
  import opened Messages
  import opened SessionStates

  datatype AliceParameters = AliceParameters(
    ourIdentity: KeyPair, ourBase: KeyPair,
    theirIdentity: PublicKey, theirSignedPreKey: PublicKey, theirOneTimePreKey: Option<PublicKey>,
    theirRatchet: PublicKey)

  datatype BobParameters = BobParameters(
    ourIdentity: KeyPair, ourSignedPreKey: KeyPair, ourOneTimePreKey: Option<KeyPair>, ourRatchet: KeyPair,
    theirIdentity: PublicKey, theirBase: PublicKey)

  /** The 32 bytes 0xFF in front of the agreements: section 2.2 of the X3DH specification. */
  const DISCONTINUITY: Block := Filler(0xFF, 32)

  /** `ratcheting_session_calculate_derived_keys`. */
  function DerivedKeys(secret: seq<Block>): (RootKey, ChainKey) {
    (RootKey(3, Text(3, secret, First)), ChainKey(3, Text(3, secret, Second), 0))
  }

  function AliceSecret(p: AliceParameters): seq<Block> {
    [DISCONTINUITY,
     Agreed(Agreement(p.theirSignedPreKey, p.ourIdentity.priv)),
     Agreed(Agreement(p.theirIdentity, p.ourBase.priv)),
     Agreed(Agreement(p.theirSignedPreKey, p.ourBase.priv))]
    + match p.theirOneTimePreKey
      case None => []
      case Some(k) => [Agreed(Agreement(k, p.ourBase.priv))]
  }

  function BobSecret(p: BobParameters): seq<Block> {
    [DISCONTINUITY,
     Agreed(Agreement(p.theirIdentity, p.ourSignedPreKey.priv)),
     Agreed(Agreement(p.theirBase, p.ourIdentity.priv)),
     Agreed(Agreement(p.theirBase, p.ourSignedPreKey.priv))]
    + match p.ourOneTimePreKey
      case None => []
      case Some(k) => [Agreed(Agreement(p.theirBase, k.priv))]
  }

  /** The state after the initiator's set-up; `next` names the first sending ratchet key. */
  function AliceInitialized(s: State, p: AliceParameters, next: nat): State {
    var (root, chain) := DerivedKeys(AliceSecret(p));
    var (sendingRoot, sendingChain) := CreateChain(root, p.theirRatchet, PairOf(next).priv);
    s.(receiverChains := WithChain(s.receiverChains, p.theirRatchet, chain),
       version := CURRENT_VERSION,
       remoteIdentity := Some(p.theirIdentity),
       localIdentity := Some(p.ourIdentity.pub),
       senderChain := Some(SenderChain(Some(PairOf(next)), Some(sendingChain))),
       rootKey := Some(sendingRoot))
  }

  /** The state after the responder's set-up. */
  function BobInitialized(s: State, p: BobParameters): State {
    var (root, chain) := DerivedKeys(BobSecret(p));
    s.(version := CURRENT_VERSION,
       remoteIdentity := Some(p.theirIdentity),
       localIdentity := Some(p.ourIdentity.pub),
       senderChain := Some(SenderChain(Some(p.ourRatchet), Some(chain))),
       rootKey := Some(root))
  }

  /** `ratcheting_session_alice_initialize`: the agreements are appended to a pool one by one. */
  method AliceInitialize(state: SessionState, p: AliceParameters, gen: KeyGenerator)
    modifies state, gen
    ensures state.View() == AliceInitialized(old(state.View()), p, old(gen.next))
    ensures gen.next == old(gen.next) + 1
  {
    hide WithChain, CreateChain, DerivedKeys, Agreement;
    var sendingRatchetKey := gen.Generate();
    var pool: seq<Block> := [DISCONTINUITY];
    pool := pool + [Agreed(Agreement(p.theirSignedPreKey, p.ourIdentity.priv))];
    pool := pool + [Agreed(Agreement(p.theirIdentity, p.ourBase.priv))];
    pool := pool + [Agreed(Agreement(p.theirSignedPreKey, p.ourBase.priv))];
    if p.theirOneTimePreKey.Some? {
      pool := pool + [Agreed(Agreement(p.theirOneTimePreKey.value, p.ourBase.priv))];
    }
    assert pool == AliceSecret(p);
    var (derivedRoot, derivedChain) := DerivedKeys(pool);
    var (sendingRoot, sendingChain) := CreateChain(derivedRoot, p.theirRatchet, sendingRatchetKey.priv);
    state.AddReceiverChain(p.theirRatchet, derivedChain);
    state.version := CURRENT_VERSION;
    state.remoteIdentity := Some(p.theirIdentity);
    state.localIdentity := Some(p.ourIdentity.pub);
    state.senderChain := Some(SenderChain(Some(sendingRatchetKey), Some(sendingChain)));
    state.rootKey := Some(sendingRoot);
  }

  /** `ratcheting_session_bob_initialize`. */
  method BobInitialize(state: SessionState, p: BobParameters)
    modifies state
    ensures state.View() == BobInitialized(old(state.View()), p)
  {
    var pool: seq<Block> := [DISCONTINUITY];
    pool := pool + [Agreed(Agreement(p.theirIdentity, p.ourSignedPreKey.priv))];
    pool := pool + [Agreed(Agreement(p.theirBase, p.ourIdentity.priv))];
    pool := pool + [Agreed(Agreement(p.theirBase, p.ourSignedPreKey.priv))];
    if p.ourOneTimePreKey.Some? {
      pool := pool + [Agreed(Agreement(p.theirBase, p.ourOneTimePreKey.value.priv))];
    }
    assert pool == BobSecret(p);
    var (derivedRoot, derivedChain) := DerivedKeys(pool);
    state.version := CURRENT_VERSION;
    state.remoteIdentity := Some(p.theirIdentity);
    state.localIdentity := Some(p.ourIdentity.pub);
    state.senderChain := Some(SenderChain(Some(p.ourRatchet), Some(derivedChain)));
    state.rootKey := Some(derivedRoot);
  }

  predicate IsPair(k: KeyPair) {
    k == PairOf(k.pub.id)
  }

  /** Each side holds the private half of what the other side calls theirs. */
  predicate Mirrored(a: AliceParameters, b: BobParameters) {
    && IsPair(a.ourIdentity) && IsPair(a.ourBase)
    && IsPair(b.ourIdentity) && IsPair(b.ourSignedPreKey) && IsPair(b.ourRatchet)
    && a.theirIdentity == b.ourIdentity.pub
    && a.theirSignedPreKey == b.ourSignedPreKey.pub
    && a.theirRatchet == b.ourRatchet.pub
    && b.theirIdentity == a.ourIdentity.pub
    && b.theirBase == a.ourBase.pub
    && match (a.theirOneTimePreKey, b.ourOneTimePreKey)
       case (None, None) => true
       case (Some(pub), Some(pair)) => IsPair(pair) && pub == pair.pub
       case _ => false
  }

  lemma SecretsAgree(a: AliceParameters, b: BobParameters)
    requires Mirrored(a, b)
    ensures AliceSecret(a) == BobSecret(b)
  {
  }

  /** Both roles derive the same keys: the chain the responder builds from the initiator's first ratchet key is
      the initiator's sending chain, with the same next root key; and the responder's first sending chain is the
      initiator's receiver chain for it. */
  lemma X3dhAgreement(s: State, t: State, a: AliceParameters, b: BobParameters, next: nat)
    requires Mirrored(a, b)
    ensures var alice := AliceInitialized(s, a, next);
            var bob := BobInitialized(t, b);
            var first := alice.senderChain.value.ratchetKeyPair.value.pub;
            var newest := alice.receiverChains[|alice.receiverChains| - 1];
            && CreateChain(bob.rootKey.value, first, b.ourRatchet.priv)
               == (alice.rootKey.value, alice.senderChain.value.chainKey.value)
            && newest.ratchetKey == bob.senderChain.value.ratchetKeyPair.value.pub
            && newest.chainKey == bob.senderChain.value.chainKey.value
            && alice.localIdentity == bob.remoteIdentity && alice.remoteIdentity == bob.localIdentity
  {
    SecretsAgree(a, b);
  }
}
