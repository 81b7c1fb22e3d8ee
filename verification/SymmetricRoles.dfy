/**
 The symmetric set-up (ratchet.c): both parties run the same call and the bytes of the
 two base keys decide who takes which role.
 */
module SymmetricRoles {
  import opened Common
  import opened Crypto
  import opened Ratchet
  import opened SessionStates
  import opened X3dh
  import opened Bytes

  datatype SymmetricParameters = SymmetricParameters(
    ourIdentity: KeyPair, ourBase: KeyPair, ourRatchet: KeyPair,
    theirBase: PublicKey, theirRatchet: PublicKey, theirIdentity: PublicKey)

  /** The bytes tell these two keys apart. */
  predicate TellsApart(encode: PublicKey -> Data, k: PublicKey, l: PublicKey) {
    encode(k) == encode(l) ==> k == l
  }

  /** `ratcheting_session_symmetric_is_alice`. */
  predicate IsAlice(p: SymmetricParameters, encode: PublicKey -> Data)
    requires |encode(p.ourBase.pub)| == |encode(p.theirBase)|
  {
    Memcmp(encode(p.ourBase.pub), encode(p.theirBase)) < 0
  }

  function AsAlice(p: SymmetricParameters): AliceParameters {
    AliceParameters(p.ourIdentity, p.ourBase, p.theirIdentity, p.theirBase, None, p.theirRatchet)
  }

  function AsBob(p: SymmetricParameters): BobParameters {
    BobParameters(p.ourIdentity, p.ourBase, None, p.ourRatchet, p.theirIdentity, p.theirBase)
  }

  /** The state after the set-up of whichever role the comparison gives. */
  function Initialized(s: State, p: SymmetricParameters, encode: PublicKey -> Data, next: nat): State
    requires |encode(p.ourBase.pub)| == |encode(p.theirBase)|
  {
    if IsAlice(p, encode) then AliceInitialized(s, AsAlice(p), next) else BobInitialized(s, AsBob(p))
  }

  /** `ratcheting_session_symmetric_initialize`. */
  method SymmetricInitialize(state: SessionState, p: SymmetricParameters, encode: PublicKey -> Data, gen: KeyGenerator)
    requires |encode(p.ourBase.pub)| == |encode(p.theirBase)|
    modifies state, gen
    ensures state.View() == Initialized(old(state.View()), p, encode, old(gen.next))
    ensures gen.next == old(gen.next) + if IsAlice(p, encode) then 1 else 0
  {
    if IsAlice(p, encode) {
      AliceInitialize(state, AsAlice(p), gen);
    } else {
      BobInitialize(state, AsBob(p));
    }
  }

  /** Each side holds the private half of what the other side calls theirs. */
  predicate Opposite(p: SymmetricParameters, q: SymmetricParameters) {
    && IsPair(p.ourIdentity) && IsPair(p.ourBase) && IsPair(p.ourRatchet)
    && IsPair(q.ourIdentity) && IsPair(q.ourBase) && IsPair(q.ourRatchet)
    && p.theirIdentity == q.ourIdentity.pub && q.theirIdentity == p.ourIdentity.pub
    && p.theirBase == q.ourBase.pub && q.theirBase == p.ourBase.pub
    && p.theirRatchet == q.ourRatchet.pub && q.theirRatchet == p.ourRatchet.pub
  }

  /** The party whose base key has the smaller bytes is the initiator. The parties take different roles exactly when
      the bytes differ, and that is exactly when the keys differ if the bytes tell these two apart; with equal bytes
      both are the responder. */
  lemma RolesDiffer(p: SymmetricParameters, q: SymmetricParameters, encode: PublicKey -> Data)
    requires Opposite(p, q) && |encode(p.ourBase.pub)| == |encode(q.ourBase.pub)|
    ensures IsAlice(p, encode) <==> Precedes(encode(p.ourBase.pub), encode(q.ourBase.pub))
    ensures (IsAlice(p, encode) <==> !IsAlice(q, encode)) <==> encode(p.ourBase.pub) != encode(q.ourBase.pub)
    ensures TellsApart(encode, p.ourBase.pub, q.ourBase.pub) ==>
              ((IsAlice(p, encode) <==> !IsAlice(q, encode)) <==> p.ourBase.pub != q.ourBase.pub)
    ensures encode(p.ourBase.pub) == encode(q.ourBase.pub) ==> !IsAlice(p, encode) && !IsAlice(q, encode)
  {
    MemcmpIsTotal(encode(p.ourBase.pub), encode(q.ourBase.pub));
    MemcmpDecides(encode(p.ourBase.pub), encode(q.ourBase.pub));
  }

  /** What the two parties share after set-up: the chain the responder builds from the initiator's first ratchet key
      is the initiator's sending chain, and the responder's first sending chain is the initiator's receiver chain. */
  predicate Agree(alice: State, bob: State, bobRatchet: KeyPair) {
    && alice.senderChain.Some? && alice.senderChain.value.ratchetKeyPair.Some? && alice.senderChain.value.chainKey.Some?
    && bob.senderChain.Some? && bob.senderChain.value.ratchetKeyPair.Some? && bob.senderChain.value.chainKey.Some?
    && alice.rootKey.Some? && bob.rootKey.Some? && alice.receiverChains != []
    && CreateChain(bob.rootKey.value, alice.senderChain.value.ratchetKeyPair.value.pub, bobRatchet.priv)
       == (alice.rootKey.value, alice.senderChain.value.chainKey.value)
    && var newest := alice.receiverChains[|alice.receiverChains| - 1];
       && newest.ratchetKey == bob.senderChain.value.ratchetKeyPair.value.pub
       && newest.chainKey == bob.senderChain.value.chainKey.value
  }

  /** Symmetric agreement: if the bytes of the base keys differ, exactly one party is the initiator, and both derive
      the same root and chain keys. */
  lemma SymmetricAgreement(s: State, t: State, p: SymmetricParameters, q: SymmetricParameters,
                           encode: PublicKey -> Data, next: nat, next': nat)
    requires Opposite(p, q) && |encode(p.ourBase.pub)| == |encode(q.ourBase.pub)|
    requires encode(p.ourBase.pub) != encode(q.ourBase.pub)
    ensures IsAlice(p, encode) != IsAlice(q, encode)
    ensures var (x, y) := (Initialized(s, p, encode, next), Initialized(t, q, encode, next'));
            if IsAlice(p, encode) then Agree(x, y, q.ourRatchet) else Agree(y, x, p.ourRatchet)
  {
    RolesDiffer(p, q, encode);
    if IsAlice(p, encode) {
      X3dhAgreement(s, t, AsAlice(p), AsBob(q), next);
    } else {
      X3dhAgreement(t, s, AsAlice(q), AsBob(p), next');
    }
  }
}
