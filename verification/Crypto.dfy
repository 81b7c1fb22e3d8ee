/**
 Symbolic cryptography. A key is a term that records how it was derived, so two
 derivations give equal keys exactly when they agree on every input. A key pair is
 named by the number its generator handed out; a shared secret is the unordered
 pair of the two names.
 */
module Crypto {

  datatype PublicKey = PublicKey(id: nat)

  datatype PrivateKey = PrivateKey(id: nat)

  datatype KeyPair = KeyPair(pub: PublicKey, priv: PrivateKey)

  /** The key pair the generator hands out under the name `id`. */
  function PairOf(id: nat): KeyPair {
    KeyPair(PublicKey(id), PrivateKey(id))
  }

  /** The generator behind `curve_generate_key_pair`: it never repeats a name. */
  class KeyGenerator {
    var next: nat

    constructor (start: nat)
      ensures next == start
    {
      next := start;
    }

    method Generate() returns (pair: KeyPair)
      modifies this
      ensures pair == PairOf(old(next)) && next == old(next) + 1
    {
      pair := PairOf(next);
      next := next + 1;
    }
  }

  datatype Shared = Shared(low: nat, high: nat)

  /** `curve_calculate_agreement`. */
  function Agreement(pub: PublicKey, priv: PrivateKey): Shared {
    if pub.id <= priv.id then Shared(pub.id, priv.id) else Shared(priv.id, pub.id)
  }

  /** The shared secret of the pairs named `a` and `b`. */
  function Between(a: nat, b: nat): Shared {
    Agreement(PublicKey(a), PrivateKey(b))
  }

  /** Each side computes the agreement from its own private key and gets the same secret. */
  lemma AgreementCommutes(a: nat, b: nat)
    ensures Agreement(PairOf(a).pub, PairOf(b).priv) == Agreement(PairOf(b).pub, PairOf(a).priv)
    ensures Between(a, b) == Between(b, a)
  {
  }

  /** A 32-byte stretch of the X3DH input: the 0xFF prefix or one agreement. */
  datatype Block = Filler(value: nat, count: nat) | Agreed(shared: Shared)

  /** Which 32 bytes of a 64-byte HKDF output. */
  datatype Half = First | Second

  /** Which part of the expanded message key material. */
  datatype Part = CipherPart | MacPart | IvPart

  datatype Secret =
    | Random(id: nat)
      // HKDF with a zero salt and the info "WhisperText"
    | Text(kdf: nat, input: seq<Block>, half: Half)
      // HKDF with the root key as salt and the info "WhisperRatchet"
    | Ratcheted(kdf: nat, root: Secret, shared: Shared, half: Half)
      // HMAC of a one-byte tag
    | Hmac(key: Secret, tag: nat)
      // HKDF with the info "WhisperMessageKeys"
    | MessagePart(kdf: nat, seed: Secret, part: Part)
      // HKDF with the info "WhisperGroup"
    | GroupPart(seed: Secret, part: Part)

  /** How many root steps a secret is away from its session's first root key. */
  function Depth(s: Secret): nat {
    match s
    case Ratcheted(_, root, _, _) => 1 + Depth(root)
    case Hmac(key, _) => Depth(key)
    case MessagePart(_, seed, _) => Depth(seed)
    case GroupPart(seed, _) => Depth(seed)
    case _ => 0
  }

  /** The X3DH input a secret was derived from. */
  function Origin(s: Secret): seq<Block> {
    match s
    case Text(_, input, _) => input
    case Ratcheted(_, root, _, _) => Origin(root)
    case Hmac(key, _) => Origin(key)
    case MessagePart(_, seed, _) => Origin(seed)
    case GroupPart(seed, _) => Origin(seed)
    case Random(_) => []
  }
}
