/**
 The symmetric and the root ratchet (ratchet.c): deriving message keys, stepping a
 chain key, and stepping the root key with a new key agreement.
 */
module Ratchet {
  import opened Common
  import opened Crypto

  datatype RootKey = RootKey(kdf: nat, key: Secret)

  datatype ChainKey = ChainKey(kdf: nat, key: Secret, index: uint32)

  datatype MessageKeys = MessageKeys(cipherKey: Secret, macKey: Secret, iv: Secret, counter: uint32)

  const MESSAGE_KEY_SEED: nat := 0x01
  const CHAIN_KEY_SEED: nat := 0x02

  /** `ratchet_chain_key_get_message_keys`. */
  function MessageKeysOf(ck: ChainKey): MessageKeys {
    var seed := Hmac(ck.key, MESSAGE_KEY_SEED);
    MessageKeys(
      MessagePart(ck.kdf, seed, CipherPart),
      MessagePart(ck.kdf, seed, MacPart),
      MessagePart(ck.kdf, seed, IvPart),
      ck.index)
  }

  /** `ratchet_chain_key_create_next`. */
  function NextChainKey(ck: ChainKey): ChainKey {
    ChainKey(ck.kdf, Hmac(ck.key, CHAIN_KEY_SEED), Increment(ck.index))
  }

  /** `ratchet_root_key_create_chain`: the next root key and a chain key at index 0. */
  function CreateChain(root: RootKey, their: PublicKey, our: PrivateKey): (RootKey, ChainKey) {
    var shared := Agreement(their, our);
    (RootKey(root.kdf, Ratcheted(root.kdf, root.key, shared, First)),
     ChainKey(root.kdf, Ratcheted(root.kdf, root.key, shared, Second), 0))
  }

  /** The chain key after `n` steps. */
  function Steps(ck: ChainKey, n: nat): ChainKey {
    if n == 0 then ck else NextChainKey(Steps(ck, n - 1))
  }

  /** The message keys of the next `n` chain keys, oldest first. */
  function KeysAhead(ck: ChainKey, n: nat): (r: seq<MessageKeys>)
    ensures |r| == n
    ensures forall i :: 0 <= i < n ==> r[i] == MessageKeysOf(Steps(ck, i))
  {
    if n == 0 then [] else KeysAhead(ck, n - 1) + [MessageKeysOf(Steps(ck, n - 1))]
  }

  // ---- The chain as a simple sequence: the key `n` steps after its base ----

  /** The secret `n` chain steps after `base`. */
  function StepSecret(base: Secret, n: nat): Secret {
    if n == 0 then base else Hmac(StepSecret(base, n - 1), CHAIN_KEY_SEED)
  }

  function ChainAt(kdf: nat, base: Secret, n: uint32): ChainKey {
    ChainKey(kdf, StepSecret(base, n), n)
  }

  function KeysAt(kdf: nat, base: Secret, n: uint32): MessageKeys {
    MessageKeysOf(ChainAt(kdf, base, n))
  }

  /** Stepping a chain key and stepping its base agree as long as the counter does not wrap. */
  lemma {:induction false} StepsReachChainAt(kdf: nat, base: Secret, i: uint32, n: nat)
    requires i + n < TWO32
    ensures Steps(ChainAt(kdf, base, i), n) == ChainAt(kdf, base, i + n)
  {
    if n > 0 {
      StepsReachChainAt(kdf, base, i, n - 1);
    }
  }

  /** A chain's first secret comes from HKDF, never from a chain step. */
  predicate IsBase(s: Secret) {
    s.Text? || s.Ratcheted? || s.Random?
  }

  /** A root key: the first half of an X3DH output, or of a step from another root key. */
  predicate IsRoot(s: Secret) {
    match s
    case Text(_, _, First) => true
    case Ratcheted(_, root, _, First) => IsRoot(root)
    case _ => false
  }

  /** The first key of a session's chain: the second half of an X3DH output, or of a step from a root key. */
  predicate IsChainBase(s: Secret) {
    match s
    case Text(_, _, Second) => true
    case Ratcheted(_, root, _, Second) => IsRoot(root)
    case _ => false
  }

  /** The first chain key derived together with a root key. */
  function ChainBaseOf(root: Secret): Secret {
    match root
    case Text(kdf, input, _) => Text(kdf, input, Second)
    case Ratcheted(kdf, before, shared, _) => Ratcheted(kdf, before, shared, Second)
    case _ => root
  }

  /** Takes the chain steps off a secret: the base and how many there were. */
  function Unstep(s: Secret): (Secret, nat) {
    match s
    case Hmac(key, 2) => var (base, n) := Unstep(key); (base, n + 1)
    case _ => (s, 0)
  }

  /** `Unstep` inverts `StepSecret`, so a chain secret determines its base and its position. */
  lemma {:induction false} UnstepInverts(base: Secret, n: nat)
    requires IsBase(base)
    ensures Unstep(StepSecret(base, n)) == (base, n)
    ensures Depth(StepSecret(base, n)) == Depth(base)
    ensures Origin(StepSecret(base, n)) == Origin(base)
  {
    if n > 0 {
      UnstepInverts(base, n - 1);
    }
  }

  /** No two positions of any two chains share a MAC key. */
  lemma KeysDetermineChain(kdf: nat, b1: Secret, n1: uint32, b2: Secret, n2: uint32)
    requires IsBase(b1) && IsBase(b2)
    requires KeysAt(kdf, b1, n1).macKey == KeysAt(kdf, b2, n2).macKey
    ensures b1 == b2 && n1 == n2
  {
    UnstepInverts(b1, n1);
    UnstepInverts(b2, n2);
  }
}
