/**
 Two parties with one session, over a network that drops, duplicates and reorders
 messages but does not forge them. Every run keeps both parties on a common ladder of
 ratchet keys, root keys and chain bases; from that, which deliveries succeed, and with
 what text, is settled exactly.
 */
module Conversation {
  import opened Common
  import opened Crypto
  import opened Ratchet
  import opened SkipWindow
  import opened Messages
  import opened SessionStates
  import opened X3dh
  import opened SessionCiphers
  import opened ReceiverChains

  // ---- Runs ----

  datatype Party = Alice | Bob

  /** A message on the network, with its sender and what the sender meant to say. */
  datatype Letter = Letter(from: Party, message: Message, text: Text)

  /** Both session states, every message ever sent, what became of every counter under every ratchet key, and the
      next key pair to be generated. */
  datatype World = World(alice: State, bob: State, mail: seq<Letter>, taken: map<PublicKey, History>, next: nat)
  {
    function Of(p: Party): State {
      if p.Alice? then alice else bob
    }

    function With(p: Party, s: State): World {
      if p.Alice? then this.(alice := s) else this.(bob := s)
    }

    function Taken(key: PublicKey): History {
      HistoryFor(taken, key)
    }
  }

  function HistoryFor(taken: map<PublicKey, History>, key: PublicKey): History {
    if key in taken then taken[key] else NOTHING
  }

  function Peer(p: Party): Party {
    if p.Alice? then Bob else Alice
  }

  /** A party sends a text, or the network delivers any letter ever sent. */
  datatype Event = Send(who: Party, text: Text) | Deliver(who: Party, letter: nat)

  /** The window a message of this ratchet key meets: a new chain's if the key is unknown. */
  function WindowFor(s: State, key: PublicKey): Window {
    match FindChain(s.receiverChains, key)
    case None => Window(0, [])
    case Some(i) => WindowOf(s.receiverChains[i])
  }

  function Step(w: World, e: Event): World {
    match e
    case Send(p, text) =>
      (match Encrypted(w.Of(p), text)
       case Err(_) => w
       case Ok((s, env)) => w.With(p, s).(mail := w.mail + [Letter(p, env.Inner(), text)]))
    case Deliver(p, k) =>
      if k >= |w.mail| then w
      else
        var m := w.mail[k].message;
        var drawn := w.(next := w.next + DrawnByDecrypt(w.Of(p), m));
        match Decrypted(w.Of(p), m, w.next)
        case Err(_) => drawn
        case Ok((s, _)) =>
          var h := After(w.Taken(m.ratchetKey), WindowFor(w.Of(p), m.ratchetKey), m.counter);
          drawn.With(p, s).(taken := w.taken[m.ratchetKey := h])
  }

  /** The counter to be sent next. */
  function SendCounter(s: State): nat {
    if s.senderChain.None? || s.senderChain.value.chainKey.None? then 0 else s.senderChain.value.chainKey.value.index
  }

  /** Letters go to the other party, and nobody sends the last counter a `uint32_t` can hold. */
  predicate Allowed(w: World, e: Event) {
    match e
    case Send(p, _) => SendCounter(w.Of(p)) < TWO32 - 1
    case Deliver(p, k) => k < |w.mail| && w.mail[k].from == Peer(p)
  }

  function Run(w: World, es: seq<Event>): World {
    if es == [] then w else Step(Run(w, es[..|es| - 1]), es[|es| - 1])
  }

  predicate AllowedRun(w: World, es: seq<Event>) {
    es == [] || (AllowedRun(w, es[..|es| - 1]) && Allowed(Run(w, es[..|es| - 1]), es[|es| - 1]))
  }

  /** The parameters mirror each other and mention only keys generated before `next`. */
  predicate Matching(a: AliceParameters, b: BobParameters, next: nat) {
    && Mirrored(a, b)
    && b.ourRatchet.pub.id < next
  }

  /** Both parties right after the key agreement. */
  function Start(a: AliceParameters, b: BobParameters, next: nat): World {
    World(AliceInitialized(EMPTY, a, next), BobInitialized(EMPTY, b), [], map[], next + 1)
  }

  // ---- The ladder ----

  /** Rung `i` is the i-th ratchet key of the conversation: even rungs are Bob's, odd ones Alice's. `roots[i]` and
      `bases[i]` are the root key and the chain base it leads to, `sent[i]` how many messages it carried, and
      `rungs[k]` the rung of the k-th letter. */
  datatype Ladder = Ladder(keys: seq<nat>, roots: seq<Secret>, bases: seq<Secret>, sent: seq<nat>, rungs: seq<nat>,
                           alice: nat, bob: nat)
  {
    function At(p: Party): nat {
      if p.Alice? then alice else bob
    }
  }

  /** Ratchet keys are generated in order. */
  predicate KeysRise(keys: seq<nat>, next: nat) {
    && (forall i, j :: 0 <= i < j < |keys| ==> keys[i] < keys[j])
    && (forall i :: 0 <= i < |keys| ==> keys[i] < next)
  }

  /** Neighbouring rungs are one root step apart. */
  predicate Linked(keys: seq<nat>, roots: seq<Secret>, bases: seq<Secret>) {
    && |keys| == |roots| == |bases|
    && (forall i :: 0 <= i < |roots| ==> Depth(roots[i]) == i)
    && (forall i :: 0 <= i < |bases| ==> IsBase(bases[i]) && Depth(bases[i]) == i)
    && (forall i :: 0 < i < |keys| ==> Rung(roots[i - 1], keys[i - 1], keys[i], roots[i], bases[i]))
  }

  /** Alice is on an odd rung, Bob on an even one, and the two topmost rungs are theirs. */
  predicate OnTop(l: Ladder) {
    && l.alice % 2 == 1 && l.bob % 2 == 0
    && (l.alice == l.bob + 1 || l.bob == l.alice + 1)
    && |l.keys| == (if l.alice > l.bob then l.alice else l.bob) + 1
  }

  predicate Rungs(l: Ladder, next: nat) {
    && KeysRise(l.keys, next)
    && Linked(l.keys, l.roots, l.bases)
    && OnTop(l)
    && |l.keys| == |l.roots| == |l.bases| == |l.sent|
    && forall i :: 0 <= i < |l.sent| ==> l.sent[i] < TWO32
  }

  /** One step of the root key between two neighbouring rungs. */
  predicate Rung(root: Secret, k: nat, k': nat, root': Secret, base': Secret) {
    && root' == Ratcheted(KDF, root, Between(k, k'), First)
    && base' == Ratcheted(KDF, root, Between(k, k'), Second)
  }

  /** How many receiver chains a party on rung `i` holds: one for every other rung below, but at most five. */
  function ChainCount(i: nat): (r: nat)
    ensures r <= MAX_RECEIVER_CHAINS && 2 * r <= i + 1
    ensures r < MAX_RECEIVER_CHAINS ==> i < 2 * r + 1
  {
    if i + 1 >= 2 * MAX_RECEIVER_CHAINS then MAX_RECEIVER_CHAINS else (i + 1) / 2
  }

  lemma ChainCountClimbs(i: nat)
    ensures ChainCount(i + 2) == if ChainCount(i) == MAX_RECEIVER_CHAINS then MAX_RECEIVER_CHAINS else ChainCount(i) + 1
  {
  }

  /** The rung of the receiver chain at position `p` of `count`, for a party on rung `i`: every other rung below. */
  function RungOfChain(i: nat, count: nat, p: nat): nat
    requires 2 * count <= i + 1 && p < count
  {
    i + 1 - 2 * count + 2 * p
  }

  ghost predicate ChainOk(c: ReceiverChain, key: nat, base: Secret, h: History) {
    && c.ratchetKey == PublicKey(key)
    && LiesOn(c, base)
    && Conserved(0, WindowOf(c), h)
  }

  /** The receiver chains of a party on rung `i` are the newest five of the other party. */
  ghost predicate ChainsOn(chains: seq<ReceiverChain>, i: nat, keys: seq<nat>, bases: seq<Secret>,
                           taken: map<PublicKey, History>)
  {
    && i < |keys| == |bases|
    && |chains| == ChainCount(i)
    && forall p {:trigger chains[p]} :: 0 <= p < |chains| ==>
         var j := RungOfChain(i, |chains|, p);
         ChainOk(chains[p], keys[j], bases[j], HistoryFor(taken, PublicKey(keys[j])))
  }

  /** The counter of the last message on the same party's rung before, or 0. */
  function LastBefore(sent: seq<nat>, i: nat): nat {
    if i < 2 || i - 2 >= |sent| || sent[i - 2] == 0 then 0 else sent[i - 2] - 1
  }

  /** A party on rung `i` holds that rung's root and sending chain and the other party's newest chains. */
  ghost predicate Side(s: State, i: nat, l: Ladder, w: World, me: PublicKey, peer: PublicKey) {
    && i < |l.keys| == |l.roots| == |l.bases| == |l.sent|
    && l.sent[i] < TWO32
    && s.version == CURRENT_VERSION && s.localIdentity == Some(me) && s.remoteIdentity == Some(peer)
    && s.previousCounter == LastBefore(l.sent, i)
    && s.rootKey == Some(RootKey(KDF, l.roots[i]))
    && s.senderChain == Some(SenderChain(Some(PairOf(l.keys[i])), Some(ChainAt(KDF, l.bases[i], l.sent[i]))))
    && ChainsOn(s.receiverChains, i, l.keys, l.bases, w.taken)
  }

  predicate LetterOk(x: Letter, j: nat, l: Ladder, a: PublicKey, b: PublicKey) {
    && j < |l.keys| == |l.bases| == |l.sent|
    && x.from == (if j % 2 == 1 then Alice else Bob)
    && x.message.counter < l.sent[j] < TWO32 && x.message.previousCounter == LastBefore(l.sent, j)
    && x.message == Seal(CURRENT_VERSION, KeysAt(KDF, l.bases[j], x.message.counter), PublicKey(l.keys[j]),
                         x.message.counter, x.message.previousCounter, x.text,
                         if j % 2 == 1 then a else b, if j % 2 == 1 then b else a)
  }

  predicate LettersOk(w: World, l: Ladder, a: PublicKey, b: PublicKey) {
    && |l.rungs| == |w.mail|
    && forall k :: 0 <= k < |w.mail| ==> LetterOk(w.mail[k], l.rungs[k], l, a, b)
  }

  function Me(p: Party, a: PublicKey, b: PublicKey): PublicKey {
    if p.Alice? then a else b
  }

  ghost predicate SideOf(w: World, l: Ladder, a: PublicKey, b: PublicKey, p: Party) {
    Side(w.Of(p), l.At(p), l, w, Me(p, a, b), Me(Peer(p), a, b))
  }

  /** The invariant: both parties are on neighbouring rungs of one ladder, and every letter came from a rung. */
  ghost predicate OnLadder(w: World, l: Ladder, a: PublicKey, b: PublicKey) {
    && Rungs(l, w.next)
    && SideOf(w, l, a, b, Alice)
    && SideOf(w, l, a, b, Bob)
    && LettersOk(w, l, a, b)
    && w.Taken(PublicKey(l.keys[|l.keys| - 1])) == NOTHING
    && forall key :: key in w.taken ==> key.id < w.next
  }

  /** The ladder right after the key agreement: Bob's ratchet key and Alice's first one. */
  function FirstLadder(secret: seq<Block>, k0: nat, k1: nat): Ladder {
    var root := Text(KDF, secret, First);
    Ladder([k0, k1],
           [root, Ratcheted(KDF, root, Between(k0, k1), First)],
           [Text(KDF, secret, Second), Ratcheted(KDF, root, Between(k0, k1), Second)],
           [0, 0], [], 1, 0)
  }

  lemma FirstRungs(secret: seq<Block>, k0: nat, k1: nat)
    requires k0 < k1
    ensures Rungs(FirstLadder(secret, k0, k1), k1 + 1)
  {
    var l := FirstLadder(secret, k0, k1);
    assert Rung(l.roots[0], l.keys[0], l.keys[1], l.roots[1], l.bases[1]);
    assert Depth(l.roots[0]) == 0 && Depth(l.roots[1]) == 1;
    assert Depth(l.bases[0]) == 0 && Depth(l.bases[1]) == 1;
    assert IsBase(l.bases[0]) && IsBase(l.bases[1]);
  }

  lemma AliceStartsOnLadder(a: AliceParameters, b: BobParameters, next: nat)
    requires Matching(a, b, next)
    ensures var w := Start(a, b, next);
            var l := FirstLadder(AliceSecret(a), b.ourRatchet.pub.id, next);
            Side(w.alice, 1, l, w, a.ourIdentity.pub, b.ourIdentity.pub)
  {
    hide AliceSecret;
    var w := Start(a, b, next);
    var k0 := b.ourRatchet.pub.id;
    var l := FirstLadder(AliceSecret(a), k0, next);
    var chain := ReceiverChain(PublicKey(k0), ChainKey(KDF, l.bases[0], 0), []);
    assert w.alice.receiverChains == [chain];
    NewChainLiesOn(PublicKey(k0), l.bases[0]);
    assert ChainOk(chain, k0, l.bases[0], NOTHING);
  }

  lemma StartIsOnLadder(a: AliceParameters, b: BobParameters, next: nat)
    requires Matching(a, b, next)
    ensures OnLadder(Start(a, b, next), FirstLadder(AliceSecret(a), b.ourRatchet.pub.id, next),
                     a.ourIdentity.pub, b.ourIdentity.pub)
  {
    hide AliceSecret, BobSecret, ChainOk, Rungs;
    SecretsAgree(a, b);
    FirstRungs(AliceSecret(a), b.ourRatchet.pub.id, next);
    AliceStartsOnLadder(a, b, next);
  }

  // ---- One delivery ----

  /** The message sealed with the key `counter` steps after `base`, from `peer` to `me`. */
  predicate SealedOn(m: Message, base: Secret, text: Text, me: PublicKey, peer: PublicKey) {
    m == Seal(CURRENT_VERSION, KeysAt(KDF, base, m.counter), m.ratchetKey, m.counter, m.previousCounter, text, peer, me)
  }

  predicate Ready(s: State, me: PublicKey, peer: PublicKey) {
    && s.version == CURRENT_VERSION && s.localIdentity == Some(me) && s.remoteIdentity == Some(peer)
    && s.senderChain.Some? && s.senderChain.value.ratchetKeyPair.Some? && s.senderChain.value.chainKey.Some?
    && s.rootKey.Some? && s.rootKey.value.kdf == KDF
  }

  /** Delivery on a chain the state holds. */
  lemma OnHeldChain(s: State, m: Message, base: Secret, text: Text, me: PublicKey, peer: PublicKey, next: nat, at: nat)
    requires Ready(s, me, peer) && SealedOn(m, base, text, me, peer) && m.counter < TWO32 - 1
    requires FindChain(s.receiverChains, m.ratchetKey) == Some(at)
    requires LiesOn(s.receiverChains[at], base) && Tidy(0, WindowOf(s.receiverChains[at]))
    ensures match Take(WindowOf(s.receiverChains[at]), m.counter)
            case Duplicate => Decrypted(s, m, next) == Err(DuplicateMessage)
            case TooFar => Decrypted(s, m, next) == Err(InvalidMessage)
            case Accepted(w) =>
              && TakeKeys(s.receiverChains[at], m.counter).Ok?
              && var c := TakeKeys(s.receiverChains[at], m.counter).value.0;
                 && Decrypted(s, m, next)
                     == Ok((s.(receiverChains := s.receiverChains[at := c], pendingPreKey := None), text))
                 && c.ratchetKey == m.ratchetKey && LiesOn(c, base) && WindowOf(c) == w
  {
    TakeKeysRefines(s.receiverChains[at], base, m.counter);
    SealOpens(CURRENT_VERSION, KeysAt(KDF, base, m.counter), m.ratchetKey, m.counter, m.previousCounter, text, peer, me,
              KeysAt(KDF, base, m.counter).macKey);
  }

  /** Delivery under an unknown ratchet key: it succeeds only if the message was sealed on the very chain that the
      state's root and ratchet key lead to. */
  lemma OnNewChain(s: State, m: Message, base: Secret, text: Text, me: PublicKey, peer: PublicKey, next: nat)
    requires Ready(s, me, peer) && SealedOn(m, base, text, me, peer) && IsBase(base) && m.counter < TWO32 - 1
    requires FindChain(s.receiverChains, m.ratchetKey).None?
    ensures m.counter > MAX_MESSAGE_KEYS || base != NewBase(s, m.ratchetKey) ==>
              Decrypted(s, m, next) == Err(InvalidMessage)
    ensures m.counter <= MAX_MESSAGE_KEYS && base == NewBase(s, m.ratchetKey) ==>
              && Keyed(s, m.ratchetKey, m.counter, next).Ok?
              && Decrypted(s, m, next)
                 == Ok((Keyed(s, m.ratchetKey, m.counter, next).value.0.(pendingPreKey := None), text))
  {
    KeyedOnNewChain(s, m.ratchetKey, m.counter, next);
    if m.counter <= MAX_MESSAGE_KEYS {
      var made := KeysAt(KDF, NewBase(s, m.ratchetKey), m.counter);
      SealOpens(CURRENT_VERSION, KeysAt(KDF, base, m.counter), m.ratchetKey, m.counter, m.previousCounter, text, peer,
                me, made.macKey);
      if made.macKey == KeysAt(KDF, base, m.counter).macKey {
        KeysDetermineChain(KDF, NewBase(s, m.ratchetKey), m.counter, base, m.counter);
      }
    }
  }

  /** Distinct keys sit on distinct rungs. */
  lemma KeyDeterminesRung(keys: seq<nat>, j: nat, k: nat)
    requires forall x, y :: 0 <= x < y < |keys| ==> keys[x] < keys[y]
    requires j < |keys| && k < |keys| && keys[j] == keys[k]
    ensures j == k
  {
  }

  /** The position of the chain for a held rung. */
  lemma PositionOfRung(i: nat, count: nat, j: nat) returns (p: nat)
    requires count == ChainCount(i) && j % 2 != i % 2 && j < i && i - j < 10
    ensures p < count && RungOfChain(i, count, p) == j
  {
    var t := (i - 1 - j) / 2;
    assert i - 1 - j == 2 * t;
    p := count - 1 - t;
  }

  lemma LookupByRung(chains: seq<ReceiverChain>, keys: seq<nat>, i: nat, j: nat)
    requires forall x, y :: 0 <= x < y < |keys| ==> keys[x] < keys[y]
    requires |chains| == ChainCount(i) && i < |keys|
    requires forall p :: 0 <= p < |chains| ==>
               chains[p].ratchetKey == PublicKey(keys[RungOfChain(i, |chains|, p)])
    requires j < |keys| && j % 2 != i % 2
    ensures var at := FindChain(chains, PublicKey(keys[j]));
            && (at.Some? <==> j < i && i - j < 10)
            && (at.Some? ==> RungOfChain(i, |chains|, at.value) == j)
  {
    var at := FindChain(chains, PublicKey(keys[j]));
    if at.Some? {
      KeyDeterminesRung(keys, j, RungOfChain(i, |chains|, at.value));
    } else if j < i && i - j < 10 {
      var p := PositionOfRung(i, |chains|, j);
      assert false;
    }
  }

  /** Which rungs a party still holds a chain for: the newest five below its own. */
  lemma Lookup(s: State, i: nat, l: Ladder, w: World, me: PublicKey, peer: PublicKey, j: nat)
    requires Rungs(l, w.next) && Side(s, i, l, w, me, peer) && j < |l.keys| && j % 2 != i % 2
    ensures var at := FindChain(s.receiverChains, PublicKey(l.keys[j]));
            && (at.Some? <==> j < i && i - j < 10)
            && (at.Some? ==> RungOfChain(i, |s.receiverChains|, at.value) == j)
  {
    LookupByRung(s.receiverChains, l.keys, i, j);
  }

  /** The ratchet key a party sends under. */
  function SenderKey(s: State): Option<PublicKey> {
    if s.senderChain.None? || s.senderChain.value.ratchetKeyPair.None? then None
    else Some(s.senderChain.value.ratchetKeyPair.value.pub)
  }

  /** The key is new to the party, being the one its peer sends under, or among the newest five it received. */
  predicate Current(w: World, p: Party, key: PublicKey) {
    || FindChain(w.Of(p).receiverChains, key).Some?
    || SenderKey(w.Of(Peer(p))) == Some(key)
  }

  /** Whether a party accepts a letter now: current ratchet key, counter not used up and not too far ahead. */
  predicate Acceptable(w: World, p: Party, m: Message) {
    && Current(w, p, m.ratchetKey)
    && m.counter !in w.Taken(m.ratchetKey).accepted
    && m.counter !in w.Taken(m.ratchetKey).evicted
    && m.counter <= WindowFor(w.Of(p), m.ratchetKey).index + MAX_MESSAGE_KEYS
  }

  predicate Settled(w: World, p: Party, x: Letter, r: Result<(State, Text)>) {
    var m := x.message;
    && (r.Ok? <==> Acceptable(w, p, m))
    && (r.Ok? ==> r.value.1 == x.text)
    && (r.Err? ==> r.error == if Current(w, p, m.ratchetKey)
                                 && (m.counter in w.Taken(m.ratchetKey).accepted
                                     || m.counter in w.Taken(m.ratchetKey).evicted)
                              then DuplicateMessage else InvalidMessage)
  }

  /** The facts about one delivery that the three cases share. */
  lemma Unpack(w: World, l: Ladder, a: PublicKey, b: PublicKey, p: Party, k: nat)
    requires OnLadder(w, l, a, b) && Allowed(w, Deliver(p, k))
    ensures k < |l.rungs| == |w.mail| && l.At(p) < |l.keys| == |l.bases| == |l.roots|
    ensures var (s, i, j, m) := (w.Of(p), l.At(p), l.rungs[k], w.mail[k].message);
            && Side(s, i, l, w, Me(p, a, b), Me(Peer(p), a, b))
            && Ready(s, Me(p, a, b), Me(Peer(p), a, b))
            && j < |l.keys| && j % 2 != i % 2 && j <= i + 1 <= |l.keys|
            && m.ratchetKey == PublicKey(l.keys[j])
            && m.counter < TWO32 - 1
            && SealedOn(m, l.bases[j], w.mail[k].text, Me(p, a, b), Me(Peer(p), a, b))
            && SenderKey(w.Of(Peer(p))) == Some(PublicKey(l.keys[l.At(Peer(p))]))
            && (l.At(Peer(p)) == i + 1 || l.At(Peer(p)) + 1 == i)
  {
    assert LetterOk(w.mail[k], l.rungs[k], l, a, b);
  }

  lemma VerdictHeld(w: World, l: Ladder, a: PublicKey, b: PublicKey, p: Party, k: nat)
    requires OnLadder(w, l, a, b) && Allowed(w, Deliver(p, k))
    requires l.rungs[k] < l.At(p) && l.At(p) - l.rungs[k] < 10
    ensures Settled(w, p, w.mail[k], Decrypted(w.Of(p), w.mail[k].message, w.next))
  {
    hide Decrypted, TakeKeys, FindChain, Take, Tidy, LiesOn, SealedOn, LetterOk, Rungs, Evicts;
    var (s, i, j, m) := (w.Of(p), l.At(p), l.rungs[k], w.mail[k].message);
    Unpack(w, l, a, b, p, k);
    Lookup(s, i, l, w, Me(p, a, b), Me(Peer(p), a, b), j);
    var at := FindChain(s.receiverChains, m.ratchetKey).value;
    assert ChainOk(s.receiverChains[at], l.keys[j], l.bases[j], w.Taken(m.ratchetKey));
    OnHeldChain(s, m, l.bases[j], w.mail[k].text, Me(p, a, b), Me(Peer(p), a, b), w.next, at);
    TakeConserves(0, WindowOf(s.receiverChains[at]), w.Taken(m.ratchetKey), m.counter);
  }

  lemma VerdictForgotten(w: World, l: Ladder, a: PublicKey, b: PublicKey, p: Party, k: nat)
    requires OnLadder(w, l, a, b) && Allowed(w, Deliver(p, k))
    requires l.rungs[k] < l.At(p) && l.At(p) - l.rungs[k] >= 10
    ensures Decrypted(w.Of(p), w.mail[k].message, w.next) == Err(InvalidMessage)
    ensures !Current(w, p, w.mail[k].message.ratchetKey)
  {
    hide Decrypted, Keyed, SealedOn, LetterOk, Seal, ChainOk;
    var (s, i, j, m) := (w.Of(p), l.At(p), l.rungs[k], w.mail[k].message);
    Unpack(w, l, a, b, p, k);
    Lookup(s, i, l, w, Me(p, a, b), Me(Peer(p), a, b), j);
    assert l.keys[l.At(Peer(p))] != l.keys[j];
    assert Depth(NewBase(s, m.ratchetKey)) == i + 1 != Depth(l.bases[j]);
    OnNewChain(s, m, l.bases[j], w.mail[k].text, Me(p, a, b), Me(Peer(p), a, b), w.next);
  }

  /** A ratchet key one rung up opens the chain its owner sends on. */
  lemma NewBaseIsNextRung(w: World, l: Ladder, a: PublicKey, b: PublicKey, p: Party)
    requires OnLadder(w, l, a, b) && l.At(p) + 1 < |l.keys|
    ensures w.Of(p).rootKey.Some? && w.Of(p).senderChain.Some? && w.Of(p).senderChain.value.ratchetKeyPair.Some?
    ensures NewBase(w.Of(p), PublicKey(l.keys[l.At(p) + 1])) == l.bases[l.At(p) + 1]
    ensures CreateChain(w.Of(p).rootKey.value, PublicKey(l.keys[l.At(p) + 1]),
                        w.Of(p).senderChain.value.ratchetKeyPair.value.priv).0
            == RootKey(KDF, l.roots[l.At(p) + 1])
  {
    var i := l.At(p);
    assert Rung(l.roots[i], l.keys[i], l.keys[i + 1], l.roots[i + 1], l.bases[i + 1]);
    AgreementCommutes(l.keys[i], l.keys[i + 1]);
  }

  lemma VerdictNew(w: World, l: Ladder, a: PublicKey, b: PublicKey, p: Party, k: nat)
    requires OnLadder(w, l, a, b) && Allowed(w, Deliver(p, k)) && l.rungs[k] == l.At(p) + 1
    ensures Settled(w, p, w.mail[k], Decrypted(w.Of(p), w.mail[k].message, w.next))
    ensures FindChain(w.Of(p).receiverChains, w.mail[k].message.ratchetKey).None?
  {
    hide Decrypted, TakeKeys, FindChain, Keyed, SealedOn, LetterOk, Seal;
    var (s, i, j, m) := (w.Of(p), l.At(p), l.rungs[k], w.mail[k].message);
    Unpack(w, l, a, b, p, k);
    Lookup(s, i, l, w, Me(p, a, b), Me(Peer(p), a, b), j);
    NewBaseIsNextRung(w, l, a, b, p);
    OnNewChain(s, m, l.bases[j], w.mail[k].text, Me(p, a, b), Me(Peer(p), a, b), w.next);
    assert j == |l.keys| - 1 && w.Taken(m.ratchetKey) == NOTHING;
  }

  /** Exactly the acceptable letters are accepted, each with the text its sender meant; a used-up counter of a
      current chain is a duplicate and everything else is invalid. */
  lemma DeliveryVerdict(w: World, l: Ladder, a: PublicKey, b: PublicKey, p: Party, k: nat)
    requires OnLadder(w, l, a, b) && Allowed(w, Deliver(p, k))
    ensures Settled(w, p, w.mail[k], Decrypted(w.Of(p), w.mail[k].message, w.next))
  {
    Unpack(w, l, a, b, p, k);
    if l.rungs[k] == l.At(p) + 1 {
      VerdictNew(w, l, a, b, p, k);
    } else if l.At(p) - l.rungs[k] < 10 {
      VerdictHeld(w, l, a, b, p, k);
    } else {
      VerdictForgotten(w, l, a, b, p, k);
    }
  }

  // ---- Every step keeps the ladder ----

  lemma KeysOfRungs(l: Ladder, next: nat)
    requires Rungs(l, next)
    ensures forall i, j :: 0 <= i < j < |l.keys| ==> l.keys[i] < l.keys[j]
  {
  }

  lemma KeysBelowNext(l: Ladder, next: nat)
    requires Rungs(l, next)
    ensures forall i :: 0 <= i < |l.keys| ==> l.keys[i] < next
  {
  }

  lemma ChainsKept(chains: seq<ReceiverChain>, i: nat, keys: seq<nat>, bases: seq<Secret>,
                   taken: map<PublicKey, History>, keys': seq<nat>, bases': seq<Secret>,
                   taken': map<PublicKey, History>)
    requires ChainsOn(chains, i, keys, bases, taken)
    requires |keys| <= |keys'| == |bases'| && keys'[..|keys|] == keys && bases'[..|bases|] == bases
    requires forall j :: 0 <= j < i && j % 2 != i % 2 ==>
               HistoryFor(taken', PublicKey(keys[j])) == HistoryFor(taken, PublicKey(keys[j]))
    ensures ChainsOn(chains, i, keys', bases', taken')
  {
    hide ChainOk;
    forall p | 0 <= p < |chains|
      ensures var j := RungOfChain(i, |chains|, p);
              ChainOk(chains[p], keys'[j], bases'[j], HistoryFor(taken', PublicKey(keys'[j])))
    {
      var j := RungOfChain(i, |chains|, p);
      assert keys'[j] == keys[j] && bases'[j] == bases[j];
    }
  }

  /** Replacing the chain of one rung. */
  lemma ChainsUpdated(chains: seq<ReceiverChain>, i: nat, keys: seq<nat>, bases: seq<Secret>,
                      taken: map<PublicKey, History>, at: nat, c: ReceiverChain, h: History)
    requires forall x, y :: 0 <= x < y < |keys| ==> keys[x] < keys[y]
    requires ChainsOn(chains, i, keys, bases, taken) && at < |chains|
    requires var j := RungOfChain(i, |chains|, at); ChainOk(c, keys[j], bases[j], h)
    ensures ChainsOn(chains[at := c], i, keys, bases, taken[PublicKey(keys[RungOfChain(i, |chains|, at)]) := h])
  {
    hide ChainOk;
    var (key, more) := (PublicKey(keys[RungOfChain(i, |chains|, at)]), chains[at := c]);
    forall p | 0 <= p < |chains|
      ensures var j := RungOfChain(i, |chains|, p);
              ChainOk(more[p], keys[j], bases[j], HistoryFor(taken[key := h], PublicKey(keys[j])))
    {
      assert p != at ==> more[p] == chains[p];
    }
  }

  /** The newest five chains after one more: the rungs move up by two. */
  lemma ChainsShift(chains: seq<ReceiverChain>, c: ReceiverChain, i: nat, q: nat)
    requires |chains| == ChainCount(i)
    requires q < |LastN(chains + [c], MAX_RECEIVER_CHAINS)|
    ensures var more := LastN(chains + [c], MAX_RECEIVER_CHAINS);
            && |more| == ChainCount(i + 2)
            && (q == |more| - 1 ==> more[q] == c && RungOfChain(i + 2, |more|, q) == i + 1)
            && (q < |more| - 1 ==>
                  var r := q + |chains| + 1 - |more|;
                  && more[q] == chains[r]
                  && RungOfChain(i + 2, |more|, q) == RungOfChain(i, |chains|, r) < i)
  {
    ChainCountClimbs(i);
    hide ChainCount;
  }

  lemma ClimbedChain(chains: seq<ReceiverChain>, i: nat, keys: seq<nat>, bases: seq<Secret>,
                     taken: map<PublicKey, History>, c: ReceiverChain, h: History, q: nat)
    requires forall x, y :: 0 <= x < y < |keys| ==> keys[x] < keys[y]
    requires ChainsOn(chains, i, keys, bases, taken) && |keys| == i + 2
    requires ChainOk(c, keys[i + 1], bases[i + 1], h)
    requires q < |LastN(chains + [c], MAX_RECEIVER_CHAINS)|
    ensures var more := LastN(chains + [c], MAX_RECEIVER_CHAINS);
            && |more| == ChainCount(i + 2)
            && var j := RungOfChain(i + 2, |more|, q);
               && j < |keys|
               && ChainOk(more[q], keys[j], bases[j],
                          HistoryFor(taken[PublicKey(keys[i + 1]) := h], PublicKey(keys[j])))
  {
    hide ChainOk, LastN, RungOfChain, ChainCount, FindChain;
    ChainsShift(chains, c, i, q);
    var more := LastN(chains + [c], MAX_RECEIVER_CHAINS);
    if q < |more| - 1 {
      var r := q + |chains| + 1 - |more|;
      assert more[q] == chains[r];
      assert keys[RungOfChain(i, |chains|, r)] < keys[i + 1];
    }
  }

  /** A new chain on the topmost rung. */
  lemma ChainsClimbed(chains: seq<ReceiverChain>, i: nat, keys: seq<nat>, bases: seq<Secret>,
                      taken: map<PublicKey, History>, c: ReceiverChain, h: History, key: nat, base: Secret)
    requires forall x, y :: 0 <= x < y < |keys| ==> keys[x] < keys[y]
    requires ChainsOn(chains, i, keys, bases, taken) && |keys| == i + 2
    requires ChainOk(c, keys[i + 1], bases[i + 1], h)
    ensures ChainsOn(LastN(chains + [c], MAX_RECEIVER_CHAINS), i + 2, keys + [key], bases + [base],
                     taken[PublicKey(keys[i + 1]) := h])
  {
    hide ChainOk;
    var more := LastN(chains + [c], MAX_RECEIVER_CHAINS);
    var (keys', bases', taken') := (keys + [key], bases + [base], taken[PublicKey(keys[i + 1]) := h]);
    ClimbedChain(chains, i, keys, bases, taken, c, h, 0);
    forall q | 0 <= q < |more|
      ensures var j := RungOfChain(i + 2, |more|, q);
              ChainOk(more[q], keys'[j], bases'[j], HistoryFor(taken', PublicKey(keys'[j])))
    {
      ClimbedChain(chains, i, keys, bases, taken, c, h, q);
      var j := RungOfChain(i + 2, |more|, q);
      assert keys'[j] == keys[j] && bases'[j] == bases[j];
    }
  }

  /** A side does not notice changes of the world that leave its keys, bases and histories alone. */
  lemma SideKept(s: State, i: nat, l: Ladder, w: World, l': Ladder, w': World, me: PublicKey, peer: PublicKey)
    requires Side(s, i, l, w, me, peer)
    requires i < |l'.keys| == |l'.roots| == |l'.bases| == |l'.sent| && |l.keys| <= |l'.keys|
    requires l'.keys[..|l.keys|] == l.keys && l'.bases[..|l.bases|] == l.bases
    requires l'.roots[i] == l.roots[i] && l'.sent[i] == l.sent[i] && LastBefore(l'.sent, i) == LastBefore(l.sent, i)
    requires forall j :: 0 <= j < i && j % 2 != i % 2 ==>
               w'.Taken(PublicKey(l.keys[j])) == w.Taken(PublicKey(l.keys[j]))
    ensures Side(s, i, l', w', me, peer)
  {
    hide ChainsOn;
    ChainsKept(s.receiverChains, i, l.keys, l.bases, w.taken, l'.keys, l'.bases, w'.taken);
    assert l'.keys[i] == l.keys[i] && l'.bases[i] == l.bases[i];
  }

  lemma LettersKept(w: World, l: Ladder, w': World, l': Ladder, a: PublicKey, b: PublicKey)
    requires LettersOk(w, l, a, b)
    requires |l'.keys| == |l'.bases| == |l'.sent| && |l.keys| <= |l'.keys| && |l.bases| <= |l'.bases|
    requires l'.keys[..|l.keys|] == l.keys && l'.bases[..|l.bases|] == l.bases
    requires forall j :: 0 <= j < |l.sent| && j < |l'.sent| ==> l.sent[j] <= l'.sent[j] < TWO32
    requires forall j :: 0 <= j < |l.keys| ==> LastBefore(l'.sent, j) == LastBefore(l.sent, j)
    requires |l'.rungs| == |w'.mail| >= |w.mail| && w'.mail[..|w.mail|] == w.mail && l'.rungs[..|l.rungs|] == l.rungs
    requires forall k :: |w.mail| <= k < |w'.mail| ==> LetterOk(w'.mail[k], l'.rungs[k], l', a, b)
    ensures LettersOk(w', l', a, b)
  {
    forall k | 0 <= k < |w.mail|
      ensures LetterOk(w'.mail[k], l'.rungs[k], l', a, b)
    {
      var j := l.rungs[k];
      assert LetterOk(w.mail[k], j, l, a, b);
      assert w'.mail[k] == w.mail[k] && l'.rungs[k] == j;
      assert l'.keys[j] == l.keys[j] && l'.bases[j] == l.bases[j];
    }
  }

  /** What sending does: one more message on the party's own rung. */
  lemma SendOnRung(s: State, i: nat, l: Ladder, w: World, me: PublicKey, peer: PublicKey, text: Text)
    requires Side(s, i, l, w, me, peer) && l.sent[i] < TWO32 - 1
    ensures Encrypted(s, text).Ok?
    ensures var ((s', e), ahead) := (Encrypted(s, text).value, ChainAt(KDF, l.bases[i], l.sent[i] + 1));
            && s' == s.(senderChain := Some(SenderChain(Some(PairOf(l.keys[i])), Some(ahead))))
            && e.Inner() == Seal(CURRENT_VERSION, KeysAt(KDF, l.bases[i], l.sent[i]), PublicKey(l.keys[i]), l.sent[i],
                                 s.previousCounter, text, me, peer)
  {
    hide ChainOk;
    assert NextChainKey(ChainAt(KDF, l.bases[i], l.sent[i])) == ChainAt(KDF, l.bases[i], l.sent[i] + 1);
  }

  /** The ladder after one more message on rung `i`. */
  function OneMoreSent(l: Ladder, i: nat): Ladder
    requires i < |l.sent|
  {
    l.(sent := l.sent[i := l.sent[i] + 1], rungs := l.rungs + [i])
  }

  lemma SenderSideAfterSend(w: World, l: Ladder, a: PublicKey, b: PublicKey, p: Party, text: Text)
    requires SideOf(w, l, a, b, p) && l.sent[l.At(p)] < TWO32 - 1
    ensures SideOf(Step(w, Send(p, text)), OneMoreSent(l, l.At(p)), a, b, p)
  {
    hide Encrypted, ChainsOn;
    SendOnRung(w.Of(p), l.At(p), l, w, Me(p, a, b), Me(Peer(p), a, b), text);
  }

  lemma NewLetterOk(w: World, l: Ladder, a: PublicKey, b: PublicKey, p: Party, text: Text)
    requires OnLadder(w, l, a, b) && l.sent[l.At(p)] < TWO32 - 1
    ensures Encrypted(w.Of(p), text).Ok?
    ensures LetterOk(Letter(p, Encrypted(w.Of(p), text).value.1.Inner(), text), l.At(p), OneMoreSent(l, l.At(p)), a, b)
  {
    hide Encrypted, ChainOk;
    SendOnRung(w.Of(p), l.At(p), l, w, Me(p, a, b), Me(Peer(p), a, b), text);
  }

  lemma SendKeepsLadder(w: World, l: Ladder, a: PublicKey, b: PublicKey, p: Party, text: Text)
    requires OnLadder(w, l, a, b) && Allowed(w, Send(p, text))
    ensures l.At(p) < |l.sent| && OnLadder(Step(w, Send(p, text)), OneMoreSent(l, l.At(p)), a, b)
  {
    hide Encrypted, Side, LetterOk, Rung, Depth, IsBase;
    var (i, l') := (l.At(p), OneMoreSent(l, l.At(p)));
    var w' := Step(w, Send(p, text));
    assert SendCounter(w.Of(p)) == l.sent[i] by {
      SendCounterOnRung(w, l, a, b, p);
    }
    SenderSideAfterSend(w, l, a, b, p, text);
    NewLetterOk(w, l, a, b, p, text);
    SideKept(w.Of(Peer(p)), l.At(Peer(p)), l, w, l', w', Me(Peer(p), a, b), Me(p, a, b));
    LettersKept(w, l, w', l', a, b);
    RungsAfterSend(l, w.next, i);
  }

  lemma RungsAfterSend(l: Ladder, next: nat, i: nat)
    requires Rungs(l, next) && i < |l.sent| && l.sent[i] < TWO32 - 1
    ensures Rungs(OneMoreSent(l, i), next)
  {
    var l' := OneMoreSent(l, i);
    assert l'.keys == l.keys && l'.roots == l.roots && l'.bases == l.bases;
  }

  lemma SendCounterOnRung(w: World, l: Ladder, a: PublicKey, b: PublicKey, p: Party)
    requires SideOf(w, l, a, b, p)
    ensures SendCounter(w.Of(p)) == l.sent[l.At(p)]
  {
    hide ChainOk;
  }

  /** A refused delivery only uses up key pairs. */
  lemma RefusalKeepsLadder(w: World, l: Ladder, a: PublicKey, b: PublicKey, next: nat)
    requires OnLadder(w, l, a, b) && w.next <= next
    ensures OnLadder(w.(next := next), l, a, b)
  {
    hide Side, LetterOk, Rung;
    var w' := w.(next := next);
    forall p: Party
      ensures SideOf(w', l, a, b, p)
    {
      assert SideOf(w, l, a, b, p);
      SideKept(w.Of(p), l.At(p), l, w, l, w', Me(p, a, b), Me(Peer(p), a, b));
    }
  }

  /** An accepted delivery on a held chain: what the new world looks like. */
  lemma HeldOutcome(w: World, l: Ladder, a: PublicKey, b: PublicKey, p: Party, k: nat)
    returns (at: nat, c: ReceiverChain)
    requires OnLadder(w, l, a, b) && Allowed(w, Deliver(p, k))
    requires l.rungs[k] < l.At(p) && l.At(p) - l.rungs[k] < 10
    requires Decrypted(w.Of(p), w.mail[k].message, w.next).Ok?
    ensures var (s, j, m) := (w.Of(p), l.rungs[k], w.mail[k].message);
            && at < |s.receiverChains| && RungOfChain(l.At(p), |s.receiverChains|, at) == j < |l.keys|
            && m.ratchetKey == PublicKey(l.keys[j])
            && Decrypted(s, m, w.next).value.0 == s.(receiverChains := s.receiverChains[at := c], pendingPreKey := None)
            && ChainOk(c, l.keys[j], l.bases[j], After(w.Taken(m.ratchetKey), WindowFor(s, m.ratchetKey), m.counter))
            && DrawnByDecrypt(s, m) == 0
  {
    hide Decrypted, TakeKeys, FindChain, Take, Tidy, LiesOn, SealedOn, LetterOk, Rungs, Evicts;
    var (s, i, j, m) := (w.Of(p), l.At(p), l.rungs[k], w.mail[k].message);
    Unpack(w, l, a, b, p, k);
    Lookup(s, i, l, w, Me(p, a, b), Me(Peer(p), a, b), j);
    at := FindChain(s.receiverChains, m.ratchetKey).value;
    assert ChainOk(s.receiverChains[at], l.keys[j], l.bases[j], w.Taken(m.ratchetKey));
    OnHeldChain(s, m, l.bases[j], w.mail[k].text, Me(p, a, b), Me(Peer(p), a, b), w.next, at);
    TakeConserves(0, WindowOf(s.receiverChains[at]), w.Taken(m.ratchetKey), m.counter);
    c := TakeKeys(s.receiverChains[at], m.counter).value.0;
  }

  /** What an accepted delivery does to the world. */
  lemma AcceptedStep(w: World, p: Party, k: nat)
    requires k < |w.mail| && Decrypted(w.Of(p), w.mail[k].message, w.next).Ok?
    ensures var (s, m) := (w.Of(p), w.mail[k].message);
            var h := After(w.Taken(m.ratchetKey), WindowFor(s, m.ratchetKey), m.counter);
            Step(w, Deliver(p, k))
            == w.With(p, Decrypted(s, m, w.next).value.0)
                .(next := w.next + DrawnByDecrypt(s, m), taken := w.taken[m.ratchetKey := h])
  {
    hide Decrypted, DrawnByDecrypt, After, WindowFor;
  }

  /** The world after a key was taken from a held chain is on the same ladder. */
  lemma UpdateKeepsLadder(w: World, l: Ladder, a: PublicKey, b: PublicKey, p: Party, at: nat, c: ReceiverChain,
                          h: History)
    requires OnLadder(w, l, a, b) && l.At(p) < |l.keys| && at < |w.Of(p).receiverChains| == ChainCount(l.At(p))
    requires var j := RungOfChain(l.At(p), |w.Of(p).receiverChains|, at);
             j < |l.keys| && j % 2 != l.At(p) % 2 && ChainOk(c, l.keys[j], l.bases[j], h)
    ensures var (s, j) := (w.Of(p), RungOfChain(l.At(p), |w.Of(p).receiverChains|, at));
            OnLadder(w.With(p, s.(receiverChains := s.receiverChains[at := c], pendingPreKey := None))
                      .(taken := w.taken[PublicKey(l.keys[j]) := h]), l, a, b)
  {
    KeysOfRungs(l, w.next);
    KeysBelowNext(l, w.next);
    hide ChainOk, ChainsOn, LetterOk, Linked, KeysRise, ChainCount;
    var (s, q, j) := (w.Of(p), Peer(p), RungOfChain(l.At(p), |w.Of(p).receiverChains|, at));
    var w' := w.With(p, s.(receiverChains := s.receiverChains[at := c], pendingPreKey := None))
               .(taken := w.taken[PublicKey(l.keys[j]) := h]);
    OwnSideUpdated(w, l, a, b, p, at, c, h, w');
    OtherSideKept(w, l, a, b, q, w', j, h);
    LettersKept(w, l, w', l, a, b);
    hide SideOf;
  }

  lemma OwnSideUpdated(w: World, l: Ladder, a: PublicKey, b: PublicKey, p: Party, at: nat, c: ReceiverChain, h: History,
                       w': World)
    requires OnLadder(w, l, a, b) && l.At(p) < |l.keys| && at < |w.Of(p).receiverChains| == ChainCount(l.At(p))
    requires var j := RungOfChain(l.At(p), |w.Of(p).receiverChains|, at);
             && j < |l.keys| && ChainOk(c, l.keys[j], l.bases[j], h)
             && w'.taken == w.taken[PublicKey(l.keys[j]) := h]
             && w'.Of(p) == w.Of(p).(receiverChains := w.Of(p).receiverChains[at := c], pendingPreKey := None)
    ensures SideOf(w', l, a, b, p)
  {
    KeysOfRungs(l, w.next);
    hide ChainOk, ChainsOn, LetterOk, Linked, KeysRise, ChainCount, RungOfChain, LettersOk;
    ChainsUpdated(w.Of(p).receiverChains, l.At(p), l.keys, l.bases, w.taken, at, c, h);
  }

  lemma OtherSideKept(w: World, l: Ladder, a: PublicKey, b: PublicKey, q: Party, w': World, j: nat, h: History)
    requires Rungs(l, w.next) && SideOf(w, l, a, b, q) && j < |l.keys| && j % 2 == l.At(q) % 2
    requires w'.Of(q) == w.Of(q) && w'.taken == w.taken[PublicKey(l.keys[j]) := h]
    ensures SideOf(w', l, a, b, q)
  {
    KeysOfRungs(l, w.next);
    hide Rungs, Side;
    assert forall i :: 0 <= i < |l.keys| && i != j ==> l.keys[i] != l.keys[j];
    SideKept(w.Of(q), l.At(q), l, w, l, w', Me(q, a, b), Me(Peer(q), a, b));
  }

  lemma HeldKeepsLadder(w: World, l: Ladder, a: PublicKey, b: PublicKey, p: Party, k: nat)
    requires OnLadder(w, l, a, b) && Allowed(w, Deliver(p, k))
    requires k < |l.rungs| && l.rungs[k] < l.At(p) && l.At(p) - l.rungs[k] < 10
    requires Decrypted(w.Of(p), w.mail[k].message, w.next).Ok?
    ensures OnLadder(Step(w, Deliver(p, k)), l, a, b)
  {
    hide OnLadder, Step, Decrypted, DrawnByDecrypt, ChainOk, After, WindowFor, ChainCount, SealedOn, Ready;
    var m := w.mail[k].message;
    Unpack(w, l, a, b, p, k);
    var at, c := HeldOutcome(w, l, a, b, p, k);
    AcceptedStep(w, p, k);
    UpdateKeepsLadder(w, l, a, b, p, at, c, After(w.Taken(m.ratchetKey), WindowFor(w.Of(p), m.ratchetKey), m.counter));
  }

  /** The ladder with one more rung, reached by `p` with the key pair named `next`. */
  function Climbed(l: Ladder, p: Party, next: nat): Ladder
    requires |l.keys| == |l.roots| > 0
  {
    var n := |l.keys|;
    var l1 := l.(keys := l.keys + [next],
                 roots := l.roots + [Ratcheted(KDF, l.roots[n - 1], Between(l.keys[n - 1], next), First)],
                 bases := l.bases + [Ratcheted(KDF, l.roots[n - 1], Between(l.keys[n - 1], next), Second)],
                 sent := l.sent + [0]);
    if p.Alice? then l1.(alice := n) else l1.(bob := n)
  }

  lemma LinkedAfterClimb(keys: seq<nat>, roots: seq<Secret>, bases: seq<Secret>, next: nat, root: Secret, base: Secret)
    requires Linked(keys, roots, bases) && |keys| > 0
    requires Rung(roots[|roots| - 1], keys[|keys| - 1], next, root, base)
    ensures Linked(keys + [next], roots + [root], bases + [base])
  {
    var (n, keys', roots', bases') := (|keys|, keys + [next], roots + [root], bases + [base]);
    forall i | 0 < i < |keys'|
      ensures Rung(roots'[i - 1], keys'[i - 1], keys'[i], roots'[i], bases'[i])
    {
      if i < n {
        assert Rung(roots[i - 1], keys[i - 1], keys[i], roots[i], bases[i]);
      }
    }
  }

  lemma RungsAfterClimb(l: Ladder, p: Party, next: nat)
    requires Rungs(l, next) && l.At(p) + 2 == |l.keys|
    ensures Rungs(Climbed(l, p, next), next + 1)
  {
    hide Rung, Linked;
    var (n, l') := (|l.keys|, Climbed(l, p, next));
    assert Rung(l.roots[n - 1], l.keys[n - 1], next, l'.roots[n], l'.bases[n]) by {
      TopRung(l, p, next);
    }
    LinkedAfterClimb(l.keys, l.roots, l.bases, next, l'.roots[n], l'.bases[n]);
    assert KeysRise(l'.keys, next + 1);
    assert OnTop(l');
  }

  lemma TopRung(l: Ladder, p: Party, next: nat)
    requires |l.keys| == |l.roots| == |l.bases| > 0
    ensures var (n, l') := (|l.keys|, Climbed(l, p, next));
            Rung(l.roots[n - 1], l.keys[n - 1], next, l'.roots[n], l'.bases[n])
  {
  }

  /** A delivery under the peer's next ratchet key meets a new chain, and draws a key pair for it. */
  lemma NewDelivery(w: World, l: Ladder, a: PublicKey, b: PublicKey, p: Party, k: nat)
    requires OnLadder(w, l, a, b) && Allowed(w, Deliver(p, k)) && l.rungs[k] == l.At(p) + 1
    ensures var (s, m, n) := (w.Of(p), w.mail[k].message, |l.keys|);
            && l.At(p) + 2 == n && m.ratchetKey == PublicKey(l.keys[n - 1])
            && w.Taken(m.ratchetKey) == NOTHING && WindowFor(s, m.ratchetKey) == Window(0, [])
            && DrawnByDecrypt(s, m) == 1
  {
    hide LetterOk, FindChain, Decrypted, Linked, Settled, ChainsOn;
    Unpack(w, l, a, b, p, k);
    VerdictNew(w, l, a, b, p, k);
  }

  /** An accepted delivery under the peer's next ratchet key: what the receiver's new state is. */
  lemma NewOutcome(w: World, l: Ladder, a: PublicKey, b: PublicKey, p: Party, k: nat) returns (c: ReceiverChain)
    requires OnLadder(w, l, a, b) && Allowed(w, Deliver(p, k)) && l.rungs[k] == l.At(p) + 1
    requires Decrypted(w.Of(p), w.mail[k].message, w.next).Ok?
    ensures var (s, m, n) := (w.Of(p), w.mail[k].message, |l.keys|);
            && l.At(p) + 2 == n
            && m.ratchetKey == PublicKey(l.keys[n - 1])
            && w.Taken(m.ratchetKey) == NOTHING && WindowFor(s, m.ratchetKey) == Window(0, [])
            && Opened(s, Decrypted(s, m, w.next).value.0, l, p, w.next, c)
            && ChainOk(c, l.keys[n - 1], l.bases[n - 1], After(NOTHING, Window(0, []), m.counter))
            && DrawnByDecrypt(s, m) == 1
  {
    hide Take, Tidy, LiesOn, LetterOk, Evicts, FindChain, ChainOk, After, Keyed, OpenChain, Decrypted, Linked;
    hide Settled, SealedOn, Seal, DrawnByDecrypt, WindowFor, ChainsOn, KeysRise;
    var (s, i, m) := (w.Of(p), l.At(p), w.mail[k].message);
    NewDelivery(w, l, a, b, p, k);
    Unpack(w, l, a, b, p, k);
    VerdictNew(w, l, a, b, p, k);
    NewBaseIsNextRung(w, l, a, b, p);
    OnNewChain(s, m, l.bases[i + 1], w.mail[k].text, Me(p, a, b), Me(Peer(p), a, b), w.next);
    c := StateOnNewChain(s, m.ratchetKey, m.counter, w.next);
    FirstTakeConserves(c, l.keys[i + 1], l.bases[i + 1], m.counter);
  }

  lemma FirstTakeConserves(c: ReceiverChain, key: nat, base: Secret, counter: uint32)
    requires counter <= MAX_MESSAGE_KEYS && c.ratchetKey == PublicKey(key) && LiesOn(c, base)
    requires WindowOf(c) == Window(counter + 1, LastN([] + Range(0, counter), MAX_MESSAGE_KEYS))
    ensures ChainOk(c, key, base, After(NOTHING, Window(0, []), counter))
  {
    assert Conserved(0, Window(0, []), NOTHING);
    TakeConserves(0, Window(0, []), NOTHING, counter);
  }

  /** The receiver's state after such a delivery. */
  predicate Opened(s: State, s': State, l: Ladder, p: Party, next: nat, c: ReceiverChain)
    requires |l.keys| == |l.roots| > 0 && |l.bases| == |l.keys|
  {
    var (n, l') := (|l.keys|, Climbed(l, p, next));
    s'.previousCounter == LastBefore(l.sent, n) &&
    s' == s.(rootKey := Some(RootKey(KDF, l'.roots[n])), previousCounter := s'.previousCounter,
             senderChain := Some(SenderChain(Some(PairOf(l'.keys[n])), Some(ChainAt(KDF, l'.bases[n], 0)))),
             receiverChains := LastN(s.receiverChains + [c], MAX_RECEIVER_CHAINS), pendingPreKey := None)
  }

  lemma OwnSideAfterClimb(w: World, l: Ladder, a: PublicKey, b: PublicKey, p: Party, w': World, c: ReceiverChain,
                          h: History)
    requires Rungs(l, w.next) && SideOf(w, l, a, b, p) && l.At(p) + 2 == |l.keys|
    requires ChainOk(c, l.keys[|l.keys| - 1], l.bases[|l.keys| - 1], h) && Opened(w.Of(p), w'.Of(p), l, p, w.next, c)
    requires w'.taken == w.taken[PublicKey(l.keys[|l.keys| - 1]) := h]
    ensures SideOf(w', Climbed(l, p, w.next), a, b, p)
  {
    KeysOfRungs(l, w.next);
    hide Rungs, ChainOk, ChainsOn, LastN;
    var l' := Climbed(l, p, w.next);
    ChainsClimbed(w.Of(p).receiverChains, l.At(p), l.keys, l.bases, w.taken, c, h, w.next, l'.bases[|l.keys|]);
  }

  /** The world after such a delivery is on the ladder with one more rung. */
  lemma ClimbKeepsLadder(w: World, l: Ladder, a: PublicKey, b: PublicKey, p: Party, s': State, c: ReceiverChain,
                         h: History)
    requires OnLadder(w, l, a, b) && l.At(p) + 2 == |l.keys|
    requires ChainOk(c, l.keys[|l.keys| - 1], l.bases[|l.keys| - 1], h) && Opened(w.Of(p), s', l, p, w.next, c)
    ensures OnLadder(w.With(p, s').(next := w.next + 1, taken := w.taken[PublicKey(l.keys[|l.keys| - 1]) := h]),
                     Climbed(l, p, w.next), a, b)
  {
    hide Side, LetterOk, Linked, ChainOk, Opened, KeysRise;
    var (n, l') := (|l.keys|, Climbed(l, p, w.next));
    var w' := w.With(p, s').(next := w.next + 1, taken := w.taken[PublicKey(l.keys[n - 1]) := h]);
    assert l.At(Peer(p)) == n - 1;
    RungsAfterClimb(l, p, w.next);
    OwnSideAfterClimb(w, l, a, b, p, w', c, h);
    PeerSideAfterClimb(w, l, a, b, p, w', h);
    LettersKept(w, l, w', l', a, b);
    KeysBelowNext(l, w.next);
  }

  lemma PeerSideAfterClimb(w: World, l: Ladder, a: PublicKey, b: PublicKey, p: Party, w': World, h: History)
    requires Rungs(l, w.next) && SideOf(w, l, a, b, Peer(p)) && l.At(Peer(p)) == |l.keys| - 1
    requires w'.Of(Peer(p)) == w.Of(Peer(p)) && w'.taken == w.taken[PublicKey(l.keys[|l.keys| - 1]) := h]
    ensures SideOf(w', Climbed(l, p, w.next), a, b, Peer(p))
  {
    var q := Peer(p);
    KeysOfRungs(l, w.next);
    hide Rungs, Side;
    SideKept(w.Of(q), l.At(q), l, w, Climbed(l, p, w.next), w', Me(q, a, b), Me(p, a, b));
  }

  lemma NewKeepsLadder(w: World, l: Ladder, a: PublicKey, b: PublicKey, p: Party, k: nat)
    requires OnLadder(w, l, a, b) && Allowed(w, Deliver(p, k)) && k < |l.rungs| && l.rungs[k] == l.At(p) + 1
    requires Decrypted(w.Of(p), w.mail[k].message, w.next).Ok? && |l.keys| == |l.roots| == |l.bases| > 0
    ensures OnLadder(Step(w, Deliver(p, k)), Climbed(l, p, w.next), a, b)
  {
    hide OnLadder, Step, Decrypted, DrawnByDecrypt, After, ChainOk, Opened, WindowFor;
    var (m, s') := (w.mail[k].message, Decrypted(w.Of(p), w.mail[k].message, w.next).value.0);
    var c := NewOutcome(w, l, a, b, p, k);
    AcceptedStep(w, p, k);
    ClimbKeepsLadder(w, l, a, b, p, s', c, After(NOTHING, Window(0, []), m.counter));
  }

  // ---- Every run ----

  lemma StepKeepsLadder(w: World, l: Ladder, a: PublicKey, b: PublicKey, e: Event) returns (l': Ladder)
    requires OnLadder(w, l, a, b) && Allowed(w, e)
    ensures OnLadder(Step(w, e), l', a, b)
  {
    hide OnLadder, Decrypted, Encrypted, DrawnByDecrypt;
    match e
    case Send(p, text) =>
      SendKeepsLadder(w, l, a, b, p, text);
      l' := OneMoreSent(l, l.At(p));
    case Deliver(p, k) =>
      Unpack(w, l, a, b, p, k);
      l' := l;
      if Decrypted(w.Of(p), w.mail[k].message, w.next).Err? {
        RefusalKeepsLadder(w, l, a, b, w.next + DrawnByDecrypt(w.Of(p), w.mail[k].message));
      } else if l.rungs[k] == l.At(p) + 1 {
        NewKeepsLadder(w, l, a, b, p, k);
        l' := Climbed(l, p, w.next);
      } else {
        DeliveryVerdict(w, l, a, b, p, k);
        if l.At(p) - l.rungs[k] >= 10 {
          VerdictForgotten(w, l, a, b, p, k);
        }
        HeldKeepsLadder(w, l, a, b, p, k);
      }
  }

  lemma {:induction false} RunKeepsLadder(a: AliceParameters, b: BobParameters, next: nat, es: seq<Event>)
    returns (l: Ladder)
    requires Matching(a, b, next) && AllowedRun(Start(a, b, next), es)
    ensures OnLadder(Run(Start(a, b, next), es), l, a.ourIdentity.pub, b.ourIdentity.pub)
    decreases |es|
  {
    hide OnLadder, Step;
    if es == [] {
      StartIsOnLadder(a, b, next);
      l := FirstLadder(AliceSecret(a), b.ourRatchet.pub.id, next);
    } else {
      var before := RunKeepsLadder(a, b, next, es[..|es| - 1]);
      l := StepKeepsLadder(Run(Start(a, b, next), es[..|es| - 1]), before, a.ourIdentity.pub, b.ourIdentity.pub,
                           es[|es| - 1]);
    }
  }

  /** Two-party agreement: after any run, any letter delivered to its addressee is accepted exactly if it is
      acceptable, and then with the text its sender meant. */
  lemma TwoPartyAgreement(a: AliceParameters, b: BobParameters, next: nat, es: seq<Event>, p: Party, k: nat)
    requires Matching(a, b, next) && AllowedRun(Start(a, b, next), es)
    requires var w := Run(Start(a, b, next), es); k < |w.mail| && w.mail[k].from == Peer(p)
    ensures var w := Run(Start(a, b, next), es);
            Settled(w, p, w.mail[k], Decrypted(w.Of(p), w.mail[k].message, w.next))
  {
    hide OnLadder, Run, Settled, Decrypted, Start;
    var l := RunKeepsLadder(a, b, next, es);
    DeliveryVerdict(Run(Start(a, b, next), es), l, a.ourIdentity.pub, b.ourIdentity.pub, p, k);
  }

  /** Skipped-key conservation: after any run, on every receiver chain, the counters below the chain index split
      exactly into accepted, stored and evicted ones, and the stored list is increasing and bounded; and there are
      at most five chains. */
  lemma SkippedKeysConserved(a: AliceParameters, b: BobParameters, next: nat, es: seq<Event>, p: Party)
    requires Matching(a, b, next) && AllowedRun(Start(a, b, next), es)
    ensures var w := Run(Start(a, b, next), es);
            && |w.Of(p).receiverChains| <= MAX_RECEIVER_CHAINS
            && forall c :: c in w.Of(p).receiverChains ==> Conserved(0, WindowOf(c), w.Taken(c.ratchetKey))
  {
    hide Run, Start, Conserved, AllowedRun, Matching, LetterOk, Linked;
    var l := RunKeepsLadder(a, b, next, es);
    var w := Run(Start(a, b, next), es);
    assert SideOf(w, l, a.ourIdentity.pub, b.ourIdentity.pub, p);
    forall c | c in w.Of(p).receiverChains
      ensures Conserved(0, WindowOf(c), w.Taken(c.ratchetKey))
    {
      var q :| 0 <= q < |w.Of(p).receiverChains| && w.Of(p).receiverChains[q] == c;
    }
  }
}
