/**
 A receiver chain keeps one chain key and a list of skipped keys. This module shows
 that the lazy chain hands out the keys of the simple one: the base key stepped as
 many times as the counter says, with the skipped keys following `SkipWindow`.
 */
module ReceiverChains {
  import opened Common
  import opened Crypto
  import opened Ratchet
  import opened SkipWindow
  import opened SessionStates
  import opened SessionCiphers

  /** The KDF version of every session of the current version. */
  const KDF: nat := 3

  function Counters(keys: seq<MessageKeys>): (r: seq<nat>)
    ensures |r| == |keys|
    ensures forall i :: 0 <= i < |r| ==> r[i] == keys[i].counter
  {
    seq(|keys|, i requires 0 <= i < |keys| => keys[i].counter)
  }

  /** The counters of a chain: the next one and the skipped ones. */
  function WindowOf(c: ReceiverChain): Window {
    Window(c.chainKey.index, Counters(c.messageKeys))
  }

  /** Every key of the chain is the base stepped as many times as its counter says. */
  predicate LiesOn(c: ReceiverChain, base: Secret) {
    && IsBase(base)
    && c.chainKey == ChainAt(KDF, base, c.chainKey.index)
    && forall i :: 0 <= i < |c.messageKeys| ==> c.messageKeys[i] == KeysAt(KDF, base, c.messageKeys[i].counter)
  }

  /** A new chain starts at its base with nothing skipped. */
  lemma NewChainLiesOn(key: PublicKey, base: Secret)
    requires IsBase(base)
    ensures LiesOn(ReceiverChain(key, ChainKey(KDF, base, 0), []), base)
    ensures WindowOf(ReceiverChain(key, ChainKey(KDF, base, 0), [])) == Window(0, [])
  {
  }

  lemma FoundWhereCounted(keys: seq<MessageKeys>, counter: uint32)
    ensures FindKeys(keys, counter).Some? <==> counter in Counters(keys)
    ensures FindKeys(keys, counter).Some? ==> FindKeys(keys, counter).value == Position(Counters(keys), counter)
  {
    var cs := Counters(keys);
    var r := FindKeys(keys, counter);
    if r.Some? {
      assert cs[r.value] == counter;
      var p := Position(cs, counter);
      assert keys[p].counter == counter;
    }
  }

  lemma CountersAhead(base: Secret, index: uint32, n: nat)
    requires index + n < TWO32
    ensures forall i :: 0 <= i < n ==> KeysAhead(ChainAt(KDF, base, index), n)[i] == KeysAt(KDF, base, index + i)
    ensures Counters(KeysAhead(ChainAt(KDF, base, index), n)) == Range(index, index + n)
  {
    forall i | 0 <= i < n
      ensures KeysAhead(ChainAt(KDF, base, index), n)[i] == KeysAt(KDF, base, index + i)
    {
      StepsReachChainAt(KDF, base, index, i);
    }
  }

  lemma SkippingRefines(c: ReceiverChain, base: Secret, n: nat)
    requires LiesOn(c, base) && Tidy(0, WindowOf(c)) && c.chainKey.index + n < TWO32
    ensures Counters(WithSkipped(c, c.chainKey, n).messageKeys)
            == LastN(Counters(c.messageKeys) + Range(c.chainKey.index, c.chainKey.index + n), MAX_MESSAGE_KEYS)
    ensures LiesOn(WithSkipped(c, c.chainKey, n), base) && WithSkipped(c, c.chainKey, n).ratchetKey == c.ratchetKey
  {
    CountersAhead(base, c.chainKey.index, n);
    var ahead := KeysAhead(c.chainKey, n);
    var all := c.messageKeys + ahead;
    assert forall i :: 0 <= i < |all| ==> all[i] == KeysAt(KDF, base, all[i].counter);
    assert Counters(all) == Counters(c.messageKeys) + Range(c.chainKey.index, c.chainKey.index + n);
    if n > 0 {
      assert Counters(LastN(all, MAX_MESSAGE_KEYS)) == LastN(Counters(all), MAX_MESSAGE_KEYS);
    } else {
      assert all == c.messageKeys;
      assert LastN(Counters(all), MAX_MESSAGE_KEYS) == Counters(c.messageKeys);
    }
  }

  lemma StoredKeyRefines(c: ReceiverChain, base: Secret, counter: uint32)
    requires LiesOn(c, base) && c.chainKey.index > counter
    ensures TakeKeys(c, counter).Ok? <==> counter in WindowOf(c).stored
    ensures TakeKeys(c, counter).Err? ==> TakeKeys(c, counter).error == DuplicateMessage
    ensures TakeKeys(c, counter).Ok? ==>
              var (d, keys) := TakeKeys(c, counter).value;
              && keys == KeysAt(KDF, base, counter)
              && d.ratchetKey == c.ratchetKey
              && LiesOn(d, base)
              && var w := WindowOf(c);
                 WindowOf(d) == w.(stored := RemoveAt(w.stored, Position(w.stored, counter)))
  {
    FoundWhereCounted(c.messageKeys, counter);
    var found := FindKeys(c.messageKeys, counter);
    if found.Some? {
      assert Counters(RemoveAt(c.messageKeys, found.value)) == RemoveAt(Counters(c.messageKeys), found.value);
    }
  }

  lemma JumpRefines(c: ReceiverChain, base: Secret, counter: uint32)
    requires LiesOn(c, base) && Tidy(0, WindowOf(c)) && counter < TWO32 - 1
    requires c.chainKey.index <= counter && counter - c.chainKey.index <= MAX_MESSAGE_KEYS
    ensures TakeKeys(c, counter).Ok?
    ensures var (d, keys) := TakeKeys(c, counter).value;
            && keys == KeysAt(KDF, base, counter)
            && d.ratchetKey == c.ratchetKey
            && LiesOn(d, base)
            && var all := WindowOf(c).stored + Range(c.chainKey.index, counter);
               WindowOf(d) == Window(counter + 1, LastN(all, MAX_MESSAGE_KEYS))
  {
    hide WithSkipped, StepSecret, KeysAhead, Tidy, MessageKeysOf;
    var n := counter - c.chainKey.index;
    SkippingRefines(c, base, n);
    StepsReachChainAt(KDF, base, c.chainKey.index, n);
    StepsReachChainAt(KDF, base, c.chainKey.index, n + 1);
  }

  /** The lazy chain refines the simple one: a key is handed out, refused as a duplicate or refused as too far
      ahead exactly as the window says; the key is the base stepped `counter` times; and the chain stays on its base. */
  lemma TakeKeysRefines(c: ReceiverChain, base: Secret, counter: uint32)
    requires LiesOn(c, base) && Tidy(0, WindowOf(c)) && counter < TWO32 - 1
    ensures match Take(WindowOf(c), counter)
            case Duplicate => TakeKeys(c, counter) == Err(DuplicateMessage)
            case TooFar => TakeKeys(c, counter) == Err(InvalidMessage)
            case Accepted(w) =>
              && TakeKeys(c, counter).Ok?
              && TakeKeys(c, counter).value.1 == KeysAt(KDF, base, counter)
              && TakeKeys(c, counter).value.0.ratchetKey == c.ratchetKey
              && LiesOn(TakeKeys(c, counter).value.0, base)
              && WindowOf(TakeKeys(c, counter).value.0) == w
  {
    if c.chainKey.index > counter {
      StoredKeyRefines(c, base, counter);
    } else if counter - c.chainKey.index <= MAX_MESSAGE_KEYS {
      JumpRefines(c, base, counter);
    }
  }

  // ---- Delivery order ----

  /** A chain after handing out the keys for these counters one after the other; `None` as soon as one is refused. */
  function TakenInOrder(c: ReceiverChain, cs: seq<uint32>): Option<ReceiverChain>
    decreases |cs|
  {
    if cs == [] then Some(c)
    else match TakeKeys(c, cs[0])
      case Ok((d, _)) => TakenInOrder(d, cs[1..])
      case Err(_) => None
  }

  /** Taking keys in order follows the window, and the chain stays on its base. */
  lemma {:induction false} TakenInOrderRefines(c: ReceiverChain, base: Secret, h: History, cs: seq<uint32>)
    requires LiesOn(c, base) && Conserved(0, WindowOf(c), h) && (forall n :: n in cs ==> n < TWO32 - 1)
    requires TakenInOrder(c, cs).Some?
    ensures TakeAll(WindowOf(c), h, cs).Some?
    ensures var d := TakenInOrder(c, cs).value;
            d.ratchetKey == c.ratchetKey && LiesOn(d, base) && WindowOf(d) == TakeAll(WindowOf(c), h, cs).value.0
    decreases |cs|
  {
    hide LiesOn, TakeKeys, Conserved, Take;
    if cs != [] {
      assert Tidy(0, WindowOf(c)) by {
        ConservedIsTidy(0, WindowOf(c), h);
      }
      assert cs[0] in cs && forall n :: n in cs[1..] ==> n in cs;
      TakeKeysRefines(c, base, cs[0]);
      TakeConserves(0, WindowOf(c), h, cs[0]);
      TakenInOrderRefines(TakeKeys(c, cs[0]).value.0, base, After(h, WindowOf(c), cs[0]), cs[1..]);
    }
  }

  /** The window and the base determine the chain: its key and every stored key. */
  lemma WindowDeterminesChain(c: ReceiverChain, d: ReceiverChain, base: Secret)
    requires LiesOn(c, base) && LiesOn(d, base) && c.ratchetKey == d.ratchetKey && WindowOf(c) == WindowOf(d)
    ensures c == d
  {
    assert |c.messageKeys| == |WindowOf(c).stored| == |d.messageKeys|;
    forall i | 0 <= i < |c.messageKeys|
      ensures c.messageKeys[i] == d.messageKeys[i]
    {
      assert WindowOf(c).stored[i] == WindowOf(d).stored[i];
    }
  }

  /** Two delivery orders of the same messages on a new chain, neither of them evicting a key, end with the same
      chain key and the same stored keys. */
  lemma DeliveryOrderDoesNotMatter(key: PublicKey, base: Secret, xs: seq<uint32>, ys: seq<uint32>)
    requires IsBase(base) && (forall n :: n in xs <==> n in ys) && forall n :: n in xs ==> n < TWO32 - 1
    requires var c := ReceiverChain(key, ChainKey(KDF, base, 0), []);
             TakenInOrder(c, xs).Some? && TakenInOrder(c, ys).Some?
    requires TakeAll(Window(0, []), NOTHING, xs).Some? ==> TakeAll(Window(0, []), NOTHING, xs).value.1.evicted == {}
    requires TakeAll(Window(0, []), NOTHING, ys).Some? ==> TakeAll(Window(0, []), NOTHING, ys).value.1.evicted == {}
    ensures var c := ReceiverChain(key, ChainKey(KDF, base, 0), []); TakenInOrder(c, xs) == TakenInOrder(c, ys)
  {
    hide LiesOn, TakenInOrder, TakeAll, WindowOf;
    var c := ReceiverChain(key, ChainKey(KDF, base, 0), []);
    NewChainLiesOn(key, base);
    TakenInOrderRefines(c, base, NOTHING, xs);
    TakenInOrderRefines(c, base, NOTHING, ys);
    OrderDoesNotMatter(0, xs, ys);
    WindowDeterminesChain(TakenInOrder(c, xs).value, TakenInOrder(c, ys).value, base);
  }

  /** The base of the chain an unknown ratchet key opens. */
  function NewBase(s: State, their: PublicKey): Secret
    requires s.rootKey.Some? && s.senderChain.Some? && s.senderChain.value.ratchetKeyPair.Some?
  {
    var ours := s.senderChain.value.ratchetKeyPair.value.priv;
    Ratcheted(s.rootKey.value.kdf, s.rootKey.value.key, Agreement(their, ours), Second)
  }

  /** The keys for a message come from the chain its ratchet key opens. */
  lemma KeyedFromOpened(s: State, their: PublicKey, counter: uint32, next: nat, i: nat)
    requires OpenChain(s, their, next).Ok?
    requires FindChain(OpenChain(s, their, next).value.0.receiverChains, their) == Some(i)
    ensures var s1 := OpenChain(s, their, next).value.0;
            match TakeKeys(s1.receiverChains[i], counter)
            case Err(e) => Keyed(s, their, counter, next) == Err(e)
            case Ok((c, keys)) =>
              Keyed(s, their, counter, next) == Ok((s1.(receiverChains := s1.receiverChains[i := c]), keys))
  {
    hide OpenChain, TakeKeys;
  }

  /** What opening a chain for an unknown key and taking a key from it gives: the new chain goes last. */
  lemma KeyedOnNewChain(s: State, their: PublicKey, counter: uint32, next: nat)
    requires s.rootKey.Some? && s.rootKey.value.kdf == KDF && s.senderChain.Some?
    requires s.senderChain.value.ratchetKeyPair.Some? && s.senderChain.value.chainKey.Some?
    requires FindChain(s.receiverChains, their).None? && counter < TWO32 - 1
    ensures counter > MAX_MESSAGE_KEYS ==> Keyed(s, their, counter, next) == Err(InvalidMessage)
    ensures counter <= MAX_MESSAGE_KEYS ==>
              && OpenChain(s, their, next).Ok?
              && Keyed(s, their, counter, next).Ok?
              && var s1 := OpenChain(s, their, next).value.0;
                 var (s2, keys) := Keyed(s, their, counter, next).value;
                 var n := |s1.receiverChains| - 1;
                 && keys == KeysAt(KDF, NewBase(s, their), counter)
                 && |s2.receiverChains| == |s1.receiverChains| > 0
                 && s2 == s1.(receiverChains := s1.receiverChains[n := s2.receiverChains[n]])
                 && s2.receiverChains[n].ratchetKey == their
                 && LiesOn(s2.receiverChains[n], NewBase(s, their))
                 && WindowOf(s2.receiverChains[n])
                    == Window(counter + 1, LastN([] + Range(0, counter), MAX_MESSAGE_KEYS))
  {
    hide Keyed, TakeKeys, LiesOn, KeysAt, FindChain;
    OpenedChainIsFound(s, their, next);
    var s1 := OpenChain(s, their, next).value.0;
    var n := |s1.receiverChains| - 1;
    var c := s1.receiverChains[n];
    assert c == ReceiverChain(their, ChainKey(KDF, NewBase(s, their), 0), []);
    KeyedFromOpened(s, their, counter, next, n);
    hide OpenChain;
    NewChainLiesOn(their, NewBase(s, their));
    TakeKeysRefines(c, NewBase(s, their), counter);
  }

  /** The state a first key from a new chain leaves behind. */
  lemma StateOnNewChain(s: State, their: PublicKey, counter: uint32, next: nat) returns (c: ReceiverChain)
    requires s.rootKey.Some? && s.rootKey.value.kdf == KDF && s.senderChain.Some?
    requires s.senderChain.value.ratchetKeyPair.Some? && s.senderChain.value.chainKey.Some?
    requires FindChain(s.receiverChains, their).None? && counter <= MAX_MESSAGE_KEYS
    ensures Keyed(s, their, counter, next).Ok?
    ensures var root := CreateChain(s.rootKey.value, their, s.senderChain.value.ratchetKeyPair.value.priv).0;
            var (root', chain') := CreateChain(root, their, PrivateKey(next));
            var index := s.senderChain.value.chainKey.value.index;
            Keyed(s, their, counter, next).value.0
            == s.(rootKey := Some(root'), previousCounter := if index == 0 then 0 else index - 1,
                  senderChain := Some(SenderChain(Some(PairOf(next)), Some(chain'))),
                  receiverChains := LastN(s.receiverChains + [c], MAX_RECEIVER_CHAINS))
    ensures c.ratchetKey == their && LiesOn(c, NewBase(s, their))
    ensures WindowOf(c) == Window(counter + 1, LastN([] + Range(0, counter), MAX_MESSAGE_KEYS))
  {
    hide TakeKeys, LiesOn, Keyed;
    KeyedOnNewChain(s, their, counter, next);
    var s1 := OpenChain(s, their, next).value.0;
    var s2 := Keyed(s, their, counter, next).value.0;
    c := s2.receiverChains[|s2.receiverChains| - 1];
    assert LastN(s.receiverChains + [c], MAX_RECEIVER_CHAINS) == s1.receiverChains[|s1.receiverChains| - 1 := c];
  }
}
