/**
 Over every run of a device, the counters emitted under each ratchet key are 0, 1, 2, ...
 without gap or repeat, and a message leaves only once the advanced chain is stored.
 */
module Sending {
  import opened Common
  import opened Crypto
  import opened Messages
  import opened SessionStates
  import opened SessionCiphers
  import opened SessionRecords
  import opened Replay
  import opened Devices
  import opened RecordHistory
  import opened DeviceRuns
  import opened AtMostOnce

  /** What tells emitted messages apart. */
  datatype Stamp = Stamp(key: PublicKey, counter: uint32)

  /** The stamps of the messages a run emits, in order. */
  function SentIn(d: Device, events: seq<Event>): seq<Stamp> {
    if events == [] then []
    else
      var (before, last) := (events[..|events| - 1], events[|events| - 1]);
      SentIn(d, before) + StampOf(Emitted(Run(d, before), last))
  }

  function StampOf(m: Option<Message>): seq<Stamp> {
    if m.Some? then [Stamp(m.value.ratchetKey, m.value.counter)] else []
  }

  /** How many messages went out under a key. */
  function Count(sent: seq<Stamp>, key: PublicKey): nat {
    if sent == [] then 0
    else Count(sent[..|sent| - 1], key) + if sent[|sent| - 1].key == key then 1 else 0
  }

  /** Every message carries the number of messages sent before it under its key. */
  predicate Gapless(sent: seq<Stamp>) {
    forall i :: 0 <= i < |sent| ==> sent[i].counter == Count(sent[..i], sent[i].key)
  }

  lemma CountOneMore(sent: seq<Stamp>, last: Stamp, key: PublicKey)
    ensures Count(sent + [last], key) == Count(sent, key) + if last.key == key then 1 else 0
  {
    assert (sent + [last])[..|sent|] == sent;
  }

  lemma {:induction false} CountOfNew(sent: seq<Stamp>, key: PublicKey)
    requires forall i :: 0 <= i < |sent| ==> sent[i].key != key
    ensures Count(sent, key) == 0
  {
    if sent != [] {
      CountOfNew(sent[..|sent| - 1], key);
    }
  }

  lemma GaplessOneMore(sent: seq<Stamp>, last: Stamp)
    requires Gapless(sent) && last.counter == Count(sent, last.key)
    ensures Gapless(sent + [last])
  {
    hide Count;
    var sent' := sent + [last];
    forall i | 0 <= i < |sent'|
      ensures sent'[i].counter == Count(sent'[..i], sent'[i].key)
    {
      if i < |sent| {
        assert sent'[..i] == sent[..i];
      } else {
        assert sent'[..i] == sent;
      }
    }
  }

  lemma {:induction false} CountGrows(sent: seq<Stamp>, i: nat, j: nat, key: PublicKey)
    requires i < j <= |sent|
    ensures Count(sent[..i], key) + (if sent[i].key == key then 1 else 0) <= Count(sent[..j], key)
    decreases j
  {
    assert sent[..j][..j - 1] == sent[..j - 1];
    if j > i + 1 {
      CountGrows(sent, i, j - 1, key);
    }
  }

  // ---- The sending chains of a record ----

  /** The ratchet key a session sends under. A responder's session sends under a key of its own only after it
      has accepted a message; before that it cannot become current. */
  function SendingKey(s: State): Option<PublicKey> {
    if s.receiverChains != [] && s.senderChain.Some? && s.senderChain.value.ratchetKeyPair.Some?
    then Some(s.senderChain.value.ratchetKeyPair.value.pub) else None
  }

  function NextCounter(s: State): nat {
    if s.senderChain.Some? && s.senderChain.value.chainKey.Some? then s.senderChain.value.chainKey.value.index else 0
  }

  /** The session's key has been generated, and its next counter is the number of messages sent under it. */
  predicate Stands(s: State, next: nat, sent: seq<Stamp>) {
    SendingKey(s).Some? ==> SendingKey(s).value.id < next && NextCounter(s) == Count(sent, SendingKey(s).value)
  }

  predicate Sends(states: seq<State>, next: nat, sent: seq<Stamp>) {
    && (forall i :: 0 <= i < |states| ==> Stands(states[i], next, sent))
    && forall i, j :: 0 <= i < j < |states| && SendingKey(states[i]).Some? ==>
         SendingKey(states[i]) != SendingKey(states[j])
  }

  function KeysOf(states: seq<State>): set<PublicKey> {
    set i | 0 <= i < |states| && SendingKey(states[i]).Some? :: SendingKey(states[i]).value
  }

  predicate AllBelow(sent: seq<Stamp>, next: nat) {
    forall i :: 0 <= i < |sent| ==> sent[i].key.id < next
  }

  /** A session that sends nothing yet, or whose key was generated between `next` and `next'`. */
  predicate StartsAnew(s: State, next: nat, next': nat) {
    SendingKey(s).Some? ==> next <= SendingKey(s).value.id < next' && NextCounter(s) == 0
  }

  lemma AnewStands(s: State, next: nat, next': nat, sent: seq<Stamp>)
    requires StartsAnew(s, next, next') && AllBelow(sent, next)
    ensures Stands(s, next', sent)
  {
    if SendingKey(s).Some? {
      CountOfNew(sent, SendingKey(s).value);
    }
  }

  /** Every key of `states'` was a key of `states` or is new. */
  predicate Inherits(states: seq<State>, states': seq<State>, next: nat) {
    forall k :: k in KeysOf(states') ==> k in KeysOf(states) || k.id >= next
  }

  lemma ReplacedSends(states: seq<State>, i: nat, s: State, states': seq<State>, next: nat, next': nat,
                      sent: seq<Stamp>)
    requires Sends(states, next, sent) && AllBelow(sent, next) && next <= next' && i < |states|
    requires states' == [s] + RemoveAt(states, i)
    requires || StartsAnew(s, next, next')
             || (SendingKey(s) == SendingKey(states[i]) && NextCounter(s) == NextCounter(states[i]))
    ensures Sends(states', next', sent) && Inherits(states, states', next)
  {
    hide SendingKey, NextCounter, Count, KeysOf;
    if StartsAnew(s, next, next') {
      AnewStands(s, next, next', sent);
    } else {
      assert Stands(states[i], next, sent);
    }
    assert Sends(states', next', sent);
    KeysReplaced(states, i, s, states', next);
  }

  lemma KeysReplaced(states: seq<State>, i: nat, s: State, states': seq<State>, next: nat)
    requires i < |states| && states' == [s] + RemoveAt(states, i)
    requires SendingKey(s).Some? ==> SendingKey(s).value.id >= next || SendingKey(s) == SendingKey(states[i])
    ensures Inherits(states, states', next)
  {
    hide SendingKey;
    forall k | k in KeysOf(states')
      ensures k in KeysOf(states) || k.id >= next
    {
      var j :| 0 <= j < |states'| && SendingKey(states'[j]) == Some(k);
      var q := if j == 0 then i else if j - 1 < i then j - 1 else j;
      assert j > 0 ==> states[q] == states'[j];
      assert SendingKey(states[q]) == Some(k) ==> k in KeysOf(states);
    }
  }

  lemma PrependedSends(states: seq<State>, s: State, states': seq<State>, next: nat, next': nat, sent: seq<Stamp>)
    requires Sends(states, next, sent) && AllBelow(sent, next) && next <= next'
    requires 1 <= |states'| <= |states| + 1 && states' == [s] + states[..|states'| - 1]
    requires StartsAnew(s, next, next')
    ensures Sends(states', next', sent) && Inherits(states, states', next)
  {
    hide SendingKey, NextCounter, Count;
    AnewStands(s, next, next', sent);
    forall j | 0 < j < |states'|
      ensures states'[j] == states[j - 1] && Stands(states[j - 1], next, sent)
    {
    }
    assert Sends(states', next', sent);
    forall k | k in KeysOf(states')
      ensures k in KeysOf(states) || k.id >= next
    {
      var j :| 0 <= j < |states'| && SendingKey(states'[j]) == Some(k);
      if j > 0 {
        assert SendingKey(states[j - 1]) == Some(k);
      }
    }
  }

  // ---- The sending chains of a device ----

  /** What every step keeps: no two sessions of the device send under the same key. */
  ghost predicate Orderly(d: Device, sent: seq<Stamp>) {
    && (forall a :: a in d.sessions ==> Sends(d.sessions[a].States(), d.next, sent))
    && (forall a, b :: a in d.sessions && b in d.sessions && a != b ==>
          KeysOf(d.sessions[a].States()) !! KeysOf(d.sessions[b].States()))
    && AllBelow(sent, d.next) && Gapless(sent)
  }

  lemma SendsLater(states: seq<State>, next: nat, next': nat, sent: seq<Stamp>)
    requires Sends(states, next, sent) && next <= next'
    ensures Sends(states, next', sent)
  {
    hide SendingKey, NextCounter, Count;
  }

  lemma KeysBelow(states: seq<State>, next: nat, sent: seq<Stamp>)
    requires Sends(states, next, sent)
    ensures forall k :: k in KeysOf(states) ==> k.id < next
  {
    hide SendingKey, NextCounter, Count;
    forall k | k in KeysOf(states)
      ensures k.id < next
    {
      var i :| 0 <= i < |states| && SendingKey(states[i]) == Some(k);
      assert Stands(states[i], next, sent);
    }
  }

  /** A step that emits nothing and changes one record at most. */
  lemma OrderlyAfterChange(d: Device, d': Device, a: Address, sent: seq<Stamp>)
    requires Orderly(d, sent) && OnlyAt(d, d', a)
    requires Sends(StatesAt(d', a), d'.next, sent) && Inherits(StatesAt(d, a), StatesAt(d', a), d.next)
    ensures Orderly(d', sent)
  {
    hide Sends, KeysOf, Gapless;
    forall b | b in d'.sessions
      ensures Sends(d'.sessions[b].States(), d'.next, sent)
    {
      if b != a {
        SendsLater(d.sessions[b].States(), d.next, d'.next, sent);
      }
    }
    forall b | b in d'.sessions && b != a && a in d'.sessions
      ensures KeysOf(d'.sessions[a].States()) !! KeysOf(d'.sessions[b].States())
    {
      KeysBelow(d.sessions[b].States(), d.next, sent);
      NoKeys();
      assert a in d.sessions ==> KeysOf(d.sessions[a].States()) !! KeysOf(d.sessions[b].States());
    }
    assert AllBelow(sent, d'.next);
  }

  lemma NoKeys()
    ensures KeysOf([]) == {}
  {
  }

  lemma NoSessionChanged(d: Device, d': Device, sent: seq<Stamp>)
    requires Orderly(d, sent) && d'.sessions == d.sessions && d'.next >= d.next
    ensures Orderly(d', sent)
  {
    hide Sends, KeysOf, Gapless;
    forall b | b in d'.sessions
      ensures Sends(d'.sessions[b].States(), d'.next, sent)
    {
      SendsLater(d.sessions[b].States(), d.next, d'.next, sent);
    }
    assert AllBelow(sent, d'.next);
  }

  // ---- Receiving ----

  lemma SenderAfterAccept(s: State, m: Message, next: nat)
    requires Sound(s) && m.counter < TWO32 - 1 && Decrypted(s, m, next).Ok?
    ensures var s' := Decrypted(s, m, next).value.0;
            || StartsAnew(s', next, next + DrawnByDecrypt(s, m))
            || (SendingKey(s') == SendingKey(s) && NextCounter(s') == NextCounter(s))
  {
    hide Keyed, Sound, Spent;
    assert Spent(s, {}) by {
      SoundIsEquipped(s);
      NothingIsSpent(s);
    }
    if FindChain(s.receiverChains, m.ratchetKey).Some? {
      AcceptedOnHeldChain(s, m, next, {});
    } else {
      AcceptedOnNewChain(s, m, next, {});
      assert Equipped(s) by {
        SoundIsEquipped(s);
      }
    }
  }

  lemma NothingIsSpent(s: State)
    requires Equipped(s)
    ensures Spent(s, {})
  {
  }

  /** Accepting a message: the session that accepts keeps its sending chain or starts a new one. */
  lemma AcceptKeepsSends(r: Record, me: nat, macs: set<Secret>, m: Message, next: nat, sent: seq<Stamp>)
    requires IntactRecord(r, me, macs) && m.counter < TWO32 - 1 && DecryptedFromRecord(r, m, next).result.Ok?
    requires Sends(r.States(), next, sent) && AllBelow(sent, next)
    ensures var t := DecryptedFromRecord(r, m, next);
            Sends(t.record.States(), t.next, sent) && Inherits(r.States(), t.record.States(), next)
  {
    hide Decrypted, DecryptedFromRecord, SendingKey, NextCounter, Count, Sends, KeysOf, Inherits, Sound, Rooted,
        Spent, DrawnByDecrypt;
    var t := DecryptedFromRecord(r, m, next);
    var i, drawn := AcceptedByOneState(r, m, next);
    assert Intact(r.States()[i], me, macs);
    SenderAfterAccept(r.States()[i], m, drawn);
    AnewEarlier(t.record.state, next, drawn, t.next);
    ReplacedSends(r.States(), i, t.record.state, t.record.States(), next, t.next, sent);
  }

  lemma AnewEarlier(s: State, next: nat, drawn: nat, next': nat)
    requires next <= drawn
    ensures StartsAnew(s, drawn, next') ==> StartsAnew(s, next, next')
  {
  }

  lemma ReceiveKeepsOrder(d: Device, heard: Heard, e: Event, sent: seq<Stamp>)
    requires Safe(d, heard) && Orderly(d, sent) && Allowed(d, e) && e.Receive?
    ensures Orderly(Step(d, e), sent)
  {
    ReceiveStores(d, e);
    assert e.message.counter < TWO32 - 1;
    hide IntactRecord, DecryptedFromRecord, SafeAt, Remembered, Sends, Inherits, Gapless, Step, AcceptedKey, Allowed,
        KeysOf;
    if Step(d, e).sessions == d.sessions {
      NoSessionChanged(d, Step(d, e), sent);
    } else {
      var r := Load(d, e.a);
      LoadedIsIntact(d, heard, e.a);
      assert r.States() == StatesAt(d, e.a);
      AcceptKeepsSends(r, Me(d), HeardAt(heard, e.a), e.message, d.next, sent);
      assert StatesAt(Step(d, e), e.a) == DecryptedFromRecord(r, e.message, d.next).record.States();
      OrderlyAfterChange(d, Step(d, e), e.a, sent);
    }
  }

  /** The new session of a responder sends nothing yet. */
  lemma AnsweredKeepsSends(d: Device, heard: Heard, a: Address, p: PreKeyMessage, loads: LoadFaults, sent: seq<Stamp>)
    requires Safe(d, heard) && Orderly(d, sent) && Answered(d, Load(d, a), p, loads).Ok?
    ensures var r := Answered(d, Load(d, a), p, loads).value.0;
            Sends(r.States(), d.next, sent) && Inherits(StatesAt(d, a), r.States(), d.next)
  {
    hide Sends, Inherits, AnsweringState, SafeAt, Gapless, KeysOf, HasSession;
    var r := Load(d, a);
    assert a in d.sessions ==> r.States() == StatesAt(d, a);
    if HasSession(r, p.version, p.baseKey) {
      NothingInFresh(p.version, p.baseKey);
      InheritsItself(r.States(), d.next);
    } else {
      var (oneTime, cleared) := (if p.preKeyId.Some? then Some(d.preKeys[p.preKeyId.value]) else None, Cleared(r));
      var s := AnsweringState(d, cleared.state, p, d.signedPreKeys[p.signedPreKeyId], oneTime);
      AnsweringStateIsSound(d, cleared.state, p, d.signedPreKeys[p.signedPreKeyId], oneTime);
      NoneSends(d.next, sent);
      PrependedSends(StatesAt(d, a), s, cleared.(state := s).States(), d.next, d.next, sent);
    }
  }

  lemma NoneSends(next: nat, sent: seq<Stamp>)
    ensures Sends([], next, sent)
  {
  }

  lemma NothingInFresh(version: nat, baseKey: PublicKey)
    ensures !HasSession(FRESH, version, baseKey)
  {
  }

  lemma InheritsItself(states: seq<State>, next: nat)
    ensures Inherits(states, states, next)
  {
  }

  lemma InheritsThrough(states: seq<State>, middle: seq<State>, states': seq<State>, next: nat)
    requires Inherits(states, middle, next) && Inherits(middle, states', next)
    ensures Inherits(states, states', next)
  {
  }

  lemma PreKeyMessageKeepsOrder(d: Device, heard: Heard, e: Event, sent: seq<Stamp>)
    requires Safe(d, heard) && Orderly(d, sent) && Allowed(d, e) && e.ReceivePreKey?
    ensures Orderly(Step(d, e), sent)
  {
    ReceiveStores(d, e);
    assert Parsed(e.p) && e.p.message.counter < TWO32 - 1 && e.p.baseKey.id < d.next;
    hide IntactRecord, DecryptedFromRecord, SafeAt, Remembered, Sends, Inherits, Answered, Gapless, Step,
        AcceptedKey, Allowed, KeysOf;
    if Step(d, e).sessions == d.sessions {
      NoSessionChanged(d, Step(d, e), sent);
    } else {
      var r := Answered(d, Load(d, e.a), e.p, e.f.loads).value.0;
      AnsweredIsIntact(d, heard, e.a, e.p, e.f.loads);
      AnsweredKeepsSends(d, heard, e.a, e.p, e.f.loads, sent);
      AcceptKeepsSends(r, Me(d), Remembered(HeardAt(heard, e.a), r.States()), e.p.message, d.next, sent);
      assert StatesAt(Step(d, e), e.a) == DecryptedFromRecord(r, e.p.message, d.next).record.States();
      InheritsThrough(StatesAt(d, e.a), r.States(), StatesAt(Step(d, e), e.a), d.next);
      OrderlyAfterChange(d, Step(d, e), e.a, sent);
    }
  }

  lemma BundleKeepsOrder(d: Device, heard: Heard, e: Event, sent: seq<Stamp>)
    requires Safe(d, heard) && Orderly(d, sent) && Allowed(d, e) && e.ProcessBundle?
    ensures Orderly(Step(d, e), sent)
  {
    hide SafeAt, Sends, Inherits, Gapless, OpeningState;
    var d' := Step(d, e);
    if d'.sessions == d.sessions {
      NoSessionChanged(d, d', sent);
    } else {
      var cleared := Cleared(Load(d, e.a));
      BundleStores(d, e);
      BundleOnlyAt(d, e);
      assert e.b.identityKey.id < d.next;
      hide Step, BundleProcessed, Sound, Rooted, KeysOf, Allowed;
      OpeningStateIsSound(d, cleared.state, e.b);
      NoneSends(d.next, sent);
      OpenedSends(d, e.a, OpeningState(d, cleared.state, e.b), d', sent);
      OrderlyAfterChange(d, d', e.a, sent);
    }
  }

  lemma OpenedSends(d: Device, a: Address, s: State, d': Device, sent: seq<Stamp>)
    requires Sends(StatesAt(d, a), d.next, sent) && AllBelow(sent, d.next) && d'.next == d.next + 2
    requires s.senderChain.Some? && s.senderChain.value.ratchetKeyPair == Some(PairOf(d.next + 1))
    requires s.senderChain.value.chainKey.Some? && s.senderChain.value.chainKey.value.index == 0
    requires a in d'.sessions && d'.sessions[a] == Cleared(Load(d, a)).(state := s, isFresh := false)
    ensures Sends(StatesAt(d', a), d'.next, sent) && Inherits(StatesAt(d, a), StatesAt(d', a), d.next)
  {
    hide Sends, Inherits;
    PrependedSends(StatesAt(d, a), s, StatesAt(d', a), d.next, d'.next, sent);
  }

  // ---- Emitting ----

  /** An emitted message carries the current session's key and next counter, and is stored as sent. */
  lemma EmittedAfterStore(d: Device, heard: Heard, e: Event)
    requires Safe(d, heard) && Allowed(d, e) && Emitted(d, e).Some?
    ensures var (m, d') := (Emitted(d, e).value, Step(d, e));
            && e.a in d.sessions && e.a in d'.sessions && OnlyAt(d, d', e.a) && d'.next == d.next
            && SendingKey(d.sessions[e.a].state) == SendingKey(d'.sessions[e.a].state) == Some(m.ratchetKey)
            && m.counter == NextCounter(d.sessions[e.a].state) && NextCounter(d'.sessions[e.a].state) == m.counter + 1
            && d'.sessions[e.a].previous == d.sessions[e.a].previous
  {
    hide IntactRecord, BasesBelow;
    assert SafeAt(d, heard, e.a);
    NothingToSend(e.text);
  }

  lemma EncryptKeepsOrder(d: Device, heard: Heard, e: Event, sent: seq<Stamp>)
    requires Safe(d, heard) && Orderly(d, sent) && Allowed(d, e) && e.Encrypt?
    ensures Orderly(Step(d, e), sent + StampOf(Emitted(d, e)))
  {
    var d' := Step(d, e);
    if Emitted(d, e).None? {
      assert d' == d && sent + [] == sent;
    } else {
      hide Safe, Sends, KeysOf, Gapless, Emitted, Step;
      EmittedAfterStore(d, heard, e);
      OrderlyAfterEmission(d, d', e.a, sent, Emitted(d, e).value.ratchetKey, Emitted(d, e).value.counter);
    }
  }

  lemma OrderlyAfterEmission(d: Device, d': Device, a: Address, sent: seq<Stamp>, key: PublicKey, counter: uint32)
    requires Orderly(d, sent) && OnlyAt(d, d', a) && d'.next == d.next && a in d.sessions && a in d'.sessions
    requires SendingKey(d.sessions[a].state) == SendingKey(d'.sessions[a].state) == Some(key)
    requires counter == NextCounter(d.sessions[a].state) && NextCounter(d'.sessions[a].state) == counter + 1
    requires d'.sessions[a].previous == d.sessions[a].previous
    ensures Orderly(d', sent + [Stamp(key, counter)])
  {
    hide SendingKey, NextCounter, Count, KeysOf, Gapless;
    var sent' := sent + [Stamp(key, counter)];
    var (states, states') := (d.sessions[a].States(), d'.sessions[a].States());
    assert Stands(states[0], d.next, sent);
    GaplessOneMore(sent, Stamp(key, counter));
    SentSends(states, states', d.next, sent, key, counter);
    forall b | b in d'.sessions
      ensures Sends(d'.sessions[b].States(), d'.next, sent')
              && KeysOf(d'.sessions[b].States()) == KeysOf(d.sessions[b].States())
    {
      if b != a {
        KeyIsHeld(states, 0);
        assert KeysOf(states) !! KeysOf(d.sessions[b].States());
        OtherSends(d.sessions[b].States(), d.next, sent, key, counter);
      }
    }
    assert AllBelow(sent', d'.next);
  }

  lemma KeyIsHeld(states: seq<State>, i: nat)
    requires i < |states| && SendingKey(states[i]).Some?
    ensures SendingKey(states[i]).value in KeysOf(states)
  {
  }

  /** Where a key is not held, sending under it changes nothing. */
  lemma OtherSends(states: seq<State>, next: nat, sent: seq<Stamp>, key: PublicKey, counter: uint32)
    requires Sends(states, next, sent) && key !in KeysOf(states)
    ensures Sends(states, next, sent + [Stamp(key, counter)])
  {
    hide SendingKey, NextCounter, Count;
    forall i | 0 <= i < |states|
      ensures Stands(states[i], next, sent + [Stamp(key, counter)])
    {
      assert Stands(states[i], next, sent);
      if SendingKey(states[i]).Some? {
        CountOneMore(sent, Stamp(key, counter), SendingKey(states[i]).value);
        KeyIsHeld(states, i);
      }
    }
  }

  lemma SentSends(states: seq<State>, states': seq<State>, next: nat, sent: seq<Stamp>, key: PublicKey, counter: uint32)
    requires Sends(states, next, sent) && |states'| == |states| > 0 && states'[1..] == states[1..]
    requires SendingKey(states[0]) == SendingKey(states'[0]) == Some(key)
    requires counter == NextCounter(states[0]) && NextCounter(states'[0]) == counter + 1
    ensures Sends(states', next, sent + [Stamp(key, counter)]) && KeysOf(states') == KeysOf(states)
  {
    hide SendingKey, NextCounter, Count, KeysOf;
    forall i | 0 <= i < |states'|
      ensures Stands(states'[i], next, sent + [Stamp(key, counter)]) && SendingKey(states'[i]) == SendingKey(states[i])
    {
      assert Stands(states[i], next, sent) && (i > 0 ==> states'[i] == states'[1..][i - 1] == states[i]);
      if SendingKey(states[i]).Some? {
        CountOneMore(sent, Stamp(key, counter), SendingKey(states[i]).value);
      }
    }
    SameKeys(states, states');
  }

  lemma SameKeys(states: seq<State>, states': seq<State>)
    requires |states'| == |states| && forall i :: 0 <= i < |states| ==> SendingKey(states'[i]) == SendingKey(states[i])
    ensures KeysOf(states') == KeysOf(states)
  {
  }

  // ---- Every run ----

  lemma StepKeepsOrder(d: Device, heard: Heard, e: Event, sent: seq<Stamp>)
    requires Safe(d, heard) && Orderly(d, sent) && Allowed(d, e)
    ensures Orderly(Step(d, e), sent + StampOf(Emitted(d, e)))
  {
    hide Safe, MessageEncrypted, SignalMessageDecrypted, PreKeyMessageDecrypted, BundleProcessed, Sends, Gapless,
        KeysOf, Inherits;
    assert !e.Encrypt? ==> sent + StampOf(Emitted(d, e)) == sent;
    match e {
      case Encrypt(_, _, _) => EncryptKeepsOrder(d, heard, e, sent);
      case Receive(_, _, _) => ReceiveKeepsOrder(d, heard, e, sent);
      case ReceivePreKey(_, _, _) => PreKeyMessageKeepsOrder(d, heard, e, sent);
      case ProcessBundle(_, _, _) => BundleKeepsOrder(d, heard, e, sent);
      case DeleteSession(a) =>
        NoneSends(d.next, sent);
        NoKeys();
        NoKeyInherited(StatesAt(d, a), d.next);
        OrderlyAfterChange(d, Step(d, e), a, sent);
      case _ => NoSessionChanged(d, Step(d, e), sent);
    }
  }

  lemma NoKeyInherited(states: seq<State>, next: nat)
    ensures Inherits(states, [], next)
  {
    NoKeys();
  }

  lemma {:induction false} RunKeepsOrder(d: Device, events: seq<Event>)
    requires Installed(d) && AllowedRun(d, events)
    ensures Orderly(Run(d, events), SentIn(d, events))
  {
    hide Step, Allowed, Safe, Emitted, HeardIn;
    if events != [] {
      var (before, last) := (events[..|events| - 1], events[|events| - 1]);
      PrefixIsAllowed(d, events, |events| - 1);
      RunKeepsOrder(d, before);
      RunKeepsSafe(d, before);
      StepKeepsOrder(Run(d, before), HeardIn(d, before), last, SentIn(d, before));
    }
  }

  /** Sending uniqueness: under every ratchet key a run emits the counters 0, 1, 2, ... in order, so no ratchet
      key and counter are emitted twice. */
  lemma SentInOrder(d: Device, events: seq<Event>)
    requires Installed(d) && AllowedRun(d, events)
    ensures var sent := SentIn(d, events);
            && Gapless(sent)
            && forall i, j :: 0 <= i < j < |sent| && sent[i].key == sent[j].key ==> sent[i].counter < sent[j].counter
  {
    hide Count, SentIn, AllowedRun;
    RunKeepsOrder(d, events);
    var sent := SentIn(d, events);
    forall i, j | 0 <= i < j < |sent| && sent[i].key == sent[j].key
      ensures sent[i].counter < sent[j].counter
    {
      CountGrows(sent, i, j, sent[j].key);
    }
  }
}
