/**
 The previous counter in a message's header: over every run of a device it is the counter of the
 last message the session sent under its preceding sending key, or 0 if it sent none.
 */
module PreviousCounters {
  import opened Common
  import opened Crypto
  import opened Messages
  import opened SessionStates
  import opened SessionCiphers
  import opened SessionRecords
  import opened Replay
  import opened Devices
  import opened RecordHistory
  import opened DeviceRuns
  import opened AtMostOnce
  import opened Sending
  import Lifetimes

  // ---- What is to be carried ----

  /** For every sending key, the key its session sent under before. */
  type Preceding = map<PublicKey, Option<PublicKey>>

  /** Where a record has the session with a base key. */
  function SessionAt(states: seq<State>, base: Option<PublicKey>): (r: Option<nat>)
    ensures r.Some? ==> r.value < |states| && states[r.value].aliceBaseKey == base
    ensures r.None? ==> forall i :: 0 <= i < |states| ==> states[i].aliceBaseKey != base
  {
    if states == [] then None
    else if states[|states| - 1].aliceBaseKey == base then Some(|states| - 1)
    else SessionAt(states[..|states| - 1], base)
  }

  /** The key the session with this base key sends under. */
  function KeyOfSession(states: seq<State>, base: Option<PublicKey>): Option<PublicKey> {
    match SessionAt(states, base)
    case Some(i) => SendingKey(states[i])
    case None => None
  }

  /** After a step, a new sending key of the current session is preceded by the key that session had before. */
  function PrecedingAfter(d: Device, prec: Preceding, e: Event): Preceding {
    var d' := Step(d, e);
    if !(e.Receive? || e.ReceivePreKey? || e.ProcessBundle?) || e.a !in d'.sessions then prec
    else
      var s := d'.sessions[e.a].state;
      if SendingKey(s).None? || SendingKey(s).value in prec then prec
      else prec[SendingKey(s).value := KeyOfSession(StatesAt(d, e.a), s.aliceBaseKey)]
  }

  function PrecedingIn(d: Device, events: seq<Event>): Preceding {
    if events == [] then map[]
    else
      var (before, last) := (events[..|events| - 1], events[|events| - 1]);
      PrecedingAfter(Run(d, before), PrecedingIn(d, before), last)
  }

  /** The counter of the last message sent under a key, or 0. */
  function LastCounter(sent: seq<Stamp>, key: Option<PublicKey>): nat {
    if sent == [] || key.None? then 0
    else if sent[|sent| - 1].key == key.value then sent[|sent| - 1].counter
    else LastCounter(sent[..|sent| - 1], key)
  }

  lemma {:induction false} LastCounterIsCount(sent: seq<Stamp>, key: PublicKey)
    requires Gapless(sent)
    ensures LastCounter(sent, Some(key)) == if Count(sent, key) == 0 then 0 else Count(sent, key) - 1
  {
    if sent != [] {
      var before := sent[..|sent| - 1];
      forall i | 0 <= i < |before|
        ensures before[i].counter == Count(before[..i], before[i].key)
      {
        assert before[..i] == sent[..i];
      }
      LastCounterIsCount(before, key);
    }
  }

  lemma LastCounterOneMore(sent: seq<Stamp>, last: Stamp, key: Option<PublicKey>)
    requires key != Some(last.key)
    ensures LastCounter(sent + [last], key) == LastCounter(sent, key)
  {
    assert (sent + [last])[..|sent|] == sent;
  }

  // ---- Sessions ----

  /** A session carries the last counter under its preceding key; one that sends nothing yet is at its start. */
  predicate Numbered(s: State, sent: seq<Stamp>, prec: Preceding) {
    match SendingKey(s)
    case None => NextCounter(s) == 0
    case Some(k) => k in prec && s.previousCounter == LastCounter(sent, prec[k])
  }

  predicate AllNumbered(states: seq<State>, sent: seq<Stamp>, prec: Preceding) {
    forall i :: 0 <= i < |states| ==> Numbered(states[i], sent, prec)
  }

  /** Accepting a message keeps the sending chain and the previous counter, or starts a chain under a new key; then the
      previous counter is the last one of the old chain. */
  lemma PreviousAfterAccept(s: State, m: Message, next: nat)
    requires Sound(s) && m.counter < TWO32 - 1 && Decrypted(s, m, next).Ok?
    ensures var s' := Decrypted(s, m, next).value.0;
            if FindChain(s.receiverChains, m.ratchetKey).Some? then
              && SendingKey(s') == SendingKey(s) && NextCounter(s') == NextCounter(s)
              && s'.previousCounter == s.previousCounter
            else
              && SendingKey(s') == Some(PublicKey(next)) && NextCounter(s') == 0
              && s'.previousCounter == if NextCounter(s) == 0 then 0 else NextCounter(s) - 1
  {
    hide Sound, Spent, TakeKeys, WithChain, MacVerifies, DecryptBody;
    assert Spent(s, {}) by {
      SoundIsEquipped(s);
      NothingIsSpent(s);
    }
    SoundIsEquipped(s);
    if FindChain(s.receiverChains, m.ratchetKey).Some? {
      AcceptedOnHeldChain(s, m, next, {});
    } else {
      AcceptedOnNewChain(s, m, next, {});
    }
  }

  // ---- Devices ----

  /** A key no session sends under any more. */
  ghost predicate Retired(d: Device, k: PublicKey) {
    k.id < d.next && forall a :: a in d.sessions ==> k !in KeysOf(d.sessions[a].States())
  }

  ghost predicate Carried(d: Device, sent: seq<Stamp>, prec: Preceding) {
    && (forall a :: a in d.sessions ==> AllNumbered(d.sessions[a].States(), sent, prec))
    && (forall k :: k in prec ==> k.id < d.next)
    && forall k :: k in prec && prec[k].Some? ==> Retired(d, prec[k].value)
  }

  /** The steps that neither send nor start a sending chain. */
  lemma CarriedOn(d: Device, d': Device, sent: seq<Stamp>, prec: Preceding, a: Address)
    requires Carried(d, sent, prec) && OnlyAt(d, d', a)
    requires AllNumbered(StatesAt(d', a), sent, prec) && KeysOf(StatesAt(d', a)) <= KeysOf(StatesAt(d, a))
    ensures Carried(d', sent, prec)
  {
    hide AllNumbered, KeysOf;
    NoKeys();
    forall b | b in d'.sessions
      ensures AllNumbered(d'.sessions[b].States(), sent, prec)
      ensures KeysOf(d'.sessions[b].States()) <= KeysOf(StatesAt(d, b))
    {
    }
  }

  /** A new sending key joins the others, and the one before it retires. */
  lemma CarriedAnew(d: Device, d': Device, sent: seq<Stamp>, prec: Preceding, a: Address, k: PublicKey,
                    before: Option<PublicKey>)
    requires Carried(d, sent, prec) && OnlyAt(d, d', a) && d.next <= k.id < d'.next
    requires AllNumbered(StatesAt(d', a), sent, prec[k := before])
    requires KeysOf(StatesAt(d', a)) <= KeysOf(StatesAt(d, a)) + {k}
    requires before.Some? ==> Retired(d', before.value)
    ensures Carried(d', sent, prec[k := before])
  {
    hide KeysOf;
    NoKeys();
    var prec' := prec[k := before];
    forall b | b in d'.sessions
      ensures AllNumbered(d'.sessions[b].States(), sent, prec')
    {
      if b != a {
        StillNumbered(d.sessions[b].States(), sent, prec, k, before);
      }
    }
    forall k1 | k1 in prec' && prec'[k1].Some?
      ensures Retired(d', prec'[k1].value)
    {
      if k1 != k {
        assert Retired(d, prec[k1].value);
      }
    }
  }

  lemma StillNumbered(states: seq<State>, sent: seq<Stamp>, prec: Preceding, k: PublicKey, before: Option<PublicKey>)
    requires AllNumbered(states, sent, prec) && k !in prec
    ensures AllNumbered(states, sent, prec[k := before])
  {
    hide SendingKey, NextCounter, LastCounter;
  }

  // ---- Receiving ----

  lemma KeyOfSessionIs(states: seq<State>, i: nat)
    requires i < |states| && forall j, q :: 0 <= j < q < |states| ==> states[j].aliceBaseKey != states[q].aliceBaseKey
    ensures KeyOfSession(states, states[i].aliceBaseKey) == SendingKey(states[i])
  {
    hide SendingKey;
    var at := SessionAt(states, states[i].aliceBaseKey);
    assert at == Some(i);
  }

  /** What an accepting record does to the sending keys: nothing, or the accepting session `t` moves on to a new key. */
  predicate MovesOn(states: seq<State>, i: nat, states': seq<State>, next: nat, next': nat, sent: seq<Stamp>,
                    prec: Preceding)
  {
    && i < |states| && states' != []
    && states'[0].aliceBaseKey == states[i].aliceBaseKey && SendingKey(states'[0]).Some?
    && var (k, before) := (SendingKey(states'[0]).value, SendingKey(states[i]));
       if k in prec then
         AllNumbered(states', sent, prec) && KeysOf(states') <= KeysOf(states)
       else
         && next <= k.id < next' && AllNumbered(states', sent, prec[k := before])
         && KeysOf(states') <= KeysOf(states) + {k} && (before.Some? ==> before.value !in KeysOf(states'))
  }

  lemma RecordMovesOn(r: Record, me: nat, macs: set<Secret>, m: Message, next: nat, sent: seq<Stamp>, prec: Preceding)
    returns (i: nat)
    requires IntactRecord(r, me, macs) && m.counter < TWO32 - 1 && DecryptedFromRecord(r, m, next).result.Ok?
    requires Sends(r.States(), next, sent) && Gapless(sent) && AllNumbered(r.States(), sent, prec)
    requires forall k :: k in prec ==> k.id < next
    ensures var t := DecryptedFromRecord(r, m, next);
            MovesOn(r.States(), i, t.record.States(), next, t.next, sent, prec)
  {
    hide Decrypted, DecryptedFromRecord, Sends, Gapless, Numbered, SendingKey, NextCounter, DrawnByDecrypt, MovesOn;
    hide Sound;
    var t := DecryptedFromRecord(r, m, next);
    var drawn;
    i, drawn := AcceptedByOneState(r, m, next);
    Lifetimes.BoundedAndSound(r, me, macs);
    var s := r.States()[i];
    PreviousAfterAccept(s, m, drawn);
    AcceptKeepsBase(r, me, macs, i, m, drawn);
    assert FindChain(s.receiverChains, m.ratchetKey).None? ==> DrawnByDecrypt(s, m) == 1 by {
      SoundIsEquipped(s);
      Drawn(s, m, drawn);
    }
    ReplacedMovesOn(r.States(), i, t.record.States(), next, drawn, t.next, sent, prec,
                    FindChain(s.receiverChains, m.ratchetKey).Some?);
  }

  lemma Drawn(s: State, m: Message, next: nat)
    requires Equipped(s) && Decrypted(s, m, next).Ok?
    ensures FindChain(s.receiverChains, m.ratchetKey).None? ==> DrawnByDecrypt(s, m) == 1
  {
    hide Keyed, MacVerifies, DecryptBody;
  }

  lemma AcceptKeepsBase(r: Record, me: nat, macs: set<Secret>, i: nat, m: Message, next: nat)
    requires IntactRecord(r, me, macs) && i < |r.States()| && m.counter < TWO32 - 1
    requires Decrypted(r.States()[i], m, next).Ok?
    ensures var s' := Decrypted(r.States()[i], m, next).value.0;
            s'.aliceBaseKey == r.States()[i].aliceBaseKey && s'.receiverChains != [] && r.States()[i].senderChain.Some?
    ensures r.States()[i].receiverChains == [] ==> SendingKey(r.States()[i]).None?
    ensures r.States()[i].receiverChains != [] ==> SendingKey(r.States()[i]).Some?
  {
    hide Decrypted, Spent, Rooted, SoundChains;
    assert Intact(r.States()[i], me, macs);
    AcceptKeepsState(r.States()[i], me, macs, m, next);
  }

  lemma ReplacedMovesOn(states: seq<State>, i: nat, states': seq<State>, next: nat, drawn: nat, next': nat,
                        sent: seq<Stamp>, prec: Preceding, held: bool)
    requires i < |states| && |states'| == |states| && states'[1..] == RemoveAt(states, i)
    requires Sends(states, next, sent) && Gapless(sent) && AllNumbered(states, sent, prec)
    requires (forall k :: k in prec ==> k.id < next) && next <= drawn && (!held ==> drawn < next')
    requires states'[0].aliceBaseKey == states[i].aliceBaseKey
    requires held ==> SendingKey(states[i]).Some?
    requires if held then
               && SendingKey(states'[0]) == SendingKey(states[i]) && NextCounter(states'[0]) == NextCounter(states[i])
               && states'[0].previousCounter == states[i].previousCounter
             else
               && SendingKey(states'[0]) == Some(PublicKey(drawn)) && NextCounter(states'[0]) == 0
               && states'[0].previousCounter == if NextCounter(states[i]) == 0 then 0 else NextCounter(states[i]) - 1
    ensures MovesOn(states, i, states', next, next', sent, prec)
  {
    hide SendingKey, NextCounter, Gapless, KeysOf, LastCounter, Count;
    assert Numbered(states[i], sent, prec) && Stands(states[i], next, sent);
    var (k, before) := (SendingKey(states'[0]).value, SendingKey(states[i]));
    forall j | 0 < j < |states'|
      ensures states'[j] == states[if j - 1 < i then j - 1 else j]
    {
      assert states'[j] == states'[1..][j - 1];
    }
    KeysAfterMove(states, i, states', k);
    if held {
      assert AllNumbered(states', sent, prec);
      KeyIsHeld(states, i);
    } else {
      if before.Some? {
        LastCounterIsCount(sent, before.value);
      } else {
        NoLastCounter(sent);
      }
      KeyRetires(states, i, states', next, sent, k);
    }
  }

  lemma NoLastCounter(sent: seq<Stamp>)
    ensures LastCounter(sent, None) == 0
  {
  }

  lemma KeysAfterMove(states: seq<State>, i: nat, states': seq<State>, k: PublicKey)
    requires i < |states| && |states'| == |states| && SendingKey(states'[0]) == Some(k)
    requires forall j :: 0 < j < |states'| ==> states'[j] == states[if j - 1 < i then j - 1 else j]
    ensures KeysOf(states') <= KeysOf(states) + {k}
  {
    hide SendingKey;
    forall x | x in KeysOf(states')
      ensures x in KeysOf(states) + {k}
    {
      var j :| 0 <= j < |states'| && SendingKey(states'[j]) == Some(x);
      if j > 0 {
        assert SendingKey(states[if j - 1 < i then j - 1 else j]) == Some(x);
      }
    }
  }

  lemma KeyRetires(states: seq<State>, i: nat, states': seq<State>, next: nat, sent: seq<Stamp>, k: PublicKey)
    requires i < |states| && |states'| == |states| && Sends(states, next, sent) && SendingKey(states'[0]) == Some(k)
    requires k.id >= next
    requires forall j :: 0 < j < |states'| ==> states'[j] == states[if j - 1 < i then j - 1 else j]
    ensures SendingKey(states[i]).Some? ==> SendingKey(states[i]).value !in KeysOf(states')
  {
    hide SendingKey, NextCounter, Count;
  }

  /** The record a message is read with. */
  lemma ReadIsNumbered(d: Device, heard: Heard, e: Event, sent: seq<Stamp>, prec: Preceding)
    requires Safe(d, heard) && Orderly(d, sent) && Carried(d, sent, prec) && Allowed(d, e)
    requires (e.Receive? || e.ReceivePreKey?) && ReadWith(d, e).Some?
    ensures var (r, m) := ReadWith(d, e).value;
            && IntactRecord(r, Me(d), Remembered(HeardAt(heard, e.a), r.States())) && m.counter < TWO32 - 1
            && Sends(r.States(), d.next, sent) && AllNumbered(r.States(), sent, prec)
            && KeysOf(r.States()) <= KeysOf(StatesAt(d, e.a))
  {
    hide IntactRecord, Remembered, SafeAt, Answered, Sends, Gapless, KeysOf, Numbered, Inherits, HasSession;
    var a := e.a;
    assert a in d.sessions ==> Load(d, a).States() == StatesAt(d, a);
    if e.Receive? {
      LoadedIsIntact(d, heard, a);
    } else {
      AnsweredIsIntact(d, heard, a, e.p, e.f.loads);
      AnsweredKeepsSends(d, heard, a, e.p, e.f.loads, sent);
      AnsweredIsNumbered(d, a, e.p, e.f.loads, sent, prec);
    }
  }

  lemma AnsweredIsNumbered(d: Device, a: Address, p: PreKeyMessage, loads: LoadFaults, sent: seq<Stamp>,
                           prec: Preceding)
    requires Answered(d, Load(d, a), p, loads).Ok? && AllNumbered(StatesAt(d, a), sent, prec)
    ensures var states := Answered(d, Load(d, a), p, loads).value.0.States();
            AllNumbered(states, sent, prec) && KeysOf(states) <= KeysOf(StatesAt(d, a))
  {
    Lifetimes.AnsweredKeepsOlder(d, a, p, loads);
    var (states, held) := (Answered(d, Load(d, a), p, loads).value.0.States(), StatesAt(d, a));
    if !HasSession(Load(d, a), p.version, p.baseKey) {
      NewAnswerIsIdle(d, a, p, loads);
      hide Answered, HasSession, SendingKey, NextCounter, LastCounter;
      forall i | 0 < i < |states|
        ensures states[i] == held[i - 1]
      {
        assert states[i] == states[1..][i - 1];
      }
      forall k | k in KeysOf(states)
        ensures k in KeysOf(held)
      {
        var i :| 0 <= i < |states| && SendingKey(states[i]) == Some(k);
        assert SendingKey(held[i - 1]) == Some(k);
      }
    }
  }

  lemma NewAnswerIsIdle(d: Device, a: Address, p: PreKeyMessage, loads: LoadFaults)
    requires Answered(d, Load(d, a), p, loads).Ok? && !HasSession(Load(d, a), p.version, p.baseKey)
    ensures var s := Answered(d, Load(d, a), p, loads).value.0.state; SendingKey(s).None? && NextCounter(s) == 0
  {
    hide HasSession;
  }

  /** The accepting session had, in the stored record, the sending key that `KeyOfSession` finds. */
  lemma KeyBeforeAccepting(d: Device, heard: Heard, e: Event, i: nat)
    requires Safe(d, heard) && Allowed(d, e) && (e.Receive? || e.ReceivePreKey?) && ReadWith(d, e).Some?
    requires i < |ReadWith(d, e).value.0.States()|
    ensures var s := ReadWith(d, e).value.0.States()[i]; KeyOfSession(StatesAt(d, e.a), s.aliceBaseKey) == SendingKey(s)
  {
    var (a, s, states) := (e.a, ReadWith(d, e).value.0.States()[i], StatesAt(d, e.a));
    assert a in d.sessions ==> Load(d, a).States() == states;
    if a in d.sessions {
      LoadedIsIntact(d, heard, a);
    }
    if e.ReceivePreKey? && !HasSession(Load(d, a), e.p.version, e.p.baseKey) {
      Lifetimes.AnsweredKeepsOlder(d, a, e.p, e.f.loads);
      NewAnswerIsIdle(d, a, e.p, e.f.loads);
      if i > 0 {
        assert s == ReadWith(d, e).value.0.States()[1..][i - 1] == states[i - 1];
        hide SendingKey, Intact, ReadWith, HasSession, Answered;
        KeyOfSessionIs(states, i - 1);
      } else if a in d.sessions {
        assert Parsed(e.p);
        NewBaseKey(Load(d, a), Me(d), HeardAt(heard, a), e.p);
      }
    } else {
      if e.ReceivePreKey? {
        Lifetimes.AnsweredKeepsOlder(d, a, e.p, e.f.loads);
      }
      hide SendingKey, Intact, HasSession, Answered;
      KeyOfSessionIs(states, i);
    }
  }

  lemma ReceiveKeepsCarried(d: Device, heard: Heard, e: Event, sent: seq<Stamp>, prec: Preceding)
    requires Safe(d, heard) && Orderly(d, sent) && Carried(d, sent, prec) && Allowed(d, e)
    requires (e.Receive? || e.ReceivePreKey?) && AcceptedKey(d, e).Some?
    ensures Carried(Step(d, e), sent, PrecedingAfter(d, prec, e))
  {
    hide Step, AcceptedKey, Safe, Carried, Allowed, IntactRecord, DecryptedFromRecord, Remembered, ReadWith;
    hide AllNumbered, Sends, Gapless, KeysOf, SendingKey, KeyOfSession;
    ReceiveStores(d, e);
    ReadIsNumbered(d, heard, e, sent, prec);
    var ((r, m), d', a) := (ReadWith(d, e).value, Step(d, e), e.a);
    assert forall k :: k in prec ==> k.id < d.next by {
      assert Carried(d, sent, prec);
      KeysAreOld(d, sent, prec);
    }
    var i := RecordMovesOn(r, Me(d), Remembered(HeardAt(heard, a), r.States()), m, d.next, sent, prec);
    KeyBeforeAccepting(d, heard, e, i);
    var states' := DecryptedFromRecord(r, m, d.next).record.States();
    assert StatesAt(d', a) == states' && states'[0] == d'.sessions[a].state;
    var (k, before) := (SendingKey(states'[0]).value, SendingKey(r.States()[i]));
    if k in prec {
      CarriedOn(d, d', sent, prec, a);
    } else {
      if before.Some? {
        KeyIsHeld(r.States(), i);
        RetiresAt(d, d', sent, a, before.value);
      }
      CarriedAnew(d, d', sent, prec, a, k, before);
    }
  }

  lemma KeysAreOld(d: Device, sent: seq<Stamp>, prec: Preceding)
    requires Carried(d, sent, prec)
    ensures forall k :: k in prec ==> k.id < d.next
  {
    hide AllNumbered, Retired;
  }

  lemma RetiresAt(d: Device, d': Device, sent: seq<Stamp>, a: Address, k: PublicKey)
    requires Orderly(d, sent) && OnlyAt(d, d', a) && k in KeysOf(StatesAt(d, a)) && k !in KeysOf(StatesAt(d', a))
    ensures Retired(d', k)
  {
    hide Sends, Gapless, KeysOf;
    NoKeys();
    KeysBelow(StatesAt(d, a), d.next, sent);
    forall b | b in d'.sessions && b != a
      ensures k !in KeysOf(d'.sessions[b].States())
    {
      assert KeysOf(d.sessions[a].States()) !! KeysOf(d.sessions[b].States());
    }
  }

  // ---- Opening a session ----

  lemma OpenedIsFirst(d: Device, e: Event)
    requires e.ProcessBundle? && Step(d, e).sessions != d.sessions
    ensures e.a in Step(d, e).sessions && Step(d, e).next == d.next + 2
    ensures var s := Step(d, e).sessions[e.a].state;
            && SendingKey(s) == Some(PublicKey(d.next + 1)) && s.previousCounter == 0
            && s.aliceBaseKey == Some(PublicKey(d.next))
  {
    BundleStores(d, e);
    hide Step;
  }

  lemma BundleKeepsCarried(d: Device, heard: Heard, e: Event, sent: seq<Stamp>, prec: Preceding)
    requires Safe(d, heard) && Carried(d, sent, prec) && e.ProcessBundle? && Step(d, e).sessions != d.sessions
    ensures Carried(Step(d, e), sent, PrecedingAfter(d, prec, e))
  {
    hide Step, Safe, SendingKey, NextCounter, LastCounter, KeyOfSession, IntactRecord, BasesBelow;
    BundleOnlyAt(d, e);
    Lifetimes.BundleKeepsOlder(d, e);
    OpenedIsFirst(d, e);
    var (d', a, k) := (Step(d, e), e.a, PublicKey(d.next + 1));
    var (states, states') := (StatesAt(d, a), StatesAt(d', a));
    assert KeyOfSession(states, states'[0].aliceBaseKey) == None by {
      NoSessionYet(d, heard, a);
    }
    assert k !in prec;
    NoLastCounter(sent);
    forall i | 0 < i < |states'|
      ensures states'[i] == states[i - 1]
    {
      assert states'[i] == states'[1..][i - 1];
    }
    KeysWithNew(states, states', k);
    CarriedAnew(d, d', sent, prec, a, k, None);
  }

  lemma NoSessionYet(d: Device, heard: Heard, a: Address)
    requires Safe(d, heard)
    ensures KeyOfSession(StatesAt(d, a), Some(PublicKey(d.next))) == None
  {
    hide IntactRecord, BasesBelow;
    assert SafeAt(d, heard, a);
    if a in d.sessions {
      YoungBaseKey(d.sessions[a], Me(d), HeardAt(heard, a), d.next);
    }
  }

  lemma KeysWithNew(states: seq<State>, states': seq<State>, k: PublicKey)
    requires states' != [] && SendingKey(states'[0]) == Some(k) && |states'| <= |states| + 1
    requires forall i :: 0 < i < |states'| ==> states'[i] == states[i - 1]
    ensures KeysOf(states') <= KeysOf(states) + {k}
  {
    hide SendingKey;
    forall x | x in KeysOf(states')
      ensures x in KeysOf(states) + {k}
    {
      var j :| 0 <= j < |states'| && SendingKey(states'[j]) == Some(x);
      if j > 0 {
        assert SendingKey(states[j - 1]) == Some(x);
      }
    }
  }

  // ---- Sending ----

  lemma EmittedCarries(d: Device, heard: Heard, e: Event)
    requires Safe(d, heard) && Allowed(d, e) && Emitted(d, e).Some?
    ensures e.a in d.sessions && e.a in Step(d, e).sessions
    ensures var (s, s', m) := (d.sessions[e.a].state, Step(d, e).sessions[e.a].state, Emitted(d, e).value);
            m.previousCounter == s.previousCounter == s'.previousCounter && SendingKey(s) == Some(m.ratchetKey)
  {
    EmittedAfterStore(d, heard, e);
    hide Safe;
    NothingToSend(e.text);
  }

  lemma EncryptKeepsCarried(d: Device, heard: Heard, e: Event, sent: seq<Stamp>, prec: Preceding)
    requires Safe(d, heard) && Orderly(d, sent) && Carried(d, sent, prec) && Allowed(d, e) && e.Encrypt?
    requires Emitted(d, e).Some?
    ensures Carried(Step(d, e), sent + StampOf(Emitted(d, e)), prec)
  {
    hide Step, Safe, Allowed, Emitted, Sends, Gapless, KeysOf, SendingKey, NextCounter, Orderly, LastCounter;
    EmittedAfterStore(d, heard, e);
    EmittedCarries(d, heard, e);
    var (d', m) := (Step(d, e), Emitted(d, e).value);
    var last := Stamp(m.ratchetKey, m.counter);
    assert m.ratchetKey in KeysOf(d.sessions[e.a].States()) by {
      KeyIsHeld(d.sessions[e.a].States(), 0);
    }
    forall k | k in prec && prec[k].Some?
      ensures prec[k] != Some(last.key)
    {
      assert Retired(d, prec[k].value);
    }
    forall b | b in d'.sessions
      ensures AllNumbered(d'.sessions[b].States(), sent + [last], prec)
      ensures KeysOf(d'.sessions[b].States()) == KeysOf(d.sessions[b].States())
    {
      var (states, states') := (d.sessions[b].States(), d'.sessions[b].States());
      forall i | 0 <= i < |states'|
        ensures Numbered(states'[i], sent + [last], prec) && SendingKey(states'[i]) == SendingKey(states[i])
      {
        assert Numbered(states[i], sent, prec);
        if SendingKey(states[i]).Some? {
          LastCounterOneMore(sent, last, prec[SendingKey(states[i]).value]);
        }
      }
      SameKeys(states, states');
    }
    forall k | k in prec && prec[k].Some?
      ensures Retired(d', prec[k].value)
    {
      assert Retired(d, prec[k].value);
    }
  }

  // ---- Every run ----

  /** A step that leaves the sessions alone, or deletes some. */
  lemma SessionsKeptCarried(d: Device, d': Device, sent: seq<Stamp>, prec: Preceding)
    requires Carried(d, sent, prec) && d'.next >= d.next
    requires forall a :: a in d'.sessions ==> a in d.sessions && d'.sessions[a] == d.sessions[a]
    ensures Carried(d', sent, prec)
  {
    hide AllNumbered, KeysOf;
    forall k | k in prec && prec[k].Some?
      ensures Retired(d', prec[k].value)
    {
      assert Retired(d, prec[k].value);
    }
  }

  lemma NothingPrecedes(d: Device, heard: Heard, sent: seq<Stamp>, prec: Preceding, e: Event)
    requires Carried(d, sent, prec) && Step(d, e).sessions == d.sessions
    ensures PrecedingAfter(d, prec, e) == prec
  {
    hide Step, Retired, KeyOfSession, LastCounter;
    if (e.Receive? || e.ReceivePreKey? || e.ProcessBundle?) && e.a in d.sessions {
      var s := d.sessions[e.a].state;
      assert s == d.sessions[e.a].States()[0];
      assert Numbered(s, sent, prec);
    }
  }

  lemma StepKeepsCarried(d: Device, heard: Heard, e: Event, sent: seq<Stamp>, prec: Preceding)
    requires Safe(d, heard) && Orderly(d, sent) && Carried(d, sent, prec) && Allowed(d, e)
    ensures Carried(Step(d, e), sent + StampOf(Emitted(d, e)), PrecedingAfter(d, prec, e))
  {
    hide Safe, Carried, Orderly, AcceptedKey, Allowed;
    assert !e.Encrypt? ==> sent + StampOf(Emitted(d, e)) == sent;
    if e.Encrypt? {
      EncryptStores(d, e);
      assert PrecedingAfter(d, prec, e) == prec;
      if Emitted(d, e).Some? {
        EncryptKeepsCarried(d, heard, e, sent, prec);
      } else {
        assert Step(d, e) == d && sent + [] == sent;
      }
    } else {
      hide Emitted;
      NotSending(d, heard, e, sent, prec);
    }
  }

  lemma NotSending(d: Device, heard: Heard, e: Event, sent: seq<Stamp>, prec: Preceding)
    requires Safe(d, heard) && Orderly(d, sent) && Carried(d, sent, prec) && Allowed(d, e) && !e.Encrypt?
    ensures Carried(Step(d, e), sent, PrecedingAfter(d, prec, e))
  {
    hide Safe, Carried, Orderly, AcceptedKey, Allowed, SignalMessageDecrypted, PreKeyMessageDecrypted, BundleProcessed;
    if e.Receive? || e.ReceivePreKey? {
      ReceiveStores(d, e);
      if AcceptedKey(d, e).Some? {
        ReceiveKeepsCarried(d, heard, e, sent, prec);
      }
    }
    if e.ProcessBundle? {
      BundleOnlyAt(d, e);
      if Step(d, e).sessions != d.sessions {
        BundleKeepsCarried(d, heard, e, sent, prec);
      }
    }
    if Step(d, e).sessions == d.sessions {
      NothingPrecedes(d, heard, sent, prec, e);
      SessionsKeptCarried(d, Step(d, e), sent, prec);
    } else if e.DeleteSession? {
      SessionsKeptCarried(d, Step(d, e), sent, prec);
    }
  }

  lemma {:induction false} RunKeepsCarried(d: Device, events: seq<Event>)
    requires Installed(d) && AllowedRun(d, events)
    ensures Carried(Run(d, events), SentIn(d, events), PrecedingIn(d, events))
  {
    hide Step, Allowed, Safe, Emitted, HeardIn, Orderly, PrecedingAfter;
    if events != [] {
      var (before, last) := (events[..|events| - 1], events[|events| - 1]);
      PrefixIsAllowed(d, events, |events| - 1);
      RunKeepsSafe(d, before);
      RunKeepsOrder(d, before);
      RunKeepsCarried(d, before);
      StepKeepsCarried(Run(d, before), HeardIn(d, before), last, SentIn(d, before), PrecedingIn(d, before));
    }
  }

  /** Over every run, an emitted message carries as previous counter the counter of the last message sent under the key
      its session sent under before, or 0 if there is no such key or nothing was sent under it. */
  lemma PreviousCounterIsLast(d: Device, events: seq<Event>, j: nat)
    requires Installed(d) && AllowedRun(d, events) && j < |events| && Emitted(Run(d, events[..j]), events[j]).Some?
    ensures var (m, prec) := (Emitted(Run(d, events[..j]), events[j]).value, PrecedingIn(d, events[..j]));
            && m.ratchetKey in prec
            && m.previousCounter == LastCounter(SentIn(d, events[..j]), prec[m.ratchetKey])
  {
    var (w, e) := (Run(d, events[..j]), events[j]);
    assert e.Encrypt?;
    PrefixIsAllowed(d, events, j);
    StepIsAllowed(d, events, j);
    hide Run, AllowedRun, Emitted, Step, Allowed, SentIn, PrecedingIn, Safe, LastCounter, Retired;
    RunKeepsSafe(d, events[..j]);
    RunKeepsCarried(d, events[..j]);
    EmittedCarries(w, HeardIn(d, events[..j]), e);
    var s := w.sessions[e.a].state;
    assert s == w.sessions[e.a].States()[0];
    assert Numbered(s, SentIn(d, events[..j]), PrecedingIn(d, events[..j]));
  }
}
