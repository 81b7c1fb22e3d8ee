/**
 What a session is agreed from: both roles feed the key derivation as the X3DH specification
 says, and a set of private keys gives the session exactly if it gives every agreement of an
 identity, a base key, a signed pre key and a one-time key.
 */
module KeyAgreement {
  import opened Common
  import opened Crypto
  import opened Ratchet
  import opened Messages
  import opened SessionStates
  import opened X3dh
  import opened ReceiverChains
  import opened SessionRecords
  import opened Devices
  import opened RecordHistory
  import opened DeviceRuns
  import opened AtMostOnce
  import opened Network
  import opened TwoAddresses

  /** The key pairs that take part, by name: the initiator's identity and base key, the responder's identity, signed
      pre key and, if one is used, one-time pre key. */
  datatype Parts = Parts(initiator: nat, base: nat, responder: nat, signed: nat, oneTime: Option<nat>)

  function PartsOfAlice(p: AliceParameters): Parts {
    Parts(p.ourIdentity.priv.id, p.ourBase.priv.id, p.theirIdentity.id, p.theirSignedPreKey.id,
          if p.theirOneTimePreKey.Some? then Some(p.theirOneTimePreKey.value.id) else None)
  }

  function PartsOfBob(p: BobParameters): Parts {
    Parts(p.theirIdentity.id, p.theirBase.id, p.ourIdentity.priv.id, p.ourSignedPreKey.priv.id,
          if p.ourOneTimePreKey.Some? then Some(p.ourOneTimePreKey.value.priv.id) else None)
  }

  /** The key material of section 3.3 of the X3DH specification: 32 bytes 0xFF, then DH1 to DH3, and DH4 if there is a
      one-time pre key. */
  function KeyMaterial(x: Parts): seq<Block> {
    [Filler(0xFF, 32), Agreed(Between(x.initiator, x.signed)), Agreed(Between(x.base, x.responder)),
     Agreed(Between(x.base, x.signed))]
    + if x.oneTime.Some? then [Agreed(Between(x.base, x.oneTime.value))] else []
  }

  /** These private keys give every agreement. */
  predicate Gives(ids: set<nat>, x: Parts) {
    && (x.initiator in ids || x.signed in ids)
    && (x.base in ids || x.responder in ids)
    && (x.base in ids || x.signed in ids)
    && (x.oneTime.Some? ==> x.base in ids || x.oneTime.value in ids)
  }

  lemma GivesTheMaterial(ids: set<nat>, x: Parts, half: Half)
    ensures Knows(ids, Text(KDF, KeyMaterial(x), half)) <==> Gives(ids, x)
  {
    var input := KeyMaterial(x);
    assert input[1] == Agreed(Between(x.initiator, x.signed)) && input[2] == Agreed(Between(x.base, x.responder));
    assert input[3] == Agreed(Between(x.base, x.signed));
    assert x.oneTime.Some? ==> input[4] == Agreed(Between(x.base, x.oneTime.value));
  }

  /** The first 32 bytes derived from the key material are the root key, the next 32 the first chain key. The initiator
      receives on that chain and steps the root key for its sending chain at once. */
  lemma AliceFollowsTheSpecification(s: State, p: AliceParameters, next: nat)
    ensures var (input, shared) := (KeyMaterial(PartsOfAlice(p)), Between(p.theirRatchet.id, next));
            var (root, chain) := (Text(KDF, input, First), ChainKey(KDF, Text(KDF, input, Second), 0));
            AliceInitialized(s, p, next)
            == s.(version := CURRENT_VERSION, localIdentity := Some(p.ourIdentity.pub),
                  remoteIdentity := Some(p.theirIdentity),
                  receiverChains := LastN(s.receiverChains + [ReceiverChain(p.theirRatchet, chain, [])], 5),
                  rootKey := Some(RootKey(KDF, Ratcheted(KDF, root, shared, First))),
                  senderChain := Some(SenderChain(Some(PairOf(next)),
                                                  Some(ChainKey(KDF, Ratcheted(KDF, root, shared, Second), 0)))))
  {
    assert AliceSecret(p) == KeyMaterial(PartsOfAlice(p));
  }

  /** The responder sends on that chain, under the ratchet key of its bundle. */
  lemma BobFollowsTheSpecification(s: State, p: BobParameters)
    ensures var input := KeyMaterial(PartsOfBob(p));
            var (root, chain) := (Text(KDF, input, First), ChainKey(KDF, Text(KDF, input, Second), 0));
            BobInitialized(s, p)
            == s.(version := CURRENT_VERSION, localIdentity := Some(p.ourIdentity.pub),
                  remoteIdentity := Some(p.theirIdentity), rootKey := Some(RootKey(KDF, root)),
                  senderChain := Some(SenderChain(Some(p.ourRatchet), Some(chain))))
  {
    assert BobSecret(p) == KeyMaterial(PartsOfBob(p));
  }

  /** Exactly which private keys give the initiator's keys. */
  lemma AliceKeysGivenExactly(s: State, p: AliceParameters, next: nat, ids: set<nat>)
    ensures var (t, x) := (AliceInitialized(s, p, next), PartsOfAlice(p));
            var stepped := Gives(ids, x) && (p.theirRatchet.id in ids || next in ids);
            && (Knows(ids, t.receiverChains[|t.receiverChains| - 1].chainKey.key) <==> Gives(ids, x))
            && (Knows(ids, t.rootKey.value.key) <==> stepped)
            && (Knows(ids, t.senderChain.value.chainKey.value.key) <==> stepped)
  {
    hide AliceInitialized, KeyMaterial, Gives;
    AliceFollowsTheSpecification(s, p, next);
    GivesTheMaterial(ids, PartsOfAlice(p), First);
    GivesTheMaterial(ids, PartsOfAlice(p), Second);
  }

  /** Exactly which private keys give the responder's keys. */
  lemma BobKeysGivenExactly(s: State, p: BobParameters, ids: set<nat>)
    ensures var (t, x) := (BobInitialized(s, p), PartsOfBob(p));
            && (Knows(ids, t.rootKey.value.key) <==> Gives(ids, x))
            && (Knows(ids, t.senderChain.value.chainKey.value.key) <==> Gives(ids, x))
  {
    hide BobInitialized, KeyMaterial, Gives;
    BobFollowsTheSpecification(s, p);
    GivesTheMaterial(ids, PartsOfBob(p), First);
    GivesTheMaterial(ids, PartsOfBob(p), Second);
  }

  // ---- Every run ----

  /** The key pairs the session that a step begins is agreed from. */
  function PartsBegun(d: Device, e: Event): Option<Parts> {
    if Answers(d, e) then Some(PartsOfBob(AnswerTo(d, e.p)))
    else if OpensFrom(d, e) then Some(PartsOfAlice(OpeningFor(d, e.b)))
    else None
  }

  lemma BegunFromParts(d: Device, e: Event, a: Address, o: seq<Block>)
    requires Begins(d, e, a, o)
    ensures PartsBegun(d, e).Some? && o == KeyMaterial(PartsBegun(d, e).value)
  {
    hide AcceptedKey, HasSession, HasKeysFor, Step;
    if Answers(d, e) {
      assert BobSecret(AnswerTo(d, e.p)) == KeyMaterial(PartsOfBob(AnswerTo(d, e.p)));
    } else {
      assert AliceSecret(OpeningFor(d, e.b)) == KeyMaterial(PartsOfAlice(OpeningFor(d, e.b)));
    }
  }

  /** Every session held at any point of any run was begun by a step under its address, and any secret derived from it
      is known only to someone whose private keys give the agreements of the key pairs that step used. So two identity
      keys alone never give a session, nor anything in it. */
  lemma SessionNeedsItsKeys(d: Device, events: seq<Event>, a: Address, i: nat, ids: set<nat>, x: Secret)
    returns (m: nat)
    requires Installed(d) && AllowedRun(d, events) && i < |StatesAt(Run(d, events), a)|
    requires Origin(x) == OriginOf(StatesAt(Run(d, events), a)[i])
    ensures m < |events| && PartsBegun(Run(d, events[..m]), events[m]).Some? && events[m].a == a
    ensures var parts := PartsBegun(Run(d, events[..m]), events[m]).value;
            && Origin(x) == KeyMaterial(parts)
            && (Knows(ids, x) ==> Gives(ids, parts))
            && (parts.base !in {parts.initiator, parts.responder} && parts.signed !in {parts.initiator, parts.responder}
                ==> !Knows({parts.initiator, parts.responder}, x))
  {
    hide Run, AllowedRun, OriginOf, KeyMaterial, Begins, PartsBegun, Knows, Origin;
    assert events[..|events|] == events;
    var o := Origin(x);
    assert StillThere(Run(d, events), a, o);
    m := HeldWasBegun(d, events, |events|, a, o);
    BegunFromParts(Run(d, events[..m]), events[m], a, o);
    BegunAt(Run(d, events[..m]), events[m], a, o);
    var parts := PartsBegun(Run(d, events[..m]), events[m]).value;
    KnownGives(ids, parts, x);
    KnownGives({parts.initiator, parts.responder}, parts, x);
  }

  lemma BegunAt(d: Device, e: Event, a: Address, o: seq<Block>)
    requires Begins(d, e, a, o)
    ensures (e.ReceivePreKey? || e.ProcessBundle?) && e.a == a
  {
    hide AcceptedKey, HasSession, Step;
  }

  lemma KnownGives(ids: set<nat>, parts: Parts, x: Secret)
    requires Origin(x) == KeyMaterial(parts)
    ensures Knows(ids, x) ==> Gives(ids, parts)
  {
    if Knows(ids, x) {
      KnowsItsOrigin(ids, x, 1);
      KnowsItsOrigin(ids, x, 2);
      KnowsItsOrigin(ids, x, 3);
      if parts.oneTime.Some? {
        KnowsItsOrigin(ids, x, 4);
      }
    }
  }
}
