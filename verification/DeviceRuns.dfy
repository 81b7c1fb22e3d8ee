/**
 Whole runs of one device: every order of encryptions, decryptions, bundles and changes
 the application makes to its stores, for any number of remote addresses and with any
 store callback and the decrypt callback failing.
 */
module DeviceRuns {
  import opened Common
  import opened Crypto
  import opened Messages
  import opened SessionStates
  import opened SessionCiphers
  import opened SessionRecords
  import opened Devices

  datatype Event =
    | Encrypt(a: Address, text: Text, f: Faults)
    | Receive(a: Address, message: Message, f: Faults)
    | ReceivePreKey(a: Address, p: PreKeyMessage, f: Faults)
    | ProcessBundle(a: Address, b: Bundle, f: Faults)
      // what the application does to the stores
    | AddPreKey(id: uint32)
    | AddSignedPreKey(id: uint32)
    | DeleteSession(a: Address)
    | ForgetIdentity(a: Address)
      // key pairs generated on other devices
    | OtherKeys(count: nat)

  function Step(d: Device, e: Event): Device {
    match e
    case Encrypt(a, text, f) => MessageEncrypted(d, a, text, f).device
    case Receive(a, m, f) => SignalMessageDecrypted(d, a, m, f).device
    case ReceivePreKey(a, p, f) => PreKeyMessageDecrypted(d, a, p, f).device
    case ProcessBundle(a, b, f) => BundleProcessed(d, a, b, f).device
    case AddPreKey(id) => d.(preKeys := d.preKeys[id := PairOf(d.next)], next := d.next + 1)
    case AddSignedPreKey(id) => d.(signedPreKeys := d.signedPreKeys[id := PairOf(d.next)], next := d.next + 1)
    case DeleteSession(a) => d.(sessions := d.sessions - {a})
    case ForgetIdentity(a) => d.(identities := d.identities - {a})
    case OtherKeys(count) => d.(next := d.next + count)
  }

  /** No counter reaches the last 32-bit value, pre-key messages come from the parser, and the keys in a
      pre-key message or a bundle have already been generated. */
  predicate Allowed(d: Device, e: Event) {
    match e
    case Encrypt(a, _, _) =>
      var s := Load(d, a).state;
      s.senderChain.Some? && s.senderChain.value.chainKey.Some? ==> s.senderChain.value.chainKey.value.index < TWO32 - 1
    case Receive(_, m, _) => m.counter < TWO32 - 1
    case ReceivePreKey(_, p, _) => Parsed(p) && p.message.counter < TWO32 - 1 && p.baseKey.id < d.next
    case ProcessBundle(_, b, _) => b.identityKey.id < d.next
    case _ => true
  }

  function Run(d: Device, events: seq<Event>): Device {
    if events == [] then d else Step(Run(d, events[..|events| - 1]), events[|events| - 1])
  }

  predicate AllowedRun(d: Device, events: seq<Event>) {
    forall i :: 0 <= i < |events| ==> Allowed(Run(d, events[..i]), events[i])
  }

  lemma PrefixIsAllowed(d: Device, events: seq<Event>, n: nat)
    requires AllowedRun(d, events) && n <= |events|
    ensures AllowedRun(d, events[..n])
  {
    hide Allowed, Run;
    forall i | 0 <= i < n
      ensures Allowed(Run(d, events[..n][..i]), events[..n][i])
    {
      assert events[..n][..i] == events[..i];
    }
  }

  lemma StepIsAllowed(d: Device, events: seq<Event>, n: nat)
    requires AllowedRun(d, events) && n < |events|
    ensures Allowed(Run(d, events[..n]), events[n])
  {
    hide Allowed, Run;
  }

  /** A device with an identity and no session yet. */
  predicate Installed(d: Device) {
    d.sessions == map[] && d.identity == PairOf(d.identity.pub.id) && d.identity.pub.id < d.next
  }

  /** The MAC key of the message a step accepts: one whose new session state is stored. */
  function AcceptedKey(d: Device, e: Event): Option<Secret> {
    match e
    case Receive(a, m, f) => if SignalMessageDecrypted(d, a, m, f).result.Ok? then Some(m.mac.key) else None
    case ReceivePreKey(a, p, f) =>
      if PreKeyMessageDecrypted(d, a, p, f.(preKeyRemove := false)).result.Ok? then Some(p.message.mac.key) else None
    case _ => None
  }

  /** The message a step hands to the application to send. */
  function Emitted(d: Device, e: Event): Option<Message> {
    match e
    case Encrypt(a, text, f) =>
      (match MessageEncrypted(d, a, text, f).result
       case Ok(envelope) => Some(envelope.Inner())
       case Err(_) => None)
    case _ => None
  }

  // ---- What a step stores ----

  /** The states stored for an address. */
  function StatesAt(d: Device, a: Address): seq<State> {
    if a in d.sessions then d.sessions[a].States() else []
  }

  /** A step changes the record of one address at most. */
  ghost predicate OnlyAt(d: Device, d': Device, a: Address) {
    && d'.identity == d.identity && d'.next >= d.next
    && forall b :: b != a ==>
         (b in d'.sessions <==> b in d.sessions) && (b in d.sessions ==> d'.sessions[b] == d.sessions[b])
  }

  /** An encrypting step leaves the device alone, or stores the record with its sending chain advanced. */
  lemma EncryptStores(d: Device, e: Event)
    requires e.Encrypt?
    ensures OnlyAt(d, Step(d, e), e.a) && Step(d, e).next == d.next && Step(d, e).signedPreKeys == d.signedPreKeys
    ensures Step(d, e).sessions != d.sessions ==>
              var r := Load(d, e.a);
              && e.a in d.sessions && e.a in Step(d, e).sessions && Encrypted(r.state, e.text).Ok?
              && Step(d, e).sessions[e.a] == r.(state := Encrypted(r.state, e.text).value.0)
  {
    NothingToSend(e.text);
    hide Encrypted;
  }

  lemma NothingToSend(text: Text)
    ensures Encrypted(EMPTY, text).Err?
  {
  }

  /** The record and the message a receiving step decrypts with. */
  function ReadWith(d: Device, e: Event): Option<(Record, Message)> {
    match e
    case Receive(a, m, _) => if a in d.sessions then Some((Load(d, a), m)) else None
    case ReceivePreKey(a, p, f) =>
      (match Answered(d, Load(d, a), p, f.loads)
       case Ok((r, _)) => Some((r, p.message))
       case Err(_) => None)
    case _ => None
  }

  /** The step stored what decrypting `m` with `r` left. */
  ghost predicate StoresAccepted(d: Device, d': Device, a: Address, r: Record, m: Message) {
    var t := DecryptedFromRecord(r, m, d.next);
    && t.result.Ok? && d'.next == t.next
    && a in d'.sessions && d'.sessions[a] == t.record.(isFresh := false)
  }

  lemma SignalMessageStores(d: Device, e: Event)
    requires e.Receive?
    ensures OnlyAt(d, Step(d, e), e.a)
    ensures if AcceptedKey(d, e).None? then Step(d, e).sessions == d.sessions
            else ReadWith(d, e).Some? && StoresAccepted(d, Step(d, e), e.a, Load(d, e.a), e.message)
  {
    hide DecryptedFromRecord;
  }

  lemma PreKeyMessageOnlyAt(d: Device, e: Event)
    requires e.ReceivePreKey?
    ensures OnlyAt(d, Step(d, e), e.a)
  {
    hide DecryptedFromRecord, Answered, Load, Trusts;
  }

  lemma PreKeyMessageStores(d: Device, e: Event)
    requires e.ReceivePreKey?
    ensures if AcceptedKey(d, e).None? then Step(d, e).sessions == d.sessions
            else
              && ReadWith(d, e).Some?
              && StoresAccepted(d, Step(d, e), e.a, Answered(d, Load(d, e.a), e.p, e.f.loads).value.0, e.p.message)
  {
    hide DecryptedFromRecord, Answered;
  }

  /** A receiving step leaves the sessions alone, or stores the record that accepted the message. */
  lemma ReceiveStores(d: Device, e: Event)
    requires e.Receive? || e.ReceivePreKey?
    ensures OnlyAt(d, Step(d, e), e.a)
    ensures if AcceptedKey(d, e).None? then Step(d, e).sessions == d.sessions
            else
              && ReadWith(d, e).Some?
              && AcceptedKey(d, e).value == ReadWith(d, e).value.1.mac.key
              && StoresAccepted(d, Step(d, e), e.a, ReadWith(d, e).value.0, ReadWith(d, e).value.1)
  {
    hide StoresAccepted, Answered, SignalMessageDecrypted, PreKeyMessageDecrypted, OnlyAt;
    if e.Receive? {
      SignalMessageStores(d, e);
    } else {
      PreKeyMessageOnlyAt(d, e);
      PreKeyMessageStores(d, e);
    }
  }

  /** Trust comes before everything else a pre-key message does. */
  lemma AcceptedIsTrusted(d: Device, e: Event)
    requires e.ReceivePreKey? && AcceptedKey(d, e).Some?
    ensures Trusts(d, e.a, e.p.identityKey)
  {
    hide DecryptedFromRecord, Answered;
  }

  lemma BundleOnlyAt(d: Device, e: Event)
    requires e.ProcessBundle?
    ensures OnlyAt(d, Step(d, e), e.a)
  {
    hide OpeningState, Cleared;
  }

  /** A bundle leaves the sessions alone or stores the new session in front. */
  lemma BundleStores(d: Device, e: Event)
    requires e.ProcessBundle? && Step(d, e).sessions != d.sessions
    ensures var (d', r) := (Step(d, e), Cleared(Load(d, e.a)));
            && Trusts(d, e.a, e.b.identityKey) && e.b.signedPreKey.Some?
            && e.b.signature == Signature(e.b.identityKey, e.b.signedPreKey.value)
            && e.a in d'.sessions && d'.next == d.next + 2
            && d'.sessions[e.a] == r.(state := OpeningState(d, r.state, e.b), isFresh := false)
  {
    hide OpeningState, Cleared;
  }
}
