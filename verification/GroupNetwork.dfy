/**
 Groups on a network in the hands of an attacker: any number of senders, members who may
 install any distribution message, and delivery of any message at all. The attacker may
 know every seed; what it cannot make is a signature with a signing key that is not its
 own. What a member accepts under a sender's signing key, that sender said; and no
 installed state accepts an iteration twice, whatever arrives.
 */
module GroupNetwork {
  import opened Common
  import opened Crypto
  import opened SkipWindow
  import opened Messages
  import opened SessionRecords
  import opened SenderKeys
  import opened GroupCiphers

  type Name = string

  /** Something a sender said, under a signing key of its own. */
  datatype Saying = Saying(sender: Name, text: Text, message: SenderKeyMessage)

  /** About an installed state: the iteration it was installed at, and what became of the iterations since. */
  datatype Mark = Mark(first: nat, history: History)

  /** A member's record about one sender. */
  datatype Notes = Notes(record: SenderRecord, marks: seq<Mark>)

  /** `own` are the senders' own records, `notes` what members hold about senders, `owners` the senders by the names of
      their signing keys, and `evil` the attacker's key pairs. */
  datatype Groups = Groups(own: map<Name, SenderRecord>, notes: map<(Name, Name), Notes>, owners: map<nat, Name>,
                           evil: set<nat>, said: seq<Saying>, next: nat)

  const NO_GROUPS: Groups := Groups(map[], map[], map[], {}, [], 0)

  datatype Move =
    | Create(name: Name, keyId: uint32)
    | Say(name: Name, text: Text)
    | Reset(name: Name)
    | EvilKey
    | Install(who: Name, about: Name, distribution: Distribution)
    | Hear(who: Name, about: Name, message: SenderKeyMessage)

  function OwnRecord(w: Groups, name: Name): SenderRecord {
    if name in w.own then w.own[name] else []
  }

  function NotesOf(w: Groups, who: Name, about: Name): Notes {
    if (who, about) in w.notes then w.notes[(who, about)] else Notes([], [])
  }

  function Installed(n: Notes, m: Distribution): Notes {
    Notes(WithState(n.record, InstalledState(m)), FirstN([Mark(m.iteration, NOTHING)] + n.marks, MAX_STATES))
  }

  function Heard(n: Notes, m: SenderKeyMessage): Notes {
    match GroupDecrypted(n.record, m)
    case Err(_) => n
    case Ok((record, _)) =>
      var i := FindState(n.record, m.keyId).value;
      if i >= |n.marks| then n.(record := record)
      else
        var h := After(n.marks[i].history, SenderWindow(n.record[i]), m.iteration);
        Notes(record, n.marks[i := n.marks[i].(history := h)])
  }

  function Step(w: Groups, e: Move): Groups {
    match e
    case Create(name, keyId) =>
      if OwnRecord(w, name) != [] then w
      else w.(own := w.own[name := WithOwnState([], keyId, w.next)], owners := w.owners[w.next + 1 := name],
              next := w.next + 2)
    case Say(name, text) =>
      (match GroupEncrypted(OwnRecord(w, name), text)
       case Err(_) => w
       case Ok((record, m)) => w.(own := w.own[name := record], said := w.said + [Saying(name, text, m)]))
    case Reset(name) => w.(own := w.own - {name})
    case EvilKey => w.(evil := w.evil + {w.next}, next := w.next + 1)
    case Install(who, about, m) =>
      w.(notes := w.notes[(who, about) := Installed(NotesOf(w, who, about), m)])
    case Hear(who, about, m) =>
      w.(notes := w.notes[(who, about) := Heard(NotesOf(w, who, about), m)])
  }

  /** The attacker copies a signature or makes one with a key of its own. */
  predicate Signable(w: Groups, m: SenderKeyMessage) {
    m.signature.signer.id in w.evil || exists i :: 0 <= i < |w.said| && w.said[i].message.signature == m.signature
  }

  predicate Allowed(w: Groups, e: Move) {
    match e
    case Hear(_, _, m) => Signable(w, m)
    case _ => true
  }

  function Run(moves: seq<Move>): Groups {
    if moves == [] then NO_GROUPS else Step(Run(moves[..|moves| - 1]), moves[|moves| - 1])
  }

  predicate AllowedRun(moves: seq<Move>) {
    forall i :: 0 <= i < |moves| ==> Allowed(Run(moves[..i]), moves[i])
  }

  /** The last iteration of a chain, after which the 32-bit counter starts again at 0, is not delivered. */
  predicate BelowTheWrap(moves: seq<Move>) {
    forall i :: 0 <= i < |moves| && moves[i].Hear? ==> moves[i].message.iteration < TWO32 - 1
  }

  // ---- What every step keeps ----

  /** A sender's own state signs with a key of that sender. */
  predicate OwnState(w: Groups, name: Name, s: SenderState) {
    && s.signingPublic.id in w.owners && w.owners[s.signingPublic.id] == name
    && s.signingPrivate == Some(PrivateKey(s.signingPublic.id))
  }

  predicate GoodSaying(w: Groups, x: Saying) {
    var m := x.message;
    && m.signature == GroupSignature(m.signature.signer, m.keyId, m.iteration, m.body)
    && m.signature.signer.id in w.owners && w.owners[m.signature.signer.id] == x.sender
    && m.body.text == x.text
  }

  /** Every installed state accounts for every iteration since its installation. */
  ghost predicate GoodNotes(n: Notes) {
    && |n.marks| == |n.record| <= MAX_STATES
    && forall i :: 0 <= i < |n.record| ==> Conserved(n.marks[i].first, SenderWindow(n.record[i]), n.marks[i].history)
  }

  predicate Good(w: Groups) {
    && (forall id :: id in w.owners ==> id < w.next && id !in w.evil)
    && (forall id :: id in w.evil ==> id < w.next)
    && (forall name, i :: name in w.own && 0 <= i < |w.own[name]| ==> OwnState(w, name, w.own[name][i]))
    && forall i :: 0 <= i < |w.said| ==> GoodSaying(w, w.said[i])
  }

  ghost predicate Accounted(w: Groups) {
    forall key :: key in w.notes ==> GoodNotes(w.notes[key])
  }

  lemma InstalledIsGood(n: Notes, m: Distribution)
    requires GoodNotes(n)
    ensures GoodNotes(Installed(n, m))
  {
    hide Conserved;
    var n' := Installed(n, m);
    assert Conserved(m.iteration, SenderWindow(InstalledState(m)), NOTHING) by {
      StartsConserved(m.iteration);
      assert SenderWindow(InstalledState(m)) == Window(m.iteration, []);
    }
    forall i | 0 < i < |n'.record|
      ensures Conserved(n'.marks[i].first, SenderWindow(n'.record[i]), n'.marks[i].history)
    {
      assert n'.record[i] == n.record[i - 1] && n'.marks[i] == n.marks[i - 1];
    }
  }

  lemma StartsConserved(first: nat)
    ensures Conserved(first, Window(first, []), NOTHING)
  {
  }

  /** One state hearing a message: the iteration is new to it, and the account stays exact. */
  lemma TakeOnce(s: SenderState, mark: Mark, iteration: uint32)
    requires Conserved(mark.first, SenderWindow(s), mark.history) && iteration < TWO32 - 1
    requires TakeSenderKey(s, iteration).Ok?
    ensures iteration >= mark.first && iteration !in mark.history.accepted
    ensures Conserved(mark.first, SenderWindow(TakeSenderKey(s, iteration).value.0),
                      After(mark.history, SenderWindow(s), iteration))
  {
    hide TakeSenderKey, Conserved, Take;
    ConservedIsTidy(mark.first, SenderWindow(s), mark.history);
    TakeFollowsTheWindow(s, iteration);
    if iteration < mark.first {
      BelowTheStartIsDuplicate(mark.first, SenderWindow(s), iteration);
    } else {
      TakeConserves(mark.first, SenderWindow(s), mark.history, iteration);
    }
  }

  lemma HeardIsGood(n: Notes, m: SenderKeyMessage)
    requires GoodNotes(n) && m.iteration < TWO32 - 1
    ensures GoodNotes(Heard(n, m))
    ensures GroupDecrypted(n.record, m).Ok? ==>
              var mark := n.marks[FindState(n.record, m.keyId).value];
              m.iteration >= mark.first && m.iteration !in mark.history.accepted
  {
    hide TakeSenderKey, Conserved, OpenBody;
    if GroupDecrypted(n.record, m).Ok? {
      var i := FindState(n.record, m.keyId).value;
      TakeOnce(n.record[i], n.marks[i], m.iteration);
    }
  }

  lemma CreateKeepsGood(w: Groups, name: Name, keyId: uint32)
    requires Good(w)
    ensures Good(Step(w, Create(name, keyId)))
  {
    var w' := Step(w, Create(name, keyId));
    forall n, i | n in w'.own && 0 <= i < |w'.own[n]|
      ensures OwnState(w', n, w'.own[n][i])
    {
      if n in w.own && i < |w.own[n]| && w'.own[n] == w.own[n] {
        assert OwnState(w, n, w.own[n][i]);
      }
    }
    forall i | 0 <= i < |w'.said|
      ensures GoodSaying(w', w'.said[i])
    {
      assert GoodSaying(w, w.said[i]);
    }
  }

  lemma SayKeepsGood(w: Groups, name: Name, text: Text)
    requires Good(w)
    ensures Good(Step(w, Say(name, text)))
  {
    var (w', record) := (Step(w, Say(name, text)), OwnRecord(w, name));
    if w' != w {
      assert OwnState(w, name, record[0]);
      forall n, i | n in w'.own && 0 <= i < |w'.own[n]|
        ensures OwnState(w', n, w'.own[n][i])
      {
        assert OwnState(w, n, w.own[n][i]);
      }
      forall i | 0 <= i < |w'.said|
        ensures GoodSaying(w', w'.said[i])
      {
        if i < |w.said| {
          assert GoodSaying(w, w.said[i]);
        }
      }
    }
  }

  lemma ResetKeepsGood(w: Groups, name: Name)
    requires Good(w)
    ensures Good(Step(w, Reset(name)))
  {
    var w' := Step(w, Reset(name));
    forall n, i | n in w'.own && 0 <= i < |w'.own[n]|
      ensures OwnState(w', n, w'.own[n][i])
    {
      assert OwnState(w, n, w.own[n][i]);
    }
    forall i | 0 <= i < |w'.said|
      ensures GoodSaying(w', w'.said[i])
    {
      assert GoodSaying(w, w.said[i]);
    }
  }

  /** The steps that change no sender and nothing said. */
  lemma OthersKeepGood(w: Groups, e: Move)
    requires Good(w) && (e.EvilKey? || e.Install? || e.Hear?)
    ensures Good(Step(w, e))
  {
    hide Heard, Installed;
    var w' := Step(w, e);
    forall n, i | n in w'.own && 0 <= i < |w'.own[n]|
      ensures OwnState(w', n, w'.own[n][i])
    {
      assert OwnState(w, n, w.own[n][i]);
    }
    forall i | 0 <= i < |w'.said|
      ensures GoodSaying(w', w'.said[i])
    {
      assert GoodSaying(w, w.said[i]);
    }
  }

  lemma StepKeepsAccounted(w: Groups, e: Move)
    requires Accounted(w) && (e.Hear? ==> e.message.iteration < TWO32 - 1)
    ensures Accounted(Step(w, e))
  {
    hide GoodNotes, Heard, Installed, GroupEncrypted;
    NoNotesAreGood();
    if e.Install? {
      InstalledIsGood(NotesOf(w, e.who, e.about), e.distribution);
    }
    if e.Hear? {
      HeardIsGood(NotesOf(w, e.who, e.about), e.message);
    }
  }

  lemma NoNotesAreGood()
    ensures GoodNotes(Notes([], []))
  {
  }

  lemma {:induction false} RunKeepsGood(moves: seq<Move>)
    requires AllowedRun(moves)
    ensures Good(Run(moves))
  {
    hide Step, Good, Allowed;
    if moves == [] {
      NothingIsGood();
    } else {
      var (before, last) := (moves[..|moves| - 1], moves[|moves| - 1]);
      PrefixIsAllowed(moves, |moves| - 1);
      RunKeepsGood(before);
      match last {
        case Create(name, keyId) => CreateKeepsGood(Run(before), name, keyId);
        case Say(name, text) => SayKeepsGood(Run(before), name, text);
        case Reset(name) => ResetKeepsGood(Run(before), name);
        case _ => OthersKeepGood(Run(before), last);
      }
    }
  }

  lemma NothingIsGood()
    ensures Good(NO_GROUPS)
  {
  }

  lemma {:induction false} RunKeepsAccounted(moves: seq<Move>)
    requires BelowTheWrap(moves)
    ensures Accounted(Run(moves))
  {
    hide Step, GoodNotes;
    if moves != [] {
      RunKeepsAccounted(moves[..|moves| - 1]);
      StepKeepsAccounted(Run(moves[..|moves| - 1]), moves[|moves| - 1]);
    }
  }

  lemma PrefixIsAllowed(moves: seq<Move>, n: nat)
    requires AllowedRun(moves) && n <= |moves|
    ensures AllowedRun(moves[..n])
  {
    hide Allowed, Run;
    forall i | 0 <= i < n
      ensures Allowed(Run(moves[..n][..i]), moves[..n][i])
    {
      assert moves[..n][..i] == moves[..i];
    }
  }

  // ---- Every run ----

  /** Somebody said exactly this message, under this signing key, with this text. */
  predicate WasSaid(w: Groups, m: SenderKeyMessage, key: nat, text: Text) {
    exists i :: 0 <= i < |w.said| && w.said[i].message == m && w.said[i].text == text
                && key in w.owners && w.owners[key] == w.said[i].sender
  }

  /** An accepted message is signed by the key of the state that accepts it, and decrypts to the text inside. */
  lemma AcceptedIsSigned(record: SenderRecord, m: SenderKeyMessage)
    requires GroupDecrypted(record, m).Ok?
    ensures FindState(record, m.keyId).Some?
    ensures var key := record[FindState(record, m.keyId).value].signingPublic;
            m.signature == GroupSignature(PrivateKey(key.id), m.keyId, m.iteration, m.body)
    ensures GroupDecrypted(record, m).value.1 == m.body.text
  {
    hide TakeSenderKey;
  }

  /** Group authenticity, over every run and whatever is installed and delivered: a member that accepts a message under
      a signing key that is not the attacker's accepts exactly a message that the owner of that key said, with exactly
      its text. */
  lemma MembersHearOnlyWhatWasSaid(moves: seq<Move>, j: nat)
    requires AllowedRun(moves) && j < |moves| && moves[j].Hear?
    ensures var (w, e) := (Run(moves[..j]), moves[j]);
            var record := NotesOf(w, e.who, e.about).record;
            GroupDecrypted(record, e.message).Ok? ==>
              && FindState(record, e.message.keyId).Some?
              && var key := record[FindState(record, e.message.keyId).value].signingPublic.id;
                 key in w.evil || WasSaid(w, e.message, key, GroupDecrypted(record, e.message).value.1)
  {
    var (w, e) := (Run(moves[..j]), moves[j]);
    assert Allowed(w, e);
    PrefixIsAllowed(moves, j);
    RunKeepsGood(moves[..j]);
    var record := NotesOf(w, e.who, e.about).record;
    hide Run, GroupDecrypted, AllowedRun;
    if GroupDecrypted(record, e.message).Ok? {
      AcceptedIsSigned(record, e.message);
      var key := record[FindState(record, e.message.keyId).value].signingPublic.id;
      if key !in w.evil {
        var x :| 0 <= x < |w.said| && w.said[x].message.signature == e.message.signature;
        assert GoodSaying(w, w.said[x]);
        assert w.said[x].message == e.message;
      }
    }
  }

  /** Replay, over every run below the wrap and whatever is installed and delivered: the state that accepts a message
      was installed at or before its iteration, has not accepted that iteration before, and holds it accepted from then
      on. */
  lemma EachStateHearsOnce(moves: seq<Move>, j: nat)
    requires BelowTheWrap(moves) && j < |moves| && moves[j].Hear?
    ensures var e := moves[j];
            var notes := NotesOf(Run(moves[..j]), e.who, e.about);
            var after := NotesOf(Run(moves[..j + 1]), e.who, e.about);
            GroupDecrypted(notes.record, e.message).Ok? ==>
              && FindState(notes.record, e.message.keyId).Some?
              && var i := FindState(notes.record, e.message.keyId).value;
                 && |after.marks| == |notes.marks| == |notes.record|
                 && notes.marks[i].first == after.marks[i].first <= e.message.iteration
                 && e.message.iteration !in notes.marks[i].history.accepted
                 && after.marks[i].history.accepted == notes.marks[i].history.accepted + {e.message.iteration}
  {
    var (w, e) := (Run(moves[..j]), moves[j]);
    RunKeepsAccounted(moves[..j]);
    assert Run(moves[..j + 1]) == Step(w, e) by {
      assert moves[..j + 1][..j] == moves[..j];
    }
    var notes := NotesOf(w, e.who, e.about);
    hide Run, Conserved, GoodNotes, TakeSenderKey;
    NoNotesAreGood();
    HeardIsGood(notes, e.message);
    NotesFit(notes);
  }

  lemma NotesFit(n: Notes)
    requires GoodNotes(n)
    ensures |n.marks| == |n.record|
  {
  }

  // ---- Two deliveries ----

  /** The state a message with this key id goes to, if there is one, has accepted this iteration. */
  predicate HeardIfThere(n: Notes, keyId: uint32, iteration: uint32) {
    FindState(n.record, keyId).Some? ==>
      && FindState(n.record, keyId).value < |n.marks|
      && iteration in n.marks[FindState(n.record, keyId).value].history.accepted
  }

  lemma FoundAt(record: SenderRecord, keyId: uint32, i: nat)
    requires i < |record| && record[i].keyId == keyId && forall j :: 0 <= j < i ==> record[j].keyId != keyId
    ensures FindState(record, keyId) == Some(i)
  {
  }

  /** Installing a state with another key id moves the states back or drops the oldest. */
  lemma StaysHeardOnInstall(n: Notes, m: Distribution, keyId: uint32, iteration: uint32)
    requires HeardIfThere(n, keyId, iteration) && |n.marks| == |n.record| && m.keyId != keyId
    ensures HeardIfThere(Installed(n, m), keyId, iteration)
  {
    var n' := Installed(n, m);
    match FindState(n'.record, keyId)
    case None =>
    case Some(i) =>
      assert n'.record[i] == n.record[i - 1] && n'.marks[i] == n.marks[i - 1];
      forall j | 0 <= j < i - 1
        ensures n.record[j].keyId != keyId
      {
        assert n'.record[j + 1] == n.record[j];
      }
      FoundAt(n.record, keyId, i - 1);
  }

  lemma TakeKeepsKeyId(s: SenderState, iteration: uint32)
    requires TakeSenderKey(s, iteration).Ok?
    ensures TakeSenderKey(s, iteration).value.0.keyId == s.keyId
  {
    hide Stored, StepsOn;
  }

  lemma StaysHeardOnHear(n: Notes, m: SenderKeyMessage, keyId: uint32, iteration: uint32)
    requires HeardIfThere(n, keyId, iteration) && |n.marks| == |n.record|
    ensures HeardIfThere(Heard(n, m), keyId, iteration)
  {
    hide TakeSenderKey, OpenBody, SignatureVerifies;
    if GroupDecrypted(n.record, m).Ok? {
      var (i, n') := (FindState(n.record, m.keyId).value, Heard(n, m));
      TakeKeepsKeyId(n.record[i], m.iteration);
      assert |n'.record| == |n.record| && forall j :: 0 <= j < |n.record| ==> n'.record[j].keyId == n.record[j].keyId;
      if FindState(n.record, keyId).Some? {
        FoundAt(n'.record, keyId, FindState(n.record, keyId).value);
      }
    }
  }

  /** The move replaces the state for a key id: a member installs another one with that id about the same sender. */
  predicate Replaces(e: Move, who: Name, about: Name, keyId: uint32) {
    e.Install? && e.who == who && e.about == about && e.distribution.keyId == keyId
  }

  lemma MarksFit(w: Groups, who: Name, about: Name)
    requires Accounted(w)
    ensures var n := NotesOf(w, who, about); |n.marks| == |n.record|
  {
    hide GoodNotes;
    NoNotesAreGood();
    NotesFit(NotesOf(w, who, about));
  }

  lemma StepKeepsHeard(w: Groups, e: Move, who: Name, about: Name, keyId: uint32, iteration: uint32)
    requires Accounted(w) && HeardIfThere(NotesOf(w, who, about), keyId, iteration) && !Replaces(e, who, about, keyId)
    ensures HeardIfThere(NotesOf(Step(w, e), who, about), keyId, iteration)
  {
    hide HeardIfThere, Installed, Heard, GroupEncrypted, Accounted;
    MarksFit(w, who, about);
    if (e.Install? || e.Hear?) && (e.who, e.about) == (who, about) {
      if e.Install? {
        StaysHeardOnInstall(NotesOf(w, who, about), e.distribution, keyId, iteration);
      } else {
        StaysHeardOnHear(NotesOf(w, who, about), e.message, keyId, iteration);
      }
    }
  }

  lemma {:induction false} StaysHeard(moves: seq<Move>, i: nat, j: nat, who: Name, about: Name, keyId: uint32,
                                      iteration: uint32)
    requires BelowTheWrap(moves) && i <= j <= |moves|
    requires HeardIfThere(NotesOf(Run(moves[..i]), who, about), keyId, iteration)
    requires forall n :: i <= n < j ==> !Replaces(moves[n], who, about, keyId)
    ensures HeardIfThere(NotesOf(Run(moves[..j]), who, about), keyId, iteration)
    decreases j
  {
    hide Step, HeardIfThere, NotesOf, Accounted, Replaces;
    if i < j {
      StaysHeard(moves, i, j - 1, who, about, keyId, iteration);
      assert Run(moves[..j]) == Step(Run(moves[..j - 1]), moves[j - 1]) by {
        assert moves[..j][..j - 1] == moves[..j - 1];
      }
      RunKeepsAccounted(moves[..j - 1]);
      StepKeepsHeard(Run(moves[..j - 1]), moves[j - 1], who, about, keyId, iteration);
    }
  }

  /** The outcome of a delivery in a run. */
  predicate Accepts(moves: seq<Move>, i: nat)
    requires i < |moves|
  {
    var e := moves[i];
    e.Hear? && GroupDecrypted(NotesOf(Run(moves[..i]), e.who, e.about).record, e.message).Ok?
  }

  /** At most once, over every run below the wrap and whatever is installed and delivered: a member accepts two messages
      about one sender with the same key id and iteration only if it installed another distribution with that key id in
      between. */
  lemma HeardAtMostOnce(moves: seq<Move>, i: nat, j: nat)
    requires BelowTheWrap(moves) && i < j < |moves| && Accepts(moves, i) && Accepts(moves, j)
    requires (moves[i].who, moves[i].about) == (moves[j].who, moves[j].about)
    requires var (m, m') := (moves[i].message, moves[j].message); m.keyId == m'.keyId && m.iteration == m'.iteration
    ensures exists n :: i < n < j && Replaces(moves[n], moves[i].who, moves[i].about, moves[i].message.keyId)
  {
    var e := moves[i];
    hide Run, GroupDecrypted;
    EachStateHearsOnce(moves, i);
    EachStateHearsOnce(moves, j);
    if forall n :: i < n < j ==> !Replaces(moves[n], e.who, e.about, e.message.keyId) {
      HeardAfterwards(moves, i);
      StaysHeard(moves, i + 1, j, e.who, e.about, e.message.keyId, e.message.iteration);
    }
  }

  lemma HeardAfterwards(moves: seq<Move>, i: nat)
    requires BelowTheWrap(moves) && i < |moves| && Accepts(moves, i)
    ensures HeardIfThere(NotesOf(Run(moves[..i + 1]), moves[i].who, moves[i].about), moves[i].message.keyId,
                         moves[i].message.iteration)
  {
    var e := moves[i];
    EachStateHearsOnce(moves, i);
    assert moves[..i + 1][..i] == moves[..i];
    var (n, w) := (NotesOf(Run(moves[..i]), e.who, e.about), Run(moves[..i]));
    assert Run(moves[..i + 1]) == Step(w, e);
    hide Run, TakeSenderKey, OpenBody, SignatureVerifies, After;
    var t := FindState(n.record, e.message.keyId).value;
    TakeKeepsKeyId(n.record[t], e.message.iteration);
    FoundAt(Heard(n, e.message).record, e.message.keyId, t);
  }

  // ---- One call ----

  /** What encrypting gives: a message of the current iteration under the keys of the chain's seed, signed by the
      sender over key id, iteration and ciphertext; the chain moves on by one. A member without the sender's private
      key cannot encrypt. */
  lemma EncryptOutcome(record: SenderRecord, text: Text)
    ensures GroupEncrypted(record, text)
            == if record == [] then Err(NoSession)
               else if record[0].signingPrivate.None? then Err(InvalidKey)
               else
                 var (s, seed) := (record[0], Hmac(record[0].chainKey.seed, 1));
                 var body := Cbc(GroupPart(seed, CipherPart), GroupPart(seed, IvPart), text);
                 var signature := GroupSignature(s.signingPrivate.value, s.keyId, s.chainKey.iteration, body);
                 var next := SenderChainKey(Increment(s.chainKey.iteration), Hmac(s.chainKey.seed, 2));
                 Ok((record[0 := s.(chainKey := next)],
                     SenderKeyMessage(s.keyId, s.chainKey.iteration, body, signature)))
  {
  }

  /** What decrypting says to any message at all, when the newest state with its key id lies on a seed: the signature
      first, then the window of iterations, then the ciphertext. */
  function DecryptVerdict(record: SenderRecord, m: SenderKeyMessage, base: Secret): Result<Text> {
    if record == [] then Err(NoSession)
    else match FindState(record, m.keyId)
      case None => Err(InvalidMessage)
      case Some(i) =>
        if m.signature != GroupSignature(PrivateKey(record[i].signingPublic.id), m.keyId, m.iteration, m.body) then
          Err(InvalidMessage)
        else match Take(SenderWindow(record[i]), m.iteration)
          case Duplicate => Err(DuplicateMessage)
          case TooFar => Err(InvalidMessage)
          case Accepted(_) =>
            var key := SenderKeyAt(base, m.iteration);
            if m.body == Cbc(key.cipherKey, key.iv, m.body.text) then Ok(m.body.text) else Err(Unknown)
  }

  lemma DecryptOutcome(record: SenderRecord, m: SenderKeyMessage, base: Secret)
    requires m.iteration < TWO32 - 1
    requires var at := FindState(record, m.keyId);
             at.Some? ==> OnBase(record[at.value], base) && |record[at.value].messageKeys| <= MAX_MESSAGE_KEYS
    ensures DecryptVerdict(record, m, base)
            == match GroupDecrypted(record, m)
               case Err(e) => Err(e)
               case Ok((_, text)) => Ok(text)
  {
    hide TakeSenderKey, SenderKeyAt, OnBase;
    if FindState(record, m.keyId).Some? {
      TakeSenderKeyRefines(record[FindState(record, m.keyId).value], base, m.iteration);
    }
  }

  /** Asking for a distribution message: an existing record is kept and its current position handed out, so that a
      member who installs it reads from there on; an empty one gets a first state with a new seed and signing pair. */
  lemma DistributeOutcome(record: SenderRecord, keyId: uint32, next: nat)
    ensures var after := WithOwnState(record, keyId, next);
            && (record != [] ==> after == record)
            && (record == [] ==>
                  |after| == 1 && after[0].keyId == keyId && after[0].chainKey == SenderChainKey(0, Random(next))
                  && after[0].signingPublic == PublicKey(next + 1)
                  && after[0].signingPrivate == Some(PrivateKey(next + 1)) && after[0].messageKeys == [])
            && var (s, t) := (after[0], InstalledState(DistributionOf(after[0])));
               t == s.(signingPrivate := None, messageKeys := [])
  {
  }

  /** Installing a distribution message keeps the four newest of the older states, unchanged and in order. */
  lemma InstallOutcome(record: SenderRecord, m: Distribution)
    ensures var after := WithState(record, InstalledState(m));
            && after != []
            && after[0] == SenderState(m.keyId, SenderChainKey(m.iteration, m.seed), m.signingKey, None, [])
            && after[1..] == if |record| <= 4 then record else record[..4]
  {
  }
}
