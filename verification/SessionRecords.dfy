/**
 A session record (session_record.c): the current state and at most forty archived
 ones, and decrypting a message with the first of them that accepts it.
 */
module SessionRecords {
  import opened Common
  import opened Crypto
  import opened Messages
  import opened SessionStates
  import opened SessionCiphers

  const ARCHIVED_STATES_MAX_LENGTH: nat := 40

  datatype Record = Record(state: State, previous: seq<State>, isFresh: bool)
  {
    /** The current state and the archived ones, newest first. */
    function States(): (r: seq<State>)
      ensures |r| == 1 + |previous|
      ensures r[0] == state && forall i {:trigger r[i]} :: 0 < i < |r| ==> r[i] == previous[i - 1]
    {
      [state] + previous
    }
  }

  const FRESH: Record := Record(EMPTY, [], true)

  function FirstN<T>(s: seq<T>, limit: nat): (r: seq<T>)
    ensures |r| == if |s| <= limit then |s| else limit
    ensures forall i {:trigger r[i]} :: 0 <= i < |r| ==> r[i] == s[i]
  {
    if |s| <= limit then s else s[..limit]
  }

  /** A record holds a session for a base key. */
  predicate HasSession(r: Record, version: nat, baseKey: PublicKey) {
    exists i :: 0 <= i < |r.States()| && r.States()[i].version == version && r.States()[i].aliceBaseKey == Some(baseKey)
  }

  /** The current state is archived in front and the oldest archived state beyond forty is dropped. */
  function Promoted(r: Record, s: State): Record {
    r.(state := s, previous := FirstN([r.state] + r.previous, ARCHIVED_STATES_MAX_LENGTH))
  }

  /** Archiving a full record drops exactly the oldest state, and a record with room loses nothing. */
  lemma ArchivingDropsOnlyTheOldest(r: Record, s: State)
    requires |r.previous| <= ARCHIVED_STATES_MAX_LENGTH
    ensures |Promoted(r, s).previous| <= ARCHIVED_STATES_MAX_LENGTH
    ensures |r.previous| < ARCHIVED_STATES_MAX_LENGTH ==> Promoted(r, s).States() == [s] + r.States()
    ensures |r.previous| == ARCHIVED_STATES_MAX_LENGTH ==>
              Promoted(r, s).States() == [s] + r.States()[..|r.States()| - 1]
  {
  }

  /** The result of a decryption attempt, the record it leaves and the next key pair of the generator. */
  datatype Attempt = Attempt(result: Result<Text>, record: Record, next: nat)

  /** Tries the archived states from the `i`-th on; the one that accepts becomes the current state. */
  function TryArchived(r: Record, m: Message, i: nat, next: nat): (a: Attempt)
    requires i <= |r.previous|
    ensures a.result.Err? ==> a.record == r
    ensures next <= a.next
    decreases |r.previous| - i
  {
    if i == |r.previous| then Attempt(Err(InvalidMessage), r, next)
    else
      var next' := next + DrawnByDecrypt(r.previous[i], m);
      match Decrypted(r.previous[i], m, next)
      case Ok((s, text)) => Attempt(Ok(text), Promoted(r.(previous := RemoveAt(r.previous, i)), s), next')
      case Err(e) => if e != InvalidMessage then Attempt(Err(e), r, next') else TryArchived(r, m, i + 1, next')
  }

  /** Decrypting with a record: the current state first, then the archived ones. A refused message leaves the
      record as it was. */
  function DecryptedFromRecord(r: Record, m: Message, next: nat): (a: Attempt)
    ensures a.result.Err? ==> a.record == r
    ensures next <= a.next
  {
    var next' := next + DrawnByDecrypt(r.state, m);
    match Decrypted(r.state, m, next)
    case Ok((s, text)) => Attempt(Ok(text), r.(state := s), next')
    case Err(e) => if e != InvalidMessage then Attempt(Err(e), r, next') else TryArchived(r, m, 0, next')
  }

  /** `r'` is `r` with its i-th state replaced by `s` and made current. */
  predicate Replaced(r: Record, i: nat, s: State, r': Record) {
    && i < |r.States()|
    && r'.isFresh == r.isFresh
    && r'.state == s
    && r'.previous == RemoveAt(r.States(), i)
  }

  lemma {:induction false} TryArchivedPicksOne(r: Record, m: Message, i: nat, next: nat) returns (j: nat, drawn: nat)
    requires |r.previous| <= ARCHIVED_STATES_MAX_LENGTH && i <= |r.previous|
    requires TryArchived(r, m, i, next).result.Ok?
    ensures i <= j < |r.previous| && next <= drawn && Decrypted(r.previous[j], m, drawn).Ok?
    ensures var a := TryArchived(r, m, i, next);
            && a.next == drawn + DrawnByDecrypt(r.previous[j], m)
            && a.result == Ok(Decrypted(r.previous[j], m, drawn).value.1)
            && Replaced(r, j + 1, Decrypted(r.previous[j], m, drawn).value.0, a.record)
    decreases |r.previous| - i
  {
    hide Decrypted, DrawnByDecrypt;
    match Decrypted(r.previous[i], m, next)
    case Ok((s, _)) =>
      j, drawn := i, next;
      assert [r.state] + RemoveAt(r.previous, i) == RemoveAt(r.States(), i + 1);
    case Err(_) =>
      j, drawn := TryArchivedPicksOne(r, m, i + 1, next + DrawnByDecrypt(r.previous[i], m));
  }

  /** An accepted message is accepted by exactly one of the record's states, which becomes current; every other
      state is kept, unchanged and in order, so promoting loses no session. */
  lemma AcceptedByOneState(r: Record, m: Message, next: nat) returns (i: nat, drawn: nat)
    requires |r.previous| <= ARCHIVED_STATES_MAX_LENGTH
    requires DecryptedFromRecord(r, m, next).result.Ok?
    ensures i < |r.States()| && next <= drawn && Decrypted(r.States()[i], m, drawn).Ok?
    ensures var a := DecryptedFromRecord(r, m, next);
            && a.next == drawn + DrawnByDecrypt(r.States()[i], m)
            && a.result == Ok(Decrypted(r.States()[i], m, drawn).value.1)
            && Replaced(r, i, Decrypted(r.States()[i], m, drawn).value.0, a.record)
  {
    hide Decrypted, DrawnByDecrypt, TryArchived;
    match Decrypted(r.state, m, next)
    case Ok(_) =>
      i, drawn := 0, next;
      assert RemoveAt(r.States(), 0) == r.previous;
    case Err(_) =>
      i, drawn := TryArchivedPicksOne(r, m, 0, next + DrawnByDecrypt(r.state, m));
      i := i + 1;
  }

  lemma DeletedNode<T>(all: seq<T>, at: nat, count: nat)
    requires at <= count < |all|
    ensures var list := all[..at] + all[count..];
            list[..at] + list[at + 1..] == all[..at] + all[count + 1..]
  {
  }

  /** The trimming loop of `session_record_promote_state`: walks the list, deleting every node beyond the fortieth. */
  method TrimArchived<T>(all: seq<T>) returns (list: seq<T>)
    ensures list == FirstN(all, ARCHIVED_STATES_MAX_LENGTH)
  {
    list := all;
    var count, at := 0, 0;
    while at < |list|
      invariant 0 <= at <= count <= |all|
      invariant count <= ARCHIVED_STATES_MAX_LENGTH ==> at == count && list == all
      invariant count > ARCHIVED_STATES_MAX_LENGTH ==>
                  at == ARCHIVED_STATES_MAX_LENGTH && list == all[..at] + all[count..]
      decreases |all| - count
    {
      count := count + 1;
      if count > ARCHIVED_STATES_MAX_LENGTH {
        DeletedNode(all, at, count - 1);
        assert all == all[..at] + all[at..];
        list := list[..at] + list[at + 1..];
      } else {
        at := at + 1;
      }
    }
  }

  class SessionRecord {
    var state: State
    var previous: seq<State>
    var isFresh: bool

    function View(): Record
      reads this
    {
      Record(state, previous, isFresh)
    }

    constructor (r: Record)
      ensures View() == r
    {
      state, previous, isFresh := r.state, r.previous, r.isFresh;
    }

    /** `session_record_has_session_state`. */
    method HasSessionState(version: nat, baseKey: PublicKey) returns (r: bool)
      ensures r <==> HasSession(View(), version, baseKey)
    {
      if state.version == version && state.aliceBaseKey == Some(baseKey) {
        assert View().States()[0] == state;
        return true;
      }
      var i := 0;
      while i < |previous|
        invariant 0 <= i <= |previous|
        invariant forall j :: 0 <= j < i ==>
                    !(previous[j].version == version && previous[j].aliceBaseKey == Some(baseKey))
      {
        if previous[i].version == version && previous[i].aliceBaseKey == Some(baseKey) {
          assert View().States()[i + 1] == previous[i];
          return true;
        }
        i := i + 1;
      }
      return false;
    }

    /** `session_record_promote_state`. */
    method PromoteState(s: State)
      modifies this
      ensures View() == Promoted(old(View()), s)
    {
      previous := [state] + previous;
      state := s;
      previous := TrimArchived(previous);
    }

    /** `session_record_archive_current_state`. */
    method ArchiveCurrentState()
      modifies this
      ensures View() == Promoted(old(View()), EMPTY)
    {
      PromoteState(EMPTY);
    }
  }

  /** `session_cipher_decrypt_from_record_and_signal_message`: each attempt works on a copy of the state. */
  method DecryptFromRecord(record: SessionRecord, m: Message, gen: KeyGenerator) returns (r: Result<Text>)
    modifies record, gen
    ensures var a := DecryptedFromRecord(old(record.View()), m, old(gen.next));
            r == a.result && record.View() == a.record && gen.next == a.next
  {
    hide Decrypted, DrawnByDecrypt;
    var copy := new SessionState(record.state);
    r := DecryptFromState(copy, m, gen);
    if r.Err? && r.error != InvalidMessage {
      return;
    }
    if r.Ok? {
      record.state := copy.View();
      return;
    }
    var i := 0;
    while i < |record.previous|
      invariant 0 <= i <= |record.previous| && record.View() == old(record.View())
      invariant TryArchived(record.View(), m, i, gen.next) == DecryptedFromRecord(old(record.View()), m, old(gen.next))
    {
      copy := new SessionState(record.previous[i]);
      r := DecryptFromState(copy, m, gen);
      if r.Err? && r.error != InvalidMessage {
        return;
      }
      if r.Ok? {
        record.previous := RemoveAt(record.previous, i);
        record.PromoteState(copy.View());
        return;
      }
      i := i + 1;
    }
    return Err(InvalidMessage);
  }
}
