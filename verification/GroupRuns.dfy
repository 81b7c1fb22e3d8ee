/**
 Whole runs of a group: one sender who may start over with new keys, any number of
 members who install distribution messages at any time and again, and a network that
 drops, duplicates and reorders but does not forge. Calls that fail to store change
 nothing and need no step of their own.
 */
module GroupRuns {
  import opened Common
  import opened Crypto
  import opened Ratchet
  import opened SkipWindow
  import opened Messages
  import opened SessionRecords
  import opened SenderKeys
  import opened GroupCiphers

  /** An emitted message, with the name of the seed its sender had started from and its text. */
  datatype GroupLetter = GroupLetter(message: SenderKeyMessage, base: nat, text: Text)

  datatype Issue = Issue(distribution: Distribution, base: nat)

  /** About an installed state: the seed it comes from, the iteration it was installed at, and what became of the
      iterations since. */
  datatype Tag = Tag(base: nat, first: nat, history: History)

  datatype Member = Member(record: SenderRecord, tags: seq<Tag>)

  datatype GroupWorld = GroupWorld(
    sender: SenderRecord, base: nat, ids: map<nat, uint32>,
    issued: seq<Issue>, sent: seq<GroupLetter>,
    members: map<string, Member>,
    next: nat)

  const NOBODY: GroupWorld := GroupWorld([], 0, map[], [], [], map[], 0)

  datatype GroupEvent =
    | Distribute(keyId: uint32)
    | Say(text: Text)
    | StartOver
    | Install(who: string, n: nat)
    | Hear(who: string, n: nat)

  function MemberOf(w: GroupWorld, who: string): Member {
    if who in w.members then w.members[who] else Member([], [])
  }

  function Installed(m: Member, issue: Issue): Member {
    Member(WithState(m.record, InstalledState(issue.distribution)),
           FirstN([Tag(issue.base, issue.distribution.iteration, NOTHING)] + m.tags, MAX_STATES))
  }

  function Heard(m: Member, message: SenderKeyMessage): Member {
    match GroupDecrypted(m.record, message)
    case Err(_) => m
    case Ok((record, _)) =>
      var i := FindState(m.record, message.keyId).value;
      if i >= |m.tags| then m.(record := record)
      else
        var h := After(m.tags[i].history, SenderWindow(m.record[i]), message.iteration);
        Member(record, m.tags[i := m.tags[i].(history := h)])
  }

  function Step(w: GroupWorld, e: GroupEvent): GroupWorld {
    match e
    case Distribute(keyId) =>
      var w1 := if w.sender != [] then w
                else w.(sender := WithOwnState([], keyId, w.next), base := w.next, ids := w.ids[w.next := keyId],
                        next := w.next + 2);
      w1.(issued := w1.issued + [Issue(DistributionOf(w1.sender[0]), w1.base)])
    case Say(text) =>
      (match GroupEncrypted(w.sender, text)
       case Err(_) => w
       case Ok((record, m)) => w.(sender := record, sent := w.sent + [GroupLetter(m, w.base, text)]))
    case StartOver => w.(sender := [])
    case Install(who, n) =>
      if n >= |w.issued| then w
      else w.(members := w.members[who := Installed(MemberOf(w, who), w.issued[n])])
    case Hear(who, n) =>
      if n >= |w.sent| then w
      else w.(members := w.members[who := Heard(MemberOf(w, who), w.sent[n].message)])
  }

  /** The sender's iteration does not wrap. */
  predicate Allowed(w: GroupWorld, e: GroupEvent) {
    e.Say? && w.sender != [] ==> w.sender[0].chainKey.iteration < TWO32 - 1
  }

  function Run(events: seq<GroupEvent>): GroupWorld {
    if events == [] then NOBODY else Step(Run(events[..|events| - 1]), events[|events| - 1])
  }

  predicate AllowedRun(events: seq<GroupEvent>) {
    forall i :: 0 <= i < |events| ==> Allowed(Run(events[..i]), events[i])
  }

  // ---- What every step keeps ----

  /** The sender's own state is on the chain of its seed. */
  predicate SenderStands(w: GroupWorld) {
    w.sender != [] ==>
      && |w.sender| == 1 && w.base in w.ids && w.base + 1 < w.next
      && var s := w.sender[0];
         s == SenderState(w.ids[w.base], SenderChainAt(Random(w.base), s.chainKey.iteration),
                          PublicKey(w.base + 1), Some(PrivateKey(w.base + 1)), [])
  }

  predicate GoodIssue(w: GroupWorld, issue: Issue) {
    && issue.base in w.ids
    && issue.distribution == Distribution(w.ids[issue.base], issue.distribution.iteration,
                                          StepSecret(Random(issue.base), issue.distribution.iteration),
                                          PublicKey(issue.base + 1))
  }

  predicate GoodLetter(w: GroupWorld, l: GroupLetter) {
    && l.base in w.ids && l.message.iteration < TWO32 - 1
    && l.message == GroupSeal(w.ids[l.base], SenderKeyAt(Random(l.base), l.message.iteration), l.text,
                              PrivateKey(l.base + 1))
    && (w.sender != [] && l.base == w.base ==> l.message.iteration < w.sender[0].chainKey.iteration)
  }

  /** An installed state is on the chain of its seed, and its window accounts for every iteration since. */
  ghost predicate GoodState(w: GroupWorld, s: SenderState, tag: Tag) {
    && tag.base in w.ids && s.keyId == w.ids[tag.base] && s.signingPublic == PublicKey(tag.base + 1)
    && OnBase(s, Random(tag.base))
    && Conserved(tag.first, SenderWindow(s), tag.history)
  }

  ghost predicate GoodMember(w: GroupWorld, m: Member) {
    && |m.tags| == |m.record| <= MAX_STATES
    && forall i :: 0 <= i < |m.record| ==> GoodState(w, m.record[i], m.tags[i])
  }

  /** No iteration is used twice under the same seed. */
  predicate Rising(sent: seq<GroupLetter>) {
    forall i, j :: 0 <= i < j < |sent| && sent[i].base == sent[j].base ==>
        sent[i].message.iteration < sent[j].message.iteration
  }

  ghost predicate InStep(w: GroupWorld) {
    && SenderStands(w)
    && (forall b :: b in w.ids ==> b < w.next)
    && (forall i :: 0 <= i < |w.issued| ==> GoodIssue(w, w.issued[i]))
    && (forall i :: 0 <= i < |w.sent| ==> GoodLetter(w, w.sent[i]))
    && (forall who :: who in w.members ==> GoodMember(w, w.members[who]))
    && Rising(w.sent)
  }

  // ---- The verdict on a delivery ----

  /** What becomes of a letter at a member: the outcome in terms of what was installed and heard before. */
  function Outcome(m: Member, l: GroupLetter): Result<Text> {
    match FindState(m.record, l.message.keyId)
    case None => Err(if m.record == [] then NoSession else InvalidMessage)
    case Some(i) =>
      if i >= |m.tags| || m.tags[i].base != l.base then Err(InvalidMessage)
      else
        var (tag, n) := (m.tags[i], l.message.iteration);
        if n < tag.first || n in tag.history.accepted || n in tag.history.evicted then Err(DuplicateMessage)
        else if n > m.record[i].chainKey.iteration + MAX_MESSAGE_KEYS then Err(InvalidMessage)
        else Ok(l.text)
  }

  /** Taking a key from a state installed at iteration `first`. */
  lemma WindowVerdict(first: nat, w: Window, h: History, n: nat)
    requires Conserved(first, w, h)
    ensures match Take(w, n)
            case Duplicate => n < first || n in h.accepted || n in h.evicted
            case TooFar => n > w.index + MAX_MESSAGE_KEYS && n !in h.accepted && n !in h.evicted && n >= first
            case Accepted(w') =>
              && n <= w.index + MAX_MESSAGE_KEYS && n !in h.accepted && n !in h.evicted && n >= first
              && Conserved(first, w', After(h, w, n))
  {
    if n < first {
      BelowTheStartIsDuplicate(first, w, n);
    } else {
      TakeConserves(first, w, h, n);
    }
  }

  lemma HeardByState(w: GroupWorld, s: SenderState, tag: Tag, l: GroupLetter)
    requires GoodState(w, s, tag) && GoodLetter(w, l) && tag.base == l.base
    ensures SignatureVerifies(l.message, s.signingPublic)
    ensures var n := l.message.iteration;
            if n < tag.first || n in tag.history.accepted || n in tag.history.evicted then
              TakeSenderKey(s, n) == Err(DuplicateMessage)
            else if n > s.chainKey.iteration + MAX_MESSAGE_KEYS then
              TakeSenderKey(s, n) == Err(InvalidMessage)
            else
              && TakeSenderKey(s, n).Ok?
              && OpenBody(TakeSenderKey(s, n).value.1, l.message.body) == Some(l.text)
              && GoodState(w, TakeSenderKey(s, n).value.0,
                           tag.(history := After(tag.history, SenderWindow(s), n)))
  {
    hide TakeSenderKey, Conserved, Take, OnBase;
    assert |s.messageKeys| <= MAX_MESSAGE_KEYS by {
      assert Tidy(tag.first, SenderWindow(s)) by {
        ConservedIsTidy(tag.first, SenderWindow(s), tag.history);
      }
    }
    WindowVerdict(tag.first, SenderWindow(s), tag.history, l.message.iteration);
    TakeSenderKeyRefines(s, Random(tag.base), l.message.iteration);
  }

  /** The exact verdict on every delivery, and the member it leaves behind. */
  lemma DeliveryVerdict(w: GroupWorld, m: Member, l: GroupLetter)
    requires GoodMember(w, m) && GoodLetter(w, l)
    ensures Outcome(m, l)
            == match GroupDecrypted(m.record, l.message) case Err(e) => Err(e) case Ok((_, text)) => Ok(text)
    ensures GoodMember(w, Heard(m, l.message))
  {
    hide TakeSenderKey, GoodState, OpenBody;
    match FindState(m.record, l.message.keyId)
    case None =>
    case Some(i) =>
      assert GoodState(w, m.record[i], m.tags[i]);
      if m.tags[i].base == l.base {
        HeardByState(w, m.record[i], m.tags[i], l);
      } else {
        OtherSigner(w, m.record[i], m.tags[i], l);
      }
  }

  lemma OtherSigner(w: GroupWorld, s: SenderState, tag: Tag, l: GroupLetter)
    requires GoodState(w, s, tag) && GoodLetter(w, l) && tag.base != l.base
    ensures !SignatureVerifies(l.message, s.signingPublic)
  {
  }

  // ---- Steps ----

  /** The world only grows: what held of an issue, a letter or a member before still does. */
  predicate Extends(w: GroupWorld, w': GroupWorld) {
    forall b :: b in w.ids ==> b in w'.ids && w'.ids[b] == w.ids[b]
  }

  lemma MemberStaysGood(w: GroupWorld, w': GroupWorld, m: Member)
    requires GoodMember(w, m) && Extends(w, w')
    ensures GoodMember(w', m)
  {
    hide OnBase, Conserved;
    forall i | 0 <= i < |m.record|
      ensures GoodState(w', m.record[i], m.tags[i])
    {
      assert GoodState(w, m.record[i], m.tags[i]);
    }
  }

  lemma MembersStayGood(w: GroupWorld, w': GroupWorld)
    requires InStep(w) && Extends(w, w') && w'.members == w.members
    ensures forall who :: who in w'.members ==> GoodMember(w', w'.members[who])
  {
    hide GoodMember, GoodLetter, GoodIssue;
    forall who | who in w'.members
      ensures GoodMember(w', w'.members[who])
    {
      MemberStaysGood(w, w', w.members[who]);
    }
  }

  lemma DistributeKeeps(w: GroupWorld, keyId: uint32)
    requires InStep(w)
    ensures InStep(Step(w, Distribute(keyId)))
  {
    hide GoodMember, Rising, GroupSeal, SenderKeyAt;
    var w' := Step(w, Distribute(keyId));
    MembersStayGood(w, w');
    forall i | 0 <= i < |w'.issued|
      ensures GoodIssue(w', w'.issued[i])
    {
      if i < |w.issued| {
        assert GoodIssue(w, w.issued[i]);
      }
    }
    forall i | 0 <= i < |w'.sent|
      ensures GoodLetter(w', w'.sent[i])
    {
      assert GoodLetter(w, w.sent[i]);
    }
  }

  lemma SayKeeps(w: GroupWorld, text: Text)
    requires InStep(w) && Allowed(w, Say(text))
    ensures InStep(Step(w, Say(text)))
  {
    hide GoodMember, GoodIssue, GroupSeal;
    var w' := Step(w, Say(text));
    MembersStayGood(w, w');
    if w' != w {
      SaidIsGood(w, text);
      forall i | 0 <= i < |w'.issued|
        ensures GoodIssue(w', w'.issued[i])
      {
        IssueStaysGood(w, w', w.issued[i]);
      }
    }
  }

  lemma IssueStaysGood(w: GroupWorld, w': GroupWorld, issue: Issue)
    requires GoodIssue(w, issue) && Extends(w, w')
    ensures GoodIssue(w', issue)
  {
  }

  lemma SaidIsGood(w: GroupWorld, text: Text)
    requires InStep(w) && Allowed(w, Say(text)) && Step(w, Say(text)) != w
    ensures var w' := Step(w, Say(text));
            SenderStands(w') && Rising(w'.sent) && forall i :: 0 <= i < |w'.sent| ==> GoodLetter(w', w'.sent[i])
  {
    hide GoodMember, GoodIssue;
    var w' := Step(w, Say(text));
    var n := w.sender[0].chainKey.iteration;
    StepsReachSenderChainAt(Random(w.base), n, 1);
    forall i | 0 <= i < |w'.sent|
      ensures GoodLetter(w', w'.sent[i])
      ensures i < |w.sent| && w'.sent[i].base == w.base ==> w'.sent[i].message.iteration < n
    {
      if i < |w.sent| {
        assert GoodLetter(w, w.sent[i]);
      }
    }
  }

  lemma InstallKeeps(w: GroupWorld, who: string, n: nat)
    requires InStep(w)
    ensures InStep(Step(w, Install(who, n)))
  {
    hide Rising, GoodLetter, GoodIssue;
    var w' := Step(w, Install(who, n));
    if n < |w.issued| {
      assert GoodMember(w, MemberOf(w, who));
      assert GoodIssue(w, w.issued[n]);
      InstalledIsGood(w, MemberOf(w, who), w.issued[n]);
      OneMemberChanged(w, w', who);
    }
  }

  lemma InstalledIsGood(w: GroupWorld, m: Member, issue: Issue)
    requires GoodMember(w, m) && GoodIssue(w, issue)
    ensures GoodMember(w, Installed(m, issue))
  {
    hide OnBase, Conserved;
    var m' := Installed(m, issue);
    NewStateIsGood(w, issue);
    forall i | 0 <= i < |m'.record|
      ensures GoodState(w, m'.record[i], m'.tags[i])
    {
      if i > 0 {
        assert GoodState(w, m.record[i - 1], m.tags[i - 1]);
      }
    }
  }

  lemma NewStateIsGood(w: GroupWorld, issue: Issue)
    requires GoodIssue(w, issue)
    ensures GoodState(w, InstalledState(issue.distribution), Tag(issue.base, issue.distribution.iteration, NOTHING))
  {
    assert SenderWindow(InstalledState(issue.distribution)) == Window(issue.distribution.iteration, []);
  }

  /** Letters, issues and the sender do not depend on the members. */
  lemma OneMemberChanged(w: GroupWorld, w': GroupWorld, who: string)
    requires InStep(w) && who in w'.members && GoodMember(w, w'.members[who])
    requires w' == w.(members := w.members[who := w'.members[who]])
    ensures InStep(w')
  {
    hide Rising;
    forall x | x in w'.members
      ensures GoodMember(w', w'.members[x])
    {
      MemberStaysGood(w, w', w'.members[x]);
    }
    forall i | 0 <= i < |w'.sent|
      ensures GoodLetter(w', w'.sent[i])
    {
      assert GoodLetter(w, w.sent[i]);
    }
    forall i | 0 <= i < |w'.issued|
      ensures GoodIssue(w', w'.issued[i])
    {
      assert GoodIssue(w, w.issued[i]);
    }
  }

  lemma HearKeeps(w: GroupWorld, who: string, n: nat)
    requires InStep(w)
    ensures InStep(Step(w, Hear(who, n)))
  {
    hide Rising, GoodLetter, GoodIssue, Heard;
    if n < |w.sent| {
      assert GoodMember(w, MemberOf(w, who));
      assert GoodLetter(w, w.sent[n]);
      DeliveryVerdict(w, MemberOf(w, who), w.sent[n]);
      OneMemberChanged(w, Step(w, Hear(who, n)), who);
    }
  }

  lemma StartOverKeeps(w: GroupWorld)
    requires InStep(w)
    ensures InStep(Step(w, StartOver))
  {
    hide GoodMember, Rising;
    var w' := Step(w, StartOver);
    MembersStayGood(w, w');
    forall i | 0 <= i < |w'.sent|
      ensures GoodLetter(w', w'.sent[i])
    {
      assert GoodLetter(w, w.sent[i]);
    }
    forall i | 0 <= i < |w'.issued|
      ensures GoodIssue(w', w'.issued[i])
    {
      assert GoodIssue(w, w.issued[i]);
    }
  }

  lemma {:induction false} RunKeepsInStep(events: seq<GroupEvent>)
    requires AllowedRun(events)
    ensures InStep(Run(events))
  {
    hide Step, InStep, Allowed;
    if events == [] {
      NobodyIsInStep();
    } else {
      var (before, last) := (events[..|events| - 1], events[|events| - 1]);
      assert AllowedRun(before) by {
        forall i | 0 <= i < |before|
          ensures Allowed(Run(before[..i]), before[i])
        {
          assert before[..i] == events[..i];
        }
      }
      RunKeepsInStep(before);
      match last {
        case Distribute(keyId) => DistributeKeeps(Run(before), keyId);
        case Say(text) => SayKeeps(Run(before), text);
        case StartOver => StartOverKeeps(Run(before));
        case Install(who, n) => InstallKeeps(Run(before), who, n);
        case Hear(who, n) => HearKeeps(Run(before), who, n);
      }
    }
  }

  lemma NobodyIsInStep()
    ensures InStep(NOBODY)
  {
  }

  /** Group agreement: in every run, whatever a member installed and in whatever order letters arrive, delivering
      a letter has exactly the stated outcome. It yields the sender's text when the newest state with its key id
      comes from the letter's seed, the letter is not older than the installed iteration, was not heard by this
      state before, has no evicted key and is at most 2000 ahead. A letter older than the installed iteration is
      always a duplicate. */
  lemma GroupAgreement(events: seq<GroupEvent>, who: string, n: nat)
    requires AllowedRun(events) && n < |Run(events).sent|
    ensures var (m, l) := (MemberOf(Run(events), who), Run(events).sent[n]);
            Outcome(m, l) == match GroupDecrypted(m.record, l.message)
                             case Err(e) => Err(e)
                             case Ok((_, text)) => Ok(text)
  {
    hide Run, Outcome, GroupDecrypted, GoodLetter, Rising, GoodIssue;
    var w := Run(events);
    RunKeepsInStep(events);
    assert GoodLetter(w, w.sent[n]) && GoodMember(w, MemberOf(w, who));
    DeliveryVerdict(w, MemberOf(w, who), w.sent[n]);
  }

  /** At most once per installed state, with nothing lost: in every run, the iterations of every installed state
      since its installation are exactly the heard, the stored and the evicted ones, and no two letters of the
      sender share a seed and an iteration. */
  lemma GroupKeysConserved(events: seq<GroupEvent>, who: string, i: nat)
    requires AllowedRun(events) && who in Run(events).members && i < |Run(events).members[who].record|
    ensures var m := Run(events).members[who];
            && |m.tags| == |m.record| <= MAX_STATES
            && Conserved(m.tags[i].first, SenderWindow(m.record[i]), m.tags[i].history)
            && Rising(Run(events).sent)
  {
    hide Run, Conserved, Rising, GoodLetter, GoodIssue, OnBase;
    RunKeepsInStep(events);
    assert GoodMember(Run(events), Run(events).members[who]);
    assert GoodState(Run(events), Run(events).members[who].record[i], Run(events).members[who].tags[i]);
  }
}
